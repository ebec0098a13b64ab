/** The JavaScript string operations the configuration rewriters use. A JavaScript string is a
    sequence of UTF-16 code units; here it is a sequence of Dafny `char`s, which are Unicode
    scalar values, so the two agree on text within the Basic Multilingual Plane. */
module JsStrings {

  /** `sub` occurs in `s` starting at index `i`. */
  predicate OccursAt(s: string, sub: string, i: nat) {
    i + |sub| <= |s| && s[i..i + |sub|] == sub
  }

  /** `s.startsWith(prefix)`. */
  predicate StartsWith(s: string, prefix: string) {
    |prefix| <= |s| && s[..|prefix|] == prefix
  }

  /** `s.includes(sub)`: true exactly when `sub` occurs somewhere in `s`. */
  function Includes(s: string, sub: string): (b: bool)
    ensures b <==> exists i: nat :: OccursAt(s, sub, i)
    decreases |s|
  {
    if |s| < |sub| then
      assert forall i: nat :: !OccursAt(s, sub, i);
      false
    else if StartsWith(s, sub) then
      assert OccursAt(s, sub, 0);
      true
    else
      var rest := Includes(s[1..], sub);
      assert forall j: nat :: OccursAt(s[1..], sub, j) <==> OccursAt(s, sub, j + 1) by {
        forall j: nat ensures OccursAt(s[1..], sub, j) <==> OccursAt(s, sub, j + 1) {
          if j + |sub| <= |s[1..]| {
            assert s[1..][j..j + |sub|] == s[j + 1..j + 1 + |sub|];
          }
        }
      }
      assert !OccursAt(s, sub, 0);
      assert rest ==> exists i: nat :: OccursAt(s, sub, i) by {
        if rest {
          var j: nat :| OccursAt(s[1..], sub, j);
          assert OccursAt(s, sub, j + 1);
        }
      }
      assert (exists i: nat :: OccursAt(s, sub, i)) ==> rest by {
        if exists i: nat :: OccursAt(s, sub, i) {
          var i: nat :| OccursAt(s, sub, i);
          assert i != 0;
          assert OccursAt(s[1..], sub, i - 1);
        }
      }
      rest
  }

  /** The characters the regular expression `/["']/` matches. */
  predicate IsQuote(c: char) {
    c == '"' || c == '\''
  }

  predicate NoQuotes(s: string) {
    forall i :: 0 <= i < |s| ==> !IsQuote(s[i])
  }

  /** `s.replace(/["']/g, '')`: every double and single quote removed, everything else kept. */
  function RemoveQuotes(s: string): (r: string)
    ensures NoQuotes(r)
    ensures |r| <= |s|
    ensures NoQuotes(s) ==> r == s
  {
    if s == [] then []
    else
      var rest := RemoveQuotes(s[1..]);
      assert s == [s[0]] + s[1..];
      if IsQuote(s[0]) then rest else [s[0]] + rest
  }

  /** Every character other than a quote is kept as often as it occurs. */
  lemma {:induction false} RemoveQuotesKeepsOthers(s: string, c: char)
    requires !IsQuote(c)
    ensures multiset(RemoveQuotes(s))[c] == multiset(s)[c]
  {
    if s != [] {
      RemoveQuotesKeepsOthers(s[1..], c);
      assert s == [s[0]] + s[1..];
      assert multiset(s) == multiset{s[0]} + multiset(s[1..]);
    }
  }

  /** Removing quotes works character by character, so it distributes over concatenation. */
  lemma {:induction false} RemoveQuotesAppend(a: string, b: string)
    ensures RemoveQuotes(a + b) == RemoveQuotes(a) + RemoveQuotes(b)
  {
    if a != [] {
      assert (a + b)[0] == a[0] && (a + b)[1..] == a[1..] + b;
      RemoveQuotesAppend(a[1..], b);
      if IsQuote(a[0]) {
        assert RemoveQuotes(a) == RemoveQuotes(a[1..]);
      } else {
        assert RemoveQuotes(a) == [a[0]] + RemoveQuotes(a[1..]);
        assert RemoveQuotes(a + b) == [a[0]] + RemoveQuotes(a[1..] + b);
      }
    } else {
      assert a + b == b;
    }
  }

  /** JavaScript's `ToIntegerOrInfinity` followed by the clamp to `[0, len]` that `substring` applies. */
  function Clamp(x: int, len: nat): (r: nat)
    ensures r <= len
    ensures 0 <= x <= len ==> r == x
  {
    if x < 0 then 0 else if x > len then len else x
  }

  /** `s.substring(start, end)`: both bounds clamped to the string, swapped when out of order. */
  function Substring(s: string, start: int, end: int): (r: string)
    ensures |r| <= |s|
    ensures Includes(s, r)
  {
    var a, b := Clamp(start, |s|), Clamp(end, |s|);
    var r := if a <= b then s[a..b] else s[b..a];
    assert OccursAt(s, r, if a <= b then a else b);
    r
  }

  /** Within range, `s.substring(i, j)` is the characters from `i` up to `j`. */
  lemma SubstringInRange(s: string, i: int, j: int)
    requires 0 <= i <= j <= |s|
    ensures Substring(s, i, j) == s[i..j]
  {
  }

  /** `substring` swaps bounds given out of order. */
  lemma SubstringSwapped(s: string, i: int, j: int)
    ensures Substring(s, i, j) == Substring(s, j, i)
  {
  }

  /** `substring` first clamps each bound to `[0, |s|]`: a negative bound counts as 0 and one past
      the end as `|s|`. */
  lemma SubstringClamped(s: string, i: int, j: int)
    ensures Substring(s, i, j) == Substring(s, Clamp(i, |s|), Clamp(j, |s|))
  {
  }

  /** `s.substring(0, n)` for `n >= 0` is the first `n` characters, or all of `s` when shorter. */
  lemma SubstringPrefix(s: string, n: nat)
    ensures Substring(s, 0, n) == s[..if n < |s| then n else |s|]
    ensures |Substring(s, 0, n)| == if n < |s| then n else |s|
  {
  }

  /** `s.substring(start)` with a negative start is the whole string: the start is clamped to 0,
      it does not count from the end. */
  lemma SubstringNegativeStart(s: string, start: int)
    requires start <= 0
    ensures Substring(s, start, |s|) == s
  {
  }
}
