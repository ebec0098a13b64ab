/** A JavaScript plain object with string keys, as an ordered list of (key, value) pairs.
    The order is insertion order, which is what `Object.keys`, spread and serialisation observe:
    assigning to an existing key replaces its value in place, assigning to a new key appends it. */
module JsObjects {
  import opened Wrappers

  type Obj<V> = seq<(string, V)>

  /** `Object.keys(o)`. */
  function Keys<V>(o: Obj<V>): (ks: seq<string>)
    ensures |ks| == |o|
    ensures forall i :: 0 <= i < |o| ==> ks[i] == o[i].0
  {
    if o == [] then [] else [o[0].0] + Keys(o[1..])
  }

  /** No key occurs twice, as in every JavaScript object. */
  predicate Distinct(ks: seq<string>) {
    forall i, j :: 0 <= i < j < |ks| ==> ks[i] != ks[j]
  }

  predicate WellFormed<V>(o: Obj<V>) {
    Distinct(Keys(o))
  }

  /** `o[k]`: the value stored under `k`, or `None` (`undefined`). */
  function Get<V>(o: Obj<V>, k: string): (r: Option<V>)
    ensures r.None? <==> k !in Keys(o)
  {
    if o == [] then None
    else if o[0].0 == k then Some(o[0].1)
    else Get(o[1..], k)
  }

  /** `o[k] = v` on a copy: an existing key keeps its position and takes the new value,
      a new key is appended. */
  function Put<V>(o: Obj<V>, k: string, v: V): (r: Obj<V>)
    ensures Keys(r) == if k in Keys(o) then Keys(o) else Keys(o) + [k]
  {
    if o == [] then [(k, v)]
    else if o[0].0 == k then
      var r := [(k, v)] + o[1..];
      assert r[1..] == o[1..];
      r
    else
      var rest := Put(o[1..], k, v);
      var r := [o[0]] + rest;
      assert r[1..] == rest;
      r
  }

  /** After `o[k] = v`, `k` holds `v` and every other key keeps its value. */
  lemma {:induction false} PutGet<V>(o: Obj<V>, k: string, v: V, k': string)
    ensures Get(Put(o, k, v), k') == if k' == k then Some(v) else Get(o, k')
  {
    if o != [] {
      var r := Put(o, k, v);
      if o[0].0 == k {
        assert r[0] == (k, v) && r[1..] == o[1..];
      } else {
        PutGet(o[1..], k, v, k');
        assert r[0] == o[0] && r[1..] == Put(o[1..], k, v);
      }
    }
  }

  /** Assigning a key the object lacks appends it. */
  lemma {:induction false} PutNewKey<V>(o: Obj<V>, k: string, v: V)
    requires k !in Keys(o)
    ensures Put(o, k, v) == o + [(k, v)]
  {
    if o != [] {
      assert Keys(o) == [o[0].0] + Keys(o[1..]);
      assert o[0].0 != k && k !in Keys(o[1..]);
      PutNewKey(o[1..], k, v);
      calc {
        Put(o, k, v);
        [o[0]] + Put(o[1..], k, v);
        [o[0]] + (o[1..] + [(k, v)]);
        { assert o == [o[0]] + o[1..]; }
        o + [(k, v)];
      }
    }
  }

  /** Assignment never creates a second copy of a key. */
  lemma PutWellFormed<V>(o: Obj<V>, k: string, v: V)
    requires WellFormed(o)
    ensures WellFormed(Put(o, k, v))
  {
    var ks := Keys(o);
    if k !in ks {
      assert Keys(Put(o, k, v)) == ks + [k];
    }
  }

  /** Assigning the pairs of `es` one after the other, as a `forEach` loop of assignments does. */
  function PutAll<V>(o: Obj<V>, es: seq<(string, V)>): (r: Obj<V>)
    ensures WellFormed(o) ==> WellFormed(r)
  {
    if es == [] then o
    else
      var last := es[|es| - 1];
      var mid := PutAll(o, es[..|es| - 1]);
      if WellFormed(o) then PutWellFormed(mid, last.0, last.1); Put(mid, last.0, last.1)
      else Put(mid, last.0, last.1)
  }

  /** `{...a, ...b}`: a fresh object that receives the properties of `a`, then those of `b`. */
  function Spread<V>(a: Obj<V>, b: Obj<V>): Obj<V> {
    PutAll(PutAll([], a), b)
  }

  /** The keys of `ks` that are not in `seen`, in order. */
  function Fresh(seen: seq<string>, ks: seq<string>): (r: seq<string>)
    ensures forall k :: k in r <==> k in ks && k !in seen
  {
    if ks == [] then []
    else if ks[|ks| - 1] in seen then Fresh(seen, ks[..|ks| - 1])
    else Fresh(seen, ks[..|ks| - 1]) + [ks[|ks| - 1]]
  }

  lemma KeysAppend<V>(a: Obj<V>, b: Obj<V>)
    ensures Keys(a + b) == Keys(a) + Keys(b)
  {
  }

  /** Dropping the last key keeps the rest distinct, and the last key is not among them. */
  lemma DistinctInit(ks: seq<string>)
    requires ks != [] && Distinct(ks)
    ensures Distinct(ks[..|ks| - 1])
    ensures ks[|ks| - 1] !in ks[..|ks| - 1]
  {
  }

  /** Assigning keys that are new and pairwise distinct just appends them. */
  lemma {:induction false} PutAllFresh<V>(o: Obj<V>, es: seq<(string, V)>)
    requires Distinct(Keys(o + es))
    ensures PutAll(o, es) == o + es
  {
    if es != [] {
      var init, last := es[..|es| - 1], es[|es| - 1];
      assert o + es == (o + init) + [last];
      var ks := Keys(o + es);
      assert Keys(o + init) == ks[..|ks| - 1];
      DistinctInit(ks);
      PutAllFresh(o, init);
      PutNewKey(o + init, last.0, last.1);
    }
  }

  /** Copying a well-formed object into an empty one reproduces it. */
  lemma CopyIsIdentity<V>(a: Obj<V>)
    requires WellFormed(a)
    ensures PutAll([], a) == a
  {
    assert [] + a == a;
    PutAllFresh([], a);
  }

  /** The keys after a sequence of assignments: the old keys in place, then the new ones in
      the order they were first assigned. */
  lemma {:induction false} PutAllKeys<V>(o: Obj<V>, es: seq<(string, V)>)
    requires WellFormed(o) && Distinct(Keys(es))
    ensures Keys(PutAll(o, es)) == Keys(o) + Fresh(Keys(o), Keys(es))
  {
    if es != [] {
      var init, last := es[..|es| - 1], es[|es| - 1];
      assert es == init + [last];
      KeysAppend(init, [last]);
      assert Keys(es) == Keys(init) + [last.0];
      assert Keys(es)[..|es| - 1] == Keys(init);
      PutAllKeys(o, init);
      assert last.0 !in Keys(init);
      var mid := PutAll(o, init);
      assert last.0 in Keys(mid) <==> last.0 in Keys(o);
    }
  }

  /** The value of each key after a sequence of assignments: the last value assigned to it,
      otherwise the old one. */
  lemma {:induction false} PutAllGet<V>(o: Obj<V>, es: seq<(string, V)>, k: string)
    requires Distinct(Keys(es))
    ensures Get(PutAll(o, es), k) == if k in Keys(es) then Get(es, k) else Get(o, k)
  {
    if es != [] {
      var init, last := es[..|es| - 1], es[|es| - 1];
      assert es == init + [last];
      KeysAppend(init, [last]);
      assert Keys(es)[..|es| - 1] == Keys(init);
      PutAllGet(o, init, k);
      PutGet(PutAll(o, init), last.0, last.1, k);
      GetAppend(init, [last], k);
      assert last.0 !in Keys(init);
    }
  }

  lemma {:induction false} GetAppend<V>(a: Obj<V>, b: Obj<V>, k: string)
    ensures Get(a + b, k) == if k in Keys(a) then Get(a, k) else Get(b, k)
  {
    if a != [] {
      assert (a + b)[0] == a[0] && (a + b)[1..] == a[1..] + b;
      GetAppend(a[1..], b, k);
    } else {
      assert a + b == b;
    }
  }

  /** Assigning values that are already in place changes nothing. */
  lemma {:induction false} PutAllPresent<V>(o: Obj<V>, es: seq<(string, V)>)
    requires forall i :: 0 <= i < |es| ==> Get(o, es[i].0) == Some(es[i].1)
    ensures PutAll(o, es) == o
  {
    if es != [] {
      var init, last := es[..|es| - 1], es[|es| - 1];
      PutAllPresent(o, init);
      PutUnchanged(o, last.0, last.1);
    }
  }

  lemma {:induction false} PutUnchanged<V>(o: Obj<V>, k: string, v: V)
    requires Get(o, k) == Some(v)
    ensures Put(o, k, v) == o
  {
    if o != [] && o[0].0 != k {
      PutUnchanged(o[1..], k, v);
    }
  }

  /** Object spread `{...a, ...b}` of two objects: the keys of `a` in order followed by the keys
      of `b` that `a` lacks; on a shared key the value of `b`, the later spread, wins. */
  lemma SpreadProperties<V>(a: Obj<V>, b: Obj<V>)
    requires WellFormed(a) && WellFormed(b)
    ensures Keys(Spread(a, b)) == Keys(a) + Fresh(Keys(a), Keys(b))
    ensures forall k :: Get(Spread(a, b), k) == if k in Keys(b) then Get(b, k) else Get(a, k)
  {
    CopyIsIdentity(a);
    PutAllKeys(a, b);
    forall k ensures Get(Spread(a, b), k) == if k in Keys(b) then Get(b, k) else Get(a, k) {
      PutAllGet(a, b, k);
    }
  }

  lemma {:induction false} FreshAppend(seen: seq<string>, a: seq<string>, b: seq<string>)
    ensures Fresh(seen, a + b) == Fresh(seen, a) + Fresh(seen, b)
  {
    if b == [] {
      assert a + b == a;
    } else {
      var init := b[..|b| - 1];
      assert (a + b)[..|a + b| - 1] == a + init;
      assert (a + b)[|a + b| - 1] == b[|b| - 1];
      FreshAppend(seen, a, init);
    }
  }

  /** No key of `ks` is new: nothing is added. */
  lemma {:induction false} FreshAllSeen(seen: seq<string>, ks: seq<string>)
    requires forall k :: k in ks ==> k in seen
    ensures Fresh(seen, ks) == []
  {
    if ks != [] {
      FreshAllSeen(seen, ks[..|ks| - 1]);
    }
  }

  /** Every key of `ks` is new: all of them are added, in order. */
  lemma {:induction false} FreshNoneSeen(seen: seq<string>, ks: seq<string>)
    requires forall k :: k in ks ==> k !in seen
    ensures Fresh(seen, ks) == ks
  {
    if ks != [] {
      FreshNoneSeen(seen, ks[..|ks| - 1]);
      assert ks == ks[..|ks| - 1] + [ks[|ks| - 1]];
    }
  }

  /** In an object without repeated keys, looking up the key of a pair finds that pair's value. */
  lemma {:induction false} GetAt<V>(o: Obj<V>, i: nat)
    requires WellFormed(o) && i < |o|
    ensures Get(o, o[i].0) == Some(o[i].1)
  {
    if i > 0 {
      assert Keys(o[1..]) == Keys(o)[1..];
      assert o[0].0 != o[i].0;
      GetAt(o[1..], i - 1);
    }
  }

  /** Two objects with the same keys in the same order and the same value under every key are
      the same object. */
  lemma ObjectsEqual<V>(a: Obj<V>, b: Obj<V>)
    requires WellFormed(a) && WellFormed(b) && Keys(a) == Keys(b)
    requires forall k :: Get(a, k) == Get(b, k)
    ensures a == b
  {
    forall i | 0 <= i < |a| ensures a[i] == b[i] {
      GetAt(a, i);
      GetAt(b, i);
    }
  }

  /** When the keys of `m` start with those of `a`, the new keys `m` brings are the rest of
      its own keys. */
  lemma {:induction false} FreshAfterPrefix(ka: seq<string>, km: seq<string>)
    requires Distinct(km) && ka <= km
    ensures ka + Fresh(ka, km) == km
  {
    var rest := km[|ka|..];
    assert km == ka + rest;
    DistinctSplit(ka, rest);
    FreshNoneSeen(ka, rest);
    FreshAllSeen(ka, ka);
    calc {
      Fresh(ka, km);
      Fresh(ka, ka + rest);
      { FreshAppend(ka, ka, rest); }
      Fresh(ka, ka) + Fresh(ka, rest);
      [] + rest;
      rest;
    }
  }

  /** Spreading `a` and then an object `m` whose keys already start with those of `a` gives
      back `m`: a second spread of the same keys changes nothing. */
  lemma {:induction false} SpreadAbsorbed<V>(a: Obj<V>, m: Obj<V>)
    requires WellFormed(a) && WellFormed(m)
    requires Keys(a) <= Keys(m)
    ensures Spread(a, m) == m
  {
    var r := Spread(a, m);
    SpreadProperties(a, m);
    FreshAfterPrefix(Keys(a), Keys(m));
    assert Keys(r) == Keys(m);
    assert WellFormed(r) by {
      assert WellFormed(PutAll([], a));
    }
    ObjectsEqual(r, m);
  }

  /** The two parts of a sequence of distinct keys share no key. */
  lemma {:induction false} DistinctSplit(xs: seq<string>, ys: seq<string>)
    requires Distinct(xs + ys)
    ensures forall k :: k in ys ==> k !in xs
  {
    forall i, j | 0 <= i < |xs| && 0 <= j < |ys| ensures xs[i] != ys[j] {
      var ks := xs + ys;
      assert ks[i] == xs[i] && ks[|xs| + j] == ys[j];
    }
  }
}
