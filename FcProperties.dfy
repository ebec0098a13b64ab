/** What the fc/index.js rewrite guarantees, stated over the functions of `FcHandler`. */
module FcProperties {
  import opened Wrappers
  import opened JsStrings
  import opened JsObjects
  import opened ClashConfig
  import opened FcHandler

  /** The keys of the three providers this rewriter owns, in list order. */
  const OwnedKeys: seq<string> := ["zt-proxy", "zt-proxy-ai", "zt-direct"]

  /** The rules bound to the three providers, in list order. */
  const Bindings: seq<string> := ["RULE-SET,zt-proxy,ALL_PROXY", "RULE-SET,zt-proxy-ai,USH2", "RULE-SET,zt-direct,DIRECT"]

  lemma ConfigConstants()
    ensures Names(RuleProvidersConfig) == OwnedKeys
    ensures Distinct(OwnedKeys)
    ensures RuleSets(RuleProvidersConfig) == Bindings
  {
    assert RuleSet(RuleProvidersConfig[0]) == Bindings[0];
    assert RuleSet(RuleProvidersConfig[1]) == Bindings[1];
    assert RuleSet(RuleProvidersConfig[2]) == Bindings[2];
  }

  // ---------------------------------------------------------------- change tokens

  /** What each probe outcome puts in the cache path: the cleaned tag for a response with a
      non-empty tag, the whole clock text for a response without one or for a failure. Every
      outcome yields a descriptor and only its path depends on the outcome. */
  lemma ProbeResultByOutcome(spec: ProviderSpec, p: Probe)
    ensures ProbeResult(spec, p).0 == spec.name
    ensures var d := ProbeResult(spec, p).1;
      && d.kind == "http" && d.behavior == "classical" && d.interval == 11440
      && d.url == BaseUrl + "/" + spec.file
      && d.path == "./my_rules/" + Token(p) + "_" + spec.file
    ensures p.Failed? ==> ProbeResult(spec, p).1.path == "./my_rules/" + p.clock + "_" + spec.file
    ensures p.Responded? && p.etag.Some? && p.etag.value != "" ==>
      ProbeResult(spec, p).1.path == "./my_rules/" + CleanEtag(p.etag.value) + "_" + spec.file
  {
    var d, t := ProbeResult(spec, p).1, Token(p);
    assert d == HttpProvider(spec.file, t + "_" + spec.file);
    assert d.path == "./my_rules/" + t + "_" + spec.file;
  }

  /** Removing the quotes of `<w>"<tag>"` leaves `<w><tag>` when neither part has a quote. */
  lemma UnquotedTag(w: string, tag: string)
    requires NoQuotes(w) && NoQuotes(tag)
    ensures RemoveQuotes(w + "\"" + tag + "\"") == w + tag
  {
    var q := "\"";
    RemovesQuote();
    var a := w + q;
    RemoveQuotesAppend(w, q);
    assert RemoveQuotes(a) == w;
    var b := a + tag;
    RemoveQuotesAppend(a, tag);
    assert RemoveQuotes(b) == w + tag;
    RemoveQuotesAppend(b, q);
    assert RemoveQuotes(b + q) == w + tag;
  }

  lemma RemovesQuote()
    ensures RemoveQuotes("\"") == []
  {
    assert IsQuote("\""[0]);
    assert "\""[1..] == [];
  }

  /** A strong tag `"<tag>"` loses its quotes and keeps at most its first 8 characters. */
  lemma CleanStrongEtag(tag: string)
    requires NoQuotes(tag)
    ensures CleanEtag("\"" + tag + "\"") == tag[..if |tag| < 8 then |tag| else 8]
  {
    UnquotedTag([], tag);
    assert [] + "\"" + tag + "\"" == "\"" + tag + "\"";
  }

  /** The `W/` of a weak tag `W/"<tag>"` survives the cleaning, so the token is not purely
      alphanumeric and keeps only 6 characters of the tag. */
  lemma CleanWeakEtag(tag: string)
    requires NoQuotes(tag)
    ensures var t := CleanEtag("W/\"" + tag + "\"");
      && t == ("W/" + tag)[..if |tag| < 6 then |tag| + 2 else 8]
      && |t| >= 2 && t[..2] == "W/"
  {
    var w := "W/";
    assert NoQuotes(w) by { assert !IsQuote(w[0]) && !IsQuote(w[1]); }
    UnquotedTag(w, tag);
    var u := w + tag;
    var n := if |tag| < 6 then |tag| + 2 else 8;
    assert CleanEtag(w + "\"" + tag + "\"") == u[..n];
    assert u[..n][..2] == w;
    assert "W/\"" + tag + "\"" == w + "\"" + tag + "\"";
  }

  /** A tag made only of quotes is truthy, so it is used, but it cleans to the empty token. */
  lemma QuotesOnlyEtag(etag: string)
    requires forall i :: 0 <= i < |etag| ==> IsQuote(etag[i])
    ensures CleanEtag(etag) == ""
  {
    var r := RemoveQuotes(etag);
    if r != [] {
      RemoveQuotesKeepsOthers(etag, r[0]);
      assert false;
    }
  }

  // ---------------------------------------------------------------- providers

  /** The object collected from the probes has exactly the three owned keys, in list order,
      each holding the descriptor built around its probe's token. */
  lemma ProbedProviders(probes: seq<Probe>)
    requires |probes| == |RuleProvidersConfig|
    ensures var n := PutAll([], ProbeResults(RuleProvidersConfig, probes));
      && Keys(n) == OwnedKeys && WellFormed(n)
      && forall i :: 0 <= i < |RuleProvidersConfig| ==>
           Get(n, RuleProvidersConfig[i].name) == Some(HttpProvider(RuleProvidersConfig[i].file,
             Token(probes[i]) + "_" + RuleProvidersConfig[i].file))
  {
    var rs := ProbeResults(RuleProvidersConfig, probes);
    ConfigConstants();
    assert Keys(rs) == Names(RuleProvidersConfig);
    CopyIsIdentity(rs);
    forall i | 0 <= i < |RuleProvidersConfig|
      ensures Get(rs, RuleProvidersConfig[i].name) == Some(HttpProvider(RuleProvidersConfig[i].file,
             Token(probes[i]) + "_" + RuleProvidersConfig[i].file))
    {
      GetAt(rs, i);
    }
  }

  /** The merged `rule-providers`: the three owned keys first, then the document's other keys
      in their order; a key the document already had keeps the document's value; an owned key
      it lacked gets the probed descriptor; nothing else appears. */
  lemma MergedProviders(probes: seq<Probe>, original: Option<Obj<RuleProvider>>)
    requires |probes| == |RuleProvidersConfig|
    requires original.Some? ==> WellFormed(original.value)
    ensures var o := original.GetOr([]);
      var m := MergeProviders(PutAll([], ProbeResults(RuleProvidersConfig, probes)), original);
      && Keys(m) == OwnedKeys + Fresh(OwnedKeys, Keys(o))
      && WellFormed(m)
      && (forall k :: k in Keys(o) ==> Get(m, k) == Get(o, k))
      && (forall i :: 0 <= i < |RuleProvidersConfig| && RuleProvidersConfig[i].name !in Keys(o) ==>
            Get(m, RuleProvidersConfig[i].name) == Some(HttpProvider(RuleProvidersConfig[i].file,
              Token(probes[i]) + "_" + RuleProvidersConfig[i].file)))
      && (forall k :: k !in Keys(o) && k !in OwnedKeys ==> Get(m, k) == None)
  {
    var n := PutAll([], ProbeResults(RuleProvidersConfig, probes));
    ProbedProviders(probes);
    SpreadProperties(n, original.GetOr([]));
    assert WellFormed(PutAll([], n));
  }

  // ---------------------------------------------------------------- rules

  lemma {:induction false} PurgeAppend(a: seq<string>, b: seq<string>)
    ensures Purge(a + b) == Purge(a) + Purge(b)
  {
    if a == [] {
      assert a + b == b;
    } else {
      assert (a + b)[0] == a[0] && (a + b)[1..] == a[1..] + b;
      PurgeAppend(a[1..], b);
    }
  }

  /** A rule list without owned rules survives the purge unchanged; in particular purging
      twice is purging once. */
  lemma {:induction false} PurgeUnowned(rules: seq<string>)
    requires forall x :: x in rules ==> !Owned(x)
    ensures Purge(rules) == rules
  {
    if rules != [] {
      assert rules[0] in rules;
      PurgeUnowned(rules[1..]);
    }
  }

  /** The purge keeps the remaining rules in their relative order. */
  lemma {:induction false} PurgeInOrder(rules: seq<string>)
    ensures Subsequence(Purge(rules), rules)
  {
    if rules != [] {
      PurgeInOrder(rules[1..]);
    }
  }

  /** The three bindings are owned rules and the reddit rule is not. */
  lemma Ownership()
    ensures forall b :: b in Bindings ==> Owned(b)
    ensures !Owned(RedditRule)
  {
    assert StartsWith(Bindings[0], "RULE-SET,zt-proxy");
    assert StartsWith(Bindings[1], "RULE-SET,zt-proxy");
    assert StartsWith(Bindings[2], "RULE-SET,zt-direct");
    assert RedditRule[0] == 'D';
  }

  /** The purge removes the bindings of an earlier run but keeps its reddit rule. */
  lemma NewRulesPurged(ush2Present: bool)
    ensures Purge(NewRules(ush2Present)) == if ush2Present then [RedditRule] else []
  {
    ConfigConstants();
    Ownership();
    var prefix := if ush2Present then [RedditRule] else [];
    PurgeAppend(prefix, Bindings);
    assert Purge(Bindings) == [] by {
      assert forall x :: x in Purge(Bindings) ==> x in Bindings && !Owned(x);
    }
    PurgeUnowned(prefix);
  }

  /** The rewritten rules: the reddit rule exactly when USH2 has members, the three bindings
      in list order, then the document's rules (none when missing) without the owned ones. */
  lemma RewriteRulesShape(ush2Present: bool, rules: Option<seq<string>>)
    ensures var r := RewriteRules(ush2Present, rules);
      var k := if ush2Present then 1 else 0;
      && |r| == k + 3 + |Purge(rules.GetOr([]))|
      && (ush2Present <==> r[0] == "DOMAIN-SUFFIX,reddit.com,USH2")
      && r[k..k + 3] == ["RULE-SET,zt-proxy,ALL_PROXY", "RULE-SET,zt-proxy-ai,USH2", "RULE-SET,zt-direct,DIRECT"]
      && r[k + 3..] == Purge(rules.GetOr([]))
  {
    ConfigConstants();
    var r := RewriteRules(ush2Present, rules);
    if !ush2Present {
      assert r[0] == Bindings[0];
      assert Bindings[0][0] != RedditRule[0];
    }
  }

  /** Rewriting the rewritten rules again: the purge keeps the reddit rule of the first run
      and drops its bindings, so the second run's output is its own prefix, the first run's
      reddit rule, then the document's unowned rules. */
  lemma RerunRules(ush2Present: bool, rules: Option<seq<string>>)
    ensures var prefix := if ush2Present then [RedditRule] else [];
      RewriteRules(ush2Present, Some(RewriteRules(ush2Present, rules)))
        == prefix + Bindings + prefix + Purge(rules.GetOr([]))
  {
    var rest := Purge(rules.GetOr([]));
    var prefix := if ush2Present then [RedditRule] else [];
    var fronted := NewRules(ush2Present);
    assert fronted == prefix + Bindings by { ConfigConstants(); }
    assert Purge(rest) == rest by { PurgeUnowned(rest); }
    calc {
      RewriteRules(ush2Present, Some(RewriteRules(ush2Present, rules)));
      fronted + Purge(fronted + rest);
      { PurgeAppend(fronted, rest); }
      fronted + (Purge(fronted) + Purge(rest));
      { NewRulesPurged(ush2Present); }
      fronted + (prefix + rest);
      prefix + Bindings + prefix + rest;
    }
  }

  /** After a second run every binding still occurs exactly once, while the reddit rule gains
      one more copy. */
  lemma RerunRulesCounts(ush2Present: bool, rules: Option<seq<string>>)
    ensures var once := RewriteRules(ush2Present, rules);
      var twice := RewriteRules(ush2Present, Some(once));
      && (forall b :: b in Bindings ==> multiset(twice)[b] == 1)
      && (ush2Present ==> multiset(twice)[RedditRule] == multiset(once)[RedditRule] + 1)
  {
    var rest := Purge(rules.GetOr([]));
    var prefix := if ush2Present then [RedditRule] else [];
    var once := RewriteRules(ush2Present, rules);
    var twice := RewriteRules(ush2Present, Some(once));
    RerunRules(ush2Present, rules);
    ConfigConstants();
    Ownership();
    assert once == prefix + Bindings + rest;
    assert twice == prefix + Bindings + prefix + rest;
    assert multiset(twice) == multiset(prefix) + multiset(Bindings) + multiset(prefix) + multiset(rest);
    assert multiset(once) == multiset(prefix) + multiset(Bindings) + multiset(rest);
    forall b | b in Bindings ensures multiset(twice)[b] == 1 {
      assert b !in rest;
      assert b != RedditRule;
      assert multiset(prefix)[b] == 0;
      assert multiset(Bindings)[b] == 1;
    }
    if ush2Present {
      assert RedditRule !in Bindings;
      assert multiset(prefix)[RedditRule] == 1;
    }
  }

  // ---------------------------------------------------------------- groups

  /** A group of the document survives at its shifted position even when it has the name of
      a synthesized group, so a document that already has an ALL_PROXY group ends up with two. */
  lemma SameNamedGroupKept(ps: seq<Proxy>, existing: Option<seq<ProxyGroup>>, i: nat)
    requires i < |existing.GetOr([])|
    ensures var g := RewriteGroups(ps, existing);
      var shift := |g| - |existing.GetOr([])|;
      && g[shift + i] == existing.GetOr([])[i]
      && (existing.GetOr([])[i].name == "ALL_PROXY" ==> g[0].name == g[shift + i].name && shift + i != 0)
  {
    var g := RewriteGroups(ps, existing);
    var e := existing.GetOr([]);
    assert g[|g| - |e|..][i] == g[|g| - |e| + i];
  }

  /** The synthesized groups do not depend on the existing ones, which follow them unchanged. */
  lemma GroupsPrepended(ps: seq<Proxy>, existing: Option<seq<ProxyGroup>>)
    ensures RewriteGroups(ps, existing) == RewriteGroups(ps, None) + existing.GetOr([])
  {
  }

  /** Rewriting the rewritten groups puts the synthesized groups in front a second time. */
  lemma RerunGroups(ps: seq<Proxy>, existing: Option<seq<ProxyGroup>>)
    ensures var synthesized := RewriteGroups(ps, None);
      RewriteGroups(ps, Some(RewriteGroups(ps, existing))) == synthesized + synthesized + existing.GetOr([])
  {
  }

  // ---------------------------------------------------------------- the whole rewrite

  /** The three bindings are among the rewritten rules, whatever the document's rules. */
  lemma BindingsInRewrittenRules(ush2Present: bool, rules: Option<seq<string>>)
    ensures forall b :: b in Bindings ==> b in RewriteRules(ush2Present, rules)
  {
    ConfigConstants();
    var prefix := if ush2Present then [RedditRule] else [];
    var r := RewriteRules(ush2Present, rules);
    assert r == prefix + Bindings + Purge(rules.GetOr([]));
    forall b | b in Bindings ensures b in r {
      var i :| 0 <= i < |Bindings| && Bindings[i] == b;
      assert r[|prefix| + i] == b;
    }
  }

  /** The three bindings are among the rules of the rewritten document. */
  lemma BindingsInRules(d: Document, probes: seq<Probe>)
    requires |probes| == |RuleProvidersConfig| && d.proxies.Proxies?
    ensures var r := Transform(d, probes).value;
      forall i :: 0 <= i < |RuleProvidersConfig| ==> RuleSet(RuleProvidersConfig[i]) in r.rules.value
  {
    ConfigConstants();
    TransformFields(d, probes);
    BindingsInRewrittenRules(Ush2Names(d.proxies.nodes) != [], d.rules);
    forall i | 0 <= i < |RuleProvidersConfig|
      ensures RuleSet(RuleProvidersConfig[i]) in Bindings
    {
      assert RuleSet(RuleProvidersConfig[i]) == Bindings[i];
    }
  }

  /** The three owned keys are keys of the rewritten `rule-providers`. */
  lemma OwnedKeysProvided(d: Document, probes: seq<Probe>)
    requires |probes| == |RuleProvidersConfig| && d.proxies.Proxies?
    requires d.ruleProviders.Some? ==> WellFormed(d.ruleProviders.value)
    ensures var r := Transform(d, probes).value;
      forall i :: 0 <= i < |RuleProvidersConfig| ==> RuleProvidersConfig[i].name in Keys(r.ruleProviders.value)
  {
    MergedProviders(probes, d.ruleProviders);
    ConfigConstants();
    TransformFields(d, probes);
    var r := Transform(d, probes).value;
    var keys := Keys(r.ruleProviders.value);
    assert keys == OwnedKeys + Fresh(OwnedKeys, Keys(d.ruleProviders.GetOr([])));
    forall i | 0 <= i < |RuleProvidersConfig|
      ensures RuleProvidersConfig[i].name in keys
    {
      assert keys[i] == OwnedKeys[i] == RuleProvidersConfig[i].name;
    }
  }

  /** Every provider named by a binding of the rewritten rules is a key of the rewritten
      `rule-providers`. */
  lemma BindingsResolve(d: Document, probes: seq<Probe>)
    requires |probes| == |RuleProvidersConfig| && d.proxies.Proxies?
    requires d.ruleProviders.Some? ==> WellFormed(d.ruleProviders.value)
    ensures var r := Transform(d, probes).value;
      forall i :: 0 <= i < |RuleProvidersConfig| ==>
        RuleSet(RuleProvidersConfig[i]) in r.rules.value && RuleProvidersConfig[i].name in Keys(r.ruleProviders.value)
  {
    BindingsInRules(d, probes);
    OwnedKeysProvided(d, probes);
  }

  /** With no US hysteria2 proxy and no USH2 group in the document, the output has no USH2
      group and its rules open with the three bindings, not the reddit rule, yet one of them
      still routes the zt-proxy-ai rules to USH2. */
  lemma DanglingUsh2Binding(d: Document, probes: seq<Probe>)
    requires |probes| == |RuleProvidersConfig| && d.proxies.Proxies?
    requires forall p :: p in d.proxies.nodes ==> !IsUsHysteria2(p)
    requires forall g :: g in d.proxyGroups.GetOr([]) ==> g.name != "USH2"
    ensures var r := Transform(d, probes).value;
      && Bindings <= r.rules.value
      && (forall g :: g in r.proxyGroups.value ==> g.name != "USH2")
  {
    TransformFields(d, probes);
    var ps := d.proxies.nodes;
    Ush2NamesEmpty(ps);
    ConfigConstants();
    var r := Transform(d, probes).value;
    var rest := Purge(d.rules.GetOr([]));
    assert NewRules(false) == Bindings;
    assert r.rules.value == Bindings + rest;
    GroupsPrepended(ps, d.proxyGroups);
    assert RewriteGroups(ps, None) == [UrlTestGroup("ALL_PROXY", ProxyNames(ps))];
    assert r.proxyGroups.value == [UrlTestGroup("ALL_PROXY", ProxyNames(ps))] + d.proxyGroups.GetOr([]);
  }

  /** A document without a `proxies` array is refused, and the text sent with the refusal is
      the invalid-format message; any other document is accepted. */
  lemma RefusalMessage(d: Document, probes: seq<Probe>)
    requires |probes| == |RuleProvidersConfig|
    ensures var r := Transform(d, probes);
      (r.Failure? <==> !d.proxies.Proxies?)
      && (r.Failure? ==> Message(r.error) == "Invalid YAML format: no proxies found")
  {
  }

  /** The three rewritten fields of an accepted document, one function each. */
  lemma TransformFields(d: Document, probes: seq<Probe>)
    requires |probes| == |RuleProvidersConfig| && d.proxies.Proxies?
    ensures var r := Transform(d, probes);
      && r.Success?
      && r.value.proxies == d.proxies && r.value.others == d.others
      && r.value.proxyGroups == Some(RewriteGroups(d.proxies.nodes, d.proxyGroups))
      && r.value.ruleProviders == Some(MergeProviders(PutAll([], ProbeResults(RuleProvidersConfig, probes)), d.ruleProviders))
      && r.value.rules == Some(RewriteRules(Ush2Names(d.proxies.nodes) != [], d.rules))
  {
  }

  /** Running the rewrite on its own output, with any probe outcomes, leaves `rule-providers`
      as the first run left it: the document's values win, so the new tokens are not taken. */
  lemma TransformTwiceProviders(d: Document, probes1: seq<Probe>, probes2: seq<Probe>)
    requires |probes1| == |RuleProvidersConfig| && |probes2| == |RuleProvidersConfig|
    requires d.proxies.Proxies?
    requires d.ruleProviders.Some? ==> WellFormed(d.ruleProviders.value)
    ensures Transform(d, probes1).Success?
    ensures var once := Transform(d, probes1).value;
      var twice := Transform(once, probes2);
      twice.Success? && twice.value.ruleProviders == once.ruleProviders
  {
    TransformFields(d, probes1);
    var once := Transform(d, probes1).value;
    TransformFields(once, probes2);
    MergedProviders(probes1, d.ruleProviders);
    ProbedProviders(probes2);
    var n2 := PutAll([], ProbeResults(RuleProvidersConfig, probes2));
    var m1 := once.ruleProviders.value;
    assert Keys(n2) <= Keys(m1);
    SpreadAbsorbed(n2, m1);
  }

  /** Running the rewrite on its own output prepends the synthesized groups a second time. */
  lemma TransformTwiceGroups(d: Document, probes1: seq<Probe>, probes2: seq<Probe>)
    requires |probes1| == |RuleProvidersConfig| && |probes2| == |RuleProvidersConfig|
    requires d.proxies.Proxies?
    ensures Transform(d, probes1).Success?
    ensures var once := Transform(d, probes1).value;
      var twice := Transform(once, probes2);
      twice.Success? && twice.value.proxyGroups.value == RewriteGroups(d.proxies.nodes, None) + once.proxyGroups.value
  {
    TransformFields(d, probes1);
    var once := Transform(d, probes1).value;
    TransformFields(once, probes2);
    var ps, g1 := d.proxies.nodes, once.proxyGroups.value;
    assert once.proxies.nodes == ps;
    GroupsPrepended(ps, Some(g1));
  }

  /** Running the rewrite on its own output: the rules gain a second reddit rule (when USH2
      has members) but no second binding. */
  lemma TransformTwiceRules(d: Document, probes1: seq<Probe>, probes2: seq<Probe>)
    requires |probes1| == |RuleProvidersConfig| && |probes2| == |RuleProvidersConfig|
    requires d.proxies.Proxies?
    ensures Transform(d, probes1).Success?
    ensures var once := Transform(d, probes1).value;
      var twice := Transform(once, probes2);
      var ps := d.proxies.nodes;
      var prefix := if Ush2Names(ps) != [] then [RedditRule] else [];
      twice.Success? && twice.value.rules.value == prefix + Bindings + prefix + Purge(d.rules.GetOr([]))
  {
    TransformFields(d, probes1);
    var once := Transform(d, probes1).value;
    TransformFields(once, probes2);
    RerunRules(Ush2Names(d.proxies.nodes) != [], d.rules);
  }

  /** The proxies of the US/JP example: US-1 (hysteria2), US-2 (vmess), JP-1 (hysteria2). */
  const UsJpProxies: seq<Proxy> := [Proxy("US-1", "hysteria2"), Proxy("US-2", "vmess"), Proxy("JP-1", "hysteria2")]

  /** Of the US/JP example's proxies only US-1 is a US hysteria2 proxy: US-2 has the wrong protocol
      and JP-1 does not contain "US". */
  lemma UsJpClassification()
    ensures ProxyNames(UsJpProxies) == ["US-1", "US-2", "JP-1"]
    ensures Ush2Names(UsJpProxies) == ["US-1"]
  {
    var ps := UsJpProxies;
    assert OccursAt("US-1", "US", 0);
    assert IsUsHysteria2(ps[0]);
    assert !IsUsHysteria2(ps[1]);
    assert !Includes("JP-1", "US") by {
      forall i: nat ensures !OccursAt("JP-1", "US", i) {
        if i + 2 <= 4 {
          assert "JP-1"[i..i + 2] != "US" by {
            assert "JP-1"[i..i + 2][0] == "JP-1"[i];
          }
        }
      }
    }
    assert !IsUsHysteria2(ps[2]);
    assert Ush2Names(ps[2..]) == [];
    assert Ush2Names(ps[1..]) == [];
  }

  /** The rules of the US/JP example. */
  const UsJpRules: seq<string> := ["DOMAIN,example.com,DIRECT", "MATCH,DIRECT"]

  /** The US/JP example's rules are not owned, so they follow the reddit rule and the bindings. */
  lemma UsJpRewrittenRules()
    ensures RewriteRules(true, Some(UsJpRules)) == [
      "DOMAIN-SUFFIX,reddit.com,USH2",
      "RULE-SET,zt-proxy,ALL_PROXY", "RULE-SET,zt-proxy-ai,USH2", "RULE-SET,zt-direct,DIRECT",
      "DOMAIN,example.com,DIRECT", "MATCH,DIRECT"]
  {
    var rules := UsJpRules;
    ConfigConstants();
    assert !Owned(rules[0]) && !Owned(rules[1]) by {
      assert rules[0][0] == 'D' && rules[1][0] == 'M';
    }
    PurgeUnowned(rules);
    assert NewRules(true) == [RedditRule] + Bindings;
    assert RewriteRules(true, Some(rules)) == [RedditRule] + Bindings + rules;
  }

  /** The US/JP example's groups: ALL_PROXY with every proxy, then USH2 with US-1 alone. */
  lemma UsJpRewrittenGroups()
    ensures RewriteGroups(UsJpProxies, None) == [
      UrlTest("ALL_PROXY", ["US-1", "US-2", "JP-1"], "http://www.gstatic.com/generate_204", 300),
      UrlTest("USH2", ["US-1"], "http://www.gstatic.com/generate_204", 300)]
  {
    UsJpClassification();
    assert RewriteGroups(UsJpProxies, None)
      == [UrlTestGroup("ALL_PROXY", ["US-1", "US-2", "JP-1"]), UrlTestGroup("USH2", ["US-1"])];
  }

  /** The US/JP example as a whole document: its proxies, no groups, and its two rules. */
  lemma UsJpExample(probes: seq<Probe>, others: Obj<string>)
    requires |probes| == |RuleProvidersConfig|
    ensures var d := Document(Proxies(UsJpProxies), None, None, Some(UsJpRules), others);
      var r := Transform(d, probes);
      && r.Success?
      && r.value.proxyGroups.value == [
           UrlTest("ALL_PROXY", ["US-1", "US-2", "JP-1"], "http://www.gstatic.com/generate_204", 300),
           UrlTest("USH2", ["US-1"], "http://www.gstatic.com/generate_204", 300)]
      && r.value.rules.value == [
           "DOMAIN-SUFFIX,reddit.com,USH2",
           "RULE-SET,zt-proxy,ALL_PROXY", "RULE-SET,zt-proxy-ai,USH2", "RULE-SET,zt-direct,DIRECT",
           "DOMAIN,example.com,DIRECT", "MATCH,DIRECT"]
  {
    var d := Document(Proxies(UsJpProxies), None, None, Some(UsJpRules), others);
    TransformFields(d, probes);
    var r := Transform(d, probes).value;
    UsJpClassification();
    assert r.rules.value == RewriteRules(true, Some(UsJpRules));
    UsJpRewrittenRules();
    assert r.proxyGroups.value == RewriteGroups(UsJpProxies, None);
    UsJpRewrittenGroups();
  }

  /** A probe that timed out still yields the provider of its file, with the
      clock as the token, when the document did not already define that key. */
  lemma TimedOutProbe(d: Document, probes: seq<Probe>, i: nat)
    requires |probes| == |RuleProvidersConfig| && d.proxies.Proxies?
    requires d.ruleProviders.Some? ==> WellFormed(d.ruleProviders.value)
    requires i < |RuleProvidersConfig| && probes[i].Failed?
    requires RuleProvidersConfig[i].name !in Keys(d.ruleProviders.GetOr([]))
    ensures Transform(d, probes).Success?
    ensures var spec := RuleProvidersConfig[i];
      Get(Transform(d, probes).value.ruleProviders.value, spec.name)
        == Some(HttpProvider(spec.file, probes[i].clock + "_" + spec.file))
  {
    MergedProviders(probes, d.ruleProviders);
  }
}
