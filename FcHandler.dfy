/** The configuration rewrite performed by the GET handler of fc/index.js, separated from its
    HTTP, YAML and logging plumbing. The HEAD probes of the remote rule files are inputs: one
    `Probe` outcome per configured provider, consumed in list order. */
module FcHandler {
  import opened Wrappers
  import opened JsStrings
  import opened JsObjects
  import opened ClashConfig

  /** The remote rule files this rewriter owns, with the target of each one's rule. */
  const RuleProvidersConfig: seq<ProviderSpec> := [
    ProviderSpec("zt-proxy", "zt_proxy.yaml", "ALL_PROXY"),
    ProviderSpec("zt-proxy-ai", "zt_proxy_ai.yaml", "USH2"),
    ProviderSpec("zt-direct", "zt_direct.yaml", "DIRECT")
  ]

  /** URL and interval (seconds) of the latency test of the synthesized groups. */
  const TestUrl: string := "http://www.gstatic.com/generate_204"
  const TestInterval: int := 300

  /** The rule that sends reddit.com to the USH2 group. */
  const RedditRule: string := "DOMAIN-SUFFIX,reddit.com,USH2"

  /** Why the handler refuses a document. */
  datatype Error = InvalidFormat

  /** The error text the handler sends with status 400. */
  function Message(e: Error): string {
    "Invalid YAML format: no proxies found"
  }

  // ---------------------------------------------------------------- validation

  /** The handler accepts the document only when `proxies` is present and an array. */
  function Validate(f: ProxiesField): (r: Result<seq<Proxy>, Error>)
    ensures r.Success? <==> f.Proxies?
    ensures r.Success? ==> r.value == f.nodes
    ensures r.Failure? ==> r.error == InvalidFormat
  {
    match f
    case Proxies(nodes) => Success(nodes)
    case _ => Failure(InvalidFormat)
  }

  // ---------------------------------------------------------------- classification

  /** `proxies.map(proxy => proxy.name)`. */
  function ProxyNames(ps: seq<Proxy>): (r: seq<string>)
    ensures |r| == |ps|
    ensures forall i :: 0 <= i < |ps| ==> r[i] == ps[i].name
  {
    seq(|ps|, i requires 0 <= i < |ps| => ps[i].name)
  }

  /** The USH2 selection: a name containing "US" and the protocol `hysteria2`. */
  predicate IsUsHysteria2(p: Proxy) {
    Includes(p.name, "US") && p.protocol == "hysteria2"
  }

  /** The names of the USH2 proxies, in document order. */
  function Ush2Names(ps: seq<Proxy>): (r: seq<string>)
    ensures |r| <= |ps|
  {
    if ps == [] then []
    else
      var rest := Ush2Names(ps[1..]);
      if IsUsHysteria2(ps[0]) then [ps[0].name] + rest else rest
  }

  /** A name is listed exactly when some proxy of that name is a US hysteria2 proxy. */
  lemma {:induction false} Ush2NamesMembers(ps: seq<Proxy>)
    ensures forall x :: x in Ush2Names(ps) <==> exists p :: p in ps && IsUsHysteria2(p) && p.name == x
  {
    if ps != [] {
      Ush2NamesMembers(ps[1..]);
      assert forall p :: p in ps <==> p == ps[0] || p in ps[1..];
    }
  }

  /** The USH2 group is left out exactly when no proxy is a US hysteria2 proxy. */
  lemma {:induction false} Ush2NamesEmpty(ps: seq<Proxy>)
    ensures Ush2Names(ps) == [] <==> forall p :: p in ps ==> !IsUsHysteria2(p)
  {
    if ps != [] {
      Ush2NamesEmpty(ps[1..]);
      assert forall p :: p in ps <==> p == ps[0] || p in ps[1..];
    }
  }

  /** The selection works proxy by proxy: it distributes over concatenation. */
  lemma {:induction false} Ush2NamesAppend(a: seq<Proxy>, b: seq<Proxy>)
    ensures Ush2Names(a + b) == Ush2Names(a) + Ush2Names(b)
  {
    if a == [] {
      assert a + b == b;
    } else {
      assert (a + b)[0] == a[0] && (a + b)[1..] == a[1..] + b;
      Ush2NamesAppend(a[1..], b);
    }
  }

  /** A single proxy contributes its name exactly when it qualifies. */
  lemma Ush2NamesSingle(p: Proxy)
    ensures Ush2Names([p]) == if IsUsHysteria2(p) then [p.name] else []
  {
    assert [p][1..] == [];
  }

  /** The positions of the qualifying proxies named `x`. */
  ghost function Hits(ps: seq<Proxy>, x: string): set<int> {
    set i | 0 <= i < |ps| && ps[i].name == x && IsUsHysteria2(ps[i])
  }

  /** Appending one proxy adds its position to the hits exactly when it qualifies. */
  lemma HitsSnoc(ps: seq<Proxy>, p: Proxy, x: string)
    ensures |Hits(ps + [p], x)| == |Hits(ps, x)| + (if p.name == x && IsUsHysteria2(p) then 1 else 0)
  {
    var q := ps + [p];
    assert forall i :: 0 <= i < |ps| ==> q[i] == ps[i];
    if p.name == x && IsUsHysteria2(p) {
      assert Hits(q, x) == Hits(ps, x) + {|ps|};
    } else {
      assert Hits(q, x) == Hits(ps, x);
    }
  }

  /** Each name is listed as many times as there are qualifying proxies carrying it, so the
      list is fixed completely, repeated names included. */
  lemma {:induction false} Ush2NamesCount(ps: seq<Proxy>, x: string)
    ensures multiset(Ush2Names(ps))[x]
         == |set i | 0 <= i < |ps| && ps[i].name == x && IsUsHysteria2(ps[i])|
  {
    if ps == [] {
      assert Hits(ps, x) == {};
    } else {
      var n := |ps| - 1;
      var init, p := ps[..n], ps[n];
      assert ps == init + [p];
      Ush2NamesCount(init, x);
      Ush2NamesAppend(init, [p]);
      Ush2NamesSingle(p);
      HitsSnoc(init, p, x);
    }
    assert Hits(ps, x) == set i | 0 <= i < |ps| && ps[i].name == x && IsUsHysteria2(ps[i]);
  }

  /** `xs` is `ys` with some elements left out, the rest in their order. */
  predicate Subsequence<T(==)>(xs: seq<T>, ys: seq<T>)
    decreases |ys|
  {
    xs == [] || (ys != [] && ((xs[0] == ys[0] && Subsequence(xs[1..], ys[1..])) || Subsequence(xs, ys[1..])))
  }

  /** The USH2 members keep the relative order the proxies have in the document. */
  lemma {:induction false} Ush2NamesInOrder(ps: seq<Proxy>)
    ensures Subsequence(Ush2Names(ps), ProxyNames(ps))
  {
    if ps != [] {
      Ush2NamesInOrder(ps[1..]);
      assert ProxyNames(ps)[1..] == ProxyNames(ps[1..]);
    }
  }

  // ---------------------------------------------------------------- group synthesis

  function UrlTestGroup(name: string, members: seq<string>): ProxyGroup {
    UrlTest(name, members, TestUrl, TestInterval)
  }

  /** `[...newGroups, ...config['proxy-groups']]`: ALL_PROXY with every proxy, then USH2 when it
      has members, then the document's groups (none when the field is missing), none removed. */
  function RewriteGroups(ps: seq<Proxy>, existing: Option<seq<ProxyGroup>>): (g: seq<ProxyGroup>)
    ensures var e := existing.GetOr([]);
      && |g| == |e| + (if Ush2Names(ps) == [] then 1 else 2)
      && g[0] == UrlTest("ALL_PROXY", ProxyNames(ps), "http://www.gstatic.com/generate_204", 300)
      && (Ush2Names(ps) != [] ==>
            g[1] == UrlTest("USH2", Ush2Names(ps), "http://www.gstatic.com/generate_204", 300))
      && g[|g| - |e|..] == e
  {
    var synthesized := [UrlTestGroup("ALL_PROXY", ProxyNames(ps))]
      + (if Ush2Names(ps) != [] then [UrlTestGroup("USH2", Ush2Names(ps))] else []);
    synthesized + existing.GetOr([])
  }

  // ---------------------------------------------------------------- probes and providers

  /** The outcome of the HEAD request for one rule file: a response with or without an `etag`
      header, or a failure (timeout, HTTP error status, no connection). `clock` is the decimal
      text of `Date.now()` at the moment the fallback token would be taken. */
  datatype Probe =
    | Responded(etag: Option<string>, clock: string)
    | Failed(clock: string)

  /** `etag.replace(/["']/g, '').substring(0, 8)`. */
  function CleanEtag(etag: string): (r: string)
    ensures |r| <= 8 && NoQuotes(r)
    ensures var q := RemoveQuotes(etag); r == q[..if |q| < 8 then |q| else 8]
  {
    var q := RemoveQuotes(etag);
    SubstringPrefix(q, 8);
    Substring(q, 0, 8)
  }

  /** `Date.now().toString().substring(-8)`: the start is clamped to 0, so the whole clock text. */
  function ClockToken(clock: string): (t: string)
    ensures t == clock
  {
    SubstringNegativeStart(clock, -8);
    Substring(clock, -8, |clock|)
  }

  /** The change token of one probe: the cleaned entity tag when the response carried a
      non-empty one (an empty header is falsy), otherwise the clock. */
  function Token(p: Probe): (t: string)
    ensures (p.Responded? && p.etag.Some? && p.etag.value != "") ==> t == CleanEtag(p.etag.value)
    ensures !(p.Responded? && p.etag.Some? && p.etag.value != "") ==> t == p.clock
  {
    match p
    case Responded(Some(etag), clock) => if etag != "" then CleanEtag(etag) else ClockToken(clock)
    case Responded(None, clock) => ClockToken(clock)
    case Failed(clock) => ClockToken(clock)
  }

  /** The `{ name, config }` pair one probe resolves to; success and failure build the same
      descriptor around their own token. */
  function ProbeResult(spec: ProviderSpec, p: Probe): (string, RuleProvider) {
    (spec.name, HttpProvider(spec.file, Token(p) + "_" + spec.file))
  }

  /** `Promise.all(RULE_PROVIDERS_CONFIG.map(...))`, sequentially: one result per provider. */
  function ProbeResults(specs: seq<ProviderSpec>, probes: seq<Probe>): (r: seq<(string, RuleProvider)>)
    requires |probes| == |specs|
    ensures |r| == |specs|
    ensures forall i :: 0 <= i < |specs| ==> r[i] == ProbeResult(specs[i], probes[i])
  {
    seq(|specs|, i requires 0 <= i < |specs| => ProbeResult(specs[i], probes[i]))
  }

  /** `providerResults.forEach(result => { newRuleProviders[result.name] = result.config })`. */
  method CollectProviders(results: seq<(string, RuleProvider)>) returns (providers: Obj<RuleProvider>)
    ensures providers == PutAll([], results)
  {
    providers := [];
    for i := 0 to |results|
      invariant providers == PutAll([], results[..i])
    {
      assert results[..i + 1][..i] == results[..i];
      providers := Put(providers, results[i].0, results[i].1);
    }
    assert results[..|results|] == results;
  }

  /** `{ ...newRuleProviders, ...originalRuleProviders }`, the original defaulting to `{}`. */
  function MergeProviders(newProviders: Obj<RuleProvider>, original: Option<Obj<RuleProvider>>): Obj<RuleProvider> {
    Spread(newProviders, original.GetOr([]))
  }

  // ---------------------------------------------------------------- rules

  /** A rule this rewriter considers its own and purges before re-adding its rules. */
  predicate Owned(rule: string) {
    StartsWith(rule, "RULE-SET,zt-proxy") || StartsWith(rule, "RULE-SET,zt-direct")
  }

  /** `rules.filter(rule => !rule.startsWith('RULE-SET,zt-proxy') && !rule.startsWith('RULE-SET,zt-direct'))`. */
  function Purge(rules: seq<string>): (r: seq<string>)
    ensures forall x :: x in r <==> x in rules && !Owned(x)
    ensures |r| <= |rules|
  {
    if rules == [] then []
    else
      var rest := Purge(rules[1..]);
      assert forall x :: x in rules <==> x == rules[0] || x in rules[1..];
      if Owned(rules[0]) then rest else [rules[0]] + rest
  }

  /** The rules put in front: the reddit rule when USH2 has members, then one `RULE-SET` rule
      per provider in list order. */
  function NewRules(ush2Present: bool): seq<string> {
    (if ush2Present then [RedditRule] else []) + RuleSets(RuleProvidersConfig)
  }

  /** The `push` loop that builds `newRules`. */
  method BuildNewRules(ush2Present: bool) returns (newRules: seq<string>)
    ensures newRules == NewRules(ush2Present)
  {
    newRules := [];
    if ush2Present {
      newRules := newRules + [RedditRule];
    }
    var prefix := newRules;
    for i := 0 to |RuleProvidersConfig|
      invariant newRules == prefix + RuleSets(RuleProvidersConfig[..i])
    {
      newRules := newRules + [RuleSet(RuleProvidersConfig[i])];
    }
    assert RuleProvidersConfig[..|RuleProvidersConfig|] == RuleProvidersConfig;
  }

  /** `[...newRules, ...purged]`, the rules defaulting to `[]`. */
  function RewriteRules(ush2Present: bool, rules: Option<seq<string>>): seq<string> {
    NewRules(ush2Present) + Purge(rules.GetOr([]))
  }

  // ---------------------------------------------------------------- the whole rewrite

  /** The document the handler serialises, or the error it reports. Only the groups, the
      rule providers and the rules change; the document is refused exactly when `proxies` is
      not an array. */
  function Transform(d: Document, probes: seq<Probe>): (r: Result<Document, Error>)
    requires |probes| == |RuleProvidersConfig|
    ensures r.Failure? <==> !d.proxies.Proxies?
    ensures r.Failure? ==> r.error == InvalidFormat
    ensures r.Success? ==> r.value.proxies == d.proxies && r.value.others == d.others
    ensures r.Success? ==> r.value.proxyGroups.Some? && r.value.ruleProviders.Some? && r.value.rules.Some?
  {
    match Validate(d.proxies)
    case Failure(e) => Failure(e)
    case Success(ps) =>
      Success(d.(
        proxyGroups := Some(RewriteGroups(ps, d.proxyGroups)),
        ruleProviders := Some(MergeProviders(PutAll([], ProbeResults(RuleProvidersConfig, probes)), d.ruleProviders)),
        rules := Some(RewriteRules(Ush2Names(ps) != [], d.rules))))
  }

  /** Steps 2 to 4 of the handler: classify the proxies and put the synthesized groups in
      front of `proxy-groups`. */
  method UpdateGroups(config: Config, ps: seq<Proxy>)
    modifies config
    ensures config.Snapshot() == old(config.Snapshot()).(proxyGroups := Some(RewriteGroups(ps, old(config.proxyGroups))))
  {
    var allProxyNames := ProxyNames(ps);
    var ush2ProxyNames := Ush2Names(ps);
    if config.proxyGroups.None? {
      config.proxyGroups := Some([]);
    }
    assert config.proxyGroups.value == old(config.proxyGroups).GetOr([]);
    var newGroups := [UrlTestGroup("ALL_PROXY", allProxyNames)];
    if |ush2ProxyNames| > 0 {
      newGroups := newGroups + [UrlTestGroup("USH2", ush2ProxyNames)];
    }
    assert newGroups == [UrlTestGroup("ALL_PROXY", ProxyNames(ps))]
      + (if Ush2Names(ps) != [] then [UrlTestGroup("USH2", Ush2Names(ps))] else []);
    config.proxyGroups := Some(newGroups + config.proxyGroups.value);
  }

  /** Step 5: probe every rule file, collect the descriptors and spread them with the
      document's providers. */
  method UpdateProviders(config: Config, probes: seq<Probe>)
    requires |probes| == |RuleProvidersConfig|
    modifies config
    ensures config.Snapshot() == old(config.Snapshot()).(ruleProviders :=
      Some(MergeProviders(PutAll([], ProbeResults(RuleProvidersConfig, probes)), old(config.ruleProviders))))
  {
    var originalRuleProviders := config.ruleProviders.GetOr([]);
    var providerResults := ProbeResults(RuleProvidersConfig, probes);
    var newRuleProviders := CollectProviders(providerResults);
    config.ruleProviders := Some(Spread(newRuleProviders, originalRuleProviders));
  }

  /** Step 6: purge the owned rules and put the new rules in front. */
  method UpdateRules(config: Config, ush2Present: bool)
    modifies config
    ensures config.Snapshot() == old(config.Snapshot()).(rules := Some(RewriteRules(ush2Present, old(config.rules))))
  {
    if config.rules.None? {
      config.rules := Some([]);
    }
    assert config.rules.value == old(config.rules).GetOr([]);
    config.rules := Some(Purge(config.rules.value));
    var newRules := BuildNewRules(ush2Present);
    config.rules := Some(newRules + config.rules.value);
  }

  /** The handler's steps on the decoded configuration, which it changes in place. On an
      invalid document nothing is changed and the error is returned. */
  method Handle(config: Config, probes: seq<Probe>) returns (res: Outcome<Error>)
    requires |probes| == |RuleProvidersConfig|
    modifies config
    ensures var t := Transform(old(config.Snapshot()), probes);
      && (res.Pass? <==> t.Success?)
      && (t.Success? ==> config.Snapshot() == t.value)
      && (t.Failure? ==> res == Fail(t.error) && config.Snapshot() == old(config.Snapshot()))
  {
    if !config.proxies.Proxies? {
      return Fail(InvalidFormat);
    }
    var ps := config.proxies.nodes;
    UpdateGroups(config, ps);
    UpdateProviders(config, probes);
    UpdateRules(config, Ush2Names(ps) != []);
    res := Pass;
  }
}
