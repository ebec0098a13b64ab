/** The `main(config)` override script of script.js: it writes three rule providers into the
    configuration and puts their `RULE-SET` rules in front of the existing rules, changing the
    object it is given and returning that same object. */
module ClashScript {
  import opened Wrappers
  import opened JsObjects
  import opened ClashConfig

  /** The providers the script installs; the two proxied ones route to the "🛸 节点选择"
      selector group. */
  const ScriptProvidersConfig: seq<ProviderSpec> := [
    ProviderSpec("zt-proxy", "zt_proxy.yaml", "🛸 节点选择"),
    ProviderSpec("zt-proxy-ai", "zt_proxy_ai.yaml", "🛸 节点选择"),
    ProviderSpec("zt-direct", "zt_direct.yaml", "DIRECT")
  ]

  /** The provider the script writes for one entry: its cache path carries no change token. */
  function ScriptProvider(spec: ProviderSpec): (string, RuleProvider) {
    (spec.name, HttpProvider(spec.file, spec.file))
  }

  /** The (key, provider) assignments of the `forEach` loop, in list order. */
  function ScriptProviders(): (r: seq<(string, RuleProvider)>)
    ensures |r| == |ScriptProvidersConfig|
    ensures forall i :: 0 <= i < |r| ==> r[i] == ScriptProvider(ScriptProvidersConfig[i])
  {
    seq(|ScriptProvidersConfig|, i requires 0 <= i < |ScriptProvidersConfig| => ScriptProvider(ScriptProvidersConfig[i]))
  }

  /** `rule-providers` after the loop: the existing object (or `{}`) with the three providers
      assigned one after the other. */
  function Upserted(original: Option<Obj<RuleProvider>>): Obj<RuleProvider> {
    PutAll(original.GetOr([]), ScriptProviders())
  }

  /** `rules` after the script: the three `RULE-SET` rules, then the existing rules (or none). */
  function Prepended(rules: Option<seq<string>>): seq<string> {
    RuleSets(ScriptProvidersConfig) + rules.GetOr([])
  }

  /** Lines 11 to 24 of the script: default `rule-providers` to `{}` and assign the three
      providers into it. */
  method InstallProviders(config: Config)
    modifies config
    ensures config.Snapshot() == old(config.Snapshot()).(ruleProviders := Some(Upserted(old(config.ruleProviders))))
  {
    if config.ruleProviders.None? {
      config.ruleProviders := Some([]);
    }
    ghost var start := config.Snapshot();
    var base := config.ruleProviders.value;
    var providers := ScriptProviders();
    for i := 0 to |providers|
      invariant config.Snapshot() == start.(ruleProviders := Some(PutAll(base, providers[..i])))
    {
      assert providers[..i + 1][..i] == providers[..i];
      config.ruleProviders := Some(Put(config.ruleProviders.value, providers[i].0, providers[i].1));
    }
    assert providers[..|providers|] == providers;
  }

  /** `main(config)`: only `rule-providers` and `rules` change, and the result is the argument. */
  method Run(config: Config) returns (r: Config)
    modifies config
    ensures r == config
    ensures config.Snapshot() == old(config.Snapshot()).(
      ruleProviders := Some(Upserted(old(config.ruleProviders))),
      rules := Some(Prepended(old(config.rules))))
  {
    InstallProviders(config);
    if config.rules.None? {
      config.rules := Some([]);
    }
    assert config.rules.value == old(config.rules).GetOr([]);
    var newRules := RuleSets(ScriptProvidersConfig);
    config.rules := Some(newRules + config.rules.value);
    return config;
  }

  // ---------------------------------------------------------------- properties

  /** The three keys the script writes are distinct. */
  lemma ScriptKeysDistinct()
    ensures Keys(ScriptProviders()) == ["zt-proxy", "zt-proxy-ai", "zt-direct"]
    ensures Distinct(Keys(ScriptProviders()))
  {
    assert Keys(ScriptProviders()) == ["zt-proxy", "zt-proxy-ai", "zt-direct"];
  }

  /** After the script each installed key holds the HTTP provider of its file with the
      untokened cache path `./my_rules/<file>`, and every other key keeps its value. */
  lemma UpsertedValues(original: Option<Obj<RuleProvider>>)
    ensures var u := Upserted(original);
      && Get(u, "zt-proxy") == Some(HttpProvider("zt_proxy.yaml", "zt_proxy.yaml"))
      && Get(u, "zt-proxy-ai") == Some(HttpProvider("zt_proxy_ai.yaml", "zt_proxy_ai.yaml"))
      && Get(u, "zt-direct") == Some(HttpProvider("zt_direct.yaml", "zt_direct.yaml"))
      && (forall k :: k != "zt-proxy" && k != "zt-proxy-ai" && k != "zt-direct" ==>
            Get(u, k) == Get(original.GetOr([]), k))
  {
    var o := original.GetOr([]);
    var es := ScriptProviders();
    ScriptKeysDistinct();
    forall k ensures Get(Upserted(original), k) == if k in Keys(es) then Get(es, k) else Get(o, k) {
      PutAllGet(o, es, k);
    }
    GetAt(es, 0);
    GetAt(es, 1);
    GetAt(es, 2);
  }

  /** The keys after the script: the old keys in place, then those of the three the object
      lacked, in list order; no key is repeated. */
  lemma UpsertedKeys(original: Option<Obj<RuleProvider>>)
    requires original.Some? ==> WellFormed(original.value)
    ensures var o := original.GetOr([]);
      && Keys(Upserted(original)) == Keys(o) + Fresh(Keys(o), ["zt-proxy", "zt-proxy-ai", "zt-direct"])
      && WellFormed(Upserted(original))
  {
    ScriptKeysDistinct();
    PutAllKeys(original.GetOr([]), ScriptProviders());
  }

  /** Running the script again leaves `rule-providers` as the first run left it. */
  lemma UpsertIdempotent(original: Option<Obj<RuleProvider>>)
    ensures Upserted(Some(Upserted(original))) == Upserted(original)
  {
    var u := Upserted(original);
    var es := ScriptProviders();
    ScriptKeysDistinct();
    forall i | 0 <= i < |es| ensures Get(u, es[i].0) == Some(es[i].1) {
      PutAllGet(original.GetOr([]), es, es[i].0);
      GetAt(es, i);
    }
    PutAllPresent(u, es);
  }

  /** The script's rules are the three `RULE-SET` rules in list order followed by the
      original rules unchanged: exactly three more rules. */
  lemma PrependedRules(rules: Option<seq<string>>)
    ensures var r := Prepended(rules);
      && |r| == |rules.GetOr([])| + 3
      && r[..3] == ["RULE-SET,zt-proxy,🛸 节点选择", "RULE-SET,zt-proxy-ai,🛸 节点选择", "RULE-SET,zt-direct,DIRECT"]
      && r[3..] == rules.GetOr([])
  {
    assert RuleSet(ScriptProvidersConfig[0]) == "RULE-SET,zt-proxy,🛸 节点选择";
    assert RuleSet(ScriptProvidersConfig[1]) == "RULE-SET,zt-proxy-ai,🛸 节点选择";
    assert RuleSet(ScriptProvidersConfig[2]) == "RULE-SET,zt-direct,DIRECT";
  }

  /** Running the script twice puts the three rules in front twice: the rules are not
      idempotent, unlike the providers. */
  lemma RunTwiceRules(rules: Option<seq<string>>)
    ensures var twice := Prepended(Some(Prepended(rules)));
      && twice == RuleSets(ScriptProvidersConfig) + RuleSets(ScriptProvidersConfig) + rules.GetOr([])
      && |twice| == |rules.GetOr([])| + 6
      && twice != Prepended(rules)
  {
  }
}
