/** The decoded Clash configuration tree that both rewriters read and update: only the
    top-level fields they touch are modelled field by field, every other field is carried as
    an opaque list of (key, text) pairs. */
module ClashConfig {
  import opened Wrappers
  import opened JsObjects

  /** One entry of `proxies`; `protocol` is the entry's `type` field. */
  datatype Proxy = Proxy(name: string, protocol: string)

  /** The `proxies` field as the decoder delivers it: absent or falsy, present but not an
      array, or an array of proxies. */
  datatype ProxiesField = Absent | NotAnArray | Proxies(nodes: seq<Proxy>)

  /** One entry of `proxy-groups`. Synthesized groups are `url-test` groups with a probe URL
      and interval; a group already in the document is kept as it was. */
  datatype ProxyGroup =
    | UrlTest(name: string, members: seq<string>, url: string, interval: int)
    | OtherGroup(name: string, strategy: string, members: seq<string>)

  /** One value of `rule-providers`; `kind` is its `type` field. */
  datatype RuleProvider = RuleProvider(kind: string, behavior: string, url: string, interval: int, path: string)

  /** One element of a rule-provider list: the provider key, the remote file and the target
      group or action of its `RULE-SET` rule. */
  datatype ProviderSpec = ProviderSpec(name: string, file: string, target: string)

  /** The whole document as a value. A field is `None` when absent or falsy. */
  datatype Document = Document(
    proxies: ProxiesField,
    proxyGroups: Option<seq<ProxyGroup>>,
    ruleProviders: Option<Obj<RuleProvider>>,
    rules: Option<seq<string>>,
    others: Obj<string>)

  /** The configuration object that the rewriters receive and change in place. */
  class Config {
    var proxies: ProxiesField
    var proxyGroups: Option<seq<ProxyGroup>>
    var ruleProviders: Option<Obj<RuleProvider>>
    var rules: Option<seq<string>>
    var others: Obj<string>

    constructor (d: Document)
      ensures Snapshot() == d
    {
      proxies, proxyGroups, ruleProviders, rules, others :=
        d.proxies, d.proxyGroups, d.ruleProviders, d.rules, d.others;
    }

    /** The current contents of the object as a value. */
    function Snapshot(): Document
      reads this
    {
      Document(proxies, proxyGroups, ruleProviders, rules, others)
    }
  }

  /** Where the remote rule files live. */
  const BaseUrl: string := "https://raw.githubusercontent.com/dragonfly429/my_custom_rules/refs/heads/main"

  /** Refresh interval, in seconds, of every rule provider the rewriters create. */
  const ProviderInterval: int := 11440

  /** The provider both rewriters write for a remote file, given the file name used in its
      local cache path. */
  function HttpProvider(file: string, cacheFile: string): (p: RuleProvider)
    ensures p.kind == "http" && p.behavior == "classical" && p.interval == 11440
    ensures p.url == BaseUrl + "/" + file
    ensures p.path == "./my_rules/" + cacheFile
  {
    RuleProvider("http", "classical", BaseUrl + "/" + file, ProviderInterval, "./my_rules/" + cacheFile)
  }

  /** The `RULE-SET` rule that routes the rules of one provider to its target. */
  function RuleSet(spec: ProviderSpec): string {
    "RULE-SET," + spec.name + "," + spec.target
  }

  /** The rule-set rules of a provider list, in list order. */
  function RuleSets(specs: seq<ProviderSpec>): (r: seq<string>)
    ensures |r| == |specs|
    ensures forall i :: 0 <= i < |specs| ==> r[i] == RuleSet(specs[i])
  {
    seq(|specs|, i requires 0 <= i < |specs| => RuleSet(specs[i]))
  }

  /** The provider keys of a provider list, in list order. */
  function Names(specs: seq<ProviderSpec>): (r: seq<string>)
    ensures |r| == |specs|
    ensures forall i :: 0 <= i < |specs| ==> r[i] == specs[i].name
  {
    seq(|specs|, i requires 0 <= i < |specs| => specs[i].name)
  }
}
