# Clash configuration rewrite, modelled in Dafny

This project models the part of the `my_custom_rules` repository that rewrites a decoded Clash
proxy configuration. The repository has two variants of the rewrite.

- The GET handler of `fc/index.js` does the following:
  - checks that `proxies` is an array;
  - puts a synthesized `ALL_PROXY` url-test group first in `proxy-groups`, holding every proxy;
  - puts a `USH2` url-test group after it, holding the US hysteria2 proxies, only when there are some;
  - builds one HTTP rule provider per entry of its provider list, with a change token in each cache path;
  - spreads the document's own `rule-providers` over those providers;
  - purges every rule starting with `RULE-SET,zt-proxy` or `RULE-SET,zt-direct` (its own bindings, but also third-party rules such as `RULE-SET,zt-proxy-extra,…` and `RULE-SET,zt-directory,…`) and puts a fixed prefix in front of `rules`: an optional reddit rule, then the three bindings.
- The `main(config)` override script of `script.js` does the following:
  - assigns three fixed providers into `rule-providers`, without tokens;
  - puts three `RULE-SET` rules in front of `rules`, without purging;
  - returns the object it was given.

Layout:

- `Wrappers.dfy`: `Option`, `Result` and `Outcome`.
- `JsStrings.dfy`: the JavaScript string operations the code relies on: `includes`, `startsWith`, `replace(/["']/g, '')` and `substring`, including its clamping of negative and out-of-range bounds.
- `JsObjects.dfy`: a plain JavaScript object as an ordered list of `(key, value)` pairs.
  - Assigning an existing key replaces its value in place; assigning a new key appends it.
  - `{...a, ...b}` assigns the pairs of `a` and then those of `b` into a fresh object.
  - Key order is therefore observable, as it is in `Object.keys` and in the serialised YAML.
- `ClashConfig.dfy`: the entities of the document (proxies, groups, rule providers), the document value, and the class `Config` whose fields the handler and the script reassign in place.
- `FcHandler.dfy`: each step of the GET handler as a function, and `Transform`, the whole rewrite as a function.
  - The `push` and `forEach` loops are methods proved against those functions.
  - `Handle` changes a `Config` in place, and its contract ties the new state to `Transform`.
- `FcProperties.dfy`: the properties of the handler's rewrite, stated over those functions.
- `ClashScript.dfy`: `main` as a method on `Config`, with its properties.

Inputs the model takes as parameters:

- **HEAD probes.** Each concurrent HEAD request of the handler becomes one `Probe` value per provider, in list order. A probe either `Responded` with an optional `etag` header or `Failed`. Both carry the text of `Date.now()` at the time the token would be computed.
- **Origin document.** The document fetched from the origin URL and decoded from YAML is the `Document` or `Config` the model starts from.

## Model

| member | source | states |
|---|---|---|
| JsStrings.StartsWith | fc/index.js:234-235 | definition of `startsWith`: the first `|prefix|` characters are `prefix`; pinned down by `FcHandler.Purge` and `FcProperties.Ownership` |
| JsStrings.Includes | fc/index.js:75-77 | `name.includes('US')` is true exactly when the substring occurs at some position |
| JsStrings.RemoveQuotes | fc/index.js:152 | the result has no `"` or `'`, is no longer than the input, and is the input itself when it had no quote |
| JsStrings.RemoveQuotesKeepsOthers | fc/index.js:152 | every character other than a quote is kept, as often as it occurred |
| JsStrings.RemoveQuotesAppend | fc/index.js:152 | quote removal distributes over concatenation |
| JsStrings.Clamp | fc/index.js:152-156 | a bound is brought into `[0, length]`, and a bound already in range is kept |
| JsStrings.Substring | fc/index.js:152-156 | the result is no longer than the string and occurs in it; the clamping and swapping are stated by the three lemmas below |
| JsStrings.SubstringInRange | fc/index.js:152 | with `0 <= i <= j <= length`, `substring(i, j)` is the characters from `i` up to `j` |
| JsStrings.SubstringSwapped | fc/index.js:152-156 | `substring(i, j)` equals `substring(j, i)`: bounds out of order are swapped |
| JsStrings.SubstringClamped | fc/index.js:152-156 | `substring(i, j)` equals `substring` of the bounds clamped to `[0, length]` |
| JsStrings.SubstringPrefix | fc/index.js:152 | `substring(0, n)` is the first `n` characters, or the whole string when it is shorter |
| JsStrings.SubstringNegativeStart | fc/index.js:156 | `substring` with a negative start returns the whole string, not its last characters |
| JsObjects.Keys | fc/index.js:220 | `Object.keys`: one key per pair, in insertion order |
| JsObjects.Get | fc/index.js:214-219 | `o[k]` is absent exactly when `k` is not a key; pinned down by `JsObjects.PutGet` and `JsObjects.PutAllGet` |
| JsObjects.Put | fc/index.js:214 | assigning a key keeps the key order when the key exists and appends the key when it is new |
| JsObjects.PutGet | fc/index.js:214 | after `o[k] = v`, `k` holds `v` and every other key keeps its value |
| JsObjects.PutNewKey | fc/index.js:214 | assigning a key the object lacks appends the pair at the end |
| JsObjects.PutWellFormed | fc/index.js:214 | assignment never creates a second copy of a key |
| JsObjects.PutAll | fc/index.js:213-215 | a run of assignments into an object without repeated keys leaves none |
| JsObjects.PutAllFresh | fc/index.js:213-215 | assigning distinct new keys one by one appends them in order |
| JsObjects.CopyIsIdentity | fc/index.js:219 | spreading one object without repeated keys into `{}` reproduces it |
| JsObjects.PutAllKeys | fc/index.js:213-219 | after a run of assignments: the old keys in place, then the new keys in first-assignment order |
| JsObjects.PutAllGet | fc/index.js:213-219 | after a run of assignments each key holds the value assigned to it, otherwise its old value |
| JsObjects.PutAllPresent | script.js:16-24 | assigning values that are already in place changes nothing |
| JsObjects.Spread | fc/index.js:219 | definition of `{...a, ...b}` as the assignments of `a`, then of `b`, into `{}`; pinned down by `JsObjects.SpreadProperties` and `JsObjects.SpreadAbsorbed` |
| JsObjects.SpreadProperties | fc/index.js:219 | `{...a, ...b}` has the keys of `a`, then those of `b` that `a` lacks; on a shared key the later spread `b` wins |
| JsObjects.SpreadAbsorbed | fc/index.js:219 | spreading `m` over `a` gives back `m` when the keys of `m` start with those of `a` |
| JsObjects.Fresh | fc/index.js:219 | the keys of `b` not in `a`, in order, and no others |
| ClashConfig.Config.constructor | fc/index.js:58 | the object built from a decoded document reads back as that document |
| ClashConfig.Config.Snapshot | fc/index.js:58 | the object's fields as a document value; pinned down by the constructor and by the `ensures` of `FcHandler.Handle`, the `FcHandler.Update…` methods and `ClashScript.Run` |
| ClashConfig.HttpProvider | fc/index.js:160-166 | the descriptor is `http`, `classical`, `BASE_URL/<file>`, interval 11440, path `./my_rules/<cache file>` |
| ClashConfig.RuleSet | fc/index.js:255 | definition of `RULE-SET,<name>,<target>`; pinned down by `ClashConfig.RuleSets` and `FcProperties.ConfigConstants` |
| ClashConfig.RuleSets | fc/index.js:254-258 | one `RULE-SET,<name>,<target>` rule per provider, in list order |
| ClashConfig.Names | fc/index.js:29-33 | the provider names, in list order |
| FcHandler.Message | fc/index.js:63 | the text of the 400 response; pinned down by `FcProperties.RefusalMessage` |
| FcHandler.Validate | fc/index.js:61-64 | the document is accepted exactly when `proxies` is an array; otherwise the error is the invalid-format error |
| FcHandler.ProxyNames | fc/index.js:70 | the `ALL_PROXY` members are the proxy names, one per proxy, in order |
| FcHandler.IsUsHysteria2 | fc/index.js:75-77 | definition of the `filter` test: the name includes "US" and the type is `hysteria2`; pinned down by the `Ush2Names…` lemmas |
| FcHandler.Ush2Names | fc/index.js:75-78 | no more `USH2` members than proxies; the lemmas below fix the list exactly |
| FcHandler.Ush2NamesMembers | fc/index.js:75-78 | a name is a `USH2` member exactly when some proxy of that name contains "US" and has type `hysteria2` |
| FcHandler.Ush2NamesEmpty | fc/index.js:75-78 | the `USH2` list is empty exactly when no proxy is a US hysteria2 proxy |
| FcHandler.Ush2NamesInOrder | fc/index.js:75-78 | the `USH2` members are a subsequence of the proxy names, in document order |
| FcHandler.Ush2NamesAppend | fc/index.js:75-78 | the selection distributes over concatenation of proxy lists |
| FcHandler.Ush2NamesSingle | fc/index.js:75-78 | one proxy contributes its name exactly when it is a US hysteria2 proxy |
| FcHandler.Ush2NamesCount | fc/index.js:75-78 | each name occurs in the `USH2` list as many times as there are US hysteria2 proxies with that name, so repeated names are kept |
| FcHandler.HitsSnoc | fc/index.js:75-78 | appending one proxy adds one qualifying position named `x` exactly when it qualifies and is named `x` |
| FcHandler.UrlTestGroup | fc/index.js:90-105 | definition of a url-test group with the gstatic URL and interval 300; pinned down by `FcHandler.RewriteGroups` and `FcProperties.UsJpRewrittenGroups` |
| FcHandler.RewriteGroups | fc/index.js:83-117 | `ALL_PROXY` first (url-test, gstatic URL, interval 300); `USH2` second exactly when it has members; then the existing groups unchanged (none when missing) |
| FcHandler.CleanEtag | fc/index.js:150-152 | the token is the tag without quotes, cut to its first 8 characters: at most 8 characters and no quote |
| FcHandler.ClockToken | fc/index.js:156 | `Date.now().toString().substring(-8)` is the whole clock text |
| FcHandler.Token | fc/index.js:146-158 | a response with a non-empty tag gives the cleaned tag; a missing or empty tag gives the clock text |
| FcHandler.ProbeResult | fc/index.js:160-169 | definition of one `{name, config}` result; pinned down by `FcProperties.ProbeResultByOutcome` and `FcProperties.TimedOutProbe` |
| FcHandler.ProbeResults | fc/index.js:129-207 | one `{name, config}` result per provider, in list order, built from that provider's probe |
| FcHandler.CollectProviders | fc/index.js:213-215 | the `forEach` loop yields the object that assigns the results in order |
| FcHandler.MergeProviders | fc/index.js:219 | definition of `{...newRuleProviders, ...originalRuleProviders}`; pinned down by `FcProperties.MergedProviders` and `FcProperties.TransformTwiceProviders` |
| FcHandler.Owned | fc/index.js:233-236 | definition of the purge's prefix test; pinned down by `FcHandler.Purge`, `FcProperties.Ownership` and `FcProperties.PurgeUnowned` |
| FcHandler.Purge | fc/index.js:233-236 | a rule is kept exactly when it was in the input and starts with neither `RULE-SET,zt-proxy` nor `RULE-SET,zt-direct` |
| FcHandler.BuildNewRules | fc/index.js:243-258 | the `push` loop yields the reddit rule when `USH2` has members, then the three bindings |
| FcHandler.NewRules | fc/index.js:243-258 | definition of the new prefix; pinned down by `FcHandler.BuildNewRules`, `FcProperties.NewRulesPurged` and `FcProperties.RewriteRulesShape` |
| FcHandler.RewriteRules | fc/index.js:261 | definition of `[...newRules, ...purged]`; pinned down by `FcProperties.RewriteRulesShape` and `FcProperties.RerunRules` |
| FcHandler.Transform | fc/index.js:61-261 | refused exactly when `proxies` is not an array, with the invalid-format error; otherwise `proxies` and every other field unchanged, and groups, providers and rules present |
| FcHandler.UpdateGroups | fc/index.js:83-117 | only `proxy-groups` changes, to the rewritten groups |
| FcHandler.UpdateProviders | fc/index.js:122-219 | only `rule-providers` changes, to the merge of the collected providers with the original ones |
| FcHandler.UpdateRules | fc/index.js:224-261 | only `rules` changes, to the new prefix followed by the purged rules |
| FcHandler.Handle | fc/index.js:61-261 | the in-place rewrite leaves the configuration equal to `Transform`'s document, or unchanged and reports the error |
| FcProperties.ConfigConstants | fc/index.js:29-33 | the owned keys are distinct, and the bindings are `RULE-SET,zt-proxy,ALL_PROXY`, `RULE-SET,zt-proxy-ai,USH2`, `RULE-SET,zt-direct,DIRECT` |
| FcProperties.ProbeResultByOutcome | fc/index.js:129-205 | every probe outcome yields the provider's descriptor; only the cache path's token depends on the outcome |
| FcProperties.UnquotedTag | fc/index.js:152 | removing the quotes of `<w>"<tag>"` leaves `<w><tag>` |
| FcProperties.CleanStrongEtag | fc/index.js:152 | a strong tag `"<tag>"` gives the first 8 characters of `<tag>` |
| FcProperties.CleanWeakEtag | fc/index.js:151-152 | a weak tag `W/"<tag>"` keeps its `W/` prefix, so the token is not purely alphanumeric |
| FcProperties.QuotesOnlyEtag | fc/index.js:150-152 | a tag made only of quotes is used, and gives the empty token |
| FcProperties.ProbedProviders | fc/index.js:210-215 | the collected object has exactly the three owned keys, in list order, each holding its probe's descriptor |
| FcProperties.MergedProviders | fc/index.js:122-219 | the merged keys are the owned keys, then the document's other keys; a shared key keeps the document's value; an owned key the document lacked takes the probed descriptor |
| FcProperties.PurgeAppend | fc/index.js:233-236 | the purge distributes over concatenation |
| FcProperties.PurgeUnowned | fc/index.js:233-236 | rules that are not owned pass the purge unchanged |
| FcProperties.PurgeInOrder | fc/index.js:233-236 | the purged rules are a subsequence of the input rules, in order |
| FcProperties.Ownership | fc/index.js:233-248 | the three bindings are owned, and the reddit rule is not |
| FcProperties.NewRulesPurged | fc/index.js:233-258 | purging the new prefix removes the bindings but keeps the reddit rule |
| FcProperties.RewriteRulesShape | fc/index.js:224-261 | the rules are the reddit rule exactly when `USH2` has members, then the three bindings, then the purged document rules |
| FcProperties.RerunRules | fc/index.js:224-261 | rewriting the rewritten rules gives the prefix, the first run's reddit rule, the bindings and the document's unowned rules |
| FcProperties.RerunRulesCounts | fc/index.js:224-261 | after a second run each binding occurs once, and the reddit rule occurs once more than after the first |
| FcProperties.SameNamedGroupKept | fc/index.js:117 | a document group survives at its shifted position even when it is named `ALL_PROXY` |
| FcProperties.GroupsPrepended | fc/index.js:108-117 | the synthesized groups do not depend on the existing groups, which follow them |
| FcProperties.RerunGroups | fc/index.js:117 | rewriting the rewritten groups puts the synthesized groups in front a second time |
| FcProperties.BindingsInRewrittenRules | fc/index.js:254-261 | every binding is among the rewritten rules, whatever the input rules |
| FcProperties.BindingsInRules | fc/index.js:254-261 | each provider's `RULE-SET` binding is among the rules of the rewritten document |
| FcProperties.OwnedKeysProvided | fc/index.js:213-219 | each owned key is a key of the rewritten `rule-providers` |
| FcProperties.BindingsResolve | fc/index.js:213-261 | every provider a binding names is defined in the rewritten `rule-providers` |
| FcProperties.DanglingUsh2Binding | fc/index.js:109-114 | with no US hysteria2 proxy and no `USH2` group: the rules open with the bindings and there is no `USH2` group, yet a binding still routes to `USH2` |
| FcProperties.RefusalMessage | fc/index.js:61-64 | a document is refused exactly when `proxies` is not an array, and the refusal's text is `Invalid YAML format: no proxies found` |
| FcProperties.TransformFields | fc/index.js:61-261 | an accepted document's three rewritten fields are the groups, merge and rules functions |
| FcProperties.TransformTwiceProviders | fc/index.js:219 | a second rewrite, with any probe outcomes, leaves `rule-providers` as the first one left it |
| FcProperties.TransformTwiceGroups | fc/index.js:117 | a second rewrite puts the synthesized groups in front again |
| FcProperties.TransformTwiceRules | fc/index.js:224-261 | a second rewrite keeps one copy of each binding and adds a second reddit rule |
| FcProperties.UsJpClassification | fc/index.js:70-78 | for US-1 (hysteria2), US-2 (vmess) and JP-1 (hysteria2), `ALL_PROXY` has all three and `USH2` has US-1 only |
| FcProperties.UsJpRewrittenRules | fc/index.js:243-261 | the two user rules follow the reddit rule and the three bindings |
| FcProperties.UsJpRewrittenGroups | fc/index.js:88-117 | the US/JP example's groups are exactly the two url-test groups, written out |
| FcProperties.UsJpExample | fc/index.js:61-261 | the whole rewrite of the US/JP example document gives those groups and those rules |
| FcProperties.TimedOutProbe | fc/index.js:171-205 | a failed probe still yields its provider, with the clock as the token, when the document lacked that key |
| ClashScript.ScriptProviders | script.js:4-24 | one assignment per provider, in list order, with an untokened path |
| ClashScript.ScriptProvider | script.js:17-23 | definition of the untokened provider for one entry; pinned down by `ClashScript.ScriptProviders` and `ClashScript.UpsertedValues` |
| ClashScript.Upserted | script.js:16-24 | definition of `rule-providers` after the loop; pinned down by `ClashScript.UpsertedValues`, `ClashScript.UpsertedKeys` and `ClashScript.UpsertIdempotent` |
| ClashScript.Prepended | script.js:32-36 | definition of `rules` after the script; pinned down by `ClashScript.PrependedRules` and `ClashScript.RunTwiceRules` |
| ClashScript.InstallProviders | script.js:11-24 | only `rule-providers` changes: the existing object (or `{}`) with the three providers assigned in order |
| ClashScript.Run | script.js:1-39 | the result is the argument; only `rule-providers` and `rules` change |
| ClashScript.ScriptKeysDistinct | script.js:4-8 | the three keys are `zt-proxy`, `zt-proxy-ai`, `zt-direct`, all distinct |
| ClashScript.UpsertedValues | script.js:16-24 | each installed key holds its HTTP provider with path `./my_rules/<file>`; every other key keeps its value |
| ClashScript.UpsertedKeys | script.js:11-24 | the old keys in place, then the installed keys the object lacked, in order; no key repeated |
| ClashScript.UpsertIdempotent | script.js:16-24 | running the script again leaves `rule-providers` as the first run left it |
| ClashScript.PrependedRules | script.js:27-36 | the three `RULE-SET` rules in list order, then the original rules unchanged: exactly three more |
| ClashScript.RunTwiceRules | script.js:32-36 | two runs put the three rules in front twice, so the rules are not idempotent |

## Left out

- The HTTP plumbing is not modelled: Express setup, body parsers, the POST route and `listen`, the 400 and 500 responses, and the status codes. The 400 path is modelled as the `Failure(InvalidFormat)` of `Transform`, whose text `Message` gives (`FcProperties.RefusalMessage`).
- The fetch of the origin document and the HEAD probes are network I/O. Each probe is an input `Probe` value instead. Timeouts, headers and the user agent of the request are not modelled.
- `Promise.all` is a concurrent fan-out. It is modelled as a sequential map over the provider list, which is the order in which `Promise.all` returns its results.
- `yaml.load` and `yaml.dump` are a foreign codec. The model starts from the decoded document and ends at the document before serialisation.
- `Date.now()` is a clock. Its decimal text is part of each probe, as an opaque string.
- Every `console` call and the error-classification branches of the probe's `catch` are left out, because they only log.
- The commented-out MATCH handling is not live code.
- `test/test.main.js` is a print harness without assertions. It is not part of this model.
- Exceptions the handler turns into a 500 response are left out. Examples are a `proxy-groups` value that is not iterable (a string would instead be spread into its characters), a rule that is not a string, or a proxy without a name. The document type rules them out: names, rules and groups are always well typed.
- JavaScript orders integer-like keys such as `"1"` before the other keys, and treats `__proto__` specially. Provider names are modelled as ordinary string keys in insertion order.
- Strings are sequences of Unicode characters rather than UTF-16 code units. `substring(0, 8)` on a tag with characters outside the Basic Multilingual Plane may therefore cut differently.
- Top-level key order is not modelled. When `proxy-groups`, `rule-providers` or `rules` is absent, fc/index.js:84, 219 and 225 add it after the existing keys, and `yaml.dump` keeps that order; `Document` has named fields and no order among them.
- Records have fixed shapes. A group with `use` or `filter`, a `file` or inline rule provider, and proxy attributes other than `name` and `type` cannot be held by the types in `ClashConfig.dfy`, though the source passes them through unchanged.
- `ClashScript.InstallProviders` models `rule-providers` as a value the method reassigns. Another reference to that nested object, which would observe the assignments, is not modelled.

Where the behaviour of the code differs from what its own comments say or a reader might assume, the model follows the code:

- `{ ...newRuleProviders, ...originalRuleProviders }` lets the document's own provider win on a shared key. The comment says the custom providers take priority. The key order does put the custom providers first (`FcProperties.MergedProviders`).
- The synthesized groups are put in front of the existing ones, and an existing `ALL_PROXY` or `USH2` group is kept as well (`FcProperties.SameNamedGroupKept`).
- The binding `RULE-SET,zt-proxy-ai,USH2` is emitted even when no `USH2` group exists (`FcProperties.DanglingUsh2Binding`).
- The comment on the tag cleaning says only letters and digits are kept. The code removes quotes only, so a weak tag keeps its `W/` (`FcProperties.CleanWeakEtag`).
