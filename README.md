# Proxy provider converter: the conversion engine

This project models the conversion engine behind the two `convert` endpoints of
the proxy provider converter. An endpoint takes a subscription URL, loads a
Clash configuration and answers in one of two ways:

- with the configuration's `proxies` list, serialised back to YAML;
- with `target=surge`, one Surge proxy line per record whose type Surge supports
  (`ss`, `vmess`, `trojan`) and whose plugin or network it can express.

`app/api/convert.tsx` converts the whole list. `app/api/convert/route.tsx` first
keeps only the records whose name passes the `include`/`exclude` patterns.

Modules:

- `Wrappers`: `Option` and `Result`.
- `Seqs`: a generic `Filter` and subsequence with their laws, and `Concat`, which
  appends the pieces produced for each element.
- `Text`: how the handlers turn values into text.
  - An absent field interpolates as `undefined`.
  - A port prints in decimal.
  - `Array.prototype.join` and its inverse, a line splitter.
  - A literal substring search that can stand in for `String.prototype.match`.
- `Proxies`: the proxy record. The YAML key `type` is the field `kind`.
- `NameFilter`: the `for` loop of `route.tsx` that pushes every kept record, as a
  method proved equal to a filter function.
- `Surge`: the per-record translator.
  - Each protocol has a clause table: key, whether the record's fields call for
    the clause, and its value.
  - `SurgeLine` is the specification.
  - `BuildSsLine`, `BuildVmessLine` and `BuildTrojanLine` are methods that
    extend a local `result` step by step as the handlers do. Each is proved to
    produce exactly `SurgeLine`.
- `SurgeOutput`: the list pipeline. It keeps the supported types, maps each
  record to a line or `undefined`, drops the `undefined`s and joins with `"\n"`.
- `Handlers`: the validation chain and the two outputs.
  - `Convert` is `convert.tsx`.
  - `HandleRoute` is `route.tsx`. It is proved to be `Convert` applied to the
    document with its list narrowed by the name filter.
- `Scenarios`: concrete records and the answers they get.

Both handlers contain the same translator, line for line. The model has one
translator. Each row below cites the `route.tsx` copy, or the `convert.tsx`
copy where the row is about that handler.

Regular-expression matching is a parameter: `matches(name, pattern)`. JavaScript
truthiness is written out:

- a string counts only when present and non-empty (`NonEmpty`);
- a boolean counts only when it is `true` (`IsTrue`).

## Model

| member | source | states |
|---|---|---|
| NameFilter.FilterProxies | app/api/convert/route.tsx:91-103 | The loop's pushed list is exactly the filter of the input by the keep rule (loop invariant on the prefix seen so far). |
| NameFilter.FilteredMembers | app/api/convert/route.tsx:94-98 | A record survives iff it is in the input, its name is present and non-empty, it matches a non-empty `include`, and it does not match a non-empty `exclude`. |
| NameFilter.UnnamedDropped | app/api/convert/route.tsx:94-95 | A record with a missing or empty name never survives, whatever the patterns. |
| NameFilter.FilteredOrderAndMultiplicity | app/api/convert/route.tsx:91-101 | The output is a subsequence of the input. Each kept record keeps all of its copies and each dropped record has none: no reordering, no deduplication. |
| NameFilter.FilteredIdempotent | app/api/convert/route.tsx:91-101 | Filtering the output again with the same patterns changes nothing. |
| NameFilter.NoRuleKeepsNamed | app/api/convert/route.tsx:95-97 | With `include` and `exclude` each absent or empty (as in `include=&exclude=`), exactly the named records are kept. A fully named list comes back unchanged. |
| NameFilter.FilteredAppend | app/api/convert/route.tsx:92-100 | Each record is judged on its own: filtering a concatenation concatenates the filtered parts. |
| Surge.DropRules | app/api/convert/route.tsx:106-165 | An ss record yields no line iff its plugin is `v2ray-plugin`. A vmess record yields none iff its network is h2, http or grpc. A trojan record yields none iff its network is grpc. Any other type never yields a line. |
| Surge.DropDecisionDependsOnlyOnTransport | app/api/convert/route.tsx:112-165 | Two records with the same type, plugin and network are either both kept or both dropped. |
| Surge.ClauseOrder | app/api/convert/route.tsx:120-172 | The keys on a line are the protocol's key sequence with some keys left out. Clauses are never reordered. |
| Surge.SsClauses | app/api/convert/route.tsx:120-131 | An ss line always has `encrypt-method` and `password`, rendering absent values as `undefined`. It has `udp-relay=true` iff `udp` is true. |
| Surge.SsObfsClauses | app/api/convert/route.tsx:121-128 | An ss line has `obfs=<mode>` iff the plugin is `obfs` with options. It has `obfs-host=example.com <host>` iff, in addition, the host is set. |
| Surge.VmessClauses | app/api/convert/route.tsx:141-144 | A vmess line always has `username=<uuid>`. It has `skip-cert-verify=true` iff that field is true. |
| Surge.VmessTlsClauses | app/api/convert/route.tsx:145-150 | A vmess line has `sni=<servername>` iff the server name is set. It has `tls=true` iff `tls` is true. |
| Surge.VmessWsClauses | app/api/convert/route.tsx:151-156 | A vmess line has `ws=true` iff the network is `ws`. It has `ws-path=<path>` iff the path is set. |
| Surge.TrojanClauses | app/api/convert/route.tsx:166-172 | A trojan line always has `password`. It has `skip-cert-verify=true` iff that field is true, and `sni=<sni>` iff `sni` is set. |
| Surge.FullLineRendersClauses | app/api/convert/route.tsx:111-131 | A line built from a table is the head followed by the rendered `, key=value` texts of exactly the present clauses, in table order. |
| Surge.SsLineStart | app/api/convert/route.tsx:120 | An ss line begins with `name = ss, server, port, encrypt-method=<cipher>, password=<password>`. |
| Surge.VmessLineStart | app/api/convert/route.tsx:141 | A vmess line begins with the head and `, username=<uuid>`. |
| Surge.TrojanLineStart | app/api/convert/route.tsx:166 | A trojan line begins with the head and `, password=<password>`. |
| Surge.LineStartsWithName | app/api/convert/route.tsx:111 | Every line begins with the record's name (`undefined` when absent) followed by ` = `. |
| Surge.BuildSsLine | app/api/convert/route.tsx:112-132 | The step-by-step ss builder returns `undefined` for v2ray-plugin and otherwise exactly the table line. |
| Surge.BuildVmessLine | app/api/convert/route.tsx:133-157 | The step-by-step vmess builder returns `undefined` for h2/http/grpc and otherwise exactly the table line. |
| Surge.BuildTrojanLine | app/api/convert/route.tsx:158-173 | The step-by-step trojan builder returns `undefined` for grpc and otherwise exactly the table line. |
| Surge.BuildSurgeLine | app/api/convert/route.tsx:109-175 | The map callback dispatches on the type and yields exactly `SurgeLine`; unknown types yield `undefined`. |
| Text.DecimalString | app/api/convert/route.tsx:111 | The printed port is non-empty, all digits, and has no leading zero unless the port is 0. |
| Text.DecimalRoundTrip | app/api/convert/route.tsx:111 | Reading the printed port back as a decimal number gives the port. |
| Text.JoinSplitRoundTrip | app/api/convert/route.tsx:177 | Joining newline-free lines with `"\n"` and splitting at newlines gives the lines back. |
| Text.JoinEmpty | app/api/convert/route.tsx:177 | The joined text is empty iff there is no line, or one empty line. |
| SurgeOutput.SurgeLinesMembers | app/api/convert/route.tsx:106-176 | A line is in the output iff some record of the list translates to it. |
| SurgeOutput.SurgeLinesAppend | app/api/convert/route.tsx:106-176 | The lines of a concatenated list are the lines of each part, in input order. |
| SurgeOutput.SurgeLinesSingle | app/api/convert/route.tsx:109-176 | One record contributes its own line, or nothing when it is dropped. |
| SurgeOutput.SupportFilterRedundant | app/api/convert/route.tsx:106-108 | The type filter before the map removes only records the map would have turned into `undefined`. |
| SurgeOutput.LinesNonEmpty | app/api/convert/route.tsx:176 | No emitted line is empty, so dropped records leave no blank lines. |
| SurgeOutput.SurgeBodyEmpty | app/api/convert/route.tsx:176-177 | The body is empty iff no record yields a line. |
| SurgeOutput.SurgeBodyLines | app/api/convert/route.tsx:176-177 | With newline-free fields, splitting the body at newlines gives the emitted lines. |
| SurgeOutput.SurgeLinesCount | app/api/convert/route.tsx:106-176 | There are at most as many lines as input records. |
| Handlers.Status | app/api/convert.tsx:42-74 | Every error answers 400, except a document that does not parse, which answers 500. |
| Handlers.Convert | app/api/convert.tsx:42-155 | Fails iff the URL is missing or empty, loading fails, or `proxies` is absent. A missing URL is reported iff the URL is missing or empty; a load error is reported as that fetch or parse error with its message; "No proxies" iff only `proxies` is absent. Otherwise the list passes through unchanged, or becomes the Surge body for `surge`. |
| Handlers.LoadFailure | app/api/convert.tsx:56-69 | A failed fetch becomes `Unable to get url` with the transport's message and status 400; a failed parse becomes `Unable parse config` with the parser's message and status 500. |
| Handlers.MessageDeterminesFailure | app/api/convert.tsx:42-74 | Distinct errors have distinct response texts: the text determines the error kind and, for a load error, its message. |
| Handlers.HandleRoute | app/api/convert/route.tsx:39-188 | The route answers exactly what `convert.tsx` answers on the same document with its list narrowed by the name filter. |
| Handlers.RouteFailsAsConvert | app/api/convert/route.tsx:85-103 | The name filter neither causes nor hides an error. An empty filtered list is a success. |
| Handlers.RouteWithoutRuleIsConvert | app/api/convert/route.tsx:95-103 | With `include` and `exclude` absent or empty and every record named, the route answers exactly as `convert.tsx`. |
| Handlers.RoutePassThroughKeepsOrder | app/api/convert/route.tsx:181-187 | For a target other than `surge` the route returns a subsequence of the loaded records, unchanged. |
| Handlers.RouteSurgeLines | app/api/convert/route.tsx:91-180 | A route Surge line exists iff some record the filter keeps translates to it. |
| Scenarios.HongKongLine | app/api/convert/route.tsx:111-132 | A concrete ss record with `udp: true` gets head `HK-1 = ss, a.com, 443`. Its clauses are exactly cipher, password and `udp-relay=true`. |
| Scenarios.JapanGrpcDropped | app/api/convert.tsx:107-150 | A lone vmess-over-grpc record gives an empty Surge body, not an error. |
| Scenarios.SingaporeWsLine | app/api/convert/route.tsx:141-157 | A concrete vmess-over-ws record with TLS and a path gets username, `tls=true`, `ws=true` and `ws-path` in that order. |
| Scenarios.IncludeIsCaseSensitive | app/api/convert/route.tsx:95-98 | With a literal matcher, `include=hk` keeps nothing of `HK-1`/`jp-1`, while `include=HK` keeps `HK-1`. |

## Left out

- Fetching the URL (axios, the fetch adapter, the user-agent header): its outcome is a parameter, a loaded document or a fetch error with its message.
- YAML parsing and serialisation (`YAML.parse`/`stringify`, `load`/`dump`): the parsed document is an input. The pass-through answer carries the records as the `Proxy` type holds them, not their YAML text.
- Record keys the translator never reads (`ws-opts`, `alterId` and the like): the pass-through returns them untouched, but the `Proxy` type cannot hold them, so the model's pass-through does not show them.
- The base64 fallback in `route.tsx` (`Buffer.from` on an already-parsed value). It never re-parses, so it cannot produce a `proxies` list. A document without `proxies` therefore still ends at "No proxies".
- Documents that are not a mapping. A scalar (a base64 blob reads as one plain string) has no `proxies`: `route.tsx` tries to decode it, or its inner `catch` swallows the decoding error, and both handlers then answer "No proxies". A `null` document makes the `proxies` access throw: inside the parse `try` in `route.tsx`, so it is reported as a parse failure, but outside any `try` in `convert.tsx`, so that handler fails with an unhandled exception. The model covers the first by a loaded document without `proxies` and the route's `null` case by a parse error; the unhandled exception of `convert.tsx` is not modelled.
- Reading the query: the `rawRrl` key and array-valued parameters in `convert.tsx`, and the route's `params`. The route has no dynamic path segment, yet it reads `url`, `target`, `include` and `exclude` from `params`, while the web page sends them as a query string; whether they arrive there depends on the framework and is not modelled. The URL, target and patterns are inputs.
- Response objects, content-type headers and `console.log`. `Handlers.Message` gives the error texts, but the model does not build responses.
- Regular-expression semantics and exceptions from malformed patterns: matching is a parameter.
- Field values of the wrong JSON type. Examples are a non-boolean `udp`, `tls` or `skip-cert-verify`, a non-string name, a non-array `proxies`, a negative or fractional port, and an absent server. The record type admits only the declared types.
- DecimalString: prints every digit of the port, whereas `${port}` switches to exponent notation for numbers of 10^21 and above.
- Truthiness of booleans: only `true` counts, so `${proxy.udp}` and the like always print `true`.
- The web page (`app/page.tsx`) and the analytics set-up (`pages/_app.js`) are not part of this model.
