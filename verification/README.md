# The observability control plane, modelled and proved

This project models the decision logic of `dotmac_observability`: how desired state becomes files and
packet-filter rules, how a host's read-back is judged, how a release is promoted and rolled back, what
a receipt and a later comparison may claim, how a host is searched for database consumers, and how the
private inventory is resolved, retired from and migrated.

Code that changes things step by step is imperative here: the printer's shared line list, the
promotion facility with its call log, the census ledger and source, the redaction vault, the findings
loops. Each such method is proved against a specification, and the theorems are lemmas about that
specification. Where the source is expressions, the model is functions.

- `YamlTree`, `YamlReader`, `YamlScalars`, `YamlBlocks`, `YamlText`, `YamlDepth`, `YamlTheorems`,
  `YamlTidy`, `YamlEmit`: the printer, a reader for exactly the printed subset of YAML 1.2.2, and the round trip.
- `Exposure`, `RenderLookups`, `RenderedFiles`: rules and what they decide, the renderer's lookups, the
  rendered directory.
- `Records`, `Dicts`, `Strings`, `Digests`, `LiveTree`, `LiveTargets`, `LiveIntegrity`, `LiveDelivery`,
  `LiveProbes`, `LiveVerify`, `LiveMeaning`: the six conditions and the verdict, and what each of them
  says of a host entry by entry.
- `Receipt`, `Drift`, `Promote`, `PromoteTheorems`, `PromoteMeaning`, `RunExamples`: the executor, its
  receipts, whole sequences of promotions, and a concrete run for each property that fails.
- `CensusRecords`, `CensusWalk`, `Census`, `CensusTheorems`, `CensusFamilies`, `CensusFound`,
  `CensusLimits`, `CensusCoverage`, `Projection`: the consumer census. A family's walk is one machine
  whose events are kept; each enumerator is proved to be its family's walk, and soundness, completeness
  and budget refinement are proved of the machine, then path by path and record by record.
- `SemanticGate`, `Resolution`, `StateExamples`, `Supersession`, `Migration`: joins, inventories that pass
  both gates and still go wrong, compare-and-set, conservation.
- `Ingestion`: the two-pass classifier.

## How the world is modelled

- SHA-256 and canonical JSON are constructors over their exact preimages, hence injective; digests a
  host reports may also be arbitrary text.
- A promotion facility is any script of replies, one per method, each of which may be a value or a
  raised `Exception`; what is a `BaseException` only is caught nowhere and not modelled. No run calls a
  method twice (`PromoteTheorems.NoMethodTwice`), so ranging over scripts is ranging over facilities.
- A census host is any function from the moment and the question to an answer or a classified failure,
  and each family's walk meets its own. A text is what the module's patterns see in it.
- Regular expressions are modelled exactly where a theorem depends on them (`_PLAIN`, `_INTEGER`) and
  are parameters elsewhere; `str.lower`, `str.strip` and Unicode tables are parameters too.
- A timestamp is what `datetime.fromisoformat` makes of it: unreadable, without an offset, or with one.
- Reading a rendered file translates its line breaks; writing one, on a POSIX host, translates nothing.
- `iptables-restore` installs a family's file whole, or, if a source in it is of the other family, not at
  all.
- The order of findings and their wording are not modelled; which findings are made, and about what, is.

## Where the code says something else than its words

- `_PLAIN` ends in `$` under `match`, so an identifier followed by one newline is printed bare. The
  round trip is proved exactly on the documents without one.
- `_expected_total` counts a job without `expected` as zero while the verifier uses its endpoint count;
  `Receipt.ExpectedMatchesUp` says exactly when the two agree.
- Any rollback record at all records the run as rolled back, whatever `succeeded` or
  `restored_release` say.
- `resolution_findings` passes over a datasource whose target no job declares, and `resolve` then
  raises; the public gate is what excludes it.
- `_logrotate` refuses mixed ownership, and no ownership at all, and no gate asks for either; a lag
  budget such as `5m` with a newline behind it passes its schema, whose `$` admits one, and
  `duration_seconds` refuses it. The render stands in `promote` outside every handler, so both leave it
  as an exception before anything is asked of the facility, against its docstring
  (`PromoteTheorems.RendersBehindGates`, `RunExamples.UnrenderedRun`).
- `resolve` files datasources by name, the last one winning, and no gate asks for distinct names, so one
  can be rendered at another's address (`StateExamples.NamesakeOverwrites`). Likewise the earlier of two
  private bindings of one id is never read and never reported.
- Prefixes are written into both family files, a restore refuses a file with a foreign one whole, and no
  gate forbids two surfaces one key. A loopback surface's closing rule names no interface, so it drops
  what loopback itself sends.
- `migrate_capture` collects the public keys it drops and reports none of them, against its docstring; and
  it drops `metrics_path`, `scheme`, a receiver's `kind`, the capture's notes and whatever else a
  credential holds without even collecting them. `Migration.NothingLostExactly` says exactly when nothing
  is lost.
- Header lines are marked as comments one by one, so one that holds a line break goes on as YAML.
- Nothing compares the release a read-back names with the one staged and accepted.
- The byte budget of a census counts characters.
- `_elapsed_seconds` catches a timestamp that cannot be read and not the `TypeError` of subtracting one
  with an offset from one without. The final `verify` stands outside every handler of `promote`, so a
  read-back stamped `2026-01-01T01:00:00` against a baseline of `2026-01-01T00:00:00Z` leaves `promote`
  as an exception after the reload: no rollback, no receipt, against its docstring
  (`RunExamples.EscapedRun`; exactly when, in `Promote.Promote`).
- `differences` says it compares bytes and compares text with line breaks translated: a copy with
  two-character line ends is reported clean, and a rendered carriage return drifts as soon as it is
  written.
- The byte budget of a census does not cover program output: it holds exactly for the nine families
  that only read files, or where no file may be spent at all.
- A script that names neither a client nor a connection string is passed over, so the script family can
  be ABSENT over a script that sets `PGHOST`; nothing else that was read can show anything.
- A live route that nobody declared is not reported by condition 4.

## Model

| member | source | states |
|---|---|---|
| `YamlEmit.Quote` | `src/dotmac_observability/yaml_emit.py:86-95` | A string is printed between double quotes with every character escaped as section 5.7 of YAML 1.2.2 spells it, character by character |
| `YamlEmit.Scalar` | `src/dotmac_observability/yaml_emit.py:98-109` | Every scalar has one spelling: booleans before numbers, a bare identifier only when no loader takes it for anything else |
| `YamlEmit.EmitMapping` | `src/dotmac_observability/yaml_emit.py:119-138` | Appends exactly the lines of the mapping to the shared list and touches nothing already there |
| `YamlEmit.EmitEntry` | `src/dotmac_observability/yaml_emit.py:119-138` | One entry: its key and inline value on one line, or its key and the block one level deeper |
| `YamlEmit.EmitSequence` | `src/dotmac_observability/yaml_emit.py:141-167` | Appends exactly the lines of the sequence |
| `YamlEmit.EmitItem` | `src/dotmac_observability/yaml_emit.py:143-167` | A nested block is printed apart, its first line rides the dash and the others keep their pads |
| `YamlEmit.Ride` | `src/dotmac_observability/yaml_emit.py:150-165` | Re-basing moves the first nested line behind the dash and no other line |
| `YamlEmit.Emit` | `src/dotmac_observability/yaml_emit.py:170-179` | What is printed is read back as the document exactly when no key or string value is an identifier ending in a newline and the header, cut into lines, is all comments; a tight file ends in exactly one newline |
| `YamlScalars.PlainReadsBack` | `src/dotmac_observability/yaml_emit.py:44-109` | What a loader makes of a string printed bare: itself, or, if it ends in a newline, a different word |
| `YamlScalars.InlineReadsBack` | `src/dotmac_observability/yaml_emit.py:98-109` | Every inline value reads back as its normal form and can be taken neither for a key nor for a dash |
| `YamlBlocks.NormalIsIdentity` | `src/dotmac_observability/yaml_emit.py:44-107` | A loader's view of a document is the document exactly when nothing in it is loose |
| `YamlTheorems.PrintedFileReads` | `src/dotmac_observability/yaml_emit.py:86-179` | For every document under every header that is all comments: the file parses to its normal form, or to nothing when some key is loose; the header is its comments |
| `YamlTheorems.RoundTrip` | `src/dotmac_observability/yaml_emit.py:86-179` | For every document and every header: reading what was printed is the identity if and only if the document is tight and every line the header is cut into is blank or a comment |
| `YamlTheorems.Injective` | `src/dotmac_observability/yaml_emit.py:170-179` | Two tight documents with the same text, under headers that are all comments, are the same document with the same comments |
| `YamlTheorems.HeaderBecomesEntry` | `src/dotmac_observability/yaml_emit.py:177-177` | A header line that goes on behind a line break with an entry prints exactly like the document that begins with that entry |
| `YamlTheorems.LooseValueIsLost` | `src/dotmac_observability/yaml_emit.py:44-107` | The string yes followed by a newline is printed bare and comes back as a boolean |
| `YamlTidy.Tidy` | `src/dotmac_observability/yaml_emit.py:170-179` | Under a tight document no printed line ends in whitespace, and the file ends in one newline |
| `YamlTidy.LooseValueEndsTwice` | `src/dotmac_observability/yaml_emit.py:44-107` | A loose value at the end of a file leaves two final newlines |
| `Digests.TreeDigest` | `src/dotmac_observability/render.py:1168-1180` | The digest is of the NUL-framed stream of paths and texts in order |
| `Digests.FrameInjective` | `src/dotmac_observability/render.py:1168-1180` | Without NUL inside a path or a text the stream determines the tree |
| `Digests.FrameCollides` | `src/dotmac_observability/render.py:1175-1179` | With a NUL inside, two different trees share one stream |
| `Digests.TreeShaDetermines` | `src/dotmac_observability/render.py:1168-1180` | Two trees digest alike if and only if they hold the same files in the same order |
| `Digests.RulesSemanticDigest` | `src/dotmac_observability/live_verify.py:1177-1198` | The rule digest is of the sorted (group, name) pairs |
| `Digests.SortKeysSorts` | `src/dotmac_observability/live_verify.py:1190-1197` | Sorting keeps every pair as often as it occurs |
| `Digests.RulesShaDetermines` | `src/dotmac_observability/live_verify.py:1177-1198` | Two rule sets digest alike if and only if every rule name is loaded in every group equally often in both: order and health do not show |
| `RenderedFiles.WriteTree` | `src/dotmac_observability/render.py:1194-1198` | The directory afterwards is what it was, overwritten by the tree |
| `RenderedFiles.Differences` | `src/dotmac_observability/render.py:1201-1223` | Names every missing, differing and unexpected path and nothing else; silent exactly when the files, their line breaks read as newlines, are the tree's and the tree does not contradict itself |
| `RenderedFiles.WrittenShowsNoDrift` | `src/dotmac_observability/render.py:1194-1223` | After writing, no drift shows if and only if the directory held nothing outside the tree, no path was rendered twice with two texts, and no rendered text holds a carriage return |
| `RenderedFiles.NewlinesHaveNoReturn` | `src/dotmac_observability/render.py:1210-1210` | What read_text returns holds no carriage return, and is the file's text exactly when that holds none |
| `RenderedFiles.ReturnDriftsAtOnce` | `src/dotmac_observability/render.py:1194-1211` | A rendered text that holds a carriage return is reported as differing right after it is written |
| `RenderedFiles.DosCopyShowsNoDrift` | `src/dotmac_observability/render.py:1201-1223` | A copy whose every newline is two characters is reported clean although its bytes are not the tree's |
| `Exposure.ExposureRules` | `src/dotmac_observability/render.py:1044-1098` | Fails exactly when an ingress surface of the family has no resolved source set; else yields the rules surface by surface in declaration order |
| `Exposure.OneSurface` | `src/dotmac_observability/render.py:1067-1095` | The rules of one surface: refusal, or established traffic first, then the bound interface and prefixes, then the closing drop |
| `Exposure.SurfaceDecides` | `src/dotmac_observability/render.py:1077-1095` | One surface's rules decide every packet addressed to it as it declares and no other packet |
| `Exposure.CompiledDecides` | `src/dotmac_observability/render.py:1044-1098` | First match over the whole file gives every packet the decision of the earliest surface it is addressed to, and leaves every other packet to the chain |
| `Exposure.EverySurfaceEnforced` | `src/dotmac_observability/render.py:1044-1098` | With distinct (chain, protocol, port) keys each surface is enforced exactly as declared |
| `Exposure.EnforcedExactly` | `src/dotmac_observability/render.py:1044-1098` | A surface is enforced as declared if and only if it admits the same packets as the earliest surface sharing its (chain, protocol, port) key |
| `Exposure.SharedKeyOverrides` | `src/dotmac_observability/render.py:1066-1095` | With a shared key the earlier surface decides, so a closed surface behind a public one is open |
| `Exposure.LoopbackDropsItsOwn` | `src/dotmac_observability/render.py:1077-1084` | The closing rule of a loopback surface names no interface and drops what comes in on loopback too |
| `Exposure.RulesMeetExpectation` | `src/dotmac_observability/live_verify.py:390-399` | A fresh packet from outside every bound source is accepted if and only if the verifier expects the surface reachable |
| `Exposure.NoInertChain` | `src/dotmac_observability/render.py:1107-1118` | Every rule of a file belongs to a surface of that family and is in DOCKER-USER if that is a container published over IPv4, in INPUT otherwise |
| `Exposure.RulesOnTheirPath` | `src/dotmac_observability/render.py:1107-1118` | The rules of a container publish over IPv4 are in DOCKER-USER and all others in INPUT, on the surface's protocol and port |
| `Exposure.ReachedDecides` | `src/dotmac_observability/render.py:1044-1098` | A packet that reaches one surface, forwarded for a container over IPv4 and delivered to the host otherwise, is accepted or dropped as its exposure declares |
| `Exposure.UnreachedIsLeft` | `src/dotmac_observability/render.py:1044-1098` | A packet that reaches no surface is left to the chain |
| `Exposure.FileIsOneFamily` | `src/dotmac_observability/render.py:1093-1094` | A family's file names only sources of that family if and only if every prefix bound to its ingress surfaces is of that family |
| `Exposure.InstalledDecides` | `src/dotmac_observability/render.py:1093-1094` | Because a restore refuses a file whole: what is installed decides as declared if and only if every bound prefix is of the file's family, and otherwise nothing of it decides anything |
| `Exposure.DualStackPrefixSpoilsAFile` | `src/dotmac_observability/render.py:1093-1094` | A dual-stack ingress surface bound to any prefix puts a foreign source into one of the two files |
| `SemanticGate.NameFindings` | `src/dotmac_observability/validate.py:1112-1169` | The modelled part, repetitions: silent exactly when no job or federation name is used twice; every repetition is named |
| `SemanticGate.ServicePorts` | `src/dotmac_observability/validate.py:1235-1235` | The rostered services by name with their ports, the last entry of a name winning |
| `SemanticGate.DatasourceFindings` | `src/dotmac_observability/validate.py:1270-1328` | The modelled part, ownership: silent exactly when every datasource has one owner, a rostered service with a port or one open scrape job; each other case has its own complaint |
| `SemanticGate.ExposureFindings` | `src/dotmac_observability/validate.py:1382-1443` | The modelled part, source sets: silent exactly when ingress surfaces name declared sets, no other surface names one, and every declared set is used |
| `SemanticGate.SemanticFindings` | `src/dotmac_observability/validate.py:1931-1944` | The modelled parts of the gates together are silent exactly when the public inventory is sound for the joins |
| `Resolution.JobFindings` | `src/dotmac_observability/validate.py:2101-2163` | Silent exactly when every job resolves with the credential it claims and enough endpoints; reports exactly the shadowed, unbound, mismatched and unreachable ones; returns exactly the bindings used |
| `Resolution.OneJob` | `src/dotmac_observability/validate.py:2103-2163` | One job: a publication beside a binding, no binding, a credential on one side only, an expectation above the endpoint count |
| `Resolution.DatasourceFindings` | `src/dotmac_observability/validate.py:2165-2189` | Reports exactly the datasources whose declared target does not resolve to one endpoint; an undeclared target is passed over |
| `Resolution.FederationFindings` | `src/dotmac_observability/validate.py:2191-2222` | Silent exactly when every federation is bound with the credential it claims |
| `Resolution.ReceiverFindings` | `src/dotmac_observability/validate.py:2224-2262` | Silent exactly when every integration is bound with a usable destination, an integer for telegram |
| `Resolution.IntegerMeans` | `src/dotmac_observability/validate.py:185-185` | The chat ids let through are digits, perhaps behind a minus sign, perhaps before one newline |
| `Resolution.SourceSetFindings` | `src/dotmac_observability/validate.py:2297-2356` | Silent exactly when every used declared set is bound by a binding of its declared kind |
| `Resolution.UnusedFindings` | `src/dotmac_observability/validate.py:2264-2289` | One complaint for each binding nothing public uses, and no other |
| `Resolution.ResolutionFindings` | `src/dotmac_observability/validate.py:2062-2366` | Silent if and only if environment and host match, everything public is bound and everything bound is public |
| `Resolution.Resolve` | `src/dotmac_observability/validate.py:2369-2435` | Succeeds if and only if resolution is sound and every datasource target is declared by a job; otherwise the refusal, or the KeyError of the first datasource whose target is not |
| `Resolution.ResolveJobs` | `src/dotmac_observability/validate.py:2386-2398` | Each published job keeps its publication without a credential, each bound job its binding |
| `Resolution.ResolveDatasources` | `src/dotmac_observability/validate.py:2400-2411` | Fails exactly when some datasource's target is declared by no job, and then with the target of the first such datasource |
| `RenderLookups.IntegersConvert` | `src/dotmac_observability/validate.py:185-185` | Every text the chat-id pattern admits, a trailing newline included, converts to an integer |
| `RenderLookups.NumberConverts` | `src/dotmac_observability/render.py:288-294` | A written number converts to itself, whatever its sign and with a newline behind it |
| `RenderLookups.ScrapeConfigs` | `src/dotmac_observability/render.py:232-241` | Every job and federation lookup succeeds exactly when its name is resolved, and each entry carries that name's endpoints |
| `RenderLookups.ReceiverEntries` | `src/dotmac_observability/render.py:277-298` | Every integration renders exactly when it is bound and a telegram destination is a number |
| `RenderLookups.DatasourceUrls` | `src/dotmac_observability/render.py:850-872` | Every datasource renders exactly when its service is rostered or its name resolved |
| `RenderLookups.LagSeconds` | `src/dotmac_observability/render.py:656-747` | Every lag budget is rendered in seconds exactly when each is a duration duration_seconds reads |
| `RenderLookups.Logrotate` | `src/dotmac_observability/render.py:1024-1036` | Succeeds if and only if there is a syslog file and all of them have one ownership, which is the one written |
| `RenderLookups.RenderControlPlane` | `src/dotmac_observability/render.py:1139-1165` | The render succeeds if and only if every lookup does, every budget is a duration and the syslog files have one ownership, and then every part carries its own binding |
| `RenderLookups.DatasourcesAreDeclared` | `src/dotmac_observability/validate.py:1299-1316` | A datasource that passes the public gate names a declared target |
| `RenderLookups.ResolutionIsTotal` | `src/dotmac_observability/validate.py:2369-2435` | After both gates resolve succeeds, and the render does, if and only if the syslog files have one ownership and every lag budget is a duration |
| `RenderLookups.ShapedBudgets` | `src/dotmac_observability/render.py:737-745` | Of budgets the schema's pattern lets through, all are read if and only if none ends in a newline |
| `RenderLookups.EachJobKeepsItsOwn` | `src/dotmac_observability/validate.py:2386-2398` | No name overwrites another: a published job is scraped at its publication without a credential, a bound one at its binding's endpoints with the binding's credential, present exactly when it authenticates |
| `RenderLookups.EachFederationKeepsItsOwn` | `src/dotmac_observability/validate.py:2412-2418` | Every federation is scraped at its binding's endpoint with its binding's credential, present exactly when it authenticates |
| `RenderLookups.EachIntegrationKeepsItsOwn` | `src/dotmac_observability/validate.py:2419-2428` | Every integration is given the credential and destination bound to its reference, a number for telegram |
| `RenderLookups.EachSetKeepsItsOwn` | `src/dotmac_observability/validate.py:2429-2435` | Every set an ingress surface names resolves to a binding of its name and of its declared kind |
| `RenderLookups.DatasourceIsItsJob` | `src/dotmac_observability/validate.py:2400-2411` | A datasource over a scrape target resolves to the one open job that declares it and its one endpoint, which the renderer finds under its name if no namesake points elsewhere |
| `RenderLookups.DatasourcesKeepTheirs` | `src/dotmac_observability/validate.py:2400-2411` | Every datasource over a scrape target is rendered with its own URL if and only if no two of one name have targets that resolve to different URLs |
| `StateExamples.NamesakeOverwrites` | `src/dotmac_observability/render.py:850-872` | Two datasources of one name over two targets pass both gates, and the first is rendered at the second's address |
| `RenderLookups.ExactCorrespondence` | `src/dotmac_observability/validate.py:2264-2365` | The ids in each private group are exactly those public documents use: unpublished targets, federations, references, source sets |
| `RenderLookups.RowsReadExactly` | `src/dotmac_observability/validate.py:2369-2398` | In each private group every row is the one its id resolves to if and only if no two rows of one id differ |
| `RenderLookups.ShadowedBindingLeavesNoTrace` | `src/dotmac_observability/validate.py:2264-2398` | A target binding with another of its id behind it changes neither the gaps nor the resolution |
| `StateExamples.FirstBindingUnread` | `src/dotmac_observability/validate.py:2264-2365` | Two bindings of one target pass the resolution gate, and the first is never read |
| `StateExamples.TwoOwnersDoNotRender` | `src/dotmac_observability/render.py:1024-1036` | Two syslog files of different owners pass both gates and do not render |
| `StateExamples.NewlineDoesNotRender` | `src/dotmac_observability/render.py:737-745` | A lag budget followed by a newline passes its schema and both gates and does not render |
| `RenderLookups.PromotionIsFed` | `src/dotmac_observability/validate.py:2369-2435` | After both gates a promotion has every job's endpoints and distinct names, the two hypotheses its theorems carry |
| `RenderLookups.UndeclaredDatasourcePasses` | `src/dotmac_observability/validate.py:2165-2173` | Adding a datasource whose target no job declares keeps resolution silent and makes resolve raise |
| `StateExamples.UndeclaredTargetPasses` | `src/dotmac_observability/validate.py:2165-2173` | A concrete sound inventory with a datasource over an undeclared target: the resolution gate is silent and resolve raises |
| `LiveTree.TreeFindings` | `src/dotmac_observability/live_verify.py:456-500` | Silent exactly when the observed path-to-digest map is non-empty and equal to the rendered one; otherwise names each missing, differing and unexpected path |
| `LiveTree.IdentityFindings` | `src/dotmac_observability/live_verify.py:1149-1174` | Silent exactly when environment and host are the declared ones |
| `LiveMeaning.TreeMeans` | `src/dotmac_observability/live_verify.py:456-503` | Where no path has two texts: condition 1 says that every rendered file is observed with the digest of its bytes and nothing else is |
| `LiveTargets.CountTargets` | `src/dotmac_observability/live_verify.py:520-522` | Groups the live targets by job without losing or inventing one |
| `LiveTargets.DeclareTargets` | `src/dotmac_observability/live_verify.py:524-532` | Every job is declared with its expected number or its endpoint count, every federation with one |
| `LiveTargets.TargetFindings` | `src/dotmac_observability/live_verify.py:506-574` | Silent exactly when every declared job is present, of its size and up, and nothing undeclared is scraped |
| `LiveTargets.RuleFindings` | `src/dotmac_observability/live_verify.py:580-613` | Silent exactly when every gate's alert is loaded and evaluates |
| `LiveMeaning.TargetsMean` | `src/dotmac_observability/live_verify.py:506-577` | Condition 2 says that every job is scraped at as many targets as it states, or as many as it resolved to, every federation at one, all up, and nothing else |
| `LiveMeaning.ResolvedTargetFindings` | `src/dotmac_observability/live_verify.py:524-546` | A wrong number is reported exactly of a job that is scraped at all and not at what it states or, stating nothing, at as many targets as its publication or private binding lists |
| `LiveMeaning.ResolvedTargetsMean` | `src/dotmac_observability/live_verify.py:506-577` | Over resolved inventories a silent condition 2 means that each job has exactly the targets it states or its publication or binding lists, all up |
| `LiveMeaning.AlertNameIsParts` | `src/dotmac_observability/live_verify.py:616-624` | The alert looked for is the gate's parts between dots and dashes, each capitalised, joined, as the renderer names it |
| `LiveMeaning.RulesMean` | `src/dotmac_observability/live_verify.py:580-613` | Where no two rules have one name: every gate's alert is loaded and evaluates |
| `LiveIntegrity.IntegrityCounters` | `src/dotmac_observability/live_verify.py:1301-1314` | The counters the gates assert about, once each |
| `LiveIntegrity.CounterFindings` | `src/dotmac_observability/live_verify.py:698-749` | Silent exactly when the baseline is not zero and neither value nor process start moved |
| `LiveIntegrity.ElapsedSeconds` | `src/dotmac_observability/live_verify.py:809-817` | Nothing for a stamp that cannot be read, the difference of two stamps of one kind, and a raise exactly when both can be read and only one has an offset |
| `LiveIntegrity.WindowFindings` | `src/dotmac_observability/live_verify.py:752-806` | Raises exactly when one of two readable stamps has an offset and the other has none; otherwise silent exactly when both stamps and all windows are readable and the elapsed time covers the longest window |
| `LiveIntegrity.IntegrityFindings` | `src/dotmac_observability/live_verify.py:630-695` | Raises exactly when there is a baseline and the two stamps cannot be subtracted; otherwise silent exactly when condition 3 holds: same counters, continuous readings, long enough |
| `LiveMeaning.IntegrityMeans` | `src/dotmac_observability/live_verify.py:630-817` | Condition 3 says that exactly the asserted counters are read, each as at the baseline and not zero, over at least every gate's window, by stamps of one kind |
| `LiveIntegrity.QuietHistory` | `src/dotmac_observability/live_verify.py:698-749` | Same value and same start leave room for no increment and no restart |
| `LiveIntegrity.NoResetPasses` | `src/dotmac_observability/live_verify.py:630-806` | If condition 3 is silent, with stamps of either kind, every history between baseline and reading is empty for every declared counter, over at least every gate's window |
| `LiveIntegrity.ValuesAloneAdmitAReset` | `src/dotmac_observability/live_verify.py:716-749` | Comparing values alone would pass a run with rejections and a restart |
| `LiveDelivery.RouteFindings` | `src/dotmac_observability/live_verify.py:823-847` | Reports exactly the declared routes that are absent or deliver elsewhere |
| `LiveMeaning.RoutesMean` | `src/dotmac_observability/live_verify.py:823-850` | Where no route has two receivers: every declared route is live and delivers where it is declared to |
| `LiveDelivery.CanaryFindings` | `src/dotmac_observability/live_verify.py:849-893` | Silent exactly when the canary fired, was delivered with evidence to a declared receiver, and recovered |
| `LiveDelivery.RollbackFindings` | `src/dotmac_observability/live_verify.py:1022-1101` | Silent exactly when the rollback was exercised, succeeded, and restored the previous digest where there is one; each complaint, those about the digest included, is made exactly when it applies |
| `LiveProbes.DeclaredProbeSlots` | `src/dotmac_observability/live_verify.py:1286-1298` | Every (surface, family) pair the policy declares, surface by surface |
| `LiveProbes.OneProbeFindings` | `src/dotmac_observability/live_verify.py:948-1016` | Each complaint about one probe is made exactly when it applies: inert when a container publish over IPv4 was probed outside DOCKER-USER or anything else outside INPUT; a failed control ends the questions |
| `LiveProbes.AgreementMeans` | `src/dotmac_observability/live_verify.py:371-398` | A probe agrees if and only if it was made in the chain its packets pass, expected and saw what the exposure promises, and its control got through with evidence |
| `LiveProbes.ProbeFindings` | `src/dotmac_observability/live_verify.py:899-945` | Silent exactly when the probed slots are the declared ones and each agrees in chain, expectation, outcome and control |
| `LiveMeaning.ProbesMean` | `src/dotmac_observability/live_verify.py:899-1016` | Where no slot has two results: every surface was probed on every family it has and shows what it must, and nothing else was probed |
| `LiveVerify.Condition` | `src/dotmac_observability/live_verify.py:1129-1140` | The findings of condition n are empty exactly when its statement holds; only condition 3 can raise, and exactly on stamps that cannot be subtracted |
| `LiveVerify.Verify` | `src/dotmac_observability/live_verify.py:1107-1146` | Raises exactly when condition 3 does; otherwise all six conditions are answered, and the verdict is deployed_repaired if and only if all six statements hold |
| `LiveVerify.VerdictMeans` | `src/dotmac_observability/live_verify.py:417-450` | The verdict is the conjunction of the six statements and nothing less |
| `LiveVerify.RaisingIsNotDeployed` | `src/dotmac_observability/live_verify.py:1107-1146` | A verification that raises is never one whose six statements hold |
| `Receipt.CountExpected` | `src/dotmac_observability/receipt.py:288-303` | The expected total adds stated numbers and federations; a job that states none adds nothing, and a zero total becomes the live count |
| `Receipt.BuildReceipt` | `src/dotmac_observability/receipt.py:153-255` | Fails exactly on an accepted run without a read-back; every number in the receipt is counted from the read-back |
| `Receipt.UpCountMeans` | `src/dotmac_observability/receipt.py:231-240` | The targets counted as up are those that are up and no others |
| `Receipt.FailedChecks` | `src/dotmac_observability/receipt.py:477-485` | Names exactly the validation checks that did not pass |
| `Receipt.AcceptedFindings` | `src/dotmac_observability/receipt.py:463-551` | Silent on an accepted receipt exactly when it shows its acceptance |
| `Receipt.GroupsPartition` | `src/dotmac_observability/receipt.py:227-255` | The sizes of the per-job groups sum to the length of the target list |
| `Receipt.VerifiedCounts` | `src/dotmac_observability/live_verify.py:506-574` | Under condition 2 the declared counts sum to the live targets, all of which are up |
| `Receipt.ExpectedMatchesUp` | `src/dotmac_observability/receipt.py:288-303` | A verified host's receipt shows as many up as expected if and only if every job states its number, or none does and nothing is federated |
| `Receipt.AcceptedReceiptBelieved` | `src/dotmac_observability/receipt.py:463-551` | Exactly which verified runs file an accepted receipt that its own check believes |
| `Drift.DesiredVsLive` | `src/dotmac_observability/drift.py:122-166` | Empty exactly when the verifier's tree comparison is; names every path that differs |
| `Drift.LiveVsReceipt` | `src/dotmac_observability/drift.py:169-218` | Empty exactly when release, rule digest, targets up and routes are those the receipt records |
| `Drift.Compare` | `src/dotmac_observability/drift.py:91-119` | Clean if and only if all three artifacts were supplied and every compared fact agrees, pair by pair |
| `Drift.VerifiedIsAgreed` | `src/dotmac_observability/drift.py:80-119` | A verified promotion's tree, read-back and receipt compare clean |
| `Drift.CleanMeansUnchanged` | `src/dotmac_observability/drift.py:80-238` | A later clean comparison holds if and only if tree, release, rules with multiplicity, targets up and routes are those of the promotion |
| `Promote.Promote` | `src/dotmac_observability/promote.py:246-448` | For every facility that raises only exceptions: promote raises exactly when the render fails, before any call, or the run reaches the final verify with stamps of mixed kinds; otherwise the outcome is the run's, a receipt is absent if and only if a precondition refused, and in every case the calls are the entered stages in order and at most one rollback |
| `Promote.Fetching` | `src/dotmac_observability/promote.py:302-304` | The fetch comes first; a raise stops the run with a receipt |
| `Promote.Validating` | `src/dotmac_observability/promote.py:306-322` | Every named check must pass |
| `Promote.Rehearsing` | `src/dotmac_observability/promote.py:324-356` | The rehearsal's read-back must satisfy conditions 1, 2, 4 and 5 |
| `Promote.Staging` | `src/dotmac_observability/promote.py:358-376` | No previous pointer and no declared first promotion stops the run after staging |
| `Promote.Reloading` | `src/dotmac_observability/promote.py:378-379` | A reload that raises stops the run with a rollback when one is owed |
| `Promote.Observing` | `src/dotmac_observability/promote.py:381-388` | The observation asked for names the staged release and the declared slots, counters and paths |
| `Promote.Judging` | `src/dotmac_observability/promote.py:405-423` | All six conditions must hold before anything is accepted; a verify that raises leaves the run with no rollback called and nothing filed |
| `Promote.Accepting` | `src/dotmac_observability/promote.py:425-448` | The last host effect; a raise still rolls back |
| `Promote.Stop` | `src/dotmac_observability/promote.py:519-597` | Every stop reports the stages reached, rolls back exactly when a pointer was captured, and files a receipt of whatever is known |
| `PromoteTheorems.CallsInOrder` | `src/dotmac_observability/promote.py:169-216` | The call log is the fixed stage order cut short, with a rollback only as its last call |
| `PromoteTheorems.NoMethodTwice` | `src/dotmac_observability/promote.py:270-448` | No facility method is called twice in one run |
| `PromoteTheorems.RollbackExactlyWhenOwed` | `src/dotmac_observability/promote.py:405-586` | A rollback is called if and only if staging captured a previous release, the run was not accepted and its final verify did not raise, and always to that release |
| `PromoteTheorems.GatesBeforeEffects` | `src/dotmac_observability/promote.py:317-448` | Staging, reload, acceptance and rollback happen only behind their gates; acceptance only under all six conditions |
| `PromoteMeaning.EffectsBehindRehearsal` | `src/dotmac_observability/promote.py:349-448` | No staging, reload, acceptance or rollback before every check passed and the rehearsed host showed identity, files, targets, rules, routes, canary and probes as declared; no acceptance before the promoted host showed these, its counters and its way back |
| `PromoteMeaning.RehearsalSuffices` | `src/dotmac_observability/promote.py:349-358` | A run whose fetch, checks and rehearsal satisfy that goes on to staging, whatever conditions 3 and 6 would say |
| `PromoteMeaning.AcceptedExactly` | `src/dotmac_observability/promote.py:302-448` | A run is accepted if and only if every call came back, every check passed, the rehearsed host showed what it must, a way back was captured or declared unnecessary, and the promoted host proved all of it |
| `PromoteMeaning.EscapesExactly` | `src/dotmac_observability/promote.py:405-413` | A run raises from its final verify if and only if it was reloaded and observed and the baseline's stamp and the observation's are of different kinds |
| `PromoteMeaning.RollbackExactly` | `src/dotmac_observability/promote.py:545-586` | In calls and replies: a rollback is called if and only if a release was staged over a captured one, was not accepted, and the stamps could be subtracted; it goes to the captured one |
| `PromoteMeaning.OutcomeExactly` | `src/dotmac_observability/promote.py:545-597` | In calls and replies: accepted if the acceptance came back, rolled back if a rollback was called and its read-back shows a record, failed otherwise |
| `PromoteMeaning.StatesAreCalls` | `src/dotmac_observability/promote.py:290-448` | The states a run reports are those its calls took it to, in order, for every call that came back |
| `PromoteMeaning.RefusalMeans` | `src/dotmac_observability/promote.py:624-672` | What the preconditions ask for, and which refusal the first failing one gives |
| `PromoteMeaning.ObservationAsksForAll` | `src/dotmac_observability/promote.py:381-388` | The host is observed for the staged release, every surface on every family it has, every asserted counter and every rendered path |
| `PromoteMeaning.ReceiptIdentifies` | `src/dotmac_observability/receipt.py:153-227` | A receipt names whose promotion it was, of what, under which authority, with which inputs and checks, as far as the run got |
| `PromoteMeaning.ReceiptDescribes` | `src/dotmac_observability/receipt.py:228-256` | What a receipt says of the host is what the read-back it describes says, fact by fact, rollback and canary included |
| `PromoteMeaning.ReceiptSilent` | `src/dotmac_observability/receipt.py:228-256` | A receipt has no read-back if and only if the run was neither observed nor rolled back to an observed host |
| `PromoteTheorems.RollbackRecordIsNotRead` | `src/dotmac_observability/promote.py:573-586` | Any rollback record at all makes the outcome rolled back, one that reports failure included |
| `PromoteTheorems.AcceptedThenClean` | `src/dotmac_observability/drift.py:91-119` | Every accepted promotion's tree, read-back and own receipt compare clean |
| `PromoteTheorems.AcceptedThenBelieved` | `src/dotmac_observability/receipt.py:463-551` | An accepted promotion's receipt is believed if and only if expectations are all stated (or none, without federations), rules are loaded and healthy, and the run is named |
| `PromoteTheorems.RendersBehindGates` | `src/dotmac_observability/promote.py:276-276` | Behind both gates the render inside promote fails if and only if the syslog files have not one ownership or a lag budget is no duration |
| `PromoteTheorems.ReceiptNamesReadBack` | `src/dotmac_observability/receipt.py:226-240` | The receipt of an accepted run names the release the read-back does, so the staged one if and only if the read-back does |
| `PromoteTheorems.AttemptKeepsHost` | `src/dotmac_observability/promote.py:138-216` | Any attempt at all, refused and unrendered ones included, leaves the host on the last accepted release, whatever an unwitnessed rollback does, if and only if it is none of the enumerated cases |
| `PromoteTheorems.HostRunsLastAccepted` | `src/dotmac_observability/promote.py:246-448` | Over any sequence of attempts outside those cases the host runs the last accepted release |
| `PromoteTheorems.TidyReportBrokenHost` | `src/dotmac_observability/promote.py:573-586` | A run recorded as rolled back whose record reports failure, or another release than the captured one, can leave the host elsewhere |
| `RunExamples.EscapedRun` | `src/dotmac_observability/promote.py:405-413` | Baseline 2026-01-01T00:00:00Z, read-back 2026-01-01T01:00:00: promote raises after the reload, calls no rollback though a pointer was captured, and the host runs what nobody accepted |
| `RunExamples.UnrenderedRun` | `src/dotmac_observability/promote.py:276-276` | Two syslog files of different owners pass both gates and every precondition; promote raises before its first call and the host stays as it was |
| `RunExamples.AcceptedNotBelieved` | `src/dotmac_observability/receipt.py:288-303` | An accepted run of two jobs exists; its receipt is believed if both state their number and contradicts itself if one does not |
| `RunExamples.AcceptedUnderAnotherName` | `src/dotmac_observability/receipt.py:226-240` | An accepted run exists, with a believed receipt, whose receipt names any release the read-back names, whatever was staged |
| `RunExamples.RolledBackNotRestored` | `src/dotmac_observability/promote.py:573-586` | A run exists that is recorded as rolled back while its record says that the rollback failed or restored another release, and the host may then run anything |
| `CensusRecords.SilentTexts` | `src/dotmac_observability/attribution_enumerators.py:481-544` | A text yields no consumer if and only if it shows no connection string and no connection variable, and then notes nothing |
| `Census.Ledger.SpendFile` | `src/dotmac_observability/attribution_enumerators.py:316-321` | Counts the file and reports exhaustion exactly above the limit |
| `Census.Ledger.SpendBytes` | `src/dotmac_observability/attribution_enumerators.py:323-328` | Counts what it is given, a text's length in characters, against max_bytes and reports exhaustion exactly above the limit |
| `Census.Read` | `src/dotmac_observability/attribution_enumerators.py:550-599` | Spends a file before asking and the text's length after reading; classifies every failure; only a missing named file is silent |
| `Census.List` | `src/dotmac_observability/attribution_enumerators.py:602-626` | A missing directory is an answer, any other failure an error, a long listing is cut and says so |
| `Census.Run` | `src/dotmac_observability/attribution_enumerators.py:629-638` | Every failure of a program is an error |
| `Census.RunGated` | `src/dotmac_observability/attribution_enumerators.py:891-895` | A queued job spends a file first; without one the family breaks off |
| `Census.ConsumersIn` | `src/dotmac_observability/attribution_enumerators.py:481-544` | One record per connection string, or one for the variables, with parse and ambiguous noted |
| `Census.UnitDirectory` | `src/dotmac_observability/attribution_enumerators.py:705-746` | Every unit of the suffix is read with the environment files it loads, and a variable program is noted |
| `Census.Units` | `src/dotmac_observability/attribution_enumerators.py:695-747` | The enumerator is its family's walk, step for step |
| `Census.Dropins` | `src/dotmac_observability/attribution_enumerators.py:763-795` | The drop-in enumerator is its family's walk |
| `Census.Tables` | `src/dotmac_observability/attribution_enumerators.py:798-844` | Both crontab-shaped enumerators list every directory before they read, and are their families' walks |
| `Census.AtJobs` | `src/dotmac_observability/attribution_enumerators.py:875-907` | The at enumerator is its family's walk, broken off when no file is left |
| `Census.DockerContainers` | `src/dotmac_observability/attribution_enumerators.py:910-950` | The docker enumerator is its family's walk |
| `Census.ComposeProjects` | `src/dotmac_observability/attribution_enumerators.py:953-981` | The compose enumerator is its family's walk |
| `Census.CiRunners` | `src/dotmac_observability/attribution_enumerators.py:984-1013` | Every runner present is noted as dynamic |
| `Census.Scripts` | `src/dotmac_observability/attribution_enumerators.py:1016-1066` | The script enumerator is its family's walk, shared environment first |
| `Census.Agents` | `src/dotmac_observability/attribution_enumerators.py:1069-1089` | The agent enumerator is its family's walk |
| `Census.EnumerateFamily` | `src/dotmac_observability/attribution_enumerators.py:1107-1117` | Every declared family's outcome is that of its walk |
| `CensusTheorems.WalkAccounted` | `src/dotmac_observability/attribution_enumerators.py:286-328` | The ledger is the sum of the walk's events; at most max_files reads and gated programs are issued and parsed file text never exceeds max_bytes, after exhaustion too (program text: CensusLimits.BytesHeldExactly) |
| `CensusTheorems.AbsentExactly` | `src/dotmac_observability/attribution_enumerators.py:641-666` | For every host: ABSENT if and only if every step was answered in full or allowed to be missing and no parsed text showed anything connection-shaped or unresolvable |
| `CensusTheorems.AnyFailureIsUnknown` | `src/dotmac_observability/attribution.py:167-191` | One failure or one cut anywhere makes the family UNKNOWN |
| `CensusFound.RecordIsWhatWasShown` | `src/dotmac_observability/attribution_enumerators.py:481-544` | A family's consumers are exactly what it was shown: every connection string, or else the connection variables, of every text it searched, with its owner and custody, and nothing else |
| `CensusFound.FailuresAreNamed` | `src/dotmac_observability/attribution_enumerators.py:571-599` | Every failure is on the family's record as what it was |
| `CensusFound.DoubtsAreNamed` | `src/dotmac_observability/attribution_enumerators.py:515-544` | Every searched text that cannot be settled, for its connection strings, its service file, its runner, its table lines or its client, leaves the error that says so |
| `CensusTheorems.LookedEverywhere` | `src/dotmac_observability/attribution_enumerators.py:695-1089` | Unless the budget cut it, a walk put every first task and every task any answer spawned |
| `CensusFamilies.EveryFamilyLooks` | `src/dotmac_observability/attribution_enumerators.py:695-1089` | In each of the eleven families, with literal paths and commands: a walk its budget did not cut listed every directory, opened every entry it must and ran every program; if ABSENT, listings were whole and answers silent |
| `CensusFamilies.AbsentLooked` | `src/dotmac_observability/attribution_enumerators.py:695-1089` | Behind ABSENT, in every family, each listing is whole or its directory missing, and each unit, drop-in, table, compose file, script, agent file, job and container in it was shown and silent |
| `CensusFamilies.UnitsLook` | `src/dotmac_observability/attribution_enumerators.py:695-761` | Both unit families list the three unit directories and open every unit of their suffix with the environment files it loads |
| `CensusFamilies.DropinsLook` | `src/dotmac_observability/attribution_enumerators.py:763-795` | Every .service.d and .timer.d of the three directories is listed and every .conf in it opened |
| `CensusFamilies.CronLooks` | `src/dotmac_observability/attribution_enumerators.py:798-856` | /etc/crontab is looked for and every entry of the three cron directories opened that is no backup |
| `CensusFamilies.AnacronLooks` | `src/dotmac_observability/attribution_enumerators.py:798-872` | /etc/anacrontab is looked for and every entry of the three anacron directories opened that is no backup |
| `CensusFamilies.JobsLook` | `src/dotmac_observability/attribution_enumerators.py:875-907` | atq is run, and at -c of every job it names |
| `CensusFamilies.ContainersLook` | `src/dotmac_observability/attribution_enumerators.py:910-950` | docker ps is run, and docker inspect of every container it names |
| `CensusFamilies.ComposeLooks` | `src/dotmac_observability/attribution_enumerators.py:953-981` | Every project of the three compose directories is listed and each of its compose files opened |
| `CensusFamilies.RunnersLook` | `src/dotmac_observability/attribution_enumerators.py:984-1013` | Both runner files are looked for, and behind ABSENT neither is there |
| `CensusFamilies.ScriptsLook` | `src/dotmac_observability/attribution_enumerators.py:1016-1066` | Both shared environments are looked for and every entry of the three script directories opened; behind ABSENT each is silent or passed over |
| `CensusFamilies.AgentsLook` | `src/dotmac_observability/attribution_enumerators.py:1069-1089` | Every entry of the three agent directories is opened |
| `CensusTheorems.LargerBudgetSameWalk` | `src/dotmac_observability/attribution_enumerators.py:286-328` | A walk not exhausted under one budget is identical under every larger one |
| `CensusTheorems.AbsentServices` | `src/dotmac_observability/attribution_enumerators.py:695-747` | An ABSENT service family: each unit directory listed whole or missing, each unit and environment file read and silent |
| `CensusLimits.BytesHeldExactly` | `src/dotmac_observability/attribution_enumerators.py:286-328` | All parsed text, files' and programs', stays within max_bytes on every host if and only if the family is neither at nor docker, or no file may be spent |
| `CensusLimits.ProgramOutputIsNotCounted` | `src/dotmac_observability/attribution_enumerators.py:629-638` | For at and for docker, with any other budget, some host makes a walk parse more than max_bytes without being exhausted |
| `CensusLimits.WalkBelongs` | `src/dotmac_observability/attribution_enumerators.py:695-1089` | Only at and docker run programs, all but the first of which spend a file, and only the script family reads scripts |
| `CensusLimits.AbsentMeansSilent` | `src/dotmac_observability/attribution_enumerators.py:1016-1066` | Behind ABSENT every file read and every job or container shown is silent, except, in the script family alone, scripts that name no client and show no connection string |
| `CensusLimits.ScriptPassedOver` | `src/dotmac_observability/attribution_enumerators.py:1042-1043` | The exception happens: a script that sets PGHOST and names no client is read and leaves the script family ABSENT |
| `CensusCoverage.Degradations` | `src/dotmac_observability/attribution_enumerators.py:1123-1160` | One degradation over every family for each suspect path, and none exactly when the host denies the three named paths and every principal's .pgpass |
| `CensusCoverage.ApplyDegradations` | `src/dotmac_observability/attribution_enumerators.py:1163-1185` | Consumers and counts are kept, errors only appended, and only for the named families |
| `CensusCoverage.DegradedMeans` | `src/dotmac_observability/attribution_enumerators.py:1163-1185` | A named family becomes UNKNOWN with everything it found; an unnamed one keeps its verdict |
| `CensusCoverage.EnumerateAll` | `src/dotmac_observability/attribution_enumerators.py:1188-1232` | Every declared family is present with its walk's consumers, found equals their number, skipped and raising families are UNKNOWN |
| `CensusCoverage.CensusAbsentExactly` | `src/dotmac_observability/attribution_enumerators.py:1188-1232` | The census says ABSENT if and only if nothing degrades the host, the family was neither skipped nor lost and its walk was clean |
| `CensusCoverage.CustodyCounts` | `src/dotmac_observability/attribution_enumerators.py:1316-1326` | The two totals count the attributed and unattributed consumers and sum to all of them |
| `CensusCoverage.TotalsAgree` | `src/dotmac_observability/attribution_enumerators.py:1238-1326` | The custody totals add up to the per-family counts |
| `Projection.WalkYieldsEveryText` | `src/dotmac_observability/attribution.py:340-357` | The walk yields exactly the texts that sit at some key or value of the payload |
| `Projection.Vault.Poison` | `src/dotmac_observability/attribution.py:281-289` | Every non-empty value is recorded, short ones included |
| `Projection.Vault.AssertClean` | `src/dotmac_observability/attribution.py:308-324` | A payload passes if and only if no poisoned value is part of any text anywhere in it |
| `Strings.WithinMeans` | `src/dotmac_observability/attribution.py:308-324` | One text is in another if and only if it stands at some place of it |
| `Projection.VerdictsPartition` | `src/dotmac_observability/attribution.py:578-588` | Scanned, absent and unknown families add up to the declared ones |
| `Projection.ProjectableMeans` | `src/dotmac_observability/attribution.py:526-609` | What can be projected: classified fields alone, the eight public values, whole numbers as counts, three references that are not blank, and every family scanned |
| `Projection.ProjectEnvelope` | `src/dotmac_observability/attribution.py:526-609` | Publishes exactly when every input is classified, every family covered, every reference given and nothing poisoned shows; the three family counts sum to the declared number |
| `Projection.PublishedIsClean` | `src/dotmac_observability/attribution.py:526-609` | What is published is what was observed under each public name, and no poisoned value is part of any of the five values or three references |
| `Projection.CoverageIsTheCensus` | `src/dotmac_observability/attribution.py:560-600` | The published coverage has every declared family with its own verdict and counts |
| `Projection.PrivateInputsDoNotShow` | `src/dotmac_observability/attribution.py:526-609` | Before one and the same vault, two observations that agree on public fields are published or refused alike, as the same envelope |
| `Supersession.RetireGroup` | `src/dotmac_observability/validate.py:2964-2980` | Keeps exactly the rows not named, in order; complains of exactly the names the group does not hold |
| `Supersession.ApplySupersession` | `src/dotmac_observability/validate.py:2904-2987` | Applies if and only if the request is a retirement reviewed against this document and names only what it holds; every other key is carried |
| `Supersession.SupersedeFindings` | `src/dotmac_observability/validate.py:2702-2769` | Each refusal is made exactly when it applies |
| `Supersession.AppliedSucceeds` | `src/dotmac_observability/validate.py:2702-2769` | An applied request passes the succession check if and only if it retires anything |
| `Supersession.SummaryIsTheRequest` | `src/dotmac_observability/validate.py:2772-2802` | The summary's removed names are the names retired, and none is added |
| `Supersession.VersionCounts` | `src/dotmac_observability/validate.py:2904-2987` | Over any history the version advances by exactly the number of applied requests |
| `Supersession.AtMostOnePerDigest` | `src/dotmac_observability/validate.py:2934-2960` | Of all requests reviewed against one digest at most one ever applies |
| `Supersession.HistoryRetires` | `src/dotmac_observability/validate.py:2904-2987` | After any history each group is its initial rows less the union of retired names, in order |
| `Supersession.HistoryCarries` | `src/dotmac_observability/validate.py:2961-2963` | After any history every other key is as it was stored |
| `Supersession.RetiredStaysRetired` | `src/dotmac_observability/validate.py:2964-2980` | A retired name never reappears |
| `Migration.OneTarget` | `src/dotmac_observability/validate.py:3215-3264` | One row goes to the array its declaration puts it in with id, endpoints and credential intact and nothing else, and each complaint is made exactly when it applies |
| `Migration.SplitTargets` | `src/dotmac_observability/validate.py:3212-3264` | Both arrays hold their rows' ids, endpoints and credentials in capture order |
| `Migration.CarryReceivers` | `src/dotmac_observability/validate.py:3266-3284` | Every receiver's credential and destination are carried in place, or the migration complains of exactly those it cannot |
| `Migration.MigrateCapture` | `src/dotmac_observability/validate.py:3103-3303` | Produces a document if and only if the capture is migratable as reviewed, and then the document carries its version, environment, targets' facts and receivers |
| `Migration.MigrationConserves` | `src/dotmac_observability/validate.py:3212-3264` | Conservation: the two arrays together hold each captured target's id, endpoints and credential exactly as often as captured, federations if and only if declared |
| `Migration.SideKeepsOrder` | `src/dotmac_observability/validate.py:3212-3264` | Of two rows on one side the earlier stays earlier |
| `Migration.DocumentDetermines` | `src/dotmac_observability/validate.py:3103-3303` | Two captures migrate into one document if and only if they agree on version, environment, each side's facts in order, and the receivers' credentials and destinations |
| `Migration.NothingLostExactly` | `src/dotmac_observability/validate.py:3212-3303` | The capture can be read off the document, up to the order of its targets, if and only if it holds no metrics_path, scheme, params, static_labels, receiver kind, captured_at, captured_from, note or further credential key |
| `Migration.MetricsPathIsLost` | `src/dotmac_observability/validate.py:3215-3264` | A target scraped at /v1/sys/metrics migrates into the document of the same capture without the path, and nothing is said |
| `Migration.MigrationFindings` | `src/dotmac_observability/validate.py:3306-3354` | Each refusal is made exactly when it applies, and the unchanged one never |
| `Migration.MigratedReplaces` | `src/dotmac_observability/validate.py:3103-3354` | Whatever is produced passes the check against the digest the request names |
| `Migration.DroppedKeysLeaveNoTrace` | `src/dotmac_observability/validate.py:3103-3303` | Captures that differ only in the dropped keys migrate alike into the same document, with nothing reported |
| `Ingestion.ByRulesMeans` | `src/dotmac_observability/ingestion.py:280-302` | The first pass names the earliest refused attribute and the earliest rule that refuses it |
| `Ingestion.AcceptedExactly` | `src/dotmac_observability/ingestion.py:262-334` | Accepted if and only if no non-exempt rule matches any attribute and every attribute is in the vocabulary and valid |
| `Ingestion.AcceptedMeans` | `src/dotmac_observability/ingestion.py:209-334` | Where no name is declared twice for the signal: accepted if and only if every attribute is declared for it with an admitted value and no rule hits by name, by prefix, both in lower case, or by what is found in a value of no declared shape |
| `Ingestion.AcceptanceOfParts` | `src/dotmac_observability/ingestion.py:262-334` | Acceptance is invariant under permutation and closed under dropping attributes |
| `Ingestion.RulesOnlyShrink` | `src/dotmac_observability/ingestion.py:280-302` | Adding a rule anywhere removes exactly the records it refuses |
| `Ingestion.RulesOutrank` | `src/dotmac_observability/ingestion.py:280-312` | The verdict names a declared rule if and only if one refuses some attribute, whatever the vocabulary says |
| `Ingestion.ForbiddenFieldStaysForbidden` | `src/dotmac_observability/ingestion.py:284-297` | A forbidden name is refused however well-formed its value |
| `Ingestion.MatchedMeans` | `src/dotmac_observability/ingestion.py:381-418` | A match is equality of content, and of something |
| `Ingestion.DivergenceRepairs` | `src/dotmac_observability/ingestion.py:409-417` | The three reported sets are disjoint and exactly what turns the projection into the source |
| `Ingestion.OneUnit` | `src/dotmac_observability/ingestion.py:176-179` | A count with its unit behind it is a count of that unit and of no other, though one unit is the suffix of another |
| `Ingestion.DurationReadsBack` | `src/dotmac_observability/ingestion.py:163-180` | Every count with every unit reads as that count of that unit |
| `Ingestion.ShapedReads` | `src/dotmac_observability/ingestion.py:163-180` | A duration the schema's pattern lets through is read if and only if no newline follows it |

## Left out

- Argument parsing, workflows, HTTP, processes and files on disk other than the rendered directory.
- TOML and JSON reading and schema validation: records arrive well-formed. The shape rule relied on is
  that no datasource names both a service and a target (`RenderLookups.OneOwner`).
- The bodies of the Prometheus, Alertmanager, Loki, Promtail, Grafana, Compose and rsyslog documents:
  long literals. Their lookups and failure points are modelled.
- The text of a rule: a rule is a record of its matches, not its `iptables` spelling.
- The gates about listen addresses, roster completeness and owners, syslog modes and paths, routing and
  severities, and ingestion policy.
- The receipt checks of release, images, digests and authorization: field-by-field comparisons.
- PromQL predicates are the counters and windows they mention; reading those, or a timestamp, from text
  is not modelled.
- Rendered files on disk that are not UTF-8, on which `read_text` raises.
- Parsing of connection strings and of `atq`, `docker ps` and unit text; `exists` is asked of a host
  that does not change its mind between two degrading paths.
- `classify` is the source code it yields; contract versions of a host source are not modelled.
- `PGPORT` digits outside ASCII, for which Python's `isdigit` and `int` disagree, and the interpreter's
  limit on the length of an integer literal.
- `build_observation`, `observation_document`, `live_state` and `supersede_summary`'s credential counts:
  field copying. The interlock question and the leak guards of the process are not modelled either.
- RenderLookups.ReceiverEntries: does not group a receiver's entries by block, which moves no field.
- RenderLookups.ScrapeConfigs: carries no labels and no literals, which no lookup feeds.
- SemanticGate.NameFindings: leaves out metrics paths and colliding rename prefixes.
- SemanticGate.DatasourceFindings: leaves out the number of default datasources.
- SemanticGate.ExposureFindings: leaves out the authentication and rationale of public surfaces.
- SemanticGate.SemanticFindings: the modelled parts of two of its five gates.
- Leaf values of a capture that are not text, which `str` makes text of.
- Durations of so many digits that a float does not hold them.
- `integrity_state`: a three-way comparison of two integers.
- File and directory clashes of one path in `write_tree`.
- Loop bodies and proof steps stated apart: they have no row of their own where the member that uses
  them states the whole.
