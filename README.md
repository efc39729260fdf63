# vibe-gov core, modelled in Dafny

This project models the core of the vibe-gov data-lineage and governance platform:

- **Connectors.** The connector SDK (`runConnector`, the emit context). The MySQL, PostgreSQL and Tableau connectors, with their polling state and timers. The harness that runs the PostgreSQL and Tableau connectors against a Kafka producer.
- **Lineage API.** The naive SQL lineage extractor `parseSqlToLineage`. The `POST /lineage/parse` route that persists `FLOWS_TO` edges in the graph.
- **Ingestion.** The consumer that writes one `INGEST_ASSET` audit row per asset message and upserts the asset's graph node.
- **Governance service.**
  - The masking engine (REDACT, HASH, PARTIAL, CUSTOM).
  - The JWT authorisation checks.
  - The login and create-user routes, with the role-to-permission table.
  - The repository's asset merge, asset id, asset update and audit query builder.
  - The audit routes: the listings, the summary and the CSV export.
- **Web UI logic.**
  - Text truncation and badge colours.
  - The data catalog filters and their handlers.
  - The password policy checks of the settings page.
  - The authentication store over browser storage.

Each source file has its own module (file names are the module names in snake case). Shared modules:

- `Wrappers`: Option and Result.
- `Text`: JavaScript string operations such as `split`, `join` and `toLowerCase`.
- `Seqs`: `Set`-style deduplication, `filter` and flattening.
- `GraphStore`: the graph database's MERGE and SET semantics.

Code that changes state step by step is modelled imperatively:
- The connectors, the emit context, the graph store, the audit table, the masking engine's rule list, the catalog filters and the auth store are classes. Their methods state their whole new state.
- The loops are methods with invariants, each proved against a specification function. These are the extractor's `exec` loop, the hash loop, the permission loop and the audit query builder.

Pure code is modelled as functions with lemmas.

Where the source's behaviour is evidently unintended, a `Build` parameter (`AsWritten` or `Corrected`) selects the behaviour. Both readings are proved, and the corrected one is listed next to its finding.

Where the specification and the code disagree, the model follows the code:
- A timer firing runs a poll cycle whether or not a poll is already running. The `isPolling` flag only guards `poll` itself, not the interval callback.
- The harness runs only the PostgreSQL and Tableau connectors. The MySQL connector is modelled, but the harness never runs it.
- `updateDataAsset` binds `Object.values(updates)`, which includes an `id` value. It does not bind the filtered field list.
- The settings page submits a password change after checking only matching confirmation and length. The character-class checks are displayed and never enforced.

## Model

| member | source | states |
|---|---|---|
| LineageParser.Normalize | services/lineage-api/src/lineage/parser.ts:7 | the normalised text holds no upper-case letter |
| LineageParser.DropSpaces | services/lineage-api/src/lineage/parser.ts:7 | `trim` drops exactly the leading whitespace run: the result is a suffix, it starts with a non-space, and everything dropped is whitespace |
| LineageParser.DropTrailingSpaces | services/lineage-api/src/lineage/parser.ts:7 | `trim` drops exactly the trailing whitespace run: the result is a prefix ending in a non-space |
| LineageParser.WordEnd | services/lineage-api/src/lineage/parser.ts:9 | `[a-zA-Z0-9_]+` is greedy: the run is maximal |
| LineageParser.SpaceEnd | services/lineage-api/src/lineage/parser.ts:9 | `\s+` is greedy: the run is maximal |
| LineageParser.MatchAt | services/lineage-api/src/lineage/parser.ts:9 | a match at p starts at p and ends inside the text |
| LineageParser.NextMatch | services/lineage-api/src/lineage/parser.ts:11 | `exec` from lastIndex finds the leftmost match at or after it: no position before the match, or before the end when there is none, starts a match |
| LineageParser.ParseSqlToLineage | services/lineage-api/src/lineage/parser.ts:6-15 | the `exec` loop adding captures to a Set returns the distinct captures of the repeated scan, in first-match order |
| LineageParser.UpstreamNoDuplicates | services/lineage-api/src/lineage/parser.ts:8-14 | no upstream asset is reported twice |
| LineageParser.UpstreamFirstMatchOrder | services/lineage-api/src/lineage/parser.ts:8-14 | the upstream assets are exactly the captured names, ordered by their first match |
| LineageParser.UpstreamEntriesAreQualifiedNames | services/lineage-api/src/lineage/parser.ts:9 | every reported name is `x.y` with one dot and non-empty lower-case word parts |
| LineageParser.UnqualifiedNameIsNotReported | services/lineage-api/src/lineage/parser.ts:9 | FROM/JOIN followed by a name without a dot produces no match |
| LineageParser.UpstreamEmptyIffNoMatch | services/lineage-api/src/lineage/parser.ts:11-14 | the result is empty exactly when the pattern matches nowhere in the normalised text |
| LineageParser.UpstreamIgnoresCaseAndSpacing | services/lineage-api/src/lineage/parser.ts:7 | SQL texts that agree after whitespace collapsing and lower-casing give the same result |
| LineageParser.UpstreamOfCollapsed | services/lineage-api/src/lineage/parser.ts:7 | collapsing whitespace before parsing changes nothing |
| LineageParser.CollapseSpacesCollapsed | services/lineage-api/src/lineage/parser.ts:7 | `replace(/\s+/g, ' ')` leaves whitespace only as single spaces, is empty only for empty input, and keeps or replaces the first character |
| LineageParser.CollapseSpacesOfCollapsed | services/lineage-api/src/lineage/parser.ts:7 | collapsing already collapsed text is the identity |
| LineageParser.TrimLower | services/lineage-api/src/lineage/parser.ts:7 | trimming and lower-casing commute |
| LineageParser.SkipNonKeywordLetters | services/lineage-api/src/lineage/parser.ts:9-11 | positions not holding 'f' or 'j' never start a match |
| LineageParser.NormalizeOfNormalized | services/lineage-api/src/lineage/parser.ts:7 | normalisation is idempotent on trimmed, collapsed, lower-case text |
| LineageParser.ThreePartNameExample | services/lineage-api/src/lineage/parser.ts:9-12 | `from a.b.c` reports only `a.b`: the capture stops at the second dot |
| LineageRoute.HandleParse | services/lineage-api/src/routes/lineage.ts:6-32 | the reply is 400 without SQL, an error when a MERGE statement fails, and the parse result otherwise; the graph holds exactly the flows whose statements completed |
| LineageRoute.PersistFlows | services/lineage-api/src/routes/lineage.ts:18-28 | the loop of MERGE statements merges every upstream's flow into the downstream up to the first failing statement, and reports failure exactly when one failed |
| LineageRoute.MissingSqlRejected | services/lineage-api/src/routes/lineage.ts:8 | a missing body, missing or empty `sql` is answered 400 `sql required` and writes nothing |
| LineageRoute.ReplyIsParse | services/lineage-api/src/routes/lineage.ts:10-31 | with SQL the reply is the extractor's result exactly when the request does not persist or every MERGE completed, and an error otherwise |
| LineageRoute.NoPersistNoWrites | services/lineage-api/src/routes/lineage.ts:12 | without truthy `persist` and `downstream` the graph is untouched |
| LineageRoute.PersistEffect | services/lineage-api/src/routes/lineage.ts:12-24 | after persisting, every upstream whose MERGE completed (all of them when none failed) and the downstream have nodes, the added edges are exactly those upstreams to downstream, and existing properties are kept |
| LineageRoute.RepeatIsIdempotent | services/lineage-api/src/routes/lineage.ts:19-24 | two identical requests leave the graph as one request whose statements completed as far as the further of the two: a retry finishes a failed request, and repeating a completed one changes nothing |
| LineageRoute.WriteFailureKeepsEarlierFlows | services/lineage-api/src/routes/lineage.ts:18-28 | a failing MERGE ends the request with an error; the flows of the upstreams before it stay merged, and the failing upstream's edge exists only if it did before |
| LineageRoute.RouteKeepsGraphClosed | services/lineage-api/src/routes/lineage.ts:19-24 | the route never creates an edge without its end nodes, even when a MERGE fails |
| GraphStore.MergeNode | services/lineage-api/src/routes/lineage.ts:21 | MERGE on an id finds the node or creates it without properties; no other node or edge changes |
| GraphStore.MergeFlow | services/lineage-api/src/routes/lineage.ts:21 | the three-MERGE statement adds the two nodes if missing and the edge, and keeps existing properties |
| GraphStore.MergeFlowsNodes | services/lineage-api/src/routes/lineage.ts:19-24 | merging a list of flows adds exactly the listed nodes and the downstream |
| GraphStore.MergeFlowsProps | services/lineage-api/src/routes/lineage.ts:19-24 | merging flows keeps existing node properties and creates new nodes empty |
| GraphStore.MergeFlowsEdges | services/lineage-api/src/routes/lineage.ts:19-24 | merging flows adds exactly the edges upstream to downstream |
| GraphStore.MergeFlowsPresent | services/lineage-api/src/routes/lineage.ts:19-24 | merging flows that all exist changes nothing |
| GraphStore.MergeFlowsIdempotent | services/lineage-api/src/routes/lineage.ts:19-24 | MERGE is idempotent: repeating the same flows adds nothing |
| GraphStore.MergeFlowsAppend | services/lineage-api/src/routes/lineage.ts:19-24 | merging two lists of flows one after the other is merging their concatenation |
| GraphStore.MergeFlowsPrefixes | services/lineage-api/src/routes/lineage.ts:19-24 | merging a prefix of the flows after another prefix is merging the longer prefix once |
| GraphStore.MergeFlowsClosed | services/lineage-api/src/routes/lineage.ts:19-24 | merging flows keeps every edge's end nodes present |
| GraphStore.SetProp | services/ingestion/src/index.ts:46 | `SET n.k = $v` sets the key to a value, removes it for null, and leaves other keys alone |
| GraphStore.SetAllUnassigned | services/ingestion/src/index.ts:46 | a property no assignment names keeps its value |
| GraphStore.SetAllLast | services/ingestion/src/index.ts:46 | the last assignment to a key decides it |
| GraphStore.MergeSet | services/ingestion/src/index.ts:45-53 | MERGE then SET: the node exists, other nodes and all edges are unchanged |
| GraphStore.Store.MergeFlowEdge | services/lineage-api/src/routes/lineage.ts:20-23 | one run of the flow statement is MergeFlow on the stored graph |
| GraphStore.Store.MergeAndSet | services/ingestion/src/index.ts:45-53 | one upsert statement is MergeSet on the stored graph |
| Ingestion.IngestRow | services/ingestion/src/index.ts:40-43 | the audit row has no actor, action INGEST_ASSET, entity type ASSET, the payload's asset id and the payload as metadata |
| Ingestion.AuditTable.Insert | services/ingestion/src/index.ts:40-43 | an accepted insert appends exactly the row, a refused one changes nothing |
| Ingestion.HandleMessage | services/ingestion/src/index.ts:35-54 | the handler's effect on the audit table and graph, and its outcome, are those of Deliver |
| Ingestion.EmptyMessageIgnored | services/ingestion/src/index.ts:36 | a message without a value changes nothing |
| Ingestion.AuditFailureLeavesGraph | services/ingestion/src/index.ts:40-53 | the audit write comes first: when it fails neither store changes |
| Ingestion.OneAuditRowPerMessage | services/ingestion/src/index.ts:40-43 | a handled message appends exactly one row for its asset |
| Ingestion.IngestedNode | services/ingestion/src/index.ts:45-53 | after ingestion the node exists, its name, namespace and source system are the payload's, and its other properties are kept |
| Ingestion.AssignmentsIdempotent | services/ingestion/src/index.ts:46 | applying the upsert's SET twice is applying it once |
| Ingestion.ReplayIsIdempotentOnGraph | services/ingestion/src/index.ts:35-54 | replaying a message leaves the graph as after one delivery while the audit log grows by one more row |
| Ingestion.DeliverKeepsEdges | services/ingestion/src/index.ts:45-53 | ingestion never changes edges and keeps the graph closed |
| Runner.RunConnector | services/connectors/src/sdk/runner.ts:3-10 | the four guarded, awaited calls between the two log lines produce the trace of the phase walk |
| Runner.CallsAreOrderedSubset | services/connectors/src/sdk/runner.ts:5-8 | every phase called is present and the calls keep the phase order |
| Runner.CallsComplete | services/connectors/src/sdk/runner.ts:5-9 | a run completes iff no present phase throws, and then calls every present phase |
| Runner.CallsStopAtThrow | services/connectors/src/sdk/runner.ts:5-8 | an incomplete run ends with the phase that threw, and no earlier call threw |
| Runner.PhasesInOrder | services/connectors/src/sdk/runner.ts:5-8 | phases run in the order init, discover, poll, shutdown, each at most once |
| Runner.EachPresentPhaseOnce | services/connectors/src/sdk/runner.ts:5-8 | without a throw every present phase is called exactly once |
| Runner.StartFirstFinishLast | services/connectors/src/sdk/runner.ts:4-9 | the start line comes first; the finish line is last exactly when the run completed |
| Runner.NothingAfterThrow | services/connectors/src/sdk/runner.ts:5-9 | after a throw nothing else runs and no finish line follows |
| ConnectorSdk.AssetRecords | services/connectors/src/harness.ts:14-16 | one message per asset event, in order, on the asset topic keyed by the asset id |
| ConnectorSdk.LineageRecords | services/connectors/src/harness.ts:17-20 | one message per lineage event, in order, on the lineage topic keyed `up->down` |
| ConnectorSdk.LineageKeyInjective | services/connectors/src/harness.ts:18 | a lineage key determines both endpoint ids when the upstream id has no '>' |
| ConnectorSdk.Context.constructor | services/connectors/src/harness.ts:10-13 | a fresh producer is disconnected and has sent and logged nothing |
| ConnectorSdk.Context.Connect | services/connectors/src/harness.ts:11 | connect succeeds exactly when the broker is up and changes nothing else |
| ConnectorSdk.Context.Disconnect | services/connectors/src/harness.ts:26 | disconnect leaves the producer disconnected and changes nothing else |
| ConnectorSdk.Context.LogInfo | services/connectors/src/sdk/interfaces.ts:6 | logging appends one info line and changes nothing else |
| ConnectorSdk.Context.LogError | services/connectors/src/sdk/interfaces.ts:6 | logging appends one error line and changes nothing else |
| ConnectorSdk.Context.Send | services/connectors/src/harness.ts:15-19 | a send succeeds exactly while the broker accepts, and then appends its message |
| ConnectorSdk.Context.EmitAsset | services/connectors/src/harness.ts:14-16 | `emitAsset` sends the event's message or fails without sending |
| ConnectorSdk.Context.EmitLineage | services/connectors/src/harness.ts:17-20 | `emitLineage` sends the event's message or fails without sending |
| ConnectorSdk.EmitAssets | services/connectors/src/connectors/mysql.ts:123-125 | the awaited emit loop sends the longest prefix of the events the broker accepts, and fails iff it could not send all |
| ConnectorSdk.EmitLineages | services/connectors/src/connectors/mysql.ts:157-159 | the same for lineage events |
| MySQLConnector.Connector.constructor | services/connectors/src/connectors/mysql.ts:5-7 | the module state starts with no poll time, not polling, no timer |
| MySQLConnector.Connector.Init | services/connectors/src/connectors/mysql.ts:13-16 | `init` logs and records the poll time, sending nothing |
| MySQLConnector.Connector.Discover | services/connectors/src/connectors/mysql.ts:18-160 | `discover` sends the prefix of its five assets then five lineage events the broker accepts, and fails iff a send failed |
| MySQLConnector.Connector.PerformPoll | services/connectors/src/connectors/mysql.ts:201-224 | a poll cycle sends the accepted prefix of its column, table and lineage messages; a failure is logged, not thrown |
| MySQLConnector.Connector.Poll | services/connectors/src/connectors/mysql.ts:162-184 | a running poll is skipped with one log line; otherwise the timer is installed, the flag set, and one cycle runs: the accepted prefix of its messages is sent, the budget drops by as many, the poll time advances only on success, and the log gains the start line and the cycle's lines |
| MySQLConnector.Connector.Tick | services/connectors/src/connectors/mysql.ts:173-175 | without a timer nothing changes; with one, a cycle runs: the accepted prefix is sent, the budget drops by as many, the poll time advances only on success, and the log ends with the success or error line |
| MySQLConnector.Connector.Shutdown | services/connectors/src/connectors/mysql.ts:186-197 | shutdown clears the timer and the flag and sends nothing |
| MySQLConnector.CheckSchemaChanges | services/connectors/src/connectors/mysql.ts:226-251 | sends the `middle_name` column asset if accepted |
| MySQLConnector.CheckNewTables | services/connectors/src/connectors/mysql.ts:253-282 | sends the `promotions` table asset if accepted |
| MySQLConnector.CheckLineageUpdates | services/connectors/src/connectors/mysql.ts:284-303 | sends the promotions-to-orders lineage event if accepted |
| MySQLConnector.CheckDataQuality | services/connectors/src/connectors/mysql.ts:305-324 | only logs the quality issue |
| MySQLConnector.DiscoveredIdsAreQualifiedNames | services/connectors/src/connectors/mysql.ts:21-120 | every discovered id is `sourceSystem.namespace.name` |
| MySQLConnector.DiscoveredIdsDistinct | services/connectors/src/connectors/mysql.ts:21-120 | the discovered ids are distinct |
| MySQLConnector.DiscoveredLineageIsClosed | services/connectors/src/connectors/mysql.ts:128-154 | both ends of every discovered lineage event are discovered assets |
| MySQLConnector.PollCycleShape | services/connectors/src/connectors/mysql.ts:201-303 | a cycle sends a COLUMN asset, a TABLE asset, then a lineage event |
| PostgresConnector.Connector.constructor | services/connectors/src/connectors/postgres.ts:4-6 | not polling, no timer |
| PostgresConnector.Connector.Init | services/connectors/src/connectors/postgres.ts:12-14 | `init` only logs |
| PostgresConnector.Connector.Discover | services/connectors/src/connectors/postgres.ts:16-29 | `discover` sends the sample table if accepted, and fails iff not |
| PostgresConnector.Connector.PerformPoll | services/connectors/src/connectors/postgres.ts:70-86 | a cycle sends the accepted prefix of its table and column; a failure is logged |
| PostgresConnector.Connector.Poll | services/connectors/src/connectors/postgres.ts:31-53 | a running poll is skipped; otherwise the timer is installed and one cycle runs |
| PostgresConnector.Connector.Tick | services/connectors/src/connectors/postgres.ts:42-44 | without a timer nothing changes; with one, a cycle runs: the accepted prefix is sent, the budget drops by as many, the connection is kept, and the log ends with the success or error line |
| PostgresConnector.Connector.Shutdown | services/connectors/src/connectors/postgres.ts:55-66 | shutdown clears the timer and flag and sends nothing |
| PostgresConnector.CheckNewTables | services/connectors/src/connectors/postgres.ts:88-115 | sends the `users` table if accepted |
| PostgresConnector.CheckSchemaChanges | services/connectors/src/connectors/postgres.ts:117-141 | sends the `status` column if accepted |
| PostgresConnector.DiscoverIsOneTable | services/connectors/src/connectors/postgres.ts:16-29 | discover sends exactly one TABLE message on the asset topic |
| PostgresConnector.StatusColumnExtendsTable | services/connectors/src/connectors/postgres.ts:123-136 | the column's id is the table's id plus its name, in the same namespace and source |
| PostgresConnector.PollCycleShape | services/connectors/src/connectors/postgres.ts:70-141 | a cycle sends a TABLE then a COLUMN asset |
| TableauConnector.Connector.constructor | services/connectors/src/connectors/tableau.ts:4-6 | not polling, no timer |
| TableauConnector.Connector.Init | services/connectors/src/connectors/tableau.ts:12-14 | `init` only logs |
| TableauConnector.Connector.Discover | services/connectors/src/connectors/tableau.ts:16-60 | `discover` sends the accepted prefix of its two dashboards, and fails iff a send failed |
| TableauConnector.Connector.PerformPoll | services/connectors/src/connectors/tableau.ts:101-120 | a cycle sends the new report if accepted, then logs the two checks |
| TableauConnector.Connector.Poll | services/connectors/src/connectors/tableau.ts:62-84 | a running poll is skipped; otherwise the timer is installed and one cycle runs |
| TableauConnector.Connector.Tick | services/connectors/src/connectors/tableau.ts:73-75 | without a timer nothing changes; with one, a cycle runs: the accepted prefix is sent, the budget drops by as many, the connection is kept, and the log ends with the success or error line |
| TableauConnector.Connector.Shutdown | services/connectors/src/connectors/tableau.ts:86-97 | shutdown clears the timer and flag and sends nothing |
| TableauConnector.CheckNewAssets | services/connectors/src/connectors/tableau.ts:122-148 | sends the revenue report if accepted |
| TableauConnector.CheckUpdates | services/connectors/src/connectors/tableau.ts:150-167 | only logs the layout update |
| TableauConnector.CheckDataSources | services/connectors/src/connectors/tableau.ts:169-186 | only logs the data-source change |
| TableauConnector.DiscoverIsTwoReports | services/connectors/src/connectors/tableau.ts:16-60 | discover sends exactly two REPORT assets and no lineage |
| TableauConnector.PollCycleShape | services/connectors/src/connectors/tableau.ts:101-148 | a cycle sends exactly one REPORT asset |
| TableauConnector.IdsAreNotQualifiedNames | services/connectors/src/connectors/tableau.ts:23-25 | a Tableau id is not `sourceSystem.namespace.name` |
| Harness.RunPostgres | services/connectors/src/harness.ts:24 | running the PostgreSQL connector sends the accepted prefix of its three messages, logs start first and finish last, and ends with its timer cleared |
| Harness.RunTableau | services/connectors/src/harness.ts:25 | the same for the Tableau connector and its three messages |
| Harness.RunHarness | services/connectors/src/harness.ts:7-32 | `main` sends a prefix of the six intended messages cut where the broker stops accepting, completes iff the broker is up and accepts at least five, and logs the two runs in order |
| Masking.ToInt32 | services/governance/src/masking/engine.ts:68 | `hash & hash` yields the signed 32-bit value congruent to the input |
| Masking.ToInt32Congruent | services/governance/src/masking/engine.ts:67-68 | congruent inputs give the same 32-bit value |
| Masking.Hash | services/governance/src/masking/engine.ts:64-69 | the accumulator stays a signed 32-bit integer |
| Masking.HashValue | services/governance/src/masking/engine.ts:62-71 | the shift-subtract loop computes `hash_` with the hex magnitude of the specified hash |
| Masking.HashStringShape | services/governance/src/masking/engine.ts:70 | a hash mask is `hash_` and one to eight lower-case hex digits |
| Masking.HashSnoc | services/governance/src/masking/engine.ts:65-69 | each character advances the hash by `ToInt32(31*h + c)` |
| Masking.HashExample | services/governance/src/masking/engine.ts:62-71 | "ab" masks to `hash_c21` |
| Masking.PartialMaskShort | services/governance/src/masking/engine.ts:78-80 | a value no longer than first+last becomes the mask repeated to its length |
| Masking.PartialMaskLong | services/governance/src/masking/engine.ts:82-86 | a longer value keeps its first and last characters around a mask run of the right length |
| Masking.PartialMaskDefaults | services/governance/src/masking/engine.ts:74-76 | an empty config shows two characters at each end and masks with `*` |
| Masking.RuleKinds | services/governance/src/masking/engine.ts:43-60 | REDACT ignores the value; an unknown kind is the identity |
| Masking.MaskingEngine.constructor | services/governance/src/masking/engine.ts:10 | a new engine has no rules |
| Masking.MaskingEngine.SetRules | services/governance/src/masking/engine.ts:12-14 | `setRules` replaces the whole list |
| Masking.MaskingEngine.ApplyMasking | services/governance/src/masking/engine.ts:16-41 | a value is masked exactly when `shouldMask` holds, by the first applicable rule with the classification's reason; otherwise it is returned unmasked |
| Masking.ApplicableRules | services/governance/src/masking/engine.ts:22-33 | the filtered rules are empty iff none applies, and otherwise start with the first applicable rule |
| Masking.FirstApplicableExists | services/governance/src/masking/engine.ts:33 | if some rule applies there is a first one |
| Masking.DisabledRulesNeverMask | services/governance/src/masking/engine.ts:24 | with every rule disabled nothing is masked |
| Masking.RoleMatchesDecimalString | services/governance/src/masking/engine.ts:25 | roles match on the role id's decimal text: 12 matches "12", not "012" |
| Jwt.ParsePermission | services/governance/src/auth/jwt.ts:41-42 | the resource is the first `:` segment; an action exists iff the string has a colon |
| Jwt.ParsePermissions | services/governance/src/auth/jwt.ts:40-43 | every permission string is parsed, in order |
| Jwt.ExtractAuthContext | services/governance/src/auth/jwt.ts:33-45 | null iff verification fails; otherwise the payload's user, roles and parsed permissions |
| Jwt.HasPermission | services/governance/src/auth/jwt.ts:47-52 | true iff some permission's parts equal the request's or are `*` |
| Jwt.HasRole | services/governance/src/auth/jwt.ts:54-56 | true iff the role is listed |
| Jwt.WildcardGrantsAll | services/governance/src/auth/jwt.ts:47-52 | `*:*` grants everything |
| Jwt.EmptyGrantsNothing | services/governance/src/auth/jwt.ts:47-52 | no permissions grant nothing |
| Jwt.ColonlessPermissionGrantsNothing | services/governance/src/auth/jwt.ts:41-50 | a permission without a colon has no action and grants nothing |
| Jwt.PairRoundTrip | services/governance/src/auth/jwt.ts:41-42 | `r:a` of colon-free parts parses back to (r, a) |
| Jwt.ExtraSegmentsDropped | services/governance/src/auth/jwt.ts:41 | `r:a:x` parses as (r, a): the third segment is dropped |
| Jwt.ExtractedPermissions | services/governance/src/auth/jwt.ts:33-52 | a verified token grants a request iff one of its permission strings parses to a covering pair |
| AuthRoutes.RolePermissions | services/governance/src/routes/auth.ts:163-176 | each role pushes its table entries as `resource:action` strings, in order |
| AuthRoutes.GeneratePermissionsFromRoles | services/governance/src/routes/auth.ts:159-180 | the push loop returns the per-role lists concatenated in role order |
| AuthRoutes.PermissionsConcat | services/governance/src/routes/auth.ts:162-177 | the permissions of two role lists concatenate |
| AuthRoutes.UnknownRolesContributeNothing | services/governance/src/routes/auth.ts:163-176 | roles outside the switch add nothing |
| AuthRoutes.PermissionsComeFromRoles | services/governance/src/routes/auth.ts:162-177 | a permission is issued iff one of the roles pushes it |
| AuthRoutes.ContextGrants | services/governance/src/auth/jwt.ts:40-52 | a context built from permission strings grants exactly what the strings grant once parsed |
| AuthRoutes.RoleEntriesParse | services/governance/src/routes/auth.ts:164-175 | each table entry parses back to its resource and action |
| AuthRoutes.RoleGrantsRequest | services/governance/src/routes/auth.ts:164-175 | one role grants a request iff one of its entries covers it |
| AuthRoutes.NonAdminCoversListed | services/governance/src/routes/auth.ts:167-175 | a non-ADMIN role covers exactly its listed pairs |
| AuthRoutes.IssuedPermissionsGrant | services/governance/src/routes/auth.ts:40-45 | a token issued for a role list grants a request iff ADMIN is listed or some role's entry names it |
| AuthRoutes.OnlyAdminExportsOrCreatesUsers | services/governance/src/routes/auth.ts:159-180 | only ADMIN gets `audit:export` or `users:create` |
| AuthRoutes.TableActions | services/governance/src/routes/auth.ts:164-175 | the table grants only read, write or `*` |
| AuthRoutes.AuditReaders | services/governance/src/routes/auth.ts:164-175 | `audit:read` is granted iff ADMIN or DATA_STEWARD is among the roles |
| AuthRoutes.Authorize | services/governance/src/routes/auth.ts:60-69 | 401 iff no `Bearer ` header; allowed iff the token after the prefix verifies and grants the permission; the context is the token's |
| AuthRoutes.BearerTokenStripped | services/governance/src/routes/auth.ts:65 | the token checked is what follows `Bearer ` |
| AuthRoutes.InvalidTokenForbidden | services/governance/src/routes/auth.ts:66-69 | a token that does not verify is refused 403 |
| AuthRoutes.FindUser | services/governance/src/db/repository.ts:32-35 | none iff no user has the email, otherwise a user with it |
| AuthRoutes.Names | services/governance/src/routes/auth.ts:40 | the role names, in order |
| AuthRoutes.Directory.constructor | services/governance/src/routes/auth.ts:26 | empty tables over the given roles |
| AuthRoutes.Directory.UserRoles | services/governance/src/db/repository.ts:48-54 | the roles joined with the user's assignments |
| AuthRoutes.Directory.Login | services/governance/src/routes/auth.ts:29-56 | 401 for an unknown email; otherwise a token signed for the user's role names and their permissions, whatever the password |
| AuthRoutes.Directory.CreateUser | services/governance/src/routes/auth.ts:59-109 | 401/403 from the gate, 409 for a known email, otherwise one new user whose id and email no stored user has and whom a lookup by email finds, its role assignments and one CREATE_USER audit row; the table stays valid |
| AuthRoutes.CreatedUserFound | services/governance/src/routes/auth.ts:74-83 | after creation a lookup by the email finds exactly the new user |
| AuthRoutes.FreshUser | services/governance/src/routes/auth.ts:74-83 | in a valid user table a new user with an unused email and the next id shares neither with a stored user |
| Repository.FindIndex | services/governance/src/db/repository.ts:199 | `findIndex` is the first index with the id, or -1 when none has it |
| Repository.AssetIdsDistinct | services/governance/src/db/repository.ts:197-200 | no two merged assets share an id |
| Repository.EveryIdAppears | services/governance/src/db/repository.ts:197-200 | every id of either source is in the merged list |
| Repository.CuratedEntryWins | services/governance/src/db/repository.ts:197-200 | when both sources have an id the table's entry is kept |
| Repository.MergeKeepsOrder | services/governance/src/db/repository.ts:197-200 | the merged list is a subsequence of the two sources in order |
| Repository.KeepFirstMembers | services/governance/src/db/repository.ts:198-200 | the filter keeps exactly the entries at the first index of their id |
| Repository.AssetIdRoundTrip | services/governance/src/db/repository.ts:223 | the id of dot-free parts splits back into them |
| Repository.AssetIdInjective | services/governance/src/db/repository.ts:223 | dot-free parts give distinct assets distinct ids |
| Repository.DottedPartsCollide | services/governance/src/db/repository.ts:223 | a dot inside a part lets two assets share an id |
| Repository.Fields | services/governance/src/db/repository.ts:243 | the keys without `id`, never more than the updates |
| Repository.Values | services/governance/src/db/repository.ts:244 | every value, the id's included, in order |
| Repository.Assignments | services/governance/src/db/repository.ts:245-250 | field i becomes its column `= $(i+2)` |
| Repository.UpdateBindsFields | services/governance/src/db/repository.ts:243-255 | without an `id` key each placeholder binds its own field's value |
| Repository.IdKeyShiftsValues | services/governance/src/db/repository.ts:243-254 | an `id` key shifts the values so that `name`'s placeholder binds the id's value |
| Repository.EmptyUpdateLeadingComma | services/governance/src/db/repository.ts:245-253 | as written, an empty update yields `SET , updated_at = NOW()` |
| Repository.SetListAgrees | services/governance/src/db/repository.ts:245-253 | the corrected SET list equals the source's for non-empty updates and is just `updated_at = NOW()` for an empty one |
| Repository.ParamsOf | services/governance/src/db/repository.ts:284-329 | one value per clause, in clause order |
| Repository.AddIfSet | services/governance/src/db/repository.ts:287-291 | a truthy filter bumps the count, appends its numbered condition and pushes its value, keeping the builder invariant |
| Repository.BuildAuditQuery | services/governance/src/db/repository.ts:274-333 | the builder returns the specified query and parameter list |
| Repository.NumberedDollars | services/governance/src/db/repository.ts:289-327 | the numbered conditions hold one `$` each |
| Repository.PlaceholdersMatchValues | services/governance/src/db/repository.ts:283-331 | the query holds exactly as many placeholders as values |
| Repository.FalsyFiltersIgnored | services/governance/src/db/repository.ts:287-329 | an empty string or 0 adds no condition and no value |
| Repository.FullFilterOrder | services/governance/src/db/repository.ts:287-329 | with every filter set the values follow the fixed clause order |
| Repository.NoFilters | services/governance/src/db/repository.ts:283-317 | without filters the query is the bare newest-first select |
| AuditRoutes.ParseFilters | services/governance/src/routes/audit.ts:6-14 | the schema accepts iff strings are strings, numbers are non-NaN, limit (default 100) is in 1..max and offset (default 0) is at least 0; errors name the failing fields |
| AuditRoutes.ListRoute | services/governance/src/routes/audit.ts:20-50 | 401 iff no Bearer header, 403 iff the token does not grant `audit:read`, invalid iff the schema rejects, and the query's limit is in 1..1000 |
| AuditRoutes.UnauthorizedBeforeTokenCheck | services/governance/src/routes/audit.ts:21-24 | without a Bearer header the answer is 401 whatever the token and query |
| AuditRoutes.EventsDefaults | services/governance/src/routes/audit.ts:32-48 | no query parameters fetch the newest 100 events |
| AuditRoutes.LimitOutOfRangeRejected | services/governance/src/routes/audit.ts:12 | a limit outside 1..1000 is rejected |
| AuditRoutes.LimitNaNRejected | services/governance/src/routes/audit.ts:33-40 | a limit that is not a number is rejected |
| AuditRoutes.EntityRouteFilters | services/governance/src/routes/audit.ts:65-83 | the entity route filters on the path's type and id |
| AuditRoutes.UserRouteFilters | services/governance/src/routes/audit.ts:100-117 | the user route filters on the path's user id, rejecting a non-number |
| AuditRoutes.DatesRejectedAsWritten | services/governance/src/routes/audit.ts:38 | as written, any date parameter reaches `z.string()` as a Date and is rejected |
| AuditRoutes.DatesQueriedCorrected | services/governance/src/routes/audit.ts:44 | corrected, a date string becomes the query's lower bound |
| AuditRoutes.Columns | services/governance/src/routes/audit.ts:200 | the export reads ten properties |
| AuditRoutes.TallyFacts | services/governance/src/routes/audit.ts:143-146 | the counter lists each distinct key once in first-appearance order, with its number of occurrences, summing to the number of events |
| AuditRoutes.TallyPositive | services/governance/src/routes/audit.ts:143-146 | every count is at least 1 and keys are distinct |
| AuditRoutes.TallySame | services/governance/src/routes/audit.ts:143-146 | equal keys collapse into one entry counting them all |
| AuditRoutes.KeysOf | services/governance/src/routes/audit.ts:144-150 | one key per event |
| AuditRoutes.SummaryRoute | services/governance/src/routes/audit.ts:122-160 | 401 iff no Bearer header; a summary iff `audit:read` is granted |
| AuditRoutes.SummaryCounts | services/governance/src/routes/audit.ts:142-158 | the action breakdown lists every action once with its count, and the counts sum to the events fetched |
| AuditRoutes.DefaultWindow | services/governance/src/routes/audit.ts:135-136 | without dates the window is the last 30 days up to now |
| AuditRoutes.TotalAtMostOneAsWritten | services/governance/src/routes/audit.ts:139-156 | as written `totalEvents` is 1 whenever the window has an event, and 0 otherwise |
| AuditRoutes.TotalCountsWindowCorrected | services/governance/src/routes/audit.ts:139-156 | corrected, `totalEvents` counts the window and is never below the breakdown's events |
| AuditRoutes.EntityBreakdownAsWritten | services/governance/src/routes/audit.ts:149-152 | as written, on database rows the entity breakdown has the single key "undefined" |
| AuditRoutes.EntityBreakdownCorrected | services/governance/src/routes/audit.ts:149-152 | corrected, the entity breakdown counts each entity type |
| AuditRoutes.CsvFields | services/governance/src/routes/audit.ts:200 | an event's line has one field per title |
| AuditRoutes.CsvLines | services/governance/src/routes/audit.ts:199-201 | one line per event |
| AuditRoutes.ExportRoute | services/governance/src/routes/audit.ts:163-204 | 401 iff no Bearer header, 403 iff the token does not grant `audit:export` |
| AuditRoutes.ExportGateAdminOnly | services/governance/src/routes/audit.ts:171 | of issued tokens only ADMIN's pass the export gate |
| AuditRoutes.ExportRejectedAsWritten | services/governance/src/routes/audit.ts:179 | as written an authorised export is always rejected: 10000 exceeds the maximum limit |
| AuditRoutes.ExportQueriesCorrected | services/governance/src/routes/audit.ts:176-203 | corrected, a well-formed export returns the CSV of up to 10000 events |
| AuditRoutes.CsvEntityColumnsAsWritten | services/governance/src/routes/audit.ts:200 | as written the entity columns print "undefined" |
| AuditRoutes.CsvEntityColumnsCorrected | services/governance/src/routes/audit.ts:200 | corrected they print the row's entity type and id |
| AuditRoutes.CsvOneLinePerEvent | services/governance/src/routes/audit.ts:198-203 | without line breaks inside cells, the export splits into the title line and one line per event |
| UiUtils.SliceTo | services/web-ui/src/lib/utils.ts:20 | `slice(0, end)` is a prefix, and the first `end` characters when end is in range |
| UiUtils.TruncateText | services/web-ui/src/lib/utils.ts:18-21 | short text is unchanged; longer text keeps its first maxLength characters plus `...`; the result is the text or a prefix of it followed by `...` |
| UiUtils.TruncateIdempotent | services/web-ui/src/lib/utils.ts:18-21 | truncating twice is truncating once |
| UiUtils.NegativeMaxCutsFromEnd | services/web-ui/src/lib/utils.ts:20 | a negative maximum cuts from the end |
| UiUtils.AssetTypeColor | services/web-ui/src/lib/utils.ts:23-36 | a known asset type gets a non-gray colour, others gray |
| UiUtils.AssetTypeColorsDistinct | services/web-ui/src/lib/utils.ts:23-36 | the four asset types get four different colours |
| UiUtils.ClassificationColor | services/web-ui/src/lib/utils.ts:38-53 | a known classification gets a non-gray colour, others gray |
| UiUtils.ClassificationColorsDistinct | services/web-ui/src/lib/utils.ts:38-53 | the five classifications get five different colours |
| DataCatalog.FilteredMembers | services/web-ui/src/pages/DataCatalog.tsx:25-45 | an asset is shown iff loaded and passing all three filters |
| DataCatalog.FilteredIsSubsequence | services/web-ui/src/pages/DataCatalog.tsx:26 | the shown assets keep the loaded order |
| DataCatalog.NoFiltersShowsAll | services/web-ui/src/pages/DataCatalog.tsx:28-40 | no search and no selection show everything |
| DataCatalog.SearchIgnoresCase | services/web-ui/src/pages/DataCatalog.tsx:28-31 | terms differing only in case select the same assets |
| DataCatalog.SearchFindsName | services/web-ui/src/pages/DataCatalog.tsx:29 | an asset whose name contains the term in any case is found |
| DataCatalog.ShownHasSelectedColumn | services/web-ui/src/pages/DataCatalog.tsx:34-37 | with classifications selected, a shown asset has a column with one of them |
| DataCatalog.AssetTypesDistinct | services/web-ui/src/pages/DataCatalog.tsx:47-51 | the offered types are distinct and exactly the loaded assets' types |
| DataCatalog.Toggle | services/web-ui/src/pages/DataCatalog.tsx:53-67 | toggling flips the value's membership and keeps every other value's |
| DataCatalog.ToggleTwiceRestores | services/web-ui/src/pages/DataCatalog.tsx:53-67 | toggling an unselected value twice restores the selection |
| DataCatalog.CatalogFilters.constructor | services/web-ui/src/pages/DataCatalog.tsx:10-12 | empty search and selections |
| DataCatalog.CatalogFilters.ClassificationChange | services/web-ui/src/pages/DataCatalog.tsx:53-59 | toggles the classification, keeping the other filters |
| DataCatalog.CatalogFilters.AssetTypeChange | services/web-ui/src/pages/DataCatalog.tsx:61-67 | toggles the asset type, keeping the other filters |
| DataCatalog.CatalogFilters.ClearFilters | services/web-ui/src/pages/DataCatalog.tsx:69-73 | clears everything, after which every loaded asset is shown |
| Settings.Test | services/web-ui/src/pages/Settings.tsx:187-190 | a one-class regex test holds iff some character is in the class |
| Settings.ValidatePassword | services/web-ui/src/pages/Settings.tsx:183-193 | each check holds iff its policy flag is off or the password has such a character; length iff at least minLength |
| Settings.LengthCheckIsEight | services/web-ui/src/pages/Settings.tsx:186 | under the system policy the length check asks for 8 characters |
| Settings.SpecialClassExact | services/web-ui/src/pages/Settings.tsx:190 | the special class is exactly its 20 listed characters, none a letter, digit or space |
| Settings.HandlePasswordChange | services/web-ui/src/pages/Settings.tsx:170-181 | submitted iff the confirmation matches and the length is at least 8, with the entered passwords; a mismatch is reported first |
| Settings.SubmissionIgnoresClassChecks | services/web-ui/src/pages/Settings.tsx:170-193 | submission follows the length check alone |
| Settings.WeakPasswordSubmitted | services/web-ui/src/pages/Settings.tsx:170-193 | "aaaaaaaa" fails three checks and is still submitted |
| AuthStore.Initial | services/web-ui/src/stores/auth.ts:12-17 | the store starts with the stored token, authenticated iff that token is non-empty |
| AuthStore.SignedOut | services/web-ui/src/stores/auth.ts:37-45 | signing out removes the token from storage and store, clears user and roles |
| AuthStore.SignedIn | services/web-ui/src/stores/auth.ts:47-55 | signing in stores the token and sets user, roles and authentication |
| AuthStore.AfterLogin | services/web-ui/src/stores/auth.ts:19-35 | success signs in, failure only resets loading; loading is off afterwards |
| AuthStore.SignedOutIdempotent | services/web-ui/src/stores/auth.ts:37-45 | signing out twice is signing out once |
| AuthStore.TransitionsKeepConsistent | services/web-ui/src/stores/auth.ts:19-65 | every transition keeps the token equal to the stored one, and authentication implies a token |
| AuthStore.ReloadAfterSignOut | services/web-ui/src/stores/auth.ts:14-38 | a reload after signing out starts signed out |
| AuthStore.ReloadAfterSignIn | services/web-ui/src/stores/auth.ts:14-48 | a reload after signing in with a non-empty token starts authenticated with it |
| AuthStore.Store.constructor | services/web-ui/src/stores/auth.ts:12-17 | the store's state is Initial of the browser storage |
| AuthStore.Store.Login | services/web-ui/src/stores/auth.ts:19-35 | the new state is AfterLogin; a failure is rethrown |
| AuthStore.Store.Logout | services/web-ui/src/stores/auth.ts:37-45 | the new state is SignedOut |
| AuthStore.Store.SetUser | services/web-ui/src/stores/auth.ts:47-55 | the new state is SignedIn |
| AuthStore.Store.ClearAuth | services/web-ui/src/stores/auth.ts:57-65 | the new state is SignedOut, as for logout |

## Left out

- Clocks: `new Date()` readings are a `Time` parameter. The ISO-8601 text of a timestamp is not modelled.
- Timers: `setInterval` handles are opaque parameters, and each firing is an explicit `Tick` call. When the timer fires relative to the awaited calls is not modelled, and neither are concurrent firings.
- Log messages: the timestamped and error-detail log texts of the connectors are kept only as fixed lines or left out. Fastify's request logging is left out.
- The network and the broker: Kafka, Postgres and Neo4j are state or parameters. Kafka is a producer whose broker accepts a given number of sends. The audit table is a sequence of rows. The graph is a map of nodes and a set of edges. The database behind the audit routes is a fetch function. The lineage route's Neo4j session completes a given number of MERGE statements before one fails; opening and closing the driver and session is not modelled.
- MySQL: the harness never runs the MySQL connector, so its connector is modelled only on its own.
- Strings are sequences of code points, not UTF-16 code units. `toLowerCase` is ASCII-only.
- The regular-expression replacement of a CUSTOM mask is a parameter.
- JWT signing and verification are parameters.
- Password hashing: bcrypt is not modelled. Login accepts any password, as the source does.
- LineageRoute.HandleParse: the body's `sql` is a string or absent. A truthy `sql` that is not a string makes `parseSqlToLineage` throw; that case is not modelled.
- AuthRoutes.Directory.CreateUser: the reply's `createdAt` is the database's timestamp and is not modelled; the reply carries the id, email and display name.
- The Zod bodies of the auth routes: email format and password length are assumed to have been validated.
- The assign-role and list-roles routes of services/governance/src/routes/auth.ts are not modelled: each is one database call.
- AuthRoutes.Directory.UserRoles: rows come back in role-table order, because the database's row order is unspecified. Foreign keys are not modelled.
- Repository.IdKeyShiftsValues: the only route calling `updateDataAsset` strips an `id` key through its schema, so the misalignment is shown on the repository alone and is not listed as a finding.
- `Number(s)` and `new Date(s)` are parameters. Fractional numbers are out of scope.
- The HTTP status a thrown ZodError becomes is not modelled; the route answers `Invalid`.
- Integer-like keys: JavaScript lists integer-like object keys first. The breakdown model keeps insertion order for every key.
- CSV escaping: the source does not escape quotes inside cells, and neither does the model. The one-line-per-event property is stated for cells without line breaks.
- The web UI's axios 401 interceptor, React rendering and the mocked password-update request are left out.
- Lineage-event ingestion: the ingestion consumer subscribes only to the asset topic, so lineage events are never consumed.

## Findings

| source | as written | input that shows it | evidently intended | confidence | as-written member | corrected member |
|---|---|---|---|---|---|---|
| services/governance/src/routes/audit.ts:12,176-183 | the export passes `limit: 10000` to a schema whose limit maximum is 1000 | any authorised `GET /audit/export` | export up to 10000 events | not executed | AuditRoutes.ExportRejectedAsWritten | AuditRoutes.ExportQueriesCorrected |
| services/governance/src/routes/audit.ts:10-11,38-39 | a date query parameter is turned into a `Date` before `z.string()` checks it | `GET /audit/events?startDate=2024-01-01` | filter events from that date | not executed | AuditRoutes.DatesRejectedAsWritten | AuditRoutes.DatesQueriedCorrected |
| services/governance/src/routes/audit.ts:139,156 | `totalEvents` is the length of a `limit: 1` query | a window holding 5 events reports 1 | the number of events in the window | not executed | AuditRoutes.TotalAtMostOneAsWritten | AuditRoutes.TotalCountsWindowCorrected |
| services/governance/src/routes/audit.ts:149-152,199-201; services/governance/src/db/repository.ts:331-332 | the summary and export read `entityType`/`entityId` from rows whose columns are `entity_type`/`entity_id` | any summary or export over non-empty rows | count and print each event's entity type and id | not executed | AuditRoutes.EntityBreakdownAsWritten | AuditRoutes.EntityBreakdownCorrected |
| services/governance/src/db/repository.ts:245-253 | an empty update produces `SET , updated_at = NOW()` | `updateDataAsset(id, {})` | touch only `updated_at` | not executed | Repository.EmptyUpdateLeadingComma | Repository.SetListAgrees |
