# kubeagent: a verified model of its deterministic middle

kubeagent reads a Kubernetes cluster, rolls pods up into workloads, judges them,
alerts on them and explains them. Between the API calls and the rendered text sits
deterministic code with real invariants. This project models that code in Dafny,
one module per component, and proves what it promises over every input, every
run and every interleaving.

| module | component |
|---|---|
| `Basics`, `Sorting` | shared vocabulary: keys, sums, grouping, what a `sort.Slice` call guarantees |
| `Glob` | `internal/glob`, the last-star matcher |
| `JsonSchema`, `SchemaSoundness` | `internal/jsonschema`, the generator and what its documents mean |
| `AlertState`, `AlertSink` | the alert state machine and the bounded delivery queue |
| `Scope`, `Investigation` | the model-driven reader, its scope and its loop |
| `Evidence`, `Hypotheses` | the read-budgeted evidence cache and the rules that decide from it |
| `Capacity` | node classification and first-fit-decreasing node loss |
| `Inventory`, `Gate`, `Correlation`, `Fleet`, `Baseline` | roll-up, verdicts, fleet report, restart baselines |
| `Normalize`, `Wrap` | the two text transformations of the command line |

How to read it. A loop in the source is a method with invariants; an object the
source mutates is a class (`AlertState.Roller`, `Scope.ScopeSet`,
`JsonSchema.Generator`); a computation is a function. Go's map iteration order is
an arbitrary choice inside a method, and the result is then proved independent of
it. The cluster, the model and the HTTP endpoint are oracles: functions of how
much has happened so far, so a statement for all of them covers every behaviour.
The sink is a step machine in which each `select` is one step and any number of
callers interleave with the one sender. Ghost results (`log`, `order`, `at`,
`built`) are witnesses that lemmas take up.

Five claims turned out to need a condition, and each has it stated exactly:

- `Normalize` does not track values that shorthands consume. pflag reads from its
  result what the line was meant to say iff the two stay in step
  (`Normalize.NormalizePreservesReading`), and what the standard library read iff
  in addition no flag follows a positional (`StdlibReadingPreserved`).
  `ShorthandValueRewritten` and `ConsumedTerminatorFreezes` are the failing families.
- The generated schema is not sound for every Go value. `SchemaSoundness.DocumentExact`
  says which values validate, in both directions; `NilElementRejected` and
  `CollidingKeysMisdescribe` give inputs outside the condition.
- Raising the baseline's Factor or Floor only removes deviations from reports if
  and only if the options *in force* satisfy the condition of
  `Baseline.RaisingShrinksReports`; `RaisingFromDefaultCanAdd` raises a flag from 0
  (which stands for the default) and adds one.
- The sink can drop the newest notification if and only if it has two or more
  callers (`AlertSink.NewestDroppedIff`).
- A node loss that fits is a constructive proof. One that does not fit can miss an
  assignment if and only if two or more nodes survive (`Capacity.NodeLossMissesIff`);
  `FailureRefutes` says when a given failed report does refute.

## Model

| member | source | states |
|---|---|---|
| `Glob.Match` | internal/glob/glob.go:36-71 | The two-cursor loop that remembers only the last star answers exactly what the recursive reading of the pattern says, and its two loops together take at most (length of pattern + 1)·(length of s + 1) rounds, counted by a ghost counter |
| `Glob.BudgetIsProduct` | internal/glob/glob.go:36-71 | The round budget is that product |
| `Glob.OlderStarIsRedundant` | internal/glob/glob.go:44-53 | Whatever an older star could still match later, a newly opened star can match too, so forgetting the older one loses no match |
| `Glob.StarFreeConsumes` | internal/glob/glob.go:54-56 | A star-free stretch of pattern consumes exactly its length |
| `Glob.OpenStar` | internal/glob/glob.go:44-53 | Opening a star keeps "matches now or after widening the open star" equivalent to the whole question |
| `Glob.MatchesExact` | internal/glob/glob.go:20-23 | The recursive reading means: the string can be cut into one stretch per pattern byte, any stretch for a star, one byte for `?`, the byte itself otherwise |
| `JsonSchema.Generate` | internal/jsonschema/jsonschema.go:132-175 | Ends on every struct graph, recursive ones included; success gives a document whose definitions are complete with nothing left open; failure happens only for a non-struct root, a version that is not MAJOR.MINOR, or a reachable struct that cannot be described |
| `JsonSchema.Generator.Object` | internal/jsonschema/jsonschema.go:184-226 | Builds exactly the struct's object schema; on success every referenced struct is finished or open (grey/black invariant), `open` is unchanged and `defs` only grows; on failure a reachable struct is indescribable |
| `JsonSchema.Generator.FieldType` | internal/jsonschema/jsonschema.go:242-305 | The same for one field's type, override, nullability and element positions included |
| `JsonSchema.Generator.Reference` | internal/jsonschema/jsonschema.go:309-324 | Registers a struct at most once, marking it open while its body is built; terminates because fewer struct keys are in neither `defs` nor `open` |
| `JsonSchema.EveryRefResolves` | internal/jsonschema/jsonschema.go:140-175 | Every `$ref` in the document and inside `$defs` names a `$defs` entry |
| `JsonSchema.SuccessMeansDescribable` | internal/jsonschema/jsonschema.go:132-175 | With distinct type keys a document exists only if no struct reachable from the root is indescribable, the converse of Generate's failure clause |
| `JsonSchema.DefsAreReachable` | internal/jsonschema/jsonschema.go:309-324 | The definitions are exactly the structs reachable from the root, each with its own object schema |
| `JsonSchema.DocumentUnique` | internal/jsonschema/jsonschema.go:130-175 | The document depends on the type and the metadata alone |
| `JsonSchema.MajorExact` | internal/jsonschema/jsonschema.go:110-128 | The major of digits "." digits is the first group of digits |
| `SchemaSoundness.NullableExact` | internal/jsonschema/jsonschema.go:328-340 | Making a schema nullable admits null and nothing else, except where an enum keyword still excludes null |
| `SchemaSoundness.NullExact` | internal/jsonschema/jsonschema.go:239-305 | A field's schema accepts null exactly at the positions `NullOk` names: non-omitempty slices (not of bytes), maps, pointers to non-enums |
| `SchemaSoundness.FieldExact` | internal/jsonschema/jsonschema.go:242-305 | For every type, position and value: the value's JSON encoding validates if and only if nulls occur only where allowed and enum values are from their enum, through any nesting and recursion |
| `SchemaSoundness.StructExact` | internal/jsonschema/jsonschema.go:184-226 | An encoded struct validates against its object schema iff each visible, undropped field does; what is required is always present |
| `SchemaSoundness.VersionExact` | internal/jsonschema/jsonschema.go:145-157 | The schemaVersion pattern accepts exactly the versions of the document's MAJOR |
| `SchemaSoundness.DocumentExact` | internal/jsonschema/jsonschema.go:132-175 | Soundness and its converse for whole documents |
| `SchemaSoundness.ShapeExact` | internal/jsonschema/jsonschema.go:242-305 | The converse over all JSON: a field schema accepts a text, a flag, a whole number or a number where the type says so, collections element by element, structs with every required member present and every declared member of its field's shape, null exactly where it may stand, and nothing else |
| `SchemaSoundness.DocumentShape` | internal/jsonschema/jsonschema.go:132-175 | The same for whole documents, the schemaVersion member included |
| `SchemaSoundness.ShapeIsEncoded` | internal/jsonschema/jsonschema.go:242-305 | JSON of the shape of a struct-free type is the encoding of some value of that type, so what is accepted there is exactly what can be written |
| `SchemaSoundness.TidyDocumentValidates` | internal/jsonschema/jsonschema.go:239-305 | A value with nil only directly at field level, enum values from their enum and a version of its own MAJOR validates |
| `SchemaSoundness.NilElementRejected` | internal/jsonschema/jsonschema.go:270-282 | A slice holding one nil pointer encodes to JSON its schema rejects, while the nil slice is accepted |
| `SchemaSoundness.CollidingKeysMisdescribe` | internal/jsonschema/jsonschema.go:98-107 | Two structs share a type key although each always writes a field the other never does: every document of a root holding both rejects every value of that root |
| `SchemaSoundness.CollisionsExist` | internal/jsonschema/jsonschema.go:98-107 | Packages a/x and b/x that both declare a type T give such types |
| `AlertState.Roller.constructor` | internal/alertstate/alertstate.go:98-103 | A non-positive Repeat becomes the default; no alert is open |
| `AlertState.Roller.Roll` | internal/alertstate/alertstate.go:114-173 | One Roll changes each object's alert and sends about it exactly what the per-object transition owes, each object at most once, sorted |
| `AlertState.RollAll` | internal/alertstate/alertstate.go:98-173 | Every sequence of Rolls on a new Roller is a run, so what is proved of runs holds of it |
| `AlertState.UniqueSorted` | internal/alertstate/alertstate.go:188-198 | Returns the distinct elements in strictly ascending order |
| `AlertState.GroupIsExact` | internal/alertstate/alertstate.go:115-130 | A group exists iff the object has an active record, and holds exactly its issues, its earliest start and whether any record flaps |
| `AlertState.SeenIsExact` | internal/alertstate/alertstate.go:115-131 | The same with the issue list sorted and distinct |
| `AlertState.ReceiverIsExact` | internal/alertstate/alertstate.go:133-173 | After every Roll of every run, a receiver that only applies notifications holds exactly the broken objects with their exact sorted distinct issue lists |
| `AlertState.StreamIsWellFormed` | internal/alertstate/alertstate.go:133-173 | Each object's stream is any number of episodes "new, then changed or repeat any number of times, then resolved", the last episode possibly open |
| `AlertState.NoFalseRecovery` | internal/alertstate/alertstate.go:157-173 | A resolved is sent exactly when no issue of the object is active; a firing carries the exact issue list |
| `AlertState.FiringSinceIsEpisodeMinimum` | internal/alertstate/alertstate.go:116-155 | Within an open episode firingSince is the minimum start over all records seen since it opened |
| `AlertState.FiringSinceOnlyMovesEarlier` | internal/alertstate/alertstate.go:133-173 | firingSince never moves later, and notifications carry it |
| `AlertState.LastSentIsWitnessed` | internal/alertstate/alertstate.go:133-156 | After each Roll an open alert's last send is less than Repeat old, and a firing with its current issues was really sent then |
| `AlertState.RecentlyTold` | internal/alertstate/alertstate.go:133-156 | After each Roll every broken object's exact current issue list was sent less than Repeat ago |
| `AlertState.NotedExactly` | internal/alertstate/alertstate.go:133-173 | Over every run something is sent about an object at a Roll if and only if it broke, it recovered, its issue list changed, or it stayed broken and the latest note about it is at least Repeat old: otherwise there is silence |
| `AlertState.NoteSaysWhatIsSo` | internal/alertstate/alertstate.go:114-184 | Every note carries the right reason (new iff not broken before, changed iff the issues differ, else repeat), the right status, the exact issue list, flapping iff some active record flaps, and the time of recovery iff recovered |
| `AlertSink.StepKeepsInv` | internal/alert/sink.go:119-263 | Every step of every caller and of the sender keeps the sink's invariant |
| `AlertSink.RunKeepsInv` | internal/alert/sink.go:119-263 | So does every interleaving |
| `AlertSink.NothingIsLost` | internal/alert/sink.go:157-172 | In every interleaving each accepted notification was taken by the sender, dropped, refused, is queued, or is in a caller's hands; the queue never exceeds 64 |
| `AlertSink.CountersAddUp` | internal/alert/sink.go:175-263 | The same conservation in the published counters: accepted = delivered OK + delivered failed + dropped-queue-full + queued + in flight + still with callers |
| `AlertSink.AnswersDecide` | internal/alert/sink.go:190-227 | On every schedule a recorded delivery is ok iff its last POST was accepted, exhausted iff all its attempts were used up and each failed retryably, and a rejection is the last POST of its delivery |
| `AlertSink.CountersFollowAnswers` | internal/alert/sink.go:246-263 | Each published counter is the number of finished deliveries that its kind and POST answers put there |
| `AlertSink.DeliveryFollowsInsertion` | internal/alert/sink.go:119-138 | Delivery order is a subsequence of insertion order, each delivery is recorded exactly once, attempts are bounded |
| `AlertSink.SingleCallerKeepsNewest` | internal/alert/sink.go:157-172 | With at most one caller the newest notification is never the one dropped, on any schedule |
| `AlertSink.TwoCallersCanDropNewest` | internal/alert/sink.go:157-172 | For every number of callers from two on, a schedule on which the newest one is dropped |
| `AlertSink.NewestDroppedIff` | internal/alert/sink.go:157-172 | Some schedule drops the newest notification if and only if there are at least two callers |
| `Scope.ScopeSet.Seed` | internal/investigate/scope.go:28-40 | Adds exactly each workload, its pods and their nodes |
| `Scope.ScopeSet.Add` | internal/investigate/scope.go:59-61 | Adds exactly one normalized key |
| `Scope.NormKindIdempotent` | internal/investigate/scope.go:65-71 | Normalizing a kind twice is normalizing it once, so a checked kind is the described kind |
| `Scope.NormKindExact` | internal/investigate/scope.go:65-71 | The kind looked up is the text without surrounding blanks in lower case, with the long claim kind shortened |
| `Scope.SeedsHold` | internal/investigate/scope.go:28-40 | The seeds are exactly the workloads, their pods and the nodes those pods name |
| `Scope.EdgeExact` | internal/investigate/reader.go:352-445 | An edge is exactly an owner reference, the node, a mounted claim or a selecting service of the pod as it was read |
| `Scope.GetRelated` | internal/investigate/reader.go:352-445 | Grows the scope by exactly the edges of the pod that was read, and only when the pod is in scope and the read succeeded |
| `Scope.Run` | internal/investigate/reader.go:92-105 | One executed call against the mutable scope does what the call's effect says |
| `Scope.ExecuteIsSafe` | internal/investigate/reader.go:92-152 | The scope only grows, a refused or failed call leaves it alone, and what a call reads was in scope before the call |
| `Scope.ExecuteGrows` | internal/investigate/reader.go:352-445 | A call adds to the scope exactly what it resolves, at its own moment, from a pod in scope |
| `Scope.ScopeIsReached` | internal/investigate/reader.go:352-445 | After n calls the scope holds exactly the seeds and what the executed relation calls resolved, each from a pod that was in scope when the call was made |
| `Scope.ScopeOnlyGrows` | internal/investigate/scope.go:59-61 | Over every call sequence the scope only grows |
| `Scope.EveryReadWasReached` | internal/investigate/reader.go:455-465 | Every object described, every pod whose log is classified or whose relations are read, had been reached from the seeds by the calls before; events are listed only for the name of such an object |
| `Investigation.RunBatch` | internal/investigate/investigate.go:67-81 | The results answer a reply's calls one for one in order, refusals past the budget included |
| `Investigation.RunLoop` | internal/investigate/investigate.go:56-94 | For every conversation: ends within six exchanges and seven round trips, the trail is exactly the executed calls in order, and a conclude round trip is made exactly when a bound was hit |
| `Investigation.RunIsBounded` | internal/investigate/investigate.go:56-94 | At most eight calls are executed and they are the first eight requested; every result carries its call's id; every read of the run had been reached from the seeds by the calls before it |
| `Hypotheses.ClassifyExact` | internal/hypothesis/decide.go:200-230 | Confirmed iff some pull event shows a connection literal; refuted iff some shows an image literal and none a connection or auth literal |
| `Hypotheses.KeyTextInjective` | internal/hypothesis/hypothesis.go:20-28 | The three kinds of failed-read keys never share a key text, so tagging a key by kind loses nothing |
| `Hypotheses.NodeRuleExact` | internal/hypothesis/decide.go:35-66 | A node read confirms its candidate iff it has no Ready condition or the first one is False or Unknown; it refutes it iff the first is True and the cause's last parenthesis is not a heartbeat reason |
| `Hypotheses.ClaimRuleExact` | internal/hypothesis/decide.go:71-93 | A claim read refutes its candidate iff it is Bound and confirms it iff it is Pending or Lost |
| `Hypotheses.PullPodExact` | internal/hypothesis/decide.go:138-146 | The pulling pod is the one that the first pull finding names, and there is none without such a finding |
| `Hypotheses.EventsPodExact` | internal/hypothesis/decide.go:148-169 | The pod whose events are read is the one the first finding names, else the workload |
| `Hypotheses.GroupsShareExactly` | internal/hypothesis/shared.go:15-45 | Two candidates get one group key iff they are about one node, one registry host, one storage class with one reason, or one claim whose class is not to blame |
| `Hypotheses.Decide` | internal/hypothesis/hypothesis.go:62-96 | One decision per open candidate in trace order; the row is decided by the first confirmed, else the first unverified one, and carries its cause, outcome and evidence |
| `Hypotheses.GroupIffConfirmed` | internal/hypothesis/shared.go:15-33 | A row has a non-empty group key iff it is confirmed, and stays undecided iff every candidate was refuted |
| `Hypotheses.Shared` | internal/hypothesis/shared.go:58-106 | The lines are those of the groups of two or more, largest first, cut after four, where a group's size is the number of confirmed rows with its key |
| `Hypotheses.GroupsCountConfirmed` | internal/hypothesis/shared.go:63-81 | For rows decided by the rules the group sizes add up to the confirmed rows |
| `Hypotheses.GroupingUnique` | internal/hypothesis/shared.go:85-90 | The groups do not depend on how ties are sorted |
| `Hypotheses.LargestFirst` | internal/hypothesis/shared.go:85-90 | Larger groups come first, equally large ones by key |
| `Evidence.FlaggedScope` | internal/investigate/gather.go:31-43 | The first ten flagged workloads in report order |
| `Evidence.CapContent` | internal/investigate/gather.go:186-195 | Short content is unchanged; long content keeps whole lines within the cap and is marked |
| `Evidence.ReadKeepsExact` | internal/investigate/gather.go:175-181 | A read the cache cannot answer keeps the cache exact: trail and budget count the reads, the maps hold exactly what reads returned, nothing is fetched twice |
| `Evidence.DescribeCandidates` | internal/investigate/gather.go:96-143 | Every open node or claim candidate gets its object's section, the very one first rendered when the object was read before, unless the budget was spent before the object was ever read |
| `Evidence.ClassifyLogs` | internal/investigate/gather.go:145-164 | Every crash finding's log is classified once, unless the budget is spent |
| `Evidence.GatherOne` | internal/investigate/gather.go:75-166 | A workload's evidence is the concatenation of distinct sections: its own reads, all of them, and reused describes |
| `Evidence.Gather` | internal/investigate/gather.go:61-168 | Some run of at most eight reads, each in the trail, explains the cache and every scoped workload's evidence |
| `Evidence.NodeVerdictIsFresh` | internal/hypothesis/decide.go:35-66 | A node candidate is judged by the one read of its node in this run; a failed or missing read makes it unverified with that reason |
| `Evidence.ClaimVerdictIsFresh` | internal/hypothesis/decide.go:71-93 | The same for a claim, given namespaces without slashes |
| `Evidence.VerdictIsBacked` | internal/hypothesis/decide.go:19-29 | A candidate is confirmed or refuted only if its own object was fetched successfully in this run |
| `Evidence.RowIsBacked` | internal/hypothesis/hypothesis.go:62-82 | So every decision of a row that is not unverified rests on such a read |
| `Evidence.CandidateExact` | internal/hypothesis/decide.go:19-93 | A candidate is confirmed, or refuted, if and only if a read of this run shows what its rule asks for: the node's Ready condition, the claim's phase, or the latest events got for the pulling pod |
| `Evidence.RowExact` | internal/hypothesis/hypothesis.go:62-96 | A row is confirmed iff some open candidate is confirmed by a read, carries the cause of the first such, and stays undecided iff every open candidate is refuted by one |
| `Evidence.GatheredRowsSay` | internal/investigate/gather.go:61-168 | Composed with the gather: for every scoped workload, the reads of one run of at most eight decide its row in that way |
| `Evidence.WriteCandidates` | internal/investigate/prime.go:80-104 | Each of the first eight candidates is printed with its own decision: the cursor over the decisions stays aligned with the trace |
| `Capacity.ClassifyNodes` | internal/capacity/capacity.go:153-181 | Usable nodes with the summed requests of their live pods, excluded nodes with the first reason that applies, both sorted |
| `Capacity.IncludedExact` | internal/capacity/capacity.go:184-209 | A node counts iff its first Ready condition is True, it is schedulable and no taint keeps new pods off; the excluded ones carry the first reason that applies |
| `Capacity.RequestsAreSums` | internal/capacity/capacity.go:212-218 | A pod's requests are the sums over all its containers |
| `Capacity.RequestsAdd` | internal/capacity/capacity.go:212-218 | Requests are additive over containers |
| `Capacity.LargestNode` | internal/capacity/nodeloss.go:91-99 | Maximal allocatable CPU, ties by name |
| `Capacity.PlaceOne` | internal/capacity/nodeloss.go:66-75 | Takes the pod's requests from the first slot it fits in, in place, and from no other |
| `Capacity.PlaceAll` | internal/capacity/nodeloss.go:64-85 | The nested loops compute first-fit |
| `Capacity.PackIsSound` | internal/capacity/nodeloss.go:64-85 | What first-fit placed has an assignment that overdraws no slot, and the pod it stopped at fits no residual slot |
| `Capacity.NodeLoss` | internal/capacity/nodeloss.go:20-87 | The victim is the largest node; the report is first-fit over its pods, largest first; what was placed has an assignment within free capacity; on failure the blocker fits no residual slot |
| `Capacity.FitsIsConstructive` | internal/capacity/nodeloss.go:64-87 | Fits yields an assignment of all evictees to surviving nodes after which no node's requests exceed the larger of its allocatable and what it had before |
| `Capacity.FitsOnNodes` | internal/capacity/capacity.go:153-181 | The same over the cluster: each survivor is a usable node, counted with the live pods actually bound to it |
| `Capacity.FitsOverContainers` | internal/capacity/nodeloss.go:64-87 | The same over containers: on each survivor the containers of the live pods bound or moved to it request in total at most the larger of its allocatable and what was requested before |
| `Capacity.PlacedInIs` | internal/capacity/nodeloss.go:64-75 | The pods moved to a survivor are the evictees assigned to its slot |
| `Capacity.EvictionOrder` | internal/capacity/nodeloss.go:40-62 | Evicted are exactly the live pods of the victim that no DaemonSet owns, most CPU first, then most memory, then by namespace and name |
| `Capacity.FirstFitCanMiss` | internal/capacity/nodeloss.go:64-85 | First-fit can fail although an assignment exists, on any number of survivors from two on |
| `Capacity.FirstFitMissesIff` | internal/capacity/nodeloss.go:11-20 | On some n slots first-fit over decreasing pods misses an assignment if and only if n is at least two |
| `Capacity.NodeLossMissesIff` | internal/capacity/nodeloss.go:11-87 | Some cluster of nodes and pods with n survivors gets a failed report although its pods do fit, if and only if n is at least two |
| `Capacity.OneSlotExact` | internal/capacity/nodeloss.go:11-20 | With at most one survivor first-fit places everything iff some assignment does |
| `Capacity.TooBigRefutes` | internal/capacity/nodeloss.go:11-20 | A pod that no slot could hold even when empty refutes every assignment |
| `Capacity.FailureRefutes` | internal/capacity/nodeloss.go:76-83 | A failed report refutes every assignment when its blocker is too big for every survivor or at most one node survives |
| `Capacity.NodeLossUnique` | internal/capacity/nodeloss.go:47-62 | With distinct pods the report, its blocker included, is a function of the inputs |
| `Inventory.PodOwners` | internal/inventory/inventory.go:376-424 | The owner table is exactly the roll-up rule, pod by pod |
| `Inventory.OwnerRule` | internal/inventory/inventory.go:376-424 | A pod without owner references stands for itself; any other belongs where its reference leads: to the Deployment behind a ReplicaSet, to the known CronJob behind a Job, else to what is named |
| `Basics.ControllerOwnerExact` | internal/inventory/inventory.go:146-156 | The reference that counts is the first controller, else the first one |
| `Inventory.Assemble` | internal/inventory/inventory.go:429-532 | Exactly the finished workloads, each once, in order |
| `Inventory.AssemblyUnique` | internal/inventory/inventory.go:510-532 | The report is the same whatever order the map was ranged in |
| `Inventory.AssembledInOrder` | internal/inventory/inventory.go:536-551 | Flagged workloads first, then by namespace, name and kind |
| `Inventory.RollAtExact` | internal/inventory/inventory.go:479-500 | A rolled-up workload holds exactly the rows of the pods of its key, in pod order, and the sum of their restarts |
| `Inventory.FinishedRows` | internal/inventory/inventory.go:521-524 | A finished workload shows those rows, all of them or the first three of a job-like one, and counts the rest as omitted |
| `Inventory.RollUpConserves` | internal/inventory/inventory.go:429-532 | Rows plus omitted rows over all workloads equal the pods; workload restarts add up to pod restarts |
| `Inventory.PodLandsOnOwner` | internal/inventory/inventory.go:376-424 | Every pod is counted on exactly the workload that the owner rule names |
| `Inventory.FindingsFollowPods` | internal/inventory/inventory.go:502-508 | A finding that names a pod of the snapshot is on that pod's workload and no other, and flags it |
| `Inventory.FlaggedExact` | internal/inventory/inventory.go:429-532 | An assembled workload needs attention iff a finding hit it, its controller is short of ready pods or failed, or, without a controller, it finished with a failure or has not finished and some pod is not ready |
| `Inventory.ControllerCounts` | internal/inventory/inventory.go:429-455 | A controller seeds its own key with its replicas, one when unset, and its ready count |
| `Inventory.Prioritize` | internal/inventory/inventory.go:598-647 | Shown workloads in order, with exact counts of hidden and healthy ones |
| `Inventory.FatesExact` | internal/inventory/inventory.go:598-647 | What is shown, with which priority, and what each hidden count counts, class by class and option by option |
| `Inventory.PrioritizeConserves` | internal/inventory/inventory.go:598-647 | Every flagged workload is shown under every option; shown + hidden restarts + hidden cron + quiet = all |
| `Inventory.PrioritizedInOrder` | internal/inventory/inventory.go:633-645 | By priority, then by namespace, name and kind |
| `Gate.Flatten` | internal/findings/findings.go:166-228 | The stable sort of the workloads' findings followed by the unexpected rows |
| `Gate.Decide` | internal/gate/gate.go:172-242 | Failing and reported are the stable sorts of the two splits of all findings; the outcome follows timeout, unevaluated rule, blindness, failure, pass in that order |
| `Gate.VerdictPartitions` | internal/gate/gate.go:205-213 | Failing and Reported partition the finding multiset by scope and level |
| `Gate.VerdictInOrder` | internal/findings/findings.go:314-333 | Both lists go by level, highest first, then by namespace, kind, name and issue |
| `Gate.WaivingOnlyResolvesBlindness` | internal/gate/gate.go:187-198 | Extending waivers leaves the Failing and Reported lists as they are and changes only verdicts that were inconclusive |
| `Gate.RaisingFailOnShrinks` | internal/gate/gate.go:205-242 | Raising FailOn keeps of Failing exactly what still reaches the level, in order, and never spoils a pass |
| `Gate.PassIffClean` | internal/gate/gate.go:205-242 | A gate passes iff it settled, every failed read is waived and nothing in scope reaches the level |
| `Gate.OutcomeExact` | internal/gate/gate.go:217-242 | Each outcome and its exit code, by what was seen: the timeout, a failing rule that never ran, an unwaived failed read, a failing finding |
| `Gate.ScopedGatePassIff` | internal/gate/gate.go:118-140 | A gate waiting on one workload passes iff that workload is not flagged, no row is about it and every read succeeded, whatever else is in the cluster |
| `Gate.WorkloadFindingsSay` | internal/findings/findings.go:98-122 | A detector match becomes a critical finding about its pod, a flagged workload without one a warning about itself, both owned by the workload |
| `Gate.UnevaluatedRuleFails` | internal/gate/gate.go:118-140 | A policy rule that never ran, at or above the level, fails every settled gate whatever is waived or scoped |
| `Gate.CleanClusterIffPass` | internal/gate/gate.go:172-242 | A cluster-wide gate at warning passes iff no workload is flagged, no other row is unexpected and every read succeeded |
| `Gate.CleanSnapshotIffPass` | internal/gate/gate.go:172-242 | Composed with assembly and prioritizing: under every report option that gate passes iff no assembled workload is flagged, no other row is unexpected and every read succeeded |
| `Correlation.Correlate` | internal/fleet/correlate.go:56-112 | Every signal with enough clusters, each once, in order |
| `Correlation.CorrelationIsExact` | internal/fleet/correlate.go:56-112 | With distinct ids a signal has an entry iff at least two clusters showed it, listing exactly those clusters, sorted |
| `Correlation.CorrelationInOrder` | internal/fleet/correlate.go:56-112 | Issues come before blind spots, then the more widespread first, then by signal |
| `Correlation.CorrelationOrderFree` | internal/fleet/correlate.go:56-112 | The result is the same for every permutation of the evidence and every map order |
| `Fleet.Summarize` | internal/fleet/summarize.go:41-73 | A judged cluster's row and evidence, by its own gate |
| `Fleet.SummaryCounts` | internal/fleet/summarize.go:41-73 | A row counts every finding once under its level and every failed read |
| `Fleet.RowIdentity` | internal/fleet/fleet.go:204-253 | A row is known by its target's name, else by its context; the context it shows is the target's, else the name, and a name it shows never repeats it |
| `Fleet.PickTop` | internal/fleet/summarize.go:78-98 | The top issues do not depend on map order |
| `Fleet.TopIssuesUnique` | internal/fleet/summarize.go:78-98 | Any sorted listing of the issue kinds of a permutation of the findings is the same list |
| `Fleet.TopIssuesAreTop` | internal/fleet/summarize.go:78-98 | At most three of the kinds that occur, each once, most frequent first, and no kind left out outranks one of them |
| `Fleet.Sweep` | internal/fleet/fleet.go:204-253 | The fold gives one row per judged target, one per unreachable target, the correlation of the judged ones, all sorted, and the fleet verdict |
| `Fleet.FleetIsWorstVisit` | internal/fleet/summarize.go:156-173 | The verdict is the worst of any target (pass < fail < inconclusive), an unreachable one counting as inconclusive; a verdict other than pass is some target's own |
| `Fleet.WorstFirst` | internal/fleet/summarize.go:102-152 | The rows list the worst clusters first: by verdict, then by critical, warning and info counts, then by identity |
| `Fleet.FleetPassesIffAllPass` | internal/fleet/summarize.go:156-173 | A fleet passes iff every target was reached and its own gate passed |
| `Fleet.MoreTargetsNeverImprove` | internal/fleet/summarize.go:156-173 | Adding targets never improves the verdict |
| `Fleet.SweepOrderFree` | internal/fleet/fleet.go:204-253 | With distinct row identities the whole report is independent of target order |
| `Baseline.Rates` | internal/baseline/baseline.go:192-230 | One entry per workload with a counted pod, holding its pooled rate, sorted |
| `Baseline.RatesUnique` | internal/baseline/baseline.go:192-230 | Independent of map order |
| `Baseline.RateExact` | internal/baseline/baseline.go:192-253 | An entry's rate is all restarts of its counted pods per hour of their summed age, and its pods and age are those of exactly these pods |
| `Baseline.PooledRateIsBetween` | internal/baseline/baseline.go:192-253 | A workload's pooled rate lies between the rates of two of its counted pods |
| `Baseline.Capture` | internal/baseline/baseline.go:118-132 | The captured entries are the rates under the clamped minimum age |
| `Baseline.Compare` | internal/baseline/baseline.go:137-183 | Deviations and counts as specified, judged with the document's minimum age and the options in force |
| `Baseline.DeviationsExact` | internal/baseline/baseline.go:137-190 | A deviation is reported iff a current workload that the baseline knows reaches both thresholds against it |
| `Baseline.CaptureThenCompare` | internal/baseline/baseline.go:118-183 | Comparing a cluster with its own capture reports no deviation, nothing new, nothing gone |
| `Baseline.CountsBalance` | internal/baseline/baseline.go:137-183 | Compared + NotInBaseline and Compared + GoneFromCluster are the two workload counts |
| `Baseline.RaisingThresholds` | internal/baseline/baseline.go:137-190 | For the two-threshold rule over all rate pairs: options in force are stricter iff the floor does not fall and the factor does not fall, unless the lower factor is at most 1 |
| `Baseline.RaisingShrinksReports` | internal/baseline/baseline.go:137-190 | For reports: over every document with non-negative rates and every cluster, one pair of options reports a sub-multiset of what the other reports if and only if that condition holds |
| `Baseline.RaisingFromDefaultCanAdd` | internal/baseline/baseline.go:137-150 | A document, a cluster and two reports: raising Factor from 0, which stands for 3, to 2 adds a deviation |
| `Baseline.StricterReportsLess` | internal/baseline/baseline.go:137-183 | Stricter options report a sub-multiset of the deviations |
| `Normalize.Normalize` | internal/cli/normalize.go:31-65 | The loop respells exactly the arguments that its own tracking reads as long flags |
| `Normalize.RewritesExact` | internal/cli/normalize.go:31-65 | Read off the text alone: an argument gains a dash iff it is a registered long flag with one dash, an even number of value-taking flags in a row stands right before it, and no `--` with an even number before it comes earlier |
| `Normalize.NormalizePreservesReading` | internal/cli/normalize.go:31-65 | For every line and every set of value-taking shorthands: pflag reads from the normalized line what the original was meant to say if and only if the tracking of long-flag values stays in step with the values shorthands consume |
| `Normalize.NormalizeIdempotent` | internal/cli/normalize.go:31-65 | Normalizing twice is normalizing once, for every lookup |
| `Normalize.OnlyLongFlagsChange` | internal/cli/normalize.go:38-62 | Only single-dash registered long flags in flag position change, by one dash |
| `Normalize.TerminatorFreezesRest` | internal/cli/normalize.go:44-46 | Everything from a flag-position `--` on is untouched |
| `Normalize.StdlibReadingPreserved` | internal/cli/normalize.go:5-9 | pflag reads from the normalized line what the standard library, which stops at the first positional, reads from the original if and only if the tracking stays in step and nothing after the first positional looks like a flag |
| `Normalize.PlainValuesPreserveReading` | internal/cli/normalize.go:11-16 | It is preserved on every line on which no argument consumed by a shorthand is `--`, a single-dash registered long flag or a long flag that takes a value |
| `Normalize.ShorthandValueRewritten` | internal/cli/normalize.go:47-56 | A shorthand's value that spells a registered long flag with one dash is rewritten, as in `-n -explain` |
| `Normalize.ConsumedTerminatorFreezes` | internal/cli/normalize.go:44-46 | A `--` that a shorthand consumes ends the rewriting, as in `-n -- -output` |
| `Wrap.WrapProse` | internal/cli/knownissues.go:101-120 | The lines render a layout of exactly the text's words in which each line fits the width or holds one word, and no such layout has fewer lines |
| `Wrap.PrintedLinesFit` | internal/cli/knownissues.go:92-120 | In terms of the printed lines, prefix included: none is longer than the width unless it holds a single word |
| `Wrap.GreedyIsOptimal` | internal/cli/knownissues.go:101-120 | No other such layout of the same words has fewer lines |
| `Wrap.NeverBehind` | internal/cli/knownissues.go:101-120 | After any number of lines the greedy layout has consumed at least as many words as any other |
| `Wrap.WrappingKeepsWords` | internal/cli/knownissues.go:101-120 | With blank prefixes, splitting the printed block gives the words of the text |

## Left out

- Kubernetes, model and HTTP I/O: API answers, model replies and delivery outcomes are oracles; contexts, timeouts and cancellation appear only as such outcomes.
- Text, HTML and dashboard rendering, prompt prose, known-issue content; command wiring, flag binding and environment handling of the command line.
- `internal/redact`, `internal/safetext`, `internal/policy`, `internal/scan` evaluation, `internal/watchstate` and `internal/remediate`: their outputs are arbitrary inputs here.
- Detectors and classifiers decided by one branch (`hpahealth`, `batchhealth`, `nodehealth`, most of `diagnose`): a reading of the branch settles them.
- IEEE float rounding, NaN and infinities in `internal/baseline`: rates and ages are reals. Integer overflow of quantities and counters: integers are unbounded.
- Unicode case folding and Unicode white space: folding covers ASCII and spaces are the ASCII and Latin-1 ones.
- Error texts: a failing operation returns no value; only the failed-read messages that the rules quote are kept.
- Struct-tag parsing, the `string` and `omitzero` tag options, and encoders of map keys: a field carries its parsed name and omitempty option.
- Overrides with keywords other than `type` and `enum`, and type keys that need escaping in a JSON pointer: a reference is the key itself.
- JSON text of the schema document (`$schema`, `$id`, `title`, descriptions, `$comment`, `contentEncoding`, indentation): annotations that no validation result depends on.
- Scope.EveryReadWasReached: whole-namespace lists made by the service relation and by the service description are not accesses to single objects and are not covered.
- Investigation.RunLoop: the result text sent back to the model is reduced to the call id and the error flag; a label's arguments are those of the decoded call.
- Evidence.WriteCandidates: the heading's confidence suffix and the candidate's verdict and reason text are not part of the lines.
- Hypotheses.Shared: lines are records of size and text rather than formatted strings.
- Inventory.Assemble: pod display state, ages, last-restart times and container readiness text are not part of a row.
- Gate.Flatten: the per-class issue names and reasons of the scan classes other than workloads arrive already mapped in a row.
- AlertSink.StepKeepsInv: request bodies, log lines and the length of a backoff are not modelled; an attempt is accepted, rejected for good, or fails and may be retried.
- Capacity.NodeLoss: the formatted CPU text of the blocker is not part of the report.
- SchemaSoundness.DocumentExact: assumes distinct type keys and distinct JSON names within a struct; how encoding/json settles conflicting names is not modelled.
- Inventory.PodLandsOnOwner: assumes distinct pods, and kinds and namespaces without slashes, as the API server guarantees them.
- Hypotheses.GroupsShareExactly: assumes namespaces without slashes, as do Evidence.CandidateExact and Evidence.GatheredRowsSay.
- Gate.ScopedGatePassIff: assumes what the cluster guarantees of names: kinds and namespaces without slashes, named workloads and rows, findings about pods of the workload's namespace; a scope of kind Pod is left to PassIffClean.
- Inventory.ControllerCounts: assumes that no other controller has the same kind, namespace and name.
- SchemaSoundness.ShapeIsEncoded: types that hold structs are left to ShapeExact, because a schema admits members a struct does not have and encoding/json writes none.
- Normalize.StdlibReadingPreserved: both parsers are given the same shorthands; the standard library's two-dash spelling of a one-letter flag, and parse errors, are not modelled.
- Gate.CleanSnapshotIffPass: passes between assembly and prioritizing that add workload-level findings are not part of the composition.
