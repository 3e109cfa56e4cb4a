# ThreatLens monitoring engine: a verified model

A Dafny model of the stateful core of ThreatLens, a Windows host monitor, with proofs of what that core
promises. `dafny verify dfyconfig.toml` checks everything.

The monitor observes processes, sockets, autostart entries and files by polling, turns what it sees into
events on a bounded bus, keeps an in-memory picture of the host, runs detection rules over the events, and
scores what the rules find into alerts. Each of these parts is an incremental form (a bounded cache, a
sliding window, a diff, a pruned map, a drop-oldest queue) of something with a simple meaning over the
whole history; the proofs connect the two, for every input and every run.

- **Process lineage** (`ProcessTree`, `ProcessNetwork`): the forest rebuilt from PID and parent PID shows
  every process exactly once although links may be stale, reused or cyclic; parents and socket owners
  are the true ones in any history in which instances of a PID do not overlap.
- **Scoring and alerts** (`Scoring`, `ScoreMeaning`, `ScoreFalls`, `SeverityBands`, `Alerting`, `ShippedRules`):
  what evidence is worth, when more of it can lower a score, and when the stored alerts are those of the
  retained evidence, the last two with exact conditions that the rules in the repository meet.
- **Host state** (`SystemState`, `LruCache`): the pruned tables refine a ledger of what was seen and when.
- **Event pipeline** (`Channels`, `EventPipeline`, `EventBus`, `DatabaseWriter`, `EnrichmentQueue`,
  `TaskRunner`): every block under a lock is one step, and the invariants hold over all interleavings.
- **Detection** (`DetectionEngine`, `NetworkBurst`, `Deferral`): de-duplication, rule isolation, the sliding
  window of NET-003 and connections waiting for a signature.
- **Monitors** (`ProcessMonitor`, `NetworkMonitor`, `PersistenceMonitor`, `FileMonitor`), **PID lookup**
  (`PidResolver`) and the **kernel buffer walk** (`ProcessBuffer`).

Where the source changes an object step by step, the model is a class whose methods have the effect of a
function on its state, and the theorems are about runs of those functions. Times are whole microseconds;
process and connection keys are tuples; scores are exact rationals (`real`).

Next to the theorems about runs stand theorems that say what each decision means in terms of the raw fields
and numbers, without the functions that make it. `ProcessModels`, `NetworkModels` and `Collections` hold what
several modules share.

Where the code and its documentation differ, the model follows the code:

- `diff_snapshots` says that ordering by creation time puts parents before children. At equal times the
  smaller PID comes first, and an unknown time counts as 0 (`ProcessMonitor.ParentFirstExactlyWhenOlder`,
  `ProcessMonitor.ChildCanComeFirst`).
- `EventBus.stop` says it returns `True` if every queued event was dispatched. It returns whether the queue
  is empty, and the last event may still be in its handlers (`EventPipeline.StopReturnsTheTruthExactlyWhen`,
  `EventPipeline.DrainedIsNotEnough`). When the writer can be told to stop without losing events unseen
  is stated by `EventPipeline.AccountedExactlyWhenClear`. If the database does not open, the events still
  in the writer's queue at the end are lost uncounted (`EventPipeline.UnopenedDatabaseLosesEvents`).
- The watchdog is said to flag a run that has exceeded its timeout. It acts on a start it read earlier, so it
  can flag a runner whose run has ended (`TaskRunner.TimedOutWithoutARun`) or the next, healthy run
  (`TaskRunner.TimedOutOnAHealthyRun`); `TaskRunner.HonestExactlyWhenTimely` says exactly when it does not.
- A score can fall when a rule's new top detection counts for less than the one it displaces, is in another
  category, or is LOW where that one was not (`Scoring.IncompatibleRuleLowersScore`,
  `ScoreFalls.NeverLowersExactlyWhen`); the rules in the repository do none of these
  (`ShippedRules.ShippedRulesAreCompatible`). When the score of an alerted subject does fall below the
  threshold, the old alert is left standing (`Alerting.UndisciplinedRuleLeavesStaleAlert`,
  `Alerting.AgreesExactlyUnlessDropped`).

- An independent category is described as a bonus of 5. Because the sum is rounded to the even neighbour of a
  tie, the score can also move by 4 or 6 (`ScoreMeaning.CorroborationIsWorthFive`,
  `ScoreMeaning.CorroborationAtATie`).

## Model

| member | source | states |
|---|---|---|
| ProcessModels.KeyMeaning | src/threatlens/core/models/process.py:45-53 | the key of a process is its PID with the whole millisecond of its creation time, truncated towards the epoch, 0 when unknown |
| ProcessModels.SameKeyExactlyWhen | src/threatlens/core/models/process.py:45-53 | two records are the same process instance exactly when the PIDs agree and the creation times fall in the same millisecond, unknown counting as the epoch |
| ProcessModels.ApartMeansDifferent | src/threatlens/core/models/process.py:45-53 | a reused PID is told apart when both creation times are known, after the epoch as collected times are, and at least a millisecond apart |
| ProcessModels.ByPidHoldsTheLast | src/threatlens/core/models/process.py:124-125 | the PID index leads to the last process listed with a PID |
| ProcessModels.ByKeyHoldsTheLast | src/threatlens/core/models/process.py:121-122 | the key index leads to the last process listed with a key |
| ProcessTree.SelectParentIsLatest | src/threatlens/correlation/process_tree.py:30-50 | nobody is selected for a child naming no PID, PID 0 or its own; otherwise nobody exactly when every candidate holding the PID is known to be younger, and whoever is selected holds it, is not known to be younger, and began last among those, an unknown time counting as 0 |
| ProcessTree.VerifiedParentExactlyWhen | src/threatlens/correlation/process_tree.py:53-58 | the verified parent of a process is the last process listed with the PID it names, unless that is 0, its own, or held by one known to be younger |
| ProcessTree.Ancestry | src/threatlens/correlation/process_tree.py:61-75 | the loop returns the walk along verified parents that repeats nobody and stops only at a root, a repetition or the limit |
| ProcessTree.AncestryUnique | src/threatlens/correlation/process_tree.py:61-75 | what the loop promises about its result fixes that result |
| ProcessTree.AncestryDecidesDepth | src/threatlens/correlation/process_tree.py:61-75 | with room for every indexed process, the walk ends at the genuine root exactly when the ancestry is free of cycles |
| ProcessTree.BeyondDepth | src/threatlens/correlation/process_tree.py:138-146 | true exactly when the verified ancestry ends at a genuine root after at least max_depth links |
| ProcessTree.TreeBuilder.Build | src/threatlens/correlation/process_tree.py:114-123 | one recursive build places a process and all its not yet placed descendants above the cap, marks exactly those as reached, and terminates although the links may be cyclic |
| ProcessTree.FileChildren | src/threatlens/correlation/process_tree.py:99-109 | the first loop files every process under its verified parent, in list order, and collects the parentless ones |
| ProcessTree.BuildProcessTree | src/threatlens/correlation/process_tree.py:90-135 | the forest holds nobody twice, every edge joins a child to its verified parent, siblings and roots stand in creation order, and whoever is missing lies beyond the depth cap below a genuine root |
| ProcessTree.RootedIsPlaced | src/threatlens/correlation/process_tree.py:125-128 | after the pass over the roots every process whose ancestry ends at a genuine root within the cap is in the forest |
| ProcessTree.ShownExactlyOnce | src/threatlens/correlation/process_tree.py:90-146 | for any list with distinct keys each process is shown exactly once, except those beyond the cap below a genuine root, which are shown zero times |
| ProcessTree.HangsUnderItsNamedParent | src/threatlens/correlation/process_tree.py:90-146 | a process stands below another only if that is its verified parent; if it is shown and its ancestry has no cycle it does stand there, and it is at the top exactly without one, marked unverified exactly when it does name a PID |
| ProcessTree.SystemParentsItsChildren | src/threatlens/correlation/process_tree.py:41-46 | a process of unknown creation time that names no parent, as System does, is shown with every child that names it |
| ProcessNetwork.AttributeVerdicts | src/threatlens/correlation/process_network.py:43-72 | PID 0 owns nothing; PID 4 is the kernel, named by the first candidate; else unattributed exactly without candidates, reuse-suspected exactly when all are known to be more than a second younger than the socket, and else attributed to the one that began last among the others |
| ProcessNetwork.NeverBlamesYounger | src/threatlens/correlation/process_network.py:43-72 | no process known to be created more than a second after the socket is ever blamed, PID 4 and sockets without a time aside |
| ProcessNetwork.SelectsTrueCreator | src/threatlens/correlation/process_tree.py:30-50 | against any history in which instances of one PID never overlap, the true creator is selected exactly when it is among the candidates |
| ProcessNetwork.OtherwiseSelectsDeadInstance | src/threatlens/correlation/process_tree.py:30-50 | if the creator is not among the candidates, whatever is selected had exited before the child began |
| ProcessNetwork.AttributesTrueOwner | src/threatlens/correlation/process_network.py:43-72 | against such a history the true owner is blamed exactly when no other candidate instance of its PID began after the socket but within the tolerance |
| ProcessNetwork.OtherwiseBlamesAnother | src/threatlens/correlation/process_network.py:43-72 | without the true owner among the candidates, whoever is blamed had ended by the time of the socket or began after it within the tolerance |
| ProcessNetwork.LookupFromProcesses | src/threatlens/correlation/process_network.py:94-99 | the lookup returns the processes of a PID, in list order |
| ProcessNetwork.Correlate | src/threatlens/correlation/process_network.py:75-91 | each socket is joined with the attribution of its own candidates, in table order |
| ProcessNetwork.CorrelationNamesOwner | src/threatlens/correlation/process_network.py:75-99 | joining a socket table with a full process list names the true owner of each socket by its key, with the executable of a record of it |
| LruCache.TouchKeepsMostRecent | src/threatlens/utils/lru.py:36-41 | evicting step by step keeps exactly the most recently touched distinct keys of the whole history |
| LruCache.HeldExactlyWhenRecent | src/threatlens/utils/lru.py:26-41 | a key is held exactly when it was touched and fewer than max_entries distinct other keys were touched since |
| LruCache.BoundedLRUCache.Get | src/threatlens/utils/lru.py:26-34 | returns the stored value, counts the hit or miss, and a hit makes the key the most recent one |
| LruCache.BoundedLRUCache.Put | src/threatlens/utils/lru.py:36-41 | stores the value as the most recent one; every other entry that stays keeps its value |
| LruCache.EvictOldest | src/threatlens/utils/lru.py:40-41 | the loop drops the oldest keys down to the limit and nothing else; the two bounded tables of the rules evict in the same way |
| Scoring.DedupeKeepsHighest | src/threatlens/detection/scoring.py:48-54 | one entry per rule that fired, and it is a detection of that rule with the highest raw score |
| Scoring.DedupeHighestPerRule | src/threatlens/detection/scoring.py:48-54 | the loop over an insertion-ordered dictionary computes that list |
| Scoring.ScoreDetections | src/threatlens/detection/scoring.py:80-106 | the noisy-OR loop, the category bonus, the two caps and the sorted breakdown give Score |
| Scoring.EffectiveIsExact | src/threatlens/detection/scoring.py:57-67 | an effective contribution is a multiple of a quarter between 0 and 60, so rounding to three places is exact |
| Scoring.AddingNeverLowersScore | src/threatlens/detection/scoring.py:48-106 | if within a rule a higher raw score never carries a lower confidence, one more detection never lowers the score, despite de-duplication and both caps |
| Scoring.SafeAdditionNeverLowers | src/threatlens/detection/scoring.py:48-106 | with no hypothesis on the list: if a detection that displaces the entry of its rule is in that entry's category, counts for no less, and is LOW only where the entry was, the score does not fall; nor does it if nothing is displaced |
| ScoreFalls.FallsOnlyWhen | src/threatlens/detection/scoring.py:48-106 | whenever the score falls, the new detection has displaced an entry of its rule that it may not replace in that sense |
| ScoreFalls.NeverLowersExactlyWhen | src/threatlens/detection/scoring.py:48-106 | for a detection displacing an entry with a higher raw score: the score falls in no context whatsoever exactly when it is in the same category, counts for no less, and is LOW only where the entry was |
| ScoreFalls.LosingACategoryLowers | src/threatlens/detection/scoring.py:95-102 | for every such pair in different categories, a list in which the score falls because a category is lost |
| ScoreFalls.LosingConfidenceLowers | src/threatlens/detection/scoring.py:99-100 | for every such pair that loses the last confidence above LOW, a list in which the score falls because of the cap for all LOW |
| ScoreFalls.CountingLessLowers | src/threatlens/detection/scoring.py:90-97 | for every remaining such pair that counts for less, a list of two in which the rounded score falls |
| Scoring.IncompatibleRuleLowersScore | src/threatlens/detection/scoring.py:48-54 | a concrete pair: adding raw 40 at LOW to raw 39 at HIGH lowers the score from 39 to 20 |
| Scoring.RoundIsNearest | src/threatlens/detection/scoring.py:97-97 | the rounding used is to the nearest integer, ties to the even one |
| Scoring.ConfidenceMeaning | src/threatlens/detection/scoring.py:70-77 | HIGH exactly when two HIGH contributions have different categories; LOW exactly when there is at most one contribution and none is HIGH |
| Scoring.ScoreInRange | src/threatlens/detection/scoring.py:80-106 | the score lies in 0..100 |
| Scoring.SeriousNeedsCorroboration | src/threatlens/detection/scoring.py:96-106 | a score of 60 or more implies two distinct categories and a contribution that is not LOW |
| Scoring.OrderDoesNotMatter | src/threatlens/detection/scoring.py:48-106 | if the highest-scoring detections of each rule agree in category and confidence, score, confidence and ordered breakdown depend only on which detections there are, not on order or repetition, up to which detection id represents a tie |
| Scoring.OrderDoesNotMatterForCompatible | src/threatlens/detection/scoring.py:48-106 | in particular order does not matter under the hypothesis of Scoring.AddingNeverLowersScore |
| Scoring.OrderDoesNotMatterExactlyWhen | src/threatlens/detection/scoring.py:48-54 | order does not matter exactly when those top detections agree |
| ScoreMeaning.BreakdownMeaning | src/threatlens/detection/scoring.py:48-87 | the breakdown has one entry for each rule that fired, showing the first of its highest-scoring detections with half, three quarters or all of its raw score by confidence, strongest first and ties by rule |
| ScoreMeaning.ConfidenceOfScore | src/threatlens/detection/scoring.py:70-77 | for any detections the confidence is HIGH exactly when two HIGH entries have different categories, and LOW exactly when there is at most one entry and none is HIGH |
| ScoreMeaning.TakesItsShare | src/threatlens/detection/scoring.py:90-93 | noisy-OR: each contribution takes its percentage of what the others have left of 100 |
| ScoreMeaning.SingleDetectionScores | src/threatlens/detection/scoring.py:80-106 | one detection alone scores its raw score by its weight, to the nearest integer, a raw 60 at HIGH losing its last point to the cap |
| ScoreMeaning.CorroborationIsWorthFive | src/threatlens/detection/scoring.py:95-102 | moving one of several detections to a category of its own is worth exactly 5 points from two to three and three to four categories up to 100, nothing from four on, and from one to two also lifts the cap at 59; at a tie in rounding it is worth 4 or 6 |
| ScoreMeaning.CorroborationAtATie | src/threatlens/detection/scoring.py:96-97 | a concrete list in which a third category is worth 4 points |
| ScoreMeaning.LowCapIsThirtyNine | src/threatlens/detection/scoring.py:99-100 | contributions that are all LOW score the smaller of 39 and what they would score if one of them were not |
| ScoreMeaning.CapsKeepToTheirBands | src/threatlens/detection/scoring.py:99-102 | only LOW detections never get beyond the LOW band, and a single category never beyond MEDIUM |
| ScoreMeaning.WorkedExample | src/threatlens/detection/scoring.py:80-106 | the five detections of the worked example score 70, which is HIGH |
| SeverityBands.BandsMeaning | src/threatlens/core/models/common.py:66-71 | the bands begin at 20, 40, 60 and 80, and a higher score never has a lower band |
| Alerting.AlertManager.Handle | src/threatlens/detection/alerting.py:117-148 | the method has exactly the effect and result of the specification of handle |
| Alerting.AlertManager.SetStatus | src/threatlens/detection/alerting.py:158-166 | the search by identifier updates the status and time of the alert with that id, or reports that there is none |
| Alerting.AlertManager.EvictOldest | src/threatlens/detection/alerting.py:125-127 | the loop evicts least recently used subjects with their alerts down to max_alerts |
| Alerting.RunIsFiled | src/threatlens/detection/alerting.py:117-166 | over every run whatsoever the subjects kept are the most recent ones, and each keeps exactly its detections since it was last not among them, which are its latest without a gap |
| Alerting.FiledTogetherExactlyWhen | src/threatlens/detection/alerting.py:117-131 | over every run two retained detections are filed together exactly when both are about the same process, or about none and the same executable, or about neither and by the same rule |
| Alerting.FiledWith | src/threatlens/detection/alerting.py:117-131 | what is filed with a detection is the latest of all detections about its subject without a gap, for a process those that name it, and all of them while no more subjects have turned up than fit |
| Alerting.NewestIsFiled | src/threatlens/detection/alerting.py:117-131 | the newest detection is always among those retained |
| Alerting.AlertsShowOneSubject | src/threatlens/detection/alerting.py:41-87 | over every run each alert shows detections of one subject, strongest first, and names the process of all of them |
| Alerting.AgreesExactlyUnlessDropped | src/threatlens/detection/alerting.py:132-145 | one detection leaves its subject with an alert that matches the evidence exactly unless the subject has an alert and its score drops below the threshold; every other subject stays as it was |
| Alerting.AlertsAgreeExactlyWhenNothingDrops | src/threatlens/detection/alerting.py:117-166 | over whole runs, at every point each subject has an alert carrying the score of all its retained detections if and only if that score reaches the threshold, exactly when no step drops an alerted subject below it |
| Alerting.RunIsFaithful | src/threatlens/detection/alerting.py:117-166 | over every run in which no step does so: all of this together, and alert identifiers stay unique |
| Alerting.SafeRunIsFaithful | src/threatlens/detection/alerting.py:117-166 | in particular over every run in which each detection may replace the entry it displaces |
| Alerting.DisciplinedRunIsSafe | src/threatlens/detection/alerting.py:117-148 | rules whose category is fixed and whose confidence never drops as the score rises give such runs |
| Alerting.NothingForgotten | src/threatlens/detection/alerting.py:117-148 | while no more subjects have turned up than fit, everything ever detected about each of them is retained |
| Alerting.IdentityIsStable | src/threatlens/detection/alerting.py:41-87 | across a detection an existing alert keeps its id, creation time and status; a new one is NEW and begins with the detection; either names the process of the detection and carries the present score |
| Alerting.StatusChangeIsLocal | src/threatlens/detection/alerting.py:158-166 | a status change touches the status and update time of one alert and nothing else |
| Alerting.UndisciplinedRuleLeavesStaleAlert | src/threatlens/detection/alerting.py:132-143 | without the hypothesis on rules the store invariant fails: an alert shows 39 while its evidence scores 20 |
| ShippedRules.ShippedRulesAreCompatible | src/threatlens/detection/rules/__init__.py:33-51 | any two detections the rules can report keep to the hypothesis: within a rule the category is fixed and the confidence follows the score |
| ShippedRules.ConfidenceFollowsScore | src/threatlens/detection/rules/origin.py:187-211 | the overrides in a rule never pair a higher score with a lower confidence |
| ShippedRules.ShippedNeverLowerTheScore | src/threatlens/detection/scoring.py:48-106 | more evidence from these rules never lowers a score |
| ShippedRules.ShippedRunIsFaithful | src/threatlens/detection/alerting.py:117-166 | on every run of detections these rules can report, the stored alerts are those of the retained evidence |
| ShippedRules.ThreeReportsAreSerious | src/threatlens/detection/scoring.py:95-97 | three MEDIUM reports of different kinds, scoring 26, 19 and 22 alone, score 64 together, which is HIGH |
| ShippedRules.AloneReachesTheThreshold | src/threatlens/config.py:111-111 | of all reports the rules can make only those of PROC-005, PROC-008 and the strongest of SIG-001 reach the default alert threshold alone |
| ShippedRules.NetworkAloneNeverAlerts | src/threatlens/config.py:111-111 | however many network reports there are about a subject, without other evidence they never reach the default alert threshold |
| SystemState.RunRefines | src/threatlens/core/state.py:77-186 | under a non-decreasing clock and snapshots with distinct PIDs, the tables are those of a plain ledger of what was seen and when it went, minus expired exits; current and exited are disjoint and the PID index agrees with a scan |
| SystemState.LookupSeesResolvable | src/threatlens/core/state.py:113-119 | a lookup succeeds exactly for resolvable keys and returns the last sight of the process |
| SystemState.ResolvableAfterSnapshot | src/threatlens/core/state.py:77-88 | right after a snapshot a key is resolvable exactly when it is in it or last exited no longer ago than the retention |
| SystemState.EnrichmentVisibleWhileResolvable | src/threatlens/core/state.py:103-175 | enrichment set once stays in the host exactly as long as every snapshot since has still resolved the key; while it does, a successful lookup returns its hash and signature, its issues over those seen, and everything else as last seen; afterwards only what was last seen |
| SystemState.EventsAreKept | src/threatlens/core/state.py:204-222 | the event history of a process is its last events since it was last forgotten |
| SystemState.CandidatesAreResolvable | src/threatlens/core/state.py:127-132 | the candidates for a PID are exactly its resolvable instances, none both running and exited |
| SystemState.PidLookupIsTheHolder | src/threatlens/core/state.py:121-125 | the process found under a PID is the one current instance holding it |
| SystemState.ReusedPidIsANewProcess | src/threatlens/core/state.py:77-88 | when a snapshot shows a PID in the hands of a process created at least a millisecond apart, the former holder has exited at its time and the new one is found under the PID with nothing of what was known about the former |
| SystemState.IndexIsAlwaysLive | src/threatlens/core/state.py:86-101 | after any calls whatsoever every PID in the index leads to a current process, so the pop in observe_process cannot fail |
| SystemState.HostState.ApplyProcessSnapshot | src/threatlens/core/state.py:77-88 | the method has exactly the effect of the snapshot step |
| SystemState.HostState.Prune | src/threatlens/core/state.py:177-186 | drops exactly the exits before the cutoff and the enrichment and events of keys no longer known |
| SystemState.HostState.ObserveProcess | src/threatlens/core/state.py:90-101 | the method has exactly the effect of the observation step |
| SystemState.HostState.CandidatesForPid | src/threatlens/core/state.py:127-132 | lists every running and exited instance of a PID once, with its enrichment merged in |
| Channels.EveryItemAccounted | src/threatlens/core/event_bus.py:83-95 | every item a drop-oldest queue accepted is queued, was taken or was dropped: exactly one of these, once |
| Channels.TakenIsSubsequence | src/threatlens/core/event_bus.py:83-95 | items are taken in the order they were accepted |
| Channels.PopManyEffect | src/threatlens/storage/writer.py:133-140 | taking a batch takes the oldest items in order and loses none |
| EventPipeline.BusAccounting | src/threatlens/core/event_bus.py:83-176 | under every interleaving: the queue is the contiguous end of the accepted events and within capacity, deliveries keep publication order, accepted = dispatched + in handling + queued + overflowed, dropped = overflowed + refused, and the dispatcher returns only when stopping with an empty queue |
| EventPipeline.InvariantHolds | src/threatlens/core/event_bus.py:83-176 | the joint invariant of bus, writer and shutdown holds after every sequence of steps |
| EventPipeline.FinalDrainFindsNothing | src/threatlens/storage/writer.py:117-129 | the worker ends only when stopping and drained, so the drain in its final block never finds anything |
| EventPipeline.EveryEventAccounted | src/threatlens/storage/writer.py:95-153 | once both threads have ended, whether or not the database opened, every accepted event was attempted by the store, dropped by one of the queues, ignored by an already stopping writer, or left in the queue of a writer that never opened its database |
| EventPipeline.EndToEnd | src/threatlens/core/engine.py:260-281 | both threads ended, dispatcher joined before the writer was stopped, no failed batch: the store holds accepted events in publication order, each once, and every other accepted event is counted dropped or, if the database never opened, still queued |
| EventPipeline.AccountedExactlyWhenClear | src/threatlens/core/engine.py:267-269 | told to stop at any moment after the bus, the writer leaves every accepted event stored or counted dropped, once both threads have ended without a failed batch, exactly when at that moment the bus queue is empty, the storage handler has seen the event in flight, and the database opens or the writer queue holds no event |
| EventPipeline.AccountedIsKnownAtTheStop | src/threatlens/core/engine.py:267-269 | unless the database is still being opened, that condition is known when the writer is told to stop |
| EventPipeline.WriterQueueInTheEnd | src/threatlens/storage/writer.py:107-131 | a writer that has opened its database when told to stop ends closed with an empty queue; one that never opens it keeps the queue it was stopped with |
| EventPipeline.UnopenedDatabaseLosesEvents | src/threatlens/storage/writer.py:107-115 | a run in which the database does not open: bus drained, dispatcher joined, no errors, nothing counted dropped, and the one accepted event is never stored |
| EventPipeline.IgnoredIsWhatTheBusHeld | src/threatlens/storage/writer.py:95-98 | once both threads have ended, the events the stopping writer has ignored are exactly those the bus still held, in flight or queued, when it was told to stop |
| EventPipeline.StopPromiseExactlyWhen | src/threatlens/core/event_bus.py:119-133 | at any moment every accepted event has been dispatched or counted as overflowed exactly when the queue is empty and no event is being handled |
| EventPipeline.StopReturnsTheTruthExactlyWhen | src/threatlens/core/event_bus.py:132-133 | what stop returns says whether that holds, exactly unless the queue is empty and an event is being handled just before the answer is given |
| EventPipeline.DrainedIsNotEnough | src/threatlens/core/event_bus.py:119-133 | a run in which stop reports a drained bus, nothing is counted dropped, and the one accepted event is never stored |
| EventPipeline.DispatcherComesToAnEnd | src/threatlens/core/event_bus.py:135-149 | once the bus is told to stop, a dispatcher given one turn more than there are events queued returns, having delivered the one in its hands and every queued one, in order |
| EventPipeline.WriterComesToAnEnd | src/threatlens/storage/writer.py:107-153 | once told to stop, a writer that opens its database and commits every batch closes after a bounded number of steps, having stored its batch and everything queued, in order |
| EventPipeline.BatchTaken | src/threatlens/storage/writer.py:133-140 | a waiting writer takes the oldest 200 items, or all if there are fewer, and leaves the others |
| EventPipeline.EveryBatchIsSmall | src/threatlens/storage/writer.py:133-153 | over every run each transaction attempts between 1 and 200 items |
| EventPipeline.OthersAreAccepted | src/threatlens/storage/writer.py:84-103 | over every run the detections, alerts and actions handed to the writer are those it has accepted followed by those it has ignored, in order, and it ignores none before it is told to stop |
| EventBus.EventBus.Publish | src/threatlens/core/event_bus.py:83-95 | the block under the lock has exactly the effect of the publish step and tells whether the event was taken |
| EventBus.EventBus.TakeNext | src/threatlens/core/event_bus.py:135-142 | one turn of the dispatcher loop has exactly the effect of that step |
| EventBus.EventBus.FlagStop | src/threatlens/core/event_bus.py:124-127 | stop closes the bus and sets the flag the dispatcher waits for |
| DatabaseWriter.DatabaseWriter.Enqueue | src/threatlens/storage/writer.py:95-103 | the block under the lock has exactly the effect of the enqueue step |
| DatabaseWriter.DatabaseWriter.TakeBatch | src/threatlens/storage/writer.py:133-140 | the loop of poplefts takes the oldest items up to the batch size, or ends the worker when stopping and drained |
| DatabaseWriter.DatabaseWriter.TakeRemaining | src/threatlens/storage/writer.py:125-129 | the final block takes whatever is left |
| DatabaseWriter.DatabaseWriter.WriteBatch | src/threatlens/storage/writer.py:142-153 | a transaction counts the whole batch as written or one error |
| DetectionEngine.DetectionEngine.Handle | src/threatlens/detection/engine.py:121-163 | the loop over the rules of an event has exactly the effect of its turns and returns the findings they report, in order |
| DetectionEngine.DetectionEngine.TakeTurn | src/threatlens/detection/engine.py:125-162 | one rule's turn in the loop has exactly the effect of its specification, and yields a finding exactly when the verdict is a report |
| DetectionEngine.DetectionEngine.RecordFailure | src/threatlens/detection/engine.py:190-197 | counts the failure and disables the rule at the limit |
| DetectionEngine.SeenIsMostRecent | src/threatlens/detection/engine.py:148-153 | the de-duplication cache holds the last dedup_capacity distinct keys that passed the filters |
| DetectionEngine.ReportedExactlyWhenNewOrForgotten | src/threatlens/detection/engine.py:148-162 | in any run a finding of an enabled rule that passes the filters is reported exactly when none like it has passed before, or when dedup_capacity findings no two of which are alike have passed since the last one like it |
| DetectionEngine.SameKeyExactlyWhenAlike | src/threatlens/detection/engine.py:148-148 | two findings share a key exactly when they have the same rule, text and process or, both without a process, the same executable, "-" standing for none |
| DetectionEngine.FirstAboutAProcessIsReported | src/threatlens/detection/engine.py:121-162 | the first finding about a process is reported whatever has been found about others, if its rule is enabled and its filters pass |
| DetectionEngine.VerdictMeaning | src/threatlens/detection/engine.py:126-153 | a disabled rule is skipped; a finding is held back exactly when its process is excluded, its executable ignored or it is allowed for its process, the first of these deciding how it is counted |
| DetectionEngine.ReportsAreGenuine | src/threatlens/detection/engine.py:129-157 | whatever is reported passed every filter, is the finding of that turn, and has the event added to its own unless it is among them |
| DetectionEngine.DisabledExactlyAfterStreak | src/threatlens/detection/engine.py:190-197 | a rule is disabled exactly when its evaluations have at some point raised the limit of times in a row; until then its count is its trailing run of failures |
| DetectionEngine.NeverEvaluatedAgain | src/threatlens/detection/engine.py:126-127 | once that has happened the rule is skipped on every later turn of any longer run |
| DetectionEngine.RuleIsolation | src/threatlens/detection/engine.py:121-163 | adding a rule that only raises changes no verdict, result or notification of the other rules over a whole run |
| DetectionEngine.CountersAgree | src/threatlens/detection/engine.py:133-161 | the statistics and the recent list are those of the run's verdicts |
| DetectionEngine.ErrorsAreRaises | src/threatlens/detection/engine.py:190-194 | the errors shown for a rule are all the times it raised while enabled |
| NetworkBurst.HighFrequencyOutbound.Evaluate | src/threatlens/detection/rules/network.py:428-473 | the method has exactly the effect and verdict of the specification of the rule |
| NetworkBurst.HighFrequencyOutbound.Admit | src/threatlens/detection/rules/network.py:440-443 | setdefault, move_to_end and eviction keep the deques of the most recently active processes |
| NetworkBurst.HighFrequencyOutbound.Trim | src/threatlens/detection/rules/network.py:447-448 | the loop drops the expired front of the deque |
| NetworkBurst.HighFrequencyOutbound.Decide | src/threatlens/detection/rules/network.py:451-473 | grouping hosts by port, picking the first port with most hosts and the three thresholds give the verdict |
| NetworkBurst.HighFrequencyOutbound.Group | src/threatlens/detection/rules/network.py:451-453 | the grouping loop collects the ports in order of first appearance and exactly the distinct hosts on each |
| NetworkBurst.HighFrequencyOutbound.Busiest | src/threatlens/detection/rules/network.py:454-454 | the first port with the most hosts |
| NetworkBurst.VerdictMeaning | src/threatlens/detection/rules/network.py:454-473 | fan-out exactly when some port reaches the host threshold, else attempts exactly when enough are unanswered, else burst exactly when there are enough connections |
| NetworkBurst.TrackedExactly | src/threatlens/detection/rules/network.py:441-443 | a process is tracked exactly when fewer than 2048 other processes were active since it was, and never more than 2048 are |
| NetworkBurst.DequeIsWindow | src/threatlens/detection/rules/network.py:440-448 | with non-decreasing times the deque is exactly the remembered attempts of the process that lie in the window ending with its latest one |
| NetworkBurst.VerdictOnRemembered | src/threatlens/detection/rules/network.py:428-473 | the verdict is the one computed from scratch on what is remembered of the process |
| NetworkBurst.VerdictFromScratch | src/threatlens/detection/rules/network.py:428-473 | for a process that was never evicted the verdict is the one computed from scratch on its whole qualifying history restricted to the window |
| NetworkBurst.FewProcessesAreNeverForgotten | src/threatlens/detection/rules/network.py:442-443 | with at most 2048 distinct processes in a run none is ever evicted |
| NetworkBurst.VerdictInEvents | src/threatlens/detection/rules/network.py:428-473 | while connections of no more than 2048 processes have been seen, the verdict on an outbound connection is that of the three tests on the distinct hosts per port, the unanswered ones and the number of all outbound connections of its process in the window |
| NetworkBurst.OthersAreIgnored | src/threatlens/detection/rules/network.py:429-438 | inbound or loopback connections and those of unknown or trusted programs are neither judged nor noted |
| Deferral.EnrichmentDeferral.Park | src/threatlens/detection/rules/base.py:209-215 | parking has exactly the effect of its specification: bounded bucket, most recent process last, oldest evicted |
| Deferral.EnrichmentDeferral.Release | src/threatlens/detection/rules/base.py:217-218 | release returns and forgets the bucket of a process |
| Deferral.DeferringNetworkRule.Evaluate | src/threatlens/detection/rules/network.py:48-64 | the connections passed to judge and the parked ones are those of the specification |
| Deferral.AlwaysBounded | src/threatlens/detection/rules/base.py:209-215 | over every run at most 4096 processes are parked and every bucket holds 1 to 32 facts |
| Deferral.EveryFactHasOneFate | src/threatlens/detection/rules/network.py:48-64 | in any run each relevant connection is judged once, lost once, or waiting once in the bucket of its own process, and nothing else is judged |
| Deferral.JudgedAtMostOnce | src/threatlens/detection/rules/network.py:48-64 | no connection is passed to judge twice |
| Deferral.EnrichmentJudgesAllWaiting | src/threatlens/detection/rules/network.py:49-54 | if neither bound was hit, the enrichment event of a known process passes to judge exactly the connections waiting for it, in order of arrival |
| Deferral.UnknownProcessLosesThem | src/threatlens/detection/rules/network.py:50-53 | if the process is not known at that moment they are released without being judged |
| Deferral.JudgedAtOnceExactlyWhen | src/threatlens/detection/rules/base.py:54-61 | a connection the rule is interested in, of a known process, is judged at once exactly when the program is unknown, its signature or hash is known, or the hash is known to be unavailable; else it waits |
| Deferral.ParkingLoses | src/threatlens/detection/rules/base.py:209-215 | a waiting connection joins those of its process unless there are 32, in which case it is lost; with 4096 other processes parked, the connections of the least recently parked one are lost |
| ProcessMonitor.DiffSnapshots | src/threatlens/monitors/process_monitor.py:104-147 | the events of a diff: one start per new key, one stop per missing key, in order of time and PID, one change per toggled process |
| ProcessMonitor.Sorted | src/threatlens/monitors/process_monitor.py:119-126 | sorting the entries of a set of keys lists each once by creation time and PID |
| ProcessMonitor.ChangedEvents | src/threatlens/monitors/process_monitor.py:127-146 | one event for every process in both snapshots whose suspended state is known in both and differs |
| ProcessMonitor.ProcessMonitor.Poll | src/threatlens/monitors/process_monitor.py:164-171 | the first poll gives the inventory or nothing, every later one the diff against the previous snapshot |
| ProcessMonitor.ReplayReconstructs | src/threatlens/monitors/process_monitor.py:95-171 | over any sequence of snapshots the events alone reconstruct the keys of the last one, and starts and stops of each process alternate |
| ProcessMonitor.DiffIsExact | src/threatlens/monitors/process_monitor.py:104-147 | a diff has exactly one start with its verified parent for each process only the new snapshot has, one stop with both times for each only the old one has, one change for each whose known suspended state differs, and nothing else |
| ProcessMonitor.DiffOrder | src/threatlens/monitors/process_monitor.py:117-146 | starts come before stops and stops before changes, starts and stops each by creation time, 0 when unknown, then PID |
| ProcessMonitor.InventoryIsExact | src/threatlens/monitors/process_monitor.py:95-101 | the inventory has one event for each record, with its verified parent, in that order |
| ProcessMonitor.ReusedPidStopsAndStarts | src/threatlens/monitors/process_monitor.py:114-126 | when a PID has passed to a process created at least a millisecond apart, the diff has a stop of the one and a start of the other |
| ProcessMonitor.ParentFirstExactlyWhenOlder | src/threatlens/monitors/process_monitor.py:119-122 | a parent started in the same diff is reported before its child exactly when its time, or at equal times its PID, is smaller |
| ProcessMonitor.ChildCanComeFirst | src/threatlens/monitors/process_monitor.py:107-112 | a parent and a child created at the same time that are listed child first |
| NetworkMonitor.Tabled | src/threatlens/monitors/network_monitor.py:87-87 | the table of sockets has one entry per key, taken from the list, in order of first appearance |
| NetworkMonitor.NetworkMonitor.Poll | src/threatlens/monitors/network_monitor.py:112-120 | the first poll gives the inventory or nothing, every later one the diff, and the table is replaced |
| NetworkMonitor.DiffIsExact | src/threatlens/monitors/network_monitor.py:79-96 | a diff has exactly one opening for each socket only the new list has and one closing for each only the old one has, if it has an owner and is not UDP on a port from 49152 on, marked as a listener event exactly when it listens or is bound, and nothing else |
| NetworkMonitor.OpeningsComeFirst | src/threatlens/monitors/network_monitor.py:86-95 | openings are reported before closings |
| NetworkMonitor.InventoryIsExact | src/threatlens/monitors/network_monitor.py:69-76 | the inventory has one event for each record of such a socket and nothing else |
| NetworkModels.SameSocketExactlyWhen | src/threatlens/core/models/network.py:89-99 | two records are the same socket exactly when protocol, both endpoints, PID and the millisecond of creation agree, a missing or empty remote address counting as "-" and a missing port or time as 0 |
| NetworkMonitor.ReplayReconstructs | src/threatlens/monitors/network_monitor.py:69-120 | over any sequence of socket tables the events reconstruct the reportable keys of the last one, whatever kind each event has |
| PersistenceMonitor.DiffPersistence | src/threatlens/monitors/persistence_monitor.py:40-65 | the events of a diff: added, removed and changed entries, each part in key order |
| PersistenceMonitor.PersistenceMonitor.Poll | src/threatlens/monitors/persistence_monitor.py:76-83 | the first poll gives the inventory or nothing, every later one the diff |
| PersistenceMonitor.ReplayInventory | src/threatlens/monitors/persistence_monitor.py:43-47 | replaying the sorted inventory gives the last entry of every key even when keys repeat |
| PersistenceMonitor.ReplayReconstructs | src/threatlens/monitors/persistence_monitor.py:40-83 | over any sequence of snapshots the events reconstruct the keys of the last one with their command and enabled values |
| PersistenceMonitor.DiffIsExact | src/threatlens/monitors/persistence_monitor.py:48-64 | a diff has exactly one addition for each key only the new snapshot has, one removal for each only the old one has, one change with the former command for each whose command or enabled flag differs, and nothing else |
| PersistenceMonitor.DiffOrder | src/threatlens/monitors/persistence_monitor.py:50-64 | additions come before removals and removals before changes, each by key |
| PersistenceMonitor.InventoryIsExact | src/threatlens/monitors/persistence_monitor.py:43-47 | the inventory has one event for each entry, by key |
| PersistenceMonitor.TextLeqMeaning | src/threatlens/monitors/persistence_monitor.py:46-58 | keys are ordered by their first differing character, a prefix first |
| EnrichmentQueue.EnrichmentWorker.Request | src/threatlens/core/enrichment.py:69-78 | the block has exactly the effect of the request step |
| EnrichmentQueue.EnrichmentWorker.Next | src/threatlens/core/enrichment.py:142-152 | the block has exactly the effect of the take step and returns its key |
| EnrichmentQueue.InvariantHolds | src/threatlens/core/enrichment.py:69-152 | under every interleaving the pending set is the disjoint union of the two queues, without duplicates and within capacity |
| EnrichmentQueue.FirstInFirstOut | src/threatlens/core/enrichment.py:69-152 | each queue is first in first out, and what was accepted is what was taken followed by what is queued |
| EnrichmentQueue.UrgentGoesFirst | src/threatlens/core/enrichment.py:150-150 | an inventory key is taken only while no urgent key waits |
| EnrichmentQueue.EveryRequestAccounted | src/threatlens/core/enrichment.py:69-78 | every request was accepted, refused as duplicate or while stopping, or counted dropped |
| EnrichmentQueue.NothingAfterStop | src/threatlens/core/enrichment.py:90-99 | once stopping, nothing more is accepted and the worker takes nothing more |
| EnrichmentQueue.AnswerMeaning | src/threatlens/core/enrichment.py:69-152 | in every run a request is a duplicate exactly when its key waits in a queue, else refused exactly when stopping, else dropped exactly when as many keys wait as there is room for; a taker gets the oldest key of the urgent queue, else of the other |
| ProcessBuffer.ParseProcessBuffer | src/threatlens/utils/ntapi.py:192-233 | the loop terminates, reads only the used part of the buffer, and returns the walk over it or one of the two truncation errors |
| ProcessBuffer.ParseEntry | src/threatlens/utils/ntapi.py:206-230 | one record is read from its header and thread bytes |
| ProcessBuffer.ThreadsAllSuspended | src/threatlens/utils/ntapi.py:182-189 | true exactly when there are threads and all of them wait suspended |
| ProcessBuffer.WalkReadsEveryRecord | src/threatlens/utils/ntapi.py:192-233 | for any list of records laid out with valid forward offsets and any bytes in between, the walk returns exactly those records in order |
| ProcessBuffer.RoundTrip | src/threatlens/utils/ntapi.py:192-233 | encoding any non-empty list of records and walking the bytes gives the list back |
| ProcessBuffer.TruncationIsNoticed | src/threatlens/utils/ntapi.py:204-208 | cutting such a buffer anywhere before its last record ends gives an error, never a shorter list |
| ProcessBuffer.NumbersInBytes | src/threatlens/utils/ntapi.py:203-230 | numbers are read with the least significant byte first, and times as signed numbers of 64 bits |
| FileMonitor.FileMonitor.Emit | src/threatlens/monitors/file_monitor.py:131-152 | a debounced modification is neither published nor counted, anything else is both |
| FileMonitor.FileMonitor.IsDebounced | src/threatlens/monitors/file_monitor.py:154-163 | debounced exactly when the last remembered report of the path, 0 if none, is less than a second old; the report is remembered, and beyond 4096 paths only the last minute is kept |
| FileMonitor.PruningIsInvisible | src/threatlens/monitors/file_monitor.py:154-163 | with a clock from 0 that never goes back, every decision is that of a map that is never pruned |
| FileMonitor.ModificationsAreApart | src/threatlens/monitors/file_monitor.py:131-163 | any two published modifications of one path are at least one second apart |
| FileMonitor.DroppedExactlyWhen | src/threatlens/monitors/file_monitor.py:157-162 | a report is remembered with its time, and with more than 4096 paths exactly those last reported a minute ago or earlier are dropped |
| PidResolver.PidResolver.ResolvePid | src/threatlens/core/engine.py:334-347 | nothing is asked while the PID is suppressed; a failed attempt suppresses it for thirty seconds, a successful one clears it, and beyond 4096 entries only unexpired ones are kept |
| PidResolver.PruningIsInvisible | src/threatlens/core/engine.py:334-345 | with times in order, a PID is suppressed exactly while thirty seconds have not passed since its last failed attempt, whatever was pruned |
| PidResolver.Lookup | src/threatlens/core/engine.py:326-332 | the lookup observes a resolved process and lists the candidates of the PID afterwards |
| PidResolver.LookupOnlyAdds | src/threatlens/core/engine.py:326-332 | a lookup loses no candidate, adds at most the resolved process, and adds it whenever the PID was unseen and could be resolved |
| PidResolver.AsksExactlyWhen | src/threatlens/core/engine.py:328-329 | a lookup asks exactly for PIDs other than 0 and 4 that no current process holds |
| PidResolver.DroppedExactlyWhen | src/threatlens/core/engine.py:342-344 | a failure drops other entries exactly when there are more than 4096, and then the expired ones |
| TaskRunner.TaskRunner.RecordSuccess | src/threatlens/core/scheduler.py:124-135 | counts the run on the health read before, sets OK and clears the consecutive count, whatever the watchdog wrote in between |
| TaskRunner.TaskRunner.RecordFailure | src/threatlens/core/scheduler.py:137-163 | counts the failure on the health read before and sets DEGRADED below three in a row, UNAVAILABLE from three on |
| TaskRunner.TaskRunner.CheckAct | src/threatlens/core/scheduler.py:109-116 | the second half of the check flags TIMED_OUT when the run it read before, and not the present one, is too long |
| TaskRunner.InvariantHolds | src/threatlens/core/scheduler.py:82-171 | with the watchdog and shutdown interleaved anywhere: runs are successes plus failures, consecutive_failures is the trailing failure run, OK means none, DEGRADED one or two, UNAVAILABLE three or more in a row, and the transitions form an unbroken path from STARTING |
| TaskRunner.HonestExactlyWhenTimely | src/threatlens/core/scheduler.py:104-116 | TIMED_OUT is shown only while the run it was meant for is in progress exactly if, whenever the watchdog flags one, the very run whose start it read has not recorded its outcome yet |
| TaskRunner.TimedOutMeansOverdue | src/threatlens/core/scheduler.py:104-116 | then, whenever TIMED_OUT is shown, the present run is in progress and had lasted longer than its timeout when it was flagged |
| TaskRunner.TimedOutOnAHealthyRun | src/threatlens/core/scheduler.py:104-116 | a sequence of steps after which TIMED_OUT is shown for a run that has only just begun |
| TaskRunner.TimedOutWithoutARun | src/threatlens/core/scheduler.py:104-116 | a sequence of steps after which TIMED_OUT is shown with no run in progress |
| TaskRunner.OverdueIsFlagged | src/threatlens/core/scheduler.py:104-116 | a watchdog that looks while a task is running and acts before anything else happens flags the run exactly when it has lasted longer than its timeout |
| TaskRunner.StoppedIsShown | src/threatlens/core/scheduler.py:121-122 | marking a runner stopped shows STOPPED, reports the transition unless it was shown already, and leaves the counters |
| TaskRunner.BackoffIsMonotoneAndBounded | src/threatlens/core/scheduler.py:99-102 | the retry delay never shrinks with more failures and stays between the interval and the effective maximum |
| TaskRunner.BackoffDoubles | src/threatlens/core/scheduler.py:99-102 | the delay starts at the interval and doubles with each failure in a row until it reaches the larger of interval and maximum |

## Left out

- Floating point: scores and retry delays are exact; `interval * 2**failures` raises an overflow error on Python floats after about a thousand failures in a row, which the model does not show.
- Key texts: keys are tuples, so two keys that differ as tuples never collide as text; the order of the CHANGED process events, sorted by key text, is left open.
- Evidence, titles, summaries, recommended actions and MITRE lists are not modelled, nor is the network context that `build_alert` collects.
- Alerting.AlertManager.SetStatus: searches the alerts by recency of their subjects, the source in the order they were first stored; identifiers are unique, so both find the same one.
- Alerting.AlertManager.Handle: requires `max_alerts` of at least 1, because with 0 the source fails on the entry it has just evicted.
- NetworkBurst.HighFrequencyOutbound.Evaluate: requires a non-negative burst window, because with a negative one the source fails on an empty maximum.
- DatabaseWriter.DatabaseWriter.Enqueue: requires a capacity of at least 1; with 0 the source fails on the first item.
- EventBus.EventBus.TakeNext: the wait for a notification is not modelled; the method is the turn taken when the wait has ended.
- EventPipeline.EndToEnd: join time-outs become the hypothesis that the threads have ended; that they do end when they get their turns is stated by EventPipeline.DispatcherComesToAnEnd and EventPipeline.WriterComesToAnEnd.
- `dispatch_pending`, `process_pending` and `run_cycle`: the synchronous forms used without threads.
- SQLite: the store is a log of committed batches; a batch is stored whole or not at all.
- Listener and handler exceptions other than those of detection rules: they are logged and have no effect on the modelled state.
- DetectionEngine.RuleIsolation: rules are seen through what each evaluation gives back, so a rule that changed the data of another one is outside the model.
- The rules other than NET-003 and the deferral mechanism: pattern matching on paths, command lines and addresses.
- ProcessBuffer.ParseProcessBuffer: the text behind an image-name pointer is an abstract function of address and length, because it lies outside the buffer.
- `FirstSeenExecutableOutbound`: a seen-before cache like the one the detection engine keeps.
- `SystemState.ancestors`, `children_of`, `find_node`, `group_by_process` and `connection_chain`: short loops over results that are modelled.
- PidResolver.PidResolver.ResolvePid: an engine without an attribution collector, which never asks and records nothing.
- Path normalisation: executables are compared as already normalised text.
- The order in which `candidates_for_pid` lists its results follows dictionary order in the source and is left open.
- Windows calls, response actions, configuration, user interface and status files.
