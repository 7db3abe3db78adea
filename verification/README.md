# Verified model of the criteria-k8s operator and board watcher

This project models the parts of `criteria-k8s` whose correctness depends on many calls, many passes or
many actors, and proves what they promise. `dafny verify dfyconfig.toml` checks everything; nothing here runs the
operator.

| file | component |
|---|---|
| `RunQueue.dfy` | the in-memory admission queue, per repository and class |
| `Lifecycle.dfy` | `Reconcile` as a machine with one step per API call: lost answers, conflicts, crashes, restarts, any number of replicas, users, the retention sweep |
| `LifecycleSafety.dfy`, `LifecycleAdmission.dfy` | what every call keeps: past copies, the archive gate, the ticket and queue invariants |
| `LifecycleHistories.dfy` | over every history: archive before cleanup, absorbing phases, one live run per ticket and per queue, what a restart keeps, and histories that break the queue lock |
| `LifecycleVerdicts.dfy` | where a stored outcome comes from over every history, and what a terminal and a live pass store |
| `Events.dfy`, `Castle.dfy`, `Drain.dfy` | the event-sourced adapter history, its fold, and page-wise drains with errors and replays |
| `PeerPod.dfy`, `PerScope.dfy` | composition of an environment's peer pod, and convergence of a run's adapter pods |
| `Names.dfy`, `NameCollisions.dfy`, `DigestRef.dfy`, `Truncate.dfy` | pod names and when two of them meet, digest pull references and shell quoting, UTF-8 truncation |
| `Retention.dfy`, `Reap.dfy`, `Stall.dfy` | the retention sweep, the restart-guarded reap, the stall watchdog |
| `PodStateFeed.dfy`, `Bridge.dfy`, `Watcher.dfy` | the transition-only feed, the assignment bridge, the board watcher |
| `Common.dfy` | options, searching, stored time stamps, byte order of strings, sorting by a strict order |

`Reconcile` is a state machine of functions because its claims quantify over interleavings of single API calls. Code that
updates fields, maps and slices in place is a class whose methods keep the source's loops and are proved against functions
of the old state; the lemmas are about those functions and about sequences of calls.

## What the proofs found

Where the code is narrower than its comments, the model follows the code; each point below has a concrete counterexample
or an exact condition in the table.

- A restarted operator admits the first run the API server lists, not the run whose Job exists, and two replicas keep two
  queues: either way two runs of one repository can hold runner Jobs at once (`RestartAdmitsIff`,
  `RestartCanAdmitAnother`, `TwoReplicasAdmitTwo`). The ticket exclusion survives restarts and any number of replicas.
- After a failed drain the replayed stretch doubles its step outcomes; the active set, the last terminal and the newest
  progress are unaffected (`StepsAreExactIff`, `DistinctStepsAreExactIff`, `DoubledStep`).
- A drain rereads at most fifty pages, so after a restart a live run with a longer stream can be failed as stalled on the
  progress those pages end with (`FailureMeansQuietIff`, `BudgetedDrainCanFailALiveRun`).
- Kubernetes stores transition times in whole seconds, so the forced reap can come up to a second before the window has
  elapsed (`ForceIsExactOnWholeSeconds`). A forced pass also re-stamps the deferral, which the comment in `baseimage.go`
  denies (`ForcedPassRestamps`).
- `artifactPullRepo` strips one pin, so a reference with a tag and a digest keeps its tag (`BareUnlessPinnedTwice`, `TagSurvives`).
- The member order of a peer pod is total even when adapter names contain slashes, because the adapter name is its
  third key; but a slashed name can release another scope (`HistoryIsFaithfulIff`, `SlashedNameReleasesAnotherScope`).
- A fallback pod and a peer pod of one run can share a name when the sanitised adapter kind itself spells a peer segment,
  which takes at least 19 bytes (`FamiliesMeetIff`, `LongKindCanCollide`).
- The watcher consumes a column entry even when a gate is closed. A card that enters a trigger column while its run is in
  flight never fires there, although the gates open later (`EntryFiresIffGatesOpen`, `HandoffDuringRunIsLost`). A
  failed create is tried again at every poll for a ticket without runs and never for one with settled runs
  (`StayCreatesIff`).
- A key can be told the same signal twice in a row exactly when two changed reports of one batch that castle would
  accept carry one key and one signal (`NeverRepeatsIff`); two members of one adapter type in one scope instance make
  such a batch (`TwoMembersRepeat`). The skip counter is never reset by a note, although its comment says so (`SkipsCountOn`).
- A lost record releases the lane although its submit failed, contrary to the comment on `bridgeTerminal`
  (`ReleaseReasons`). The fail-closed path keeps no ledger, so a closed run can later start, finish or be closed again
  (`FinalOnceIff`, `FailClosedBypassesTheLedger`, `ClosedTwice`).

## Assumptions

- Run names are never reused, and a run created later never sorts before an existing run of its ticket.
- `List` and `Get` are authoritative, and status writes carry the resource version the pass read.
- One replica's passes are serial, in one managed namespace.
- The castle never shows less of a stream than it has already shown, keeps sequence numbers increasing, returns no next
  cursor beyond an event it has not delivered, and never forgets a stored archive record.
- Job names are the default ones: one runner Job and one Job per adapter kind, named after their run.
- Board columns have one id each, and a ticket has one card.

## Model

| member | source | states |
|---|---|---|
| RunQueues.EnqueueRefinesFifo | criteria-k8s/internal/controller/queue.go:50-76 | Enqueue appends to the run's own first-in-first-out line unless it is already there, and reports admission exactly to the head. |
| RunQueues.ReleaseRefinesFifo | criteria-k8s/internal/controller/queue.go:81-113 | Release takes the run out of its line wherever it stands, keeps everybody else's order, and leaves the head admitted. |
| RunQueues.RecoverRefinesFifo | criteria-k8s/internal/controller/queue.go:118-150 | A restart rebuilds each line as the listed live runs of that key, in list order and without repetition, head admitted. |
| RunQueues.FirstListedIsHead | criteria-k8s/internal/controller/queue.go:127-147 | After a restart the admitted run of a key is the first live run of that key in the listing. |
| RunQueues.RunKeepsFifo | criteria-k8s/internal/controller/queue.go:50-113 | Over any history the admitted run is the head of a non-empty duplicate-free line, and a key nobody touches keeps its line. |
| RunQueues.WaitIsExact | criteria-k8s/internal/controller/queue.go:81-113 | A waiting run moves up by exactly the departures ahead of it, so it is admitted after as many as its position. |
| RunQueues.AdmissionIsStable | criteria-k8s/internal/controller/queue.go:81-113 | An admitted run stays admitted until its own release. |
| RunQueues.RunQueue.IndexOf | criteria-k8s/internal/controller/queue.go:218-225 | The position of a run in a line, or that it is absent. |
| RunQueues.RunQueue.StatusLocked | criteria-k8s/internal/controller/queue.go:152-175 | The reported status names the head as running, everyone behind it as pending in order, and the run's position in line. |
| RunQueues.RunQueue.Enqueue | criteria-k8s/internal/controller/queue.go:50-76 | The two maps change exactly as the queue does, and the answer says whether the run is now the admitted one. |
| RunQueues.RunQueue.Release | criteria-k8s/internal/controller/queue.go:81-113 | The two maps change exactly as the queue does, and the answer names the run admitted by the release, if any. |
| RunQueues.RunQueue.Recover | criteria-k8s/internal/controller/queue.go:118-150 | The rebuilt maps are those of the recovered queue. |
| LifecycleSafety.WriteLands | criteria-k8s/internal/controller/criteriarun_controller.go:528-533 | A status write that the version check accepts replaces the status the pass had read and nothing else, and loses no other writer's update. |
| LifecycleSafety.ReplicaStepOk | criteria-k8s/internal/controller/criteriarun_controller.go:121-630 | Every call of a pass, whatever it answers, only advances the store and keeps true what the pass still relies on. |
| LifecycleSafety.ExecKeepsInv | criteria-k8s/internal/controller/criteriarun_controller.go:121-630 | Over every interleaving of replicas, crashes, users, other writers and sweeps, each copy anybody holds is a past state of the stored run. |
| LifecycleHistories.NoCleanupBeforeArchive | criteria-k8s/internal/controller/terminalarchive.go:55-98 | With the archive lane on, no replica deletes a child Job or drops a finalizer of a run castle holds no record for, on any path, whatever failed before. |
| LifecycleHistories.FinalizerHoldsTheRun | criteria-k8s/internal/controller/criteriarun_controller.go:855-905 | Over every history a run with a finalizer disappears only by a step of the operator, and with its record stored; a delete request marks it and leaves it there. |
| LifecycleHistories.OthersMakeCopiesStale | criteria-k8s/internal/controller/criteriarun_controller.go:528-533 | After a metadata write or a delete request by somebody else, the status write of any copy read before is refused. |
| LifecycleHistories.SweepDeletesOnlyArchived | criteria-k8s/internal/controller/crretention.go:249-253 | However stale its listing, the sweep deletes only runs that are terminal and whose record castle holds. |
| LifecycleHistories.SweepIsSelective | criteria-k8s/internal/controller/crretention.go:233-283 | The sweep deletes only what it listed as ended, archived, stamped and not yet deleted. |
| LifecycleHistories.TerminalIsAbsorbing | criteria-k8s/internal/controller/criteriarun_controller.go:150-224 | Between any two points of any history a terminal run stays terminal, and its terminal time, base image, rendered config and launch manifest never change once set. |
| LifecycleAdmission.UnblockedIsClear | criteria-k8s/internal/controller/criteriarun_controller.go:683-703 | A run the ticket check lets through has no live rival of its ticket that holds it or is older. |
| LifecycleAdmission.HolderIsNotBlocked | criteria-k8s/internal/controller/criteriarun_controller.go:683-703 | A run that already holds its ticket is never refused it. |
| LifecycleAdmission.OlderRunWins | criteria-k8s/internal/controller/criteriarun_controller.go:681-715 | Of two live runs of a ticket without a Job, the one created first blocks the other and not the reverse; of equally old ones, the one with the smaller name. |
| LifecycleHistories.OneRunPerTicket | criteria-k8s/internal/controller/criteriarun_controller.go:334-360 | Over every history of any number of replicas, crashes, restarts and lost writes included, no two live runs with a runner Job share a ticket. |
| LifecycleAdmission.ActuateTicket | criteria-k8s/internal/controller/criteriarun_controller.go:683-710 | When a clear run gets its Job or has its status written, every run that was clear of live holders and elders of its ticket stays clear. |
| LifecycleHistories.OneRunPerQueue | criteria-k8s/internal/controller/criteriarun_controller.go:302-332 | While the operator is not restarted, a live run with a runner Job is the admitted run of its queue, so no two share a repository and class. |
| LifecycleHistories.QueuedWriteErasesNothing | criteria-k8s/internal/controller/criteriarun_controller.go:314-332 | The write that queues a run never blanks a recorded Job name and never hits a run whose runner Job exists. |
| LifecycleHistories.RestartAdmits | criteria-k8s/internal/controller/queue.go:118-150 | After a restart a live run is admitted exactly when it is listed before every other live run of its queue. |
| LifecycleHistories.RestartAdmitsIff | criteria-k8s/internal/controller/queue.go:118-150 | A restart keeps the queue exclusion exactly when the listing shows every job-holding live run first in its queue. |
| LifecycleHistories.FirstPassCreates | criteria-k8s/internal/controller/criteriarun_controller.go:121-475 | A first pass over a new run that is admitted and not blocked, every call answering, reaches its runner Job: the run has its finalizer and its Job, and nothing else has changed. |
| LifecycleHistories.RestartCanAdmitAnother | criteria-k8s/internal/controller/queue.go:127-147 | For any two new runs of one queue with different tickets, a history of one operator with one restart ends with both alive and each with its runner Job. |
| LifecycleHistories.TwoReplicasAdmitTwo | criteria-k8s/internal/controller/queue.go:35-76 | The same without any restart, for two replicas. |
| LifecycleHistories.TwoCardsShareARepository | criteria-k8s/internal/controller/queue.go:127-147 | Two cards of one repository are such runs: a concrete history from an empty cluster ends with two job-holding live runs of one queue. |
| LifecycleVerdicts.OutcomesWereTold | criteria-k8s/internal/controller/criteriarun_controller.go:478-531 | Over every history, a run stored as Succeeded was told so, in a pass over that run, by castle or by its Job without a castle verdict; a run stored as Failed was told so by one of them, by the watchdog or by a refusing check. |
| LifecycleVerdicts.TerminalPassStores | criteria-k8s/internal/controller/criteriarun_controller.go:150-206 | An answered pass over a terminal run stores castle's verdict when there is one and keeps the phase when there is none, stamps the terminal time once, and changes nothing else. |
| LifecycleVerdicts.LivePassStores | criteria-k8s/internal/controller/criteriarun_controller.go:478-533 | An answered pass over an admitted live run has all its Jobs created and stores castle's verdict, else the Job's phase, or Failed when the watchdog fires on a run that reads Running; the write-once fields keep what they hold. A run that has just ended goes to the archive gate, unless the pass itself created a Job; any other goes on to its signals. |
| LifecycleVerdicts.FailuresAreStored | criteria-k8s/internal/controller/criteriarun_controller.go:225-475 | A refused admission, a changed base image, a drifted config and a conflicting signal each end with the run stored as Failed. |
| LifecycleVerdicts.QueuedPassStores | criteria-k8s/internal/controller/criteriarun_controller.go:302-332 | An answered pass over a run that is not admitted stores it as Pending without a Job name, keeps the rest of its status, and creates nothing. |
| LifecycleVerdicts.ArchivedIsStamped | criteria-k8s/internal/controller/terminalarchive.go:55-98 | A stored record is stamped on the run, which is pending no longer. |
| LifecycleVerdicts.UnarchivedIsHeld | criteria-k8s/internal/controller/terminalarchive.go:74-97 | A record that could not be stored marks the run as pending and ends the pass without touching a Job. |
| LifecycleVerdicts.RefusedRecordIsRetriedOnce | criteria-k8s/internal/controller/terminalarchive.go:78-97 | A record castle refuses under the run's own key is tried once more under the fallback key, and the second answer decides. |
| LifecycleVerdicts.GuardDecides | criteria-k8s/internal/controller/baseimage.go:213-240 | Over settled runner pods the reap deletes exactly the run's runner Job and the Jobs of its adapter kinds; behind a pod that may restart it deletes none and ends the pass. |
| LifecycleVerdicts.ReapedGoesOn | criteria-k8s/internal/controller/criteriarun_controller.go:546-580 | After the reap, a pass that has just seen its run end goes on to the signals; a pass over a run that had ended before is done. |
| LifecycleVerdicts.FinalizePassRemoves | criteria-k8s/internal/controller/criteriarun_controller.go:855-905 | An answered pass over a deleted run whose record is stored deletes its Jobs and then lets the run go. |
| Events.EnvironmentIdentity | criteria-k8s/internal/events/lifecycle.go:167-172 | An event has no environment identity exactly when it carries neither half of it. |
| Events.Active | criteria-k8s/internal/events/lifecycle.go:258-274 | Each active entry is a provision of the history, filed under its own scope key. |
| Events.ActiveProvisions | criteria-k8s/internal/events/lifecycle.go:258-274 | Lists each active provision once, in no promised order. |
| Castle.BookkeepingIsNoProgress | criteria-k8s/internal/castle/castle.go:593-655 | Scope bookkeeping, terminal envelopes and heartbeats never move the progress clock. |
| Castle.ProgressIsStepActivity | criteria-k8s/internal/castle/castle.go:593-655 | Every payload is step progress except the two ends of a run, graphs, heartbeats, and adapter events outside the six activity kinds. |
| Castle.ProgressIsMaximum | criteria-k8s/internal/castle/castle.go:480-487 | The folded progress is the greatest time of a progress envelope, and one of them carries it. |
| Castle.FaithfulStepIff | criteria-k8s/internal/castle/castle.go:664-679 | An event keeps the active set equal to the scopes whose last event is a provision exactly when the key it is resolved to is not held by another scope's active provision. |
| Castle.HistoryIsFaithfulIff | criteria-k8s/internal/castle/castle.go:509-515 | For any folded sequence with one adapter per scope, the active set is the scopes whose last event is a provision at every point, exactly when no event acts on a key another scope's active provision holds. |
| Castle.KeysApartNeverClash | criteria-k8s/internal/castle/castle.go:664-679 | When no event of the stream reports a key under which another scope is provisioned, no replay of it ever acts on another scope's provision. |
| Castle.SlashFreeKeysApart | criteria-k8s/internal/events/lifecycle.go:157-159 | Adapter names without a slash are enough for that. |
| Castle.SlashedNameReleasesAnotherScope | criteria-k8s/internal/events/lifecycle.go:157-159 | Two envelopes after whose fold a scope is inactive although its last event is a provision. |
| Castle.TerminalAndSteps | criteria-k8s/internal/castle/castle.go:488-500 | The fold keeps the terminal of the last ending envelope and the first step outcomes up to the cap. |
| Castle.LastTerminalRepeats | criteria-k8s/internal/castle/wire.go:99-128 | The kept terminal repeats the last ending envelope field by field: it succeeded exactly when that is a RunCompleted with success, with that envelope's state, reason and time; there is none exactly when no envelope ends the run. |
| Castle.RawAtLastWord | criteria-k8s/internal/castle/wire.go:27-91 | The last event of a scope is the last envelope of a provision or release kind that names an adapter and that scope. |
| Castle.FaithfulIsAsTold | criteria-k8s/internal/castle/castle.go:501-515 | An active set that agrees with the raw events holds exactly the scopes whose last such envelope is a provision, with the data that envelope carries. |
| Drains.ReplayCompletes | criteria-k8s/internal/castle/castle.go:463-536 | A drain that reaches as far as every failed one before it leaves, per scope and for the terminal, what a single clean reading leaves. |
| Drains.ReplayInterrupted | criteria-k8s/internal/castle/castle.go:477-479 | A drain cut short keeps what later drains need to repair the fold. |
| Drains.SettledIsFaithful | criteria-k8s/internal/castle/castle.go:463-536 | After a successful drain the active set is that of the consumed prefix of the stream, replays notwithstanding, unless a folded event acted on another scope's key. |
| Drains.StepsAreExactIff | criteria-k8s/internal/castle/castle.go:492-500 | Whatever drains failed and succeeded, while fewer outcomes than the cap are due the step list equals them exactly when no failed drain folded an outcome. |
| Drains.StepsLandIff | criteria-k8s/internal/castle/castle.go:492-500 | The capped list drain by drain: it equals the first due outcomes exactly when every drain's outcomes repeat those due at the positions they fill; the two rows around this one turn that into conditions on the drains themselves. |
| Drains.DistinctStepsAreExactIff | criteria-k8s/internal/castle/castle.go:492-500 | When no due outcome occurs twice, exactly when no failed drain folded an outcome or the list was full where each such drain broke off. |
| Drains.DoubledStep | criteria-k8s/internal/castle/castle.go:477-500 | A client that drains a stream with one outcome, fails at the second page, drains again and lists the outcome twice. |
| Drains.WalkOverOneView | criteria-k8s/internal/castle/castle.go:471-526 | A drain over one view of the stream succeeds and reads all of it, or fifty full pages if it is longer. |
| Drains.WalkIsBounded | criteria-k8s/internal/castle/castle.go:471 | No drain, whatever the server answers, gets more than fifty pages beyond its cursor. |
| Drains.RunObserver.constructor | criteria-k8s/internal/castle/castle.go:198-217 | A fresh client tracks every stream from its start. |
| Drains.RunObserver.FoldEnvelope | criteria-k8s/internal/castle/castle.go:480-519 | One envelope changes the per-run slots exactly as the fold does, and no cursor. |
| Drains.RunObserver.FoldPage | criteria-k8s/internal/castle/castle.go:480-519 | A page is folded in order, and the local cursor becomes its highest sequence number. |
| Drains.RunObserver.Pages | criteria-k8s/internal/castle/castle.go:471-526 | The page loop consumes a contiguous stretch and stops exactly where the answers, the short page or the page budget make it stop, its cursor before the next event, without storing it. |
| Drains.RunObserver.Drain | criteria-k8s/internal/castle/castle.go:463-536 | Any drain keeps the client in step with the stream and stops exactly where the page loop does; a successful one returns the terminal of the last ending envelope field by field, the newest progress, and the scopes whose last envelope provisions them; a failed one moves no cursor. |
| DigestRefs.ValidArtifactDigest | criteria-k8s/internal/jobbuilder/per_scope_peer.go:724-736 | Accepts exactly the algorithm tag followed by 64 lowercase hexadecimal digits. |
| DigestRefs.SafeShellToken | criteria-k8s/internal/jobbuilder/per_scope_peer.go:773-784 | Accepts exactly the strings over letters, digits, underscore and the extra characters. |
| Characters.CharacterRanges | criteria-k8s/internal/jobbuilder/per_scope_peer.go:773-784 | The three character ranges the checks compare against are the listed letters and digits. |
| DigestRefs.DigestPullRef | criteria-k8s/internal/jobbuilder/per_scope_peer.go:702-717 | Builds a reference exactly when digest and repository are valid, from those two parts. |
| DigestRefs.SplitReturnsWhatWasValidated | criteria-k8s/internal/jobbuilder/per_scope_peer.go:834-847 | Splitting a built reference at its first separator returns the validated repository and digest, so the script's fallback guard cannot fire. |
| DigestRefs.QuoteLosesOnlyQuotes | criteria-k8s/internal/jobbuilder/per_scope_peer.go:942-944 | A shell reads a quoted word back as the word without its single quotes, whole exactly when it had none. |
| DigestRefs.ScriptReadsEveryValue | criteria-k8s/internal/jobbuilder/per_scope_peer.go:834-888 | Every value a digest-lane script interpolates is read back by the shell character for character. |
| DigestRefs.BareUnlessPinnedTwice | criteria-k8s/internal/jobbuilder/per_scope_peer.go:741-750 | The pull repository carries no pin exactly when the reference was pinned at most once. |
| DigestRefs.TagSurvives | criteria-k8s/internal/jobbuilder/per_scope_peer.go:741-750 | An accepted reference whose tag stays in the pull reference. |
| PeerPods.TiedOrOrdered | criteria-k8s/internal/jobbuilder/per_scope_peer.go:236-246 | The comparator never orders two members both ways, and leaves them unordered exactly when all three keys agree. |
| PeerPods.BeforeIsStrict | criteria-k8s/internal/jobbuilder/per_scope_peer.go:236-246 | The comparator is asymmetric and transitive on all members. |
| PeerPods.EnvGraphDefs | criteria-k8s/internal/controller/peer_composition.go:34-89 | The nested loops leave, per environment, the first definition of every key across all layers. |
| PeerPods.MergeKeepsDefinitionsDistinct | criteria-k8s/internal/controller/peer_composition.go:56-76 | No environment lists one definition identity twice. |
| PeerPods.MergeCoversEveryKey | criteria-k8s/internal/controller/peer_composition.go:56-76 | Every complete binding is kept, or an earlier one printed as the same key is. |
| PeerPods.MergeKeepsOnlyBindings | criteria-k8s/internal/controller/peer_composition.go:57-59 | A binding that lacks its kind, its name or its environment is never kept. |
| PeerPods.GraphEnvironmentJoins | criteria-k8s/internal/controller/peer_composition.go:60-63 | A binding to "type.name" is filed under the identity provisions of that environment carry. |
| PeerPods.SyntheticCarriesItsDefinition | criteria-k8s/internal/controller/peer_composition.go:97-109 | A member made up for a definition carries its kind, name, digest and source, and no scope, token or address. |
| PeerPods.GraphKeyIsInjective | criteria-k8s/internal/controller/peer_composition.go:62-64 | Without the key's separator in the names, one key means one definition in one environment. |
| PeerPods.Fill | criteria-k8s/internal/controller/per_scope.go:166-177 | Filling in a reference changes nothing else of a member. |
| PeerPods.FillTakesTheFirstSource | criteria-k8s/internal/controller/per_scope.go:166-177 | A member with a digest and no reference takes the source of the first definition with a source for its kind and name; every other member stays as it is. |
| PeerPods.CompleteGroup | criteria-k8s/internal/controller/per_scope.go:152-186 | A group is the provisions, each with its reference filled in from the first definition that supplies one, plus one member per definition nobody provisioned, and no two members tie under the comparator. |
| PeerPods.GraphSuppliesTheLocation | criteria-k8s/internal/controller/per_scope.go:159-177 | In the built pod, a provision with a valid digest and no reference that decides its kind is staged by digest from the first definition that supplies a source: the script reads that repository and the provision's own digest. |
| PeerPods.DecidedStage | criteria-k8s/internal/jobbuilder/per_scope_peer.go:654-671 | A kind is staged as its member with the smallest scope key, then name, says. |
| PeerPods.FirstsRepresent | criteria-k8s/internal/jobbuilder/per_scope_peer.go:654-671 | Every key present among the members keeps exactly one representative. |
| PeerPods.FirstDecides | criteria-k8s/internal/jobbuilder/per_scope_peer.go:654-671 | The earliest member of a key is its representative. |
| PeerPods.DialMember | criteria-k8s/internal/jobbuilder/per_scope_peer.go:247-258 | The dial member is the first with a token or shim address, else the first member. |
| PeerPods.SortedKeys | criteria-k8s/internal/jobbuilder/per_scope_peer.go:971-1015 | The manifest and kind lists hold each identity of the members once, in byte order. |
| PeerPods.DigestPins | criteria-k8s/internal/jobbuilder/per_scope_peer.go:504-526 | One pin per definition whose first member carries a digest, fully qualified. |
| PeerPods.AdapterStages | criteria-k8s/internal/jobbuilder/per_scope_peer.go:654-671 | One stage per kind in kind order, by digest exactly when the kind's first member has a pull reference. |
| PeerPods.BinaryOverrides | criteria-k8s/internal/jobbuilder/per_scope_peer.go:1120-1150 | One override per definition, pointing at the staged copy when its kind is staged by digest or several kinds are hosted. |
| PeerPods.ContainerResources | criteria-k8s/internal/jobbuilder/per_scope_peer.go:1186-1196 | Each request and limit is the greatest over the members and some member's own. |
| PeerPods.PodSize | criteria-k8s/internal/jobbuilder/per_scope_adapter.go:266-302 | The pod requests 2048Mi and 500m with a copilot, else 512Mi and 250m, and is limited to 8192Mi and 2000m with a copilot or a shell, else to 2048Mi and 1000m. |
| PeerPods.WireDelivery | criteria-k8s/internal/jobbuilder/per_scope_peer.go:1202-1212 | Tokens travel on the wire exactly when there is an address and every member carries one. |
| PeerPods.BuildPerScopePeerPod | criteria-k8s/internal/jobbuilder/per_scope_peer.go:231-333 | A non-empty group yields the pod composed from its members in comparator order. |
| PeerPods.SameGroupSamePod | criteria-k8s/internal/jobbuilder/per_scope_peer.go:231-333 | Groups with the same members yield the same pod, whatever the order. |
| PeerPods.PodIgnoresIterationOrder | criteria-k8s/internal/controller/per_scope.go:142-203 | The pod of an environment depends on which provisions are active and what the graph binds, on no iteration order. |
| PeerPods.ManifestIsComplete | criteria-k8s/internal/controller/per_scope.go:133-186 | The manifest names exactly the definitions the environment provisions or binds. |
| PeerPods.DialsARealProvision | criteria-k8s/internal/jobbuilder/per_scope_peer.go:247-258 | While some provision has a dial identity, a member made up from the graph never supplies the dial address. |
| PeerPods.DialsTheFirst | criteria-k8s/internal/jobbuilder/per_scope_peer.go:236-258 | Of the members with a token or an address the pod dials the one with the smallest scope key, then kind, then name. |
| PeerPods.EveryDefinitionHasOneBinary | criteria-k8s/internal/jobbuilder/per_scope_peer.go:1120-1150 | The overrides cover each manifest definition exactly once and nothing else. |
| PeerPods.PinsAreConsistent | criteria-k8s/internal/jobbuilder/per_scope_peer.go:504-526 | No definition is pinned to two digests, and each pin is the digest of a member of that definition. |
| PerScope.AnyMemberNeedsRunner | criteria-k8s/internal/controller/per_scope.go:71-83 | A pass needs the runner's address exactly when an active provision carries an accept token or an environment. |
| PerScope.AdapterPods.GroupByEnvironment | criteria-k8s/internal/controller/per_scope.go:104-143 | Every environment with an active provision gets all its members, and every other provision its own fallback pod. |
| PerScope.CompleteGroups | criteria-k8s/internal/controller/per_scope.go:152-191 | Every group is completed from the graph, or left as provisioned when there is no usable graph. |
| PerScope.AdapterPods.DesiredPods | criteria-k8s/internal/controller/per_scope.go:98-203 | The desired names are those of the active provisions, each with a content one of them accounts for. |
| PerScope.AdapterPods.DeleteUndesired | criteria-k8s/internal/controller/per_scope.go:234-258 | Desired pods are untouched; without an error every other pod is gone or terminating. |
| PerScope.AdapterPods.CreateMissing | criteria-k8s/internal/controller/per_scope.go:260-289 | Existing pods are untouched and only missing desired pods appear; without an error none stays missing unless the name is taken. |
| PerScope.AdapterPods.Reconcile | criteria-k8s/internal/controller/per_scope.go:46-292 | A pass that cannot resolve a needed address changes nothing; any pass keeps every desired pod as it is; an error-free one leaves the desired names and at most terminating others, and reports the number of active provisions; it converges exactly when the address it needs is there and every call it makes is answered, and then exactly the names those answers say are left. |
| PerScope.AdapterPods.PeerPodNeverChurns | criteria-k8s/internal/controller/per_scope.go:234-258 | Over any sequence of passes a peer pod is never replaced while its environment keeps an active provision. |
| PerScope.AdapterPods.ConvergedPassesAreIdle | criteria-k8s/internal/controller/per_scope.go:234-289 | Once an error-free pass has drained, the pod names are exactly the desired ones and a repeated pass changes nothing. |
| PerScope.AdapterPods.ContentIsDetermined | criteria-k8s/internal/controller/per_scope.go:104-203 | While distinct hosts have distinct names, a created pod is decided by history, graph and address. |
| PerScope.AdapterPods.HostsHaveOwnNames | criteria-k8s/internal/controller/per_scope.go:104-143 | Under the real names two active provisions share a pod name only as members of one environment, when their hashes differ, a scope has one adapter and no fallback kind spells a peer segment. |
| Names.TrimHyphens | criteria-k8s/internal/jobbuilder/per_scope_adapter.go:253-264 | The two loops trim hyphens from both ends, and never return an empty name. |
| Names.SafeNameIsLabel | criteria-k8s/internal/jobbuilder/jobbuilder.go:114-126 | Whatever the input, the sanitised name is a DNS label of at most 63 bytes. |
| Names.LabelIsFixed | criteria-k8s/internal/jobbuilder/jobbuilder.go:114-126 | A name that is already a label is left alone. |
| Names.CollapseRuns | criteria-k8s/internal/jobbuilder/jobbuilder.go:105-126 | Each run of unfit characters becomes one hyphen and nothing else of a name is changed. |
| Names.AlnumIsLetterOrDigit | criteria-k8s/internal/jobbuilder/jobbuilder.go:105-126 | Fit for a label are the lower-case letters, the digits and the hyphen. |
| Names.PrefixIsLabel | criteria-k8s/internal/jobbuilder/per_scope_peer.go:68-87 | The job prefix is a label that fits beside its reserve or is cut to 24 bytes. |
| Names.PeerNameKeepsHashes | criteria-k8s/internal/jobbuilder/per_scope_peer.go:96-116 | Every peer pod name is a label that ends in both full hashes. |
| Names.AdapterNameKeepsHash | criteria-k8s/internal/jobbuilder/per_scope_adapter.go:30-43 | Every fallback pod name is a label that ends in the full scope hash, however long the kind. |
| Names.PeerNamesDiscriminate | criteria-k8s/internal/jobbuilder/per_scope_peer.go:103-116 | Equal peer names force equal scope and environment hashes. |
| Names.AdapterNamesDiscriminate | criteria-k8s/internal/jobbuilder/per_scope_adapter.go:30-43 | Equal fallback names force equal scope hashes. |
| Names.UncappedNamesAreExact | criteria-k8s/internal/jobbuilder/per_scope_peer.go:60-90 | A sanitised job name that fits is printed whole before the segment and suffix; one that is a label is not changed by sanitising. |
| NameCollisions.FamiliesMeetIff | criteria-k8s/internal/jobbuilder/per_scope_adapter.go:30-43 | Some run's peer and fallback names are equal exactly when the fallback's scope hashes like the peer's environment and the sanitised kind ends in "-peer-" and the peer's scope hash in a shape that survives the cuts. |
| NameCollisions.ShortKindsAreDisjoint | criteria-k8s/internal/jobbuilder/per_scope_adapter.go:30-43 | A sanitised kind of at most 18 bytes never meets a peer name. |
| NameCollisions.LongKindCanCollide | criteria-k8s/internal/jobbuilder/per_scope_peer.go:95-101 | For every hash, scope and environment, a job and a kind of 19 bytes whose two names are equal. |
| NameCollisions.EightBytesRecur | criteria-k8s/internal/jobbuilder/per_scope_peer.go:95-101 | Any eight bytes before the spelled segment survive the cut from the left. |
| Truncate.CutRuneSafe | criteria-k8s/internal/castle/archive.go:240-246 | The loop stops at the last character boundary at or before its start. |
| Truncate.TruncateBytes | criteria-k8s/internal/castle/archive.go:233-263 | Short input is kept; long input becomes its longest marked prefix within the cap, or a bare one when no marked one fits. |
| Truncate.TruncationFits | criteria-k8s/internal/castle/archive.go:233-263 | A positive cap is respected, truncating again changes nothing, and the result is the input or a prefix with or without the marker. |
| Truncate.TruncationIsWellFormed | criteria-k8s/internal/castle/archive.go:233-263 | Well-formed UTF-8 (section 4 of RFC 3629) stays well-formed. |
| Truncate.TruncationIsGreedy | criteria-k8s/internal/castle/archive.go:250-262 | No longer well-formed prefix fits beside the marker, so for caps above six at most six bytes go unused. |
| Truncate.CutsWellFormed | criteria-k8s/internal/castle/archive.go:237-246 | Inside well-formed text a prefix is well-formed exactly when it ends at a character boundary. |
| Truncate.EncodedIsWellFormed | criteria-k8s/internal/castle/archive.go:237-246 | The encoding of any code points is well-formed text. |
| Truncate.WellFormedIsEncoded | criteria-k8s/internal/castle/archive.go:237-246 | Well-formed text is the encoding of some code points, so the characters a cut respects are those of UTF-8. |
| Retention.OutranksIsStrict | criteria-k8s/internal/controller/crretention.go:214-225 | The family comparator is asymmetric and transitive. |
| Retention.PositionIsRank | criteria-k8s/internal/controller/crretention.go:214-231 | In the sorted family, position k has exactly k family members above it. |
| Retention.KeptByFamily | criteria-k8s/internal/controller/crretention.go:203-231 | The kept set is the terminal runs with fewer than keepLast family members above them. |
| Retention.NewerThanKeptIsKept | criteria-k8s/internal/controller/crretention.go:214-231 | A terminal run that ended later than a kept run of its ticket, or at the same time but was created later, or then has the smaller name, is kept. |
| Retention.WindowIsFull | criteria-k8s/internal/controller/crretention.go:203-231 | A ticket keeps exactly keepLast of its terminal runs, or all of them when it has fewer. |
| Ordering.LessIsLexicographic | criteria-k8s/internal/controller/crretention.go:224 | Strings are compared byte by byte: a proper prefix comes first, otherwise the first difference decides. |
| Retention.Sweeper.Sweep | criteria-k8s/internal/controller/crretention.go:178-288 | A pass deletes exactly the archived, stamped, unparked terminal runs that are old enough and outside the window and whose delete succeeds; without the opt-in or the listing it deletes nothing. |
| Retention.SweepIsARun | criteria-k8s/internal/controller/crretention.go:178-288 | A whole pass is a listing followed by its deletions, so it may be interleaved call by call. |
| Retention.StampIsLegal | criteria-k8s/internal/controller/crretention.go:82-93 | The terminal stamp is written once, only on terminal runs, and never changed by a later call: castle's terminal time when known, else the recorded end, else now. |
| Retention.OutsideWindowIsProtected | criteria-k8s/internal/controller/crretention.go:203-231 | A run outside the window has keepLast live family members above it, not counting those already being deleted. |
| Retention.SweepsKeepTheNewest | criteria-k8s/internal/controller/crretention.go:178-288 | However sweeps, new runs, stamps and finalizations interleave, every run a sweep chose has keepLast live terminal family members above it from then on. |
| Retention.SweptRunsLeaveNewer | criteria-k8s/internal/controller/crretention.go:178-288 | However sweeps, new runs, stamps and finalizations interleave, every run a sweep chose leaves at least keepLast other live terminal runs of its ticket, none of which ended earlier than it. |
| Retention.PendingWasCandidate | criteria-k8s/internal/controller/crretention.go:233-283 | Every decision to delete was made on a listing in which the run was archived, stamped, unparked, old enough and outside the window. |
| Retention.OnlyCandidatesGo | criteria-k8s/internal/controller/crretention.go:233-283 | A run that ever existed is still there untouched unless some sweep chose it. |
| Retention.UnstampedNeverDisplaces | criteria-k8s/internal/controller/crretention.go:375-380 | An unstamped run holds a place in the window only when every stamped member of its family does. |
| Reap.PodRestartPending | criteria-k8s/internal/controller/terminalcleanup.go:116-157 | Reports the first container that may start again, and none exactly when the pod is settled. |
| Reap.RunnerRestartPending | criteria-k8s/internal/controller/terminalcleanup.go:89-111 | Pending exactly when the listing failed or some runner pod is not settled. |
| Reap.UpsertCondition | criteria-k8s/internal/controller/workflowsource.go:48-63 | The loop replaces the first entry of the type in place, or appends one. |
| Reap.UpsertReplacesOne | criteria-k8s/internal/controller/workflowsource.go:48-63 | The entry keeps its transition time exactly while its status stays, and entries of other types are untouched. |
| Reap.RemovedEntryIsGone | criteria-k8s/internal/controller/terminalcleanup.go:211-217 | Clearing removes the deferral entry and no other. |
| Reap.TerminalRun.TerminalCleanupCondition | criteria-k8s/internal/controller/terminalcleanup.go:161-168 | Finds the deferral stamp in force, if any. |
| Reap.TerminalRun.MarkTerminalCleanupDeferred | criteria-k8s/internal/controller/terminalcleanup.go:175-197 | A persisted deferral forces exactly when an earlier stamp is past the window; a failed read or write neither stamps nor forces. |
| Reap.TerminalRun.ClearTerminalCleanup | criteria-k8s/internal/controller/terminalcleanup.go:202-222 | Removes the stamp, or leaves everything when a call fails, and says which. |
| Reap.TerminalRun.DeleteChildJobs | criteria-k8s/internal/controller/baseimage.go:245-260 | Deletes the desired Jobs in order up to the first failing call. |
| Reap.TerminalRun.DeleteTerminalChildJobs | criteria-k8s/internal/controller/baseimage.go:213-240 | A pass defers, or reaps and clears, and reports which of its calls decided that. |
| Reap.ReapedIsDone | criteria-k8s/internal/controller/baseimage.go:213-240 | A pass that reports the reap done has left no desired Job and no deferral. |
| Reap.StampIsFirstDeferral | criteria-k8s/internal/controller/terminalcleanup.go:175-197 | The stamp in force is the time of the first persisted deferral of its episode, however often it was written since. |
| Reap.ReapIsGuarded | criteria-k8s/internal/controller/baseimage.go:213-240 | A pass removes Jobs only when every runner pod was listed as settled, or past a positive window since the episode's first deferral. |
| Reap.ReapIsBounded | criteria-k8s/internal/controller/baseimage.go:213-240 | With a working API and passes at most d apart, all desired Jobs are gone by one gap past the window, whatever the runner does. |
| Reap.ForceIsExactOnWholeSeconds | criteria-k8s/internal/controller/terminalcleanup.go:182-183 | The window is measured exactly when the deferral began on a full second. |
| Reap.ForcedPassRestamps | criteria-k8s/internal/controller/baseimage.go:205-225 | A forced pass whose deletion fails has stored the wait it saw, under the stamp of the episode. |
| Stall.WatchedRun.ApplyStallWatchdog | criteria-k8s/internal/controller/stallwatchdog.go:53-87 | Stamps progress or, once, a baseline, and fires on a Running run past the window. |
| Stall.WatchedRun.Pass | criteria-k8s/internal/controller/criteriarun_controller.go:486-533 | A terminal run is left alone; an idle or unobserved pass never fires; a lost write changes nothing. |
| Stall.StampIsBaseline | criteria-k8s/internal/controller/stallwatchdog.go:58-75 | The stored stamp is the last progress seen, else the first stored observation, and is never reset otherwise. |
| Stall.FiresExactlyWhenStale | criteria-k8s/internal/controller/stallwatchdog.go:53-87 | A pass fails the run exactly when it is an authoritative non-idle pass over a Running run whose clock is older than the window. |
| Stall.HeartbeatOnlyRunIsFailed | criteria-k8s/internal/controller/stallwatchdog.go:58-72 | A run that never shows progress is failed exactly past the window since its first stored observation. |
| Stall.StallIsFinal | criteria-k8s/internal/controller/stallwatchdog.go:100-131 | Once failed, the run stays failed. |
| Stall.ObservedPass | criteria-k8s/internal/controller/stallwatchdog.go:53-87 | A pass that drains what the server shows and judges the run by it fires exactly on the progress of the stretch the drain reached; a firing means that stretch, and the whole visible stream when it fits the budget, was quiet. |
| Stall.FailureMeansQuietIff | criteria-k8s/internal/castle/castle.go:471-530 | Every failure on one drain's progress means the whole visible stream was quiet exactly when that stream goes at most fifty pages beyond the stored cursor. |
| Stall.BudgetedDrainCanFailALiveRun | criteria-k8s/internal/castle/castle.go:471-530 | A fresh client, a Running run and a stream on which one drain and one pass fail the run although its newest event is recent. |
| PodStateFeeds.PodStateFeed.PruneStale | criteria-k8s/internal/castle/podstate.go:313-324 | Drops exactly the entries older than the lifetime, from both maps. |
| PodStateFeeds.PodStateFeed.Submit | criteria-k8s/internal/castle/podstate.go:327-376 | Succeeds exactly when a valid report is acknowledged within the attempt budget and before cancellation. |
| PodStateFeeds.PodStateFeed.Choose | criteria-k8s/internal/castle/podstate.go:243-267 | Picks the joinable reports whose signal differs from the cached one, and counts the scope-less ones. |
| PodStateFeeds.PodStateFeed.SubmitAll | criteria-k8s/internal/castle/podstate.go:284-299 | Each acknowledged report enters the cache and the log; a failed one changes neither. |
| PodStateFeeds.PodStateFeed.Emit | criteria-k8s/internal/castle/podstate.go:232-306 | After any call the cache holds exactly the last accepted signal of every key; and when no two changed reports castle would accept carry one key and one signal, the accepted signals never repeat except across a prune. |
| PodStateFeeds.BatchAgrees | criteria-k8s/internal/castle/podstate.go:284-299 | Whatever subset of a batch is accepted, and whatever the batch repeats, cache and log stay in agreement. |
| PodStateFeeds.BatchNeverRepeats | criteria-k8s/internal/castle/podstate.go:261-299 | While no two accepted reports of a changed batch share key and signal, nothing is repeated. |
| PodStateFeeds.NeverRepeatsIff | criteria-k8s/internal/castle/podstate.go:232-306 | No answers of castle make a batch tell a key the same thing twice in a row, exactly when no two changed reports castle would accept carry one key and one signal. |
| PodStateFeeds.ChangedStaysDistinct | criteria-k8s/internal/castle/podstate.go:261-267 | That condition holds whatever the cache says when the whole batch has no such pair. |
| PodStateFeeds.TwoMembersRepeat | criteria-k8s/internal/controller/podstate.go:32-66 | Two members of one adapter type in one scope instance report alike, and a fresh feed that emits the batch tells their key the same signal twice in a row. |
| PodStateFeeds.AllAcceptedAgrees | criteria-k8s/internal/castle/podstate.go:232-306 | When every submit succeeds the cache agrees with every joinable report, one per scope. |
| PodStateFeeds.OnlyJoinableAccepted | criteria-k8s/internal/castle/podstate.go:243-260 | Nothing but a joinable report of the batch is ever accepted. |
| PodStateFeeds.OnlyKnownStatesAccepted | criteria-k8s/internal/events/podstate.go:121-139 | Whatever castle answers, only a report of the batch with an adapter type, a scope instance and one of the five phases is ever accepted. |
| PodStateFeeds.SignalIsPhaseAndReason | criteria-k8s/internal/events/podstate.go:113-119 | Two reports castle would accept carry one signal exactly when phase and reason agree. |
| PodStateFeeds.KeyIsRunAndScope | criteria-k8s/internal/events/podstate.go:105-111 | Without a slash in the run id, type and scope name, a key means one run, adapter type, scope name and scope instance. |
| PodStateFeeds.SkipsCountOn | criteria-k8s/internal/castle/podstate.go:243-260 | The skip counter of a key grows by exactly the scope-less reports of the batch, noted or not. |
| PodStateFeeds.NotesAreRateLimited | criteria-k8s/internal/castle/podstate.go:243-260 | A batch with scope-less reports of a key notes it now, unless its last note is younger than the interval. |
| Bridge.AppendEntry | criteria-k8s/internal/control/agentbridge.go:119-144 | The ledgers stay exactly the acknowledged starts and terminals when an entry their guards allow is added. |
| Bridge.AssignmentAgent.EnsureStarted | criteria-k8s/internal/control/agentbridge.go:191-203 | Acknowledges a start at most once per run. |
| Bridge.AssignmentAgent.BridgeTerminal | criteria-k8s/internal/control/agentbridge.go:209-219 | Records an acknowledged terminal; releases on acknowledgement, and on a lost record even without one. |
| Bridge.AssignmentAgent.BridgeStep | criteria-k8s/internal/control/agentbridge.go:149-186 | One poll adds exactly what the record's state owes, and releases exactly on a closing poll. |
| Bridge.AssignmentAgent.Deliver | criteria-k8s/internal/control/agentbridge.go:87-111 | Follows the record poll by poll, submits nothing for a run whose terminal was acknowledged, and keeps at most one start and one terminal per run with no start after the terminal. |
| Bridge.AssignmentAgent.Process | criteria-k8s/internal/control/agent.go:531-562 | Each assignment is opened and closed around exactly the entries its branch produces. |
| Bridge.AssignmentAgent.ProcessLoop | criteria-k8s/internal/control/agent.go:404-413 | The history grows by exactly what each delivery of the queue owes in turn, brackets never overlapping. |
| Bridge.ReleaseReasons | criteria-k8s/internal/control/agentbridge.go:87-111 | The lane is released by an acknowledged terminal, by a lost record whose submit failed, or by the end of the context, and says which; an acknowledged terminal completes the row exactly when the closing poll reads Succeeded with a completing verdict. |
| Bridge.TerminalsMirrorTheRecord | criteria-k8s/internal/control/agentbridge.go:61-67 | Over any queue, every acknowledged bridge terminal mirrors the closing poll of a delivery of that run: completed exactly for Succeeded with "handler_complete" or "ready_for_development". |
| Bridge.FailClosedBypassesTheLedger | criteria-k8s/internal/control/agentbridge.go:266-281 | A history in which a run closed by the fail-closed path starts and completes later. |
| Bridge.FinalOnceIff | criteria-k8s/internal/control/agentbridge.go:266-281 | For every queue, nothing is acknowledged for a run after an acknowledged terminal or fail-closed close exactly when no delivery closes, finishes or first starts a closed run, or closes a finished one. |
| Bridge.ClosedTwice | criteria-k8s/internal/control/agentbridge.go:266-281 | Two failed-closed deliveries of one run are two acknowledged terminals. |
| Watcher.IndexRunPhases | criteria-k8s/cmd/kanboard-watcher/main.go:941-1011 | Each board ticket with a run is indexed with the fields of its run created last, ties going to the greater name, and is active exactly when some run of it is neither Succeeded nor Failed. |
| Watcher.NewerIsOrder | criteria-k8s/cmd/kanboard-watcher/main.go:1016-1021 | The newest-run comparison is a strict weak order. |
| Watcher.BoardWatcher.ReconcileTaskColumn | criteria-k8s/cmd/kanboard-watcher/main.go:1115-1161 | A card moves only when the move succeeds: to review for a failed run, to done for a developing run whose verdict is complete, from done back to review for a verdict against the work, and otherwise nowhere. |
| Watcher.DoneIsEarned | criteria-k8s/cmd/kanboard-watcher/main.go:113-166 | A card ends in Done only if it was listed there or its latest run is a Succeeded non-triage one with "handler_complete". |
| Watcher.BoardWatcher.ReconcileCards | criteria-k8s/cmd/kanboard-watcher/main.go:743-760 | Cards are moved so only on a run change, and the run is recorded as seen even when the move failed. |
| Watcher.BoardWatcher.Forget | criteria-k8s/cmd/kanboard-watcher/main.go:761-781 | Tickets without an indexed run are forgotten, except card memos of assignments still in flight. |
| Watcher.BoardWatcher.FireEntries | criteria-k8s/cmd/kanboard-watcher/main.go:783-897 | Exactly the cards that pass every gate in a column they were not last seen in fire, the runs created are those whose create is taken, and every listed card's column is remembered either way. |
| Watcher.BoardWatcher.Poll | criteria-k8s/cmd/kanboard-watcher/main.go:687-915 | A poll is one step of every ticket's memory, leaves every listed card in the column its latest run calls for, and fires and creates exactly the tickets that step says; a failed read changes nothing. |
| Watcher.FiresAreBounded | criteria-k8s/cmd/kanboard-watcher/main.go:783-897 | While a ticket stays known its fires are at most its column changes, plus one for a first sighting. |
| Watcher.MemoIsLastListed | criteria-k8s/cmd/kanboard-watcher/main.go:783-795 | The memo is the post-reconciliation column of the last poll that listed the card. |
| Watcher.FiresOnEntryOnly | criteria-k8s/cmd/kanboard-watcher/main.go:856-882 | A later fire happens with every run settled and in another column than at the last poll that listed the card. |
| Watcher.EntryFiresIffGatesOpen | criteria-k8s/cmd/kanboard-watcher/main.go:795-897 | A stay in a column that is never forgotten fires once if the gates were open at the poll that saw the entry, and never otherwise; when that create fails no run is made. |
| Watcher.StayCreatesIff | criteria-k8s/cmd/kanboard-watcher/main.go:761-897 | A stay makes a run exactly when the create is taken at the entry, or at a later poll that finds the ticket with neither an indexed run nor an assignment in flight. |
| Watcher.HandoffDuringRunIsLost | criteria-k8s/cmd/kanboard-watcher/main.go:856-882 | A card handed to a trigger column while its run is in flight is never fired there, although the gates open later. |

## Left out

- Connect, HTTP, Kanboard and Kubernetes plumbing, flags, logging and health probes: calls are parameters that may fail.
- JSON, protobuf, SHA-256 and Unicode case folding: inputs arrive decoded; the hash and the case folding are arbitrary functions with the properties the names need. The regular expression of the name sanitiser is written out as the collapsing of runs.
- `Reconcile`'s adapter pods, binding validation and config rendering: only where they fail a pass or write a write-once field. `PerScope.dfy` covers the pods on their own.
- Which environment variables, mounts, labels and volumes a pod carries, the spelling of override variable names, and the shell script around its interpolated values.
- The sorted order of an environment's graph definitions, on which no group depends, and the order in which the library sort compares: insertion stands for it, since a strict order has one result.
- The client's maps over all runs: one object stands for the entries under one run id. Run discovery (`Observe`, `findRunByRunner`) is not modelled; a drain is given its run id.
- The per-scope pass is modelled for runs that opted in; without the opt-in the source returns before any call.
- `ApplyArchiveRecordCeilings` beyond `truncate`: the same truncation field by field, and list prefixes.
- `sweepOrphans` and `orphanVerify`: single reads that decide single deletes.
- The fallback pod's own fields: it is recorded as a function of its provision and the address.
- Submits that reach castle although the caller saw an error: the feed's and the bridge's histories are of acknowledged submits.
- An assignment that is nil or has no run id returns before any branch (`criteria-k8s/internal/control/agent.go:532-535`): the bridge's deliveries all carry a run id.
- The watcher's comments, run stamping and castle parity report; route resolution is an arbitrary function of ticket and column.
- Concurrent use of the queue's, feed's and agent's mutexes: their critical sections are whole methods.
- LifecycleHistories.OneRunPerQueue: for one replica and until a restart; LifecycleHistories.TwoReplicasAdmitTwo and LifecycleHistories.RestartCanAdmitAnother show that it fails otherwise, and LifecycleHistories.RestartAdmitsIff states exactly what a restart keeps.
