# Tunnel verification, modelled and proved

tunnelport's operator keeps one tunnel per `RemoteApp` and checks every tunnel in rounds: it
lists the RemoteApps and their pods, probes those whose pods claim to serve (a TLS handshake,
then one HTTP request through the verified session), stores the outcomes, and nudges the
reconciler for every RemoteApp whose outcome changed. The reconciler turns pods and outcomes
into status conditions and reports each outage of the far end with two Events, one when it
begins and one when it ends. This project models that loop in Dafny and proves what it keeps,
over every input and every run. `dafny verify dfyconfig.toml` checks it.

## How it is laid out

| file | content |
|---|---|
| `Types.dfy`, `Sorting.dfy` | names, clocks, outcomes; filtering, stable sorting and the two orders used |
| `History.dfy` | what an outage is, read off a whole history of rounds |
| `Store.dfy` | `VerificationStore`: outcomes and the three stamp maps, and that they are that history |
| `Conditions.dfy` | the condition list as the Kubernetes helpers edit it |
| `Pods.dfy`, `PodIndex.dfy` | pod readiness, ranking and summaries; which pods belong to which RemoteApp |
| `Status.dfy` | `computeStatus` and `statusEqual` |
| `Events.dfy`, `EventRuns.dfy`, `EventLimits.dfy` | the reconciler's status pass and whole runs of it; the Events they emit; where exactly-once ends |
| `Probe.dfy`, `Pool.dfy`, `Round.dfy`, `Verifier.dfy` | configuration and probe classes; the worker pool; one round; the verifier |
| `Loop.dfy`, `LoopLimits.dfy` | verifier, channel and reconciler together: agreement and quiescence; where agreement ends |
| `Metrics.dfy` | the exported series |
| `EndToEnd.dfy` | from what the network did with a probe to what the RemoteApp shows |

## How time and the outside world are represented

- Time is a natural number of nanoseconds that increases strictly along a run. A persisted
  `LastTransitionTime` is cut to whole seconds, as the API server stores it. The at-most-once
  and exactly-once results assume that a pass falls in a later second than every round which a
  further attempt of the verifier has overtaken by then (`Spaced`). The pass over the newest
  round may share its second, and does when the nudge is served at once; a verifier whose
  attempts are a second apart is always spaced (`SecondsApartAreSpaced`). Soundness of the Events and
  `PassSpeaksWhenDue` need no such assumption.
- A reconcile pass reads one snapshot of the store and sees its own earlier patches. A patch the
  API server rejects is a pass that is not `accepted`; a failed pod listing has the same effect.
- `meta.SetStatusCondition`, `FindStatusCondition` and `RemoveStatusCondition` are library
  functions, written out in `Conditions.dfy`. `sort.SliceStable` and `sort.Slice` are `StableSort`.
- A probe is any function from its target to one of the outcomes the probing code distinguishes.
  The statuses that count as unreachable are 502, 503 and 504 (sections 15.6.3 to 15.6.5 of
  RFC 9110).
- The worker pool may be scheduled in any way: time may pass at any moment, and a probe may take
  any time. Only the deadlines (`Makespan`, `RunPool` and what builds on it) ask for an eager
  schedule: no time passes while a worker can act, and a probe takes at most
  `Timeout + UpstreamTimeout`.
- The random start offsets, `http.StatusText` and the RFC 3339 rendering are parameters.
- Objects are named uniquely and never by the empty name, as the API server guarantees.

## What does not hold

- When the pass over a pod roll inside an outage falls in the outage's first second, the outage is
  reported twice: in the run of `OneSecondTwoWarnings` exactly then. When the pass over a pod roll
  after a recovery falls in the second of the recovery, the recovery is reported twice: in the run
  of `OneSecondTwoNormals` exactly then. `AtMostOnceExactly` is the condition for all runs.
- An outage whose first unreachable round is overtaken by a round that did not probe before any
  pass is never announced (`CoalescedPassesCanStaySilent`). `EventsAreExact` therefore asks that
  every nudge is served before the verifier's next attempt (`Prompt`); a round that changes
  nothing nudges nobody and needs no pass. After a change of leader, or a complete round without
  the RemoteApp, an outage ends without its Event (`ForgottenOutageIsNeverClosed`).
  `PassSpeaksWhenDue` says for every pass of every run exactly when it speaks.
- `podErrorReason` is documented as mirroring `summarizePodError`. The two look at the same
  container if and only if the first container with anything to show also names a reason
  (`SameSource`); `RankingCanMissTheSummary` is a pod where they differ.
- A RemoteApp deleted and re-created under the same name while a round is in flight can keep
  showing a verdict the store has dropped, with no nudge (`RecreatedMidRoundDrifts`). With room in
  the channel a run stays in step if and only if every round covers the live RemoteApps that hold
  a verdict and have no reconcile coming (`AgreementExactly`).
- The comment on `enqueue` says that a dropped nudge loses nothing because a reconcile for that
  RemoteApp is already queued. A full channel may hold only other keys (`FullChannelDrifts`);
  `ChannelTakesTheFirst` says which nudges are lost, `RoundStaysInStepExactly` when that matters.
- A lost bundle nudges nobody (`BundleLossDrifts`, and exactly when it matters:
  `BundleLossExactly`). Until the next complete round a RemoteApp may show what the store said
  before the loss, and nothing older (`AgreementAlongRuns`).
- CONTEXT.md:151-152 says that the verifier gates on `status.ready`. The code reads the pods, and
  so does the model.

## Model

| member | source | states |
|---|---|---|
| History.StampsAreTheHistory | internal/controller/remoteapp/verify_metrics.go:260-317 | the stamps kept round by round equal the values read off the whole history: last reachable round, start of the outage no later round ended, last round that closed an outage; each an if-and-only-if |
| History.DownMeansLastAskedFailed | internal/controller/remoteapp/verify_metrics.go:268-273 | an outage is open exactly when the last round that sent a request got no answer, however many rounds did not probe since |
| History.StampsOrdered | internal/controller/remoteapp/verify_metrics.go:288-310 | with an increasing clock, recovery is no later than last success and both precede an open outage's start |
| History.BoundariesAlternate | internal/controller/remoteapp/controller.go:358-379 | outage boundaries alternate opening and closing, and the newest ones are the stamps held |
| History.BoundariesCount | internal/controller/remoteapp/controller.go:358-379 | one boundary per opening or closing round; openings exceed closings by one exactly while an outage is open |
| Store.ReplayStamps | internal/controller/remoteapp/verify_metrics.go:274-334 | after any rounds and bundle losses the stamps of a key are those of its rounds since it was last absent |
| Store.ReplayDomains | internal/controller/remoteapp/verify_metrics.go:280-314 | stamps exist only for RemoteApps of the last complete round |
| Store.StoreRefinesHistory | internal/controller/remoteapp/verify_metrics.go:260-334 | after every sequence of rounds and bundle losses the whole store (verdicts, flags, three maps) says what the history says |
| Store.StampOrder | internal/controller/remoteapp/verify_metrics.go:280-314 | the order of the stamps in every reachable store state |
| Store.UnreachableMeansDown | internal/controller/remoteapp/verify_metrics.go:296-305 | a stored unreachable verdict has its outage open, in every reachable state |
| Store.VerificationStore.constructor | internal/controller/remoteapp/verify_metrics.go:169-177 | a new store is empty, unprobed, and probes upstream only when enabled |
| Store.VerificationStore.Replace | internal/controller/remoteapp/verify_metrics.go:274-317 | the new state as a function of the old one and the round, and that it still refines the longer history |
| Store.VerificationStore.RebuildStamps | internal/controller/remoteapp/verify_metrics.go:288-311 | the loop of Replace, in any key order, leaves in three fresh maps exactly the stamps of the round's keys |
| Store.VerificationStore.Tally | internal/controller/remoteapp/verify_metrics.go:289-310 | the switch for one key: its three new stamps, every other key untouched |
| Store.VerificationStore.SetBundleUnavailable | internal/controller/remoteapp/verify_metrics.go:328-334 | verdicts are dropped, stamps stay, and the history is still refined |
| Store.VerificationStore.Result | internal/controller/remoteapp/verify_metrics.go:229-234 | the verdict in force is that of the newest operation |
| Store.VerificationStore.LastUpstreamSuccess | internal/controller/remoteapp/verify_metrics.go:237-242 | the time of the last good probe of the history, or that there is none |
| Store.VerificationStore.UpstreamDownSince | internal/controller/remoteapp/verify_metrics.go:245-250 | the start of the outage still open, or that none is |
| Store.VerificationStore.UpstreamRecoveredAt | internal/controller/remoteapp/verify_metrics.go:253-258 | the end of the last outage that ended, or that none did |
| Events.EventsAtMostOnce | internal/controller/remoteapp/controller.go:380-420 | over every spaced run (rounds, bundle losses, leader changes, coalesced passes, rejected patches, any persisted status) no two Warnings share an outage start and no two Normals a recovery |
| Events.StoreFacts | internal/controller/remoteapp/verify_metrics.go:288-334 | at every point of a run the store's stamps are the history's, and a stored unreachable (reachable) verdict means an open (no open) outage |
| Events.PassEffect | internal/controller/remoteapp/controller.go:333-352 | an accepted pass leaves the verdict in force on UpstreamReachable, moves its time only with its status, and adds exactly what the transition rule says; a rejected one changes nothing |
| Events.PassPersists | internal/controller/remoteapp/controller.go:339-350 | an accepted pass leaves exactly the status computed from its inputs, whether it wrote it or found it there |
| Events.PersistedStatusTells | internal/controller/remoteapp/controller.go:339-350 | after every accepted pass of every run: ready iff a live pod is ready and the stored verdict is not unreachable, lastError empty iff ready and otherwise the worst pod's or the probe's words, and the Ready, role and Reconciled conditions say what the pods and the apply errors say |
| Events.Reconciler.ReconcileStatus | internal/controller/remoteapp/controller.go:333-352 | after an accepted pass the persisted status is the whole computed one, after a rejected one what it was, with a store or without; with a store the Events are those of the pass the run theorems are about |
| Events.Reconciler.EmitUpstreamTransition | internal/controller/remoteapp/controller.go:380-420 | which Event is appended for a condition change, and that nothing is without a recorder, a store or the condition |
| EventRuns.EventsAreSound | internal/controller/remoteapp/controller.go:345-420 | only an accepted pass speaks, once, with the message it persisted; a Warning inside an open outage, a Normal for an outage that ended no earlier than the condition's previous transition |
| EventRuns.PassSpeaksWhenDue | internal/controller/remoteapp/controller.go:369-419 | for every accepted pass of every run, exactly when it emits a Warning or a Normal, in terms of the outages of the history and the previous condition |
| EventRuns.AtMostOnceExactly | internal/controller/remoteapp/controller.go:380-420 | over every run, spaced or not: no two Warnings share an outage start and no two Normals a recovery if and only if no accepted pass finds a boundary already reported and a condition too old to remember it |
| EventRuns.NoNewsNoBoundary | internal/controller/remoteapp/verify.go:689-693 | a round that finds the verdict in force opens and closes no outage and moves no stamp but the last success, so nothing is lost by not nudging for it |
| EventRuns.EventsAreExact | internal/controller/remoteapp/controller.go:353-420 | under one leader, for a RemoteApp that stays listed, from any persisted status outside an outage, when every nudge is served before the next attempt (unchanged rounds need no pass): the Events are the outage boundaries of the history, in order and with their times |
| EventRuns.EventsAlternate | internal/controller/remoteapp/controller.go:353-420 | hence Events alternate Warning, Normal, one Warning per outage opened and one Normal per outage closed |
| EventLimits.SecondsApartAreSpaced | internal/controller/remoteapp/verify.go:539-557 | attempts at least a second apart meet the spacing hypothesis, wherever the passes fall |
| EventLimits.OneSecondTwoWarnings | internal/controller/remoteapp/controller.go:395-401 | a run with one outage around a pod roll, prompt and under one leader: two Warnings exactly when the pass over the roll is persisted no later than the outage start, else one |
| EventLimits.OneSecondTwoNormals | internal/controller/remoteapp/controller.go:406-418 | a run with one recovery before a pod roll: two Normals exactly when the pass over the roll is persisted no later than the recovery, else one |
| EventLimits.CoalescedPassesCanStaySilent | internal/controller/remoteapp/controller.go:395-405 | runs in which an outage is open and shown; it was announced exactly if the pass over the overtaking round is persisted no later than the outage start, which spacing excludes |
| EventLimits.ForgottenOutageIsNeverClosed | internal/controller/remoteapp/controller.go:406-418 | after a new leader or a round without the RemoteApp the outage ends with no Normal, while every other hypothesis of exactness holds |
| Conditions.FindAfterEdits | internal/controller/remoteapp/status.go:503-550 | after a script of sets and removals: untouched types keep their entry, set ones hold the new content with a time that moved only with the status, removed ones are gone |
| Conditions.SettledScriptIsFixed | internal/controller/remoteapp/status.go:503-550 | a script changes nothing, at any later time, on a list that already says what it asks for |
| Conditions.EditsKeepForeign | internal/controller/remoteapp/status.go:473-550 | entries of other types survive a script, in order |
| Status.UpstreamStatusMeaning | internal/controller/remoteapp/status.go:641-690 | UpstreamReachable is True, False or Unknown exactly when the stored verdict is reachable, unreachable or absent |
| Status.ComputeStatusInPlace | internal/controller/remoteapp/status.go:470-557 | the step-by-step construction over one mutable list equals the specification; lastError is empty exactly when ready |
| Status.ReadyIffNoError | internal/controller/remoteapp/status.go:471-500 | for every input lastError is empty iff Ready; Ready iff a live pod is ready and the far end is not down; with no ready pod lastError is the summary of a live pod ranked worst, with a ready pod and a failing upstream the probe's message; observedGeneration is the generation |
| Status.RolesTellPods | internal/controller/remoteapp/status.go:362-436 | IdentityIssued and TunnelServing are True iff some live pod has the container ready, Unknown iff there are live pods and none carries it, NoPods without live pods; their reasons, and as message when False the role's summary |
| Status.ConditionsTellStatus | internal/controller/remoteapp/status.go:482-557 | the Ready condition repeats status.ready and status.lastError with the reason that says who is to blame; Reconciled is True iff every apply succeeded, else it carries the error |
| Status.ConditionsObserveGeneration | internal/controller/remoteapp/status.go:482-550 | every condition a pass sets names the generation it was computed for |
| Status.FirstListReads | internal/controller/remoteapp/status.go:475-550 | on a new RemoteApp the conditions are listed from the roll-up through the roles and the probes to the operator's own state |
| Status.StatusForgetsPodOrder | internal/controller/remoteapp/status.go:112-128 | the whole status is the same for every permutation of a pod list with distinct names |
| Status.StatusIsIdempotent | internal/controller/remoteapp/status.go:470-557 | computing again from the result, at any later time and from any previous list, gives the same status, so nothing is written |
| Status.EqualStatusIsSame | internal/controller/remoteapp/controller.go:441-460 | when statusEqual holds of the persisted and the computed status they are identical, times included |
| Status.StatusEqualStripped | internal/controller/remoteapp/controller.go:448-460 | zeroing the times of two copies and comparing decides equality of everything else |
| Status.StatusKeepsForeignConditions | internal/controller/remoteapp/status.go:473-550 | conditions of other controllers survive, in order |
| Status.TransitionTimeMovesWithStatus | internal/controller/remoteapp/status.go:470-557 | for each of the six types: same status as before, same time; another status or no entry before, the time of this pass; other types keep their entry |
| Status.UpstreamAfter | internal/controller/remoteapp/status.go:530-537 | the UpstreamReachable entry after a pass, and that it is gone when the probe is off |
| Status.VerifiedAfter | internal/controller/remoteapp/status.go:579-622 | the TunnelVerified entry after a pass, and that it is gone when verification is off |
| Pods.LiveTbotPods | internal/controller/remoteapp/status.go:94-103 | exactly the pods not being torn down, in order |
| Pods.FirstReadyDecides | internal/controller/remoteapp/status.go:306-313 | a pod is ready iff its first Ready condition is True |
| Pods.UnreadyContainers | internal/controller/remoteapp/status.go:186-203 | the unready init containers, then the unready regular ones, except that the last unready tbot and the first entry change places |
| Pods.TbotFirst | internal/controller/remoteapp/status.go:178-203 | the same of the specification: a permutation of exactly the unready init and regular containers, tbot first whenever tbot is unready |
| Pods.SameSource | internal/controller/remoteapp/status.go:205-226 | ranking reason and shown summary come from the same container iff the first container with anything to show names a reason |
| Pods.ReasonsGivenSameSource | internal/controller/remoteapp/status.go:205-226 | in particular when every waiting and terminated state carries a reason |
| Pods.RankingCanMissTheSummary | internal/controller/remoteapp/status.go:205-226 | a pod whose summary describes tbot while the ranking takes ghostunnel's reason |
| Pods.SummarizePodError | internal/controller/remoteapp/status.go:268-301 | the summary is empty exactly when the pod is ready |
| Pods.SummaryIsAContainersOwn | internal/controller/remoteapp/status.go:279-300 | the line of an unready pod is that of the first container, tbot before the others, with anything to show; with none it is the phase, or why the pod failed |
| Pods.ShowsSomething | internal/controller/remoteapp/status.go:320-351 | exactly when a container has anything to show, and that waiting is shown before terminated |
| Pods.WaitingSummaryReads | internal/controller/remoteapp/status.go:320-340 | the parts of a waiting container's line, in order: reason, restarts, last termination, message |
| Pods.TerminatedSummary | internal/controller/remoteapp/status.go:345-351 | a line exactly when the container is terminated, with its reason and exit code |
| Pods.WaitingSummary | internal/controller/remoteapp/status.go:320-340 | no line unless the container waits, a non-empty one when it waits for a reason |
| Pods.SummarizeStatusMeaning | internal/controller/remoteapp/status.go:117-128 | ready iff some live pod is; otherwise a non-empty error: the worst live pod's summary, or that there are no pods |
| Pods.WorstTierIsShown | internal/controller/remoteapp/status.go:130-159 | with no live pod ready, the error shown belongs to the worst documented tier any live pod is in, and within it to the first pod by name |
| Pods.DecidedByContainers | internal/controller/remoteapp/status.go:205-226 | a pod's tier is decided by the first unready container, tbot before the others, that waits or terminated with a reason; without any by the phase |
| Pods.WorstIsFirst | internal/controller/remoteapp/status.go:233-255 | the picked summary is that of a pod no other precedes in severity-then-name order |
| Pods.UnreadyInRole | internal/controller/remoteapp/status.go:368-379 | the collecting loop: whether a live pod has the container ready, else the pods that carry it, in order |
| Pods.SummarizeRoleLoop | internal/controller/remoteapp/status.go:362-394 | the loops compute the specification of the role summary |
| Pods.RoleShowsTheWorst | internal/controller/remoteapp/status.go:380-393 | with no live pod ready in a role the line is that of the worst-ranked pod that shows anything about the container, "not ready" when none does |
| Pods.FoundContainer | internal/controller/remoteapp/status.go:399-406 | the entry found for a name is the first, init containers before regular ones; a role is ready on a pod iff that entry is |
| Pods.RankingForgetsOrder | internal/controller/remoteapp/status.go:244-255 | severity-then-name has one sorted arrangement per set of distinct pods |
| Pods.StatusForgetsOrder | internal/controller/remoteapp/status.go:113-128 | readiness and error do not depend on the order of the pod list |
| Pods.RoleForgetsOrder | internal/controller/remoteapp/status.go:362-394 | nor does the summary of one container role |
| Sorting.StableSortSorts | internal/controller/remoteapp/status.go:247-255 | the result of a sort is ordered |
| Sorting.StableSortIsPermutation | internal/controller/remoteapp/status.go:247-255 | and holds the same entries |
| Sorting.StableSortKeepsTies | internal/controller/remoteapp/verify.go:641-643 | entries that tie keep list order |
| Sorting.StableSortPermutation | internal/controller/remoteapp/status.go:244-255 | sorting forgets the order a list came in when distinct entries never tie |
| Sorting.StringLessMeaning | internal/controller/remoteapp/status.go:253-253 | names compare byte by byte: they part where one ends or holds the smaller byte |
| Types.DecimalReadsBack | internal/controller/remoteapp/status.go:330-334 | a number printed in a message reads back as that number |
| PodIndex.GroupTunnelPods | internal/controller/remoteapp/verify.go:733-744 | the bucket of every key holds the pods labelled for it, in order |
| PodIndex.IndexIsSelector | internal/controller/remoteapp/controller.go:426-439 | the verifier's index over the role-selected pods is the reconciler's own list, and the pod watch routes exactly those pods |
| Probe.FillDefaults | internal/controller/remoteapp/verify.go:388-416 | field-by-field defaulting equals its specification |
| Probe.DefaultsSettle | internal/controller/remoteapp/verify.go:388-416 | interval, timeouts and concurrency positive, jitter not negative and at most half the interval, defaulting twice changes nothing |
| Probe.DefaultsKeepWhatIsSet | internal/controller/remoteapp/verify.go:388-416 | field by field: a configured value is kept, an unset one gets its documented default, jitter is cut only when it exceeds half the interval |
| Probe.ProbeTunnel | internal/controller/remoteapp/verify.go:825-910 | unreachable iff dialing failed, cert_invalid iff the handshake did, each with its detail; a request is sent exactly on a verified session with a path; the recorded status is the one answered, 0 without an answer; unreachable upstream exactly without a response or for 502, 503, 504 |
| Pool.InvKept | internal/controller/remoteapp/verify.go:645-678 | every step, waiting at any moment included, keeps: one worker per index, a dispatched index is held or written with its own outcome, none written twice |
| Pool.ReachableInv | internal/controller/remoteapp/verify.go:645-678 | hence in every state of every schedule |
| Pool.NeverStuck | internal/controller/remoteapp/verify.go:645-678 | a pool that is not done always has a step other than sleeping past work |
| Pool.StepsRunOut | internal/controller/remoteapp/verify.go:645-678 | every step but waiting uses up work, and waiting gives none back |
| Pool.Confluent | internal/controller/remoteapp/verify.go:645-678 | at the end every index was written exactly once, with the outcome of its own target |
| Pool.RunsAgree | internal/controller/remoteapp/verify.go:645-678 | any two complete rounds over the same targets agree, whatever the scheduling, probe durations, concurrency and offsets |
| Pool.NoWorkIsOverslept | internal/controller/remoteapp/verify.go:641-676 | in every state of every schedule over jobs sorted by start time, while a worker sleeps no undispatched job is due |
| Pool.EagerRunsAreOnTime | internal/controller/remoteapp/verify.go:307-312 | every eager step keeps every deadline: a held index starts and a probe ends within its wave |
| Pool.Makespan | internal/controller/remoteapp/verify.go:307-312 | no state of any eager schedule is later than jitter + ceil(N / concurrency) * limit after the start |
| Pool.CeilDivMeaning | internal/controller/remoteapp/verify.go:307-312 | the number of waves is the least that holds all targets |
| Pool.RunPool | internal/controller/remoteapp/verify.go:645-678 | an arbitrary eager scheduler terminates, with every target's own outcome, by the deadline |
| Round.RoundOutcomesMeaning | internal/controller/remoteapp/verify.go:608-640 | a round covers exactly the RemoteApps not being deleted, each with its own outcome, coherent |
| Round.RoundObserves | internal/controller/remoteapp/verify.go:620-635 | for every live RemoteApp a round records what the network did with the probe of name.namespace.svc.domain on the configured port; an upstream verdict iff the upstream probe is on, a live pod is ready and the handshake verified; the path asked is the configured one, "/" without |
| Round.GateIgnoresVerdicts | internal/controller/remoteapp/verify.go:588-619 | the gate is the reconciler's join-level readiness and reads nothing a round publishes, so a failing upstream never un-probes itself |
| Round.MakeTarget | internal/controller/remoteapp/verify.go:615-639 | one target: its gate over the grouped pods is the reconciler's, its previous outcome the stored one, its start the round's own when not ready and otherwise any offset inside the jitter window |
| Round.BuildTargets | internal/controller/remoteapp/verify.go:606-640 | one target per live RemoteApp, keys distinct |
| Round.SortedTargets | internal/controller/remoteapp/verify.go:641-643 | sorting by start time loses and adds no target |
| Round.SortedRoundOversleepsNothing | internal/controller/remoteapp/verify.go:641-676 | over the sorted targets of a round, while any worker waits no target still to be dispatched is due |
| Round.ProbeAll | internal/controller/remoteapp/verify.go:645-678 | results in target order, each its target's own, within the round budget |
| Round.Collect | internal/controller/remoteapp/verify.go:687-693 | the observed map, and as changed exactly the keys whose outcome is new or different, once each |
| Round.CollectedIsRound | internal/controller/remoteapp/verify.go:687-692 | the map is the same for every arrangement of the targets |
| Round.ChangedMeansDiffers | internal/controller/remoteapp/verify.go:689-693 | a key is marked changed iff the stored outcome before the round differs |
| Round.SortedKeysAscend | internal/controller/remoteapp/verify.go:719-724 | nudges go out in namespace-then-name order, strictly ascending |
| Verifier.Observe | internal/controller/remoteapp/verify.go:606-693 | the outcomes depend only on readiness and probe answers, not on jitter, order or concurrency; who is nudged; when the round ends |
| Verifier.RoundFitsInterval | internal/controller/remoteapp/verify.go:307-312 | the budget is jitter plus one probe limit per wave; with defaults applied a round fits the interval when its probe term is at most half of it |
| Verifier.TLSVerifier.RunOnce | internal/controller/remoteapp/verify.go:568-729 | every exit: no bundle drops verdicts; failed lists and cancellation change nothing; otherwise the store holds for every live RemoteApp what its probe met with, the changed keys are enqueued in order, and the round ends within its budget |
| Verifier.TLSVerifier.Enqueue | internal/controller/remoteapp/verify.go:764-775 | a nudge is appended, dropped when the channel is full, and dropped when there is no channel |
| Loop.SkippingIsSafe | internal/controller/remoteapp/verify.go:689-693 | when a round leaves a verdict as it was, both probe conditions before and after it are equal, last-good-probe clause included |
| Loop.ConditionsReadOneKey | internal/controller/remoteapp/status.go:641-701 | the probe conditions read one key's verdict, and its last success only while it is unreachable |
| Loop.StaysInStep | internal/controller/remoteapp/verify.go:573-728 | every action (creation, deletion, bundle loss, listing, publishing through the bounded channel, delivery, pass) keeps: each live RemoteApp shows what the store says, waits for a reconcile, or shows what the store said before a bundle loss; a round if it reaches everyone |
| Loop.ReconciledPersists | internal/controller/remoteapp/controller.go:339-350 | in the loop too an accepted pass leaves the whole computed status and no request |
| Loop.EditIsObserved | internal/controller/remoteapp/status.go:552-556 | an edited RemoteApp is asked for a pass, and an accepted pass observes the new generation |
| Loop.DeletedIsNotListed | internal/controller/remoteapp/verify.go:608-614 | a round lists exactly the RemoteApps that are not being deleted |
| Loop.RoundStaysInStepExactly | internal/controller/remoteapp/verify.go:687-728 | after a round agreement holds if and only if every live RemoteApp without a reconcile coming is asked for the same conditions as before or, left out of the round, had no verdict |
| Loop.RoomReaches | internal/controller/remoteapp/verify.go:719-728 | with room in the channel that is: if and only if the round covers every live RemoteApp that holds a verdict and has no reconcile coming |
| Loop.ChannelTakesTheFirst | internal/controller/remoteapp/verify.go:764-775 | a bounded channel takes the first nudges, exactly as many as there is room for |
| Loop.BundleLossExactly | internal/controller/remoteapp/verify.go:573-581 | full agreement survives a lost bundle if and only if no live RemoteApp without a reconcile coming holds a verdict |
| Loop.AgreementAlongRuns | internal/controller/remoteapp/controller.go:333-352 | hence at every moment of every run whose rounds reach everyone, bundle losses included |
| Loop.AgreementExactly | internal/controller/remoteapp/verify.go:687-728 | with room in the channel every moment of a run is in step if and only if every round covers those RemoteApps |
| LoopLimits.RecreatedMidRoundDrifts | internal/controller/remoteapp/verify.go:687-715 | a run, from nothing, that deletes and re-creates a RemoteApp while a round is in flight leaves it showing a verdict the store has dropped, whatever the verdict |
| LoopLimits.FullChannelDrifts | internal/controller/remoteapp/verify.go:764-775 | a run, from nothing, in which a channel full of another key drops the nudge for a changed one |
| LoopLimits.BundleLossDrifts | internal/controller/remoteapp/verify.go:573-581 | a run, from nothing, that ends with a RemoteApp showing a verdict the lost bundle has dropped, nothing pending and nothing queued |
| Loop.QuietRound | internal/controller/remoteapp/verify.go:687-728 | a round that finds what is stored nudges nobody |
| Loop.SecondPassIsQuiet | internal/controller/remoteapp/controller.go:333-352 | with constant pods and answers, after one round and one pass a second round and pass write and say nothing |
| Metrics.Collect | internal/controller/remoteapp/verify_metrics.go:346-380 | a scrape is the projection of the store |
| Metrics.SeriesForKey | internal/controller/remoteapp/verify_metrics.go:366-379 | exactly one TLS series per stored RemoteApp and an upstream series exactly when it was probed |
| Metrics.AvailabilityTells | internal/controller/remoteapp/verify_metrics.go:346-364 | over every history: the availability gauge is exported iff anything happened, up iff the newest operation completed a round; a disabled store exports nothing |
| Metrics.MetricsMatchConditions | internal/controller/remoteapp/verify_metrics.go:346-380 | in every reachable state series and probe conditions denote the same verdicts |
| Metrics.StatusMatchesMetrics | internal/controller/remoteapp/status.go:579-690 | the conditions a pass leaves exist where the store says so and agree with a scrape of the same store |
| EndToEnd.ConditionsTellNetwork | internal/controller/remoteapp/status.go:579-690 | after a round and a pass over it, from any history: TunnelVerified and UpstreamReachable carry the status, reason and message of what the network did with the probe of the configured place, the last good probe of the history included |
| EndToEnd.LastGoodTells | internal/controller/remoteapp/status.go:696-701 | the last-good-probe clause names the time of the last reachable round of the history, or says that there is none |
| EndToEnd.NoVerdictTells | internal/controller/remoteapp/status.go:590-597 | without a verdict both probe conditions say so |

## Left out

- Dialing, TLS and X.509 verification, HTTP parsing, PEM loading and the wording of network errors: library calls; only the outcome classes are kept.
- Server-Side Apply, owner references, deletion handling, leader election, watches and RBAC: API-server behaviour.
- `render.go` and `tbot_config.go`: the objects of a tunnel, their labels, hashes and YAML are outside the loop, which reads the pods and not how they were rendered.
- `main.go`, the CRD schema, Helm charts and smoke scripts: plumbing.
- Prometheus descriptors and the registry; `Register` and `Describe`.
- Locks: each store operation is one step, and a pass reads one snapshot where the code takes several read locks and reads through a cache.
- Slices and arrays sorted or filled in place, and the aliasing of their backing arrays: lists are values here.
- The default branches of the result switches for values outside the declared classes: the classes are closed here.
- The time the closing of a TLS session takes after a probe, and a sleep cut short by cancellation: a cancelled round publishes nothing whatever its results.
- `observedGeneration` waiting for successful applies: it is set on every pass, whatever its comment says.
