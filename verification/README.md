# Realm: a verified model

Realm relays TCP and UDP traffic between listeners and their remote peers, and lets an agent change the set
of relayed endpoints while connections are running. This project models its core in Dafny and proves what
the system is for.

- **Endpoint manager** (`Lifecycle`, `Manager`, `ManagerInvariant`, `ManagerFrame`, `ManagerServe`,
  `ManagerTries`, `ManagerAnswers`, `ManagerRuns`, `DrainLists`, `CutOffs`, `ManagerObject`). A table of
  endpoints with one slot per protocol. A slot has a listener, or none, and lists the drains of the listeners it
  had before. A `World` is that table with the host it runs on: bound sockets, every listener ever started,
  every drain ever spawned, and a log of what was done with the connections of every listener. What the host
  does by itself (a task exits, a drain ends, a foreign process holds an address, a bind is refused: the
  weather) is read from an arbitrary function of time, so every theorem holds for whatever happens.
- **Reconciler** (`Reconciliation`, `Convergence`, `Locality`, `QuietWeather`, `Healing`, `HealsExactly`,
  `HalfMove`, `NonInterference`, `Turns`, `Stranding`, `GenerationDeadlines`, `Collisions`, `Answers`,
  `SilentAnswer`, `Replay`, `Refusals`, `Restart`, `RestoreRecords`, `Weights`, `ReconcileRuns`,
  `ReconcilerObject`). Turns a submitted desired state into one generation: diff, collision check, release of
  contended addresses, application, repair of failed moves; answers repeated submissions from its record and
  refuses what is stale; restores from a snapshot.
- **Snapshot** (`Durable`). The last-known-good file across failed writes, kills and losses of power.
- **Cohort** (`CohortDrain`, `ManagedDrains`). Draining the connections of one listener, step by atomic step,
  and the drains the manager spawns.
- **Round robin** (`RoundRobin`, `Overflow`). The weighted balancer, over integers and over the 16-bit counters
  it has.
- **Relay** (`Relay`). The copy buffer, the transfer of one direction, and both directions together, over
  streams that answer in any way.
- **UDP** (`Grouping`, `Association`). Grouping a batch by client in place, and the map of associations.

Functions give the meaning of an operation, lemmas state what holds of it, and the classes `EndpointManager`,
`Reconciler`, `Balancer`, `CopyBuffer`, `Transfer`, `BidiCopy`, `SnapshotStore`, `CohortState` and `UdpListener`
do the work in place, with every method proved to perform the function of its name. A *clean* state is one in
which every endpoint recorded as applied has listeners for exactly the protocols of its description, serving the
endpoint as the program renders it over the described material, nothing else is in the table, and no listener
has exited. In a state *in step* the table may also have slots without a listener. A state is *tidy* for a
submission if every listener runs, the endpoints the submission would leave unchanged listen as it asks, and no
endpoint that is not recorded as applied listens where one of the submission that comes before it is to listen;
all others may be down, half up or failed. It is *steady* if every listener belongs to an applied endpoint, and
one that has a listener for each of its protocols listens as described; with every listener running that makes
it tidy for every submission. Rendering leaves the balancer's weights out; `Weights` says what becomes of them.

Findings stated as theorems: a start that cannot read its snapshot overwrites it with generation 0
(`Durable.BlindStartForgets`); a submission that changes only balancer weights is answered as applied while the
old weights stay in use (`Weights.WeightChangeIsNotServed`, with the exact condition in
`Weights.ConvergedWeights`); an association that ends before it is inserted leaves a dead entry until the
listener goes away (`Association.HastyEntryStays`, exactly then by `Association.EntryServesUnlessHasty`); the
16-bit counters wrap for many heavy peers, and the balancer is then not fair (`Overflow.LargeTotalsAreUnfair`,
`Overflow.FairExactlyWhenFits`); an endpoint whose move succeeds for tcp and is refused for udp is not healed by
submitting its old description again, which is answered as applied and unchanged
(`HalfMove.GoingBackIsNotHealed`, with the exact condition in `HealsExactly.HealsExactlyWhenTidy`); an endpoint
that is up to date and whose listeners exit while another one is removed is recorded as applied in an answer
that does not mention it (`SilentAnswer.SilentlyUnchanged`; a listener that does not exit is always mentioned,
`Answers.UnchangedIsAnswered`).

Where the code and its comments differ the code is followed: the comment on cohort handles says no connection
may be registered once draining has begun, the code hands out a working handle all the same
(`CohortDrain.LateHandleEscapes`; the manager never asks for one then, `ManagedDrains.ManagedIsNeverLate`). The
comment on snapshots promises that a crash leaves the previous complete snapshot; the directory flush that makes
a rename durable may fail silently (`Durable.UnflushedDirectoryForgets`). The comment on the manager's fast path
says the rendered endpoint has every field that distinguishes one endpoint from another; of the balancer it has
the strategy only (`Weights.WeightChangeIsNotServed`). The comment on a failed replacement says an endpoint that
is still partly up keeps the new description; the code keeps the previous one whenever there is one
(`HalfMove.GenerationHalf`).

`dafny verify dfyconfig.toml` checks the whole project.

## Model

| member | source | states |
|---|---|---|
| `Convergence.Converges` | realm_core/src/lifecycle/reconcile.rs:268-362 | From a tidy state, any submission with distinct ids, descriptions that refresh, build and enable a protocol, and no address asked for twice, while no task exits, no bind is refused and no foreign process holds a wanted address, is answered Applied in one call: every endpoint listens for exactly the protocols submitted with the submitted endpoint as rendered over the submitted material, `applied` is the refreshed submission, and a slot without a listener is left only where an unchanged endpoint had it. The generation may be the active one if it has no recorded answer, as after a restore. Addresses may be permuted in any cycles or taken over from deleted endpoints. |
| `Convergence.ConvergesCleanly` | realm_core/src/lifecycle/reconcile.rs:268-362 | From a clean state the state is clean again. |
| `Locality.ConvergesByTheAnswer` | realm_core/src/lifecycle/reconcile.rs:268-362 | For both, the weather has to be calm until the call returns and no longer. |
| `Locality.ReconcileLocal` | realm_core/src/lifecycle/reconcile.rs:268-362 | State and answer of a submission depend on what happens outside while it is handled, and on nothing later. |
| `Healing.LaterGenerationHeals` | realm_core/src/lifecycle/reconcile.rs:14-16 | After any run of submissions and status calls, whatever tasks exit, with any number of partial generations, refused binds and invalid descriptions, one proper submission in calm weather that finds every listener running is answered Applied and leaves a state in step, and steady again; unless an endpoint that was applied reported one protocol changed beside the other failed, by a submission that did not just repeat it. |
| `Healing.StatusThenHeals` | realm_core/src/lifecycle/reconcile.rs:670-679 | In particular right after a status call, whatever had crashed before. |
| `ManagerServe.RefreshAlive` | realm_core/src/lifecycle/manager.rs:446-470 | After a refresh of any state every listener in the table runs. |
| `Healing.GenerationEndsSteady` | realm_core/src/lifecycle/reconcile.rs:477-648 | One such generation, from a steady state, whatever exits, whichever binds fail and whatever is invalid, ends in a steady state. |
| `HealsExactly.HealsExactlyWhenTidy` | realm_core/src/lifecycle/reconcile.rs:511-520 | A proper submission in calm weather, over any state whose sockets and slots agree and whose listeners all run, is reached in one call if and only if the state is tidy for it. |
| `HealsExactly.OnlyIfUnblocked` | realm_core/src/lifecycle/reconcile.rs:786-836 | An endpoint that is to listen where a later one does that is not recorded as applied, as after a restore for one protocol only, does not get its address: the hand-off stops only listeners it expects. |
| `HealsExactly.UnseenExitIsMissed` | realm_core/src/lifecycle/reconcile.rs:511-520 | The listeners have to be found running: if one of an endpoint planned as unchanged has exited since the last refresh, the submission is not reached, in any weather. |
| `Healing.SteadyIsTidy` | realm_core/src/lifecycle/reconcile.rs:674-679 | A steady state whose listeners all run is tidy for every proper submission. |
| `Healing.RestoredIsSteady` | realm_core/src/lifecycle/reconcile.rs:392-465 | However much of a snapshot cannot come back and whatever exits, the restored process is steady if and only if no endpoint left out of `applied` has a listener. |
| `Healing.RestoreThenHeals` | realm_core/src/lifecycle/reconcile.rs:392-465 | A proper submission in calm weather after any such restore, finding every listener running, is answered Applied and leaves a state in step, if no endpoint of it is to listen where a later one left out of `applied` does. |
| `HalfMove.GoingBackIsNotHealed` | realm_core/src/lifecycle/reconcile.rs:603-616 | The condition is needed: an endpoint on address 1 is moved to address 2 whose udp half is taken, and then submitted on address 1 again: the last answer is Applied with every result Unchanged, and tcp is served on address 2. |
| `HalfMove.GenerationHalf` | realm_core/src/lifecycle/reconcile.rs:587-616 | The generation that moves the only endpoint of a clean state to an address of which only tcp can be bound reports a failure, records the old description, and leaves tcp on the new address with udp still up. |
| `Restart.RunningIsTrusted` | realm_core/src/lifecycle/reconcile.rs:511-520 | Submitting what is applied answers only Unchanged and changes nothing once every protocol has a listener, whatever these listeners serve. |
| `ManagerTries.TryEndpoint` | realm_core/src/lifecycle/manager.rs:306-346 | From any state and in any weather, `apply` brings the endpoint up exactly, or reports a failure; then each listener serves the spec or what it served before, all of them the latter unless a change is reported beside the failure; and an endpoint that served nothing is not fully up. |
| `Weights.ConvergedWeights` | realm_core/src/endpoint.rs:200-212 | What rendering leaves out: after such a submission a slot has the endpoint it had if that is rendered alike over the same material, and the submitted one otherwise; so it has the submitted balancer weights if and only if it had them already or did not already serve what is rendered. |
| `Weights.ServedWeights` | realm_core/src/lifecycle/manager.rs:500-510 | The same after any generation without a failure, from any state and in any weather, for a slot whose listener has not exited. |
| `Weights.WeightChangeIsNotServed` | realm_core/src/lifecycle/manager.rs:735-737 | An endpoint served with weights 7 and resubmitted with weights 9: the answer is Applied, 9 is recorded, and 7 goes on being used. |
| `Weights.AppliedEndpoint` | realm_core/src/lifecycle/manager.rs:489-660 | One `apply` without a failure, in any weather: the endpoint each slot of the spec ends up with. |
| `Convergence.GenerationConverges` | realm_core/src/lifecycle/reconcile.rs:477-648 | Convergence for the application alone, from a tidy state: release, then every plan in key order, leaves every submitted endpoint serving and reports no failure. |
| `Convergence.AddressesAreFree` | realm_core/src/lifecycle/reconcile.rs:760-839 | After the release of contended addresses, nobody listens on an address a Start or Replace plan is going to bind but the endpoint itself, and endpoints that are started before it and move away. |
| `Convergence.AddressFreed` | realm_core/src/lifecycle/reconcile.rs:786-836 | Whoever else holds an address that an endpoint's plan binds is one of those released, or is started before it. |
| `Convergence.NothingCollides` | realm_core/src/lifecycle/reconcile.rs:982-1010 | A submission without shared addresses is never marked as colliding, not even with what unchanged endpoints hold. |
| `Convergence.UniqueListener` | realm_core/src/lifecycle/manager.rs:747-783 | Two endpoints with live listeners never listen on the same address and protocol. |
| `Convergence.QuietRemove` | realm_core/src/lifecycle/manager.rs:350-367 | Removing an endpoint while no task exits takes away its listeners and disturbs no other. |
| `Convergence.StillFree` | realm_core/src/lifecycle/reconcile.rs:547-625 | Bringing one endpoint up does not take an address another one is still waiting for, and gives up any it held. |
| `ManagerServe.ServeEndpoint` | realm_core/src/lifecycle/manager.rs:306-346 | `apply` on addresses nobody else holds brings up exactly the protocols of the spec, takes every other slot of the endpoint away, touches no other endpoint and reports no failure. |
| `ManagerServe.ServeSlot` | realm_core/src/lifecycle/manager.rs:489-660 | The same for one slot through each of its paths: unchanged, new, replaced at the same address, moved. |
| `ManagerServe.FreeUnbound` | realm_core/src/lifecycle/manager.rs:747-798 | A released address is bound by no listener of the manager. |
| `NonInterference.StayingIsUntouched` | realm_core/src/lifecycle/reconcile.rs:530-623 | Whatever the other endpoints do and whichever binds fail, an endpoint whose plan is Unchanged or Invalid is not operated on: its listeners can only be lost to exits of their own tasks, and then are drained under its delete deadline with the slot marked failed, and of its drains only finished ones disappear. |
| `NonInterference.StayingIsIdentical` | realm_core/src/lifecycle/reconcile.rs:530-623 | If none of its tasks ends meanwhile, its entry is the very same: listeners, cohorts, generations, drains. |
| `Reconciliation.NeverReleased` | realm_core/src/lifecycle/reconcile.rs:786-836 | The hand-off of addresses never picks an endpoint whose plan is Unchanged or Invalid. |
| `NonInterference.ApplyPlansElsewhere` | realm_core/src/lifecycle/reconcile.rs:547-625 | Carrying out the plans of other endpoints does not operate on an endpoint that is not among them. |
| `NonInterference.OnlySubmittedRemain` | realm_core/src/lifecycle/reconcile.rs:484-539 | Deletion completeness: from any state, with any bind outcomes, every id the manager holds or `applied` records afterwards occurs in the submission. |
| `NonInterference.EmptySubmissionEmpties` | realm_core/src/lifecycle/reconcile.rs:347-352 | An empty submission leaves the manager and `applied` empty. |
| `ManagedDrains.EveryLogIsOrderly` | realm_core/src/lifecycle/manager.rs:747-821 | The steps on a cohort are logged where they happen: by the start, by the stop or the exit of its task, by a cancellation, by the drain. In every reachable state of the manager each log is the one handle made, then dropped if and only if the task has exited or the slot no longer has the cohort, then possibly the cancellation of a udp cohort that a drain has now, then the drain, if and only if a drain task has it and under that task's deadline, every step possible when it is taken. |
| `ManagedDrains.LogsContinue` | realm_core/src/lifecycle/manager.rs:747-821 | Along every run of the manager the log of a cohort is only ever continued. |
| `ManagedDrains.ManagedIsNeverLate` | realm_core/src/lifecycle/manager.rs:747-783 | However connections come and go between the logged steps of a reachable state, no handle is handed out after draining began. |
| `ManagedDrains.ManagedDrainIsFinal` | realm_core/src/lifecycle/manager.rs:747-821 | However the logged steps of a run of the manager and of any continuation of it interleave with the connections', a drain that resolves was spawned by the manager, finds no connection and no handle, and none ever comes back. |
| `ManagedDrains.SpawnLogged` | realm_core/src/lifecycle/manager.rs:801-821 | A drain keeps the logs in order if its cohort was stopped before and not drained yet; every path through the manager meets this. |
| `CutOffs.CutExactly` | realm_core/src/lifecycle/manager.rs:555-569 | Along every run of the manager, in any weather, a cohort has been cancelled if and only if an `apply` replaced it, a udp listener, at its own address with something else; never one of tcp, one that moves, one that is deleted or one whose task exited. |
| `ManagedDrains.CutOffExactly` | realm_core/src/lifecycle/cohort.rs:140-178 | However the manager's steps interleave with the connections', the connections of a cohort have been told to stop if and only if it was so replaced or the deadline of its drain has passed. |
| `ManagedDrains.ConnectionsAreKept` | realm_core/src/lifecycle/manager.rs:10-12 | An update keeps established connections: those of a tcp cohort whose drain, if it has one, has no deadline are never told to stop. |
| `DrainLists.DrainsAreListedWhereTheyBelong` | realm_core/src/lifecycle/manager.rs:446-470 | In every reachable state a slot lists only drains that were spawned, each for a listener started for that very slot. |
| `DrainLists.ApplySlotAdds` | realm_core/src/lifecycle/manager.rs:489-660 | On every path of applying a slot, its list grows by exactly the drains that are spawned. |
| `DrainLists.RefreshSlotLists` | realm_core/src/lifecycle/manager.rs:446-470 | A refresh adds the drain it spawns and takes out exactly the finished ones. |
| `ManagerRuns.CohortsAreConserved` | realm_core/src/lifecycle/manager.rs:489-702 | After any run of apply, remove, stop_accept and status, with any task exits and bind failures: every cohort ever started is the listener of the slot it was started for or in exactly one drain, never both, never twice; no two slots share one. |
| `ManagerRuns.SocketsMatchListeners` | realm_core/src/lifecycle/manager.rs:747-798 | In every such state an address is bound if and only if a listener on it is active whose task has not exited. |
| `ManagerRuns.SlotsAreTruthful` | realm_core/src/lifecycle/manager.rs:489-724 | In every such state a slot with a listener records the endpoint and generation that listener was started from, and its material if the specs applied carry the digest of their endpoints; a Running slot has one: also after failed moves, failed replacements that restored the old listener, and hand-offs. |
| `ManagerRuns.ApplyDeadline` | realm_core/src/lifecycle/manager.rs:306-346 | A listener `apply` takes away drains under the update deadline of the deadlines the spec carries, or of the manager's if it carries none; under their delete deadline if the spec dropped the protocol; or under its own endpoint's delete deadline if its task had exited; any other stays. |
| `ManagerRuns.ApplyKeepsPolicy` | realm_core/src/lifecycle/manager.rs:323-330 | An endpoint that is held after an `apply` that asks for a protocol keeps the deadlines of that spec, or the manager's if it carries none; every other endpoint keeps its own. |
| `GenerationDeadlines.GenerationDeadline` | realm_core/src/lifecycle/reconcile.rs:477-648 | What becomes of every listener there was before a generation: of an endpoint that is deleted it drains under the delete deadline the endpoint had; stopped ahead of time for a replaced one, under the update deadline the endpoint had; otherwise it stays, is superseded under the deadlines of the spec applied, or its task has exited and it drains under a delete deadline. |
| `ManagerRuns.RemoveDeadline` | realm_core/src/lifecycle/manager.rs:350-367 | Every listener of a removed endpoint drains under that endpoint's delete deadline. |
| `ManagerRuns.StopAcceptDeadline` | realm_core/src/lifecycle/manager.rs:376-386 | A listener stopped ahead of time drains under the deadline the caller gave. |
| `ManagerRuns.RefreshDeadline` | realm_core/src/lifecycle/manager.rs:446-470 | A refresh takes a listener away only if its task exited, and then drains its connections under the delete deadline. |
| `ManagerInvariant.ApplyInv` | realm_core/src/lifecycle/manager.rs:306-346 | `apply` keeps the agreement of cohorts, sockets, slots and drains, whatever fails. |
| `ManagerInvariant.ReplaceSlotInv` | realm_core/src/lifecycle/manager.rs:555-617 | A same-address replacement keeps it on every path: the new listener comes up, the old one is restored, or both fail. |
| `ManagerInvariant.MoveSlotInv` | realm_core/src/lifecycle/manager.rs:618-659 | A move keeps it: the new listener is started before the old one is stopped, and a failed move leaves the old one serving. |
| `ManagerInvariant.RemoveInv` | realm_core/src/lifecycle/manager.rs:350-367 | `remove` keeps it. |
| `ManagerInvariant.StopAcceptInv` | realm_core/src/lifecycle/manager.rs:376-386 | `stop_accept` keeps it. |
| `ManagerInvariant.RefreshInv` | realm_core/src/lifecycle/manager.rs:446-470 | A refresh keeps it. |
| `ManagerFrame.ApplyFrame` | realm_core/src/lifecycle/manager.rs:306-346 | `apply` operates on one endpoint: every other endpoint keeps its slots, except that a listener whose task exited is failed and drained and finished drains disappear; histories of starts and drains only grow. |
| `ManagerFrame.RemoveFrame` | realm_core/src/lifecycle/manager.rs:350-367 | The same for `remove`, which also forgets the endpoint. |
| `ManagerFrame.StopAcceptFrame` | realm_core/src/lifecycle/manager.rs:376-386 | The same for `stop_accept`, which touches one slot. |
| `ManagerObject.EndpointManager.StartEndpoint` | realm_core/src/lifecycle/manager.rs:747-783 | Binds and serves under a fresh cohort, or fails because the address is taken or refused. |
| `ManagerObject.EndpointManager.StopActive` | realm_core/src/lifecycle/manager.rs:787-798 | Stops accepting and gives the socket back if it was still held. |
| `ManagerObject.EndpointManager.PushDrain` | realm_core/src/lifecycle/manager.rs:801-821 | Hands a superseded cohort to a drain listed in its slot. |
| `ManagerObject.EndpointManager.RefreshAll` | realm_core/src/lifecycle/manager.rs:446-470 | The loops over entries and slots perform the refresh the properties are about. |
| `ManagerObject.EndpointManager.ApplyOne` | realm_core/src/lifecycle/manager.rs:489-660 | The in-place update of one slot performs the step the properties are about, in all its branches. |
| `ManagerObject.EndpointManager.StopOne` | realm_core/src/lifecycle/manager.rs:662-684 | The same for stopping a slot. |
| `ManagerObject.EndpointManager.ApplyEndpoint` | realm_core/src/lifecycle/manager.rs:306-346 | The same for `apply`, with the rejected spec and the pruning. |
| `ManagerObject.EndpointManager.RemoveEndpoint` | realm_core/src/lifecycle/manager.rs:350-367 | The same for `remove`. |
| `ManagerObject.EndpointManager.StopAccepting` | realm_core/src/lifecycle/manager.rs:376-386 | The same for `stop_accept`. |
| `Stranding.NoNeedlessStranding` | realm_core/src/lifecycle/reconcile.rs:587-616 | A replaced endpoint one of whose listeners was stopped ahead of time for another, whose previous description builds and whose own move fails with nothing serving: from its turn to the end of the generation it serves exactly those protocols of its previous spec whose bind succeeded when the repair tried it, with `applied` holding that spec; or none succeeded, it serves nothing, and the id is absent from `applied`. |
| `Stranding.NobodyElseIsRepaired` | realm_core/src/lifecycle/reconcile.rs:598-601 | Any other endpoint whose move fails with nothing serving (none of its listeners stopped ahead of time, or no previous description that builds) is left as its own apply left it: it serves nothing and is not recorded. |
| `Turns.ReleaseIsExact` | realm_core/src/lifecycle/reconcile.rs:760-839 | A listener is stopped ahead of time if and only if its endpoint is deleted or, replaced, gives an address or protocol up, and another plan binds the address of that listener without listening on it yet. It then drains under the delete deadline of a deleted endpoint, the update deadline of a replaced one; every other slot stays as it is. |
| `Turns.CandidateIsExact` | realm_core/src/lifecycle/reconcile.rs:830-836 | A failed move is repaired for exactly the replaced endpoints that lost a listener to the hand-off, whichever protocol it was. |
| `Stranding.RepairOne` | realm_core/src/lifecycle/reconcile.rs:720-752 | The repair alone: a protocol of the previous spec is served if and only if its bind succeeds when it is tried; the id is recorded if and only if one is. |
| `Stranding.ApplyFromIdle` | realm_core/src/lifecycle/manager.rs:489-660 | `apply` on an endpoint that serves nothing leaves a protocol served if and only if the spec asks for it and its bind succeeds on the host as it is when the bind is tried: after the refresh or, for udp, after the bind of tcp. |
| `Collisions.MarkingIsExact` | realm_core/src/lifecycle/reconcile.rs:982-1010 | A Start or Replace plan becomes Invalid if and only if, for tcp or for udp, another such plan is to bind its address or an endpoint planned as unchanged listens on it; every other plan stays what it was. |
| `Collisions.SurvivorsAreDisjoint` | realm_core/src/lifecycle/reconcile.rs:982-1010 | The plans that remain claim pairwise different addresses, none of them held by an unchanged endpoint. |
| `Collisions.UnchangedIncumbents` | realm_core/src/lifecycle/reconcile.rs:699-711 | The table built in a loop holds exactly the addresses unchanged endpoints listen on, each with one that does. |
| `Collisions.CollectClaims` | realm_core/src/lifecycle/reconcile.rs:982-993 | The table of newcomers lists, for every address, exactly those about to bind it, each once. |
| `Collisions.MarkAll` | realm_core/src/lifecycle/reconcile.rs:982-1010 | The loop over the addresses, in any order, marks exactly the plans that collide. |
| `Answers.PlanIsExact` | realm_core/src/lifecycle/reconcile.rs:484-539 | The plan of every endpoint from the submission alone: not submitted and held, Delete; submitted twice, not refreshed, not built, or clashing with another, Invalid; recorded as it is submitted with a listener for each protocol, Unchanged; else Replace if recorded as applied and Start if not. |
| `Answers.DeletedIsAnswered` | realm_core/src/lifecycle/reconcile.rs:617-621 | The answer of a generation has, for an endpoint that is held and not submitted, exactly one Deleted for every slot it had; it is neither held nor recorded afterwards. |
| `Answers.UnchangedIsAnswered` | realm_core/src/lifecycle/reconcile.rs:549-559 | For an endpoint that is up to date, exactly one Unchanged for every protocol that still listens when its turn comes: only for those that had a listener, and for every one whose listener has not exited by the end; it is not touched and stays recorded. |
| `SilentAnswer.SilentlyUnchanged` | realm_core/src/lifecycle/reconcile.rs:549-559 | There may be none: if all its listeners exit as the one other endpoint, held and not submitted, is removed before it, the generation is answered Applied, every result is of the other, and the endpoint is recorded with nothing listening. |
| `Answers.InvalidIsAnswered` | realm_core/src/lifecycle/reconcile.rs:564-585 | For one that is submitted twice, could not be refreshed, does not build or clashes, exactly one final failure for every protocol that still listens, or for tcp if none does; it is not touched, and what was recorded of it stays if it is held. |
| `Answers.BoundIsAnswered` | realm_core/src/lifecycle/reconcile.rs:587-616 | For one that is started or replaced, exactly one result for every protocol applied or dropped, tcp first, each as the slot came out and, if the repair brought everything back, marked so on the failures; recorded is the submitted description if nothing failed, the one before if something did and it still listens, nothing otherwise. |
| `Answers.NobodyElseIsAnswered` | realm_core/src/lifecycle/reconcile.rs:547-648 | No other id occurs in the answer. |
| `Answers.AnswersInOrder` | realm_core/src/lifecycle/reconcile.rs:545-625 | The results come in the order of the ids. |
| `ManagerAnswers.ApplyReports` | realm_core/src/lifecycle/manager.rs:306-346 | The answer of `apply`: a spec that asks for no protocol is rejected for good and changes nothing; otherwise tcp comes before udp, and each outcome says exactly what the slot is: left alone if it served the spec already, created or updated with generation, endpoint and material of the spec and the superseded listener among its drains, failed with the listener it keeps or gets back, or deleted and gone. |
| `ManagerAnswers.RemoveReports` | realm_core/src/lifecycle/manager.rs:350-367 | `remove` reports one Deleted for every slot the endpoint had. |
| `ManagerAnswers.PruneIsExact` | realm_core/src/lifecycle/manager.rs:472-487 | Exactly the slots that listen, drain or are marked failed survive an `apply`, and the endpoint if one does. |
| `ReconcilerObject.Reconciler.DiffEndpoints` | realm_core/src/lifecycle/reconcile.rs:484-528 | The loop over the submission computes the plan of every endpoint the properties are about, duplicates and descriptions that do not refresh or build included. |
| `ReconcilerObject.Reconciler.ReleaseContended` | realm_core/src/lifecycle/reconcile.rs:760-839 | Stops accepting on exactly the listeners that give an address up, and returns exactly the endpoints to restore should their own move fail. |
| `ReconcilerObject.Reconciler.WantedKeys` | realm_core/src/lifecycle/reconcile.rs:760-784 | The addresses the generation is going to bind and does not listen on yet. |
| `ReconcilerObject.Reconciler.RestorePrevious` | realm_core/src/lifecycle/reconcile.rs:720-752 | Applies the previous description again and notes on the failures that it is back. |
| `ReconcilerObject.Reconciler.ApplyAll` | realm_core/src/lifecycle/reconcile.rs:477-648 | Diff, collision check, deletions, release and the loop over the plans perform the generation the properties are about. |
| `ReconcilerObject.Reconciler.Drifted` | realm_core/src/lifecycle/reconcile.rs:659-668 | Finds whether an endpoint of the submission has the applied configuration over different material. |
| `ReconcilerObject.Reconciler.Submit` | realm_core/src/lifecycle/reconcile.rs:268-362 | Refuses, replays or applies a submission and updates the record, on every path as the properties have it. |
| `ReconcilerObject.Reconciler.RestoreFrom` | realm_core/src/lifecycle/reconcile.rs:392-465 | The loop over the snapshot restores the endpoints one by one and becomes ready. |
| `ReconcileRuns.EveryRun` | realm_core/src/lifecycle/reconcile.rs:846-891 | After any sequence of submissions and status calls, from an empty process or from one that restored any snapshot in part or whole, in any weather: cohorts, sockets and slots agree, Running implies a listener, and every id in `applied` is held by the manager; and slots have the digest of what they serve if what is built does. |
| `ReconcileRuns.GenerationsOnlyGrow` | realm_core/src/lifecycle/reconcile.rs:277-286 | Along every run of submissions the active generation never goes back. |
| `ReconcileRuns.GenerationSound` | realm_core/src/lifecycle/reconcile.rs:477-648 | One generation keeps the agreement from any state that has it, whatever fails; and the digests, if what is built has them. |
| `ReconcileRuns.SucceededServes` | realm_core/src/lifecycle/manager.rs:306-346 | An `apply` that reports no failure leaves the endpoint serving. |
| `Replay.ResubmissionChangesNothing` | realm_core/src/lifecycle/reconcile.rs:304-345 | Once a generation has an answer, any resubmission of it whose refreshes succeed changes no state at all. |
| `Replay.ReplaysTheAnswer` | realm_core/src/lifecycle/reconcile.rs:304-345 | If the generation was Applied and content and material are unchanged, the resubmission returns the first response exactly, whatever happened to the endpoints in between. |
| `ReconcileRuns.AnswersLast` | realm_core/src/lifecycle/reconcile.rs:304-345 | The same along a run: any number of status queries, refused submissions and replays later, the resubmission still returns the first response and changes nothing. |
| `Refusals.EveryReply` | realm_core/src/lifecycle/reconcile.rs:268-362 | Every submission in every state: refused if the process is not ready; refused with the active generation if it is older; if its generation has an answer and it refreshes, refused as stale if content or material differ and answered as before if not; in all these cases nothing changes. Every other one starts its generation and is answered Applied exactly if no result is a failure. |
| `Refusals.AnswersExactly` | realm_core/src/lifecycle/reconcile.rs:304-345 | Two requests of one generation, any number of status queries, refusals and replays apart: the second gets the first answer if and only if it has the same configurations under the same ids and none is applied over material that differs from what is on disk; otherwise it is refused. Nothing changes. |
| `Refusals.AppliedAnswersExactly` | realm_core/src/lifecycle/reconcile.rs:304-345 | If the first was Applied: if and only if the configurations are the same and the material on disk is. |
| `Refusals.DifferentIsRefused` | realm_core/src/lifecycle/reconcile.rs:336-342 | In particular a request with an endpoint the first did not have, without one it had, or with another configuration of one is refused. |
| `Replay.ContentIgnoresOrder` | realm_core/src/lifecycle/reconcile.rs:966-973 | Reordering a submission with distinct ids leaves its content, hence the decision to replay, the same. |
| `Replay.ContentDecides` | realm_core/src/lifecycle/reconcile.rs:966-973 | Two submissions have the same content if and only if they have, under every id, the same configurations in the same order. |
| `Replay.AppliedInFull` | realm_core/src/lifecycle/reconcile.rs:547-648 | A generation without a failure had distinct ids and records exactly what was submitted. |
| `Replay.NothingDrifted` | realm_core/src/lifecycle/reconcile.rs:659-668 | Nothing reads as drifted when the material of the submission is what it was when applied. |
| `Restart.RestoreIsClean` | realm_core/src/lifecycle/reconcile.rs:392-465 | Restoring a snapshot without shared addresses, every bind succeeding, gives a clean state at its generation. |
| `RestoreRecords.RestoredExactly` | realm_core/src/lifecycle/reconcile.rs:405-444 | Any restore, in any weather: an endpoint of the snapshot is recorded as applied, over the material on disk now, if and only if it could be refreshed and built and no protocol of it failed to come up at its turn; and nothing else of the restore touches it. |
| `RestoreRecords.PartialExactly` | realm_core/src/lifecycle/reconcile.rs:445-465 | The restored process is ready at the generation of the snapshot, records nothing else, and carries the partial mark if and only if the snapshot did or an endpoint of it is not recorded. |
| `Restart.RestartIsTransparent` | realm_core/src/lifecycle/reconcile.rs:369-465 | Persisting a clean state, restarting and restoring gives a clean state with the same `applied`, generation and partial mark. |
| `Restart.ResubmittingIsUnchanged` | realm_core/src/lifecycle/reconcile.rs:511-520 | Submitting what is applied, at a later generation or at the active one if it has no recorded answer, in any weather, answers only Unchanged and leaves every listener, entry and socket as it was. |
| `Restart.RestartThenResubmit` | realm_core/src/lifecycle/reconcile.rs:369-465 | Both together: restart, restore and the agent's next equivalent submission disturb nothing. |
| `Durable.NeverTorn` | realm_core/src/lifecycle/snapshot.rs:109-171 | Under any interleaving of writes, failures, kills and losses of power, what is found as the snapshot is no file or one completely written and flushed, so a start that can read it restores it. |
| `Durable.DurableIsKept` | realm_core/src/lifecycle/snapshot.rs:152-171 | A generation whose snapshot has reached the disk is never gone back behind, by any later failed write, kill or loss of power, unless a start failed to read a snapshot that was there. |
| `Durable.RestartsOnlyGrow` | realm_core/src/lifecycle/reconcile.rs:392-404 | The generations restarts come back with never decrease, if no start failed to read a snapshot that was there and no loss of power undid a rename. |
| `Durable.SnapshotIsNotAhead` | realm_core/src/lifecycle/reconcile.rs:354-383 | No snapshot a crash can leave is ahead of the active generation of the process, unless a start failed to read a snapshot that was there. |
| `Durable.ActiveIsTheLastAccepted` | realm_core/src/lifecycle/reconcile.rs:354-383 | Whatever fails to be written, a process is at the generation it accepted last, and accepts none behind it. |
| `Durable.BlindStartForgets` | src/bin.rs:171-201 | The first condition is needed: from any state with a snapshot, a start that cannot read it writes the static configuration as generation 0 over it, and the next restart comes back with generation 0. |
| `Durable.UnflushedDirectoryForgets` | realm_core/src/lifecycle/snapshot.rs:165-170 | So is the second: when the directory could not be flushed, a restart can come back with the new generation and the one after a loss of power with the old. |
| `Durable.StoreOutcome` | realm_core/src/lifecycle/snapshot.rs:152-171 | A write puts exactly the submitted snapshot in place of the one before; or it leaves the snapshot as it was, and at most its own temporary file behind, if that could not be removed. |
| `Durable.SnapshotStore.Store` | realm_core/src/lifecycle/snapshot.rs:109-171 | The store with its search for a fresh name performs those steps, and reports success exactly if none up to the rename failed. |
| `Durable.SnapshotStore.FreshName` | realm_core/src/lifecycle/snapshot.rs:128-150 | The search ends, with a name no file has. |
| `Durable.SnapshotStore.Load` | realm_core/src/lifecycle/snapshot.rs:83-106 | Absent, read and unreadable snapshots are told apart; only one that is there and cannot be read is an error. |
| `RoundRobin.SubsetBound` | realm_lb/src/round_robin.rs:55-87 | With n peers of total weight W > 0, after every call any k counters together hold at most k·W·(1/(k+1) + … + 1/n). |
| `RoundRobin.CountersSumToZero` | realm_lb/src/round_robin.rs:55-87 | After every call the counters add up to 0. |
| `RoundRobin.CountersAboveMinusTotal` | realm_lb/src/round_robin.rs:55-87 | Every counter stays above −W. |
| `RoundRobin.CounterLedger` | realm_lb/src/round_robin.rs:55-87 | A counter is what its weight has earned minus W for every time it was picked. |
| `RoundRobin.PicksAddUp` | realm_lb/src/round_robin.rs:55-87 | Over any stretch of calls the picks of all peers add up to the number of calls. |
| `RoundRobin.FirstRoundReturns` | realm_lb/src/round_robin.rs:28-87 | After W calls every counter is 0 again. |
| `RoundRobin.Periodic` | realm_lb/src/round_robin.rs:55-87 | Counters and picks have period W. |
| `RoundRobin.Fair` | realm_lb/src/round_robin.rs:55-87 | Any W consecutive calls pick peer i exactly weight_i times. |
| `RoundRobin.ZeroWeightNeverPicked` | realm_lb/src/round_robin.rs:55-87 | A peer of weight 0 is never picked while W > 0. |
| `RoundRobin.BestIsFirstLargest` | realm_lb/src/round_robin.rs:73-79 | The peer chosen is the first with the largest counter. |
| `RoundRobin.WrapRunTracks` | realm_lb/src/round_robin.rs:63-84 | As long as the counters fit, 16-bit counters with wrap-around follow the integer algorithm. |
| `RoundRobin.HarmonicFits` | realm_lb/src/round_robin.rs:63-84 | They fit when W·(1 + 1/2 + … + 1/n) ≤ 32767. |
| `RoundRobin.ProductFits` | realm_lb/src/round_robin.rs:63-84 | In particular when n·W ≤ 32767. |
| `RoundRobin.FairWhenFits` | realm_lb/src/round_robin.rs:55-87 | Fairness and period of the 16-bit program whenever its counters fit. |
| `RoundRobin.ProgramIsFair` | realm_lb/src/round_robin.rs:55-87 | Fairness and period of the 16-bit program whenever n·W ≤ 32767. |
| `Overflow.FittingTotals` | realm_lb/src/round_robin.rs:63-84 | Counters that fit have a total of at most 32767. |
| `Overflow.LargeTotalsAreUnfair` | realm_lb/src/round_robin.rs:63-84 | With two peers or more and a total from 32768 to 65535, whatever the weights, the counters do not fit and the first W calls do not return every peer weight_i times. |
| `Overflow.NarrowIsUnfair` | realm_lb/src/round_robin.rs:63-84 | With a total of at most 32767 and (n−1)·W < 32771·n − 65536, if a counter ever wraps then the first W calls are not fair. |
| `Overflow.FairExactlyWhenFits` | realm_lb/src/round_robin.rs:55-87 | In both cases together: the first W calls are fair if and only if the counters fit. |
| `Overflow.BytesAreFairExactlyWhenTheyFit` | realm_lb/src/round_robin.rs:28-87 | For byte weights and 2 to 256 peers, the first W calls are fair if and only if the counters fit, for every total outside 32514 to 32767. |
| `Overflow.LevelsStayUp` | realm_lb/src/round_robin.rs:63-84 | With a total of at most 32767, counters never wrap downwards more often than upwards, taken together. |
| `Overflow.DebtWraps` | realm_lb/src/round_robin.rs:63-84 | The program's counter is the low 16 bits of what its weight has earned minus W for every time the program returned it. |
| `Overflow.HeaviestAreUnfair` | realm_lb/src/round_robin.rs:63-84 | 129 peers of weight 255 are not served alike. |
| `RoundRobin.FitsInOneRound` | realm_lb/src/round_robin.rs:63-84 | Whether weights fit is decided by the first W calls. |
| `RoundRobin.Balancer.constructor` | realm_lb/src/round_robin.rs:28-52 | No nodes for one peer or none; otherwise one per weight, with counter 0. |
| `RoundRobin.Balancer.Charge` | realm_lb/src/round_robin.rs:65-80 | The loop over the nodes adds every weight in 16 bits and ends with the total and the first largest counter. |
| `RoundRobin.Balancer.Next` | realm_lb/src/round_robin.rs:55-87 | Call number t on the node array returns the t-th pick of the 16-bit algorithm, and peer 0 when there is at most one. |
| `Relay.CopyBuffer.PollCopy` | realm_io/src/buf.rs:55-116 | For any answers of the streams: what was received is what was sent followed by buf[pos..cap], `amt` counts what was sent; Ready only after the end with everything sent and flushed; a poll that is pending waits for the writer, or for the reader with everything received already flushed. It fails as broken if and only if a stream failed, with a zero write if and only if a write took nothing of what was left, and never over streams that do neither. |
| `Relay.CopyBuffer.Fill` | realm_io/src/buf.rs:64-86 | A read refills an empty buffer from its start, and while the reader has nothing what was written gets flushed, if there is anything to flush. It fails if and only if a stream failed. |
| `Relay.CopyBuffer.Empty` | realm_io/src/buf.rs:92-102 | Short writes move a prefix of what is held, in order; a write of nothing is an error with bytes left. |
| `Relay.Stream.Read` | realm_io/src/mem_copy.rs:21-24 | A read delivers at most what fits and leaves the rest for the next. |
| `Relay.Stream.Write` | realm_io/src/mem_copy.rs:27-29 | A write takes any prefix of buf[pos..cap]. |
| `Relay.Transfer.PollTransfer` | realm_io/src/bidi_copy.rs:16-44 | The writer is shut down only after everything the reader delivered until its end was sent and flushed; nothing is written or shut down after that, and the count reported is what was sent. It fails as broken if and only if a stream failed, with a zero write if and only if a write took nothing of what was left, and never over streams that do neither. |
| `Relay.BidiCopy.PollBoth` | realm_io/src/bidi_copy.rs:103-128 | Graceful: ready only when both directions are over. Brutal: ready as soon as one is, and the other is reported as 0. It fails as broken if and only if a stream failed, with a zero write if and only if a write took nothing of what was left, and never over streams that do neither. |
| `Relay.BidiCopy.Await` | realm_io/src/bidi_copy.rs:132-149 | Polled to the end, the relay fails, if and only if a stream failed or a write took nothing of what was left, or delivers each direction whole and in order before shutting its writer down, or is left pending with the very call it waits for (a read, with everything flushed, a write, a flush or a shutdown) never to be answered. A buffer of no bytes ends at once having moved nothing. |
| `Grouping.GroupBy` | realm_core/src/udp/middle.rs:81-106 | In place: a permutation of the batch; the ranges are consecutive, non-empty and cover exactly 0..n, if and only if the batch is not empty (its only caller passes a batch of at least one); each holds one class and no class is in two. |
| `Grouping.Gather` | realm_core/src/udp/middle.rs:93-101 | The inner loop moves exactly the elements of the current class to the front of what is not grouped yet, and always leaves something behind. |
| `Grouping.OneRangeEach` | realm_core/src/udp/middle.rs:48-61 | Every datagram of the batch is in exactly one range. |
| `Association.OneAssociationEach` | realm_core/src/udp/middle.rs:139-153 | Under every interleaving of the receive loop with the association tasks, a client has at most one association that has not yet taken itself out of the map. |
| `Association.EndTakesItsOwn` | realm_core/src/udp/sockmap.rs:51-58 | An association that ends removes its own entry and never that of another one. |
| `Association.AnswersGoBack` | realm_core/src/udp/middle.rs:139-156 | Every datagram is sent through a socket whose answers go back to the client it came from. |
| `Association.EveryDatagramIsSent` | realm_core/src/udp/middle.rs:138-158 | Under every interleaving the datagrams the loop takes in are sent on, each once and in order; at most the last is still in its hand. |
| `Association.EntryServesUnlessHasty` | realm_core/src/udp/sockmap.rs:36-48 | An entry has a running association if and only if that association did not end between being spawned and being inserted. |
| `Association.HastyEndLeavesAnEntry` | realm_core/src/udp/sockmap.rs:40-46 | One that does leaves an entry nobody answers on. |
| `Association.HastyEntryStays` | realm_core/src/udp/sockmap.rs:36-58 | Such an entry stays and its client gets no association for as long as the receive loop runs. |
| `Association.UdpListener.FindOrInsert` | realm_core/src/udp/sockmap.rs:36-48 | Reuses the client's socket or creates and inserts one, and changes no other entry; if one is needed and cannot be created, nothing changes. |
| `Association.UdpListener.Relay` | realm_core/src/udp/middle.rs:138-158 | A batch looks every group's client up once, in order, up to the first group whose socket cannot be created or whose send fails; every client reached has an entry afterwards. |
| `Association.UdpListener.Remove` | realm_core/src/udp/middle.rs:218-219 | The end of an association task takes out whatever is under its client's address. |
| `Association.UdpListener.Clear` | realm_core/src/udp/mod.rs:79-84 | The teardown of the receive loop empties the map. |
| `CohortDrain.CountIsExact` | realm_core/src/lifecycle/cohort.rs:192-246 | Under every interleaving the counter is the number of connections registered and not yet dropped. |
| `CohortDrain.DrainedIsFinal` | realm_core/src/lifecycle/cohort.rs:149-178 | If no handle is asked for after draining began, a drain that has resolved finds no connection and no handle, then and at every later moment, so nothing can register any more. |
| `CohortDrain.EscapesOnlyLate` | realm_core/src/lifecycle/cohort.rs:149-178 | A drain resolves with connections alive only if a handle was asked for after draining began. |
| `CohortDrain.StraysDecide` | realm_core/src/lifecycle/cohort.rs:89-99 | A drain under way can still resolve with connections alive, without a further handle, if and only if there is a handle or a live connection whose sender is not of the cohort's channel. |
| `CohortDrain.LateHandleEscapes` | realm_core/src/lifecycle/cohort.rs:89-99 | A handle asked for after draining began lets a connection in that the drain does not wait for. |
| `CohortDrain.ForcedCounts` | realm_core/src/lifecycle/cohort.rs:161-177 | A drain whose deadline passes reports the number of connections alive at that moment and has told all of them to stop. |
| `CohortDrain.CancelledExactly` | realm_core/src/lifecycle/cohort.rs:140-178 | Under every interleaving the connections have been told to stop if and only if the cohort was cancelled or the deadline of its drain passed; the cohort's own sender is then gone. |
| `CohortDrain.OutcomeIsExact` | realm_core/src/lifecycle/cohort.rs:161-189 | A drain is forced with n if and only if its deadline passed while n connections were alive. |
| `CohortDrain.CohortState.Handle` | realm_core/src/lifecycle/cohort.rs:89-99 | Hands out the cohort's sender, or one of its own once draining has begun. |
| `CohortDrain.CohortState.Register` | realm_core/src/lifecycle/cohort.rs:192-199 | Counts first, then holds a sender. |
| `CohortDrain.CohortState.DropGuard` | realm_core/src/lifecycle/cohort.rs:242-246 | Uncounts first, then lets the sender go. |
| `CohortDrain.CohortState.StartDraining` | realm_core/src/lifecycle/cohort.rs:131-137 | Gives up the owner's own sender. |
| `CohortDrain.CohortState.CancelAll` | realm_core/src/lifecycle/cohort.rs:140-143 | Starts draining and cancels every connection. |

## Left out

- Overflow.BytesAreFairExactlyWhenTheyFit: totals from 32514 to 32767 that do not fit are not covered. It is open whether a first round can be fair although a counter wraps if such a total also has (n−1)·W ≥ 32771·n − 65536; that takes 128 peers or more.
- RoundRobin.ProgramIsFair: n·W ≤ 32767, like the sharper condition of `HarmonicFits`, is enough for the counters to fit and a total above 32767 is enough for them not to; in between `FitsInOneRound` decides.
- RoundRobin.Fair: asks for a positive total weight. With all weights 0 the code returns peer 0 on every call.
- DrainLists.ApplySlotAdds: for a slot that is dropped the drains it lists are detached, as in the code, and are no longer listed anywhere.
- Durable.RestartsOnlyGrow: conditions on the environment; both are shown to be needed by the two lemmas that name them.
- Relay.BidiCopy.PollBoth: `amt` and the counts are unbounded here and `u64` in the program.
- Grouping.GroupBy: the order of a client's datagrams is not stated, because the swaps do not keep it. The slice of the first n packets is the whole array here, and ranges are unbounded where the program has `u16`.
- CohortDrain.ForcedCounts: the deadline is an event that may come at any time; durations and ages are not modelled.
- Error texts, log lines and timestamps. An error keeps only whether it is retryable and whether the previous listener came back.
- Identifiers are numbers; only equality and the order the tables are visited in matter. Deriving identifiers from addresses is not modelled.
- Two listeners conflict when address and protocol are equal: port 0 and overlaps of wildcard with specific addresses are not modelled.
- Before it binds the address of a replaced udp listener again the program waits for the associations it cancelled; here the bind comes at once. A udp address counts as free once its listener has stopped, though associations that are not cancelled may share its socket for longer, as the manager assumes of the platform.
- The 64-bit digest of a submission is its sorted content here, so hash collisions do not occur; recovery from a panic in a build is a build that fails.
- A file that changes between the refresh of a description and its build within one submission.
- Whether a listener exited is seen at the next refresh, as in the code: the diff does not refresh, so a listener that has just crashed is still planned as unchanged.
- The states that are never assigned, status reports, `wait_drained` of the manager, and shutting the reconciler down.
- The control server, command line, configuration merging, DNS, TLS and WebSocket transports, PROXY protocol, splice and batched system calls: plumbing or calls into code that is not part of this model.
- The IP-hash balancer: its arithmetic has no defined result where it overflows.
- The peek stream, which the relay does not use.
