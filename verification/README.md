# Static route operator: a verified model

The operator runs on every node of a cluster and programs the routes that a shared
`StaticRoute` resource (the CR) asks for. No node leads. The nodes meet only in the stored CR:
its finalizer, its per-host status entries, and version-checked writes. This project models
that protocol and the two layers below it and proves what they keep.

| file | content |
|---|---|
| `Ipv4.dfy` | addresses as big-endian bytes, prefix masks, blocks, and their arithmetic |
| `Protection.dfy` | the protected-subnet walk over byte buffers |
| `StaticRoutes.dfy` | the CR as a value, status lists and their laws |
| `Wrapper.dfy` | the wrapper that changes a fetched CR in place |
| `RouteManager.dfy`, `ManagerRuns.dfy`, `WatcherRuns.dfy` | the route manager's event loop beside a kernel table; its whole runs; who is called when a route is lost |
| `Reconcile.dfy` | one reconcile round as a process that makes one call at a time |
| `Controller.dfy` | the round in the source's own form (instance changed in place, early returns, deferred block), proved to follow that process |
| `Cluster.dfy` | the stored object, all nodes, the users; single calls and whole rounds as steps, and the link between the two |
| `Tracking.dfy`, `FineSteps.dfy`, `Coverage.dfy` | safety call by call, any interleaving |
| `Neighbours.dfy` | what a round leaves to the other nodes |
| `Rounds.dfy`, `Truth.dfy` | invariants round by round |
| `Settling.dfy`, `Convergence.dfy` | withdrawal and convergence |
| `Selection.dfy`, `Results.dfy`, `Reports.dfy` | whose labels select a node; what a round returns; what its status entry says |
| `Draining.dfy`, `Deletion.dfy` | deletion: one round of any kind; whole chains of turns |
| `Leak.dfy`, `Fallback.dfy`, `StaleReads.dfy`, `Refusals.dfy` | runs in which a promise fails, and exactly when the status is true |
| `NodeCleaner.dfy`, `Labels.dfy` | the node cleaner's in-place removal; the node-label filter |
| `Optional.dfy` | the optional value |

How the layers compose. `Controller.Reconciler.ReconcileImpl` is proved to make exactly the calls
of the process in `Reconcile`, for every environment that answers each call with an answer of its
kind. `Cluster` runs the same process against the stored object and the same manager functions
(`RouteManager.AfterRegister`, `AfterDeregister`) that the manager class is proved against. An
atomic round is defined by running the process to its end without interruption, and is proved to
be a sequence of the fine steps. At both grains a read may return any version ever stored, as from
a cache (`controllers/staticroute/staticroute_controller.go:64-65`), unless a statement asks for
fresh reads.

Where the code and `docs/design.md` differ, the model follows the code:

- `docs/design.md:75` says the finalizer prevents the deletion of the CR until every pod has
  cleaned up. Call by call this fails: `Leak.GoneButHeld` gives, for every two nodes, a run without
  any failure after which the CR is gone and a live node still holds its route. Exactly when it
  holds: a live holder is covered as long as the CR shields it or its own round is about to report
  it, and loses its cover iff that report is refused, or the registration was made from a copy that
  needs no report (`Coverage.RunsCoverExactly`); without such a step, the CR goes with nobody
  holding iff no round of a holder stands at its report (`Coverage.ReleasedExactlyIf`). With rounds
  as steps, every state is safe iff no round registers a route that the CR does not shield and then
  fails to report it (`Rounds.GuardedRunsExactly`).
- `docs/design.md:75` says an empty status lets the fastest pod remove the finalizer. Only the node
  that takes out the last entry tries to, once. The CR ends iff that update is accepted
  (`Deletion.GoneExactlyByARound`). It is stuck with an empty status iff that update was refused, or
  the node cleaner took out the last entry, or there was no entry when the deletion was requested,
  and no round has put an entry back since (`Deletion.StuckExactly`). Runs reach this without any
  failure (`Deletion.StuckIsReached`), and by one refused update with all nodes alive
  (`Deletion.OneRefusalStrands`). A round with an error exit puts its entry back, so that the node's
  next clean round ends the CR (`Deletion.ErrorExitUnsticks`).

## Model

| member | source | states |
|---|---|---|
| Ipv4.ContainsIsInterval | controllers/staticroute/wrapper.go:54 | a block is the interval of 2^(32-len) addresses from its masked base |
| Ipv4.OverlapIsPrefixTest | controllers/staticroute/wrapper.go:53-61 | two blocks share an address iff their bases agree on the shorter of the two prefixes |
| Protection.IncrementAddsOne | controllers/staticroute/wrapper.go:45-52 | on buffers of every length n the increment adds one modulo 256^n |
| Protection.Inc | controllers/staticroute/wrapper.go:45-52 | the in-place carry loop computes that increment |
| Protection.BlockFits | controllers/staticroute/wrapper.go:54 | no block reaches past 255.255.255.255 |
| Protection.InsideMeansUnfinished | controllers/staticroute/wrapper.go:54-58 | the walk is inside its block iff it has not yet made as many increments as the block has addresses, also when the increment wraps and for prefix length 0 |
| Protection.WalkBlock | controllers/staticroute/wrapper.go:54-58 | the walk of one block terminates and finds a common address iff there is one |
| Protection.IsProtected | controllers/staticroute/wrapper.go:40-62 | true iff the subnet parses and some address lies in it and in a protected block; the protected blocks' buffers are not written |
| Protection.ProtectedIsPrefixTest | controllers/staticroute/wrapper.go:53-61 | the same verdict as the constant-time prefix comparison over all blocks |
| StaticRoutes.RewrittenLaws | controllers/staticroute/staticroute_controller.go:177-181 | the remove-then-add rewrite lists the host, keeps hosts distinct and all other entries in place and in order |
| StaticRoutes.RewrittenEntry | controllers/staticroute/wrapper.go:104-114 | after the rewrite the host's only entry is the new one |
| StaticRoutes.WithoutShrinks | controllers/staticroute/wrapper.go:128-145 | on distinct hosts a removal takes out exactly one entry iff the host is listed |
| StaticRoutes.WithoutDistinct | controllers/staticroute/wrapper.go:128-145 | a removal keeps hosts distinct |
| StaticRoutes.OthersKept | controllers/staticroute/wrapper.go:128-145 | lists that agree without one host agree about every other host |
| Wrapper.RouteWrapper.SetFinalizer | controllers/staticroute/wrapper.go:32-38 | adds the finalizer iff the list is empty, and says so |
| Wrapper.RouteWrapper.IsChanged | controllers/staticroute/wrapper.go:64-73 | true iff some entry of the host differs in subnet, gateway, table or selectors |
| Wrapper.RouteWrapper.GetGateway | controllers/staticroute/wrapper.go:76-82 | an address iff the text is one, with the same text |
| Wrapper.RouteWrapper.MatchesStatus | controllers/staticroute/wrapper.go:84-95 | true iff some entry of the host has this subnet, gateway and error text |
| Wrapper.RouteWrapper.AddToStatus | controllers/staticroute/wrapper.go:97-116 | appends the new entry iff the host has none |
| Wrapper.RouteWrapper.AlreadyInStatus | controllers/staticroute/wrapper.go:118-126 | true iff the host has an entry |
| Wrapper.RouteWrapper.RemoveFromStatus | controllers/staticroute/wrapper.go:128-145 | leaves the other hosts' entries in order, and reports whether there was one to remove |
| Wrapper.RouteWrapper.Rewrite | controllers/staticroute/staticroute_controller.go:178-179 | the add after the removal always takes place |
| RouteManager.RouteManagerImpl.RegisterRoute | pkg/routemanager/routemanager.go:81-96 | one reply; the route is managed iff the kernel added it or had it; a duplicate name changes nothing |
| RouteManager.RouteManagerImpl.DeRegisterRoute | pkg/routemanager/routemanager.go:104-119 | one reply; the route is dropped iff the kernel removed it or did not have it |
| RouteManager.RouteManagerImpl.DeRegisterWatcher | pkg/routemanager/routemanager.go:133-140 | the in-loop splice drops the first equal watcher |
| RouteManager.RouteManagerImpl.NotifyWatchers | pkg/routemanager/routemanager.go:172-185 | visiting the map in arbitrary order, a deletion of a managed route calls every watcher once, anything else none |
| RouteManager.RouteManagerImpl.Handle | pkg/routemanager/routemanager.go:193-209 | one turn of the select is one step of the state machine |
| RouteManager.RouteManagerImpl.Run | pkg/routemanager/routemanager.go:187-211 | the loop is the fold of its turns up to the first stop; a failed subscription handles nothing |
| ManagerRuns.RepliesAlternate | pkg/routemanager/routemanager.go:76-119 | over every run the successes of a name alternate register, deregister, ..., and the name is managed iff the last one was a register, with that route |
| ManagerRuns.ManagedIsReplay | pkg/routemanager/routemanager.go:81-119 | over every run the managed routes are the fold of the successful commands, and every request gets one reply, in order |
| ManagerRuns.LossStepExactly | pkg/routemanager/routemanager.go:104-119 | an event keeps every loss accounted for iff it is not a deregistration that the kernel carries out and keeps to itself while another name, whose loss is neither queued nor told, shares the route |
| ManagerRuns.SharedLossIsMissed | pkg/routemanager/routemanager.go:104-119 | two names registered for one route and one of them deregistered, without a report from the kernel: the loss is missed unless its DELROUTE was queued before |
| ManagerRuns.ManagedInKernel | pkg/routemanager/routemanager.go:81-119 | over every run all managed routes are in the kernel throughout iff nobody outside deletes a managed route and no deregistration removes a route another name shares |
| ManagerRuns.VisitAnyOrder | pkg/routemanager/routemanager.go:176-184 | the callbacks of a visit in any order are one per watcher iff some visited route equals the deleted one, however many do |
| ManagerRuns.NotificationOrderFree | pkg/routemanager/routemanager.go:172-185 | the notification equals the visit in every order over the managed names |
| ManagerRuns.FirstOccurrenceDropped | pkg/routemanager/routemanager.go:133-140 | the first equal watcher goes and the rest keep their order |
| ManagerRuns.AbsentWatcherKept | pkg/routemanager/routemanager.go:133-140 | dropping an unknown watcher changes nothing |
| WatcherRuns.WatchersAreRegistered | pkg/routemanager/routemanager.go:125-140 | over every run the watchers are those of the standing registrations, told from the events alone (of each watcher the latest ones, as many as adds less drops leave), in the order of registration |
| WatcherRuns.CallbacksExactly | pkg/routemanager/routemanager.go:172-211 | in every run, the receipt of the loss of a managed route calls each registered watcher once with it, in order, and no other event calls anybody |
| WatcherRuns.ToldExactly | pkg/routemanager/routemanager.go:172-185 | a managed name counts as told iff since its registration its loss was received and those callbacks were made |
| WatcherRuns.LossesReachWatchers | pkg/routemanager/routemanager.go:172-211 | over every run of a manager that starts without watchers, with any outside changes and kernel errors, each managed route is at all times in the kernel, or its DELROUTE is queued, or since its registration every watcher registered at the receipt of its loss was called with it, iff no event removes a shared route, unreported, under a name whose loss is not known |
| NodeCleaner.CutIsRemoval | controllers/node/node_controller.go:153-171 | on distinct hosts the in-place cut equals the route controller's rebuilding removal |
| NodeCleaner.StatusSlice.ShiftOut | controllers/node/node_controller.go:161-163 | shift, reset and truncate remove exactly the slot, in order |
| NodeCleaner.NodeFinder.FindNode | controllers/node/node_controller.go:173-181 | the first entry of the node, or -1 iff there is none |
| NodeCleaner.NodeFinder.DeleteOne | controllers/node/node_controller.go:155-167 | cuts and writes a list iff the node is in it, and answers the verdict on that write |
| NodeCleaner.NodeFinder.Delete | controllers/node/node_controller.go:153-171 | every list up to the first refused write is cut, in order, and all later ones are untouched; the writes are exactly the cut lists; without an error all were accepted, and otherwise the last one was refused with it and all before it accepted |
| NodeCleaner.PassCleans | controllers/node/node_controller.go:153-171 | a list the pass has reached no longer mentions the node and keeps everyone else; a later one is unchanged |
| Labels.LabelsChanged | controllers/staticroute/staticroute_controller.go:290-302 | fires iff the sizes differ or some old label reads differently |
| Labels.FilterExactly | controllers/staticroute/staticroute_controller.go:290-302 | it fires iff the label sets differ, except that it misses exactly the exchanges of labels with empty values for as many new ones |
| Labels.FilterMissExample | controllers/staticroute/staticroute_controller.go:290-302 | a missed change exists |
| Reconcile.Advance | controllers/staticroute/staticroute_controller.go:139-247 | every answer moves a round strictly down its stages, so a round ends |
| Controller.Reconciler.BuildSelector | controllers/staticroute/staticroute_controller.go:349-361 | succeeds iff every requirement, the hostname one included, is usable |
| Controller.Reconciler.ValidateNodeBySelector | controllers/staticroute/staticroute_controller.go:340-371 | its four results leave the round at the stages they stand for |
| Controller.Reconciler.SelectGateway | controllers/staticroute/staticroute_controller.go:312-338 | a usable gateway continues the round, every other outcome ends it with the matching report |
| Controller.Reconciler.DeleteOperation | controllers/staticroute/staticroute_controller.go:373-398 | deregister, write the status, clear the finalizers iff the written status is empty |
| Controller.Reconciler.AddOperation | controllers/staticroute/staticroute_controller.go:400-427 | finalizer first, then the registration unless it is registered |
| Controller.Reconciler.Decide | controllers/staticroute/staticroute_controller.go:224-246 | withdraw on deletion, change or lost selection, otherwise add |
| Controller.Reconciler.Body | controllers/staticroute/staticroute_controller.go:195-246 | each early return hands the deferred block the values its stage expects |
| Controller.Reconciler.Report | controllers/staticroute/staticroute_controller.go:167-187 | writes the status iff no entry already matches the outcome |
| Controller.Reconciler.Deferred | controllers/staticroute/staticroute_controller.go:163-193 | reports, then deletes if deletion has started |
| Controller.Reconciler.ReconcileImpl | controllers/staticroute/staticroute_controller.go:139-247 | whatever is answered, the calls made are a complete run of the process and end with the returned result and error |
| Results.RoundError | controllers/staticroute/staticroute_controller.go:139-247 | every complete round, in any environment, ends with an error iff some call was refused and nothing later replaced the outcome (a later refusal, or the start of a deletion), and it is that call's text |
| Selection.ListFindsOwnNode | controllers/staticroute/staticroute_controller.go:343-366 | with nodes labelled with their host names, the list call of a round finds the round's own node, if its labels satisfy the CR's selectors, and nobody else |
| Cluster.RoundIsProcessRun | controllers/staticroute/staticroute_controller.go:139-247 | an atomic round is a complete run of that process |
| Cluster.RoundIsFineSteps | docs/design.md:83 | an atomic round is what the fine steps of one uninterrupted round do, beside any rounds in flight |
| Tracking.AdvanceTracks | controllers/staticroute/staticroute_controller.go:139-247 | at every stage the working copy differs from the version it is based on at most in the node's own entry, and as that stage allows |
| FineSteps.ClearFindsEmptyStatus | controllers/staticroute/staticroute_controller.go:388-396 | whatever step takes the finalizers away finds an empty stored status |
| FineSteps.FinalizersGoLast | controllers/staticroute/staticroute_controller.go:373-398 | in every run (any nodes and interleaving, stale reads, failed and conflicting writes) a step that takes the finalizers away commits against an empty status |
| FineSteps.ListedHolderStays | controllers/staticroute/wrapper.go:128-145 | no single step unlists a live node that holds the route, the node cleaner included, unless an object without finalizers is deleted |
| FineSteps.OnceListedStaysListed | controllers/staticroute/staticroute_controller.go:373-398 | in every run a listed holder stays listed until its manager lets go or an object without finalizers is deleted under it |
| FineSteps.HoldersAtClearWereNeverListed | controllers/staticroute/staticroute_controller.go:163-187 | a node still holding the route when the finalizers are cleared had no stored entry at any time since it registered, except in an object that was since deleted without finalizers |
| FineSteps.WritesAreLocal | controllers/staticroute/wrapper.go:97-145 | in every run hosts stay distinct, and a write leaves all other hosts' entries unchanged and in order |
| Coverage.StepCoversExactly | controllers/staticroute/staticroute_controller.go:181-186 | call by call, in any interleaving: a step leaves a live holder neither shielded nor about to be reported iff it is the refused report of an unshielded holder, or the registration of an unshielded node from a copy that needs no report |
| Coverage.RunsCoverExactly | controllers/staticroute/staticroute_controller.go:163-193 | over every run, all states are covered iff no step is one of these two |
| Coverage.ReleasedExactlyIf | controllers/staticroute/staticroute_controller.go:388-396 | in every run without such a step, when the finalizers go the live managers with the route are those whose rounds stand at their report, and nobody has it iff there is none |
| Neighbours.RoundKeepsOthers | docs/design.md:83 | a round with any answers keeps, for every other node, its route, its entries, what the CR asks for, and the object and its finalizer as long as it lists that node |
| Rounds.RoundGuardsExactly | controllers/staticroute/staticroute_controller.go:181-185 | from a guarded state a round, with any reads and answers, leaves every live holder listed in an existing, finalized CR iff it does not register a route that the CR does not shield and then fail to report it, because its copy is old or the report is refused |
| Rounds.HoldersAreShielded | controllers/staticroute/staticroute_controller.go:373-427 | in every reachable state of interleaved rounds that keep the promise, a live node that holds the route finds the CR existing, finalized and listing it |
| Rounds.GuardedRunsExactly | controllers/staticroute/staticroute_controller.go:163-193 | over every run of rounds with any reads and answers, all states are guarded iff all rounds keep this promise |
| Rounds.GoneMeansReleased | docs/design.md:75 | after whole rounds that keep the promise, once the CR is gone no live manager holds its route |
| Truth.StatusTellsTheTruth | controllers/staticroute/staticroute_controller.go:163-193 | in every state reached by rounds of the node with fresh reads and accepted status writes, an entry without error, with a real gateway and a readable subnet means that manager holds exactly that subnet, gateway and table, whatever the other nodes' rounds read and are answered |
| Fallback.StatusCanLie | controllers/staticroute/staticroute_controller.go:328-336 | if the fallback leads to a gateway behind a router, a run with every write accepted ends with a false entry |
| Fallback.TruthExactly | controllers/staticroute/staticroute_controller.go:312-338 | with fresh reads and accepted status writes, no run of a node's faithful rounds shows a false entry iff its fallback does not lead to a gateway behind a router |
| Refusals.TrueExactlyIf | controllers/staticroute/staticroute_controller.go:177-191 | on a node that reaches some gateway directly, and for every choice of calls that never fail and of fresh or cached reads: no run of its faithful rounds shows a false entry iff the fallback is as above, neither status write ever fails and all reads are fresh |
| Refusals.DelStatusMatters | controllers/staticroute/staticroute_controller.go:380-386 | a refused removal of the entry can leave a false one behind |
| Refusals.ReportMatters | controllers/staticroute/staticroute_controller.go:181-185 | a refused first report can make a later one false |
| StaleReads.FreshReadsMatter | controllers/staticroute/staticroute_controller.go:64-65 | one read of an old version, in a run without any failure, can put an old route back unreported, and the next report is false |
| Settling.LabelChangeWithdraws | controllers/staticroute/staticroute_controller.go:196-239 | one round of a listed node that no longer matches removes its entry and route, and nothing of anyone else |
| Settling.UnmatchedStaysOut | controllers/staticroute/staticroute_controller.go:199-205 | among any turns of users, cleaner and other nodes, a node that is unlisted and does not match is never listed again, and each of its rounds changes nothing and only reads |
| Selection.SelectedByOwnLabels | controllers/staticroute/staticroute_controller.go:340-371 | with that answer to its list call, a round is selected iff its own node's labels satisfy the CR's selectors |
| Selection.LostLabelsWithdraw | controllers/staticroute/staticroute_controller.go:196-239 | one round of a listed node whose labels no longer satisfy the selectors removes its entry and route |
| Reports.RoundTells | controllers/staticroute/staticroute_controller.go:163-187 | after an accepted report the node has exactly one entry, whose gateway and error are told by the CR, the configuration and the answers: the overlap text for a protected subnet, the routability text for a gateway behind a router, a failed call's own text, or none |
| Reports.NoErrorMeansAdded | controllers/staticroute/staticroute_controller.go:177-191 | if that entry has no error, the route is registered, or the round ended where the source has no text: unusable selectors or gateway, no hop, an unreadable subnet |
| Results.RepeatsExactlyIfChanged | controllers/staticroute/staticroute_controller.go:217-239 | a round, with any reads and answers, ends with updateFinished, the one result that asks for a repetition, iff it gets as far as a gateway and finds an entry of its node that differs from the request |
| Convergence.TwoRoundsConverge | controllers/staticroute/staticroute_controller.go:224-246 | two undisturbed rounds of a node, among any rounds of other nodes, vanishing nodes and cleaner writes, reach the desired route and a matching status from any state in which the node's own part is in order |
| Convergence.ConvergedIsStable | controllers/staticroute/staticroute_controller_test.go:193-209 | among any such turns it stays converged, and every later round of the node makes no API write and no kernel call and changes nothing |
| Convergence.AllConverge | controllers/staticroute/staticroute_controller.go:139-247 | once every node of a group has had two such rounds, in any order, all of them are converged |
| Convergence.ReachedStatesConverge | controllers/staticroute/staticroute_controller.go:139-247 | the same from every state reached by a run in which the rounds of these nodes had fresh reads, accepted status writes and a sound fallback |
| Results.RepeatsUntilConverged | controllers/staticroute/staticroute_controller.go:235-236 | an undisturbed round of a selected node asks to be repeated iff the node is not converged after it |
| Draining.DrainStep | controllers/staticroute/staticroute_controller.go:226-239 | during deletion a clean round of a listed node takes out exactly its entry, the last one ends the CR, and an unlisted node changes nothing |
| Draining.ErrorExitInDeletion | controllers/staticroute/staticroute_controller.go:163-193 | a round with any error exit during deletion, with any answers, keeps the object, releases its route unless the deregistration fails, and leaves the node listed iff it was or one of the two status writes goes through |
| Draining.AnyRoundFate | controllers/staticroute/staticroute_controller.go:139-247 | what any round, with any reads and answers, does to a CR in deletion: it ends it, strands it, relists, or withdraws one entry, each under its exact condition |
| Deletion.GoneExactlyByARound | controllers/staticroute/staticroute_controller.go:373-398 | among any turns (rounds with any reads and answers, vanishing nodes, edits, the cleaner) a CR in deletion is gone iff a round took out its own node's entry as the last one and was not refused the finalizer update |
| Deletion.StuckExactly | controllers/staticroute/staticroute_controller.go:388-394 | over all chains of turns from a state that is not stuck, a CR in deletion is stuck with an empty status iff its last entry was taken out by a round whose finalizer update was refused, or by the cleaner, or the deletion was requested without any entry, and no round has relisted its node since |
| Deletion.StrandedExactlyIf | controllers/staticroute/staticroute_controller.go:388-394 | for every choice of calls that never fail: without cleaner and relisting, no turns strand a CR that lists somebody iff the finalizer update is one of them |
| Deletion.AllTakenOut | controllers/node/node_controller.go:153-171 | once every listed node has withdrawn or been cleaned away, and no round relists its node, the CR is gone or stuck without an entry |
| Deletion.DrainsExactlyIfListed | controllers/staticroute/staticroute_controller.go:226-239 | without cleaner and relisting, withdrawals of all listed nodes, in any order among any turns, end the CR iff its status was not empty and no finalizer update that follows the last entry is refused |
| Draining.EmptyStatusIsStuck | controllers/staticroute/staticroute_controller.go:230-232 | with an already empty status a round that gets as far as adding or withdrawing changes nothing |
| Deletion.StaysStuck | controllers/staticroute/staticroute_controller.go:230-232 | no sequence of turns without a relisting round ends such a CR |
| Deletion.StuckIsReached | controllers/node/node_controller.go:155-167 | a run without failure reaches a CR in deletion with an empty status: its only node vanishes and is cleaned away |
| Deletion.OneRefusalStrands | controllers/staticroute/staticroute_controller.go:388-394 | with all nodes alive, one refused finalizer update reaches such a CR |
| Deletion.ErrorExitUnsticks | controllers/staticroute/staticroute_controller.go:177-191 | a round with any error exit that gets its entry written, and a clean round of the same node, end such a CR |
| Leak.GoneButHeld | controllers/staticroute/staticroute_controller.go:181-186 | for every two nodes there is a failure-free interleaving after which the CR is gone and a live node holds its route |

## Left out

- Rounds.HoldersAreShielded: assumes whole rounds as steps and that a registration the CR does not shield is reported; both are needed (Leak.GoneButHeld, Rounds.GuardedRunsExactly).
- Rounds.GoneMeansReleased: the same two conditions; call by call the exact ones are Coverage.RunsCoverExactly and Coverage.ReleasedExactlyIf.
- FineSteps.OnceListedStaysListed: a CR without finalizers that the user deletes takes its entries with it.
- Truth.StatusTellsTheTruth: for the node in question, assumes whole rounds with fresh reads, accepted status writes and a fallback that does not lead to a gateway behind a router, of which the last three are exact (Refusals.TrueExactlyIf, Fallback.TruthExactly), and errors with a text and fixed GetGw answers. Entries whose gateway is 0.0.0.0 are placeholders of the error reports and claim nothing.
- Refusals.TrueExactlyIf: a cached read may return any stored version, also one older than the node has already read; what a cache that never goes back would promise is not stated.
- Convergence.TwoRoundsConverge: the node's own rounds read the current version, and the user neither edits nor deletes the CR meanwhile; the gateway is an address other than 0.0.0.0 and not behind a router.
- Deletion.DrainsExactlyIfListed: leaves out rounds with an error exit that relist their node; Deletion.GoneExactlyByARound and Deletion.StuckExactly include them.
- A fallback lookup that answers neither an address nor an error: the round ends with a nil result, which `Reconcile` dereferences; the process records it as `NoResult`.
- Operator restarts: a node's manager starts empty once, and a vanished node does not come back.
- Data races: `IsRegistered` reads the map outside the loop, and two controllers share one reconciler; the model serialises manager calls and has one round in flight per node.
- Selector and label matching: a parameter, of which `Selection` fixes only that a host-name requirement asks for that label; elsewhere the number of listed nodes is an arbitrary answer. The label library's verdict on a requirement is a parameter, too.
- Results of a round other than updateFinished: equal values in the source, told apart here only as far as the code itself does.
- Parsing and printing of addresses: `net.ParseCIDR`, `net.ParseIP` and `IP.String` are a datatype of texts with an injective address form; IPv6 is not part of this model.
- API server: writes that change nothing also get a new version here; status validation and admission are left out.
- Kernel table: a set of routes, so metrics and a missing destination (the default route) do not occur; netlink's equality is structural here.
- The node reconciler's own reads of the node and of the route list, which only decide whether the cleaner runs.
- `main.go`, logging, metrics, generated deep copies, manifests and scripts: no logic to prove.
