# Switchboard: models and proofs of the signalling core and the RTP node

Switchboard is a VoIP switch. A signalling process bridges the two legs of a call
and spreads media sessions over a pool of RTP nodes; a node can be drained, which
moves its calls elsewhere; phones register where they can be reached; a dialplan
fills in variables before it acts. The project models the parts where those
promises depend on order, concurrency, loss or time, and proves them for every
input, every run or every interleaving.

Remote calls, SIP answers and clock readings are outcomes that can be anything.
Where goroutines share state, the model is a transition system whose steps are the
lock regions and atomic operations of the code, and the theorems are about every
schedule of any number of threads. Objects that work under one lock are classes
whose methods are proved against specification functions; the theorems are about
runs of those functions.

| file | what it is about |
|---|---|
| `CallStates.dfy`, `Clocks.dfy` | shared vocabulary; a clock of which only is known that it does not run backwards |
| `LegBridge.dfy` | legs and bridge: threads with stacks of `Hangup`, `handleLegTerminated`, `Stop`, `Start`, `NewBridge`, one lock region a step |
| `LegBridgeSafety.dfy` | the inductive invariant of that system |
| `LegBridgeOutcome.dfy` | no Active bridge keeps a dead leg; nothing regresses; one leg ends both |
| `LegBridgeProgress.dfy` | the teardown recursion ends, whatever the schedule |
| `LegBridgeRecord.dfy`, `LegBridgeRuns.dfy` | when `Start` makes a bridge Active, whom its end names; a bridge's life as a run |
| `LegWaiting.dfy`, `BridgeWaiting.dfy` | `WaitForState`, `WaitForTermination` and their wake-ups |
| `MediaPool.dfy`, `RoundRobin.dfy` | the session/node index, drain states, selection |
| `NodeSessions.dfy`, `NodeBridges.dfy` | one RTP node: ports, sessions, calls, media bridges |
| `Cluster.dfy`, `ClusterSafety.dfy` | pool and nodes together, over calls that go step by step and may be lost anywhere; the invariant |
| `ClusterOutcome.dfy`, `ClusterRuns.dfy`, `BridgeRuns.dfy` | what the pool's index is worth, and exactly when it is wrong; runs in which it is |
| `SessionMigration.dfy` | moving one call, from start to end |
| `ConcurrentMigrations.dfy`, `MigrationSafety.dfy` | many migrations at once, with calls set up and hung up meanwhile; the invariant |
| `MigrationOutcome.dfy` | what returned migrations leave, and exactly when a hang-up leaves a session behind |
| `DrainRun.dfy`, `DrainAccounting.dfy` | a drain with everything else going on; its books |
| `TtlStore.dfy`, `Registrar.dfy`, `LocationStore.dfy` | the expiring map; bindings inside it; the object |
| `RegistrarReplay.dfy` | exactly when a binding, expired or not, refuses a replayed CSeq |
| `Dialogs.dfy`, `ReInvites.dfy` | the re-INVITE flag and the CSeq counter, for one caller and for many |
| `Dialplan.dfy`, `StrayDollars.dfy` | variable substitution; templates with stray dollar signs |

`dafny verify dfyconfig.toml` checks everything.

## What turned out to be false

Each of these has a concrete run or input and, where there is one, the exact
condition under which the code does what it should.

* `WaitForTermination` can sleep for good: `Stop` replaces the waiters' channel, and
  a caller that tested the state before and picks up the channel after gets the new
  one (`BridgeWaiting.WaiterIsLostIffLate`, `BridgeWaiting.LateWaiterIsLost`).
* `WaitForState` on an inbound leg misses `Answer`, which changes the state without
  closing the broadcast channel (`LegWaiting.OnlyAnswerLosesSleepers`).
* A session whose creation was in flight when the drain found its node empty lands on
  the node after it was disabled (`DrainRun.DisabledNodeReceivesSession`; only then, by
  `DrainRun.DisabledNodeIsEmpty`).
* The number of recorded errors is the failure count exactly if the drain was not given up
  for want of a target (`DrainAccounting.DrainBooksBalance`).
* A tracked session is on its node exactly if the node was never told to destroy it
  (`ClusterOutcome.AffinityIsSound`). It fails in two ways: a reply is tracked after the
  session was destroyed (`ClusterOutcome.LateReplyDanglesIff`,
  `ClusterRuns.SecondReplyDangles`), or a destroy request given up by its caller arrives when
  the session is tracked again (`ClusterRuns.StrayDestroyDangles`).
* An accepted `BridgeMedia` joins live sessions exactly if the node was told to destroy
  neither (`ClusterOutcome.BridgeJoinsLiveSessionsIff`,
  `BridgeRuns.BridgeOverDestroyedSession`).
* Moving one leg rolls back exactly only if the target's session identifier is new to the
  pool (`SessionMigration.IvrRollbackIsExactIff`); a second migration of a call is answered
  with the first one's session and takes it away (`ClusterRuns.SecondMigrationUndoesFirst`).
* A call hung up during its migration leaves its new session tracked for good, exactly if
  the migration renames the dialog after all the call's callbacks have read what they destroy
  (`MigrationOutcome.EarlyCallbacksLeaveSessionIff`, `MigrationOutcome.LateHangUpLeavesBoth`).
* A binding that has expired still refuses a registration over its CSeq, exactly if its
  AOR's entry has been visible at every operation on the AOR since, as it is while another
  binding stays alive (`RegistrarReplay.ReplayIsRefusedIff`,
  `RegistrarReplay.NeighbourKeepsRefusal`, `Registrar.LapsedBindingStillRefuses`).
* The result of `Delete`, and all of `Refresh`, show whether the sweep has been by
  (`TtlStore.SweepingIsInvisibleIff`, `TtlStore.LapsedDeleteIsUntidy`).
* A caller whose context ends gives the re-INVITE flag back before its transaction is
  terminated, so a second re-INVITE can go out meanwhile
  (`ReInvites.AbandonedTransactionOverlaps`, exactly when by `ReInvites.SendOverlapsIff`).
* Substitution depends on the order of the map when a value touches the placeholder of
  another variable (`Dialplan.SubstitutionIsSimultaneousIff`), and for plain values exactly
  if the template has a stray dollar sign, with text that begins a placeholder, right before
  a different variable (`StrayDollars.TemplateIsOrderFreeIff`).

## Model

| member | source | states |
|---|---|---|
| LegBridgeSafety.StepKeepsInv | internal/signaling/b2bua/bridge.go:206-229 | every lock region of every thread keeps the invariant behind the race-freedom comments: a leg that dies has a callback in some thread's hands until the bridge has taken it, and whoever moved the bridge to Terminating will finish |
| LegBridgeSafety.ScheduleKeepsInv | internal/signaling/b2bua/bridge.go:497-529 | the same in every reachable state of every interleaving |
| LegBridgeOutcome.ActiveBridgeIsWatched | internal/signaling/b2bua/bridge.go:280-338 | in every interleaving, each leg of an Active bridge is Answered or its termination callback is still on its way to the bridge |
| LegBridgeOutcome.QuietBridgeIsSettled | internal/signaling/b2bua/bridge.go:340-456 | when all calls have returned, an Active bridge has two answered legs, no bridge is half torn down, and each destroyed leg ran its teardown handler exactly once |
| LegBridgeOutcome.BridgeNeverRegresses | internal/signaling/b2bua/bridge.go:497-529 | between any two moments of any run the bridge's state only advances, and who ended it, why, and each leg's cause of destruction stay as first recorded |
| LegBridgeOutcome.OneLegEndsBoth | internal/signaling/b2bua/leg.go:546-602 | if nobody stops the bridge without hanging up, quiescence after the death of a leg of a started bridge means Terminated and both legs Destroyed |
| LegBridgeProgress.StepUsesWork | internal/signaling/b2bua/leg.go:546-602 | every step of every thread strictly lowers a natural number, through the whole recursion of Hangup, callback, Stop and Hangup |
| LegBridgeProgress.SomeThreadCanStep | internal/signaling/b2bua/bridge.go:280-338 | no deadlock: while a call is unfinished some thread can move, although Start holds the bridge's mutex while it reads the legs |
| LegBridgeProgress.RunsAreBounded | internal/signaling/b2bua/bridge.go:504-528 | without new calls, a run is no longer than the work left at its start |
| LegBridgeProgress.TeardownCompletes | internal/signaling/b2bua/bridge.go:340-456 | after any run, any maximal schedule of the running threads is bounded, returns every call, and ends with the bridge Terminated and both legs Destroyed once a leg of a started, hanging-up bridge has died |
| LegBridgeRecord.StartActivatesIff | internal/signaling/b2bua/bridge.go:280-338 | in every interleaving, a call of Start that has returned made the bridge Active if and only if it found it Fresh, read both legs Answered and the media was joined |
| LegBridgeRecord.EnderIsFirst | internal/signaling/b2bua/bridge.go:497-529 | in every interleaving, terminatedBy and the cause name the leg whose handler got to the bridge first; if a Stop was first the end is local and normal |
| LegBridgeRecord.EnderIsDead | internal/signaling/b2bua/bridge.go:504-520 | a bridge that names a leg as its ender has that leg destroyed |
| LegBridgeRecord.KillerIsRecorded | internal/signaling/b2bua/leg.go:546-568 | nothing but a Hangup on a leg that is not over destroys it, and the leg records that call's cause |
| LegBridgeRecord.HangupKillsIff | internal/signaling/b2bua/leg.go:546-568 | a Hangup that begins destroys its leg, unless it has failed or is destroyed, when it returns at once |
| LegBridgeRecord.LegIsLeftUp | internal/signaling/b2bua/bridge.go:362-425 | without automatic hangup, if nobody asks Stop to hang up and nobody hangs up a leg, that leg is never destroyed, whatever becomes of the bridge and the other leg |
| LegBridgeRuns.LivesAndEnds | internal/signaling/b2bua/bridge.go:280-456 | from two answered legs, a run in which a bridge is made, becomes Active, a leg is hung up, and all ends Terminated with both legs Destroyed |
| LegWaiting.NoLostWakeup | internal/signaling/b2bua/leg.go:419-453 | on an outbound leg, a sleeper whose leg has left the state it saw is woken already or will be by a task that has still to close the channel or `done` |
| LegWaiting.NoDoubleClose | internal/signaling/b2bua/leg.go:643-675 | in every interleaving a task about to close a channel finds it open, and no second task is about to close it |
| LegWaiting.ReachedMeansAnswered | internal/signaling/b2bua/leg.go:419-453 | WaitForState(Answered) succeeds only after reading Answered |
| LegWaiting.OnlyAnswerLosesSleepers | internal/signaling/b2bua/leg.go:514-544 | a step that moves the leg under a sleeper loses the sleeper if and only if it is an Answer and no hangup is there to fall back on |
| LegWaiting.AnsweredInboundLegLosesSleeper | internal/signaling/b2bua/leg.go:514-544 | a run in which a caller waiting for an inbound leg sleeps through its answer |
| LegWaiting.VerdictIsExact | internal/signaling/b2bua/leg.go:430-441 | a caller that reads the leg returns success exactly at or past its target, an error exactly if the leg is over otherwise, and else sleeps on the present channel |
| LegWaiting.TransitionWakesSleeper | internal/signaling/b2bua/leg.go:643-675 | TransitionTo wakes a sleeper, which reads the new state and is told accordingly |
| LegWaiting.HangupWakesSleeper | internal/signaling/b2bua/leg.go:554-580 | so does Hangup, through `done`, with an error |
| LegWaiting.AnswerIsExact | internal/signaling/b2bua/leg.go:514-544 | Answer answers an inbound leg that rings or plays early media, and no other |
| BridgeWaiting.WaiterIsLostIffLate | internal/signaling/b2bua/bridge.go:458-485 | a caller past the state test sleeps for good if and only if every Stop had replaced the channel when the caller picked it up |
| BridgeWaiting.LateWaiterIsLost | internal/signaling/b2bua/bridge.go:440-485 | a run in which that happens |
| BridgeWaiting.TestIsExact | internal/signaling/b2bua/bridge.go:458-466 | a caller returns at once exactly if it finds the bridge Terminated |
| BridgeWaiting.StopWakesSleeper | internal/signaling/b2bua/bridge.go:441-445 | a caller asleep when a Stop begins on a live bridge is woken once that Stop has run |
| MediaPool.TrackKeepsMirrorIff | internal/signaling/mediaclient/pool.go:294-304 | tracking keeps the two indexes mutual inverses, without empty sets, if and only if the session is not already tracked on another node |
| MediaPool.UntrackKeepsMirror | internal/signaling/mediaclient/pool.go:307-320 | untracking always keeps them, and takes the session from exactly its node's set |
| MediaPool.UntrackUndoesTrackIff | internal/signaling/mediaclient/pool.go:294-320 | untrack after track gives back the same two maps, node keys included, if and only if the session was untracked before |
| MediaPool.SameNodesSameSets | internal/signaling/mediaclient/pool.go:294-337 | the forward index determines the backward one |
| MediaPool.SessionCountsSum | internal/signaling/mediaclient/pool.go:647-677 | the per-node counts of Stats add up to the number of active sessions |
| MediaPool.SelectionIsExact | internal/signaling/mediaclient/pool.go:251-270 | selection finds a member that is healthy, connected and Active if there is one, and none otherwise |
| MediaPool.CreatedAnywhere | internal/signaling/mediaclient/pool.go:440-463 | a session is created exactly if there is such a member and it replies, and is then mapped to one |
| MediaPool.CreatedNearPeer | internal/signaling/mediaclient/pool.go:527-557 | a session created near a tracked peer is mapped to the peer's node without moving the turn, and a bridge request for the pair goes out; without a tracked peer it is created anywhere |
| MediaPool.Pool.SelectMember | internal/signaling/mediaclient/pool.go:251-270 | the loop picks the member the round-robin specification picks: a healthy, connected, Active one, and none exactly if there is none |
| MediaPool.Pool.TrackSession | internal/signaling/mediaclient/pool.go:294-304 | both indexes change as specified and nothing else does |
| MediaPool.Pool.UntrackSession | internal/signaling/mediaclient/pool.go:307-320 | both indexes change as specified, an emptied set disappears, and nothing else changes |
| MediaPool.Pool.SessionsOnNode | internal/signaling/mediaclient/pool.go:323-337 | every session of the node, once each |
| MediaPool.Pool.BeginDrain | internal/signaling/mediaclient/pool.go:340-354 | succeeds exactly on an Active member, which becomes Draining; otherwise nothing changes |
| MediaPool.Pool.FinishDrain | internal/signaling/mediaclient/pool.go:357-371 | succeeds exactly on a Draining member, which becomes Disabled; otherwise nothing changes |
| MediaPool.Pool.Reactivate | internal/signaling/mediaclient/pool.go:374-392 | succeeds exactly on a member that is not Active, which becomes Active; otherwise nothing changes |
| MediaPool.Pool.CreateSessionOnNode | internal/signaling/mediaclient/pool.go:395-425 | guards in order, and the session is tracked on the named node exactly if the node made it |
| MediaPool.Pool.CreateSession | internal/signaling/mediaclient/pool.go:440-463 | the selected member makes and gets the session; the counter moves on even if the call fails |
| MediaPool.Pool.CreateSessionNearPeer | internal/signaling/mediaclient/pool.go:527-557 | with a tracked peer, the reply's session is on the peer's node, the turn has not moved and the pair can be bridged; without, it is on a healthy, connected, Active member |
| MediaPool.Pool.Destroy | internal/signaling/mediaclient/pool.go:466-478 | a tracked session is forgotten whether or not the node answers |
| MediaPool.Pool.CanBridge | internal/signaling/mediaclient/pool.go:570-588 | a bridge request goes out exactly if both sessions are tracked on members of one address |
| MediaPool.Pool.TotalSessionCount | internal/signaling/mediaclient/pool.go:647-677 | the loop's total is the sum of the members' set sizes |
| RoundRobin.SelectionIsFair | internal/signaling/mediaclient/pool.go:251-270 | over any number of selections with the same available members and no wrap-around, each pick is healthy, connected and Active, and any two members' counts differ by at most one |
| RoundRobin.TurnsPickEachOnce | internal/signaling/mediaclient/pool.go:251-270 | t whole turns pick each available member exactly t times |
| NodeSessions.RtpPortCount | internal/rtpmanager/portpool/pool.go:20-38 | the pool starts with exactly the number of even/odd pairs of the range, an odd lower end and an incomplete last pair excluded |
| NodeSessions.PortPool.constructor | internal/rtpmanager/portpool/pool.go:20-38 | the filling loop makes free exactly the even ports whose odd neighbour is still in range |
| NodeSessions.PortPool.Allocate | internal/rtpmanager/portpool/pool.go:41-56 | a free pair moves to the used ones; an exhausted pool is an error that changes nothing |
| NodeSessions.PortPool.Release | internal/rtpmanager/portpool/pool.go:59-67 | a used port becomes free again; any other port is ignored |
| NodeSessions.ReleaseUndoesAllocate | internal/rtpmanager/portpool/pool.go:41-67 | release after allocate gives back the same pool |
| NodeSessions.CreateKeepsNodeOK | internal/rtpmanager/session/manager.go:57-120 | creating keeps the node's invariant; if no session results (no port, no codec, call known) the node is exactly as before, so no port leaks |
| NodeSessions.DestroyKeepsNodeOK | internal/rtpmanager/session/manager.go:257-286 | destroying keeps the node's invariant |
| NodeSessions.CloseAllKeepsNodeOK | internal/rtpmanager/session/manager.go:388-399 | closing everything frees every port |
| NodeSessions.NodeConservesPorts | internal/rtpmanager/session/manager.go:175-237 | after any run: used ports are exactly the live sessions' ports, call and session tables are mutual inverses, sessions plus free pairs is the initial number of pairs, and no two sessions share a port of either kind |
| NodeSessions.Manager.CreateSession | internal/rtpmanager/session/manager.go:57-120 | a port is taken and both tables get the session; a known call, an exhausted pool and no common codec are answered without keeping a port |
| NodeSessions.Manager.DestroySession | internal/rtpmanager/session/manager.go:257-286 | frees the session's port and both its table entries; an unknown session is an error that changes nothing |
| NodeSessions.Manager.UpdateRemoteEndpoint | internal/rtpmanager/session/manager.go:132-155 | sets the far end of one known session, makes it active if it was pending, and leaves every other session alone |
| NodeSessions.Manager.SetSessionBridged | internal/rtpmanager/session/manager.go:241-255 | marks one known session as bridged and changes nothing else |
| NodeSessions.Manager.DestroyAll | internal/rtpmanager/session/manager.go:388-399 | the closing loop empties both tables and frees every session's port |
| NodeBridges.CreateKeepsTableOK | internal/rtpmanager/bridge/bridge.go:65-124 | a bridge that is made joins two different sessions that had none; a refused one changes no map and leaves no port bound |
| NodeBridges.SelfBridgeIsRejected | internal/rtpmanager/bridge/bridge.go:127-156 | joining a session to itself fails, because its port cannot be bound twice |
| NodeBridges.TwoSessionsPerBridge | internal/rtpmanager/bridge/bridge.go:65-124 | sessions in bridges, and bound ports, are exactly twice the bridges |
| NodeBridges.TableConservesSockets | internal/rtpmanager/bridge/bridge.go:283-339 | after any run of creations and both kinds of destruction: tables and sockets agree, the counts are two to one, and each session is in at most one bridge |
| NodeBridges.Manager.BindSockets | internal/rtpmanager/bridge/bridge.go:127-156 | both ports are bound or neither is |
| NodeBridges.Manager.Create | internal/rtpmanager/bridge/bridge.go:65-124 | refuses a session already in a bridge or an endpoint without a far end, then binds and enters both sessions, or nothing |
| NodeBridges.UnbridgedBySession | internal/rtpmanager/bridge/bridge.go:297-313 | unbridging by session takes that session's bridge apart and no other: neither of its sessions has a bridge and neither port is bound afterwards |
| NodeBridges.Manager.DestroyForSession | internal/rtpmanager/bridge/bridge.go:297-313 | names the bridge of the session, if any; afterwards that bridge, its entries and its sockets are gone |
| NodeBridges.Manager.CloseAll | internal/rtpmanager/bridge/bridge.go:378-385 | the closing loop leaves no bridge, no session entry and no bound port |
| ClusterOutcome.AffinityIsSound | internal/signaling/mediaclient/pool.go:395-478 | in every interleaving of calls whose guard, node step and bookkeeping are separate, and whose requests and replies may be lost or arrive late: the indexes agree, and a tracked session is in its node's table if and only if the node was never told to destroy it; if it was, the session is about to be untracked by the call that did, or dangles |
| ClusterOutcome.LateReplyDanglesIff | internal/signaling/mediaclient/pool.go:440-463 | a reply tracked after any events dangles if and only if the node was told to destroy the session in between |
| ClusterOutcome.WithoutRepeatsNothingDangles | internal/rtpmanager/session/manager.go:57-68 | only a second reply for one session can dangle: in runs without repeats every tracked session is live or about to be untracked |
| ClusterOutcome.AcceptedBridgeJoins | internal/rtpmanager/server/server.go:186-259 | an accepted BridgeMedia joins two different sessions made on that machine, each on its own port, and each live unless it has been destroyed since it was read |
| ClusterOutcome.BridgeJoinsLiveSessionsIff | internal/rtpmanager/server/server.go:192-241 | both endpoints being read and the bridge created in separate lock regions, the sessions that an accepted BridgeMedia joins are live if and only if the node was never told to destroy either |
| ClusterOutcome.StatsAddUp | internal/signaling/mediaclient/pool.go:647-677 | in every reachable state the members' session counts add up to the number of active sessions |
| ClusterOutcome.CreationIsThePools | internal/signaling/mediaclient/pool.go:395-557 | choosing a node and tracking the reply, as separate steps, do what the pool's three creating operations do |
| ClusterOutcome.OtherStepsAreExact | internal/rtpmanager/session/manager.go:57-120 | a refused create ends at the node, a granted one is answered with the node's session, a lost call leaves no other trace |
| ClusterOutcome.NodeEffectsAreTheNodes | internal/rtpmanager/server/server.go:243-301 | far ends, bridged marks and unbridging are the node's own operations |
| ClusterRuns.SecondReplyDangles | internal/signaling/mediaclient/pool.go:440-463 | a run in which a session is tracked for good on a node that does not have it |
| ClusterRuns.StrayDestroyDangles | internal/signaling/mediaclient/pool.go:466-478 | another: a destroy request that its caller has given up arrives after a second reply has tracked the session again |
| BridgeRuns.BridgeOverDestroyedSession | internal/rtpmanager/server/server.go:192-241 | a run in which a session is destroyed after it was read for a bridge, and the bridge is accepted |
| ClusterRuns.SecondMigrationUndoesFirst | internal/rtpmanager/session/manager.go:61-68 | a run in which the target answers a second migration with the session the pool tracks for the first, and the second one's rollback forgets it |
| ClusterSafety.EventKeepsSound | internal/signaling/mediaclient/pool.go:395-588 | every step of every call keeps that soundness, and nodes hold exactly what was made there and not destroyed |
| SessionMigration.RollbackIsExact | internal/signaling/drain/migrator.go:64-197 | every error but the final re-bridge leaves dialogs and both indexes exactly as they were; in aggressive mode, after a re-INVITE that was not accepted, it leaves exactly what hanging up the call without a migration would have left |
| SessionMigration.AggressiveMigrationEndsCallIff | internal/signaling/drain/migrator.go:157-177 | in aggressive mode a live call is ended exactly if the new sessions could be made and a re-INVITE was turned down (two legs: not accepted, or the sessions not joined) |
| SessionMigration.RefusalIsExact | internal/signaling/drain/migrator.go:65-84 | a session without a dialog, of a B-leg, or of an unconfirmed dialog is refused in its own way and changes nothing, and no other session is refused so |
| SessionMigration.BridgedCallMovesWhole | internal/signaling/drain/migrator.go:87-97 | MigrateSession of a bridged call on one node leaves it on one node; success means both sessions on the target and both old ones forgotten, and is reported exactly if both sessions were made, both parties accepted and the sessions were joined |
| SessionMigration.LoneCallMoves | internal/signaling/drain/migrator.go:99-107 | a call without a B-leg dialog is moved exactly if its session was made and the party accepted |
| SessionMigration.LegsStayTogether | internal/signaling/drain/migrator.go:201-327 | a bridged call on one node is on one node after every outcome: on the target, with the old sessions forgotten, exactly if both sessions were made and both re-INVITEs accepted, and reported as moved exactly if the target joined them |
| SessionMigration.IvrRollbackIsExactIff | internal/signaling/drain/migrator.go:111-197 | undoing a one-leg migration is exact if and only if the new session's identifier was not in the pool |
| SessionMigration.MigrationConservesSessions | internal/signaling/drain/migrator.go:201-327 | the number of tracked sessions falls by exactly the dialogs the migration ends, termination callbacks included: in graceful mode not at all |
| SessionMigration.Migrator.FindBySessionID | internal/signaling/dialog/manager.go:503-514 | a dialog carrying the session, or none exactly if there is none |
| SessionMigration.Migrator.HangUp | internal/signaling/app/app.go:192-213 | a live dialog ends and its callback destroys the session it carries; a dead one is left alone |
| SessionMigration.Migrator.MigrateSession | internal/signaling/drain/migrator.go:64-108 | finds the dialog and reports as the three results above say, clause by clause |
| SessionMigration.Migrator.MigrateIvrCall | internal/signaling/drain/migrator.go:111-197 | the method for one leg, step by step with its rollbacks, leaves pool and dialogs as specified |
| SessionMigration.Migrator.MigrateBridgedCall | internal/signaling/drain/migrator.go:201-327 | the method for two legs, with the rollbacks in the code's order, leaves pool and dialogs as specified |
| MigrationOutcome.FinishedMigrationIsWhole | internal/signaling/drain/migrator.go:201-327 | any number of two-leg migrations interleaved effect by effect with each other, with set-ups and with hang-ups and ends of legs at any point, a target answering with a new session or one it still has from an earlier migration: one that has returned, and whose calls no later one has taken on, has moved both legs or neither, but for sessions that callbacks of ending calls destroyed |
| MigrationOutcome.EndedCallIsNotMoved | internal/signaling/dialog/manager.go:526-534 | if a party has ended the call before its re-INVITE, the migration can only roll back, whatever else happens |
| MigrationOutcome.ReportIsExact | internal/signaling/drain/migrator.go:302-326 | success is reported exactly if the target joins the sessions |
| MigrationOutcome.HungUpCallLeavesSessionIff | internal/signaling/app/app.go:192-213 | when all has come to rest, a call has exactly the session its dialog carries, and an ended one leaves it behind if and only if no callback got hold of it |
| MigrationOutcome.EarlyCallbacksLeaveSessionIff | internal/signaling/b2bua/originator.go:130-163 | once all callbacks that an ended call ever has, of its dialog and of its leg, have read what they will destroy, the call leaves a session behind if and only if a migration renames its dialog after that |
| MigrationOutcome.LateHangUpLeavesBoth | internal/signaling/drain/migrator.go:294-316 | a run in which, after both re-INVITEs are accepted, one party hangs up and the B-leg ends with the callbacks of leg and dialog, the migration reports success, and both new sessions stay tracked for ended calls |
| MigrationSafety.StepKeepsInv | internal/signaling/drain/migrator.go:223-327 | one effect of one migration keeps what is known of its own calls, whatever their callbacks have done, and of every other call |
| MigrationSafety.EventKeepsInv | internal/signaling/b2bua/originator.go:130-163 | so do set-ups, new migrations, hang-ups, and the callbacks of dialogs and of legs, which destroy first and end the dialog afterwards |
| DrainRun.DisabledNodeIsEmpty | internal/signaling/drain/coordinator.go:98-238 | in every interleaving a Disabled node tracks nothing, unless a creation was in flight on it when the run found it empty |
| DrainRun.DisabledNodeIsEmptyWhenAtomic | internal/signaling/mediaclient/pool.go:340-408 | with atomic pool operations a Disabled node tracks nothing in any reachable state |
| DrainRun.LateCreationLandsOnDisabledNode | internal/signaling/mediaclient/pool.go:527-557 | from any state with such a creation in flight, the node can be disabled and then receive the session |
| DrainRun.DisabledNodeReceivesSession | internal/signaling/drain/coordinator.go:98-106 | such a run from the start: a creation goes out, its node is drained while it tracks nothing and disabled, and then gets the session |
| DrainRun.BeginAvoidsSealed | internal/signaling/drain/coordinator.go:207-220 | no guard (selection, target choice, following a peer) picks a node that is disabled, or draining and empty |
| DrainRun.FullDrainFindsNodeEmpty | internal/signaling/drain/coordinator.go:98-204 | unless something else is tracked on the node meanwhile, the sessions a drain finds left are among those it did not migrate, and the node is found empty if all were migrated |
| DrainRun.FindTargetNode | internal/signaling/drain/coordinator.go:207-219 | the loop finds the first other member, in order, that is healthy and Active, or none exactly if there is none |
| DrainRun.TargetIsAnotherActiveNode | internal/signaling/drain/coordinator.go:108-113 | a run goes on with such a node and is given up exactly if there is none |
| DrainRun.CreationIsThePools | internal/signaling/mediaclient/pool.go:395-557 | picking a node and tracking the reply, as separate steps, do what the pool's creating operations do |
| DrainRun.StepsAreTheRuns | internal/signaling/drain/coordinator.go:189-238 | what each other step does: the final look is for sessions mapped to the node, completion disables a draining node, cancelling reactivates it |
| DrainAccounting.DrainBooksBalance | internal/signaling/drain/coordinator.go:98-261 | at every moment of every interleaving: migrated, failed, skipped, unacquired and pending partition the total; the recorded errors are the failed sessions plus one without a session if the run was given up for want of a target, so errors and failures are equally many if and only if it was not; the semaphore's limit holds |
| DrainAccounting.SettledRunIsAccounted | internal/signaling/drain/coordinator.go:120-204 | when every job has settled the run was not given up, each failure has its error, nothing is pending and all slots are free |
| DrainAccounting.GivenUpRunMovesNothing | internal/signaling/drain/coordinator.go:241-261 | a run given up for want of a target leaves every session pending, one error against no failure, and the node Active again |
| TtlStore.SweepingIsInvisibleIff | internal/signaling/store/ttlstore.go:254-280 | however many sweeps are put into a run, and wherever, all results are the same, if and only if no Refresh (nor, if its result is looked at, Delete) meets an expired entry that is still there |
| TtlStore.SweepsDoNotMatter | internal/signaling/store/ttlstore.go:72-193 | two runs that differ only in sweeps look alike to callers who do not use Refresh or look at Delete's result |
| TtlStore.WritesAreRead | internal/signaling/store/ttlstore.go:72-230 | a reader after any operation finds what it wrote for exactly as long as it said, and everything else as before |
| TtlStore.ReadsAreExact | internal/signaling/store/ttlstore.go:94-137 | Get and Has find an entry exactly up to the instant it expires |
| TtlStore.ScansAreExact | internal/signaling/store/ttlstore.go:140-165 | All lists exactly the entries not past their expiry when looked at, and Len counts them |
| TtlStore.UntidyRunIsExposed | internal/signaling/store/ttlstore.go:196-206 | a run that is not tidy is told apart by one sweep |
| TtlStore.LapsedDeleteIsUntidy | internal/signaling/store/ttlstore.go:119-128 | such a run: a key is set, lapses and is deleted, and Delete's result tells whether the sweep has been by |
| TtlStore.TTLStore.Set | internal/signaling/store/ttlstore.go:72-80 | the entry expires its TTL after a reading made during the call |
| TtlStore.TTLStore.SetWithExpiry | internal/signaling/store/ttlstore.go:83-91 | the entry expires at the given instant, whatever the clock says |
| TtlStore.TTLStore.Get | internal/signaling/store/ttlstore.go:94-104 | the value exactly if the entry is there and unexpired at a reading made during the call |
| TtlStore.TTLStore.Len | internal/signaling/store/ttlstore.go:140-151 | the number of entries unexpired when each was looked at |
| TtlStore.TTLStore.All | internal/signaling/store/ttlstore.go:154-165 | exactly the entries unexpired when each was looked at |
| TtlStore.TTLStore.Update | internal/signaling/store/ttlstore.go:209-223 | changes a live value, and its expiry only if a TTL is given; an expired entry is left alone |
| TtlStore.TTLStore.Refresh | internal/signaling/store/ttlstore.go:196-206 | gives any entry that is there, expired or not, a new expiry |
| TtlStore.TTLStore.Delete | internal/signaling/store/ttlstore.go:119-128 | removes one key and tells whether it was there, expired or not |
| TtlStore.TTLStore.Cleanup | internal/signaling/store/ttlstore.go:254-280 | what was expired when looked at is gone, all else stays, and the callbacks are for exactly the removed entries, once each |
| Registrar.LookupIsTheLedger | internal/signaling/location/store.go:64-198 | after any run of Register, Unregister and sweeps, with all their separate clock readings, Lookup returns exactly the latest accepted, not unregistered, unexpired bindings |
| Registrar.LookupIsTimely | internal/signaling/location/binding.go:78-80 | over every run, Lookup returns a binding if and only if it is in the ledger and no more time has gone by since it was registered than it was granted |
| Registrar.RegisteredIsFound | internal/signaling/location/store.go:113-125 | an accepted registration is found by Lookup, as granted, until its time is up |
| Registrar.RegisterIsExact | internal/signaling/location/store.go:65-111 | a registration is refused for exactly one of four reasons, in this order, and otherwise accepted |
| Registrar.UnregisterIsExact | internal/signaling/location/store.go:144-160 | unregistering fails exactly if, without the wildcard, the AOR or the binding is not to be seen |
| Registrar.EntriesAreNeverEmpty | internal/signaling/location/store.go:162-176 | no run leaves an AOR with an entry and no binding |
| Registrar.SweepIsExact | internal/signaling/store/ttlstore.go:262-270 | a sweep removes exactly the entries past their expiry when looked at |
| Registrar.RegisterRefines | internal/signaling/location/store.go:95-125 | registering keeps the AOR's entry alive as long as any of its bindings, so nothing alive is lost |
| Registrar.UnregisterRefines | internal/signaling/location/store.go:140-180 | unregistering removes its binding or the whole AOR and keeps every other live binding covered |
| Registrar.LookupIsFresh | internal/signaling/location/store.go:75-98 | a binding Lookup returns was granted an interval within the limits and registered no longer ago than that |
| Registrar.Stamped | internal/signaling/location/store.go:75-98 | an interval within the limits is granted as asked, a longer one is cut to the maximum, none asked gives the default; a missing identifier is derived from contact and instance; contact, Call-ID and CSeq are stored as sent |
| Registrar.ReplacementRaisesCSeq | internal/signaling/location/binding.go:158-165 | in any run, a live binding replaced under its own Call-ID is replaced by a higher CSeq |
| Registrar.StaleCSeqMeansReplay | internal/signaling/location/store.go:106-111 | a refusal over CSeq means the ledger holds that Call-ID with a CSeq as high, and a live such binding always refuses |
| Registrar.LapsedBindingStillRefuses | internal/signaling/location/store.go:100-111 | a run in which an expired binding refuses a registration |
| RegistrarReplay.ReplayIsRefusedIff | internal/signaling/location/store.go:100-125 | over every run, a binding stored and not touched since, lapsed or not, refuses its Call-ID with no higher CSeq if and only if its AOR's entry was visible at every operation on the AOR since and still is |
| RegistrarReplay.NeighbourKeepsRefusal | internal/signaling/location/store.go:116-125 | in particular whenever another binding of the AOR, there when it was stored and not touched since, is still alive |
| RegistrarReplay.StoredBySome | internal/signaling/location/store.go:113-125 | every binding in the ledger after a run was accepted by some event of it and not touched since, so the condition covers them all |
| Registrar.UnregisterIsEffective | internal/signaling/location/store.go:140-180 | a live binding can always be unregistered; afterwards Lookup misses it, or all with the wildcard, and still finds every other live binding |
| LocationStore.Store.Register | internal/signaling/location/store.go:64-136 | the object's bindings change as specified, at clock readings made in order during the call |
| LocationStore.Store.Unregister | internal/signaling/location/store.go:140-180 | the bindings change as specified, and the AOR disappears with its last binding; an unknown AOR or binding is an error |
| LocationStore.Store.MaxTtl | internal/signaling/location/store.go:116-122 | the loop finds the longest remaining time, each read at its own instant |
| LocationStore.MaxTtlBounds | internal/signaling/location/binding.go:83-89 | that time bounds what every binding has left, and is that of one of them or the least it may be |
| LocationStore.Store.Lookup | internal/signaling/location/store.go:183-198 | the list is, one for each key, the bindings whose entry has not passed its expiry when read and that have not passed theirs when looked at |
| Dialogs.SendReINVITE | internal/signaling/dialog/manager.go:525-618 | on every way out the flag is as it was found and one CSeq is spent exactly if a request was built; the result is a success exactly if the first arrival that is no 1xx is a 2xx, names its status, and is Unanswered or Abandoned exactly if the transaction ends or the context does first |
| Dialogs.Dialog.BuildReINVITE | internal/signaling/dialog/dialog.go:433-561 | takes the flag exactly if it succeeds; a flag already taken, a missing INVITE and an unusable target each fail without changing anything |
| Dialogs.Dialog.BuildBYE | internal/signaling/dialog/dialog.go:314-429 | spends the next CSeq exactly if a request is built, and never touches the flag |
| Dialogs.Dialog.CompleteReINVITE | internal/signaling/dialog/dialog.go:565-567 | frees the flag |
| Dialogs.Dialog.TransitionTo | internal/signaling/dialog/state.go:44-66 | succeeds exactly on the four steps of a dialog's life and on its end from any state before it |
| ReInvites.FlagHasOneOwner | internal/signaling/dialog/manager.go:525-618 | with any number of callers interleaved, the flag is up exactly while one caller owns it, never two do, and it is down once all have returned |
| ReInvites.OverlapNeedsACloser | internal/signaling/dialog/manager.go:547-556 | two client transactions are open at once only if one caller has given the flag back and is about to terminate its own |
| ReInvites.SendOverlapsIff | internal/signaling/dialog/manager.go:543-556 | when a re-INVITE goes out, another transaction is open if and only if its caller has given the flag back and not yet terminated it |
| ReInvites.AbandonedTransactionOverlaps | internal/signaling/dialog/manager.go:553-556 | a run in which that happens |
| ReInvites.CSeqsRiseIff | internal/signaling/dialog/dialog.go:412-416 | the CSeqs of BYEs and re-INVITEs rise strictly from the initial one if and only if the 32-bit counter has not wrapped around |
| ReInvites.ReInvitesGoOutInOrder | internal/signaling/dialog/dialog.go:532-537 | re-INVITEs go out in the order of their CSeqs, whoever sends them |
| ReInvites.RefusalsAreExact | internal/signaling/dialog/manager.go:526-546 | a caller is refused, in order, by a terminated dialog, an unconfirmed one, a missing INVITE, a flag that is up; an unusable target or a failed send ends it with the flag to free |
| ReInvites.AwaitIsExact | internal/signaling/dialog/manager.go:552-615 | a caller that awaits goes on after a 1xx and otherwise has its result, a success exactly on a 2xx |
| ReInvites.ResultIsHandedOn | internal/signaling/dialog/manager.go:614-616 | it then frees the flag, terminates its transaction and returns that result |
| ReInvites.UnconfirmedSendsNothing | internal/signaling/dialog/manager.go:526-534 | on a dialog that is never Confirmed no re-INVITE goes out, in any interleaving |
| ReInvites.NoInviteSendsNothing | internal/signaling/dialog/dialog.go:437-439 | nor on one whose INVITE is missing, and no number is spent |
| ReInvites.OtherEventsAreTheDialogs | internal/signaling/dialog/dialog.go:411-416 | a BYE takes the next number |
| Dialplan.SubstitutionIsSimultaneousIff | internal/signaling/dialplan/executor.go:145-165 | in every order of the map and for every template without stray dollar signs, repeated replacement is the simultaneous substitution, if and only if no value holds or ends with the beginning of another variable's placeholder (unless that variable's value is its own placeholder) |
| Dialplan.PlainValuesAreSimultaneous | internal/signaling/dialplan/executor.go:152-162 | in particular whenever no value has a dollar sign |
| Dialplan.VariablesByName | internal/signaling/dialplan/executor.go:140-157 | the three variables and the values they stand for |
| Dialplan.TouchingValueIsExposed | internal/signaling/dialplan/executor.go:159-162 | for any value that touches another placeholder, a template and an order that give a different result |
| Dialplan.StrayDollarDependsOnOrder | internal/signaling/dialplan/executor.go:159-162 | a template with a stray dollar sign whose result depends on the order although no value has a dollar sign |
| StrayDollars.TemplateIsOrderFreeIff | internal/signaling/dialplan/executor.go:145-165 | for all values without dollar signs all orders agree on a template, if and only if no stray dollar sign, with text after it that begins a placeholder, stands right before a different variable |
| StrayDollars.UnbridgedIsSimultaneous | internal/signaling/dialplan/executor.go:159-162 | on such templates every order gives the simultaneous substitution |
| StrayDollars.BridgeIsExposed | internal/signaling/dialplan/executor.go:159-162 | on any other, values without dollar signs and two orders with different results |
| Dialplan.TokensSpellTheTemplate | internal/signaling/dialplan/executor.go:140-145 | the tokens of the reference substitution spell the template they were read from |
| Dialplan.SubstituteVars | internal/signaling/dialplan/executor.go:145-165 | the loop over the map, in whatever order it goes, is one of those walks, and the simultaneous substitution under the condition above |

## Left out

Assumptions the theorems make:

- Legs and bridge are values stepped by a transition system, not objects: aliasing between two bridges over one leg, and the method form of `Hangup`, `Start` and `Stop`, are not captured. The same goes for the drain run and the concurrent callers of a dialog.
- `TransitionTo` is taken to be called only on legs that are neither answered nor over, and never with Destroyed; it has no guard of its own.
- `Hangup` on a Failed leg returns at once and fires no callback, and the model follows it; nothing is claimed about clean-up after a failed dial.
- LegBridgeOutcome.OneLegEndsBoth: excludes `Stop(false)`, which is meant to leave the legs up.
- How often bridge callbacks fire, and how often the media bridge is undone, is not claimed: two concurrent `Stop` calls can both get there.
- RoundRobin.SelectionIsFair: excludes wrap-around of the 64-bit counter, which shifts the turn when the number of members does not divide 2^64.
- ClusterOutcome.AffinityIsSound: nodes do not restart, this pool is their only client, session identifiers are never generated twice, and no two members of the pool are one machine.
- MigrationOutcome.FinishedMigrationIsWhole: a session identifier belongs to one call, a call is in one migration at a time, and only two-leg migrations in graceful mode are interleaved. A target may answer with a session it still has from an earlier migration of the call, but not with the one the leg was set up with or one that a callback already has hold of, where the callback would strike the new session; the overlap of two migrations of one call is `ClusterRuns.SecondMigrationUndoesFirst`.
- SessionMigration.MigrationConservesSessions: takes termination callbacks to have run by the time an aggressive migration returns; their interleaving is the subject of `ConcurrentMigrations.dfy`.
- SessionMigration.RollbackIsExact: restores bookkeeping, as the code does; a leg that had already accepted its re-INVITE is not re-invited back.
- SessionMigration.LegsStayTogether: is about `migrateBridgedCall`; a leg whose peer is still ringing migrates alone.
- DrainRun.DisabledNodeIsEmpty: one drain run at a time; overlapping and restarted drains, and the entry that `failDrain` leaves in `activeDrains`, are not modelled.
- A node's `DestroySession` does not touch the media bridge, so nothing is claimed about free ports being unbridged; binding UDP port 0 is not modelled.
- Each registrar operation is one step, as is each operation of the expiring map except for its clock readings. A sweep between the read and the write of one Register is not modelled, nor is the data race of a Lookup that walks a map while a Register changes it.
- A `*Binding` handed to Register is taken to be a new object; registering the stored object again would change its expiry before the CSeq test.
- `ForEach`, `GetEntry` and `AllEntries` of the expiring map, which add order and shared pointers to what `All` does.
- The `List`, `Count`, `LookupByUser` and `LookupOne` views of the location store; `LookupOne` and the user resolver order by q-value differently.
- `GenerateBindingID` is any function of contact and instance; collisions of the hash are not excluded.
- `BuildReINVITE` on an inbound dialog whose INVITE has neither Contact nor From would fail outright; the model takes such headers to be there.
- How often termination callbacks fire is left open (any number of times), and the number of BYEs sent is not modelled.
- JSON quoting of substituted values, and the actions that run afterwards.

Not modelled at all: SIP message building and parsing, SDP, transactions, gRPC
transport, UDP relay, audio, health checking, events, REST, the UI and configuration.
