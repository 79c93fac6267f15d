# Verification of the agy–Buzz adapter

A Dafny model of the stateful parts of the adapter that connects ACP clients to `agy`
provider processes and publishes their answers to Buzz, with proofs of the promises those
parts make. It can be checked with `dafny verify dfyconfig.toml`. The project has six parts.

**Durable turns** (`AcpServer*`, `SessionRecord`, `SessionState`, `DurableTurns*`). The
prompt handler of the server is cut at its awaits into segments on one adapter's memory.
Any number of adapters, each with any number of ACP sessions, run these segments over one
shared channel: the durable record, the channel lock, the outbox and the provider children.
Adapters crash and close at any point, children exit at any point, and operators retry and
archive deliveries. An awaited storage operation may take effect and still be reported as
failed. The main theorem is about every such run; `DurableTurnsFault` says exactly which two
failures are excluded from it and when they do harm, `DurableTurnsDrift` when a recorded
conversation id can change, and `DurableTurnsDelivery` that turns can complete.

**Steering bridge** (`Steering*`). Every operation of the adapter's coordinator and of the
provider's hook is a plan of atomic file writes under the bridge lock, which may be cut off
after any of them. Runs interleave operations of any number of coordinators and hooks with
the archival of blocked bridges.

**Provider session** (`AgySession*`). All calls, child events, timers and continuations of
one provider session. A monitor is told of every effect outside the session and judges it
by rules that do not mention the session's fields, and keeps them all; `AgySessionTrace` says
what the rules mean of the effects of every run. Texts are UTF-16 code units and sizes are
UTF-8 bytes.

**Delivery outbox** (`Outbox*`). Record transitions, claim-then-publish retries, pages of
bounded insertion over a directory in any order, and archival that copies, verifies and
then removes.

**Manager and framing** (`Manager*`, `Tar*`, `FrameCodec`, `Utf8`). The journalled swap of a
configuration file with failing effects, crashes and an outside writer; its diagnosis; the
ustar reader against an independent writer; the line decoder over a growing buffer against
splitting the whole stream.

**Store migration** (`Migration*`). Moving a legacy session store, named by channel ids as
they were spelled, into a canonical store: three looks at the source under its locks, a
stage whose marker is written last, and one rename, with crashes and interference between.

The form follows the source. What is pure there is a function here; objects that handlers
update in place are classes: `Server`, `SessionState`, `SteeringCoordinator`,
`ProviderSession`, `Archiver`, `DeliveryOutbox`, `Operation`, `Migrator`, `LineDecoder` and
`ByteBudget`. Every public method of `Server`, `ProviderSession` and `Operation` is proved to
be one step of the runs and to keep `Valid()`, the invariant behind the theorems about runs,
so these hold of the objects after any sequence of calls; for `Server` the world it shares
with other adapters is ghost, and its moves keep `Valid()` too. The parts public methods are
made of have no row below.

## Where the source does not keep a promise

Each of these is stated as a lemma, with the exact condition or a concrete run.

- A removal of the block that takes effect and is reported as failed (the `rm` or the rename
  of src/session-state.js:296-301, called at src/acp-server.js:591), or a read that fails
  between removing the block and rereading the record (src/acp-server.js:597-618), leaves a
  no-start claim in memory that no longer belongs to any block. If the catch block then gives
  the lock back and the adapter goes on, the claim can later remove a block of another
  adapter whose child still lives. `DurableTurnsFault.FaultIsHarmlessIff` gives the exact
  condition for both failures, `FaultLeadsToOrphan` the continuation, and
  `OneFailureIsEnough` a whole run from the start for each.
- A session whose `bound` flag survived a failed turn does not take the saved conversation
  id again (src/acp-server.js:634-640), so the id of a channel, which is never lost
  (`DurableTurnsSafety.IdIsNeverLost`), can be replaced by another one.
  `DurableTurnsDrift.IdStaysFromStart` says that the id stays as long as no session that is
  bound elsewhere opens the record, `BoundElsewhereReplaces` that the turn of one that does
  can replace it, and `TheIdCanChange` gives a whole run from the start.
- A user input that must wait for an enqueue operation is kept apart from the other deferred
  events (src/agy-session.js:880-892) and is handled before those that arrived earlier.
  `AgySessionOrder.HoldingKeepsOrderIff` says when, `AnInputCanGoAhead` shows a run.
- If a journal entry cannot be written while the harness is claimed (src/manage.js:613-632),
  nothing puts the claim back, the journal says failed, and the diagnosis no longer reports
  an interrupted claim. `ManagerDiagnosis.InterruptedExactlyWhen` is the exact statement,
  `AFailedEntryHidesTheClaim` and `TheWindowIsReached` the run.

## Model

| member | source | states |
|---|---|---|
| DurableTurnsSafety.EveryRunIsSafe | src/acp-server.js:433-690 | every run of any number of adapters, sessions, crashes, child exits and recovery commands on one channel, from an empty bound outbox, in which storage calls may take effect and be reported as failed, except for the two failures of `DurableTurnsFault.FaultIsHarmlessIff` where it shows them harmful: at most one provider child is live and none beside an absent or ready record; an absent or ready record leaves no unsettled delivery; one turn per adapter, the live-block mark lasts no longer, a displaced session has no turn; an answer is published only under a record blocked with the id of its own retired provider |
| DurableTurnsSafety.InvGuarantees | src/acp-server.js:717-790 | the invariant gives all four guarantees in every single state, at every await |
| DurableTurnsSafety.KeepEvent | src/acp-server.js:408-905 | every event of the system, tolerated storage failures included, keeps the invariant: at most one entry of one adapter holds a retirement or no-start claim, and any live child is that entry's last one |
| DurableTurnsSafety.KeepOwnMemory | src/acp-server.js:408-841 | each segment of one adapter keeps its own part of the invariant together with what it does to the record, the lock, the outbox and the children |
| DurableTurnsSafety.TouchIsElsewhere | src/acp-server.js:173-182 | an adapter that changes anything shared holds the channel lock or takes it, and never touches a block another running adapter answers for |
| DurableTurnsSafety.Bystander | src/acp-server.js:173-182 | what another adapter does leaves an adapter's own part of the invariant intact |
| DurableTurnsSafety.KeepGone | src/acp-server.js:878-905 | a crash or a confirmed close drops the memory and frees the lock but keeps record, outbox and children, and the block it leaves is nobody's to claim |
| DurableTurnsSafety.KeepOperated | src/delivery/outbox.js:835-895 | an operator's retry or archival never unsettles a settled channel and never touches the record of a turn in flight |
| DurableTurnsSafety.IdIsNeverLost | src/session-state.js:219-341 | over every run, with every storage failure and crash, a recorded conversation id never becomes null or absent |
| DurableTurnsSafety.StepKeepsId | src/session-state.js:296-341 | no single event loses the id: `reconcile` removes only a record without one, `invalidate` keeps it |
| DurableTurnsHistory.DisplacedNeverStarts | src/acp-server.js:607-614 | from a committed transfer to the end of the process, the displaced session never starts its provider again: its last child stays its last |
| DurableTurnsHistory.EventKeepsDisplaced | src/acp-server.js:417-421 | no event other than the end of the process lets a displaced session act |
| DurableTurnsFault.FaultIsHarmlessIff | src/acp-server.js:591-618 | the two storage failures the protocol does not tolerate, a removal of the block that took effect and is reported as failed, and a reread that fails after it, in any state of the invariant, closing adapters included: no later run has two children or a child beside an open record if and only if the adapter is closing, or the catch block does not give the lock back, or the entry carries no no-start claim |
| DurableTurnsFault.FaultLeadsToOrphan | src/acp-server.js:658-690 | otherwise a concrete continuation exists after either failure: a peer blocks the record, starts a child and dies, and the stale claim reopens the record beside the living child |
| DurableTurnsFault.OneFailureIsEnough | src/acp-server.js:569-690 | a whole run from the start, for each of the two failures: first prompt on an absent record, cancelled before its provider starts, lock given back; second prompt, the failure, and then the continuation above |
| DurableTurnsFault.HarmfulReconcileIsReachable | src/acp-server.js:569-597 | a run without any failure from the start to the removal that can fail harmfully |
| DurableTurnsFault.HarmfulRereadIsReachable | src/acp-server.js:591-618 | a run without any failure from the start to the reread that can fail harmfully |
| DurableTurnsFault.StaleClaimReopens | src/acp-server.js:569-597 | an entry with a stale no-start claim removes whatever block is on disk, whoever made it |
| DurableTurnsFault.FaultRun | src/acp-server.js:658-690 | after the failure the record is open and the lock comes free while the claim survives in memory |
| DurableTurnsFault.OrphanRun | src/acp-server.js:646-707 | an open, unlocked record lets a new adapter block it, start a child and die |
| DurableTurnsFault.InvIsSafeForever | src/acp-server.js:433-690 | from any state in the invariant, no later run has two children or a child beside an open record |
| DurableTurnsDrift.IdStaysFromStart | src/acp-server.js:634-640 | from the start, over every run: once an id is recorded it stays the id as long as no session that is bound already to another conversation, or to none, opens the record |
| DurableTurnsDrift.BoundElsewhereReplaces | src/acp-server.js:634-748 | and from every state in which such a session has opened a record with an id, unless it is cancelled, closing or its session object closed: a run of its turn replaces the id |
| DurableTurnsDrift.IdChangesIff | src/session-state.js:219-271 | one event: a recorded id changes if and only if the event stages another conversation |
| DurableTurnsDrift.TheIdCanChange | src/acp-server.js:634-790 | a concrete run from the start in which the channel is ready in conversation 1 and later ready in conversation 2: a session whose preflight fails after a replacement stays bound, another one completes a turn, and the first takes over from it |
| DurableTurnsDelivery.ATurnCanBeDelivered | src/acp-server.js:691-790 | the protocol is not safe by standing still: from any open, unlocked state a new adapter can run a whole turn to a ready record, exactly one more sent delivery and no child left |
| DurableTurnsDelivery.Completes | src/acp-server.js:691-790 | the same for any session that has blocked the record, beside any others: its provider runs and exits, the answer is staged, begun, published, acknowledged and saved |
| DurableTurnsGate.KeepGate | src/acp-server.js:446-552 | every way of winning the channel keeps the invariant: pinning, explicit-cancel recovery, safe transfer, replacement, and each failure |
| DurableTurnsGate.KeepFail | src/acp-server.js:658-690 | leaving the preflight through its catch block keeps the invariant, whether or not the lock is given back |
| DurableTurnsGate.RetirementProves | src/agy-session.js:340-357 | a closed provider whose owner still answers for the channel leaves no live child of the channel at all |
| DurableTurnsGate.KeepCancelRetired | src/acp-server.js:522-539 | taking over from a cancelled owner after its provider retired keeps the invariant |
| DurableTurnsGate.KeepSafeScanned | src/acp-server.js:528-539 | taking over from a settled owner keeps the invariant |
| DurableTurnsRecord.KeepRecord | src/acp-server.js:553-657 | every step on the durable record keeps the invariant: loading, refusing, reconciling, rereading, committing, binding, blocking, starting, releasing |
| DurableTurnsRecord.KeepOpen | src/acp-server.js:599-640 | committing a transfer, rebuilding and binding the session keep the invariant, including the refusals |
| DurableTurnsRecord.KeepReconciled | src/acp-server.js:591-597 | removing a block on a proof keeps the invariant |
| DurableTurnsRecord.NoOldClaims | src/acp-server.js:618-648 | when a turn is about to block the record, no entry holds an old claim |
| DurableTurnsRecord.KeepReleased | src/acp-server.js:663-677 | when the lock is given back, nothing in this process depends on it |
| DurableTurnsRun.KeepRun | src/acp-server.js:704-830 | every step of a started turn keeps the invariant, from spawning to the ready checkpoint or the finally block |
| DurableTurnsRun.KeepUpdated | src/acp-server.js:756-790 | an acknowledged outcome on disk settles the whole channel before the checkpoint is saved |
| DurableTurnsRun.KeepSettle | src/acp-server.js:819-830 | ending a turn unsafely keeps the invariant |
| AcpServerProcess.Server.constructor | src/acp-server.js:89-100 | a new server has no session, turn, pin or mark, and its part of the invariant holds in whatever sound world it starts |
| AcpServerProcess.Server.NewSession | src/acp-server.js:327-394 | a session opens exactly unless the adapter is closing; its part of the invariant is kept |
| AcpServerProcess.Server.PromptArrives | src/acp-server.js:408-449 | accepts exactly when the session is known, idle, neither in error nor displaced, the adapter not closing and the channel not busy; it is the event `Prompts` of the runs and keeps the invariant |
| AcpServerProcess.Server.CancelArrives | src/acp-server.js:833-841 | the event `Cancels` of the runs, ignored by a closing adapter; it keeps the invariant |
| AcpServerProcess.Server.CloseStarts | src/acp-server.js:879-886 | the loops over turns and sessions amount to the closing step of the runs, and keep the invariant |
| AcpServerProcess.Server.GateResumes | src/acp-server.js:456-552 | whatever awaited call on the way to the channel is over, the handler does to its memory and to the world exactly the step of the runs, and this adapter's part of the invariant is kept |
| AcpServerProcess.Server.RecordResumes | src/acp-server.js:553-690 | the same for every awaited call on the durable record, the catch block and the tolerated storage failures included |
| AcpServerProcess.Server.RunResumes | src/acp-server.js:704-830 | the same for every awaited call of a started turn |
| AcpServerProcess.Server.OthersAct | src/acp-server.js:173-182 | whatever another adapter does under the lock leaves this object valid |
| AcpServerProcess.Server.AnotherDies | src/acp-server.js:878-905 | another adapter that dies gives its lock back and leaves this object valid |
| AcpServerProcess.Server.ChildExits | src/acp-server.js:173-182 | a provider child that exits leaves this object valid |
| AcpServerProcess.Server.OperatorActs | src/delivery/outbox.js:835-895 | so does an operator's retry or archival |
| AcpServerProcess.Server.BusyElsewhere | src/acp-server.js:176-182 | true exactly when another session has a turn in flight |
| SessionState.SessionState.EnsureOwnership | src/session-state.js:127-143 | succeeds exactly when the lock is held already or by nobody, and no other lock changes |
| SessionState.SessionState.ReleaseOwnership | src/session-state.js:151-158 | the lock and the map entry go together, and only when the release works |
| SessionState.SessionState.Open | src/session-state.js:199-211 | an operation gets past exactly when the lock can be had and the file is absent or readable in this scope |
| SessionState.SessionState.Load | src/session-state.js:199-214 | with the lock and a readable file: the id of a ready record, nothing for an absent one, a refusal for a blocked one, which is never handed out |
| SessionState.SessionState.StageCheckpoint | src/session-state.js:219-243 | succeeds exactly for a readable blocked record under the lock with a confirmed write; it then stays blocked with the conversation of its turn; a failed write leaves one of the two |
| SessionState.SessionState.Save | src/session-state.js:245-271 | on success the durable record is ready with this conversation, under the lock; on failure it is the old or the new one |
| SessionState.SessionState.Reconcile | src/session-state.js:278-302 | succeeds exactly with the lock, a readable file and, for a blocked record, the proof and a confirmed write, and says `reconciled` exactly when it changed a blocked record; without the proof nothing changes; with it the record is restored or removed as in the runs |
| SessionState.SessionState.Invalidate | src/session-state.js:304-341 | the durable record becomes the blocked form of what it was, keeping its id; other channels are untouched |
| SteeringSafety.EverySteerAtMostOnce | src/steering.js:465-519 | every interleaving of creating, enqueueing, claiming, observing, binding, blocking, reopening and archiving, each cut off after any write: the texts handed out are in order a prefix of the texts enqueued, confirmations follow in increasing sequence order at most one behind, and no steer id occurs twice in any bridge, archived ones included |
| SteeringSafety.EveryBridgeKeepsItsShape | src/steering.js:381-396 | in every such state binding and state validate together; unless blocked, the queue is injected entries, at most one awaiting entry that is the active one, then queued ones, guarded exactly when something is pending and at most eight pending; sequences are consecutive |
| SteeringSafety.ConfirmedOnlyAfterClaim | src/steering.js:711-764 | a confirmed entry was handed out with its own text, its step is past its watermark, and earlier confirmations have smaller sequences |
| SteeringSafety.BlockedIsAbsorbing | src/steering.js:444-463 | no operation changes a blocked bridge's files or hands anything out |
| SteeringSafety.HalfMadeStaysSilent | src/steering.js:809-821 | a bridge whose creation was cut off between its two files stays as it is, hands out nothing and is never archived |
| SteeringSafety.SteerIsDelivered | src/steering.js:670-764 | a steer accepted by a settled bridge is claimed with its own text, confirmed, and leaves the bridge settled again |
| SteeringRuns.OperationKeeps | src/steering.js:444-837 | every operation, stopped after any number of its writes, keeps the bridge invariant |
| SteeringRuns.EnqueueKeeps | src/steering.js:670-709 | state first, then the request: the invariant holds between the two writes as well |
| SteeringRuns.ClaimKeeps | src/steering.js:496-517 | claim, request, acknowledgement: the invariant holds after each, and the text counts as told only after all three |
| SteeringRuns.ObserveKeeps | src/steering.js:747-762 | request, then state: a crash between them leaves the entry unconfirmed |
| SteeringRuns.BindKeeps | src/steering.js:616-654 | binding and state stay consistent when the second write is lost, because the token does not depend on the conversation |
| SteeringRuns.BlockKeeps | src/steering.js:444-463 | blocking keeps the invariant after every one of its writes |
| SteeringRuns.OpenKeeps | src/steering.js:805-836 | creating or reopening keeps the invariant; an unconsumed bridge is blocked on reopening |
| SteeringRuns.NextToClaim | src/steering.js:475-477 | the first queued entry of a live bridge is the one right after the confirmed ones, and nobody was told of it |
| SteeringRuns.NextToConfirm | src/steering.js:723-741 | the active, acknowledged entry is the one right after the confirmed ones and its claim completed |
| Steering.FirstQueued | src/steering.js:476 | the first entry in queue order that is queued, if there is one |
| Steering.WithId | src/steering.js:723 | an entry of the queue with that id, if there is one |
| SteeringProcess.BlockState | src/steering.js:444-463 | state record first, then the request files that can be rewritten, stopping where the writes stop |
| SteeringProcess.ClaimPendingSteer | src/steering.js:465-519 | performs exactly the writes of the claim plan, up to the crash, and returns the text only when all three were made |
| SteeringProcess.PerformClaim | src/steering.js:496-517 | the three writes in their order |
| SteeringProcess.SteeringCoordinator.EnqueueSteer | src/steering.js:670-709 | performs exactly the enqueue plan up to the crash; it remembers a blocked bridge |
| SteeringProcess.SteeringCoordinator.BlockBridge | src/steering.js:766-778 | performs exactly the block plan |
| SteeringProcess.SteeringCoordinator.ObserveUserInput | src/steering.js:711-764 | performs exactly the observe plan: confirm, block, or refuse |
| SteeringProcess.SteeringCoordinator.PerformObserve | src/steering.js:747-762 | the two writes of a confirmation in their order |
| SteeringProcess.SteeringCoordinator.BindConversation | src/steering.js:616-654 | performs exactly the bind plan; the memory follows only when both files are written |
| SteeringProcess.CreateSteeringCoordinator | src/steering.js:781-837 | performs exactly the open plan and returns a coordinator exactly when the bridge was opened |
| AgySessionSafety.EverySessionIsFair | src/agy-session.js:95-1085 | in every run of calls, child events, timers and continuations, no effect breaks a rule of the monitor (children, conversation, writes, text, order, steers, answers, retirement) |
| AgySessionSafety.TextIsAccountedFor | src/agy-session.js:762-771 | in every reachable state the segments number injections plus one, concatenate to the emitted text, and stay within the byte limit |
| AgySessionSafety.EventsKeepTheirOrder | src/agy-session.js:748-760 | while a turn lives and no input went ahead, its arrived events are the handled ones followed by the deferred ones, in order |
| AgySessionSafety.MoveKeeps | src/agy-session.js:95-1085 | every move keeps the session invariant |
| AgySessionSafety.CalmKeeps | src/agy-session.js:309-498 | cancel, close, retirement, trust, child errors and closes, and every timer keep it and leave a live turn's steers and events alone |
| AgySessionTrace.RunIsWatched | src/agy-session.js:95-1085 | the monitor of every run is what watching the recorded effects of that run gives, and it is fair |
| AgySessionTrace.RunSpawnsAfterCloses | src/agy-session.js:525-637 | in the effects of every run: between two spawns the first child closed |
| AgySessionTrace.RunWritesAfterInit | src/agy-session.js:673-716 | in the effects of every run: a child that resumes a conversation is written to only after an init naming this very conversation |
| AgySessionTrace.RunKeepsOneConversation | src/agy-session.js:1022-1047 | in the effects of every run: the conversation id, however it was named, never changes |
| AgySessionTrace.RunWritesAtMostOnce | src/agy-session.js:429-458 | in the effects of every run: a prompt is written at most once over all children |
| AgySessionTrace.RunResolvesOnlyInjected | src/agy-session.js:932-958 | in the effects of every run: a prompt resolves only if every steer accepted in its turn was injected |
| AgySessionTrace.RunAnswersWithLastSegment | src/agy-session.js:939-957 | in the effects of every run: after an injection a prompt resolves with exactly the text said since the last one, which is not empty |
| AgySessionOrder.HoldingKeepsOrderIff | src/agy-session.js:880-892 | holding a user input back for an enqueue operation keeps the order of events if and only if nothing but inits was deferred before it |
| AgySessionOrder.AnInputCanGoAhead | src/agy-session.js:832-930 | a concrete run in which a held user input overtakes text that arrived before it, which is then counted to the later segment |
| AgySessionReading.ByteLengthAdds | src/agy-session.js:762-771 | the UTF-8 length of a concatenation is at most the sum of the lengths, so the response budget bounds the text |
| AgySessionReading.FinishResultKeeps | src/agy-session.js:939-957 | the answer is the text after the last injection, else the provider's own, else all text, within the limit |
| AgySessionReading.HandleUserInputKeeps | src/agy-session.js:873-902 | a user input is held, observed or ambiguous; the invariant is kept |
| AgySessionReading.HandleResultKeeps | src/agy-session.js:726-744 | a result settles the turn, waits for its steers, or dooms it |
| AgySessionReading.HandleInitKeeps | src/agy-session.js:702-716 | an init names the conversation once and releases the waiting prompt |
| AgySessionRuns.ReceiveKeeps | src/agy-session.js:639-746 | reading one line keeps the invariant, deferral and failure included |
| AgySessionRuns.ReplayAllKeeps | src/agy-session.js:919-924 | replaying the deferred events in order keeps it, even when they defer again |
| AgySessionRuns.SteerKeeps | src/agy-session.js:208-240 | an accepted steer is filed under exactly one key |
| AgySessionRuns.EnqueuedKeeps | src/agy-session.js:241-259 | its promise moves from the operation to its id |
| AgySessionRuns.ObservedKeeps | src/agy-session.js:903-929 | a confirmed steer leaves the file exactly once and opens a segment |
| AgySessionRuns.BindSettledKeeps | src/agy-session.js:840-858 | a settled binding replays, a failed one fails the turn |
| AgySessionLifecycle.PromptKeeps | src/agy-session.js:263-290 | starting a turn, with rotation, keeps the invariant |
| AgySessionLifecycle.ChildClosedKeeps | src/agy-session.js:606-635 | a closing child and all that waited for it keep it |
| AgySessionLifecycle.RetireForCheckpointKeeps | src/agy-session.js:309-336 | retiring for a checkpoint keeps it |
| AgySessionLifecycle.RetireForRecoveryKeeps | src/agy-session.js:340-357 | retiring for recovery keeps it |
| AgySessionProcess.ProviderSession.constructor | src/agy-session.js:95-162 | a new session has no child, no conversation and no turn, and is valid |
| AgySessionProcess.ProviderSession.Prompt | src/agy-session.js:164-181 | refused exactly when closed, running or without context; otherwise the move `Prompts` of the runs; the invariant of session and monitor is kept, so no rule is broken |
| AgySessionProcess.ProviderSession.ResumeTimedOut | src/agy-session.js:281-283 | the move `ResumeTimer` of the runs; the invariant of session and monitor is kept, so no rule is broken |
| AgySessionProcess.ProviderSession.RotationTimedOut | src/agy-session.js:379-384 | the move `RotationTimer` of the runs; the invariant of session and monitor is kept, so no rule is broken |
| AgySessionProcess.ProviderSession.Cancel | src/agy-session.js:460-478 | the move `Cancels` of the runs; the invariant of session and monitor is kept, so no rule is broken |
| AgySessionProcess.ProviderSession.Close | src/agy-session.js:480-498 | the move `Shuts` of the runs; the invariant of session and monitor is kept, so no rule is broken |
| AgySessionProcess.ProviderSession.RetireForCheckpoint | src/agy-session.js:309-336 | the move `RetiresForCheckpoint` of the runs; the invariant of session and monitor is kept, so no rule is broken |
| AgySessionProcess.ProviderSession.CheckpointTimedOut | src/agy-session.js:379-384 | the move `CheckpointTimer` of the runs; the invariant of session and monitor is kept, so no rule is broken |
| AgySessionProcess.ProviderSession.RetireForRecovery | src/agy-session.js:340-357 | the move `RetiresForRecovery` of the runs; the invariant of session and monitor is kept, so no rule is broken |
| AgySessionProcess.ProviderSession.RecoveryTimedOut | src/agy-session.js:353 | the move `RecoveryTimer` of the runs; the invariant of session and monitor is kept, so no rule is broken |
| AgySessionProcess.ProviderSession.SetTrustedConversation | src/agy-session.js:408-419 | the move `IsTrusted` of the runs; the invariant of session and monitor is kept, so no rule is broken |
| AgySessionProcess.ProviderSession.OnChildError | src/agy-session.js:568-605 | the move `ChildBreaks` of the runs; the invariant of session and monitor is kept, so no rule is broken |
| AgySessionProcess.ProviderSession.OnChildClose | src/agy-session.js:606-635 | the move `ChildCloses` of the runs, all continuations that waited for it included; the invariant of session and monitor is kept, so no rule is broken |
| AgySessionProcess.ProviderSession.Consume | src/agy-session.js:639-746 | the move `Reads` of the runs: a line of the current child; the invariant of session and monitor is kept, so no rule is broken |
| AgySessionProcess.ProviderSession.InputResumes | src/agy-session.js:887-891 | the move `InputReturns` of the runs; the invariant of session and monitor is kept, so no rule is broken |
| AgySessionProcess.ProviderSession.Steer | src/agy-session.js:208-240 | refused exactly without a written prompt, a usable bridge or a named conversation; otherwise the move `Steered` of the runs; the invariant of session and monitor is kept, so no rule is broken |
| AgySessionProcess.ProviderSession.EnqueueSettled | src/agy-session.js:241-259 | the move `EnqueueSettles` of the runs; the invariant of session and monitor is kept, so no rule is broken |
| AgySessionProcess.ProviderSession.WatcherFailed | src/agy-session.js:778-824 | the move `WatcherGivesUp` of the runs; the invariant of session and monitor is kept, so no rule is broken |
| AgySessionProcess.ProviderSession.ObservationSettled | src/agy-session.js:903-929 | the move `ObservationSettles` of the runs, the replay of deferred events included; the invariant of session and monitor is kept, so no rule is broken |
| AgySessionProcess.ProviderSession.ReplayDeferred | src/agy-session.js:919-924 | the loop is the recursive replay of the model, in order |
| AgySessionProcess.ProviderSession.BindingSettled | src/agy-session.js:840-858 | the move `BindingSettles` of the runs, the replay of deferred events included; the invariant of session and monitor is kept, so no rule is broken |
| AgySessionProcess.ProviderSession.BlockSettled | src/agy-session.js:984-1006 | the move `BlockSettles` of the runs; the invariant of session and monitor is kept, so no rule is broken |
| AgySessionProcess.ProviderSession.FailureTimedOut | src/agy-session.js:1003-1019 | the move `FailureTimer` of the runs; the invariant of session and monitor is kept, so no rule is broken |
| OutboxDelivery.AtMostOneEffect | src/delivery/outbox.js:835-895 | over every interleaving of the server's begin, publish and update, any number of retries, failed and lost writes, and crashes: at most one publish attempt had an effect; `sent` means exactly one, absent or failed-before-start none |
| OutboxDelivery.ReturnedSentIsDurable | src/delivery/outbox.js:869-879 | a retry that returned `sent` left a record that says so, now and after anything that follows |
| OutboxDelivery.AttemptsComeAfterFailures | src/delivery/outbox.js:855-867 | an attempt is made only while no earlier one can have had an effect |
| OutboxDelivery.StepKeeps | src/acp-server.js:730-767 | each step of the server or a retry keeps the delivery invariant and only makes the record later |
| Outbox.HistoryIsLater | src/delivery/outbox.js:576-609 | over any sequence of transitions, refused ones included: `sent` is absorbing with its event id fixed up to case, and the identity never changes |
| Outbox.UncertainStays | src/delivery/outbox.js:585-593 | without a retry's final step an uncertain record stays uncertain |
| Outbox.NextIsLater | src/delivery/outbox.js:576-609 | one permitted transition gives a valid, later record |
| OutboxPages.ListPage | src/delivery/outbox.js:662-680 | the bounded insertion over the directory stream returns exactly the page of the specification, refuses exactly bad cursors and limits, and gives up exactly on a misnamed, irregular or unreadable record file |
| OutboxPages.FindIndex | src/delivery/outbox.js:670-671 | the first retained record that does not come before the new one |
| OutboxPages.Retain | src/delivery/outbox.js:672-673 | inserting and dropping keeps exactly the least records of all seen so far |
| OutboxPages.WalkIsComplete | src/delivery/outbox.js:662-680 | following the cursors over an unchanging directory, in whatever order it streams, ends and yields every record once, sorted, for every limit |
| OutboxPages.WalkIsSorted | src/delivery/outbox.js:662-680 | however the directory changes between pages, no id comes twice or out of order |
| OutboxPages.PresentThroughoutIsReturned | src/delivery/outbox.js:662-680 | a record there throughout is returned, however others come and go |
| OutboxPages.NextPageIsRest | src/delivery/outbox.js:675-679 | beyond a page's cursor lies exactly the rest |
| OutboxPages.AnyOrderWillDo | src/delivery/outbox.js:667-674 | the order of the directory does not matter |
| OutboxPages.PageFacts | src/delivery/outbox.js:675-679 | a page is sorted, beyond its cursor, misses nothing below the next cursor, and that cursor is its last id |
| OutboxPages.InsertTake | src/delivery/outbox.js:672-673 | dropping all but the first n before an insertion loses nothing |
| OutboxPages.LessTrichotomy | src/delivery/outbox.js:669-671 | the string order is total |
| OutboxPages.LessTransitive | src/delivery/outbox.js:669-671 | the string order is transitive |
| OutboxArchive.Archiver.ArchiveSentRecord | src/delivery/outbox.js:728-805 | at every crash point, with a spoilt copy or an outside writer in between, the record's exact bytes are in the outbox or, if sent, in the archive; it moves when it reports so, and it does move when the copy is faithful and nobody interferes |
| OutboxArchive.Archiver.ArchiveNext | src/delivery/outbox.js:826-830 | one eligible record, which may have changed since the scan |
| OutboxArchive.Archiver.ArchiveSent | src/delivery/outbox.js:807-833 | what leaves the outbox was sent and is archived; on completion eligible and skipped count all records scanned, apply mode archives all eligible, a dry run changes nothing; undisturbed, exact bytes are conserved and exactly the sent records move |
| OutboxStore.DeliveryOutbox.WriteAtomic | src/delivery/outbox.js:435-456 | the record is replaced or not, whatever is reported |
| OutboxStore.DeliveryOutbox.Begin | src/delivery/outbox.js:551-566 | writes an inflight record exactly when the id is new and the write takes effect, never over an existing one |
| OutboxStore.DeliveryOutbox.Update | src/delivery/outbox.js:611-619 | returns a record exactly when the transition is permitted and the write is confirmed; the record becomes that next record or stays; no other record changes |
| OutboxStore.DeliveryOutbox.Retry | src/delivery/outbox.js:835-879 | publishes once exactly when the record had failed before start and the claim was written; the record ends with the outcome or uncertain, and `sent` is returned only when it is on disk |
| OutboxStore.DeliveryOutbox.HasUnsettledDelivery | src/delivery/outbox.js:648-660 | true exactly when some record of the channel is not sent |
| Utf8.NewlineSplits | src/frame-codec.js:74-106 | for all byte strings, `a`, a newline and `b` together are valid UTF-8 (section 4 of RFC 3629) if and only if `a` and `b` are |
| Utf8.CharLength | src/frame-codec.js:82-84 | the length of the first character lies within the string, at most four bytes |
| Utf8.CharLengthStops | src/frame-codec.js:82-84 | a newline never completes a character that began before it |
| FrameCodec.LinesDecideValidity | src/frame-codec.js:74-106 | a stream is valid exactly when each of its lines and its rest are |
| FrameCodec.LineDecoder.constructor | src/frame-codec.js:48-52 | an empty decoder with its first buffer |
| FrameCodec.LineDecoder.Push | src/frame-codec.js:74-91 | for every chunk: what was reported before, and this chunk's results, are one result per line of the stream so far and one for a tail already too long |
| FrameCodec.LineDecoder.PushLine | src/frame-codec.js:78-88 | one line of the chunk up to its newline |
| FrameCodec.LineDecoder.PushTail | src/frame-codec.js:79 | what follows the last newline |
| FrameCodec.LineDecoder.Accumulate | src/frame-codec.js:56-72 | keeps the unfinished line, or drops it once it is too long and reports that once |
| FrameCodec.LineDecoder.Grow | src/frame-codec.js:66-70 | the buffer at least doubles, keeps its bytes and never passes the limit |
| FrameCodec.LineDecoder.EndLine | src/frame-codec.js:81-87 | a line is reported as text, too large or invalid, and the next one starts empty |
| FrameCodec.LineDecoder.Finish | src/frame-codec.js:93-106 | classifies the unfinished line: truncated, invalid, or nothing to report |
| FrameCodec.FewReallocations | src/frame-codec.js:66-70 | at most thirteen reallocations over the lifetime of a decoder |
| FrameCodec.DecodeStream | src/frame-codec.js:110-122 | for every chunking and limit: the results are those of splitting the whole stream, the end is classified by the rest, and at most thirteen reallocations were made |
| FrameCodec.ByteBudget.Add | src/frame-codec.js:124-134 | accepts exactly while the total ever asked for is within the limit |
| Tar.Split | src/manage.js:347 | splitting at slashes: at least one part, none with a slash |
| Tar.AcceptedStaysBelowRoot | src/manage.js:343-351 | whatever name is accepted, its path joined to a root, with dot segments resolved, stays strictly below that root |
| Tar.SafePathsAreAccepted | src/manage.js:343-351 | a path of safe parts under the package directory is accepted and comes back as it was |
| TarReader.ParseTar | src/manage.js:353-391 | an archive over the limit, no gzip stream or one that decompresses beyond the limit is refused; any other gives exactly what the recursive specification says, and the loop always ends |
| TarReader.ReadBlocks | src/manage.js:360-387 | the loop over the offset with its growing sets of names |
| TarReader.AcceptedArchivesStayBelow | src/manage.js:466-470 | what the reader accepts is free of exact and case-insensitive collisions and every path stays below any root |
| TarRoundTrip.ReadInvertsWrite | src/manage.js:353-391 | for every list of storable, case-insensitively distinct files and directories, reading its ustar encoding (POSIX.1, "ustar Interchange Format") returns exactly that list, for every end marker of at least two zero blocks |
| TarRoundTrip.NumberReads | src/manage.js:331-335 | a field of octal digits, ended by NUL and perhaps a space, reads as its value |
| TarRoundTrip.HeaderReads | src/manage.js:363-381 | a written header reads as its path, kind and size, with a matching checksum |
| TarRoundTrip.HeaderSum | src/manage.js:373-377 | the stored checksum is the sum with its own field read as spaces |
| TarRoundTrip.StorableReads | src/manage.js:337-341 | names too long for one field are cut at a slash and joined again |
| ManagerRuns.EveryJournalIsValid | src/manage.js:227-329 | over every run from the beginning of an operation, whatever the files were, whatever fails, whoever writes and wherever it stops: with a clock that does not go back, the journal on disk is one the validator accepts, or the unreadable one that was there before |
| ManagerRuns.StepDestroysNothing | src/manage.js:504-511 | one step: what is at the harness path survives there or under a claim, claims only grow, and no existing file is replaced |
| ManagerRuns.FoundFilesSurvive | src/manage.js:561-711 | a file once found survives everything the manager does, failures and crashes included |
| ManagerRuns.ClaimedFilesStay | src/manage.js:597-622 | a claimed file also outlives the outside writer |
| ManagerRuns.TargetAppearsAfterEvidence | src/manage.js:616-623 | what the manager puts at an empty harness path is the claimed file, or the new bytes once backup and receipt exist |
| ManagerRuns.EvidenceFirstThroughout | src/manage.js:561-711 | the condition of the previous row holds in every run |
| ManagerDiagnosis.CrashesAreDiagnosed | src/manage.js:797-918 | at every crash point of an undisturbed operation: interrupted exactly when the harness path is empty, consistent exactly when the operation completed and its marker is gone |
| ManagerDiagnosis.InterruptedExactlyWhen | src/manage.js:893-899 | when effects may also fail: interrupted exactly when the harness is missing and the journal is not marked failed |
| ManagerDiagnosis.ConsistentExactlyWhen | src/manage.js:899-917 | when effects may also fail: consistent exactly when the marker is gone and either the operation completed, or it never got to its journal and the files were consistent before |
| ManagerDiagnosis.AFailedEntryHidesTheClaim | src/manage.js:613-632 | a concrete consequence: a journal entry that cannot be written inside the claim window leaves no marker, a failed journal and a missing harness, and the diagnosis calls it indeterminate |
| ManagerDiagnosis.TheWindowIsReached | src/manage.js:601-613 | every undisturbed operation passes through that point |
| ManagerDiagnosis.RollbackRestores | src/manage.js:660-711 | an undisturbed install, then a rollback planned on its result under any claim name: both complete, the install puts the new bytes in place, and the rollback restores the original bytes exactly |
| ManagerDiagnosis.RollbackIsPlanned | src/manage.js:636-658 | after a completed install the rollback can be planned if and only if the two entrypoints differ, given that both exist |
| ManagerDiagnosis.PathKeeps | src/manage.js:561-711 | the crash invariant holds in every run without an outside writer |
| ManagerDiagnosis.AccountedAt | src/manage.js:603-624 | wherever an operation stops on its way, a missing harness is accounted for by claim, receipt and journal |
| ManagerProcess.Operation.constructor | src/manage.js:561-566 | an operation begins with its plan and the files as they are, whatever their journal |
| ManagerProcess.Operation.TakeMarker | src/manage.js:486-502 | the marker is created exclusively: the step of the runs; it destroys no file, and keeps the journal readable, the claim name unused until it is used, and the evidence first |
| ManagerProcess.Operation.StartJournal | src/manage.js:300-309 | refuses over an incomplete or unreadable journal: the step of the runs; it destroys no file, and keeps the journal readable, the claim name unused until it is used, and the evidence first |
| ManagerProcess.Operation.CheckFiles | src/manage.js:569-590 | the checks before an install or of a fresh rollback plan: the step of the runs; it destroys no file, and keeps the journal readable, the claim name unused until it is used, and the evidence first |
| ManagerProcess.Operation.AdvanceJournal | src/manage.js:311-323 | the file first, then the variable; a failed write changes neither: the step of the runs; it destroys no file, and keeps the journal readable, the claim name unused until it is used, and the evidence first |
| ManagerProcess.Operation.StageFiles | src/manage.js:592-596 | stages without touching what is in use: the step of the runs; it destroys no file, and keeps the journal readable, the claim name unused until it is used, and the evidence first |
| ManagerProcess.Operation.ClaimHarness | src/manage.js:603-607 | the harness moves under the claim's name: the step of the runs; it destroys no file, and keeps the journal readable, the claim name unused until it is used, and the evidence first |
| ManagerProcess.Operation.VerifyClaim | src/manage.js:608-612 | other bytes than the planned ones are put back: the step of the runs; it destroys no file, and keeps the journal readable, the claim name unused until it is used, and the evidence first |
| ManagerProcess.Operation.LinkBackup | src/manage.js:617 | never over an existing backup: the step of the runs; it destroys no file, and keeps the journal readable, the claim name unused until it is used, and the evidence first |
| ManagerProcess.Operation.LinkReceipt | src/manage.js:618 | never over an existing receipt: the step of the runs; it destroys no file, and keeps the journal readable, the claim name unused until it is used, and the evidence first |
| ManagerProcess.Operation.LinkHarness | src/manage.js:619-623 | never over an existing harness: the step of the runs; it destroys no file, and keeps the journal readable, the claim name unused until it is used, and the evidence first |
| ManagerProcess.Operation.RemoveStaged | src/manage.js:625-626 | removes only staged files: the step of the runs; it destroys no file, and keeps the journal readable, the claim name unused until it is used, and the evidence first |
| ManagerProcess.Operation.DropMarker | src/manage.js:486-502 | the operation ends, and its marker goes when that works: the step of the runs; it destroys no file, and keeps the journal readable, the claim name unused until it is used, and the evidence first |
| ManagerProcess.Operation.ReleaseMarker | src/manage.js:486-502 | the failed operation ends, and its marker goes when that works: the step of the runs; it destroys no file, and keeps the journal readable, the claim name unused until it is used, and the evidence first |
| ManagerProcess.Operation.RestoreClaim | src/manage.js:504-511 | puts the claim back only at an empty path: the step of the runs; it destroys no file, and keeps the journal readable, the claim name unused until it is used, and the evidence first |
| ManagerProcess.Operation.MarkFailure | src/manage.js:325-329 | marks the journal failed, or leaves the evidence as it is: the step of the runs; it destroys no file, and keeps the journal readable, the claim name unused until it is used, and the evidence first |
| ManagerProcess.Operation.OutsideWrites | src/manage.js:597-612 | an outside writer replaces the harness and leaves the operation valid |
| ManagerProcess.Operation.Inspect | src/manage.js:797-918 | computes the diagnosis of the files and changes nothing |
| ManagerProcess.Operation.FindExtraClaims | src/manage.js:878-883 | the loop: true exactly when some claim is neither the recorded one nor a hard link of the backup |
| Migration.NothingIsLost | src/session-state-migration.js:101-122 | for every legacy store that is accepted and its canonical translation: each record is found under any spelling of its channel, with its own status, conversation, directory and model, under the scope an adapter asks with |
| Migration.NothingIsAdded | src/session-state-migration.js:108-111 | a record found in the canonical store comes from exactly one spelling in the legacy store, so no two channels are merged |
| Migration.PublishedIsAccepted | src/session-state-store.js:168-203 | a published store is taken as it is under its own owner and relay and refused under any other |
| Migration.PartialStageIsRefused | src/session-state-migration.js:220-224 | a stage that holds records but no marker yet is refused as a store |
| Migration.Lower | src/session-state-store.js:23-25 | the lower-case form of an id has its length |
| Migration.LowerIsCanonical | src/session-state-store.js:23-25 | lower-casing is idempotent and keeps a channel id a channel id |
| MigrationProcess.ScanLegacyStore | src/session-state-migration.js:61-141 | the loop over the names accepts exactly the stores that can be migrated (every entry fits its name and binding, no two spellings of one channel, locks and records correspond) and collects their records and locks |
| MigrationProcess.ScanNames | src/session-state-migration.js:71-140 | the loop itself, against the recursive specification of what it collects |
| MigrationProcess.PassesIffAccepted | src/session-state-migration.js:126-139 | the checks of the loop amount to the declarative conditions, in both directions |
| MigrationProcess.SameScanSameStore | src/session-state-migration.js:143-151 | two scans agree exactly when they saw the same store, in whatever order it was listed |
| MigrationProcess.HoldsTranslates | src/session-state-migration.js:112-122 | a stage that holds exactly the collected records is the canonical translation of the store |
| MigrationProcess.Migrator.constructor | src/session-state-migration.js:228-238 | a migration starts without stage and locks |
| MigrationProcess.Migrator.AcquireSourceLocks | src/session-state-migration.js:153-184 | all source locks or none |
| MigrationProcess.Migrator.BuildStage | src/session-state-migration.js:210-226 | at every cut the stage is unmarked until all records are in it; it is complete only when what is read back is exactly the records and the marker |
| MigrationProcess.Migrator.VerifyStage | src/session-state-migration.js:186-208 | true exactly when the stage holds the records, the marker and nothing else |
| MigrationProcess.Migrator.LookAgain | src/session-state-migration.js:263-267 | another scan is given back exactly when it sees the same store |
| MigrationProcess.Migrator.MigrateLocked | src/session-state-migration.js:262-310 | the part under the locks: validated, published, stopped or failed, each with what it says of store, destination and stage; undisturbed, an apply that is not cut off publishes |
| MigrationProcess.Migrator.Migrate | src/session-state-migration.js:228-329 | publishes only the complete, marked canonical translation of a store seen the same three times, and only at an absent destination; otherwise the destination is untouched; a stop leaves a stage that is unmarked or complete; locks are released unless stopped; a dry run writes nothing; undisturbed, a dry run validates and an apply publishes exactly unless it is cut off |
| MigrationProcess.Migrator.ReleaseLocks | src/session-state-migration.js:315-329 | no lock stays held |

## Left out

- Wall-clock time, signals, process spawning, stdio and streams: "asked to stop", "closed" and "timed out" are events that may come at any point.
- File permissions, symbolic links, ancestor and inode checks, Windows access rules and native lock files: paths are safe and a lock is exclusive ownership.
- JSON text, hashing, UUIDs, regular expressions and relay normalisation: records are datatypes, digests and tokens are injective, ids are new.
- DurableTurnsSafety.EveryRunIsSafe: one channel, durable state on, steering off; a failing steering inspection appears as the failure every preflight await may end in. A storage call may take effect and be reported as failed, except that a reconciliation that took effect and is reported as failed, and a failed reread after one, are excluded exactly where `DurableTurnsFault.FaultIsHarmlessIff` shows that they are not tolerated.
- AcpServerProcess.Server.RecordResumes: the two failures named above are excluded by its precondition where they do harm.
- AcpServerProcess.Server.NewSession: parameter checks, model and system prompt of `session/new` are not part of the entry.
- AcpServerProcess.Server.PromptArrives: parsing of the prompt and of the Buzz context, and a prompt that names another channel, are not modelled.
- SessionState.SessionState.Open: the store is already initialised; scopes are compared as values.
- Activity messages, delivery diagnostics, RPC error wording and the volatile `mem_*` recoveries of src/acp-server.js:912-932: nothing durable depends on them.
- SteeringSafety.EverySteerAtMostOnce: archiving is atomic with respect to the other operations, although the source renames the directory without the bridge lock; files are missing or mismatching, not torn.
- `snapshot` of the coordinator and the claim poller of src/agy-session.js:778-830: the poller appears as a watcher that may give up on any live turn with a queued steer.
- AgySessionSafety.EverySessionIsFair: the coordinator is fixed at construction, a write that throws counts as not made, whether rotation is due is nondeterministic, and what waits for a child's close continues in one segment in a fixed order.
- AgySessionProcess.ProviderSession.ReplayDeferred: deferred events are replayed as events; the source pushes them through the line decoder it shares with the stream, so no partial line may be held at that moment. With no child left the turn fails here, where the source throws in the continuation.
- Changing the model of a session (src/acp-server.js:375-394): it changes the scope, and a scope mismatch appears as a failing load.
- Tool activity, durations and the model catalogue of the provider session.
- OutboxDelivery.AtMostOneEffect: one record; records do not interact. Legacy and unbound stores, whose records are only read, are not modelled.
- SteeringSafety.ConfirmedOnlyAfterClaim: an entry counts as told once the last of its three claim writes is made; a process that dies between that write and handing out the text is not told apart.
- OutboxArchive.Archiver.ArchiveSent: preparing and inspecting the archive directory is not modelled, and someone else changes a record only between its scan and its removal.
- ManagerRuns.EveryJournalIsValid: the static path and field checks of the validator (src/manage.js:234-264) hold of every journal the manager builds from a resolved plan and are not part of the model.
- ManagerProcess.Operation.Inspect: unreadable or more than 64 claims, oversized files and a journal of another harness, all of which are reported as indeterminate, are not modelled.
- ManagerDiagnosis.CrashesAreDiagnosed: starts from a directory without earlier claims, or with the claim that is hard-linked to the backup, because old claims are never removed.
- ManagerProcess.Operation.constructor: the claim name is new, as a random UUID is, and the clock does not go back.
- TarReader.ParseTar: decompression is a parameter, and the replacement of invalid UTF-8 in names is not modelled; names are bytes.
- Package validation of src/manage.js:393-449, planning of an install, and extraction of the version directory beyond the fact that it appears by one rename.
- MigrationProcess.Migrator.Migrate: the separation and privacy checks on paths are not modelled, and a legacy channel created after the last look, whose lock is not held, is not noticed by the source either.
- The bounded read loop and the change checks of src/session-state-store.js:88-123: a read gives the file or fails.
- Setup, status, doctor, prompt and context parsing, executables and command line handling: lookups and reporting.
