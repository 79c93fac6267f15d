/**
 The provider session as the object it is: fields that the calls, the child's events and
 the continuations update in place. Every public method is one move of the runs in
 `AgySessionSafety` and keeps `Valid()`, so the monitor's rules hold of this object after
 any sequence of calls. The other methods are the parts these are made of, proved against
 the segment functions of the model. The monitor is ghost.
 */
module AgySessionProcess {

  import opened Options
  import opened AgySession
  import opened AgySessionMonitor
  import opened AgySessionInvariant
  import opened AgySessionSafety

  class ProviderSession {
    const config: Config
    var provider: Provider
    var conversation: Conversation
    var binding: Binding
    var waits: Waits
    var pending: Turn
    var active: bool
    var contextLost: bool
    var closed: bool
    ghost var seen: Monitor

    ghost function Snapshot(): Session
      reads this
    {
      Session(config, provider, conversation, binding, waits, pending, active, contextLost, closed, seen)
    }

    /** The session and its monitor agree, the monitor has seen no rule broken, and every live steer is filed. */
    ghost predicate Valid()
      reads this
    {
      Inv(Snapshot(), [])
    }

    constructor (c: Config, unbound: bool)
      ensures Snapshot() == Fresh(c, unbound) && Valid()
    {
      config := c;
      provider := Provider(None, 0, true, false, false, false, false);
      conversation := Conversation(None, false, false, false, false, true, 0);
      binding := Binding(c.enabled && unbound, false, false, 0, false);
      waits := Waits(NotFailing, None, None, None);
      pending := NewTurn(0);
      active, contextLost, closed := false, false, false;
      seen := QUIET;
      FreshIsFine(c, unbound);
    }

    ghost method Tell(e: Effect)
      modifies this`seen
      ensures Snapshot() == Emit(old(Snapshot()), e)
    {
      seen := Note(seen, e, config.maxResponse);
    }

    // ---- Ending a turn ----

    method FinishPendingFailed()
      modifies this
      ensures Snapshot() == FinishFailed(old(Snapshot()))
    {
      if active {
        active := false;
        Tell(Fails(pending.number));
      }
    }

    method ForgetChild()
      modifies this
      ensures Snapshot() == DropChild(old(Snapshot()))
    {
      provider := provider.(child := None, steering := false, awaitingInit := false);
    }

    method LoseContext()
      modifies this
      ensures Snapshot() == Lost(old(Snapshot()))
    {
      contextLost := true;
      conversation := conversation.(eligible := false);
    }

    method FailResume()
      modifies this
      ensures Snapshot() == AgySession.FailResume(old(Snapshot()))
    {
      ForgetChild();
      LoseContext();
      FinishPendingFailed();
    }

    method FailProviderEvent()
      modifies this
      ensures Snapshot() == FailProvider(old(Snapshot()))
    {
      if active && Unsettled(pending.queue) { FailSteeringPending(); } else { FailResume(); }
    }

    method FailSteeringPending()
      modifies this
      ensures Snapshot() == FailSteering(old(Snapshot()))
    {
      if pending.number == 0 || pending.flags.failed { return; }
      pending := pending.(flags := pending.flags.(failed := true));
      Tell(Dooms(pending.number));
      if config.steering { waits := waits.(failing := Blocking); } else { StopAfterFailure(); }
    }

    method StopAfterFailure()
      modifies this
      ensures Snapshot() == FailStop(old(Snapshot()))
    {
      LoseContext();
      binding := binding.(failed := true, blocked := true);
      if provider.child.Some? {
        provider := provider.(stopRequested := true);
        waits := waits.(failing := Retiring(provider.child.value));
      } else {
        FinishFailure();
      }
    }

    method RejectSteeringWaiters()
      modifies this
      ensures Snapshot() == RejectWaiters(old(Snapshot()))
    {
      pending := pending.(queue := pending.queue.(waiters := map[], ids := {}));
      Tell(Rejects(pending.number));
    }

    method FinishFailure()
      modifies this
      ensures Snapshot() == FailDone(old(Snapshot()))
    {
      waits := waits.(failing := NotFailing);
      RejectSteeringWaiters();
      FinishPendingFailed();
    }

    method FailClosedAfterChildStop(c: Child)
      modifies this
      ensures Snapshot() == FailClosed(old(Snapshot()), c)
    {
      LoseContext();
      provider := provider.(child := if provider.child == Some(c) then None
          else provider.child, steering := false, awaitingInit := false);
    }

    // ---- Prompting ----

    /** A closed, busy or contextless session refuses. */
    method Prompt(due: bool, spawns: bool, writes: bool) returns (accepted: bool)
      requires Valid()
      modifies this
      ensures accepted == CanPrompt(old(Snapshot())) && Valid()
      ensures Snapshot() == if accepted then Apply(old(Snapshot()), Prompts(due, spawns, writes)) else old(Snapshot())
    {
      if closed || active || contextLost { return false; }
      MoveKeeps(Snapshot(), Prompts(due, spawns, writes));
      TakePrompt(due, spawns, writes);
      return true;
    }

    method TakePrompt(due: bool, spawns: bool, writes: bool)
      requires CanPrompt(Snapshot())
      modifies this
      ensures Snapshot() == AgySession.Prompt(old(Snapshot()), due, spawns, writes)
    {
      pending, active := NewTurn(pending.number + 1), true;
      Tell(Begins(pending.number));
      if provider.child.Some? && due && conversation.succeeded { RotateChild(); } else { StartPending(spawns, writes); }
    }

    method RotateChild()
      modifies this
      ensures Snapshot() == StartRotation(old(Snapshot()))
    {
      provider := provider.(stopRequested := true);
      pending := pending.(flags := pending.flags.(rotating := true));
      waits := waits.(rotation := provider.child);
    }

    method StartPending(spawns: bool, writes: bool)
      modifies this
      ensures Snapshot() == Launch(old(Snapshot()), spawns, writes)
    {
      if contextLost || (provider.child.None? && !spawns) { FailStart(); return; }
      var resuming := conversation.eligible && provider.child.None?;
      conversation := conversation.(idConfirmed := false, coherent := true);
      pending := pending.(flags := pending.flags.(resuming := resuming));
      EnsureStarted(resuming);
      if !resuming { SendPendingPrompt(writes); }
    }

    method FailStart()
      modifies this
      ensures Snapshot() == StartFailed(old(Snapshot()))
    {
      pending := pending.(flags := pending.flags.(rotating := false));
      contextLost := true;
      FinishPendingFailed();
    }

    method EnsureStarted(resume: bool)
      modifies this
      ensures Snapshot() == AgySession.EnsureStarted(old(Snapshot()), resume)
    {
      if provider.child.Some? { return; }
      var c := provider.spawned;
      provider := Provider(Some(c), c + 1, false, resume, config.enabled, false, resume);
      if resume { conversation := conversation.(eligible := false); }
      Tell(Spawns(c, if resume then conversation.id else None));
    }

    method SendPendingPrompt(writes: bool)
      modifies this
      ensures Snapshot() == SendPrompt(old(Snapshot()), writes)
    {
      if !active || pending.flags.started || provider.child.None? || provider.awaitingInit { return; }
      if writes {
        pending := pending.(flags := pending.flags.(initialExpected := true, initialSeen := false, started := true));
        Tell(Writes(pending.number, provider.child.value));
      } else {
        FailResume();
      }
    }

    method ResumeTimedOut()
      requires Valid()
      modifies this
      ensures Snapshot() == Apply(old(Snapshot()), Calmly(ResumeTimer)) && Valid()
    {
      MoveKeeps(Snapshot(), Calmly(ResumeTimer));
      if provider.awaitingInit { FailResume(); }
    }

    method RotationSettled(c: Child, spawns: bool, writes: bool)
      modifies this
      ensures Snapshot() == RotationDone(old(Snapshot()), c, spawns, writes)
    {
      if provider.child == Some(c) {
        FailClosedAfterChildStop(c);
        FailStart();
      } else if conversation.id.None? || !conversation.idConfirmed {
        LoseContext();
        FailStart();
      } else {
        var goesOn := !closed && active;
        pending := pending.(flags := pending.flags.(rotating := false));
        conversation := conversation.(eligible := goesOn);
        if goesOn { StartPending(spawns, writes); }
      }
    }

    method RotationTimedOut()
      requires Valid()
      modifies this
      ensures Snapshot() == Apply(old(Snapshot()), Calmly(RotationTimer)) && Valid()
    {
      MoveKeeps(Snapshot(), Calmly(RotationTimer));
      GiveUpRotation();
    }

    /** The old child did not close in time. */
    method GiveUpRotation()
      modifies this
      ensures Snapshot() == AgySession.RotationTimedOut(old(Snapshot()))
    {
      if waits.rotation.None? { return; }
      var c := waits.rotation.value;
      waits := waits.(rotation := None);
      FailClosedAfterChildStop(c);
      FailStart();
    }

    // ---- Cancelling, closing, retiring ----

    method Cancel()
      requires Valid()
      modifies this
      ensures Snapshot() == Apply(old(Snapshot()), Calmly(Cancels)) && Valid()
    {
      MoveKeeps(Snapshot(), Calmly(Cancels));
      if !active { return; }
      RejectSteeringWaiters();
      ForgetChild();
      LoseContext();
      FinishPendingFailed();
    }

    method Close()
      requires Valid()
      modifies this
      ensures Snapshot() == Apply(old(Snapshot()), Calmly(Shuts)) && Valid()
    {
      MoveKeeps(Snapshot(), Calmly(Shuts));
      CloseNow();
    }

    method CloseNow()
      modifies this
      ensures Snapshot() == AgySession.Close(old(Snapshot()))
    {
      closed := true;
      ForgetChild();
      conversation := conversation.(eligible := false);
      if active {
        RejectSteeringWaiters();
        FinishPendingFailed();
      }
    }

    method RetireForCheckpoint()
      requires Valid()
      modifies this
      ensures Snapshot() == Apply(old(Snapshot()), Calmly(RetiresForCheckpoint)) && Valid()
    {
      MoveKeeps(Snapshot(), Calmly(RetiresForCheckpoint));
      if closed || contextLost { return; }
      if active || !Confirmed(conversation) {
        FailResume();
      } else if provider.child.None? {
        Checkpointed();
      } else {
        provider := provider.(stopRequested := true);
        waits := waits.(checkpoint := provider.child);
      }
    }

    method Checkpointed()
      requires Confirmed(conversation)
      modifies this
      ensures Snapshot() == Retired(old(Snapshot()))
    {
      conversation := conversation.(eligible := true);
      Tell(Retires(conversation.id.value));
    }

    method CheckpointSettled(c: Child)
      modifies this
      ensures Snapshot() == CheckpointDone(old(Snapshot()), c)
    {
      if provider.child == Some(c) {
        FailClosedAfterChildStop(c);
      } else if Confirmed(conversation) {
        Checkpointed();
      } else {
        LoseContext();
      }
    }

    method CheckpointTimedOut()
      requires Valid()
      modifies this
      ensures Snapshot() == Apply(old(Snapshot()), Calmly(CheckpointTimer)) && Valid()
    {
      MoveKeeps(Snapshot(), Calmly(CheckpointTimer));
      if waits.checkpoint.None? { return; }
      var c := waits.checkpoint.value;
      waits := waits.(checkpoint := None);
      FailClosedAfterChildStop(c);
    }

    method RetireForRecovery()
      requires Valid()
      modifies this
      ensures Snapshot() == Apply(old(Snapshot()), Calmly(RetiresForRecovery)) && Valid()
    {
      MoveKeeps(Snapshot(), Calmly(RetiresForRecovery));
      if active || binding.inFlight || pending.queue.operations != {} || pending.queue.observing
          || provider.spawned == 0 { return; }
      if provider.lastGone { RecoverySettled(); return; }
      if provider.child.Some? { provider := provider.(stopRequested := true); }
      waits := waits.(recovery := Some(provider.spawned - 1));
    }

    method RecoverySettled()
      modifies this
      ensures Snapshot() == RecoveryDone(old(Snapshot()))
    {
      CloseNow();
      Tell(Recovers);
    }

    method RecoveryTimedOut()
      requires Valid()
      modifies this
      ensures Snapshot() == Apply(old(Snapshot()), Calmly(RecoveryTimer)) && Valid()
    {
      MoveKeeps(Snapshot(), Calmly(RecoveryTimer));
      waits := waits.(recovery := None);
    }

    method SetTrustedConversation(id: Conv)
      requires Valid()
      modifies this
      ensures Snapshot() == Apply(old(Snapshot()), Calmly(IsTrusted(id))) && Valid()
    {
      MoveKeeps(Snapshot(), Calmly(IsTrusted(id)));
      if closed || active || provider.child.Some? || (conversation.id.Some? && conversation.id != Some(id)) { return; }
      conversation := conversation.(id := Some(id), established := true, succeeded := true, idConfirmed := true,
          eligible := true);
      Tell(Trusts(id));
    }

    // ---- The child's own events ----

    method OnChildError(input: bool)
      requires Valid()
      modifies this
      ensures Snapshot() == Apply(old(Snapshot()), Calmly(ChildBreaks(input))) && Valid()
    {
      MoveKeeps(Snapshot(), Calmly(ChildBreaks(input)));
      if provider.child.None? || (active && pending.flags.failed) || provider.stopRequested { return; }
      if active && Unsettled(pending.queue) { FailSteeringPending(); return; }
      if input { AskChildToStop(); }
      FailResume();
    }

    method AskChildToStop()
      modifies this
      ensures Snapshot() == AskToStop(old(Snapshot()))
    {
      provider := provider.(stopRequested := true);
    }

    method OnChildClose(c: Child, spawns: bool, writes: bool)
      requires Valid() && Enabled(Snapshot(), Calmly(ChildCloses(c, spawns, writes)))
      modifies this
      ensures Snapshot() == Apply(old(Snapshot()), Calmly(ChildCloses(c, spawns, writes))) && Valid()
    {
      MoveKeeps(Snapshot(), Calmly(ChildCloses(c, spawns, writes)));
      ChildLeft(c, spawns, writes);
    }

    /** The close event, then the continuations that waited for it. */
    method ChildLeft(c: Child, spawns: bool, writes: bool)
      modifies this
      ensures Snapshot() == ChildClosed(old(Snapshot()), c, spawns, writes)
    {
      var waited := waits;
      provider := provider.(lastGone := provider.lastGone || c + 1 == provider.spawned);
      waits := Answered(waits, c);
      Tell(Closes(c));
      assert Snapshot() == Gone(old(Snapshot()), c);
      LeaveClosed(c);
      ContinueAfter(waited, c, spawns, writes);
    }

    method ContinueAfter(waited: Waits, c: Child, spawns: bool, writes: bool)
      modifies this
      ensures Snapshot() == Continue(old(Snapshot()), waited, c, spawns, writes)
    {
      if waited.failing == Retiring(c) { FinishFailure(); }
      if waited.checkpoint == Some(c) { CheckpointSettled(c); }
      if waited.recovery == Some(c) { RecoverySettled(); }
      if waited.rotation == Some(c) { RotationSettled(c, spawns, writes); }
    }

    method LeaveClosed(c: Child)
      modifies this
      ensures Snapshot() == OnClose(old(Snapshot()), c)
    {
      if provider.child != Some(c) { return; }
      ForgetChild();
      if active && pending.flags.failed { return; }
      if active && !pending.flags.rotating {
        if Unsettled(pending.queue) {
          FailSteeringPending();
        } else {
          LoseContext();
          FinishPendingFailed();
        }
      } else if Confirmed(conversation) {
        conversation := conversation.(eligible := true);
      } else if conversation.established {
        contextLost := true;
      }
    }

    // ---- Reading events ----

    method Consume(line: Line, writes: bool)
      requires Valid()
      modifies this
      ensures Snapshot() == Apply(old(Snapshot()), Reads(line, writes)) && Valid()
    {
      MoveKeeps(Snapshot(), Reads(line, writes));
      if provider.child.None? { return; }
      if active { Tell(Arrives(pending.number, line)); }
      ProcessProviderLine(line, writes);
    }

    method ProcessProviderLine(line: Line, writes: bool)
      modifies this
      ensures Snapshot() == Process(old(Snapshot()), line, writes)
    {
      var e := line.event;
      if e.Malformed? || (provider.resumed && provider.awaitingInit && !e.Init?) { FailProviderEvent(); return; }
      if active && !e.Init? && binding.pending {
        if Unsettled(pending.queue) && (e.Result? || e.ErrorEvent?) {
          FailSteeringPending();
        } else {
          PushDeferredEvent(line);
        }
        return;
      }
      var step := StepOf(e);
      if step.Some? && step.value <= MAX_STEP && step.value > conversation.watermark {
        conversation := conversation.(watermark := step.value);
      }
      DispatchLine(line, writes);
    }

    method DispatchLine(line: Line, writes: bool)
      modifies this
      ensures Snapshot() == Dispatch(old(Snapshot()), line, writes)
    {
      if active && !line.event.UserInput? && (pending.backlog.input.Some? || pending.queue.observing) {
        PushDeferredEvent(line);
      } else if line.event.UserInput? {
        TakeUserInput(line);
      } else {
        if active { Tell(Handles(pending.number, line)); }
        HandleEvent(line.event, writes);
      }
    }

    method PushDeferredEvent(line: Line)
      modifies this
      ensures Snapshot() == Defer(old(Snapshot()), line)
    {
      if |pending.backlog.lines| >= config.maxDeferredEvents { FailProviderEvent(); return; }
      var fits := ChargeBacklog(line);
      if !fits { FailProviderEvent(); return; }
      pending := pending.(backlog := pending.backlog.(lines := pending.backlog.lines + [line]));
    }

    method ChargeBacklog(line: Line) returns (fits: bool)
      modifies this
      ensures Snapshot() == Charge(old(Snapshot()), line) && (fits <==> pending.backlog.used <= config.maxDeferredBytes)
    {
      pending := pending.(backlog := pending.backlog.(used := Budget(pending.backlog.used, line.size,
          config.maxDeferredBytes)));
      fits := pending.backlog.used <= config.maxDeferredBytes;
    }

    method TakeUserInput(line: Line)
      requires line.event.UserInput?
      modifies this
      ensures Snapshot() == ReadUserInput(old(Snapshot()), line)
    {
      if !active { return; }
      var e := line.event;
      if conversation.id.None? || e.conv != conversation.id || e.step.None? || e.step.value > MAX_STEP {
        FailSteeringPending();
      } else if pending.flags.initialExpected && !pending.flags.initialSeen {
        pending := pending.(flags := pending.flags.(initialSeen := true));
        Tell(Handles(pending.number, line));
      } else {
        HandleUserInput(line, false);
      }
    }

    method HandleUserInput(line: Line, again: bool)
      modifies this
      ensures Snapshot() == AgySession.HandleUserInput(old(Snapshot()), line, again)
    {
      if !active { return; }
      if pending.backlog.input.Some? { FailSteeringPending(); return; }
      if pending.queue.operations != {} { HoldUserInput(line, again); return; }
      if pending.queue.observing || pending.queue.ids == {} || !config.enabled { FailSteeringPending(); return; }
      pending := pending.(queue := pending.queue.(observing := true));
      Tell(Handles(pending.number, line));
    }

    method HoldUserInput(line: Line, again: bool)
      requires active && pending.backlog.input.None? && pending.queue.operations != {}
      modifies this
      ensures Snapshot() == AgySession.HandleUserInput(old(Snapshot()), line, again)
    {
      var fits := ChargeBacklog(line);
      if !fits { FailProviderEvent(); return; }
      if !again && OrderedAll(pending.backlog.lines) != [] { Tell(Overtakes(pending.number)); }
      pending := pending.(backlog := pending.backlog.(input := Some(line)));
    }

    method InputResumes()
      requires Valid()
      modifies this
      ensures Snapshot() == Apply(old(Snapshot()), InputReturns) && Valid()
    {
      MoveKeeps(Snapshot(), InputReturns);
      var held := pending.backlog.input;
      if held.None? { return; }
      pending := pending.(backlog := pending.backlog.(input := None));
      if active && !pending.flags.failed { HandleUserInput(held.value, true); }
    }

    /** A tracked event that names another conversation. */
    predicate Foreign(conv: Option<Conv>)
      reads this
    {
      conversation.id.Some? && conv.Some? && conv != conversation.id
    }

    method HandleEvent(e: Event, writes: bool)
      modifies this
      ensures Snapshot() == Handle(old(Snapshot()), e, writes)
    {
      match e
      case Init(id) => OnInit(id, writes);
      case Delta(conv, _, text) =>
        if Foreign(conv) { FailProviderEvent(); return; }
        TrackIds(conv);
        if active { AppendResponseText(text); }
      case OtherStep(conv, _) =>
        if Foreign(conv) { FailProviderEvent(); return; }
        TrackIds(conv);
      case Response(text) =>
        if active { AppendResponseText(text); }
      case Result(conv, _, _) =>
        if Foreign(conv) { FailProviderEvent(); return; }
        TrackIds(conv);
        if active { OnResult(e); }
      case _ =>
    }

    method TrackIds(conv: Option<Conv>)
      modifies this
      ensures Snapshot() == Track(old(Snapshot()), conv)
    {
      if conversation.id.Some? && conv.None? { conversation := conversation.(idConfirmed := false, coherent := false); }
    }

    method OnInit(id: Option<Conv>, writes: bool)
      modifies this
      ensures Snapshot() == HandleInit(old(Snapshot()), id, writes)
    {
      if id.None? || (conversation.id.Some? && conversation.id != id) { FailProviderEvent(); return; }
      if active && pending.flags.initSeen {
        conversation := conversation.(id := id);
        FailProviderEvent();
        return;
      }
      NameConversation(id.value);
      BeginSteeringBinding();
      ResumeAfterInit(writes);
    }

    method ResumeAfterInit(writes: bool)
      modifies this
      ensures Snapshot() == AfterInit(old(Snapshot()), writes)
    {
      if provider.resumed && provider.child.Some? {
        provider := provider.(awaitingInit := false);
        SendPendingPrompt(writes);
      }
    }

    method NameConversation(id: Conv)
      modifies this
      ensures Snapshot() == Named(old(Snapshot()), id)
    {
      conversation := conversation.(id := Some(id));
      if active { pending := pending.(flags := pending.flags.(initSeen := true)); }
      if provider.child.Some? { Tell(Inits(provider.child.value, id)); }
    }

    method BeginSteeringBinding()
      modifies this
      ensures Snapshot() == BeginBinding(old(Snapshot()))
    {
      if !binding.pending { return; }
      if binding.inFlight { FailProviderEvent(); return; }
      binding := binding.(inFlight := true, turn := if active then pending.number else 0);
    }

    method AppendResponseText(text: Text)
      modifies this
      ensures Snapshot() == Append(old(Snapshot()), text)
    {
      if pending.reply.used + ByteLength(text) > config.maxResponse {
        SpendBudget();
        FailProviderEvent();
      } else {
        JoinSegment(text);
      }
    }

    method SpendBudget()
      modifies this
      ensures Snapshot() == Spent(old(Snapshot()))
    {
      pending := pending.(reply := pending.reply.(used := config.maxResponse + 1));
    }

    method JoinSegment(text: Text)
      modifies this
      ensures Snapshot() == Say(old(Snapshot()), text)
    {
      pending := pending.(reply := Appended(pending.reply, text));
      Tell(Says(pending.number, text));
    }

    method OnResult(e: Event)
      requires e.Result?
      modifies this
      ensures Snapshot() == HandleResult(old(Snapshot()), e)
    {
      if !e.success {
        conversation := conversation.(succeeded := false);
        TakeResult(e);
        return;
      }
      var confirmed := conversation.coherent && conversation.id.Some? && e.conv == conversation.id;
      conversation := conversation.(established := true, succeeded := true, idConfirmed := confirmed);
      if pending.reply.emitted == [] && e.response.Some? && pending.queue.injected == 0 {
        var fits := pending.reply.used + ByteLength(e.response.value) <= config.maxResponse;
        AppendResponseText(e.response.value);
        if !fits { return; }
      }
      TakeResult(e);
    }

    method TakeResult(e: Event)
      modifies this
      ensures Snapshot() == WithResult(old(Snapshot()), e)
    {
      pending := pending.(result := Some(e));
      MaybeFinishResult();
    }

    method MaybeFinishResult()
      modifies this
      ensures Snapshot() == MaybeFinish(old(Snapshot()))
    {
      if !active || pending.flags.failed || pending.result.None? || pending.queue.operations != {}
          || pending.queue.observing { return; }
      if pending.queue.ids != {} || pending.queue.intents > pending.queue.injected { FailSteeringPending(); return; }
      var result := pending.result.value;
      pending := pending.(result := None);
      FinishWith(result);
    }

    method FinishWith(r: Event)
      modifies this
      ensures Snapshot() == FinishResult(old(Snapshot()), r)
    {
      if !r.Result? || !r.success { FinishPendingFailed(); return; }
      var answer := Answer(pending, r.response);
      if pending.queue.injected > 0 && answer == [] {
        FailSteeringPending();
      } else if ByteLength(answer) > config.maxResponse {
        FailProviderEvent();
      } else if active {
        active := false;
        Tell(Resolves(pending.number, answer, r.response));
      }
    }

    // ---- Steering ----

    /** Without a written prompt, a usable bridge and a named conversation a steer is refused. */
    method Steer() returns (accepted: bool)
      requires Valid()
      modifies this
      ensures accepted == CanSteer(old(Snapshot())) && Valid()
      ensures Snapshot() == if accepted then Apply(old(Snapshot()), Steered) else old(Snapshot())
    {
      if !active || !pending.flags.started || binding.blocked || contextLost || !config.enabled || !provider.steering
          || !(conversation.id.Some? || binding.pending) { return false; }
      MoveKeeps(Snapshot(), Steered);
      TakeSteer();
      return true;
    }

    method TakeSteer()
      requires CanSteer(Snapshot())
      modifies this
      ensures Snapshot() == AgySession.Steer(old(Snapshot()))
    {
      var q := pending.queue;
      pending := pending.(queue := q.(intents := q.intents + 1, operations := q.operations + {q.intents},
                                      waiters := q.waiters[ByOperation(q.intents) := q.intents]));
      Tell(Accepts(pending.number, q.intents));
    }

    method EnqueueSettled(k: nat, id: Option<SteerId>)
      requires Valid() && Enabled(Snapshot(), EnqueueSettles(k, id))
      modifies this
      ensures Snapshot() == Apply(old(Snapshot()), EnqueueSettles(k, id)) && Valid()
    {
      MoveKeeps(Snapshot(), EnqueueSettles(k, id));
      FileSteer(k, id);
    }

    /** The promise moves from its operation to the id. */
    method FileSteer(k: nat, id: Option<SteerId>)
      modifies this
      ensures Snapshot() == Enqueued(old(Snapshot()), k, id)
    {
      pending := pending.(queue := pending.queue.(operations := pending.queue.operations - {k}));
      if id.None? || binding.failed || conversation.id.None? { FailSteeringPending(); return; }
      if !active || pending.flags.failed { return; }
      var q := pending.queue;
      pending := pending.(queue := q.(waiters := (q.waiters - {ByOperation(k)})[ById(id.value) := k],
          ids := q.ids + {id.value}));
      MaybeFinishResult();
    }

    method WatcherFailed()
      requires Valid()
      modifies this
      ensures Snapshot() == Apply(old(Snapshot()), WatcherGivesUp) && Valid()
    {
      MoveKeeps(Snapshot(), WatcherGivesUp);
      if active && !pending.flags.failed && pending.queue.ids != {} { FailSteeringPending(); }
    }

    method ObservationSettled(id: Option<SteerId>, writes: bool)
      requires Valid() && Enabled(Snapshot(), ObservationSettles(id, writes))
      modifies this
      ensures Snapshot() == Apply(old(Snapshot()), ObservationSettles(id, writes)) && Valid()
    {
      MoveKeeps(Snapshot(), ObservationSettles(id, writes));
      TakeObservation(id, writes);
    }

    /** The observation is over, and what waited for it is read again. */
    method TakeObservation(id: Option<SteerId>, writes: bool)
      modifies this
      ensures Snapshot() == Observed(old(Snapshot()), id, writes)
    {
      pending := pending.(queue := pending.queue.(observing := false));
      if id.None? { FailSteeringPending(); return; }
      if !active || pending.flags.failed { return; }
      if ById(id.value) !in pending.queue.waiters { FailSteeringPending(); return; }
      ConfirmInjection(id.value);
      ReplayDeferred(writes);
    }

    method ConfirmInjection(id: SteerId)
      requires ById(id) in pending.queue.waiters
      modifies this
      ensures Snapshot() == Inject(old(Snapshot()), id)
    {
      var q := pending.queue;
      pending := pending.(queue := q.(waiters := q.waiters - {ById(id)}, ids := q.ids - {id},
                                      injected := q.injected + 1),
                          reply := pending.reply.(segments := pending.reply.segments + [[]]));
      Tell(Injects(pending.number, q.waiters[ById(id)]));
    }

    /** The loop over the deferred events; an event may put itself and its successors off again. */
    method ReplayDeferred(writes: bool)
      modifies this
      ensures Snapshot() == ReplayAll(old(Snapshot()), writes)
    {
      if provider.child.None? { FailProviderEvent(); return; }
      var lines := pending.backlog.lines;
      pending := pending.(backlog := pending.backlog.(lines := []));
      ghost var start := Snapshot();
      var i := 0;
      while i < |lines| && active && !pending.flags.failed
        invariant i <= |lines|
        invariant Replay(start, lines, writes) == Replay(Snapshot(), lines[i..], writes)
        decreases |lines| - i
      {
        assert lines[i..][0] == lines[i] && lines[i..][1..] == lines[i + 1..];
        ProcessProviderLine(lines[i], writes);
        i := i + 1;
      }
      MaybeFinishResult();
    }

    method BindingSettled(ok: bool, writes: bool)
      requires Valid()
      modifies this
      ensures Snapshot() == Apply(old(Snapshot()), BindingSettles(ok, writes)) && Valid()
    {
      MoveKeeps(Snapshot(), BindingSettles(ok, writes));
      if !binding.inFlight { return; }
      if !ok {
        binding := binding.(inFlight := false, failed := true);
        FailProviderEvent();
        return;
      }
      var mine := active && binding.turn == pending.number;
      binding := binding.(inFlight := false, pending := false);
      if mine { ReplayDeferred(writes); }
    }

    method BlockSettled()
      requires Valid()
      modifies this
      ensures Snapshot() == Apply(old(Snapshot()), Calmly(BlockSettles)) && Valid()
    {
      MoveKeeps(Snapshot(), Calmly(BlockSettles));
      if waits.failing.Blocking? { StopAfterFailure(); }
    }

    method FailureTimedOut()
      requires Valid()
      modifies this
      ensures Snapshot() == Apply(old(Snapshot()), Calmly(FailureTimer)) && Valid()
    {
      MoveKeeps(Snapshot(), Calmly(FailureTimer));
      if waits.failing.Retiring? {
        FailClosedAfterChildStop(waits.failing.child);
        FinishFailure();
      }
    }
  }
}
