/**
 Starting, rotating, retiring and closing keep the invariant of a provider session.
 */
module AgySessionLifecycle {

  import opened Options
  import opened AgySession
  import opened AgySessionMonitor
  import opened AgySessionInvariant

  // ---- Prompting ----

  lemma BeginKeeps(s: Session)
    requires Core(s) && CanPrompt(s)
    ensures Core(Begin(s)) && LiveOk(Begin(s), [])
  {
    var r := NewTurn(s.turn.number + 1).reply;
    assert r.segments[..0] == [];
    assert Flatten(r.segments) == Flatten([]) + [];
    assert ByteLength([]) == 0;
    assert Held(NewTurn(s.turn.number + 1).backlog) == [];
  }

  lemma RotatingKeeps(s: Session, on: bool)
    requires Core(s)
    ensures Core(Rotating(s, on)) && Undisturbed(s, Rotating(s, on))
  {
  }

  lemma StartFailedKeeps(s: Session)
    requires Core(s)
    ensures Core(StartFailed(s)) && !StartFailed(s).active
  {
    RotatingKeeps(s, false);
    MarkLostKeeps(Rotating(s, false));
    FinishKeeps(Rotating(s, false).(contextLost := true));
  }

  lemma MarkLostKeeps(s: Session)
    requires Core(s)
    ensures Core(s.(contextLost := true))
  {
  }

  lemma SpawnKeeps(s: Session, resume: bool)
    requires Core(s) && s.provider.child.None? && s.active && !s.contextLost && !s.closed
        && (resume ==> s.conversation.id.Some?)
    ensures Core(Spawn(s, resume)) && Undisturbed(s, Spawn(s, resume))
  {
  }

  lemma WriteKeeps(s: Session, c: Child)
    requires Core(s) && s.active && s.provider.child == Some(c) && !s.turn.flags.started && !s.provider.awaitingInit
    ensures Core(Write(s, c)) && Undisturbed(s, Write(s, c))
  {
  }

  lemma SendKeeps(s: Session, writes: bool)
    requires Core(s)
    ensures Core(SendPrompt(s, writes)) && Undisturbed(s, SendPrompt(s, writes))
  {
    if s.active && !s.turn.flags.started && s.provider.child.Some? && !s.provider.awaitingInit {
      if writes { WriteKeeps(s, s.provider.child.value); } else { FailResumeKeeps(s); }
    }
  }

  lemma UnconfirmKeeps(s: Session, resuming: bool)
    requires Core(s)
    ensures Core(Unconfirm(s, resuming)) && Undisturbed(s, Unconfirm(s, resuming))
  {
  }

  lemma LaunchingKeeps(s: Session, resuming: bool)
    requires Core(s) && s.active && !s.closed && !s.contextLost
        && (resuming ==> s.conversation.eligible && s.provider.child.None?)
    ensures var s2 := EnsureStarted(Unconfirm(s, resuming), resuming); Core(s2) && Undisturbed(s, s2)
  {
    UnconfirmKeeps(s, resuming);
    if s.provider.child.None? { SpawnKeeps(Unconfirm(s, resuming), resuming); }
  }

  lemma LaunchKeeps(s: Session, spawns: bool, writes: bool)
    requires Core(s) && s.active && !s.closed
    ensures Core(Launch(s, spawns, writes)) && Undisturbed(s, Launch(s, spawns, writes))
  {
    if s.contextLost || (s.provider.child.None? && !spawns) {
      StartFailedKeeps(s);
    } else if s.conversation.eligible && s.provider.child.None? {
      LaunchingKeeps(s, true);
    } else {
      LaunchingKeeps(s, false);
      SendKeeps(EnsureStarted(Unconfirm(s, false), false), writes);
    }
  }

  lemma StartRotationKeeps(s: Session)
    requires Core(s)
    ensures Core(StartRotation(s)) && Undisturbed(s, StartRotation(s))
  {
    AskKeeps(s);
    RotatingKeeps(AskToStop(s), true);
    AwaitRotationKeeps(Rotating(AskToStop(s), true));
  }

  lemma AwaitRotationKeeps(s: Session)
    requires Core(s)
    ensures var s' := s.(waits := s.waits.(rotation := s.provider.child)); Core(s') && Undisturbed(s, s')
  {
  }

  lemma PromptKeeps(s: Session, due: bool, spawns: bool, writes: bool)
    requires Core(s) && CanPrompt(s)
    ensures Inv(Prompt(s, due, spawns, writes), [])
  {
    BeginKeeps(s);
    if s.provider.child.Some? && due && s.conversation.succeeded {
      StartRotationKeeps(Begin(s));
    } else {
      LaunchKeeps(Begin(s), spawns, writes);
    }
    StaysLive(Begin(s), Prompt(s, due, spawns, writes), []);
  }

  // ---- Cancelling and closing ----

  lemma EligibleKeeps(s: Session, on: bool)
    requires Core(s) && (on ==> s.conversation.id.Some?)
    ensures Core(Eligible(s, on)) && Undisturbed(s, Eligible(s, on))
  {
  }

  lemma ShutKeeps(s: Session)
    requires Core(s)
    ensures Core(Shut(s)) && Undisturbed(s, Shut(s))
  {
  }

  lemma CloseKeeps(s: Session)
    requires Core(s)
    ensures Core(Close(s)) && !Close(s).active && Close(s).seen.children == s.seen.children
  {
    ShutKeeps(s);
    if s.active {
      RejectKeeps(Shut(s));
      FinishKeeps(RejectWaiters(Shut(s)));
    }
  }

  lemma CancelKeeps(s: Session)
    requires Core(s)
    ensures Core(Cancel(s)) && !Cancel(s).active
  {
    if s.active {
      RejectKeeps(s);
      LostChildKeeps(RejectWaiters(s));
      FinishKeeps(Lost(DropChild(RejectWaiters(s))));
    }
  }

  // ---- Retiring ----

  lemma RetiredKeeps(s: Session)
    requires Core(s) && s.seen.children.live.None? && Confirmed(s.conversation)
    ensures Core(Retired(s)) && Undisturbed(s, Retired(s)) && Retired(s).seen.children == s.seen.children
  {
    EligibleKeeps(s, true);
  }

  lemma AwaitCheckpointKeeps(s: Session)
    requires Core(s)
    ensures var s' := s.(waits := s.waits.(checkpoint := s.provider.child)); Core(s') && Undisturbed(s, s')
  {
  }

  lemma RetireForCheckpointKeeps(s: Session)
    requires Core(s)
    ensures Core(RetireForCheckpoint(s)) && Undisturbed(s, RetireForCheckpoint(s))
  {
    if s.closed || s.contextLost {
    } else if s.active || !Confirmed(s.conversation) {
      FailResumeKeeps(s);
    } else if s.provider.child.None? {
      RetiredKeeps(s);
    } else {
      AskKeeps(s);
      AwaitCheckpointKeeps(AskToStop(s));
    }
  }

  lemma CheckpointDoneKeeps(s: Session, c: Child)
    requires Core(s) && s.seen.children.live.None?
    ensures Core(CheckpointDone(s, c)) && Undisturbed(s, CheckpointDone(s, c))
        && CheckpointDone(s, c).seen.children == s.seen.children
  {
    if s.provider.child == Some(c) {
    } else if Confirmed(s.conversation) {
      RetiredKeeps(s);
    } else {
      LostKeeps(s);
    }
  }

  lemma ForgetCheckpointKeeps(s: Session)
    requires Core(s)
    ensures var s' := s.(waits := s.waits.(checkpoint := None)); Core(s') && Undisturbed(s, s')
  {
  }

  lemma CheckpointTimedOutKeeps(s: Session)
    requires Core(s)
    ensures Core(CheckpointTimedOut(s)) && Undisturbed(s, CheckpointTimedOut(s))
  {
    if s.waits.checkpoint.Some? {
      ForgetCheckpointKeeps(s);
      FailClosedKeeps(s.(waits := s.waits.(checkpoint := None)), s.waits.checkpoint.value);
    }
  }

  lemma RecoversKeeps(s: Session)
    requires Core(s) && s.seen.children.live.None? && !s.active
    ensures Core(Emit(s, Recovers))
  {
  }

  lemma RecoveryDoneKeeps(s: Session)
    requires Core(s) && s.seen.children.live.None?
    ensures Core(RecoveryDone(s)) && !RecoveryDone(s).active && RecoveryDone(s).seen.children == s.seen.children
  {
    CloseKeeps(s);
    RecoversKeeps(Close(s));
  }

  lemma AwaitRecoveryKeeps(s: Session, c: Child)
    requires Core(s) && !s.provider.lastGone && c + 1 == s.provider.spawned
    ensures var s' := s.(waits := s.waits.(recovery := Some(c))); Core(s') && Undisturbed(s, s')
  {
  }

  lemma RetireForRecoveryKeeps(s: Session)
    requires Core(s)
    ensures Core(RetireForRecovery(s)) && Undisturbed(s, RetireForRecovery(s))
  {
    if s.active || s.binding.inFlight || s.turn.queue.operations != {} || s.turn.queue.observing
        || s.provider.spawned == 0 {
    } else if s.provider.lastGone {
      RecoveryDoneKeeps(s);
    } else {
      AskKeeps(s);
      AwaitRecoveryKeeps(if s.provider.child.Some? then AskToStop(s) else s, s.provider.spawned - 1);
    }
  }

  lemma RecoveryTimedOutKeeps(s: Session)
    requires Core(s)
    ensures Core(RecoveryTimedOut(s)) && Undisturbed(s, RecoveryTimedOut(s))
  {
  }

  lemma TrustKeeps(s: Session, id: Conv)
    requires Core(s)
    ensures Core(SetTrusted(s, id)) && Undisturbed(s, SetTrusted(s, id))
  {
  }

  // ---- The child's own events ----

  lemma ChildErrorKeeps(s: Session, input: bool)
    requires Core(s)
    ensures Core(ChildError(s, input)) && Undisturbed(s, ChildError(s, input))
  {
    if s.provider.child.None? || (s.active && s.turn.flags.failed) || s.provider.stopRequested {
    } else if s.active && Unsettled(s.turn.queue) {
      FailSteeringKeeps(s);
    } else if input {
      AskKeeps(s);
      FailResumeKeeps(AskToStop(s));
    } else {
      FailResumeKeeps(s);
    }
  }

  lemma GoneKeeps(s: Session, c: Child)
    requires Core(s) && Latest(s.provider, Some(c)) && s.provider.child.None?
    ensures Core(Gone(s, c)) && Undisturbed(s, Gone(s, c)) && Gone(s, c).seen.children.live.None?
  {
  }

  /** The child leaves the session's hands and its own life at once. */
  lemma DropGoneKeeps(s: Session, c: Child)
    requires Core(s) && Latest(s.provider, Some(c))
    ensures var d := DropChild(Gone(s, c)); Core(d) && Undisturbed(s, d) && d.seen.children.live.None?
  {
  }

  lemma UnattendedKeeps(s: Session)
    requires Core(s) && s.seen.children.live.None?
    ensures Core(Unattended(s)) && Undisturbed(s, Unattended(s)) && Unattended(s).seen.children == s.seen.children
  {
    if s.active && s.turn.flags.failed {
    } else if s.active && !s.turn.flags.rotating {
      if Unsettled(s.turn.queue) { FailSteeringKeeps(s); } else { GiveUpKeeps(s); }
    } else if Confirmed(s.conversation) {
      EligibleKeeps(s, true);
    } else {
      MarkLostKeeps(s);
    }
  }

  lemma OnCloseKeeps(s: Session, c: Child)
    requires Core(s) && Latest(s.provider, Some(c))
    ensures var s1 := OnClose(Gone(s, c), c); Core(s1) && Undisturbed(s, s1) && s1.seen.children.live.None?
  {
    if s.provider.child.None? {
      GoneKeeps(s, c);
    } else {
      DropGoneKeeps(s, c);
      UnattendedKeeps(DropChild(Gone(s, c)));
    }
  }

  lemma RotationDoneKeeps(s: Session, c: Child, spawns: bool, writes: bool)
    requires Core(s) && s.seen.children.live.None?
    ensures Core(RotationDone(s, c, spawns, writes)) && Undisturbed(s, RotationDone(s, c, spawns, writes))
  {
    if s.conversation.id.None? || !s.conversation.idConfirmed {
      LostKeeps(s);
      StartFailedKeeps(Lost(s));
    } else {
      var eligible := !s.closed && s.active;
      RotatingKeeps(s, false);
      EligibleKeeps(Rotating(s, false), eligible);
      if eligible { LaunchKeeps(EndRotation(s, true), spawns, writes); }
    }
  }

  lemma FailedStaysLost(s: Session, c: Child)
    requires s.contextLost && s.turn.flags.failed
    ensures OnClose(Gone(s, c), c).contextLost
  {
    UnattendedStaysLost(DropChild(Gone(s, c)));
  }

  lemma UnattendedStaysLost(s: Session)
    requires s.contextLost && s.turn.flags.failed
    ensures Unattended(s).contextLost
  {
  }

  lemma ChildClosedKeeps(s: Session, c: Child, spawns: bool, writes: bool)
    requires Core(s) && Latest(s.provider, Some(c))
    ensures Core(ChildClosed(s, c, spawns, writes)) && Undisturbed(s, ChildClosed(s, c, spawns, writes))
  {
    OnCloseKeeps(s, c);
    var s1 := OnClose(Gone(s, c), c);
    if s.waits.failing == Retiring(c) {
      FailedStaysLost(s, c);
      FailDoneKeeps(s1);
    }
    var s2 := if s.waits.failing == Retiring(c) then FailDone(s1) else s1;
    WaitersKeep(s2, c, s.waits, spawns, writes);
  }

  lemma WaitersKeep(s: Session, c: Child, w: Waits, spawns: bool, writes: bool)
    requires Core(s) && s.seen.children.live.None?
    ensures var s3 := if w.checkpoint == Some(c) then CheckpointDone(s, c) else s;
            var s4 := if w.recovery == Some(c) then RecoveryDone(s3) else s3;
            var s5 := if w.rotation == Some(c) then RotationDone(s4, c, spawns, writes) else s4;
            Core(s5) && Undisturbed(s, s5)
  {
    var s3 := if w.checkpoint == Some(c) then CheckpointDone(s, c) else s;
    CheckpointDoneKeeps(s, c);
    var s4 := if w.recovery == Some(c) then RecoveryDone(s3) else s3;
    if w.recovery == Some(c) { RecoveryDoneKeeps(s3); }
    RotationDoneKeeps(s4, c, spawns, writes);
  }

  lemma ForgetRotationKeeps(s: Session)
    requires Core(s)
    ensures Core(s.(waits := s.waits.(rotation := None)))
  {
  }

  lemma RotationTimedOutKeeps(s: Session)
    requires Core(s)
    ensures Core(RotationTimedOut(s)) && Undisturbed(s, RotationTimedOut(s))
  {
    if s.waits.rotation.Some? {
      ForgetRotationKeeps(s);
      var s1 := s.(waits := s.waits.(rotation := None));
      FailClosedKeeps(s1, s.waits.rotation.value);
      StartFailedKeeps(FailClosed(s1, s.waits.rotation.value));
    }
  }

  lemma FailureTimedOutKeeps(s: Session)
    requires Core(s)
    ensures Core(FailureTimedOut(s)) && Undisturbed(s, FailureTimedOut(s))
  {
    if s.waits.failing.Retiring? {
      FailClosedKeeps(s, s.waits.failing.child);
      FailDoneKeeps(FailClosed(s, s.waits.failing.child));
    }
  }

  lemma BlockSettledKeeps(s: Session)
    requires Core(s)
    ensures Core(BlockSettled(s)) && Undisturbed(s, BlockSettled(s))
  {
    if s.waits.failing.Blocking? { FailStopKeeps(s); }
  }

  lemma ResumeTimedOutKeeps(s: Session)
    requires Core(s)
    ensures Core(ResumeTimedOut(s)) && Undisturbed(s, ResumeTimedOut(s))
  {
    if s.provider.awaitingInit { FailResumeKeeps(s); }
  }
}
