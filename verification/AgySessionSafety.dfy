/**
 What holds in every run of a provider session: the monitor is never broken, the text of
 the turn is accounted for, and events keep their order unless a held user input goes
 ahead of them, which can happen.
 */
module AgySessionSafety {

  import opened Options
  import opened AgySession
  import opened AgySessionMonitor
  import opened AgySessionInvariant
  import opened AgySessionLifecycle
  import opened AgySessionRuns

  /** The calls, timers and child events that end or change nothing about the steers of a live turn. */
  datatype Calm =
    | Cancels
    | Shuts
    | RetiresForCheckpoint
    | RetiresForRecovery
    | IsTrusted(conversation: Conv)
    | ChildBreaks(input: bool)
    | ChildCloses(child: Child, spawns: bool, writes: bool)
    | ResumeTimer
    | RotationTimer
    | CheckpointTimer
    | RecoveryTimer
    | FailureTimer
    | BlockSettles

  datatype Move =
    | Prompts(due: bool, spawns: bool, writes: bool)
    | Steered
    | Reads(line: Line, writes: bool)
    | EnqueueSettles(steer: nat, id: Option<SteerId>)
    | ObservationSettles(id: Option<SteerId>, writes: bool)
    | BindingSettles(ok: bool, writes: bool)
    | InputReturns
    | WatcherGivesUp
    | Calmly(calm: Calm)

  /** A child closes once, an answer belongs to a question, and a steer id is new. */
  predicate Enabled(s: Session, m: Move) {
    match m
    case Prompts(_, _, _) => CanPrompt(s)
    case Steered => CanSteer(s)
    case EnqueueSettles(k, id) => k in s.turn.queue.operations && (id.Some? ==> ById(id.value) !in s.turn.queue.waiters)
    case ObservationSettles(_, _) => s.turn.queue.observing
    case Calmly(c) => c.ChildCloses? ==> Latest(s.provider, Some(c.child))
    case _ => true
  }

  function Apply(s: Session, m: Move): Session
    requires Enabled(s, m)
  {
    match m
    case Prompts(due, spawns, writes) => Prompt(s, due, spawns, writes)
    case Steered => Steer(s)
    case Reads(line, writes) => Receive(s, line, writes)
    case EnqueueSettles(k, id) => Enqueued(s, k, id)
    case ObservationSettles(id, writes) => Observed(s, id, writes)
    case BindingSettles(ok, writes) => BindSettled(s, ok, writes)
    case InputReturns => InputResumes(s)
    case WatcherGivesUp => WatchFails(s)
    case Calmly(c) => ApplyCalm(s, c)
  }

  function ApplyCalm(s: Session, c: Calm): Session {
    match c
    case Cancels => Cancel(s)
    case Shuts => Close(s)
    case RetiresForCheckpoint => RetireForCheckpoint(s)
    case RetiresForRecovery => RetireForRecovery(s)
    case IsTrusted(id) => SetTrusted(s, id)
    case ChildBreaks(input) => ChildError(s, input)
    case ChildCloses(c, spawns, writes) => ChildClosed(s, c, spawns, writes)
    case ResumeTimer => ResumeTimedOut(s)
    case RotationTimer => RotationTimedOut(s)
    case CheckpointTimer => CheckpointTimedOut(s)
    case RecoveryTimer => RecoveryTimedOut(s)
    case FailureTimer => FailureTimedOut(s)
    case BlockSettles => BlockSettled(s)
  }

  predicate Path(s: Session, moves: seq<Move>)
    decreases |moves|
  {
    moves == [] || (Enabled(s, moves[0]) && Path(Apply(s, moves[0]), moves[1..]))
  }

  function End(s: Session, moves: seq<Move>): Session
    requires Path(s, moves)
    decreases |moves|
  {
    if moves == [] then s else End(Apply(s, moves[0]), moves[1..])
  }

  lemma CalmKeeps(s: Session, c: Calm)
    requires Core(s) && (c.ChildCloses? ==> Latest(s.provider, Some(c.child)))
    ensures Core(ApplyCalm(s, c)) && Undisturbed(s, ApplyCalm(s, c))
  {
    match c
    case Cancels => CancelKeeps(s);
    case Shuts => CloseKeeps(s);
    case RetiresForCheckpoint => RetireForCheckpointKeeps(s);
    case RetiresForRecovery => RetireForRecoveryKeeps(s);
    case IsTrusted(id) => TrustKeeps(s, id);
    case ChildBreaks(input) => ChildErrorKeeps(s, input);
    case ChildCloses(c, spawns, writes) => ChildClosedKeeps(s, c, spawns, writes);
    case ResumeTimer => ResumeTimedOutKeeps(s);
    case RotationTimer => RotationTimedOutKeeps(s);
    case CheckpointTimer => CheckpointTimedOutKeeps(s);
    case RecoveryTimer => RecoveryTimedOutKeeps(s);
    case FailureTimer => FailureTimedOutKeeps(s);
    case BlockSettles => BlockSettledKeeps(s);
  }

  lemma MoveKeeps(s: Session, m: Move)
    requires Inv(s, []) && Enabled(s, m)
    ensures Inv(Apply(s, m), [])
  {
    match m
    case Prompts(due, spawns, writes) => PromptKeeps(s, due, spawns, writes);
    case Steered => SteerKeeps(s);
    case Reads(line, writes) => ReceiveKeeps(s, line, writes);
    case EnqueueSettles(k, id) => EnqueuedKeeps(s, k, id);
    case ObservationSettles(id, writes) => ObservedKeeps(s, id, writes);
    case BindingSettles(ok, writes) => BindSettledKeeps(s, ok, writes);
    case InputReturns => InputResumesKeeps(s);
    case WatcherGivesUp => WatchFailsKeeps(s);
    case Calmly(c) =>
      CalmKeeps(s, c);
      StaysLive(s, ApplyCalm(s, c), []);
  }

  lemma {:induction false} PathKeeps(s: Session, moves: seq<Move>)
    requires Inv(s, []) && Path(s, moves)
    ensures Inv(End(s, moves), [])
    decreases |moves|
  {
    if moves != [] {
      MoveKeeps(s, moves[0]);
      PathKeeps(Apply(s, moves[0]), moves[1..]);
    }
  }

  lemma FreshIsFine(config: Config, unbound: bool)
    ensures Inv(Fresh(config, unbound), [])
  {
    var r := NewTurn(0).reply;
    assert r.segments[..0] == [];
    assert Flatten(r.segments) == Flatten([]) + [];
    QuietIsRecorded(config.maxResponse);
  }

  /** The rules of the monitor hold in every run of every session. */
  lemma EverySessionIsFair(config: Config, unbound: bool, moves: seq<Move>)
    requires Path(Fresh(config, unbound), moves)
    ensures End(Fresh(config, unbound), moves).seen.fair
  {
    FreshIsFine(config, unbound);
    PathKeeps(Fresh(config, unbound), moves);
  }

  /** One segment more than injections; together they are the text emitted, which stays within the limit. */
  lemma TextIsAccountedFor(config: Config, unbound: bool, moves: seq<Move>)
    requires Path(Fresh(config, unbound), moves)
    ensures var s := End(Fresh(config, unbound), moves);
            && |s.turn.reply.segments| == s.turn.queue.injected + 1
            && Flatten(s.turn.reply.segments) == s.turn.reply.emitted
            && ByteLength(s.turn.reply.emitted) <= s.config.maxResponse
  {
    FreshIsFine(config, unbound);
    PathKeeps(Fresh(config, unbound), moves);
  }

  /**
   While a turn is live and not overtaken, its events wait in the order they arrived, behind those
   already handled.
   */
  lemma EventsKeepTheirOrder(config: Config, unbound: bool, moves: seq<Move>)
    requires Path(Fresh(config, unbound), moves)
    ensures var s := End(Fresh(config, unbound), moves);
            Live(s) && !s.seen.stage.overtaken ==>
              s.seen.events.arrived == s.seen.events.handled + OrderedAll(Held(s.turn.backlog))
  {
    FreshIsFine(config, unbound);
    PathKeeps(Fresh(config, unbound), moves);
    var s := End(Fresh(config, unbound), moves);
    assert Held(s.turn.backlog) + [] == Held(s.turn.backlog);
  }

  // ---- Reachable sessions ----

  ghost predicate Reachable(config: Config, unbound: bool, s: Session) {
    exists moves | Path(Fresh(config, unbound), moves) :: End(Fresh(config, unbound), moves) == s
  }

  lemma {:induction false} PathGoesOn(s: Session, moves: seq<Move>, m: Move)
    requires Path(s, moves) && Enabled(End(s, moves), m)
    ensures Path(s, moves + [m]) && End(s, moves + [m]) == Apply(End(s, moves), m)
    decreases |moves|
  {
    if moves == [] {
      assert [] + [m] == [m] && [m][1..] == [];
    } else {
      assert (moves + [m])[1..] == moves[1..] + [m];
      PathGoesOn(Apply(s, moves[0]), moves[1..], m);
    }
  }

  lemma ReachesNext(config: Config, unbound: bool, s: Session, m: Move)
    requires Reachable(config, unbound, s) && Enabled(s, m)
    ensures Reachable(config, unbound, Apply(s, m))
  {
    var moves :| Path(Fresh(config, unbound), moves) && End(Fresh(config, unbound), moves) == s;
    PathGoesOn(Fresh(config, unbound), moves, m);
  }
}
