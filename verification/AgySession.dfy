/**
 One provider session: the object that owns a provider child, feeds it one prompt at a
 time, reads its events, and couples the steering queue to the turn. Each function below is
 one uninterrupted segment of the source, or a step of one: a call, an event of the child,
 or the continuation of an await. The class in AgySessionProcess performs the same segments
 on mutable fields.

 Every segment also tells a monitor what became visible outside: children spawned and
 closed, prompts written, text and answers handed out, steers settled.

 The steering coordinator is fixed when the session is made. Provider events are already
 decoded lines; each carries the size of its JSON encoding.
 */
module AgySession {

  import opened Options
  import opened AgySessionMonitor

  // ---- The state ----

  /** A steer's promise is filed under its enqueue operation, and under its id once it has one. */
  datatype Key = ByOperation(steer: nat) | ById(id: SteerId)

  datatype Reply = Reply(emitted: Text, segments: seq<Text>, used: nat)

  datatype Queue = Queue(
    intents: nat,
    injected: nat,
    operations: set<nat>,
    ids: set<SteerId>,
    waiters: map<Key, nat>,
    observing: bool)

  /** Events put off until the steering state they depend on is known. */
  datatype Backlog = Backlog(input: Option<Line>, lines: seq<Line>, used: nat)

  datatype Flags = Flags(
    rotating: bool,
    resuming: bool,
    started: bool,
    initSeen: bool,
    initialExpected: bool,
    initialSeen: bool,
    failed: bool)

  datatype Turn = Turn(number: nat, flags: Flags, reply: Reply, queue: Queue, backlog: Backlog, result: Option<Event>)

  const NO_FLAGS := Flags(false, false, false, false, false, false, false)

  function NewTurn(n: nat): Turn {
    Turn(n, NO_FLAGS, Reply([], [[]], 0), Queue(0, 0, {}, {}, map[], false), Backlog(None, [], 0), None)
  }

  datatype Config = Config(steering: bool, enabled: bool, maxResponse: nat, maxDeferredBytes: nat,
                           maxDeferredEvents: nat)

  /** The current child, and of the latest child spawned whether it has closed. */
  datatype Provider = Provider(
    child: Option<Child>,
    spawned: nat,
    lastGone: bool,
    resumed: bool,
    steering: bool,
    stopRequested: bool,
    awaitingInit: bool)

  datatype Conversation = Conversation(
    id: Option<Conv>,
    established: bool,
    eligible: bool,
    succeeded: bool,
    idConfirmed: bool,
    coherent: bool,
    watermark: nat)

  datatype Binding = Binding(pending: bool, failed: bool, inFlight: bool, turn: nat, blocked: bool)

  /** How far the failure of a steered turn has come. */
  datatype Failing = NotFailing | Blocking | Retiring(child: Child)

  /** The continuations that wait for a child to close. */
  datatype Waits = Waits(failing: Failing, rotation: Option<Child>, checkpoint: Option<Child>, recovery: Option<Child>)

  datatype Session = Session(
    config: Config,
    provider: Provider,
    conversation: Conversation,
    binding: Binding,
    waits: Waits,
    turn: Turn,
    active: bool,
    contextLost: bool,
    closed: bool,
    seen: Monitor)

  function Fresh(config: Config, unbound: bool): Session {
    Session(config, Provider(None, 0, true, false, false, false, false),
        Conversation(None, false, false, false, false, true, 0),
            Binding(config.enabled && unbound, false, false, 0, false), Waits(NotFailing, None, None, None), NewTurn(0),
            false, false, false, QUIET)
  }

  function Emit(s: Session, e: Effect): Session {
    s.(seen := Note(s.seen, e, s.config.maxResponse))
  }

  predicate Unsettled(q: Queue) {
    q.operations != {} || q.ids != {} || q.observing || q.intents > q.injected
  }

  predicate Confirmed(c: Conversation) {
    c.id.Some? && c.succeeded && c.idConfirmed
  }

  // ---- Ending a turn ----

  function DropChild(s: Session): Session {
    s.(provider := s.provider.(child := None, steering := false, awaitingInit := false))
  }

  function Lost(s: Session): Session {
    s.(contextLost := true, conversation := s.conversation.(eligible := false))
  }

  function FinishFailed(s: Session): Session {
    if s.active then Emit(s.(active := false), Fails(s.turn.number)) else s
  }

  function FailResume(s: Session): Session {
    FinishFailed(Lost(DropChild(s)))
  }

  function FailProvider(s: Session): Session {
    if s.active && Unsettled(s.turn.queue) then FailSteering(s) else FailResume(s)
  }

  /** `failSteeringPending` up to its first await. */
  function FailSteering(s: Session): Session {
    if s.turn.number == 0 || s.turn.flags.failed then s
    else if s.config.steering then Wait(Doom(s), Blocking)
    else FailStop(Doom(s))
  }

  function Doom(s: Session): Session {
    Emit(s.(turn := s.turn.(flags := s.turn.flags.(failed := true))), Dooms(s.turn.number))
  }

  function Wait(s: Session, f: Failing): Session {
    s.(waits := s.waits.(failing := f))
  }

  /** The bridge has been blocked, or could not be; now the child has to go. */
  function FailStop(s: Session): Session {
    if s.provider.child.Some? then Wait(AskToStop(GiveUpSteering(s)), Retiring(s.provider.child.value))
    else FailDone(GiveUpSteering(s))
  }

  function GiveUpSteering(s: Session): Session {
    Lost(s).(binding := s.binding.(failed := true, blocked := true))
  }

  function AskToStop(s: Session): Session {
    s.(provider := s.provider.(stopRequested := true))
  }

  function RejectWaiters(s: Session): Session {
    Emit(s.(turn := s.turn.(queue := s.turn.queue.(waiters := map[], ids := {}))), Rejects(s.turn.number))
  }

  function FailDone(s: Session): Session {
    FinishFailed(RejectWaiters(Wait(s, NotFailing)))
  }

  /** `failClosedAfterChildStop`. */
  function FailClosed(s: Session, c: Child): Session {
    Lost(s).(provider := s.provider.(child := if s.provider.child == Some(c) then None else s.provider.child,
                                     steering := false, awaitingInit := false))
  }

  // ---- Prompting ----

  predicate CanPrompt(s: Session) {
    !s.closed && !s.active && !s.contextLost
  }

  /** `prompt`; `due` says that the child is old enough to rotate, the other two that spawning and writing work. */
  function Prompt(s: Session, due: bool, spawns: bool, writes: bool): Session
    requires CanPrompt(s)
  {
    if s.provider.child.Some? && due && s.conversation.succeeded then StartRotation(Begin(s))
        else Launch(Begin(s), spawns, writes)
  }

  function Begin(s: Session): Session {
    Emit(s.(turn := NewTurn(s.turn.number + 1), active := true), Begins(s.turn.number + 1))
  }

  function Rotating(s: Session, on: bool): Session {
    s.(turn := s.turn.(flags := s.turn.flags.(rotating := on)))
  }

  function StartRotation(s: Session): Session {
    Rotating(AskToStop(s), true).(waits := s.waits.(rotation := s.provider.child))
  }

  function Launch(s: Session, spawns: bool, writes: bool): Session {
    if s.contextLost || (s.provider.child.None? && !spawns) then StartFailed(s)
    else if s.conversation.eligible && s.provider.child.None? then EnsureStarted(Unconfirm(s, true), true)
    else SendPrompt(EnsureStarted(Unconfirm(s, false), false), writes)
  }

  function Unconfirm(s: Session, resuming: bool): Session {
    s.(conversation := s.conversation.(idConfirmed := false, coherent := true),
       turn := s.turn.(flags := s.turn.flags.(resuming := resuming)))
  }

  function StartFailed(s: Session): Session {
    FinishFailed(Rotating(s, false).(contextLost := true))
  }

  function EnsureStarted(s: Session, resume: bool): Session {
    if s.provider.child.Some? then s else Spawn(s, resume)
  }

  function Spawn(s: Session, resume: bool): Session {
    var c := s.provider.spawned;
    Emit(s.(provider := Provider(Some(c), c + 1, false, resume, s.config.enabled, false, resume),
            conversation := s.conversation.(eligible := s.conversation.eligible && !resume)),
         Spawns(c, if resume then s.conversation.id else None))
  }

  function SendPrompt(s: Session, writes: bool): Session {
    if !s.active || s.turn.flags.started || s.provider.child.None? || s.provider.awaitingInit then s
    else if writes then Write(s, s.provider.child.value)
    else FailResume(s)
  }

  function Write(s: Session, c: Child): Session {
    Emit(s.(turn := s.turn.(flags := s.turn.flags.(initialExpected := true, initialSeen := false, started := true))),
         Writes(s.turn.number, c))
  }

  function ResumeTimedOut(s: Session): Session {
    if s.provider.awaitingInit then FailResume(s) else s
  }

  /** The continuation of a rotation whose child `c` has closed. */
  function RotationDone(s: Session, c: Child, spawns: bool, writes: bool): Session {
    if s.provider.child == Some(c) then StartFailed(FailClosed(s, c))
    else if s.conversation.id.None? || !s.conversation.idConfirmed then StartFailed(Lost(s))
    else if s.closed || !s.active then EndRotation(s, false)
    else Launch(EndRotation(s, true), spawns, writes)
  }

  function EndRotation(s: Session, eligible: bool): Session {
    Eligible(Rotating(s, false), eligible)
  }

  function Eligible(s: Session, eligible: bool): Session {
    s.(conversation := s.conversation.(eligible := eligible))
  }

  function RotationTimedOut(s: Session): Session {
    if s.waits.rotation.None? then s
    else StartFailed(FailClosed(s.(waits := s.waits.(rotation := None)), s.waits.rotation.value))
  }

  // ---- Cancelling, closing, retiring ----

  function Cancel(s: Session): Session {
    if s.active then FinishFailed(Lost(DropChild(RejectWaiters(s)))) else s
  }

  function Close(s: Session): Session {
    if s.active then FinishFailed(RejectWaiters(Shut(s))) else Shut(s)
  }

  function Shut(s: Session): Session {
    Eligible(DropChild(s), false).(closed := true)
  }

  function RetireForCheckpoint(s: Session): Session {
    if s.closed || s.contextLost then s
    else if s.active || !Confirmed(s.conversation) then FailResume(s)
    else if s.provider.child.None? then Retired(s)
    else AskToStop(s).(waits := s.waits.(checkpoint := s.provider.child))
  }

  function Retired(s: Session): Session
    requires Confirmed(s.conversation)
  {
    Emit(Eligible(s, true), Retires(s.conversation.id.value))
  }

  /** The continuation of a checkpoint retirement whose child `c` has closed. */
  function CheckpointDone(s: Session, c: Child): Session {
    if s.provider.child == Some(c) then FailClosed(s, c)
    else if !Confirmed(s.conversation) then Lost(s)
    else Retired(s)
  }

  function CheckpointTimedOut(s: Session): Session {
    if s.waits.checkpoint.None? then s
    else FailClosed(s.(waits := s.waits.(checkpoint := None)), s.waits.checkpoint.value)
  }

  function RetireForRecovery(s: Session): Session {
    if s.active || s.binding.inFlight || s.turn.queue.operations != {} || s.turn.queue.observing
        || s.provider.spawned == 0 then s
    else if s.provider.lastGone then RecoveryDone(s)
    else (if s.provider.child.Some? then AskToStop(s)
          else s).(waits := s.waits.(recovery := Some(s.provider.spawned - 1)))
  }

  function RecoveryDone(s: Session): Session {
    Emit(Close(s), Recovers)
  }

  function RecoveryTimedOut(s: Session): Session {
    s.(waits := s.waits.(recovery := None))
  }

  function SetTrusted(s: Session, id: Conv): Session {
    if s.closed || s.active || s.provider.child.Some? || (s.conversation.id.Some? && s.conversation.id != Some(id))
        then s
    else
      Emit(s.(conversation := s.conversation.(id := Some(id), established := true, succeeded := true,
                                              idConfirmed := true,
                                              eligible := true)),
           Trusts(id))
  }

  // ---- The child's own events ----

  /** An error on the child's input or on the child itself; `input` tells which. */
  function ChildError(s: Session, input: bool): Session {
    if s.provider.child.None? || (s.active && s.turn.flags.failed) || s.provider.stopRequested then s
    else if s.active && Unsettled(s.turn.queue) then FailSteering(s)
    else FailResume(if input then AskToStop(s) else s)
  }

  /** The close event, then the continuations that waited for it, in the order their awaits resolve. */
  function ChildClosed(s: Session, c: Child, spawns: bool, writes: bool): Session {
    Continue(OnClose(Gone(s, c), c), s.waits, c, spawns, writes)
  }

  function Continue(s: Session, w: Waits, c: Child, spawns: bool, writes: bool): Session {
    var s2 := if w.failing == Retiring(c) then FailDone(s) else s;
    var s3 := if w.checkpoint == Some(c) then CheckpointDone(s2, c) else s2;
    var s4 := if w.recovery == Some(c) then RecoveryDone(s3) else s3;
    if w.rotation == Some(c) then RotationDone(s4, c, spawns, writes) else s4
  }

  /** The child has closed, and nobody waits for it any more. */
  function Gone(s: Session, c: Child): Session {
    Emit(s.(provider := s.provider.(lastGone := s.provider.lastGone || c + 1 == s.provider.spawned),
        waits := Answered(s.waits, c)),
         Closes(c))
  }

  function Answered(w: Waits, c: Child): Waits {
    Waits(if w.failing == Retiring(c) then NotFailing else w.failing,
          if w.rotation == Some(c) then None else w.rotation,
          if w.checkpoint == Some(c) then None else w.checkpoint,
          if w.recovery == Some(c) then None else w.recovery)
  }

  function OnClose(s: Session, c: Child): Session {
    if s.provider.child == Some(c) then Unattended(DropChild(s)) else s
  }

  /** What becomes of a session whose child closed by itself. */
  function Unattended(s: Session): Session {
    if s.active && s.turn.flags.failed then s
    else if s.active && !s.turn.flags.rotating then
      if Unsettled(s.turn.queue) then FailSteering(s) else FinishFailed(Lost(s))
    else if Confirmed(s.conversation) then Eligible(s, true)
    else if s.conversation.established then s.(contextLost := true)
    else s
  }

  // ---- Reading events ----

  /** A line of the current child. */
  function Receive(s: Session, line: Line, writes: bool): Session {
    if s.provider.child.None? then s
    else Process(if s.active then Emit(s, Arrives(s.turn.number, line)) else s, line, writes)
  }

  /** `processProviderLine`. */
  function Process(s: Session, line: Line, writes: bool): Session {
    var e := line.event;
    if e.Malformed? || (s.provider.resumed && s.provider.awaitingInit && !e.Init?) then FailProvider(s)
    else if s.active && !e.Init? && s.binding.pending then
      if Unsettled(s.turn.queue) && (e.Result? || e.ErrorEvent?) then FailSteering(s) else Defer(s, line)
    else Dispatch(Watermarked(s, e), line, writes)
  }

  function Dispatch(s: Session, line: Line, writes: bool): Session {
    if s.active && !line.event.UserInput? && (s.turn.backlog.input.Some? || s.turn.queue.observing) then Defer(s, line)
    else if line.event.UserInput? then ReadUserInput(s, line)
    else Handle(if s.active then Emit(s, Handles(s.turn.number, line)) else s, line.event, writes)
  }

  function Watermarked(s: Session, e: Event): Session {
    var step := StepOf(e);
    if step.Some? && step.value <= MAX_STEP && step.value > s.conversation.watermark
    then s.(conversation := s.conversation.(watermark := step.value)) else s
  }

  function Defer(s: Session, line: Line): Session {
    if |s.turn.backlog.lines| >= s.config.maxDeferredEvents then FailProvider(s)
    else if Charge(s, line).turn.backlog.used > s.config.maxDeferredBytes then FailProvider(Charge(s, line))
    else Backlogged(Charge(s, line), s.turn.backlog.lines + [line])
  }

  function Charge(s: Session, line: Line): Session {
    s.(turn := s.turn.(backlog := s.turn.backlog.(used := Budget(s.turn.backlog.used, line.size,
                                                                 s.config.maxDeferredBytes))))
  }

  function Backlogged(s: Session, lines: seq<Line>): Session {
    s.(turn := s.turn.(backlog := s.turn.backlog.(lines := lines)))
  }

  /** `createByteBudget().add`. */
  function Budget(used: nat, more: nat, limit: nat): nat {
    if used + more > limit then limit + 1 else used + more
  }

  function ReadUserInput(s: Session, line: Line): Session
    requires line.event.UserInput?
  {
    if !s.active then s
    else if !Attributable(s, line.event) then FailSteering(s)
    else if s.turn.flags.initialExpected && !s.turn.flags.initialSeen then
      Emit(s.(turn := s.turn.(flags := s.turn.flags.(initialSeen := true))), Handles(s.turn.number, line))
    else HandleUserInput(s, line, false)
  }

  /** `validateSteeringEventConversation`. */
  predicate Attributable(s: Session, e: Event)
    requires e.UserInput?
  {
    s.conversation.id.Some? && e.conv == s.conversation.id && e.step.Some? && e.step.value <= MAX_STEP
  }

  /** `handleUserInput`; `again` when the input was held back before. */
  function HandleUserInput(s: Session, line: Line, again: bool): Session {
    if !s.active then s
    else if s.turn.backlog.input.Some? then FailSteering(s)
    else if s.turn.queue.operations != {} then
      if Charge(s, line).turn.backlog.used > s.config.maxDeferredBytes then FailProvider(Charge(s, line))
      else Hold(if again then Charge(s, line) else Overtake(Charge(s, line)), Some(line))
    else if s.turn.queue.observing || s.turn.queue.ids == {} || !s.config.enabled then FailSteering(s)
    else Emit(Observing(s, true), Handles(s.turn.number, line))
  }

  /** A user input that is held back goes before the events already put off. */
  function Overtake(s: Session): Session {
    if OrderedAll(s.turn.backlog.lines) == [] then s else Emit(s, Overtakes(s.turn.number))
  }

  function Hold(s: Session, input: Option<Line>): Session {
    s.(turn := s.turn.(backlog := s.turn.backlog.(input := input)))
  }

  function Observing(s: Session, on: bool): Session {
    s.(turn := s.turn.(queue := s.turn.queue.(observing := on)))
  }

  /** The enqueue operations a user input waited for have settled. */
  function InputResumes(s: Session): Session {
    if s.turn.backlog.input.None? then s
    else if s.active && !s.turn.flags.failed then HandleUserInput(Hold(s, None), s.turn.backlog.input.value, true)
    else Hold(s, None)
  }

  /** Every event but user input, once it is its turn. */
  function Handle(s: Session, e: Event, writes: bool): Session {
    match e
    case Init(id) => HandleInit(s, id, writes)
    case Delta(conv, _, text) =>
      if Mismatch(s, conv) then FailProvider(s)
      else if s.active then Append(Track(s, conv), text) else Track(s, conv)
    case OtherStep(conv, _) => if Mismatch(s, conv) then FailProvider(s) else Track(s, conv)
    case Response(text) => if s.active then Append(s, text) else s
    case Result(conv, _, _) =>
      if Mismatch(s, conv) then FailProvider(s)
      else if s.active then HandleResult(Track(s, conv), e) else Track(s, conv)
    case _ => s
  }

  predicate Mismatch(s: Session, conv: Option<Conv>) {
    s.conversation.id.Some? && conv.Some? && conv != s.conversation.id
  }

  /** An event without an id makes the turn's ids incoherent. */
  function Track(s: Session, conv: Option<Conv>): Session {
    if s.conversation.id.Some? && conv.None? then s.(conversation := s.conversation.(idConfirmed := false,
        coherent := false)) else s
  }

  function HandleInit(s: Session, id: Option<Conv>, writes: bool): Session {
    if id.None? || (s.conversation.id.Some? && s.conversation.id != id) then FailProvider(s)
    else if s.active && s.turn.flags.initSeen then FailProvider(s.(conversation := s.conversation.(id := id)))
    else AfterInit(BeginBinding(Named(s, id.value)), writes)
  }

  function Named(s: Session, id: Conv): Session {
    var s1 := s.(conversation := s.conversation.(id := Some(id)),
                 turn := if s.active then s.turn.(flags := s.turn.flags.(initSeen := true)) else s.turn);
    if s.provider.child.Some? then Emit(s1, Inits(s.provider.child.value, id)) else s1
  }

  function AfterInit(s: Session, writes: bool): Session {
    if s.provider.resumed && s.provider.child.Some?
    then SendPrompt(s.(provider := s.provider.(awaitingInit := false)), writes) else s
  }

  function BeginBinding(s: Session): Session {
    if !s.binding.pending then s
    else if s.binding.inFlight then FailProvider(s)
    else s.(binding := s.binding.(inFlight := true, turn := if s.active then s.turn.number else 0))
  }

  /** `appendResponseText`. */
  function Append(s: Session, text: Text): Session {
    if Overflows(s, text) then FailProvider(Spent(s)) else Say(s, text)
  }

  function Spent(s: Session): Session {
    s.(turn := s.turn.(reply := s.turn.reply.(used := s.config.maxResponse + 1)))
  }

  function Say(s: Session, text: Text): Session {
    Emit(s.(turn := s.turn.(reply := Appended(s.turn.reply, text))), Says(s.turn.number, text))
  }

  predicate Overflows(s: Session, text: Text) {
    s.turn.reply.used + ByteLength(text) > s.config.maxResponse
  }

  function Appended(r: Reply, text: Text): Reply {
    var n := |r.segments|;
    Reply(r.emitted + text, if n == 0 then [text] else r.segments[n - 1 := r.segments[n - 1] + text],
          r.used + ByteLength(text))
  }

  function HandleResult(s: Session, e: Event): Session
    requires e.Result?
  {
    if !e.success then WithResult(s.(conversation := s.conversation.(succeeded := false)), e)
    else if s.turn.reply.emitted != [] || e.response.None? || s.turn.queue.injected != 0 then WithResult(Succeed(s,
                                                                      e.conv), e)
    else if Overflows(s, e.response.value) then Append(Succeed(s, e.conv), e.response.value)
    else WithResult(Append(Succeed(s, e.conv), e.response.value), e)
  }

  function Succeed(s: Session, conv: Option<Conv>): Session {
    var confirmed := s.conversation.coherent && s.conversation.id.Some? && conv == s.conversation.id;
    s.(conversation := s.conversation.(established := true, succeeded := true, idConfirmed := confirmed))
  }

  function WithResult(s: Session, e: Event): Session {
    MaybeFinish(s.(turn := s.turn.(result := Some(e))))
  }

  /** `maybeFinishResult`. */
  function MaybeFinish(s: Session): Session {
    if !s.active || s.turn.flags.failed || s.turn.result.None? || s.turn.queue.operations != {}
        || s.turn.queue.observing then s
    else if s.turn.queue.ids != {} || s.turn.queue.intents > s.turn.queue.injected then FailSteering(s)
    else FinishResult(s.(turn := s.turn.(result := None)), s.turn.result.value)
  }

  function FinishResult(s: Session, r: Event): Session {
    if !r.Result? || !r.success then FinishFailed(s)
    else if s.turn.queue.injected > 0 && Answer(s.turn, r.response) == [] then FailSteering(s)
    else if ByteLength(Answer(s.turn, r.response)) > s.config.maxResponse then FailProvider(s)
    else Resolve(s, Answer(s.turn, r.response), r.response)
  }

  function Resolve(s: Session, answer: Text, own: Option<Text>): Session {
    if s.active then Emit(s.(active := false), Resolves(s.turn.number, answer, own)) else s
  }

  function Answer(t: Turn, own: Option<Text>): Text {
    var segments := t.reply.segments;
    if t.queue.injected > 0 then (if segments == [] then [] else segments[|segments| - 1])
        else own.GetOr(t.reply.emitted)
  }

  // ---- Steering ----

  predicate CanSteer(s: Session) {
    && s.active && s.turn.flags.started && !s.binding.blocked && !s.contextLost && s.config.enabled
        && s.provider.steering
    && (s.conversation.id.Some? || s.binding.pending)
  }

  function Queued(s: Session, q: Queue): Session {
    s.(turn := s.turn.(queue := q))
  }

  /** `steer`: the operation waits for the binding and then enqueues. */
  function Steer(s: Session): Session
    requires CanSteer(s)
  {
    var q := s.turn.queue;
    Emit(Queued(s, q.(intents := q.intents + 1, operations := q.operations + {q.intents},
                      waiters := q.waiters[ByOperation(q.intents) := q.intents])),
         Accepts(s.turn.number, q.intents))
  }

  /** The coordinator answered: an id, or a failure. */
  function Enqueued(s: Session, k: nat, id: Option<SteerId>): Session {
    var q := s.turn.queue.(operations := s.turn.queue.operations - {k});
    if id.None? || s.binding.failed || s.conversation.id.None? then FailSteering(Queued(s, q))
    else if !s.active || s.turn.flags.failed then Queued(s, q)
    else MaybeFinish(Queued(s, q.(waiters := (q.waiters - {ByOperation(k)})[ById(id.value) := k],
                                  ids := q.ids + {id.value})))
  }

  /** The claim watcher saw a blocked bridge, too many errors, or no confirmation in time. */
  function WatchFails(s: Session): Session {
    if s.active && !s.turn.flags.failed && s.turn.queue.ids != {} then FailSteering(s) else s
  }

  /** The coordinator confirmed the user input for a steer, or refused. */
  function Observed(s: Session, id: Option<SteerId>, writes: bool): Session {
    var s1 := Observing(s, false);
    if id.None? then FailSteering(s1)
    else if !s.active || s.turn.flags.failed then s1
    else if ById(id.value) !in s.turn.queue.waiters then FailSteering(s1)
    else ReplayAll(Inject(s1, id.value), writes)
  }

  function Inject(s: Session, id: SteerId): Session
    requires ById(id) in s.turn.queue.waiters
  {
    var q := s.turn.queue;
    Emit(Segment(Queued(s, q.(waiters := q.waiters - {ById(id)}, ids := q.ids - {id}, injected := q.injected + 1))),
         Injects(s.turn.number, q.waiters[ById(id)]))
  }

  function Segment(s: Session): Session {
    s.(turn := s.turn.(reply := s.turn.reply.(segments := s.turn.reply.segments + [[]])))
  }

  /**
   Everything put off is read again, in order; then the turn may be complete. Without a child the
   source throws here.
   */
  function ReplayAll(s: Session, writes: bool): Session {
    if s.provider.child.None? then FailProvider(s)
    else MaybeFinish(Replay(Backlogged(s, []), s.turn.backlog.lines, writes))
  }

  function Replay(s: Session, lines: seq<Line>, writes: bool): Session
    decreases |lines|
  {
    if lines == [] || !s.active || s.turn.flags.failed then s
    else Replay(Process(s, lines[0], writes), lines[1..], writes)
  }

  /** The coordinator wrote the conversation into the bridge, or refused. */
  function BindSettled(s: Session, ok: bool, writes: bool): Session {
    if !s.binding.inFlight then s
    else if !ok then FailProvider(s.(binding := s.binding.(inFlight := false, failed := true)))
    else if !s.active || s.binding.turn != s.turn.number then Bound(s)
    else ReplayAll(Bound(s), writes)
  }

  function Bound(s: Session): Session {
    s.(binding := s.binding.(inFlight := false, pending := false))
  }

  /** The block call of a failing turn returned; whether it worked only changes the message. */
  function BlockSettled(s: Session): Session {
    if s.waits.failing.Blocking? then FailStop(s) else s
  }

  function FailureTimedOut(s: Session): Session {
    if s.waits.failing.Retiring? then FailDone(FailClosed(s, s.waits.failing.child)) else s
  }
}
