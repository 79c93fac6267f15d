/**
 The invariant that ties a provider session to its monitor, and that the segments that
 start, end, fail or retire a turn keep it.
 */
module AgySessionInvariant {

  import opened Options
  import opened AgySession
  import opened AgySessionMonitor

  // ---- The invariant ----

  predicate Latest(p: Provider, c: Option<Child>) {
    c.Some? ==> !p.lastGone && c.value + 1 == p.spawned
  }

  predicate ChildOk(p: Provider, w: Waits, children: Children) {
    && children.count == p.spawned
    && (!p.lastGone ==> p.spawned > 0)
    && children.live == (if p.lastGone then None else Some(p.spawned - 1))
    && Latest(p, p.child)
    && Latest(p, w.rotation)
    && Latest(p, w.checkpoint)
    && Latest(p, w.recovery)
    && (w.failing.Retiring? ==> Latest(p, Some(w.failing.child)))
  }

  predicate ConversationOk(p: Provider, c: Conversation, children: Children, named: Option<Conv>) {
    && named == c.id
    && (c.eligible ==> c.id.Some?)
    && (p.awaitingInit ==> p.child.Some? && p.resumed)
    && (p.child.Some? ==>
          (p.resumed <==> children.resumes.Some?) && (p.resumed && !p.awaitingInit ==> children.initialised))
  }

  predicate StageOk(t: Turn, active: bool, stage: Stage) {
    && stage.number == t.number
    && stage.running == active
    && (active ==> t.number > 0 && stage.written == t.flags.started)
    && stage.doomed == t.flags.failed
  }

  predicate CountsOk(q: Queue, steers: Steers) {
    steers.accepted == q.intents && steers.injections == q.injected
  }

  function Flatten(segments: seq<Text>): Text {
    if segments == [] then [] else Flatten(segments[..|segments| - 1]) + segments[|segments| - 1]
  }

  /** One segment more than injections, adding up to the text emitted, within the limit. */
  predicate ReplyOk(r: Reply, injected: nat, talk: Talk, limit: nat) {
    && |r.segments| == injected + 1
    && Flatten(r.segments) == r.emitted
    && r.emitted == talk.said
    && r.segments[injected] == talk.since
    && ByteLength(r.emitted) <= r.used
    && ByteLength(r.emitted) <= limit
  }

  predicate BindingOk(b: Binding, active: bool, turn: Turn, spawned: nat, over: bool) {
    && (b.pending && spawned > 0 && !active ==> over)
    && (b.inFlight ==> spawned > 0)
    && (active && b.pending && b.inFlight ==> b.turn == turn.number)
    && (active && turn.result.Some? ==> !b.pending)
  }

  /** A failing turn stays failed, and a turn that left work behind left a session that cannot prompt again. */
  predicate FailingOk(f: Failing, turn: Turn, active: bool, lost: bool, over: bool) {
    && (f.Retiring? ==> lost && turn.flags.failed)
    && (f.Blocking? ==> turn.flags.failed && (active || over))
    && (!active && (turn.queue.operations != {} || turn.queue.observing) ==> over)
  }

  /** Steers need a written prompt, and their user inputs come after the prompt's own. */
  predicate FlagsOk(f: Flags, q: Queue, b: Backlog) {
    && (q.operations != {} || q.ids != {} ==> f.started)
    && (f.started ==> f.initialExpected)
    && (q.observing || b.input.Some? ==> f.started && f.initialSeen)
  }

  predicate Over(s: Session) {
    s.contextLost || s.closed
  }

  ghost predicate Core(s: Session) {
    && s.seen.fair
    && Recorded(s.seen, s.config.maxResponse)
    && ChildOk(s.provider, s.waits, s.seen.children)
    && (s.provider.child.None? && !s.contextLost && !s.closed ==> s.provider.lastGone)
    && FailingOk(s.waits.failing, s.turn, s.active, s.contextLost, Over(s))
    && ConversationOk(s.provider, s.conversation, s.seen.children, s.seen.named)
    && StageOk(s.turn, s.active, s.seen.stage)
    && FlagsOk(s.turn.flags, s.turn.queue, s.turn.backlog)
    && (s.turn.flags.initSeen ==> s.conversation.id.Some?)
    && CountsOk(s.turn.queue, s.seen.steers)
    && ReplyOk(s.turn.reply, s.turn.queue.injected, s.seen.talk, s.config.maxResponse)
    && BindingOk(s.binding, s.active, s.turn, s.provider.spawned, Over(s))
  }

  predicate Live(s: Session) {
    s.active && !s.turn.flags.failed
  }

  /** Every accepted steer is injected, or its promise is filed under exactly one key. */
  ghost predicate Filed(q: Queue, injected: set<nat>) {
    && (forall k | k in injected :: k < q.intents)
    && (forall k | 0 <= k < q.intents :: k in injected || HasKey(q, k))
    && (forall k | k in q.operations :: ByOperation(k) in q.waiters)
    && (forall key | key in q.waiters :: KeyOk(q, key, injected))
    && (forall x, y | x in q.waiters && y in q.waiters && q.waiters[x] == q.waiters[y] :: x == y)
  }

  ghost predicate HasKey(q: Queue, k: nat) {
    exists key | key in q.waiters :: q.waiters[key] == k
  }

  predicate KeyOk(q: Queue, key: Key, injected: set<nat>)
    requires key in q.waiters
  {
    && q.waiters[key] < q.intents && q.waiters[key] !in injected
    && match key
       case ByOperation(k) => k in q.operations && q.waiters[key] == k
       case ById(id) => id in q.ids
  }

  function Held(b: Backlog): seq<Line> {
    (if b.input.Some? then [b.input.value] else []) + b.lines
  }

  /**
   What arrived is what was handled, what is held back, and what is about to be read again, unless
   an input overtook it.
   */
  predicate InOrder(b: Backlog, events: Events, waiting: bool, coming: seq<Line>) {
    && events.arrived == events.handled + OrderedAll(Held(b) + coming)
    && (b.lines != [] ==> waiting || b.input.Some?)
    && (b.input.Some? ==> b.input.value.event.UserInput?)
  }

  /** Once the binding is settled, only events other than user input are put off. */
  predicate NoInputs(b: Backlog) {
    forall i | 0 <= i < |b.lines| :: !b.lines[i].event.UserInput?
  }

  ghost predicate LiveOk(s: Session, coming: seq<Line>) {
    Live(s) ==>
      Filed(s.turn.queue, s.seen.steers.injected) &&
      (s.binding.pending || NoInputs(s.turn.backlog)) &&
      (!s.seen.stage.overtaken ==>
         InOrder(s.turn.backlog, s.seen.events, s.binding.pending || s.turn.queue.observing, coming))
  }

  ghost predicate Inv(s: Session, coming: seq<Line>) {
    Core(s) && LiveOk(s, coming)
  }

  /** What the liveness part depends on. */
  datatype Agenda = Agenda(live: bool, queue: Queue, backlog: Backlog, pending: bool, injected: set<nat>,
      events: Events, overtaken: bool)

  function AgendaOf(s: Session): Agenda {
    Agenda(Live(s), s.turn.queue, s.turn.backlog, s.binding.pending, s.seen.steers.injected, s.seen.events,
           s.seen.stage.overtaken)
  }

  /** If the turn is still live, nothing about its steers or its events has moved. */
  predicate Undisturbed(s: Session, s': Session) {
    Live(s') ==> AgendaOf(s') == AgendaOf(s)
  }

  lemma StaysLive(s: Session, s': Session, coming: seq<Line>)
    requires LiveOk(s, coming) && Undisturbed(s, s')
    ensures LiveOk(s', coming)
  {
    if Live(s') { assert AgendaOf(s') == AgendaOf(s); }
  }

  // ---- Ending ----

  lemma LostKeeps(s: Session)
    requires Core(s)
    ensures Core(Lost(s)) && Undisturbed(s, Lost(s))
  {
  }

  lemma LostChildKeeps(s: Session)
    requires Core(s)
    ensures Core(Lost(DropChild(s)))
  {
  }

  /** Nothing is left to settle. */
  predicate Quiescent(s: Session) {
    !s.binding.pending && s.turn.queue.operations == {} && !s.turn.queue.observing && !s.turn.flags.failed
  }

  lemma FinishKeeps(s: Session)
    requires Core(s) && (Over(s) || Quiescent(s))
    ensures Core(FinishFailed(s)) && !FinishFailed(s).active && FinishFailed(s).seen.children == s.seen.children
  {
  }

  lemma FailResumeKeeps(s: Session)
    requires Core(s)
    ensures Core(FailResume(s)) && !FailResume(s).active && FailResume(s).seen.children == s.seen.children
  {
    LostChildKeeps(s);
    FinishKeeps(Lost(DropChild(s)));
  }

  lemma GiveUpKeeps(s: Session)
    requires Core(s)
    ensures Core(FinishFailed(Lost(s))) && !FinishFailed(Lost(s)).active
        && FinishFailed(Lost(s)).seen.children == s.seen.children
  {
    LostKeeps(s);
    FinishKeeps(Lost(s));
  }

  lemma RejectKeeps(s: Session)
    requires Core(s)
    ensures Core(RejectWaiters(s)) && RejectWaiters(s).seen.children == s.seen.children
  {
  }

  lemma WaitKeeps(s: Session, f: Failing)
    requires Core(s) && (f.Retiring? ==> s.provider.child == Some(f.child) && s.contextLost && s.turn.flags.failed)
    requires f.Blocking? ==> s.turn.flags.failed && (s.active || Over(s))
    ensures Core(Wait(s, f))
  {
  }

  lemma FailDoneKeeps(s: Session)
    requires Core(s) && Over(s)
    ensures Core(FailDone(s)) && !FailDone(s).active && FailDone(s).seen.children == s.seen.children
  {
    WaitKeeps(s, NotFailing);
    RejectKeeps(Wait(s, NotFailing));
    FinishKeeps(RejectWaiters(Wait(s, NotFailing)));
  }

  lemma DoomKeeps(s: Session)
    requires Core(s) && !s.turn.flags.failed
    ensures Core(Doom(s)) && Doom(s).active == s.active && Over(Doom(s)) == Over(s) && Doom(s).turn.flags.failed
        && Doom(s).seen.children == s.seen.children
  {
  }

  lemma GiveUpSteeringKeeps(s: Session)
    requires Core(s)
    ensures Core(GiveUpSteering(s)) && GiveUpSteering(s).contextLost
  {
  }

  lemma AskKeeps(s: Session)
    requires Core(s)
    ensures Core(AskToStop(s)) && Undisturbed(s, AskToStop(s))
  {
  }

  lemma FailStopKeeps(s: Session)
    requires Core(s) && s.turn.flags.failed
    ensures Core(FailStop(s)) && !Live(FailStop(s)) && FailStop(s).seen.children == s.seen.children
  {
    GiveUpSteeringKeeps(s);
    if s.provider.child.None? {
      FailDoneKeeps(GiveUpSteering(s));
    } else {
      AskKeeps(GiveUpSteering(s));
      WaitKeeps(AskToStop(GiveUpSteering(s)), Retiring(s.provider.child.value));
    }
  }

  lemma FailSteeringKeeps(s: Session)
    requires Core(s) && (s.active || Over(s))
    ensures Core(FailSteering(s)) && !Live(FailSteering(s)) && FailSteering(s).seen.children == s.seen.children
  {
    if s.turn.number != 0 && !s.turn.flags.failed {
      DoomKeeps(s);
      if s.config.steering { WaitKeeps(Doom(s), Blocking); } else { FailStopKeeps(Doom(s)); }
    }
  }

  lemma FailProviderKeeps(s: Session)
    requires Core(s)
    ensures Core(FailProvider(s)) && !Live(FailProvider(s)) && FailProvider(s).seen.children == s.seen.children
  {
    if s.active && Unsettled(s.turn.queue) { FailSteeringKeeps(s); } else { FailResumeKeeps(s); }
  }

  lemma FailClosedKeeps(s: Session, c: Child)
    requires Core(s) && (s.provider.child.Some? ==> s.provider.child.value == c)
    ensures Core(FailClosed(s, c)) && Undisturbed(s, FailClosed(s, c)) && FailClosed(s, c).contextLost
  {
  }
}
