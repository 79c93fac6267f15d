/**
 A monitor for one provider session. It is told of every effect the session has outside
 itself, remembers what later effects are judged by, and stays `fair` as long as no effect
 broke a rule. The rules are what the session promises: they speak of children, writes,
 texts and steers, not of the session's fields.
 */
module AgySessionMonitor {

  import opened Options

  const MAX_STEP := 1_000_000

  type Child = nat
  type Conv = nat
  type SteerId = nat
  type CodeUnit = n: nat | n < 0x1_0000
  type Text = seq<CodeUnit>

  // ---- Texts and their size ----

  predicate HighHalf(c: CodeUnit) { 0xD800 <= c < 0xDC00 }

  predicate LowHalf(c: CodeUnit) { 0xDC00 <= c < 0xE000 }

  /** `Buffer.byteLength(text, 'utf8')`: a lone half of a pair counts as the replacement character. */
  function ByteLength(t: Text): nat {
    if t == [] then 0
    else if |t| >= 2 && HighHalf(t[0]) && LowHalf(t[1]) then 4 + ByteLength(t[2..])
    else (if t[0] < 0x80 then 1 else if t[0] < 0x800 then 2 else 3) + ByteLength(t[1..])
  }

  // ---- Provider events ----

  datatype Event =
    | Malformed
    | Init(id: Option<Conv>)
    | UserInput(conv: Option<Conv>, step: Option<nat>)
    | Delta(conv: Option<Conv>, step: Option<nat>, text: Text)
    | OtherStep(conv: Option<Conv>, step: Option<nat>)
    | Response(text: Text)
    | Result(conv: Option<Conv>, success: bool, response: Option<Text>)
    | ErrorEvent
    | Unknown

  datatype Line = Line(event: Event, size: nat)

  function StepOf(e: Event): Option<nat> {
    match e
    case UserInput(_, step) => step
    case Delta(_, step, _) => step
    case OtherStep(_, step) => step
    case _ => None
  }

  // ---- Effects ----

  datatype Effect =
    | Spawns(child: Child, resumes: Option<Conv>)
    | Closes(child: Child)
    | Inits(child: Child, id: Conv)
    | Trusts(id: Conv)
    | Begins(turn: nat)
    | Writes(turn: nat, child: Child)
    | Arrives(turn: nat, line: Line)
    | Handles(turn: nat, line: Line)
    | Says(turn: nat, text: Text)
    | Accepts(turn: nat, steer: nat)
    | Injects(turn: nat, steer: nat)
    | Rejects(turn: nat)
    | Dooms(turn: nat)
    | Overtakes(turn: nat)
    | Resolves(turn: nat, answer: Text, own: Option<Text>)
    | Fails(turn: nat)
    | Retires(id: Conv)
    | Recovers

  /** The child spawned and not yet closed, and what is known of the latest one. */
  datatype Children = Children(live: Option<Child>, count: nat, resumes: Option<Conv>, initialised: bool)

  /** The steers of the latest turn, numbered in the order they were accepted. */
  datatype Steers = Steers(accepted: nat, injections: nat, injected: set<nat>)

  /** The text of the latest turn: all of it, and what followed the last injection. */
  datatype Talk = Talk(said: Text, since: Text)

  /** The events of the latest turn other than inits. */
  datatype Events = Events(arrived: seq<Line>, handled: seq<Line>)

  datatype Stage = Stage(number: nat, running: bool, written: bool, doomed: bool, overtaken: bool)

  /** The effects told so far, the latest outermost. */
  datatype Trace = Silence | Told(before: Trace, last: Effect)

  datatype Monitor = Monitor(
    trace: Trace,
    fair: bool,
    children: Children,
    named: Option<Conv>,
    stage: Stage,
    steers: Steers,
    talk: Talk,
    events: Events)

  const NO_STEERS := Steers(0, 0, {})
  const NO_TALK := Talk([], [])
  const NO_EVENTS := Events([], [])
  const NO_STAGE := Stage(0, false, false, false, false)
  const QUIET := Monitor(Silence, true, Children(None, 0, None, false), None, NO_STAGE, NO_STEERS, NO_TALK, NO_EVENTS)

  function Ordered(line: Line): seq<Line> {
    if line.event.Init? then [] else [line]
  }

  function OrderedAll(lines: seq<Line>): seq<Line> {
    if lines == [] then [] else Ordered(lines[0]) + OrderedAll(lines[1..])
  }

  predicate Now(m: Monitor, turn: nat) {
    m.stage.running && m.stage.number == turn
  }

  /** The rules. */
  predicate Fair(m: Monitor, e: Effect, limit: nat) {
    match e
    case Spawns(c, resumes) => m.children.live.None? && c == m.children.count && (resumes.Some? ==> resumes == m.named)
    case Closes(c) => m.children.live == Some(c)
    case Inits(c, id) => m.children.live == Some(c) && (m.named.Some? ==> m.named == Some(id))
    case Trusts(id) => m.named.Some? ==> m.named == Some(id)
    case Begins(n) => !m.stage.running && n == m.stage.number + 1
    case Writes(n, c) =>
      Now(m, n) && !m.stage.written && m.children.live == Some(c)
          && (m.children.resumes.Some? ==> m.children.initialised)
    case Arrives(n, _) => Now(m, n)
    case Handles(n, line) =>
      Now(m, n) &&
      (!m.stage.doomed && !m.stage.overtaken ==> m.events.handled + Ordered(line) <= m.events.arrived)
    case Says(n, text) => Now(m, n) && ByteLength(m.talk.said + text) <= limit
    case Accepts(n, k) => Now(m, n) && m.stage.written && k == m.steers.accepted
    case Injects(n, k) => Now(m, n) && !m.stage.doomed && k < m.steers.accepted && k !in m.steers.injected
    case Rejects(n) => n == m.stage.number
    case Dooms(n) => n == m.stage.number && !m.stage.doomed
    case Overtakes(n) => Now(m, n)
    case Resolves(n, answer, own) => Now(m, n) && !m.stage.doomed && AllInjected(m.steers) && GoodAnswer(m, answer,
                                                                      own, limit)
    case Fails(n) => Now(m, n)
    case Retires(id) => m.children.live.None? && m.named == Some(id)
    case Recovers => m.children.live.None? && !m.stage.running
  }

  predicate AllInjected(s: Steers) {
    forall k | 0 <= k < s.accepted :: k in s.injected
  }

  /**
   After an injection the answer is the text that followed the last one; otherwise the provider's
   own, or all text.
   */
  predicate GoodAnswer(m: Monitor, answer: Text, own: Option<Text>, limit: nat) {
    && ByteLength(answer) <= limit
    && (if m.steers.injections > 0 then answer == m.talk.since && answer != [] else answer == own.GetOr(m.talk.said))
  }

  function Judged(m: Monitor, e: Effect, limit: nat): Monitor {
    Noted(m.(trace := Told(m.trace, e), fair := m.fair && Fair(m, e, limit)), e)
  }

  function Note(m: Monitor, e: Effect, limit: nat): (r: Monitor)
    ensures Recorded(m, limit) ==> Recorded(r, limit)
  {
    JudgedIsRecorded(m, e, limit);
    Judged(m, e, limit)
  }

  function Noted(m: Monitor, e: Effect): Monitor {
    match e
    case Spawns(c, resumes) => m.(children := Children(Some(c), m.children.count + 1, resumes, false))
    case Closes(c) => m.(children := m.children.(live := None))
    case Inits(_, id) => m.(named := Some(id), children := m.children.(initialised := true))
    case Trusts(id) => m.(named := Some(id))
    case Begins(n) => m.(stage := Stage(n, true, false, false, false), steers := NO_STEERS, talk := NO_TALK,
        events := NO_EVENTS)
    case Writes(_, _) => m.(stage := m.stage.(written := true))
    case Arrives(_, line) => m.(events := m.events.(arrived := m.events.arrived + Ordered(line)))
    case Handles(_, line) => m.(events := m.events.(handled := m.events.handled + Ordered(line)))
    case Says(_, text) => m.(talk := Talk(m.talk.said + text, m.talk.since + text))
    case Accepts(_, _) => m.(steers := m.steers.(accepted := m.steers.accepted + 1))
    case Injects(_, k) =>
      m.(steers := m.steers.(injections := m.steers.injections + 1, injected := m.steers.injected + {k}),
         talk := m.talk.(since := []))
    case Dooms(_) => m.(stage := m.stage.(doomed := true))
    case Overtakes(_) => m.(stage := m.stage.(overtaken := true))
    case Resolves(_, _, _) => m.(stage := m.stage.(running := false))
    case Fails(_) => m.(stage := m.stage.(running := false))
    case _ => m
  }

  // ---- What was told ----

  function EffectsOf(t: Trace): seq<Effect> {
    match t
    case Silence => []
    case Told(before, last) => EffectsOf(before) + [last]
  }

  /** The monitor after watching a sequence of effects from the start. */
  function Watch(es: seq<Effect>, limit: nat): Monitor {
    if es == [] then QUIET else Judged(Watch(es[..|es| - 1], limit), es[|es| - 1], limit)
  }

  function Length(t: Trace): nat {
    if t.Silence? then 0 else Length(t.before) + 1
  }

  /** The monitor is what watching its own trace gives. */
  ghost predicate Recorded(m: Monitor, limit: nat) {
    RecordedUnder(m, limit, Length(m.trace) + 3)
  }

  /** The same, under a number of wraps that keeps proofs from unfolding it where they need not. */
  ghost predicate RecordedUnder(m: Monitor, limit: nat, wraps: nat) {
    if wraps == 0 then m == Watch(EffectsOf(m.trace), limit) else RecordedUnder(m, limit, wraps - 1)
  }

  lemma {:induction false} Unwrapped(m: Monitor, limit: nat, wraps: nat)
    ensures RecordedUnder(m, limit, wraps) <==> m == Watch(EffectsOf(m.trace), limit)
    decreases wraps
  {
    if wraps > 0 { Unwrapped(m, limit, wraps - 1); }
  }

  lemma JudgedIsTold(m: Monitor, e: Effect, limit: nat)
    ensures Judged(m, e, limit).trace == Told(m.trace, e)
  {
  }

  lemma WatchNext(es: seq<Effect>, e: Effect, limit: nat)
    ensures Watch(es + [e], limit) == Judged(Watch(es, limit), e, limit)
  {
    assert (es + [e])[..|es|] == es;
  }

  lemma JudgedIsRecorded(m: Monitor, e: Effect, limit: nat)
    ensures Recorded(m, limit) ==> Recorded(Judged(m, e, limit), limit)
  {
    if Recorded(m, limit) {
      JudgedIsTold(m, e, limit);
      RecordedIsWatched(m, limit);
      WatchNext(EffectsOf(m.trace), e, limit);
      NextIsRecorded(Judged(m, e, limit), limit, m.trace, e);
    }
  }

  lemma NextIsRecorded(r: Monitor, limit: nat, t: Trace, e: Effect)
    requires r.trace == Told(t, e) && r == Watch(EffectsOf(t) + [e], limit)
    ensures Recorded(r, limit)
  {
    Unwrapped(r, limit, Length(r.trace) + 3);
  }

  lemma RecordedIsWatched(m: Monitor, limit: nat)
    requires Recorded(m, limit)
    ensures m == Watch(EffectsOf(m.trace), limit)
  {
    Unwrapped(m, limit, Length(m.trace) + 3);
  }

  lemma QuietIsRecorded(limit: nat)
    ensures Recorded(QUIET, limit)
  {
    Unwrapped(QUIET, limit, 3);
  }
}
