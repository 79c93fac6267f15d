/**
 Any number of adapter processes on one channel: they share the durable record, the channel
 lock, the outbox and the provider children, and nothing else. A run is a list of events;
 an event is one segment of one adapter, one effect of an awaited operation, a crash, an
 exit of a child, or a step of an operator's recovery command.
 */
module DurableTurns {

  import opened Options
  import opened AcpServer
  import R = SessionRecord

  type Aid = nat

  /** Which entry created the block now on disk. A history variable: steps write it, none reads it. */
  datatype Blame = Nobody | Mine(aid: Aid, sid: Sid) | Orphan

  datatype World = World(
    rec: R.Record,
    lock: Option<Aid>,
    outbox: map<Rid, Delivery>,
    retrying: set<Rid>,
    live: set<Child>,
    nextChild: Child,
    blame: Blame)

  datatype Sys = Sys(w: World, ads: map<Aid, Memory>, outboxOn: bool)

  /** Winning the channel: up to the first load of the record. */
  datatype GateAct =
    | Acquires | Fails | ScopeDone | CancelLoadDone | CancelScanDone | CancelRetireDone
    | SafeScanDone | ReplaceScanDone | ReplaceRetireDone

  /** Opening the record and blocking it again. */
  datatype RecordAct =
    | LoadOpen(built: bool) | LoadBlocked | ReconcileDone | ReconcileFault | RereadOpen(built: bool) | RereadFault
    | InspectDone | InvalidateDone | InvalidateFault | StartDone | ReleaseDone(ok: bool)

  /** Running the provider and delivering its answer. */
  datatype RunAct =
    | Spawns | Inits(conv: Conv) | AnswerDone | Abandons | RetireDone | StageDone | StageFault
    | BeginDone(rid: Rid) | BeginFault(rid: Rid) | PublishDone(outcome: Delivery) | UpdateDone | UpdateFault
    | SaveDone | SaveFault

  datatype Act = Prompts | Cancels | Gate(gate: GateAct) | Rec(record: RecordAct) | Run(run: RunAct)

  datatype Event =
    | Step(aid: Aid, sid: Sid, act: Act)
    | NewAdapter(aid: Aid)
    | OpenSession(aid: Aid, sid: Sid)
    | CloseStarts(aid: Aid)
    | CloseEnds(aid: Aid)
    | Crash(aid: Aid)
    | ChildExit(child: Child)
    | RetryClaims(rid: Rid)
    | RetryEnds(rid: Rid, outcome: Delivery)
    | RetryDies(rid: Rid)
    | Archive(rid: Rid)

  predicate Settled(outbox: map<Rid, Delivery>) {
    forall r | r in outbox :: outbox[r].Sent?
  }

  predicate SettledBut(outbox: map<Rid, Delivery>, rid: Option<Rid>) {
    forall r | r in outbox :: outbox[r].Sent? || Some(r) == rid
  }

  /** The last child of a session exists and has closed. */
  predicate ChildGone(w: World, p: Provider) {
    p.last.Some? && p.last.value !in w.live
  }

  const INITIAL: World := World(R.Absent, None, map[], {}, {}, 0, Nobody)

  // ---- When an event can happen ----

  predicate CanGate(w: World, on: bool, a: Aid, m: Memory, x: Sid, act: GateAct)
    requires WellFormed(m) && x in m.turns
  {
    var t := m.turns[x];
    match act
    case Acquires => (t.pc.Loading? || t.pc.CancelLoad?) && w.lock.None?
    case Fails => Preflight(t.pc) && !t.pc.Rereading?
    case ScopeDone => t.pc.Scoping?
    case CancelLoadDone => t.pc.CancelLoad? && w.lock == Some(a) && w.rec.Blocked?
    case CancelScanDone => t.pc.CancelScan? && on && Settled(w.outbox)
    case CancelRetireDone => t.pc.CancelRetire? && ChildGone(w, m.entries[t.existing.value].provider)
    case SafeScanDone => t.pc.SafeScan? && on && Settled(w.outbox)
    case ReplaceScanDone => t.pc.ReplaceScan? && on && Settled(w.outbox)
    case ReplaceRetireDone => t.pc.ReplaceRetire? && ChildGone(w, m.entries[x].provider)
  }

  predicate CanRecord(w: World, a: Aid, m: Memory, x: Sid, act: RecordAct)
    requires WellFormed(m) && x in m.turns
  {
    var t := m.turns[x];
    var owns := w.lock == Some(a);
    match act
    case LoadOpen(_) => t.pc.Loading? && owns && !w.rec.Blocked?
    case LoadBlocked => t.pc.Loading? && owns && w.rec.Blocked?
    case ReconcileDone => t.pc.Reconciling? && owns && w.rec.Blocked?
    case ReconcileFault => t.pc.Reconciling? && owns && w.rec.Blocked?
    case RereadOpen(_) => t.pc.Rereading? && owns && !w.rec.Blocked?
    case RereadFault => t.pc.Rereading?
    case InspectDone => t.pc.Inspecting?
    case InvalidateDone => t.pc.Invalidating? && owns
    case InvalidateFault => t.pc.Invalidating? && owns
    case StartDone => t.pc.Starting?
    case ReleaseDone(_) => t.pc.Releasing? && owns
  }

  predicate CanRun(w: World, on: bool, a: Aid, m: Memory, x: Sid, act: RunAct)
    requires WellFormed(m) && x in m.turns
  {
    var t := m.turns[x];
    var p := m.entries[x].provider;
    match act
    case Spawns => t.pc.Running? && !p.closed && (p.last.Some? ==> p.last.value !in w.live)
    case Inits(_) => t.pc.Running?
    case AnswerDone => t.pc.Running? && p.last.Some? && p.conv.Some?
    case Abandons => Started(t.pc)
    case RetireDone => t.pc.Retiring? && ChildGone(w, p)
    case StageDone => t.pc.Staging? && w.lock == Some(a) && w.rec.Blocked? && p.conv.Some?
    case StageFault => t.pc.Staging? && w.lock == Some(a) && w.rec.Blocked? && p.conv.Some?
    case BeginDone(r) => t.pc.Beginning? && r !in w.outbox
    case BeginFault(r) => t.pc.Beginning? && on && r !in w.outbox
    case PublishDone(outcome) => t.pc.Publishing? && !outcome.Inflight?
    case UpdateDone => t.pc.Updating? && t.rid.Some? && t.rid.value in w.outbox && w.outbox[t.rid.value].Inflight?
    case UpdateFault => t.pc.Updating? && t.rid.Some? && t.rid.value in w.outbox && w.outbox[t.rid.value].Inflight?
    case SaveDone => t.pc.Saving? && w.lock == Some(a) && t.staged.Some?
    case SaveFault => t.pc.Saving? && w.lock == Some(a) && t.staged.Some?
  }

  predicate CanAct(w: World, on: bool, a: Aid, m: Memory, x: Sid, act: Act) {
    match act
    case Prompts => CanPrompt(m, x)
    case Cancels => x in m.entries && !m.closing
    case Gate(g) => WellFormed(m) && x in m.turns && CanGate(w, on, a, m, x, g)
    case Rec(r) => WellFormed(m) && x in m.turns && CanRecord(w, a, m, x, r)
    case Run(r) => WellFormed(m) && x in m.turns && CanRun(w, on, a, m, x, r)
  }

  // ---- What an adapter remembers, and what it does to the world ----

  function AfterGate(w: World, on: bool, a: Aid, m: Memory, x: Sid, act: GateAct): Memory
    requires WellFormed(m) && x in m.turns && CanGate(w, on, a, m, x, act)
  {
    var owns := w.lock == Some(a);
    match act
    case Acquires => m
    case Fails => Fail(m, x, owns)
    case ScopeDone => Scoped(m, x, owns)
    case CancelLoadDone => CancelLoaded(m, x, owns)
    case CancelScanDone => Go(m, x, CancelRetire)
    case CancelRetireDone => CancelRetired(m, x, owns)
    case SafeScanDone => SafeScanned(m, x, owns)
    case ReplaceScanDone => Go(m, x, ReplaceRetire)
    case ReplaceRetireDone => ReplaceRetired(m, x)
  }

  function AfterRecord(w: World, a: Aid, m: Memory, x: Sid, act: RecordAct): Memory
    requires WellFormed(m) && x in m.turns && CanRecord(w, a, m, x, act)
  {
    var owns := w.lock == Some(a);
    match act
    case LoadOpen(built) => Open(m, x, owns, R.IdOf(w.rec), built)
    case LoadBlocked => LoadedBlocked(m, x)
    case ReconcileDone => Reconciled(m, x, R.IdOf(w.rec))
    case ReconcileFault => Fail(m, x, owns)
    case RereadOpen(built) => Open(m, x, owns, R.IdOf(w.rec), built)
    case RereadFault => Fail(m, x, owns)
    case InspectDone => Go(m, x, Invalidating)
    case InvalidateDone => Invalidated(m, x)
    case InvalidateFault => Fail(m, x, owns)
    case StartDone => Start(m, x, owns)
    case ReleaseDone(ok) => Released(m, x, ok)
  }

  function AfterRun(w: World, on: bool, a: Aid, m: Memory, x: Sid, act: RunAct): Memory
    requires WellFormed(m) && x in m.turns && CanRun(w, on, a, m, x, act)
  {
    match act
    case Spawns => Spawned(m, x, w.nextChild)
    case Inits(conv) => Initialised(m, x, conv)
    case AnswerDone => Go(m, x, Retiring)
    case Abandons => SettleUnsafe(m, x)
    case RetireDone => Retired(m, x)
    case StageDone => Staged(m, x, m.entries[x].provider.conv.value)
    case StageFault => SettleUnsafe(m, x)
    case BeginDone(r) => Begun(m, x, if on then Some(r) else None)
    case BeginFault(_) => SettleUnsafe(m, x)
    case PublishDone(outcome) => Published(m, x, outcome)
    case UpdateDone => Decide(m, x, m.turns[x].outcome)
    case UpdateFault => SettleUnsafe(m, x)
    case SaveDone => Saved(m, x)
    case SaveFault => SettleUnsafe(m, x)
  }

  function Remember(w: World, on: bool, a: Aid, m: Memory, x: Sid, act: Act): Memory
    requires CanAct(w, on, a, m, x, act)
  {
    match act
    case Prompts => Prompt(m, x, w.lock == Some(a))
    case Cancels => Cancel(m, x)
    case Gate(g) => AfterGate(w, on, a, m, x, g)
    case Rec(r) => AfterRecord(w, a, m, x, r)
    case Run(r) => AfterRun(w, on, a, m, x, r)
  }

  function Touch(w: World, on: bool, a: Aid, m: Memory, x: Sid, act: Act): World
    requires CanAct(w, on, a, m, x, act)
  {
    match act
    case Prompts => w
    case Cancels => w
    case Gate(g) => if g.Acquires? then w.(lock := Some(a)) else w
    case Rec(r) => TouchRecord(w, a, x, r)
    case Run(r) => TouchRun(w, on, m, x, r)
  }

  function TouchRecord(w: World, a: Aid, x: Sid, act: RecordAct): World {
    match act
    case ReconcileDone => w.(rec := R.Reconcile(w.rec), blame := Nobody)
    case ReconcileFault => w.(rec := R.Reconcile(w.rec), blame := Nobody)
    case InvalidateDone => w.(rec := R.Invalidate(w.rec), blame := Mine(a, x))
    case InvalidateFault => w.(rec := R.Invalidate(w.rec), blame := Orphan)
    case ReleaseDone(ok) => if ok then w.(lock := None) else w
    case _ => w
  }

  function TouchRun(w: World, on: bool, m: Memory, x: Sid, act: RunAct): World
    requires WellFormed(m) && x in m.turns
    requires act.UpdateDone? || act.UpdateFault? ==> m.turns[x].rid.Some?
    requires act.SaveDone? || act.SaveFault? ==> m.turns[x].staged.Some?
  {
    match act
    case Spawns => w.(live := w.live + {w.nextChild}, nextChild := w.nextChild + 1)
    case StageDone => w.(rec := R.Blocked(m.entries[x].provider.conv))
    case StageFault => w.(rec := R.Blocked(m.entries[x].provider.conv))
    case BeginDone(r) => if on then w.(outbox := w.outbox[r := Inflight]) else w
    case BeginFault(r) => w.(outbox := w.outbox[r := Inflight])
    case UpdateDone => w.(outbox := w.outbox[m.turns[x].rid.value := m.turns[x].outcome])
    case UpdateFault => w.(outbox := w.outbox[m.turns[x].rid.value := m.turns[x].outcome])
    case SaveDone => w.(rec := R.Ready(m.turns[x].staged.value), blame := Nobody)
    case SaveFault => w.(rec := R.Ready(m.turns[x].staged.value), blame := Nobody)
    case _ => w
  }

  predicate AllGone(w: World, m: Memory) {
    forall x | x in m.entries && m.entries[x].provider.last.Some? :: m.entries[x].provider.last.value !in w.live
  }

  predicate Enabled(s: Sys, e: Event) {
    match e
    case Step(a, x, act) => a in s.ads && CanAct(s.w, s.outboxOn, a, s.ads[a], x, act)
    case NewAdapter(a) => a !in s.ads
    case OpenSession(a, x) => a in s.ads && !s.ads[a].closing && x !in s.ads[a].entries
    case CloseStarts(a) => a in s.ads
    case CloseEnds(a) => a in s.ads && s.ads[a].closing && s.ads[a].turns == map[] && AllGone(s.w, s.ads[a])
    case Crash(a) => a in s.ads
    case ChildExit(c) => c in s.w.live
    case RetryClaims(r) => r in s.w.outbox && s.w.outbox[r].FailedBeforeStart?
    case RetryEnds(r, outcome) => r in s.w.retrying && r in s.w.outbox && s.w.outbox[r].Uncertain? && !outcome.Inflight?
    case RetryDies(r) => r in s.w.retrying
    case Archive(r) => r in s.w.outbox && s.w.outbox[r].Sent?
  }

  /** What a process that is gone leaves: its lock is free, its block has no owner, its children go on. */
  function Abandoned(w: World, a: Aid): World {
    w.(lock := if w.lock == Some(a) then None else w.lock,
       blame := if w.blame.Mine? && w.blame.aid == a then Orphan else w.blame)
  }

  function Gone(s: Sys, a: Aid): Sys {
    s.(w := Abandoned(s.w, a), ads := s.ads - {a})
  }

  function Apply(s: Sys, e: Event): Sys
    requires Enabled(s, e)
  {
    match e
    case Step(a, x, act) =>
      s.(w := Touch(s.w, s.outboxOn, a, s.ads[a], x, act),
         ads := s.ads[a := Remember(s.w, s.outboxOn, a, s.ads[a], x, act)])
    case NewAdapter(a) => s.(ads := s.ads[a := EMPTY_MEMORY])
    case OpenSession(a, x) => s.(ads := s.ads[a := NewSession(s.ads[a], x)])
    case CloseStarts(a) => s.(ads := s.ads[a := Close(s.ads[a])])
    case CloseEnds(a) => Gone(s, a)
    case Crash(a) => Gone(s, a)
    case ChildExit(c) => s.(w := s.w.(live := s.w.live - {c}))
    case RetryClaims(r) => s.(w := s.w.(outbox := s.w.outbox[r := Uncertain], retrying := s.w.retrying + {r}))
    case RetryEnds(r, outcome) => s.(w := s.w.(outbox := s.w.outbox[r := outcome], retrying := s.w.retrying - {r}))
    case RetryDies(r) => s.(w := s.w.(retrying := s.w.retrying - {r}))
    case Archive(r) => s.(w := s.w.(outbox := s.w.outbox - {r}))
  }
}
