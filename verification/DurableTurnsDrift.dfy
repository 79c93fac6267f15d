/**
 A recorded conversation id is never lost, but it can be replaced by another one. A session
 that is bound already does not take the saved id again: as long as no session that is bound
 elsewhere opens the record the id stays, and once one does its turn can replace the id.
 A run in which that happens is put together at the end.
 */
module DurableTurnsDrift {

  import opened Options
  import opened AcpServer
  import opened DurableTurns
  import opened DurableTurnsDelivery
  import opened DurableTurnsInvariant
  import opened DurableTurnsSafety
  import opened DurableTurnsScenes
  import R = SessionRecord

  // ---- The exact conditions ----

  /** The event stages a checkpoint of another conversation than the recorded one. */
  predicate Replaces(s: Sys, e: Event) {
    && e.Step? && e.aid in s.ads && e.sid in s.ads[e.aid].entries
    && e.act.Run? && (e.act.run.StageDone? || e.act.run.StageFault?)
    && s.ads[e.aid].entries[e.sid].provider.conv != R.IdOf(s.w.rec)
  }

  /** A recorded id changes in an event exactly when that event stages another conversation. */
  lemma IdChangesIff(s: Sys, e: Event)
    requires Inv(s) && Enabled(s, e) && R.IdOf(s.w.rec).Some?
    ensures R.IdOf(Apply(s, e).w.rec) != R.IdOf(s.w.rec) <==> Replaces(s, e)
  {
    if e.Step? {
      var m := s.ads[e.aid];
      match e.act
      case Rec(r) => RecordKeepsId(s.w, e.aid, e.sid, r);
      case Run(r) => RunKeepsIdUnless(s.w, s.outboxOn, e.aid, m, e.sid, r);
      case _ =>
    }
  }

  lemma RecordKeepsId(w: World, a: Aid, x: Sid, act: RecordAct)
    requires R.IdOf(w.rec).Some?
    ensures R.IdOf(TouchRecord(w, a, x, act).rec) == R.IdOf(w.rec)
  {
  }

  lemma RunKeepsIdUnless(w: World, on: bool, a: Aid, m: Memory, x: Sid, act: RunAct)
    requires MemoryOk(w, a, m) && CanAct(w, on, a, m, x, Run(act))
    ensures R.IdOf(TouchRun(w, on, m, x, act).rec) != R.IdOf(w.rec) <==>
            (act.StageDone? || act.StageFault?) && m.entries[x].provider.conv != R.IdOf(w.rec)
  {
    assert TurnOk(w, a, m, x);
  }

  /** From the open record to the staged checkpoint. */
  predicate Onward(pc: Pc) {
    pc.Inspecting? || pc.Invalidating? || pc.Starting? || pc.Running? || pc.Retiring? || pc.Staging?
  }

  /** Every turn that has opened the record goes on with the recorded conversation. */
  predicate Follows(w: World, m: Memory) {
    forall x | x in m.turns && x in m.entries && Onward(m.turns[x].pc) && R.IdOf(w.rec).Some? ::
      m.entries[x].provider.conv == R.IdOf(w.rec)
  }

  predicate AllFollow(s: Sys) {
    forall a | a in s.ads :: Follows(s.w, s.ads[a])
  }

  /** The event opens the record for a session that is bound already, to another conversation or to none. */
  predicate BoundElsewhere(s: Sys, e: Event) {
    && e.Step? && e.aid in s.ads && e.sid in s.ads[e.aid].entries
    && e.act.Rec? && (e.act.record.LoadOpen? || e.act.record.RereadOpen?)
    && var en := s.ads[e.aid].entries[e.sid];
       en.bound && !en.needsReplacement && en.provider.conv != R.IdOf(s.w.rec)
  }

  predicate Alone(m: Memory, x: Sid) {
    WellFormed(m) && m.turns.Keys == {x}
  }

  /** No turn has opened the record. */
  predicate Before(m: Memory) {
    forall z | z in m.turns :: !Onward(m.turns[z].pc)
  }

  lemma FailIsBefore(m: Memory, x: Sid, owns: bool)
    requires Alone(m, x)
    ensures Before(Fail(m, x, owns))
  {
  }

  lemma TurnIsBefore(m: Memory, x: Sid, t: Turn)
    requires m.turns.Keys == {x} && !Onward(t.pc)
    ensures Before(WithTurn(m, x, t))
  {
  }

  lemma GoIsBefore(m: Memory, x: Sid, pc: Pc)
    requires m.turns.Keys == {x} && !Onward(pc)
    ensures Before(Go(m, x, pc))
  {
    TurnIsBefore(m, x, m.turns[x].(pc := pc));
  }

  lemma TakePinIsBefore(m: Memory, x: Sid, owns: bool)
    requires Alone(m, x)
    ensures Before(TakePin(m, x, owns))
  {
    var m1 := m.(pin := Some(x));
    assert Alone(m1, x);
    if !m.entries[x].needsReplacement {
      GoIsBefore(m1, x, Loading);
    } else if m.liveBlock || Busy(m, x) {
      FailIsBefore(m1, x, owns);
    } else {
      GoIsBefore(m1, x, ReplaceScan);
    }
  }

  lemma ScopedIsBefore(m: Memory, x: Sid, owns: bool)
    requires Alone(m, x) && At(m, x, Scoping)
    ensures Before(Scoped(m, x, owns))
  {
    if m.pin.Some? && m.pin.value != x {
      var t := m.turns[x].(existing := m.pin);
      FailIsBefore(m, x, owns);
      TurnIsBefore(m, x, t.(pc := CancelLoad));
      TurnIsBefore(m, x, t.(pc := SafeScan));
    } else {
      TakePinIsBefore(m, x, owns);
    }
  }

  lemma CancelRetiredIsBefore(m: Memory, x: Sid, owns: bool)
    requires Alone(m, x) && At(m, x, CancelRetire)
    ensures Before(CancelRetired(m, x, owns))
  {
    var y := m.turns[x].existing.value;
    var m1 := WithEntry(m, y, m.entries[y].(provider := m.entries[y].provider.(closed := true)));
    TakePinIsBefore(WithTurn(m1, x, m.turns[x].(cancelTransfer := true, retired := true, from := Some(y))), x, owns);
  }

  lemma SafeScannedIsBefore(m: Memory, x: Sid, owns: bool)
    requires Alone(m, x) && At(m, x, SafeScan)
    ensures Before(SafeScanned(m, x, owns))
  {
    TakePinIsBefore(WithTurn(m, x, m.turns[x].(from := m.turns[x].existing)), x, owns);
  }

  lemma GateIsBefore(w: World, on: bool, a: Aid, m: Memory, x: Sid, act: GateAct)
    requires Alone(m, x) && CanGate(w, on, a, m, x, act)
    ensures Before(AfterGate(w, on, a, m, x, act))
  {
    var owns := w.lock == Some(a);
    match act
    case Acquires =>
    case Fails => FailIsBefore(m, x, owns);
    case ScopeDone => ScopedIsBefore(m, x, owns);
    case CancelLoadDone => FailIsBefore(m, x, owns);
    case CancelScanDone =>
    case CancelRetireDone => CancelRetiredIsBefore(m, x, owns);
    case SafeScanDone => SafeScannedIsBefore(m, x, owns);
    case ReplaceScanDone =>
    case ReplaceRetireDone =>
  }

  predicate Ready(e: Entry, saved: Option<Conv>) {
    e.bound && !e.needsReplacement && saved.Some? ==> e.provider.conv == saved
  }

  lemma AttachFollows(w: World, m: Memory, x: Sid, owns: bool)
    requires Alone(m, x) && (m.entries[x].bound && R.IdOf(w.rec).Some? ==> m.entries[x].provider.conv == R.IdOf(w.rec))
    ensures Follows(w, Attach(m, x, owns, R.IdOf(w.rec)))
  {
    FailIsBefore(m, x, owns);
  }

  lemma CommitFacts(m: Memory, x: Sid)
    requires Alone(m, x)
    ensures Alone(Commit(m, x), x) && Commit(m, x).entries[x] == m.entries[x].(blockMine := false)
  {
  }

  lemma BindFollows(w: World, m: Memory, x: Sid, owns: bool, built: bool)
    requires Alone(m, x) && Ready(m.entries[x], R.IdOf(w.rec))
    ensures Follows(w, Bind(m, x, owns, R.IdOf(w.rec), built))
  {
    FailIsBefore(m, x, owns);
    if !m.entries[x].needsReplacement || built {
      AttachFollows(w, WithEntry(m, x, Rebuilt(m.entries[x])), x, owns);
    }
  }

  lemma OpeningFollows(w: World, m: Memory, x: Sid, owns: bool, built: bool)
    requires Alone(m, x) && Ready(m.entries[x], R.IdOf(w.rec))
    ensures Follows(w, Open(m, x, owns, R.IdOf(w.rec), built))
  {
    FailIsBefore(m, x, owns);
    CommitFacts(m, x);
    BindFollows(w, Commit(m, x), x, owns, built);
  }

  /** The steps from the open record to the provider keep the record's id and the entry's. */
  lemma RecordFollows(w: World, a: Aid, m: Memory, x: Sid, act: RecordAct)
    requires Alone(m, x) && Follows(w, m) && CanRecord(w, a, m, x, act)
    requires act.LoadOpen? || act.RereadOpen? ==> Ready(m.entries[x], R.IdOf(w.rec))
    ensures Follows(TouchRecord(w, a, x, act), AfterRecord(w, a, m, x, act))
  {
    var owns := w.lock == Some(a);
    match act
    case LoadOpen(built) => OpeningFollows(w, m, x, owns, built);
    case RereadOpen(built) => OpeningFollows(w, m, x, owns, built);
    case LoadBlocked =>
      var t := m.turns[x];
      TurnIsBefore(m, x, t.(retired := true, pc := Reconciling));
      GoIsBefore(m, x, Refusing);
    case ReconcileFault => FailIsBefore(m, x, owns);
    case RereadFault => FailIsBefore(m, x, owns);
    case InvalidateFault => FailIsBefore(m, x, owns);
    case ReconcileDone =>
    case StartDone => FailIsBefore(m, x, owns);
    case InspectDone =>
    case InvalidateDone =>
    case ReleaseDone(ok) =>
  }

  lemma RunFollows(w: World, on: bool, a: Aid, m: Memory, x: Sid, act: RunAct)
    requires Alone(m, x) && Follows(w, m) && CanRun(w, on, a, m, x, act)
    requires act.UpdateDone? || act.UpdateFault? ==> m.turns[x].rid.Some?
    requires act.SaveDone? || act.SaveFault? ==> m.turns[x].staged.Some?
    ensures Follows(TouchRun(w, on, m, x, act), AfterRun(w, on, a, m, x, act))
  {
  }

  lemma StepFollows(w: World, on: bool, a: Aid, m: Memory, x: Sid, act: Act)
    requires MemoryOk(w, a, m) && Follows(w, m) && CanAct(w, on, a, m, x, act)
    requires act.Rec? && (act.record.LoadOpen? || act.record.RereadOpen?) ==> Ready(m.entries[x], R.IdOf(w.rec))
    ensures Follows(Touch(w, on, a, m, x, act), Remember(w, on, a, m, x, act))
  {
    if x in m.turns { assert Alone(m, x); }
    match act
    case Prompts =>
    case Cancels =>
    case Gate(g) => GateIsBefore(w, on, a, m, x, g);
    case Rec(r) => RecordFollows(w, a, m, x, r);
    case Run(r) => RunFollows(w, on, a, m, x, r);
  }

  /** Turns that follow the record hold the lock, so nobody else changes it under them. */
  lemma OthersFollow(w: World, w': World, b: Aid, n: Memory)
    requires MemoryOk(w, b, n) && Follows(w, n) && (w' == w || w.lock != Some(b))
    ensures Follows(w', n)
  {
    forall x | x in n.turns && x in n.entries && Onward(n.turns[x].pc) && R.IdOf(w'.rec).Some?
      ensures n.entries[x].provider.conv == R.IdOf(w'.rec)
    {
      assert TurnOk(w, b, n, x);
    }
  }

  lemma EventFollows(s: Sys, e: Event)
    requires Inv(s) && AllFollow(s) && Enabled(s, e) && !BoundElsewhere(s, e)
    ensures AllFollow(Apply(s, e))
  {
    if e.Step? {
      var s', m := Apply(s, e), s.ads[e.aid];
      StepFollows(s.w, s.outboxOn, e.aid, m, e.sid, e.act);
      forall b | b in s'.ads ensures Follows(s'.w, s'.ads[b]) {
        if b != e.aid {
          TouchIsElsewhere(s.w, s.outboxOn, e.aid, m, e.sid, e.act, b);
          OthersFollow(s.w, s'.w, b, s.ads[b]);
        }
      }
    }
  }

  /** A tolerated run in which no session that is bound elsewhere opens the record. */
  ghost predicate QuietPath(s: Sys, es: seq<Event>, t: Sys)
    decreases |es|
  {
    if es == [] then s == t
    else Enabled(s, es[0]) && Mild(s, es[0]) && !BoundElsewhere(s, es[0]) && QuietPath(Apply(s, es[0]), es[1..], t)
  }

  /** In such a run a recorded id never changes. */
  lemma {:induction false} IdStays(s: Sys, es: seq<Event>, t: Sys)
    requires Inv(s) && AllFollow(s) && QuietPath(s, es, t) && R.IdOf(s.w.rec).Some?
    ensures R.IdOf(t.w.rec) == R.IdOf(s.w.rec)
    decreases |es|
  {
    if es != [] {
      KeepEvent(s, es[0]);
      EventFollows(s, es[0]);
      IdChangesIff(s, es[0]);
      IdStays(Apply(s, es[0]), es[1..], t);
    }
  }

  lemma {:induction false} QuietKeeps(s: Sys, es: seq<Event>, t: Sys)
    requires Inv(s) && AllFollow(s) && QuietPath(s, es, t)
    ensures Inv(t) && AllFollow(t)
    decreases |es|
  {
    if es != [] {
      KeepEvent(s, es[0]);
      EventFollows(s, es[0]);
      QuietKeeps(Apply(s, es[0]), es[1..], t);
    }
  }

  /** From the start: once an id is recorded, it is the id until a session bound elsewhere opens the record. */
  lemma IdStaysFromStart(on: bool, es: seq<Event>, s: Sys, fs: seq<Event>, t: Sys)
    requires QuietPath(Start0(on), es, s) && QuietPath(s, fs, t) && R.IdOf(s.w.rec).Some?
    ensures R.IdOf(t.w.rec) == R.IdOf(s.w.rec)
  {
    QuietKeeps(Start0(on), es, s);
    IdStays(s, fs, t);
  }

  lemma InspectingIsScene(s: Sys, a: Aid, x: Sid)
    requires Inv(s) && a in s.ads && At(s.ads[a], x, Inspecting) && !s.ads[a].closing
    ensures var m := s.ads[a];
            Reached(s, [], s, a, Scene(m.entries, x, m.entries[x], m.turns[x], Some(x), m.liveBlock)) &&
            Proper(m.entries, x, m.turns[x], Some(x)) && s.w.lock == Some(a) && s.w.live == {}
  {
    var m := s.ads[a];
    assert TurnOk(s.w, a, m, x);
    assert m.turns == map[x := m.turns[x]];
    assert m.entries == m.entries[x := m.entries[x]];
    assert s.ads == s.ads[a := m];
    ReachedByRun(s, [], s, a, m);
  }

  /** And once such a session has opened it, its turn can replace the id. */
  lemma BoundElsewhereReplaces(s: Sys, a: Aid, x: Sid, conv: Conv) returns (es: seq<Event>, t: Sys)
    requires Inv(s) && a in s.ads && At(s.ads[a], x, Inspecting) && !s.ads[a].closing && !s.ads[a].turns[x].aborted
    requires !s.ads[a].entries[x].provider.closed && R.IdOf(s.w.rec).Some?
    requires s.ads[a].entries[x].provider.conv != R.IdOf(s.w.rec) && Some(conv) != R.IdOf(s.w.rec)
    ensures MildPath(s, es, t) && R.IdOf(t.w.rec).Some? && R.IdOf(t.w.rec) != R.IdOf(s.w.rec)
  {
    var m := s.ads[a];
    var e, turn := m.entries[x], m.turns[x];
    es, t := [], s;
    InspectingIsScene(s, a, x);
    es, t := Blocks(s, es, t, a, m.entries, x, e, turn, m.liveBlock);
    es, t := Restages(s, es, t, a, m.entries, x, e.(blockMine := true), turn.(pc := Starting), conv);
  }

  lemma Restages(s: Sys, es: seq<Event>, t: Sys, b: Aid, others: map<Sid, Entry>, x: Sid, e: Entry, turn: Turn,
                 conv: Conv)
    returns (fs: seq<Event>, u: Sys)
    requires Reached(s, es, t, b, Scene(others, x, e, turn, Some(x), true)) && Proper(others, x, turn, Some(x))
    requires turn.pc.Starting? && !turn.aborted && !e.provider.closed && t.w.live == {}
    requires t.w.lock == Some(b) && t.w.rec.Blocked?
    ensures MildPath(s, fs, u) && u.w.rec == R.Blocked(Some(e.provider.conv.GetOr(conv)))
  {
    var e1, turn1 := Answered(e, t.w.nextChild, conv), turn.(pc := Staging);
    AnsweredFacts(e, t.w.nextChild, conv);
    fs, u := Answers(s, es, t, b, others, x, e, turn, conv);
    fs, u := AwaitStage(s, fs, u, b, others, x, e1, turn1);
    ReachedByRun(s, fs, u, b, Scene(others, x, e1, turn1.(staged := e1.provider.conv, pc := Beginning), Some(x), true));
  }

  // ---- A run in which it happens ----

  // Session 0 runs without ever naming its conversation, is replaced, and fails again before
  // it blocks the record; session 1 then completes a turn, and session 0 takes over.

  /** Session 0 after its first turn: its provider ran, nothing is known of it. */
  const ABANDONED := Spawning(Attached(FRESH_ENTRY, None).(blockMine := true).(everStarted := true),
                              0).(needsReplacement := true)

  const RETIRED := ABANDONED.(provider := ABANDONED.provider.(closed := true))

  /** After its replacement: bound, although no record was there. */
  const BOUND := Attached(Rebuilt(RETIRED.(blockMine := false)), None)

  lemma BoundFacts()
    ensures BOUND.bound && BOUND.everStarted && BOUND.provider == FRESH_PROVIDER
    ensures !BOUND.needsReplacement && !BOUND.stateError && !BOUND.invalidated && !BOUND.cancelSettled
    ensures !BOUND.blockMine
    ensures RETIRED.needsReplacement && RETIRED.everStarted && ABANDONED.provider.last == Some(0)
    ensures ABANDONED.needsReplacement && !ABANDONED.stateError && !ABANDONED.invalidated && !ABANDONED.cancelSettled
  {
  }

  lemma AbandonsFirstTurn() returns (es: seq<Event>, t: Sys)
    ensures Reached(Start0(true), es, t, 0, Rest(map[][0 := ABANDONED], Some(0)))
    ensures t.w == World(R.Blocked(None), Some(0), map[], {}, {}, 1, Mine(0, 0))
  {
    var s := Start0(true);
    var e, turn := Attached(FRESH_ENTRY, None), FirstTurn(Inspecting, false);
    es, t := NewcomerReads(s, 0);
    es, t := Blocks(s, es, t, 0, map[], 0, e, turn);
    e, turn := e.(blockMine := true), turn.(pc := Starting);
    es, t := AwaitStart(s, es, t, 0, map[], 0, e, turn);
    e, turn := e.(everStarted := true), turn.(pc := Running);
    es, t := AwaitSpawn(s, es, t, 0, map[], 0, e, turn);
    es, t := Abandoned(s, es, t, 0, map[], 0, Spawning(e, 0), turn);
    es, t := ChildLeaves(s, es, t, 0, Rest(map[][0 := ABANDONED], Some(0)), 0);
    assert {} + {0} - {0} == {};
  }

  /** A turn that ends unsafely, without having been cancelled. */
  lemma Abandoned(s: Sys, es: seq<Event>, t: Sys, b: Aid, others: map<Sid, Entry>, x: Sid, e: Entry, turn: Turn)
    returns (fs: seq<Event>, u: Sys)
    requires Reached(s, es, t, b, Scene(others, x, e, turn, Some(x), true)) && Proper(others, x, turn, Some(x))
    requires Started(turn.pc) && !turn.aborted
    ensures Reached(s, fs, u, b, Rest(others[x := e.(needsReplacement := true)], Some(x))) && u.w == t.w
  {
    SceneIsWellFormed(others, x, e, turn, Some(x), true);
    SceneEntry(others, x, e, turn, Some(x), true, e.(needsReplacement := true));
    SceneEnds(others, x, turn);
    fs, u := Moves(s, es, t, b, Scene(others, x, e, turn, Some(x), true), x, Run(Abandons));
  }

  /** The replacement is scanned and retired. */
  lemma Retirement(s: Sys, es: seq<Event>, t: Sys, b: Aid, others: map<Sid, Entry>, x: Sid, e: Entry, turn: Turn)
    returns (fs: seq<Event>, u: Sys)
    requires Reached(s, es, t, b, Scene(others, x, e, turn, Some(x), false)) && Proper(others, x, turn, Some(x))
    requires turn.pc.ReplaceScan? && t.outboxOn && Settled(t.w.outbox) && ChildGone(t.w, e.provider)
    ensures Reached(s, fs, u, b, Scene(others, x, e.(provider := e.provider.(closed := true)),
                                       turn.(pc := ReplaceRetire).(retired := true, pc := Loading), Some(x), false))
    ensures u.w == t.w
  {
    var turn1 := turn.(pc := ReplaceRetire);
    SceneIsWellFormed(others, x, e, turn, Some(x), false);
    SceneTurns(others, x, e, turn, Some(x), false, turn1);
    fs, u := Moves(s, es, t, b, Scene(others, x, e, turn, Some(x), false), x, Gate(ReplaceScanDone));
    SceneIsWellFormed(others, x, e, turn1, Some(x), false);
    SceneEntry(others, x, e, turn1, Some(x), false, e.(provider := e.provider.(closed := true)));
    SceneTurns(others, x, e.(provider := e.provider.(closed := true)), turn1, Some(x), false,
               turn1.(retired := true, pc := Loading));
    fs, u := Moves(s, fs, u, b, Scene(others, x, e, turn1, Some(x), false), x, Gate(ReplaceRetireDone));
  }

  /** The block is removed with the retirement proof. */
  lemma Removal(s: Sys, es: seq<Event>, t: Sys, b: Aid, others: map<Sid, Entry>, x: Sid, e: Entry, turn: Turn)
    returns (fs: seq<Event>, u: Sys)
    requires Reached(s, es, t, b, Scene(others, x, e, turn, Some(x), false)) && Proper(others, x, turn, Some(x))
    requires turn.pc.Loading? && turn.retired && !turn.cancelTransfer && t.w.lock == Some(b)
    requires t.w.rec == R.Blocked(None)
    ensures Reached(s, fs, u, b, Scene(others, x, e, Removing(turn).(pc := Rereading), Some(x), false))
    ensures u.w == t.w.(rec := R.Absent, blame := Nobody)
  {
    SceneIsWellFormed(others, x, e, turn, Some(x), false);
    SceneTurns(others, x, e, turn, Some(x), false, Removing(turn));
    fs, u := Moves(s, es, t, b, Scene(others, x, e, turn, Some(x), false), x, Rec(LoadBlocked));
    SceneIsWellFormed(others, x, e, Removing(turn), Some(x), false);
    SceneTurns(others, x, e, Removing(turn), Some(x), false, Removing(turn).(pc := Rereading));
    fs, u := Moves(s, fs, u, b, Scene(others, x, e, Removing(turn), Some(x), false), x, Rec(ReconcileDone));
  }

  function Removing(turn: Turn): Turn {
    turn.(retired := true, pc := Reconciling)
  }

  /** The session is rebuilt and bound to no conversation; then its preflight fails and the pin goes. */
  lemma RebuiltAndFails(s: Sys, es: seq<Event>, t: Sys, b: Aid, others: map<Sid, Entry>, x: Sid, e: Entry, turn: Turn)
    returns (fs: seq<Event>, u: Sys)
    requires Reached(s, es, t, b, Scene(others, x, e, turn, Some(x), false)) && Proper(others, x, turn, Some(x))
    requires turn.pc.Rereading? && turn.from.None? && !turn.committed && turn.ownedBefore
    requires e.needsReplacement && !e.stateError && t.w.lock == Some(b) && t.w.rec.Absent?
    ensures Reached(s, fs, u, b, Rest(others[x := Attached(Rebuilt(e.(blockMine := false)), None)], None)) && u.w == t.w
  {
    var e' := Attached(Rebuilt(e.(blockMine := false)), None);
    SceneRebuilds(others, x, e, turn);
    fs, u := Moves(s, es, t, b, Scene(others, x, e, turn, Some(x), false), x, Rec(RereadOpen(true)));
    SceneIsWellFormed(others, x, e', turn.(pc := Inspecting), Some(x), false);
    SceneEnds(others, x, turn.(pc := Inspecting));
    fs, u := Moves(s, fs, u, b, Scene(others, x, e', turn.(pc := Inspecting), Some(x), false), x, Gate(Fails));
  }

  lemma SceneRebuilds(others: map<Sid, Entry>, x: Sid, e: Entry, turn: Turn)
    requires Proper(others, x, turn, Some(x)) && turn.from.None? && e.needsReplacement
    ensures var m := Scene(others, x, e, turn, Some(x), false);
            WellFormed(m) && Open(m, x, true, None, true) ==
            Scene(others, x, Attached(Rebuilt(e.(blockMine := false)), None), turn.(pc := Inspecting), Some(x), false)
  {
    var e1 := e.(blockMine := false);
    var e2 := Rebuilt(e1);
    SceneIsWellFormed(others, x, e, turn, Some(x), false);
    SceneEntry(others, x, e, turn, Some(x), false, e1);
    assert Commit(Scene(others, x, e, turn, Some(x), false), x) == Scene(others, x, e1, turn, Some(x), false);
    SceneIsWellFormed(others, x, e1, turn, Some(x), false);
    SceneEntry(others, x, e1, turn, Some(x), false, e2);
    SceneEntry(others, x, e2, turn, Some(x), false, Attached(e2, None));
    SceneTurns(others, x, Attached(e2, None), turn, Some(x), false, turn.(pc := Inspecting));
  }

  /** The failed replacement: session 0 is bound, the record is absent, the channel is nobody's and the lock is held. */
  lemma SecondPromptFails() returns (es: seq<Event>, t: Sys)
    ensures Reached(Start0(true), es, t, 0, Rest(map[][0 := BOUND], None))
    ensures t.w == World(R.Absent, Some(0), map[], {}, {}, 1, Nobody)
  {
    var s := Start0(true);
    BoundFacts();
    es, t := AbandonsFirstTurn();
    es, t := AwaitPrompt(s, es, t, 0, map[], 0, ABANDONED, Some(0));
    es, t := AwaitScope(s, es, t, 0, map[], 0, ABANDONED, FirstTurn(Scoping, true), Some(0));
    var turn := FirstTurn(Scoping, true).(pc := ReplaceScan);
    es, t := Retirement(s, es, t, 0, map[], 0, ABANDONED, turn);
    turn := turn.(pc := ReplaceRetire).(retired := true, pc := Loading);
    es, t := Removal(s, es, t, 0, map[], 0, RETIRED, turn);
    es, t := RebuiltAndFails(s, es, t, 0, map[], 0, RETIRED, Removing(turn).(pc := Rereading));
  }

  /** Session 1 after its turn, which named conversation 1. */
  const DELIVERED := Checkpointed(Answered(OpenedEntry(FRESH_ENTRY, None).(blockMine := true), 1, 1))

  lemma DeliveredFacts()
    ensures DELIVERED.safeToTransfer && !DELIVERED.needsReplacement && !DELIVERED.invalidated && !DELIVERED.stateError
    ensures !DELIVERED.cancelSettled
  {
  }

  /** Session 1 completes a turn in conversation 1. */
  lemma OtherSessionDelivers() returns (es: seq<Event>, t: Sys)
    ensures Reached(Start0(true), es, t, 0, Rest(map[0 := BOUND][1 := DELIVERED], Some(1)))
    ensures t.w.rec == R.Ready(1) && t.w.lock == Some(0) && t.w.live == {}
    ensures t.w.outbox == map[][0 := Sent] && t.w.nextChild == 2
  {
    var s := Start0(true);
    var others := map[0 := BOUND];
    es, t := SecondPromptFails();
    assert map[][0 := BOUND] == others;
    es, t := SessionOpens(s, es, t, 0, Rest(others, None), 1);
    assert NewSession(Rest(others, None), 1) == Rest(others[1 := FRESH_ENTRY], None);
    es, t := AwaitPrompt(s, es, t, 0, others, 1, FRESH_ENTRY, None);
    es, t := AwaitScope(s, es, t, 0, others, 1, FRESH_ENTRY, FirstTurn(Scoping, true), None);
    es, t := AwaitLoad(s, es, t, 0, others, 1, FRESH_ENTRY, FirstTurn(Loading, true));
    var e, turn := OpenedEntry(FRESH_ENTRY, None), FirstTurn(Loading, true).(pc := Inspecting);
    es, t := Blocks(s, es, t, 0, others, 1, e, turn);
    es, t := Completes(s, es, t, 0, others, 1, e.(blockMine := true), turn.(pc := Starting), 1, 0);
  }

  /** The turn that takes over from a settled owner, up to its load. */
  function Taking(y: Sid): Turn {
    FirstTurn(Scoping, true).(existing := Some(y)).(pc := SafeScan).(from := Some(y)).(pc := Loading)
  }

  /** The channel passes from session 1 to session 0 without a retirement. */
  lemma TakesOver(s: Sys, es: seq<Event>, t: Sys, b: Aid, others: map<Sid, Entry>, x: Sid, e: Entry, y: Sid)
    returns (fs: seq<Event>, u: Sys)
    requires Reached(s, es, t, b, Scene(others, x, e, FirstTurn(Scoping, true), Some(y), false))
    requires y in others && y != x && others[y].safeToTransfer && !others[y].needsReplacement
    requires !others[y].invalidated && !others[y].stateError && !e.needsReplacement && t.outboxOn && Settled(t.w.outbox)
    ensures Reached(s, fs, u, b, Scene(others, x, e, Taking(y), Some(x), false)) && u.w == t.w
  {
    var turn := FirstTurn(Scoping, true);
    var turn1 := turn.(existing := Some(y)).(pc := SafeScan);
    var turn2 := turn1.(from := Some(y));
    SceneIsWellFormed(others, x, e, turn, Some(y), false);
    SceneTurns(others, x, e, turn, Some(y), false, turn1);
    fs, u := Moves(s, es, t, b, Scene(others, x, e, turn, Some(y), false), x, Gate(ScopeDone));
    SceneIsWellFormed(others, x, e, turn1, Some(y), false);
    SceneTurns(others, x, e, turn1, Some(y), false, turn2);
    SceneTurns(others, x, e, turn2, Some(x), false, turn2.(pc := Loading));
    fs, u := Moves(s, fs, u, b, Scene(others, x, e, turn1, Some(y), false), x, Gate(SafeScanDone));
  }

  function Displacing(e: Entry): Entry {
    e.(safeToTransfer := false, invalidated := true, cancelSettled := false)
  }

  /** A bound session commits the transfer and does not look at the saved conversation. */
  lemma SceneCommits(others: map<Sid, Entry>, x: Sid, e: Entry, turn: Turn, y: Sid, saved: Conv)
    requires y in others && y != x && turn.from == Some(y) && turn.existing == Some(y) && e.bound && !e.needsReplacement
    ensures var m := Scene(others, x, e, turn, Some(x), false);
            WellFormed(m) && Open(m, x, true, Some(saved), true) ==
            Scene(others[y := Displacing(others[y])], x, e.(blockMine := false),
                  turn.(committed := true).(pc := Inspecting), Some(x), false)
  {
    var others' := others[y := Displacing(others[y])];
    var e1, turn1 := e.(blockMine := false), turn.(committed := true);
    SceneIsWellFormed(others, x, e, turn, Some(x), false);
    var m := Scene(others, x, e, turn, Some(x), false);
    assert m.entries[y] == others[y];
    assert m.entries[y := Displacing(others[y])] == others'[x := e];
    SceneTurns(others', x, e, turn, Some(x), false, turn1);
    SceneEntry(others', x, e, turn1, Some(x), false, e1);
    assert Commit(m, x) == Scene(others', x, e1, turn1, Some(x), false);
    SceneIsWellFormed(others', x, e1, turn1, Some(x), false);
    SceneBinds(others', x, e1, turn1, true, Some(saved));
  }

  /** From a channel recorded as conversation 1, session 0 completes a turn in conversation 2. */
  lemma BoundSessionDelivers(s: Sys) returns (es: seq<Event>, t: Sys)
    requires 0 in s.ads && s.ads[0] == Rest(map[0 := BOUND][1 := DELIVERED], Some(1)) && s.outboxOn
    requires s.w.rec == R.Ready(1) && s.w.lock == Some(0) && s.w.live == {} && s.w.outbox == map[][0 := Sent]
    ensures MildPath(s, es, t) && t.w.rec == R.Ready(2)
  {
    var others := map[1 := DELIVERED];
    BoundFacts();
    DeliveredFacts();
    assert map[0 := BOUND][1 := DELIVERED] == others[0 := BOUND];
    assert s.ads == s.ads[0 := Rest(others[0 := BOUND], Some(1))];
    es, t := [], s;
    ReachedByRun(s, es, t, 0, Rest(others[0 := BOUND], Some(1)));
    es, t := AwaitPrompt(s, es, t, 0, others, 0, BOUND, Some(1));
    es, t := TakesOver(s, es, t, 0, others, 0, BOUND, 1);
    SceneCommits(others, 0, BOUND, Taking(1), 1, 1);
    es, t := Moves(s, es, t, 0, Scene(others, 0, BOUND, Taking(1), Some(0), false), 0, Rec(LoadOpen(true)));
    es, t := Finishes(s, es, t, others[1 := Displacing(DELIVERED)], Taking(1).(committed := true).(pc := Inspecting));
  }

  lemma Finishes(s: Sys, es: seq<Event>, t: Sys, others: map<Sid, Entry>, turn: Turn) returns (fs: seq<Event>, u: Sys)
    requires Reached(s, es, t, 0, Scene(others, 0, BOUND.(blockMine := false), turn, Some(0), false))
    requires Proper(others, 0, turn, Some(0))
    requires turn.pc.Inspecting? && !turn.aborted && t.w.lock == Some(0) && t.w.rec == R.Ready(1) && t.w.live == {}
    requires t.outboxOn && 1 !in t.w.outbox
    ensures MildPath(s, fs, u) && u.w.rec == R.Ready(2)
  {
    BoundFacts();
    var e := BOUND.(blockMine := false).(blockMine := true);
    fs, u := Blocks(s, es, t, 0, others, 0, BOUND.(blockMine := false), turn);
    var c := u.w.nextChild;
    fs, u := Completes(s, fs, u, 0, others, 0, e, turn.(pc := Starting), 2, 1);
    ReachedByRun(s, fs, u, 0, Rest(others[0 := Checkpointed(Answered(e, c, 2))], Some(0)));
  }

  /** A run in which the channel is ready in conversation 1 and later in conversation 2. */
  lemma TheIdCanChange() returns (es: seq<Event>, t: Sys, fs: seq<Event>, u: Sys)
    ensures MildPath(Start0(true), es, t) && t.w.rec == R.Ready(1)
    ensures MildPath(t, fs, u) && u.w.rec == R.Ready(2)
  {
    es, t := OtherSessionDelivers();
    ReachedByRun(Start0(true), es, t, 0, Rest(map[0 := BOUND][1 := DELIVERED], Some(1)));
    fs, u := BoundSessionDelivers(t);
  }
}
