/**
 The two storage failures the protocol does not tolerate: a reread that fails after the block
 was removed, and a removal that took effect and is reported as failed. When exactly they do
 harm, that they do, and that a run gets to where they can happen.
 */
module DurableTurnsFault {

  import opened Options
  import opened AcpServer
  import opened DurableTurns
  import opened DurableTurnsDelivery
  import opened DurableTurnsInvariant
  import opened DurableTurnsSafety
  import opened DurableTurnsScenes
  import R = SessionRecord

  /** An open, unlocked record lets a new adapter block it, start a child and die. */
  lemma OrphanRun(s: Sys, b: Aid) returns (es: seq<Event>, t: Sys)
    requires s.w.lock.None? && !s.w.rec.Blocked? && b !in s.ads
    ensures MildPath(s, es, t)
    ensures t.ads == s.ads && t.w.lock.None? && t.w.rec.Blocked? && s.w.nextChild in t.w.live
  {
    var e, turn := Attached(FRESH_ENTRY, R.IdOf(s.w.rec)), FirstTurn(Inspecting, false);
    es, t := NewcomerReads(s, b);
    es, t := Blocks(s, es, t, b, map[], 0, e, turn);
    e, turn := e.(blockMine := true), turn.(pc := Starting);
    es, t := AwaitStart(s, es, t, b, map[], 0, e, turn);
    e, turn := e.(everStarted := true), turn.(pc := Running);
    es, t := AwaitSpawn(s, es, t, b, map[], 0, e, turn);
    es, t := Dies(s, es, t, b, Scene(map[], 0, Spawning(e, s.w.nextChild), turn, Some(0), true));
  }

  lemma Dies(s: Sys, es: seq<Event>, t: Sys, b: Aid, m: Memory) returns (fs: seq<Event>, u: Sys)
    requires Reached(s, es, t, b, m) && b !in s.ads && t.w.lock == Some(b)
    ensures MildPath(s, fs, u) && u.ads == s.ads && u.w.lock.None? && u.w.rec == t.w.rec && u.w.live == t.w.live
  {
    ReachedByRun(s, es, t, b, m);
    PathExtends(s, es, t, Crash(b));
    fs, u := es + [Crash(b)], Apply(t, Crash(b));
    assert s.ads[b := m] - {b} == s.ads;
  }

  // ---- The entry that still remembers creating a block it has already removed ----

  predicate Claimant(m: Memory, x: Sid) {
    && WellFormed(m) && x in m.entries && m.pin == Some(x) && !m.closing
    && NoStart(m.entries[x]) && !m.entries[x].needsReplacement && !m.entries[x].invalidated && !m.entries[x].stateError
  }

  predicate ClaimantAt(m: Memory, x: Sid, pc: Pc) {
    Claimant(m, x) && m.turns.Keys == {x} && m.turns[x].pc == pc && m.turns[x].from.None?
  }

  lemma ClaimantPrompts(m: Memory, x: Sid)
    requires Claimant(m, x) && m.turns == map[]
    ensures CanPrompt(m, x) && ClaimantAt(Prompt(m, x, false), x, Scoping)
  {}

  lemma ClaimantKeepsPin(m: Memory, x: Sid)
    requires ClaimantAt(m, x, Scoping)
    ensures ClaimantAt(Scoped(m, x, false), x, Loading)
  {}

  lemma ClaimantIsBelieved(m: Memory, x: Sid)
    requires ClaimantAt(m, x, Loading)
    ensures ClaimantAt(LoadedBlocked(m, x), x, Reconciling)
  {}

  /** Whatever block is now on disk, the stale claim removes it. */
  lemma StaleClaimReopens(s: Sys, a: Aid, x: Sid) returns (es: seq<Event>, t: Sys)
    requires a in s.ads && Claimant(s.ads[a], x) && s.ads[a].turns == map[] && s.w.lock.None? && s.w.rec.Blocked?
    ensures MildPath(s, es, t) && !t.w.rec.Blocked? && t.w.live == s.w.live
  {
    var m := s.ads[a];
    assert s.ads == s.ads[a := m];
    es, t := [], s;
    ReachedByRun(s, es, t, a, m);
    ClaimantPrompts(m, x);
    es, t := Moves(s, es, t, a, m, x, Prompts);
    m := Prompt(m, x, false);
    ClaimantKeepsPin(m, x);
    es, t := Moves(s, es, t, a, m, x, Gate(ScopeDone));
    m := Scoped(m, x, false);
    es, t := Moves(s, es, t, a, m, x, Gate(Acquires));
    ClaimantIsBelieved(m, x);
    es, t := Moves(s, es, t, a, m, x, Rec(LoadBlocked));
    m := LoadedBlocked(m, x);
    es, t := Moves(s, es, t, a, m, x, Rec(ReconcileDone));
    ReachedByRun(s, es, t, a, Reconciled(m, x, R.IdOf(s.w.rec)));
  }

  // ---- The failures ----

  /** The reread fails, or the removal took effect and is reported as failed. */
  predicate Faulty(act: RecordAct) {
    act.RereadFault? || act.ReconcileFault?
  }

  /** The catch block gives the lock back although the entry still claims a block. */
  predicate Harmful(m: Memory, x: Sid)
    requires WellFormed(m) && x in m.turns
  {
    !m.closing && Releases(m, x) && NoStart(m.entries[x])
  }

  lemma FaultGivesLockBack(m: Memory, x: Sid)
    requires WellFormed(m) && x in m.turns && Harmful(m, x) && OneTurn(m) && m.pin == Some(x)
    requires !m.entries[x].invalidated && !m.entries[x].stateError && m.turns[x].from.None?
    ensures var m1 := Fail(m, x, true);
            At(m1, x, Releasing) && Claimant(Released(m1, x, true), x) && Released(m1, x, true).turns == map[]
  {
    var m1 := Fail(m, x, true);
    assert Released(m1, x, true).turns.Keys == {};
  }

  lemma HarmfulTurn(w: World, a: Aid, m: Memory, x: Sid, act: RecordAct)
    requires MemoryOk(w, a, m) && x in m.turns && CanRecord(w, a, m, x, act) && Faulty(act) && Harmful(m, x)
    ensures m.pin == Some(x) && m.turns[x].from.None? && w.lock == Some(a)
    ensures !m.entries[x].invalidated && !m.entries[x].stateError
  {
    assert TurnOk(w, a, m, x) && EntryOk(w, a, m, x);
  }

  /** The fault leaves the record open and the turn waiting for the release. */
  lemma FaultOpens(s: Sys, a: Aid, x: Sid, act: RecordAct)
    requires Inv(s) && Enabled(s, Step(a, x, Rec(act))) && Faulty(act) && Harmful(s.ads[a], x)
    ensures var s1, m1 := Apply(s, Step(a, x, Rec(act))), Fail(s.ads[a], x, true);
            && Reached(s1, [], s1, a, m1) && !s1.w.rec.Blocked? && s1.w.lock == Some(a)
            && At(m1, x, Releasing) && Claimant(Released(m1, x, true), x) && Released(m1, x, true).turns == map[]
  {
    var m := s.ads[a];
    HarmfulTurn(s.w, a, m, x, act);
    FaultGivesLockBack(m, x);
    assert act.RereadFault? ==> !s.w.rec.Blocked? by { assert TurnOk(s.w, a, m, x); }
    var s1 := Apply(s, Step(a, x, Rec(act)));
    assert s1.ads == s1.ads[a := Fail(m, x, true)];
    ReachedByRun(s1, [], s1, a, Fail(m, x, true));
  }

  /** After the fault the record is open and the lock comes free, while the claim survives. */
  lemma FaultRun(s: Sys, a: Aid, x: Sid, act: RecordAct) returns (es: seq<Event>, t: Sys)
    requires Inv(s) && Enabled(s, Step(a, x, Rec(act))) && Faulty(act) && Harmful(s.ads[a], x)
    ensures MildPath(Apply(s, Step(a, x, Rec(act))), es, t)
    ensures a in t.ads && Claimant(t.ads[a], x) && t.ads[a].turns == map[] && t.ads.Keys == s.ads.Keys
    ensures t.w.lock.None? && !t.w.rec.Blocked?
  {
    var s1, m1 := Apply(s, Step(a, x, Rec(act))), Fail(s.ads[a], x, true);
    FaultOpens(s, a, x, act);
    es, t := Moves(s1, [], s1, a, m1, x, Rec(ReleaseDone(true)));
    ReachedByRun(s1, es, t, a, Released(m1, x, true));
    assert s1.ads.Keys == s.ads.Keys;
  }

  /** The whole misfortune: fault, a newcomer's orphaned child, then the stale claim. */
  lemma FaultLeadsToOrphan(s: Sys, a: Aid, x: Sid, act: RecordAct) returns (es: seq<Event>, t: Sys)
    requires Inv(s) && Enabled(s, Step(a, x, Rec(act))) && Faulty(act) && Harmful(s.ads[a], x)
    ensures MildPath(Apply(s, Step(a, x, Rec(act))), es, t) && !OneChild(t.w)
  {
    var s1 := Apply(s, Step(a, x, Rec(act)));
    var es1, t1 := FaultRun(s, a, x, act);
    var b := FreshAid(t1.ads.Keys);
    var es2, t2 := OrphanRun(t1, b);
    var es3, t3 := StaleClaimReopens(t2, a, x);
    PathJoins(s1, es1, t1, es2, t2);
    PathJoins(s1, es1 + es2, t2, es3, t3);
    es, t := es1 + es2 + es3, t3;
  }

  lemma FreshAid(used: set<Aid>) returns (b: Aid)
    ensures b !in used
  {
    b := 0;
    var left := used;
    while b in used
      invariant left <= used && forall c | c in used :: c in left || c < b
      decreases left
    {
      assert b in left;
      left := left - {b};
      b := b + 1;
    }
  }

  /** No later run, however it goes, has two children or a child beside an open record. */
  ghost predicate SafeForever(s: Sys) {
    forall es, t :: MildPath(s, es, t) ==> OneChild(t.w)
  }

  lemma InvIsSafeForever(s: Sys)
    requires Inv(s)
    ensures SafeForever(s)
  {
    forall es, t | MildPath(s, es, t) ensures OneChild(t.w) {
      KeepPath(s, es, t);
      InvGuarantees(t);
    }
  }

  /**
   Either failure is harmless in every later run exactly when the process is closing, or the
   catch block keeps the lock, or the entry has no no-start claim.
   */
  lemma FaultIsHarmlessIff(s: Sys, a: Aid, x: Sid, act: RecordAct)
    requires Inv(s) && Enabled(s, Step(a, x, Rec(act))) && Faulty(act)
    ensures SafeForever(Apply(s, Step(a, x, Rec(act)))) <==> !Harmful(s.ads[a], x)
  {
    var s' := Apply(s, Step(a, x, Rec(act)));
    if Harmful(s.ads[a], x) {
      var es, t := FaultLeadsToOrphan(s, a, x, act);
      assert MildPath(s', es, t) && !OneChild(t.w);
    } else {
      KeepEvent(s, Step(a, x, Rec(act)));
      InvIsSafeForever(s');
    }
  }

  // ---- Getting there ----

  /** The entry of a session whose only turn blocked an absent record and was cancelled before it started. */
  const CANCELLED_EARLY := FRESH_ENTRY.(blockMine := true)

  lemma CancelsAtStart(s: Sys, es: seq<Event>, t: Sys, b: Aid, e: Entry) returns (fs: seq<Event>, u: Sys)
    requires Reached(s, es, t, b, Scene(map[], 0, e, FirstTurn(Starting, false), Some(0), true))
    requires t.w.lock == Some(b) && e.blockMine && !e.cachedBound && !e.everStarted && !e.needsReplacement
    ensures Reached(s, fs, u, b,
                    Scene(map[], 0, e, FirstTurn(Releasing, false).(aborted := true, cancelled := true), Some(0), true))
    ensures u.w == t.w
  {
    var turn := FirstTurn(Starting, false);
    var told := turn.(aborted := true, cancelled := true);
    SceneIsWellFormed(map[], 0, e, turn, Some(0), true);
    SceneTurns(map[], 0, e, turn, Some(0), true, told);
    fs, u := Moves(s, es, t, b, Scene(map[], 0, e, turn, Some(0), true), 0, Cancels);
    SceneIsWellFormed(map[], 0, e, told, Some(0), true);
    SceneTurns(map[], 0, e, told, Some(0), true, told.(pc := Releasing));
    fs, u := Moves(s, fs, u, b, Scene(map[], 0, e, told, Some(0), true), 0, Rec(StartDone));
  }

  lemma GivesBack(s: Sys, es: seq<Event>, t: Sys, b: Aid, e: Entry, turn: Turn) returns (fs: seq<Event>, u: Sys)
    requires Reached(s, es, t, b, Scene(map[], 0, e, turn, Some(0), true)) && t.w.lock == Some(b)
    requires turn.pc.Releasing? && turn.existing.None? && turn.from.None? && e.blockMine
    ensures Reached(s, fs, u, b, Rest(map[][0 := e.(bound := false)], Some(0))) && u.w == t.w.(lock := None)
  {
    SceneIsWellFormed(map[], 0, e, turn, Some(0), true);
    SceneEntry(map[], 0, e, turn, Some(0), true, e.(bound := false));
    SceneIsWellFormed(map[], 0, e.(bound := false), turn, Some(0), true);
    SceneEnds(map[], 0, turn);
    fs, u := Moves(s, es, t, b, Scene(map[], 0, e, turn, Some(0), true), 0, Rec(ReleaseDone(true)));
  }

  /** The first prompt blocks the absent record, is cancelled before its provider starts, and gives the lock back. */
  lemma FirstPromptIsCancelled(on: bool) returns (es: seq<Event>, t: Sys)
    ensures Reached(Start0(on), es, t, 0, Rest(map[][0 := CANCELLED_EARLY], Some(0)))
    ensures t.w.lock.None? && t.w.rec == R.Blocked(None)
  {
    var s := Start0(on);
    var e := Attached(FRESH_ENTRY, None);
    es, t := NewcomerReads(s, 0);
    es, t := Blocks(s, es, t, 0, map[], 0, e, FirstTurn(Inspecting, false));
    es, t := CancelsAtStart(s, es, t, 0, e.(blockMine := true));
    es, t := GivesBack(s, es, t, 0, e.(blockMine := true),
                       FirstTurn(Releasing, false).(aborted := true, cancelled := true));
  }

  /** The second prompt finds the block and its own no-start proof, and is about to remove it. */
  lemma SecondPromptReconciles(on: bool) returns (es: seq<Event>, t: Sys)
    ensures Reached(Start0(on), es, t, 0,
                    Scene(map[], 0, CANCELLED_EARLY, FirstTurn(Reconciling, false).(retired := true), Some(0), false))
    ensures t.w.lock == Some(0) && t.w.rec == R.Blocked(None)
  {
    var s := Start0(on);
    var e, turn := CANCELLED_EARLY, FirstTurn(Loading, false);
    es, t := FirstPromptIsCancelled(on);
    es, t := AwaitPrompt(s, es, t, 0, map[], 0, e, Some(0));
    es, t := AwaitScope(s, es, t, 0, map[], 0, e, FirstTurn(Scoping, false), Some(0));
    es, t := AwaitLock(s, es, t, 0, map[], 0, e, turn);
    SceneIsWellFormed(map[], 0, e, turn, Some(0), false);
    SceneTurns(map[], 0, e, turn, Some(0), false, turn.(retired := true, pc := Reconciling));
    es, t := Moves(s, es, t, 0, Scene(map[], 0, e, turn, Some(0), false), 0, Rec(LoadBlocked));
  }

  /** A run of tolerated events gets to where the removal can fail harmfully. */
  lemma HarmfulReconcileIsReachable(on: bool) returns (es: seq<Event>, t: Sys)
    ensures MildPath(Start0(on), es, t) && Enabled(t, Step(0, 0, Rec(ReconcileFault))) && Harmful(t.ads[0], 0)
  {
    var turn := FirstTurn(Reconciling, false).(retired := true);
    es, t := SecondPromptReconciles(on);
    SceneIsWellFormed(map[], 0, CANCELLED_EARLY, turn, Some(0), false);
    ReachedByRun(Start0(on), es, t, 0, Scene(map[], 0, CANCELLED_EARLY, turn, Some(0), false));
  }

  /** And one gets to where the reread can. */
  lemma HarmfulRereadIsReachable(on: bool) returns (es: seq<Event>, t: Sys)
    ensures MildPath(Start0(on), es, t) && Enabled(t, Step(0, 0, Rec(RereadFault))) && Harmful(t.ads[0], 0)
  {
    var e, turn := CANCELLED_EARLY, FirstTurn(Reconciling, false).(retired := true);
    es, t := SecondPromptReconciles(on);
    SceneIsWellFormed(map[], 0, e, turn, Some(0), false);
    SceneTurns(map[], 0, e, turn, Some(0), false, turn.(pc := Rereading));
    es, t := Moves(Start0(on), es, t, 0, Scene(map[], 0, e, turn, Some(0), false), 0, Rec(ReconcileDone));
    SceneIsWellFormed(map[], 0, e, turn.(pc := Rereading), Some(0), false);
    ReachedByRun(Start0(on), es, t, 0, Scene(map[], 0, e, turn.(pc := Rereading), Some(0), false));
  }

  lemma {:induction false} MildIsPath(s: Sys, es: seq<Event>, t: Sys)
    requires MildPath(s, es, t)
    ensures Path(s, es, t)
    decreases |es|
  {
    if es != [] { MildIsPath(Apply(s, es[0]), es[1..], t); }
  }

  lemma {:induction false} PathsJoin(s: Sys, es: seq<Event>, t: Sys, e: Event, fs: seq<Event>, u: Sys)
    requires Path(s, es, t) && Enabled(t, e) && Path(Apply(t, e), fs, u)
    ensures Path(s, es + ([e] + fs), u)
    decreases |es|
  {
    var gs := [e] + fs;
    assert gs[0] == e && gs[1..] == fs;
    if es == [] {
      assert es + gs == gs;
    } else {
      assert (es + gs)[0] == es[0] && (es + gs)[1..] == es[1..] + gs;
      PathsJoin(Apply(s, es[0]), es[1..], t, e, fs, u);
    }
  }

  /** From the start, with one such failure, a run ends with two children or with one beside an open record. */
  lemma OneFailureIsEnough(on: bool, act: RecordAct) returns (es: seq<Event>, t: Sys)
    requires Faulty(act)
    ensures Path(Start0(on), es, t) && !OneChild(t.w)
  {
    var es1, t1;
    if act.RereadFault? {
      es1, t1 := HarmfulRereadIsReachable(on);
    } else {
      es1, t1 := HarmfulReconcileIsReachable(on);
    }
    KeepPath(Start0(on), es1, t1);
    var es2, t2 := FaultLeadsToOrphan(t1, 0, 0, act);
    MildIsPath(Start0(on), es1, t1);
    MildIsPath(Apply(t1, Step(0, 0, Rec(act))), es2, t2);
    PathsJoin(Start0(on), es1, t1, Step(0, 0, Rec(act)), es2, t2);
    es, t := es1 + ([Step(0, 0, Rec(act))] + es2), t2;
  }
}
