/**
 Concrete runs, put together one await at a time: one adapter with at most one turn in
 flight, while all other adapters stand still. Every lemma appends one event to a run.
 */
module DurableTurnsScenes {

  import opened Options
  import opened AcpServer
  import opened DurableTurns
  import opened DurableTurnsSafety
  import R = SessionRecord

  // ---- Appending to a run ----

  lemma {:induction false} PathExtends(s: Sys, es: seq<Event>, t: Sys, e: Event)
    requires MildPath(s, es, t) && Enabled(t, e) && Mild(t, e)
    ensures MildPath(s, es + [e], Apply(t, e))
    decreases |es|
  {
    if es == [] {
      assert es + [e] == [e];
      assert MildPath(Apply(t, e), [e][1..], Apply(t, e));
    } else {
      assert (es + [e])[0] == es[0] && (es + [e])[1..] == es[1..] + [e];
      PathExtends(Apply(s, es[0]), es[1..], t, e);
    }
  }

  lemma {:induction false} PathJoins(s: Sys, es: seq<Event>, t: Sys, fs: seq<Event>, u: Sys)
    requires MildPath(s, es, t) && MildPath(t, fs, u)
    ensures MildPath(s, es + fs, u)
    decreases |es|
  {
    if es == [] {
      assert es + fs == fs;
    } else {
      assert (es + fs)[0] == es[0] && (es + fs)[1..] == es[1..] + fs;
      PathJoins(Apply(s, es[0]), es[1..], t, fs, u);
    }
  }

  /** A run, under a number of wraps that keeps proofs from unfolding it. */
  ghost predicate Leads(s: Sys, es: seq<Event>, t: Sys, b: Aid, m: Memory, wraps: nat) {
    if wraps == 0 then MildPath(s, es, t) && t.ads == s.ads[b := m] else Leads(s, es, t, b, m, wraps - 1)
  }

  lemma {:induction false} Unwrapped(s: Sys, es: seq<Event>, t: Sys, b: Aid, m: Memory, wraps: nat)
    ensures Leads(s, es, t, b, m, wraps) <==> MildPath(s, es, t) && t.ads == s.ads[b := m]
    decreases wraps
  {
    if wraps > 0 { Unwrapped(s, es, t, b, m, wraps - 1); }
  }

  /** `t` is `s` after a run in which only adapter `b` acted; its memory is now `m`. */
  ghost predicate Reached(s: Sys, es: seq<Event>, t: Sys, b: Aid, m: Memory) {
    Leads(s, es, t, b, m, |es| + 3) && t.outboxOn == s.outboxOn
  }

  lemma ReachedByRun(s: Sys, es: seq<Event>, t: Sys, b: Aid, m: Memory)
    ensures Reached(s, es, t, b, m) <==> MildPath(s, es, t) && t.ads == s.ads[b := m] && t.outboxOn == s.outboxOn
  {
    Unwrapped(s, es, t, b, m, |es| + 3);
  }

  lemma OneMore(s: Sys, es: seq<Event>, t: Sys, b: Aid, m: Memory, e: Event, m': Memory)
    requires Reached(s, es, t, b, m) && Enabled(t, e) && Mild(t, e)
    requires Apply(t, e).ads == s.ads[b := m'] && Apply(t, e).outboxOn == s.outboxOn
    ensures Reached(s, es + [e], Apply(t, e), b, m')
  {
    ReachedByRun(s, es, t, b, m);
    PathExtends(s, es, t, e);
    ReachedByRun(s, es + [e], Apply(t, e), b, m');
  }

  lemma Moves(s: Sys, es: seq<Event>, t: Sys, b: Aid, m: Memory, x: Sid, act: Act) returns (fs: seq<Event>, u: Sys)
    requires Reached(s, es, t, b, m) && CanAct(t.w, t.outboxOn, b, m, x, act)
    requires !(act.Rec? && (act.record.RereadFault? || act.record.ReconcileFault?))
    ensures Reached(s, fs, u, b, Remember(t.w, t.outboxOn, b, m, x, act))
    ensures u.w == Touch(t.w, t.outboxOn, b, m, x, act)
  {
    ReachedByRun(s, es, t, b, m);
    OneMore(s, es, t, b, m, Step(b, x, act), Remember(t.w, t.outboxOn, b, m, x, act));
    fs := es + [Step(b, x, act)];
    u := Apply(t, Step(b, x, act));
  }

  lemma ChildLeaves(s: Sys, es: seq<Event>, t: Sys, b: Aid, m: Memory, c: Child) returns (fs: seq<Event>, u: Sys)
    requires Reached(s, es, t, b, m) && c in t.w.live
    ensures Reached(s, fs, u, b, m) && u.w == t.w.(live := t.w.live - {c})
  {
    ReachedByRun(s, es, t, b, m);
    OneMore(s, es, t, b, m, ChildExit(c), m);
    fs, u := es + [ChildExit(c)], Apply(t, ChildExit(c));
  }

  lemma SessionOpens(s: Sys, es: seq<Event>, t: Sys, b: Aid, m: Memory, x: Sid) returns (fs: seq<Event>, u: Sys)
    requires Reached(s, es, t, b, m) && !m.closing && x !in m.entries
    ensures Reached(s, fs, u, b, NewSession(m, x)) && u.w == t.w
  {
    ReachedByRun(s, es, t, b, m);
    OneMore(s, es, t, b, m, OpenSession(b, x), NewSession(m, x));
    fs, u := es + [OpenSession(b, x)], Apply(t, OpenSession(b, x));
  }

  lemma AdapterStarts(s: Sys, b: Aid) returns (fs: seq<Event>, u: Sys)
    requires b !in s.ads
    ensures Reached(s, fs, u, b, EMPTY_MEMORY) && u.w == s.w
  {
    PathExtends(s, [], s, NewAdapter(b));
    fs, u := [] + [NewAdapter(b)], Apply(s, NewAdapter(b));
    ReachedByRun(s, fs, u, b, EMPTY_MEMORY);
  }

  // ---- The memory of such an adapter ----

  /** Session `x` has a turn in flight; `others` are the other sessions. */
  function Scene(others: map<Sid, Entry>, x: Sid, e: Entry, t: Turn, pin: Option<Sid>, live: bool): Memory {
    Memory(others[x := e], map[x := t], pin, live, false)
  }

  /** No turn is in flight. */
  function Rest(entries: map<Sid, Entry>, pin: Option<Sid>): Memory {
    Memory(entries, map[], pin, false, false)
  }

  predicate Proper(others: map<Sid, Entry>, x: Sid, t: Turn, pin: Option<Sid>) {
    && (pin.Some? ==> pin.value == x || pin.value in others)
    && (t.existing.Some? ==> t.existing.value in others && t.existing.value != x)
    && (t.from.Some? ==> t.from.value in others && t.from.value != x)
    && (t.pc.CancelLoad? || t.pc.CancelScan? || t.pc.CancelRetire? || t.pc.SafeScan? ==> t.existing.Some?)
  }

  lemma SceneIsWellFormed(others: map<Sid, Entry>, x: Sid, e: Entry, t: Turn, pin: Option<Sid>, live: bool)
    requires Proper(others, x, t, pin)
    ensures WellFormed(Scene(others, x, e, t, pin, live)) && !Busy(Scene(others, x, e, t, pin, live), x)
  {
  }

  lemma SceneTurns(others: map<Sid, Entry>, x: Sid, e: Entry, t: Turn, pin: Option<Sid>, live: bool, t': Turn)
    ensures WithTurn(Scene(others, x, e, t, pin, live), x, t') == Scene(others, x, e, t', pin, live)
  {
    assert map[x := t][x := t'] == map[x := t'];
  }

  lemma SceneEntry(others: map<Sid, Entry>, x: Sid, e: Entry, t: Turn, pin: Option<Sid>, live: bool, e': Entry)
    ensures WithEntry(Scene(others, x, e, t, pin, live), x, e') == Scene(others, x, e', t, pin, live)
  {
    assert others[x := e][x := e'] == others[x := e'];
  }

  lemma SceneEnds(others: map<Sid, Entry>, x: Sid, t: Turn)
    ensures map[x := t] - {x} == map[]
  {
  }

  function FirstTurn(pc: Pc, owned: bool): Turn {
    Turn(pc, owned, None, None, false, false, false, false, None, None, Inflight, false, false)
  }

  lemma OnlyPc(t: Turn, p: Pc, q: Pc)
    ensures t.(pc := p).(pc := q) == t.(pc := q)
  {
  }

  // ---- Winning the channel ----

  lemma AwaitPrompt(s: Sys, es: seq<Event>, t: Sys, b: Aid, others: map<Sid, Entry>, x: Sid, e: Entry, pin: Option<Sid>)
    returns (fs: seq<Event>, u: Sys)
    requires Reached(s, es, t, b, Rest(others[x := e], pin)) && !e.stateError && !e.invalidated && !e.cancelSettled
    requires pin.Some? ==> pin.value == x || pin.value in others
    ensures Reached(s, fs, u, b, Scene(others, x, e, FirstTurn(Scoping, t.w.lock == Some(b)), pin, false)) && u.w == t.w
  {
    var m := Rest(others[x := e], pin);
    assert e.(cancelSettled := false) == e;
    assert others[x := e][x := e] == others[x := e];
    fs, u := Moves(s, es, t, b, m, x, Prompts);
  }

  /** Nobody else is pinned. */
  lemma AwaitScope(s: Sys, es: seq<Event>, t: Sys, b: Aid, others: map<Sid, Entry>, x: Sid, e: Entry, turn: Turn,
                   pin: Option<Sid>)
    returns (fs: seq<Event>, u: Sys)
    requires Reached(s, es, t, b, Scene(others, x, e, turn, pin, false)) && turn == FirstTurn(Scoping, turn.ownedBefore)
    requires pin == None || pin == Some(x)
    ensures var pc := if e.needsReplacement then ReplaceScan else Loading;
            Reached(s, fs, u, b, Scene(others, x, e, turn.(pc := pc), Some(x), false)) && u.w == t.w
  {
    SceneIsWellFormed(others, x, e, turn, pin, false);
    SceneTurns(others, x, e, turn, Some(x), false, turn.(pc := Loading));
    SceneTurns(others, x, e, turn, Some(x), false, turn.(pc := ReplaceScan));
    fs, u := Moves(s, es, t, b, Scene(others, x, e, turn, pin, false), x, Gate(ScopeDone));
  }

  lemma AwaitLock(s: Sys, es: seq<Event>, t: Sys, b: Aid, others: map<Sid, Entry>, x: Sid, e: Entry, turn: Turn)
    returns (fs: seq<Event>, u: Sys)
    requires Reached(s, es, t, b, Scene(others, x, e, turn, Some(x), false)) && Proper(others, x, turn, Some(x))
    requires turn.pc.Loading? && t.w.lock.None?
    ensures Reached(s, fs, u, b, Scene(others, x, e, turn, Some(x), false)) && u.w == t.w.(lock := Some(b))
  {
    SceneIsWellFormed(others, x, e, turn, Some(x), false);
    fs, u := Moves(s, es, t, b, Scene(others, x, e, turn, Some(x), false), x, Gate(Acquires));
  }

  // ---- Opening the record ----

  /** An open record for a session that needs no replacement and no transfer. */
  function OpenedEntry(e: Entry, saved: Option<Conv>): Entry {
    var e' := e.(blockMine := false);
    if e.bound then e' else Attached(e', saved)
  }

  lemma SceneOpens(others: map<Sid, Entry>, x: Sid, e: Entry, turn: Turn, owns: bool, saved: Option<Conv>)
    requires Proper(others, x, turn, Some(x)) && turn.from.None?
    requires !e.needsReplacement && (e.bound || !Distrusts(e.provider, saved))
    ensures var m := Scene(others, x, e, turn, Some(x), false);
            WellFormed(m) && Open(m, x, owns, saved, true) ==
            Scene(others, x, OpenedEntry(e, saved), turn.(pc := Inspecting), Some(x), false)
  {
    SceneIsWellFormed(others, x, e, turn, Some(x), false);
    var e1 := e.(blockMine := false);
    SceneEntry(others, x, e, turn, Some(x), false, e1);
    assert Commit(Scene(others, x, e, turn, Some(x), false), x) == Scene(others, x, e1, turn, Some(x), false);
    SceneIsWellFormed(others, x, e1, turn, Some(x), false);
    SceneBinds(others, x, e1, turn, owns, saved);
  }

  lemma SceneBinds(others: map<Sid, Entry>, x: Sid, e: Entry, turn: Turn, owns: bool, saved: Option<Conv>)
    requires WellFormed(Scene(others, x, e, turn, Some(x), false))
    requires !e.needsReplacement && (e.bound || !Distrusts(e.provider, saved))
    ensures Bind(Scene(others, x, e, turn, Some(x), false), x, owns, saved, true) ==
            Scene(others, x, if e.bound then e else Attached(e, saved), turn.(pc := Inspecting), Some(x), false)
  {
    var e' := if e.bound then e else Attached(e, saved);
    SceneEntry(others, x, e, turn, Some(x), false, e);
    SceneEntry(others, x, e, turn, Some(x), false, e');
    SceneTurns(others, x, e', turn, Some(x), false, turn.(pc := Inspecting));
  }

  lemma AwaitLoad(s: Sys, es: seq<Event>, t: Sys, b: Aid, others: map<Sid, Entry>, x: Sid, e: Entry, turn: Turn)
    returns (fs: seq<Event>, u: Sys)
    requires Reached(s, es, t, b, Scene(others, x, e, turn, Some(x), false))
    requires turn == FirstTurn(Loading, turn.ownedBefore)
    requires t.w.lock == Some(b) && !t.w.rec.Blocked? && !e.needsReplacement
    requires (e.bound || !Distrusts(e.provider, R.IdOf(t.w.rec)))
    ensures u.w == t.w
    ensures Reached(s, fs, u, b,
                    Scene(others, x, OpenedEntry(e, R.IdOf(t.w.rec)), turn.(pc := Inspecting), Some(x), false))
  {
    SceneOpens(others, x, e, turn, true, R.IdOf(t.w.rec));
    fs, u := Moves(s, es, t, b, Scene(others, x, e, turn, Some(x), false), x, Rec(LoadOpen(true)));
  }

  // ---- Blocking it again ----

  lemma AwaitInspect(s: Sys, es: seq<Event>, t: Sys, b: Aid, others: map<Sid, Entry>, x: Sid, e: Entry, turn: Turn,
                     live: bool := false)
    returns (fs: seq<Event>, u: Sys)
    requires Reached(s, es, t, b, Scene(others, x, e, turn, Some(x), live)) && Proper(others, x, turn, Some(x))
    requires turn.pc.Inspecting?
    ensures Reached(s, fs, u, b, Scene(others, x, e, turn.(pc := Invalidating), Some(x), live)) && u.w == t.w
  {
    SceneIsWellFormed(others, x, e, turn, Some(x), live);
    SceneTurns(others, x, e, turn, Some(x), false, turn.(pc := Invalidating));
    fs, u := Moves(s, es, t, b, Scene(others, x, e, turn, Some(x), live), x, Rec(InspectDone));
  }

  lemma AwaitInvalidate(s: Sys, es: seq<Event>, t: Sys, b: Aid, others: map<Sid, Entry>, x: Sid, e: Entry, turn: Turn,
                     live: bool := false)
    returns (fs: seq<Event>, u: Sys)
    requires Reached(s, es, t, b, Scene(others, x, e, turn, Some(x), live)) && Proper(others, x, turn, Some(x))
    requires turn.pc.Invalidating? && t.w.lock == Some(b)
    ensures Reached(s, fs, u, b, Scene(others, x, e.(blockMine := true), turn.(pc := Starting), Some(x), true))
    ensures u.w == t.w.(rec := R.Invalidate(t.w.rec), blame := Mine(b, x))
  {
    SceneIsWellFormed(others, x, e, turn, Some(x), live);
    SceneEntry(others, x, e, turn, Some(x), false, e.(blockMine := true));
    SceneTurns(others, x, e.(blockMine := true), turn, Some(x), false, turn.(pc := Starting));
    fs, u := Moves(s, es, t, b, Scene(others, x, e, turn, Some(x), live), x, Rec(InvalidateDone));
  }

  lemma AwaitStart(s: Sys, es: seq<Event>, t: Sys, b: Aid, others: map<Sid, Entry>, x: Sid, e: Entry, turn: Turn)
    returns (fs: seq<Event>, u: Sys)
    requires Reached(s, es, t, b, Scene(others, x, e, turn, Some(x), true)) && Proper(others, x, turn, Some(x))
    requires turn.pc.Starting? && !turn.aborted
    ensures Reached(s, fs, u, b, Scene(others, x, e.(everStarted := true), turn.(pc := Running), Some(x), true))
    ensures u.w == t.w
  {
    SceneIsWellFormed(others, x, e, turn, Some(x), true);
    SceneEntry(others, x, e, turn, Some(x), true, e.(everStarted := true));
    SceneTurns(others, x, e.(everStarted := true), turn, Some(x), true, turn.(pc := Running));
    fs, u := Moves(s, es, t, b, Scene(others, x, e, turn, Some(x), true), x, Rec(StartDone));
  }

  // ---- Running the provider ----

  function Spawning(e: Entry, c: Child): Entry {
    e.(provider := e.provider.(last := Some(c)))
  }

  function Naming(e: Entry, conv: Conv): Entry {
    e.(provider := e.provider.(conv := if e.provider.conv.Some? then e.provider.conv else Some(conv)))
  }

  lemma AwaitSpawn(s: Sys, es: seq<Event>, t: Sys, b: Aid, others: map<Sid, Entry>, x: Sid, e: Entry, turn: Turn)
    returns (fs: seq<Event>, u: Sys)
    requires Reached(s, es, t, b, Scene(others, x, e, turn, Some(x), true)) && Proper(others, x, turn, Some(x))
    requires turn.pc.Running? && !e.provider.closed && (e.provider.last.Some? ==> e.provider.last.value !in t.w.live)
    ensures Reached(s, fs, u, b, Scene(others, x, Spawning(e, t.w.nextChild), turn, Some(x), true))
    ensures u.w == t.w.(live := t.w.live + {t.w.nextChild}, nextChild := t.w.nextChild + 1)
  {
    SceneIsWellFormed(others, x, e, turn, Some(x), true);
    SceneEntry(others, x, e, turn, Some(x), true, Spawning(e, t.w.nextChild));
    fs, u := Moves(s, es, t, b, Scene(others, x, e, turn, Some(x), true), x, Run(Spawns));
  }

  lemma AwaitInit(s: Sys, es: seq<Event>, t: Sys, b: Aid, others: map<Sid, Entry>, x: Sid, e: Entry, turn: Turn,
                  conv: Conv)
    returns (fs: seq<Event>, u: Sys)
    requires Reached(s, es, t, b, Scene(others, x, e, turn, Some(x), true)) && Proper(others, x, turn, Some(x))
    requires turn.pc.Running?
    ensures Reached(s, fs, u, b, Scene(others, x, Naming(e, conv), turn, Some(x), true)) && u.w == t.w
  {
    SceneIsWellFormed(others, x, e, turn, Some(x), true);
    SceneEntry(others, x, e, turn, Some(x), true, Naming(e, conv));
    fs, u := Moves(s, es, t, b, Scene(others, x, e, turn, Some(x), true), x, Run(Inits(conv)));
  }

  lemma AwaitAnswer(s: Sys, es: seq<Event>, t: Sys, b: Aid, others: map<Sid, Entry>, x: Sid, e: Entry, turn: Turn)
    returns (fs: seq<Event>, u: Sys)
    requires Reached(s, es, t, b, Scene(others, x, e, turn, Some(x), true)) && Proper(others, x, turn, Some(x))
    requires turn.pc.Running? && e.provider.last.Some? && e.provider.conv.Some?
    ensures Reached(s, fs, u, b, Scene(others, x, e, turn.(pc := Retiring), Some(x), true)) && u.w == t.w
  {
    SceneIsWellFormed(others, x, e, turn, Some(x), true);
    SceneTurns(others, x, e, turn, Some(x), true, turn.(pc := Retiring));
    fs, u := Moves(s, es, t, b, Scene(others, x, e, turn, Some(x), true), x, Run(AnswerDone));
  }

  lemma AwaitRetirement(s: Sys, es: seq<Event>, t: Sys, b: Aid, others: map<Sid, Entry>, x: Sid, e: Entry, turn: Turn)
    returns (fs: seq<Event>, u: Sys)
    requires Reached(s, es, t, b, Scene(others, x, e, turn, Some(x), true)) && Proper(others, x, turn, Some(x))
    requires turn.pc.Retiring? && !turn.aborted && ChildGone(t.w, e.provider)
    ensures Reached(s, fs, u, b, Scene(others, x, e, turn.(pc := Staging), Some(x), true)) && u.w == t.w
  {
    SceneIsWellFormed(others, x, e, turn, Some(x), true);
    SceneTurns(others, x, e, turn, Some(x), true, turn.(pc := Staging));
    fs, u := Moves(s, es, t, b, Scene(others, x, e, turn, Some(x), true), x, Run(RetireDone));
  }

  lemma AwaitStage(s: Sys, es: seq<Event>, t: Sys, b: Aid, others: map<Sid, Entry>, x: Sid, e: Entry, turn: Turn)
    returns (fs: seq<Event>, u: Sys)
    requires Reached(s, es, t, b, Scene(others, x, e, turn, Some(x), true)) && Proper(others, x, turn, Some(x))
    requires turn.pc.Staging? && t.w.lock == Some(b) && t.w.rec.Blocked? && e.provider.conv.Some?
    ensures Reached(s, fs, u, b, Scene(others, x, e, turn.(staged := e.provider.conv, pc := Beginning), Some(x), true))
    ensures u.w == t.w.(rec := R.Blocked(e.provider.conv))
  {
    SceneIsWellFormed(others, x, e, turn, Some(x), true);
    SceneTurns(others, x, e, turn, Some(x), true, turn.(staged := e.provider.conv, pc := Beginning));
    fs, u := Moves(s, es, t, b, Scene(others, x, e, turn, Some(x), true), x, Run(StageDone));
  }

  // ---- Delivering the answer ----

  lemma AwaitBegin(s: Sys, es: seq<Event>, t: Sys, b: Aid, others: map<Sid, Entry>, x: Sid, e: Entry, turn: Turn,
                   r: Rid)
    returns (fs: seq<Event>, u: Sys)
    requires Reached(s, es, t, b, Scene(others, x, e, turn, Some(x), true)) && Proper(others, x, turn, Some(x))
    requires turn.pc.Beginning? && t.outboxOn && r !in t.w.outbox
    ensures Reached(s, fs, u, b, Scene(others, x, e, turn.(rid := Some(r), pc := Publishing), Some(x), true))
    ensures u.w == t.w.(outbox := t.w.outbox[r := Inflight])
  {
    SceneIsWellFormed(others, x, e, turn, Some(x), true);
    SceneTurns(others, x, e, turn, Some(x), true, turn.(rid := Some(r), pc := Publishing));
    fs, u := Moves(s, es, t, b, Scene(others, x, e, turn, Some(x), true), x, Run(BeginDone(r)));
  }

  lemma AwaitPublish(s: Sys, es: seq<Event>, t: Sys, b: Aid, others: map<Sid, Entry>, x: Sid, e: Entry, turn: Turn)
    returns (fs: seq<Event>, u: Sys)
    requires Reached(s, es, t, b, Scene(others, x, e, turn, Some(x), true)) && Proper(others, x, turn, Some(x))
    requires turn.pc.Publishing? && turn.rid.Some?
    ensures Reached(s, fs, u, b, Scene(others, x, e, turn.(outcome := Sent, pc := Updating), Some(x), true))
    ensures u.w == t.w
  {
    SceneIsWellFormed(others, x, e, turn, Some(x), true);
    SceneTurns(others, x, e, turn, Some(x), true, turn.(outcome := Sent, pc := Updating));
    fs, u := Moves(s, es, t, b, Scene(others, x, e, turn, Some(x), true), x, Run(PublishDone(Sent)));
  }

  lemma AwaitUpdate(s: Sys, es: seq<Event>, t: Sys, b: Aid, others: map<Sid, Entry>, x: Sid, e: Entry, turn: Turn)
    returns (fs: seq<Event>, u: Sys)
    requires Reached(s, es, t, b, Scene(others, x, e, turn, Some(x), true)) && Proper(others, x, turn, Some(x))
    requires turn.pc.Updating? && turn.rid.Some? && turn.rid.value in t.w.outbox && t.w.outbox[turn.rid.value].Inflight?
    requires turn.outcome.Sent? && !turn.aborted && turn.staged.Some?
    ensures Reached(s, fs, u, b, Scene(others, x, e, turn.(pc := Saving), Some(x), true))
    ensures u.w == t.w.(outbox := t.w.outbox[turn.rid.value := Sent])
  {
    SceneIsWellFormed(others, x, e, turn, Some(x), true);
    SceneTurns(others, x, e, turn, Some(x), true, turn.(pc := Saving));
    fs, u := Moves(s, es, t, b, Scene(others, x, e, turn, Some(x), true), x, Run(UpdateDone));
  }

  function Checkpointed(e: Entry): Entry {
    e.(blockMine := false, safeToTransfer := true)
  }

  lemma AwaitSave(s: Sys, es: seq<Event>, t: Sys, b: Aid, others: map<Sid, Entry>, x: Sid, e: Entry, turn: Turn)
    returns (fs: seq<Event>, u: Sys)
    requires Reached(s, es, t, b, Scene(others, x, e, turn, Some(x), true)) && Proper(others, x, turn, Some(x))
    requires turn.pc.Saving? && turn.staged.Some? && turn.rid.Some? && t.w.lock == Some(b)
    ensures Reached(s, fs, u, b, Rest(others[x := Checkpointed(e)], Some(x)))
    ensures u.w == t.w.(rec := R.Ready(turn.staged.value), blame := Nobody)
  {
    SceneIsWellFormed(others, x, e, turn, Some(x), true);
    SceneEntry(others, x, e, turn, Some(x), true, Checkpointed(e));
    SceneEnds(others, x, turn);
    fs, u := Moves(s, es, t, b, Scene(others, x, e, turn, Some(x), true), x, Run(SaveDone));
  }
}
