/**
 A fact about whole runs that no single state shows: a session whose channel was transferred
 away never starts its provider again.
 */
module DurableTurnsHistory {

  import opened Options
  import opened AcpServer
  import opened DurableTurns
  import opened DurableTurnsInvariant
  import opened DurableTurnsSafety
  import R = SessionRecord

  // ---- Displaced sessions ----

  predicate Displaced(m: Memory, x: Sid, last: Option<Child>) {
    x in m.entries && m.entries[x].invalidated && m.entries[x].provider.last == last
  }

  lemma GateKeepsDisplaced(w: World, on: bool, a: Aid, m: Memory, y: Sid, act: GateAct, x: Sid, last: Option<Child>)
    requires WellFormed(m) && y in m.turns && CanGate(w, on, a, m, y, act) && x != y && Displaced(m, x, last)
    ensures Displaced(AfterGate(w, on, a, m, y, act), x, last)
  {
    if act.ScopeDone? {
      ScopedKeepsDisplaced(m, y, w.lock == Some(a), x, last);
    } else if act.CancelRetireDone? {
      RetiredKeepsDisplaced(m, y, w.lock == Some(a), x, last);
    }
  }

  lemma ScopedKeepsDisplaced(m: Memory, y: Sid, owns: bool, x: Sid, last: Option<Child>)
    requires At(m, y, Scoping) && x != y && Displaced(m, x, last)
    ensures Displaced(Scoped(m, y, owns), x, last)
  {}

  lemma RetiredKeepsDisplaced(m: Memory, y: Sid, owns: bool, x: Sid, last: Option<Child>)
    requires At(m, y, CancelRetire) && x != y && Displaced(m, x, last)
    ensures Displaced(CancelRetired(m, y, owns), x, last)
  {}

  lemma RecordKeepsDisplaced(w: World, a: Aid, m: Memory, y: Sid, act: RecordAct, x: Sid, last: Option<Child>)
    requires WellFormed(m) && y in m.turns && CanRecord(w, a, m, y, act) && x != y && Displaced(m, x, last)
    ensures Displaced(AfterRecord(w, a, m, y, act), x, last)
  {
    if act.LoadOpen? || act.RereadOpen? {
      OpenKeepsDisplaced(m, y, w.lock == Some(a), R.IdOf(w.rec), act.built, x, last);
    }
  }

  /** Displacing the session a turn takes over from, as `Commit` does before it clears the newcomer's own mark. */
  function Displacing(m: Memory, y: Sid): Memory
    requires WellFormed(m) && y in m.turns
  {
    var t := m.turns[y];
    if t.from.Some? then
      var f := m.entries[t.from.value].(safeToTransfer := false, invalidated := true, cancelSettled := false);
      WithTurn(WithEntry(m, t.from.value, f), y, t.(committed := true))
    else m
  }

  lemma DisplacingKeepsDisplaced(m: Memory, y: Sid, x: Sid, last: Option<Child>)
    requires WellFormed(m) && y in m.turns && x != y && Displaced(m, x, last)
    ensures Displaced(Displacing(m, y), x, last)
  {}

  lemma DisplacingIsWellFormed(m: Memory, y: Sid)
    requires WellFormed(m) && y in m.turns
    ensures WellFormed(Displacing(m, y)) && y in Displacing(m, y).turns
  {}

  lemma ClearingKeepsDisplaced(m: Memory, y: Sid, x: Sid, last: Option<Child>)
    requires WellFormed(m) && y in m.turns && x != y && Displaced(m, x, last)
    ensures var m' := WithEntry(m, y, m.entries[y].(blockMine := false));
            Displaced(m', x, last) && WellFormed(m') && y in m'.turns
  {}

  lemma CommitKeepsDisplaced(m: Memory, y: Sid, x: Sid, last: Option<Child>)
    requires WellFormed(m) && y in m.turns && x != y && Displaced(m, x, last)
    ensures Displaced(Commit(m, y), x, last) && WellFormed(Commit(m, y)) && y in Commit(m, y).turns
  {
    DisplacingIsWellFormed(m, y);
    DisplacingKeepsDisplaced(m, y, x, last);
    ClearingKeepsDisplaced(Displacing(m, y), y, x, last);
  }

  lemma BindKeepsDisplaced(m: Memory, y: Sid, owns: bool, saved: Option<Conv>, built: bool, x: Sid, last: Option<Child>)
    requires WellFormed(m) && y in m.turns && x != y && Displaced(m, x, last)
    ensures Displaced(Bind(m, y, owns, saved, built), x, last)
  {
    if !(m.entries[y].needsReplacement && !built) {
      var m' := WithEntry(m, y, Rebuilt(m.entries[y]));
      assert Displaced(m', x, last) && WellFormed(m');
      AttachKeepsDisplaced(m', y, owns, saved, x, last);
    }
  }

  lemma AttachKeepsDisplaced(m: Memory, y: Sid, owns: bool, saved: Option<Conv>, x: Sid, last: Option<Child>)
    requires WellFormed(m) && y in m.turns && x != y && Displaced(m, x, last)
    ensures Displaced(Attach(m, y, owns, saved), x, last)
  {}

  lemma OpenKeepsDisplaced(m: Memory, y: Sid, owns: bool, saved: Option<Conv>, built: bool, x: Sid, last: Option<Child>)
    requires WellFormed(m) && y in m.turns && x != y && Displaced(m, x, last)
    ensures Displaced(Open(m, y, owns, saved, built), x, last)
  {
    CommitKeepsDisplaced(m, y, x, last);
    BindKeepsDisplaced(Commit(m, y), y, owns, saved, built, x, last);
  }

  lemma RunKeepsDisplaced(w: World, on: bool, a: Aid, m: Memory, y: Sid, act: RunAct, x: Sid, last: Option<Child>)
    requires WellFormed(m) && y in m.turns && CanRun(w, on, a, m, y, act) && x != y && Displaced(m, x, last)
    ensures Displaced(AfterRun(w, on, a, m, y, act), x, last)
  {}

  lemma DisplacedIsIdle(w: World, a: Aid, m: Memory, x: Sid, last: Option<Child>)
    requires MemoryOk(w, a, m) && Displaced(m, x, last)
    ensures WellFormed(m) && x !in m.turns
  {
    assert EntryOk(w, a, m, x);
  }

  lemma ActKeepsDisplaced(w: World, on: bool, a: Aid, m: Memory, y: Sid, act: Act, x: Sid, last: Option<Child>)
    requires WellFormed(m) && x !in m.turns && CanAct(w, on, a, m, y, act) && Displaced(m, x, last)
    ensures Displaced(Remember(w, on, a, m, y, act), x, last)
  {
    match act
    case Prompts => PromptKeepsDisplaced(m, y, w.lock == Some(a), x, last);
    case Cancels =>
    case Gate(g) => GateKeepsDisplaced(w, on, a, m, y, g, x, last);
    case Rec(r) => RecordKeepsDisplaced(w, a, m, y, r, x, last);
    case Run(r) => RunKeepsDisplaced(w, on, a, m, y, r, x, last);
  }

  lemma PromptKeepsDisplaced(m: Memory, y: Sid, owned: bool, x: Sid, last: Option<Child>)
    requires CanPrompt(m, y) && Displaced(m, x, last)
    ensures Displaced(Prompt(m, y, owned), x, last)
  {}

  lemma EventKeepsDisplaced(s: Sys, e: Event, a: Aid, x: Sid, last: Option<Child>)
    requires Inv(s) && Enabled(s, e) && a in s.ads && Displaced(s.ads[a], x, last)
    requires e != Crash(a) && e != CloseEnds(a)
    ensures a in Apply(s, e).ads && Displaced(Apply(s, e).ads[a], x, last)
  {
    DisplacedIsIdle(s.w, a, s.ads[a], x, last);
    if e.Step? && e.aid == a { ActKeepsDisplaced(s.w, s.outboxOn, a, s.ads[a], e.sid, e.act, x, last); }
  }

  /** From the transfer to the end of the process, the displaced session's last child stays its last. */
  lemma {:induction false} DisplacedNeverStarts(s: Sys, es: seq<Event>, s': Sys, a: Aid, x: Sid)
    requires Inv(s) && MildPath(s, es, s') && a in s.ads && x in s.ads[a].entries && s.ads[a].entries[x].invalidated
    requires Crash(a) !in es && CloseEnds(a) !in es
    ensures a in s'.ads && Displaced(s'.ads[a], x, s.ads[a].entries[x].provider.last)
    decreases |es|
  {
    if es != [] {
      var last := s.ads[a].entries[x].provider.last;
      assert es[0] in es;
      EventKeepsDisplaced(s, es[0], a, x, last);
      KeepEvent(s, es[0]);
      DisplacedNeverStarts(Apply(s, es[0]), es[1..], s', a, x);
    }
  }
}
