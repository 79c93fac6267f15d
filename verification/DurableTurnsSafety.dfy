/**
 The invariant over every event of the whole system, and what it gives for every run.
 */
module DurableTurnsSafety {

  import opened Options
  import opened AcpServer
  import opened DurableTurns
  import opened DurableTurnsInvariant
  import opened DurableTurnsGate
  import opened DurableTurnsRecord
  import opened DurableTurnsRun
  import R = SessionRecord

  // ---- The other adapters ----

  /** The world changes under the hands of another adapter, which holds or takes the lock. */
  predicate Elsewhere(w: World, w': World, b: Aid) {
    && w.lock != Some(b)
    && (if w.blame.Mine? && w.blame.aid == b
        then w'.blame == w.blame && w'.live == w.live && w'.outbox == w.outbox
        else !(w'.blame.Mine? && w'.blame.aid == b))
  }

  lemma BystanderTurn(w: World, w': World, b: Aid, n: Memory, x: Sid)
    requires MemoryOk(w, b, n) && Elsewhere(w, w', b) && x in n.turns
    ensures TurnOk(w', b, n, x)
  {
    assert TurnOk(w, b, n, x) && EntryOk(w, b, n, x);
    assert TransferOk(w', b, n, x);
    assert PreflightOk(w', b, n, x);
  }

  lemma Bystander(w: World, w': World, b: Aid, n: Memory)
    requires MemoryOk(w, b, n) && BlameOk(w, b, n) && Elsewhere(w, w', b)
    ensures MemoryOk(w', b, n) && BlameOk(w', b, n)
  {
    forall x | x in n.turns ensures TurnOk(w', b, n, x) { BystanderTurn(w, w', b, n, x); }
    forall y | y in n.entries ensures EntryOk(w', b, n, y) { assert EntryOk(w, b, n, y); }
  }

  /** An adapter that changes the world holds the lock or takes it, and touches no other's block. */
  lemma TouchIsElsewhere(w: World, on: bool, a: Aid, m: Memory, x: Sid, act: Act, b: Aid)
    requires MemoryOk(w, a, m) && BlameOk(w, a, m) && CanAct(w, on, a, m, x, act) && a != b
    ensures var w' := Touch(w, on, a, m, x, act); w' == w || Elsewhere(w, w', b)
  {
    if x in m.turns {
      assert TurnOk(w, a, m, x);
    }
  }

  // ---- One adapter's step ----

  lemma CancelledIsWellFormed(m: Memory, x: Sid)
    requires WellFormed(m) && x in m.turns
    ensures WellFormed(Cancel(m, x))
  {}

  lemma CancelledTransfer(w: World, a: Aid, m: Memory, x: Sid)
    requires WellFormed(m) && x in m.turns && TransferOk(w, a, m, x) && WellFormed(Cancel(m, x))
    ensures TransferOk(w, a, Cancel(m, x), x)
  {}

  lemma CancelledPreflight(w: World, a: Aid, m: Memory, x: Sid)
    requires WellFormed(m) && x in m.turns && PreflightOk(w, a, m, x) && WellFormed(Cancel(m, x))
    ensures PreflightOk(w, a, Cancel(m, x), x)
  {}

  lemma CancelledTurn(w: World, a: Aid, m: Memory, x: Sid)
    requires WellFormed(m) && x in m.turns && TurnOk(w, a, m, x)
    ensures WellFormed(Cancel(m, x)) && TurnOk(w, a, Cancel(m, x), x)
  {
    CancelledIsWellFormed(m, x);
    CancelledTransfer(w, a, m, x);
    CancelledPreflight(w, a, m, x);
  }

  lemma KeepOwnMemory(w: World, on: bool, a: Aid, m: Memory, x: Sid, act: Act)
    requires MemoryOk(w, a, m) && BlameOk(w, a, m) && WorldOk(w) && CanAct(w, on, a, m, x, act) && Tolerated(m, x, act)
    ensures var w' := Touch(w, on, a, m, x, act);
            var m' := Remember(w, on, a, m, x, act);
            MemoryOk(w', a, m') && BlameOk(w', a, m') && WorldOk(w')
  {
    match act
    case Prompts =>
      if Busy(m, x) {
        PromptBusyRefuses(m, x);
        KeepRefusedPrompt(w, a, m, x, Prompt(m, x, w.lock == Some(a)));
      } else {
        KeepPromptFree(w, a, m, x);
      }
    case Cancels =>
      if x in m.turns {
        CancelledTurn(w, a, m, x);
        KeepTurn(w, a, m, x, m.turns[x].(aborted := true, cancelled := true));
      }
    case Gate(g) => KeepGate(w, on, a, m, x, g);
    case Rec(r) => KeepRecord(w, a, m, x, r);
    case Run(r) => KeepRun(w, on, a, m, x, r);
  }

  lemma KeepStep(s: Sys, a: Aid, x: Sid, act: Act)
    requires Inv(s) && Enabled(s, Step(a, x, act)) && Tolerated(s.ads[a], x, act)
    ensures Inv(Apply(s, Step(a, x, act)))
  {
    var m := s.ads[a];
    KeepOwnMemory(s.w, s.outboxOn, a, m, x, act);
    var s' := Apply(s, Step(a, x, act));
    forall b | b in s'.ads ensures MemoryOk(s'.w, b, s'.ads[b]) && BlameOk(s'.w, b, s'.ads[b]) {
      if b != a {
        TouchIsElsewhere(s.w, s.outboxOn, a, m, x, act, b);
        if s'.w != s.w { Bystander(s.w, s'.w, b, s.ads[b]); }
      }
    }
    StepKeepsHolders(s, a, x, act);
  }

  lemma StepKeepsHolders(s: Sys, a: Aid, x: Sid, act: Act)
    requires Inv(s) && Enabled(s, Step(a, x, act))
    ensures var w' := Apply(s, Step(a, x, act)).w;
            && (w'.lock.Some? ==> w'.lock.value == a || w'.lock == s.w.lock)
            && (w'.blame.Mine? ==> w'.blame.aid == a || w'.blame == s.w.blame)
  {}

  // ---- The other events ----

  lemma KeepNewSession(w: World, a: Aid, m: Memory, x: Sid)
    requires MemoryOk(w, a, m) && BlameOk(w, a, m) && x !in m.entries
    ensures MemoryOk(w, a, NewSession(m, x)) && BlameOk(w, a, NewSession(m, x))
  {
    var m' := NewSession(m, x);
    forall y | y in m'.entries ensures EntryOk(w, a, m', y) {
      if y != x {
        assert EntryOk(w, a, m, y);
        if Successor(m, y) {
          var z :| z in m.turns && m.turns[z].from == Some(y) && !m.turns[z].committed && m.pin == Some(z);
          assert z in m'.turns;
        }
      }
    }
    forall z | z in m'.turns ensures TurnOk(w, a, m', z) { NewSessionTurn(w, a, m, x, z); }
  }

  lemma NewSessionTurn(w: World, a: Aid, m: Memory, x: Sid, z: Sid)
    requires WellFormed(m) && x !in m.entries && z in m.turns && TurnOk(w, a, m, z)
    ensures WellFormed(NewSession(m, x)) && TurnOk(w, a, NewSession(m, x), z)
  {
    var m' := NewSession(m, x);
    assert TransferOk(w, a, m', z);
    assert PreflightOk(w, a, m', z);
    if Started(m.turns[z].pc) { assert StartedOk(w, a, m', z); }
  }

  lemma ClosedIsWellFormed(m: Memory)
    requires WellFormed(m)
    ensures WellFormed(Close(m))
  {}

  lemma ClosedTransfer(w: World, a: Aid, m: Memory, x: Sid)
    requires WellFormed(m) && x in m.turns && TransferOk(w, a, m, x) && WellFormed(Close(m))
    ensures TransferOk(w, a, Close(m), x)
  {}

  lemma ClosedPreflight(w: World, a: Aid, m: Memory, x: Sid)
    requires WellFormed(m) && x in m.turns && PreflightOk(w, a, m, x) && WellFormed(Close(m))
    ensures PreflightOk(w, a, Close(m), x)
  {}

  lemma ClosedStarted(w: World, a: Aid, m: Memory, x: Sid)
    requires WellFormed(m) && x in m.turns && StartedOk(w, a, m, x) && WellFormed(Close(m))
    ensures StartedOk(w, a, Close(m), x)
  {}

  lemma ClosedTurn(w: World, a: Aid, m: Memory, x: Sid)
    requires WellFormed(m) && x in m.turns && TurnOk(w, a, m, x)
    ensures WellFormed(Close(m)) && TurnOk(w, a, Close(m), x)
  {
    ClosedIsWellFormed(m);
    ClosedTransfer(w, a, m, x);
    ClosedPreflight(w, a, m, x);
    if Started(m.turns[x].pc) { ClosedStarted(w, a, m, x); }
  }

  lemma KeepClose(w: World, a: Aid, m: Memory)
    requires MemoryOk(w, a, m) && BlameOk(w, a, m)
    ensures MemoryOk(w, a, Close(m)) && BlameOk(w, a, Close(m))
  {
    var m' := Close(m);
    assert m'.turns.Keys == m.turns.Keys;
    forall y | y in m'.entries ensures EntryOk(w, a, m', y) {
      assert EntryOk(w, a, m, y);
      if Successor(m, y) {
        var z :| z in m.turns && m.turns[z].from == Some(y) && !m.turns[z].committed && m.pin == Some(z);
        assert z in m'.turns && m'.turns[z].from == Some(y);
      }
    }
    forall x | x in m'.turns ensures TurnOk(w, a, m', x) { ClosedTurn(w, a, m, x); }
    if m'.liveBlock { assert exists x :: x in m'.turns; }
  }

  /** A child that exits only takes itself away. */
  lemma KeepChildExit(w: World, a: Aid, m: Memory, c: Child)
    requires MemoryOk(w, a, m) && BlameOk(w, a, m)
    ensures MemoryOk(w.(live := w.live - {c}), a, m) && BlameOk(w.(live := w.live - {c}), a, m)
  {
    var w' := w.(live := w.live - {c});
    forall y | y in m.entries ensures EntryOk(w', a, m, y) { assert EntryOk(w, a, m, y); }
    forall x | x in m.turns ensures TurnOk(w', a, m, x) { assert TurnOk(w, a, m, x); }
  }

  /** An operator's step never unsettles a settled channel nor touches the record of a turn in flight. */
  predicate Operated(o: map<Rid, Delivery>, o': map<Rid, Delivery>) {
    && (Settled(o) ==> Settled(o'))
    && forall r | r in o && o[r].Inflight? :: r in o' && o'[r].Inflight? && (SettledBut(o, Some(r)) ==> SettledBut(o',
                                                                      Some(r)))
  }

  lemma OperatedTurn(w: World, a: Aid, m: Memory, x: Sid, o: map<Rid, Delivery>)
    requires WellFormed(m) && x in m.turns && TurnOk(w, a, m, x) && Operated(w.outbox, o)
    ensures TurnOk(w.(outbox := o), a, m, x)
  {
    var w' := w.(outbox := o);
    assert TransferOk(w', a, m, x);
    assert PreflightOk(w', a, m, x);
    if Started(m.turns[x].pc) {
      var t := m.turns[x];
      if t.rid.None? && SettledBut(w.outbox, None) { assert Settled(w.outbox); }
      assert StartedOk(w', a, m, x);
    }
  }

  lemma KeepOperated(w: World, a: Aid, m: Memory, o: map<Rid, Delivery>, retrying: set<Rid>)
    requires MemoryOk(w, a, m) && BlameOk(w, a, m) && Operated(w.outbox, o)
    ensures MemoryOk(w.(outbox := o, retrying := retrying), a, m)
    ensures BlameOk(w.(outbox := o, retrying := retrying), a, m)
  {
    var w1 := w.(outbox := o);
    var w' := w.(outbox := o, retrying := retrying);
    forall y | y in m.entries ensures EntryOk(w', a, m, y) { assert EntryOk(w, a, m, y); }
    forall x | x in m.turns ensures TurnOk(w', a, m, x) {
      OperatedTurn(w, a, m, x, o);
      assert TurnOk(w1, a, m, x);
    }
  }

  lemma KeepOutboxEvent(s: Sys, o: map<Rid, Delivery>, retrying: set<Rid>)
    requires Inv(s) && Operated(s.w.outbox, o)
    ensures Inv(s.(w := s.w.(outbox := o, retrying := retrying)))
  {
    forall a | a in s.ads
      ensures MemoryOk(s.w.(outbox := o, retrying := retrying), a, s.ads[a])
          && BlameOk(s.w.(outbox := o, retrying := retrying), a, s.ads[a])
    {
      KeepOperated(s.w, a, s.ads[a], o, retrying);
    }
  }

  lemma GoneTurn(w: World, a: Aid, b: Aid, n: Memory, x: Sid)
    requires MemoryOk(w, b, n) && a != b && x in n.turns
    ensures TurnOk(Abandoned(w, a), b, n, x)
  {
    var w' := Abandoned(w, a);
    assert TurnOk(w, b, n, x);
    assert TransferOk(w', b, n, x);
    assert PreflightOk(w', b, n, x);
    if Started(n.turns[x].pc) { assert StartedOk(w', b, n, x); }
  }

  lemma BesideGone(w: World, a: Aid, b: Aid, n: Memory)
    requires MemoryOk(w, b, n) && BlameOk(w, b, n) && a != b
    ensures MemoryOk(Abandoned(w, a), b, n) && BlameOk(Abandoned(w, a), b, n)
  {
    forall x | x in n.turns ensures TurnOk(Abandoned(w, a), b, n, x) { GoneTurn(w, a, b, n, x); }
    forall y | y in n.entries ensures EntryOk(Abandoned(w, a), b, n, y) { assert EntryOk(w, b, n, y); }
  }

  lemma KeepGone(s: Sys, a: Aid)
    requires Inv(s)
    ensures Inv(Gone(s, a))
  {
    var s' := Gone(s, a);
    forall b | b in s'.ads ensures MemoryOk(s'.w, b, s'.ads[b]) && BlameOk(s'.w, b, s'.ads[b]) {
      BesideGone(s.w, a, b, s.ads[b]);
    }
  }

  // ---- Every event, every run ----

  predicate Mild(s: Sys, e: Event) {
    e.Step? && e.aid in s.ads ==> Tolerated(s.ads[e.aid], e.sid, e.act)
  }

  ghost predicate Path(s: Sys, es: seq<Event>, s': Sys)
    decreases |es|
  {
    if es == [] then s == s' else Enabled(s, es[0]) && Path(Apply(s, es[0]), es[1..], s')
  }

  /** A run in which every storage failure is one the protocol tolerates. */
  ghost predicate MildPath(s: Sys, es: seq<Event>, s': Sys)
    decreases |es|
  {
    if es == [] then s == s' else Enabled(s, es[0]) && Mild(s, es[0]) && MildPath(Apply(s, es[0]), es[1..], s')
  }

  function Start0(on: bool): Sys {
    Sys(INITIAL, map[], on)
  }

  lemma KeepEvent(s: Sys, e: Event)
    requires Inv(s) && Enabled(s, e) && Mild(s, e)
    ensures Inv(Apply(s, e))
  {
    match e
    case Step(a, x, act) => KeepStep(s, a, x, act);
    case NewAdapter(a) => assert MemoryOk(s.w, a, EMPTY_MEMORY);
    case OpenSession(a, x) => KeepNewSession(s.w, a, s.ads[a], x);
    case CloseStarts(a) => KeepClose(s.w, a, s.ads[a]);
    case CloseEnds(a) => KeepGone(s, a);
    case Crash(a) => KeepGone(s, a);
    case ChildExit(c) =>
      forall a | a in s.ads ensures MemoryOk(s.w.(live := s.w.live - {c}), a, s.ads[a])
          && BlameOk(s.w.(live := s.w.live - {c}), a, s.ads[a]) {
        KeepChildExit(s.w, a, s.ads[a], c);
      }
    case RetryClaims(r) => KeepOutboxEvent(s, s.w.outbox[r := Uncertain], s.w.retrying + {r});
    case RetryEnds(r, outcome) => KeepOutboxEvent(s, s.w.outbox[r := outcome], s.w.retrying - {r});
    case RetryDies(r) => KeepOutboxEvent(s, s.w.outbox, s.w.retrying - {r});
    case Archive(r) => KeepOutboxEvent(s, s.w.outbox - {r}, s.w.retrying);
  }

  lemma {:induction false} KeepPath(s: Sys, es: seq<Event>, s': Sys)
    requires Inv(s) && MildPath(s, es, s')
    ensures Inv(s')
    decreases |es|
  {
    if es != [] {
      KeepEvent(s, es[0]);
      KeepPath(Apply(s, es[0]), es[1..], s');
    }
  }

  // ---- What every run guarantees ----

  /** At most one provider child is live, and none while the record is absent or ready. */
  predicate OneChild(w: World) {
    && (forall c, d | c in w.live && d in w.live :: c == d)
    && (!w.rec.Blocked? ==> w.live == {})
  }

  /** An open record leaves no delivery of the channel unsettled. */
  predicate OpenMeansSettled(w: World) {
    !w.rec.Blocked? ==> Settled(w.outbox)
  }

  /** One turn at a time; the live-block mark lasts no longer; a displaced session has no turn. */
  predicate OneTurnEach(s: Sys) {
    forall a | a in s.ads ::
      && OneTurn(s.ads[a])
      && (s.ads[a].liveBlock ==> s.ads[a].turns != map[])
      && forall x | x in s.ads[a].turns :: x in s.ads[a].entries && !s.ads[a].entries[x].invalidated
  }

  /** An answer is published only under a record blocked with the id of its own, retired provider. */
  predicate PublishedUnderItsId(s: Sys) {
    forall a, x | a in s.ads && x in s.ads[a].turns && x in s.ads[a].entries && s.ads[a].turns[x].pc.Publishing? ::
      var p := s.ads[a].entries[x].provider;
      p.conv.Some? && s.w.rec == R.Blocked(p.conv) && s.w.lock == Some(a) && ChildGone(s.w, p) && s.w.live == {}
  }

  lemma InvGuarantees(s: Sys)
    requires Inv(s)
    ensures OneChild(s.w) && OpenMeansSettled(s.w) && OneTurnEach(s) && PublishedUnderItsId(s)
  {
    forall a | a in s.ads
      ensures OneTurn(s.ads[a]) && (s.ads[a].liveBlock ==> s.ads[a].turns != map[])
      ensures forall x | x in s.ads[a].turns :: x in s.ads[a].entries && !s.ads[a].entries[x].invalidated
    {
      forall x | x in s.ads[a].turns ensures x in s.ads[a].entries && !s.ads[a].entries[x].invalidated {
        assert EntryOk(s.w, a, s.ads[a], x);
      }
    }
    forall a, x | a in s.ads && x in s.ads[a].turns && x in s.ads[a].entries && s.ads[a].turns[x].pc.Publishing?
      ensures var p := s.ads[a].entries[x].provider;
              p.conv.Some? && s.w.rec == R.Blocked(p.conv) && s.w.lock == Some(a) && ChildGone(s.w, p) && s.w.live == {}
    {
      assert TurnOk(s.w, a, s.ads[a], x);
    }
  }

  lemma EveryRunIsSafe(on: bool, es: seq<Event>, s: Sys)
    requires MildPath(Start0(on), es, s)
    ensures OneChild(s.w) && OpenMeansSettled(s.w) && OneTurnEach(s) && PublishedUnderItsId(s)
  {
    KeepPath(Start0(on), es, s);
    InvGuarantees(s);
  }

  // ---- The conversation id is never lost ----

  lemma StepKeepsId(s: Sys, e: Event)
    requires Enabled(s, e) && R.IdOf(s.w.rec).Some?
    ensures R.IdOf(Apply(s, e).w.rec).Some?
  {
    if e.Step? && e.act.Rec? {
      match e.act.record
      case ReconcileDone =>
      case ReconcileFault =>
      case InvalidateDone =>
      case InvalidateFault =>
      case _ =>
    }
  }

  /** Whatever fails and whoever crashes: an id once recorded is never again null or absent. */
  lemma {:induction false} IdIsNeverLost(s: Sys, es: seq<Event>, s': Sys)
    requires Path(s, es, s') && R.IdOf(s.w.rec).Some?
    ensures R.IdOf(s'.w.rec).Some?
    decreases |es|
  {
    if es != [] {
      StepKeepsId(s, es[0]);
      IdIsNeverLost(Apply(s, es[0]), es[1..], s');
    }
  }
}
