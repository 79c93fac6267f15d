/**
 The invariant through the turn itself: running the provider, retiring it, staging its id,
 publishing its answer and saving the ready checkpoint.
 */
module DurableTurnsRun {

  import opened Options
  import opened AcpServer
  import opened DurableTurns
  import opened DurableTurnsInvariant
  import R = SessionRecord

  /** A started turn and the entry and block that belong to it. */
  predicate AtStarted(w: World, a: Aid, m: Memory, x: Sid) {
    MemoryOk(w, a, m) && BlameOk(w, a, m) && WorldOk(w) && x in m.turns && Started(m.turns[x].pc)
  }

  /** Nobody else can have a claim while a turn runs. */
  lemma NoOtherClaims(w: World, a: Aid, m: Memory, x: Sid, y: Sid)
    requires AtStarted(w, a, m, x) && y in m.entries
    ensures !NoStart(m.entries[y]) && (y != x && m.entries[y].needsReplacement ==> m.entries[y].invalidated)
    ensures w.blame == Mine(a, x) && w.lock == Some(a) && m.pin == Some(x) && m.turns.Keys == {x}
  {
    assert TurnOk(w, a, m, x) && EntryOk(w, a, m, y) && EntryOk(w, a, m, x);
  }

  // ---- Leaving the turn unsafely ----

  lemma KeepSettle(w: World, a: Aid, m: Memory, x: Sid)
    requires AtStarted(w, a, m, x)
    ensures MemoryOk(w, a, SettleUnsafe(m, x)) && BlameOk(w, a, SettleUnsafe(m, x))
    ensures SettleUnsafe(m, x).turns == map[] && w.blame == Mine(a, x)
    ensures x in SettleUnsafe(m, x).entries && SettleUnsafe(m, x).entries[x].everStarted
    ensures forall y | y in SettleUnsafe(m, x).entries :: !NoStart(SettleUnsafe(m, x).entries[y])
  {
    var m' := SettleUnsafe(m, x);
    NoOtherClaims(w, a, m, x, x);
    assert TurnOk(w, a, m, x);
    assert m'.turns.Keys == {};
    forall y | y in m'.entries ensures EntryOk(w, a, m', y) && !NoStart(m'.entries[y]) {
      NoOtherClaims(w, a, m, x, y);
      assert EntryOk(w, a, m, y);
    }
  }

  /** Once the turn is gone, its entry does not depend on the record id or the outbox. */
  lemma KeepAfterwards(w: World, a: Aid, m: Memory, rec: R.Record, outbox: map<Rid, Delivery>)
    requires MemoryOk(w, a, m) && BlameOk(w, a, m) && WorldOk(w) && m.turns == map[] && rec.Blocked?
    requires w.blame.Mine? && w.blame.aid == a && m.entries[w.blame.sid].everStarted
    ensures var w' := w.(rec := rec, outbox := outbox);
            MemoryOk(w', a, m) && BlameOk(w', a, m) && WorldOk(w')
  {
    var w' := w.(rec := rec, outbox := outbox);
    forall y | y in m.entries ensures EntryOk(w', a, m, y) { assert EntryOk(w, a, m, y); }
  }

  /** The ready record was written although the call failed. */
  lemma KeepSaveFault(w: World, a: Aid, m: Memory, x: Sid, conv: Conv)
    requires AtStarted(w, a, m, x) && m.turns[x].pc.Saving?
    ensures var w' := w.(rec := R.Ready(conv), blame := Nobody);
            MemoryOk(w', a, SettleUnsafe(m, x)) && WorldOk(w')
  {
    var w' := w.(rec := R.Ready(conv), blame := Nobody);
    assert TurnOk(w, a, m, x);
    KeepSettle(w, a, m, x);
    var m' := SettleUnsafe(m, x);
    forall y | y in m'.entries ensures EntryOk(w', a, m', y) { assert EntryOk(w, a, m', y); }
  }

  // ---- The provider ----

  /** Changing only the provider object of the running entry. */
  lemma KeepProvider(w: World, a: Aid, m: Memory, x: Sid, w': World, p: Provider)
    requires AtStarted(w, a, m, x) && m.turns[x].pc.Running?
    requires w' == w.(live := w'.live, nextChild := w'.nextChild) && OnlyChild(w', p)
    ensures var m' := WithEntry(m, x, m.entries[x].(provider := p));
            MemoryOk(w', a, m') && BlameOk(w', a, m') && WorldOk(w')
  {
    var m' := WithEntry(m, x, m.entries[x].(provider := p));
    NoOtherClaims(w, a, m, x, x);
    ProviderTurn(w, a, m, x, w', p);
    forall y | y in m'.entries ensures EntryOk(w', a, m', y) {
      NoOtherClaims(w, a, m, x, y);
      assert EntryOk(w, a, m, y);
    }
  }

  lemma ProviderTurn(w: World, a: Aid, m: Memory, x: Sid, w': World, p: Provider)
    requires At(m, x, Running) && TurnOk(w, a, m, x)
    requires w' == w.(live := w'.live, nextChild := w'.nextChild) && OnlyChild(w', p)
    ensures WellFormed(WithEntry(m, x, m.entries[x].(provider := p)))
    ensures TurnOk(w', a, WithEntry(m, x, m.entries[x].(provider := p)), x)
  {
    var m' := WithEntry(m, x, m.entries[x].(provider := p));
    assert TransferOk(w', a, m', x);
    assert StartedOk(w', a, m', x);
  }

  lemma KeepSpawn(w: World, a: Aid, m: Memory, x: Sid)
    requires AtStarted(w, a, m, x) && CanRun(w, true, a, m, x, Spawns)
    ensures var w' := TouchRun(w, true, m, x, Spawns);
            MemoryOk(w', a, Spawned(m, x, w.nextChild)) && BlameOk(w', a, Spawned(m, x, w.nextChild)) && WorldOk(w')
  {
    assert TurnOk(w, a, m, x);
    assert w.live == {};
    KeepProvider(w, a, m, x, TouchRun(w, true, m, x, Spawns), m.entries[x].provider.(last := Some(w.nextChild)));
  }

  lemma KeepInit(w: World, a: Aid, m: Memory, x: Sid, conv: Conv)
    requires AtStarted(w, a, m, x) && m.turns[x].pc.Running?
    ensures MemoryOk(w, a, Initialised(m, x, conv)) && BlameOk(w, a, Initialised(m, x, conv))
  {
    assert TurnOk(w, a, m, x);
    KeepProvider(w, a, m, x, w, Initialised(m, x, conv).entries[x].provider);
  }

  // ---- The turn moves on ----

  /** A step that rewrites the turn record, the blocked record's id and the outbox only. */
  lemma KeepAdvance(w: World, a: Aid, m: Memory, x: Sid, w': World, t: Turn)
    requires AtStarted(w, a, m, x) && w' == w.(rec := w'.rec, outbox := w'.outbox) && w'.rec.Blocked?
    requires t.from == m.turns[x].from && t.committed == m.turns[x].committed && Started(t.pc)
    requires WellFormed(WithTurn(m, x, t)) && TurnOk(w', a, WithTurn(m, x, t), x)
    ensures MemoryOk(w', a, WithTurn(m, x, t)) && BlameOk(w', a, WithTurn(m, x, t)) && WorldOk(w')
  {
    var m' := WithTurn(m, x, t);
    NoOtherClaims(w, a, m, x, x);
    assert m'.turns.Keys == {x};
    assert TurnOk(w, a, m, x);
    forall y | y in m'.entries ensures EntryOk(w', a, m', y) {
      NoOtherClaims(w, a, m, x, y);
      assert EntryOk(w, a, m, y);
    }
  }

  lemma KeepAnswered(w: World, a: Aid, m: Memory, x: Sid)
    requires AtStarted(w, a, m, x) && CanRun(w, true, a, m, x, AnswerDone)
    ensures MemoryOk(w, a, Go(m, x, Retiring)) && BlameOk(w, a, Go(m, x, Retiring))
  {
    assert TurnOk(w, a, m, x);
    AdvanceTo(w, a, m, x, w, m.turns[x].(pc := Retiring));
    KeepAdvance(w, a, m, x, w, m.turns[x].(pc := Retiring));
  }

  /** A started turn whose transfer is as before. */
  predicate Onward(t: Turn, t': Turn) {
    Started(t.pc) && Started(t'.pc) && t'.from == t.from && t'.committed == t.committed && t'.existing == t.existing
  }

  lemma OnwardTransfer(w: World, a: Aid, m: Memory, x: Sid, w': World, t: Turn)
    requires WellFormed(m) && x in m.turns && Onward(m.turns[x], t) && WellFormed(WithTurn(m, x, t))
    requires TransferOk(w, a, m, x)
    ensures TransferOk(w', a, WithTurn(m, x, t), x)
  {
    assert !Choosing(t.pc) && !Preflight(t.pc) && !t.pc.Releasing?;
    var m' := WithTurn(m, x, t);
    assert m'.turns[x] == t && m'.entries == m.entries;
  }

  lemma OnwardPreflight(w: World, a: Aid, m: Memory, x: Sid, w': World, t: Turn)
    requires WellFormed(m) && x in m.turns && Onward(m.turns[x], t) && WellFormed(WithTurn(m, x, t))
    requires PreflightOk(w, a, m, x)
    ensures PreflightOk(w', a, WithTurn(m, x, t), x)
  {}

  /** The parts of `TurnOk` that a started turn keeps while only its started part changes. */
  lemma AdvanceTo(w: World, a: Aid, m: Memory, x: Sid, w': World, t: Turn)
    requires WellFormed(m) && x in m.turns && TurnOk(w, a, m, x) && Onward(m.turns[x], t)
    requires w' == w.(rec := w'.rec, outbox := w'.outbox)
    requires WellFormed(WithTurn(m, x, t)) && StartedOk(w', a, WithTurn(m, x, t), x)
    ensures TurnOk(w', a, WithTurn(m, x, t), x)
  {
    OnwardTransfer(w, a, m, x, w', t);
    OnwardPreflight(w, a, m, x, w', t);
  }

  lemma KeepRetired(w: World, a: Aid, m: Memory, x: Sid)
    requires AtStarted(w, a, m, x) && CanRun(w, true, a, m, x, RetireDone)
    ensures MemoryOk(w, a, Retired(m, x)) && BlameOk(w, a, Retired(m, x))
  {
    if m.turns[x].aborted {
      KeepSettle(w, a, m, x);
    } else {
      assert TurnOk(w, a, m, x);
      AdvanceTo(w, a, m, x, w, m.turns[x].(pc := Staging));
      KeepAdvance(w, a, m, x, w, m.turns[x].(pc := Staging));
    }
  }

  lemma KeepStaged(w: World, a: Aid, m: Memory, x: Sid)
    requires AtStarted(w, a, m, x) && CanRun(w, true, a, m, x, StageDone)
    ensures var w' := TouchRun(w, true, m, x, StageDone);
            var m' := Staged(m, x, m.entries[x].provider.conv.value);
            MemoryOk(w', a, m') && BlameOk(w', a, m') && WorldOk(w')
  {
    var w' := TouchRun(w, true, m, x, StageDone);
    var t := m.turns[x].(staged := m.entries[x].provider.conv, pc := Beginning);
    assert TurnOk(w, a, m, x);
    AdvanceTo(w, a, m, x, w', t);
    KeepAdvance(w, a, m, x, w', t);
  }

  lemma KeepBegun(w: World, on: bool, a: Aid, m: Memory, x: Sid, r: Rid)
    requires AtStarted(w, a, m, x) && CanRun(w, on, a, m, x, BeginDone(r))
    ensures var w' := TouchRun(w, on, m, x, BeginDone(r));
            var m' := Begun(m, x, if on then Some(r) else None);
            MemoryOk(w', a, m') && BlameOk(w', a, m') && WorldOk(w')
  {
    var w' := TouchRun(w, on, m, x, BeginDone(r));
    var t := m.turns[x].(rid := if on then Some(r) else None, pc := Publishing);
    assert TurnOk(w, a, m, x);
    AdvanceTo(w, a, m, x, w', t);
    KeepAdvance(w, a, m, x, w', t);
  }

  lemma KeepDecide(w: World, a: Aid, m: Memory, x: Sid, outcome: Delivery)
    requires AtStarted(w, a, m, x)
    requires m.turns[x].pc.Publishing? && m.turns[x].rid.None?
    ensures MemoryOk(w, a, Decide(m, x, outcome)) && BlameOk(w, a, Decide(m, x, outcome))
  {
    if Decide(m, x, outcome) == SettleUnsafe(m, x) {
      KeepSettle(w, a, m, x);
    } else {
      assert TurnOk(w, a, m, x);
      AdvanceTo(w, a, m, x, w, m.turns[x].(pc := Saving));
      KeepAdvance(w, a, m, x, w, m.turns[x].(pc := Saving));
    }
  }

  lemma KeepPublished(w: World, a: Aid, m: Memory, x: Sid, outcome: Delivery)
    requires AtStarted(w, a, m, x) && CanRun(w, true, a, m, x, PublishDone(outcome))
    ensures MemoryOk(w, a, Published(m, x, outcome)) && BlameOk(w, a, Published(m, x, outcome))
  {
    if m.turns[x].rid.None? {
      KeepDecide(w, a, m, x, outcome);
    } else {
      assert TurnOk(w, a, m, x);
      AdvanceTo(w, a, m, x, w, m.turns[x].(outcome := outcome, pc := Updating));
      KeepAdvance(w, a, m, x, w, m.turns[x].(outcome := outcome, pc := Updating));
    }
  }

  /** The outcome is on disk: an acknowledged one settles the whole channel. */
  lemma KeepUpdated(w: World, a: Aid, m: Memory, x: Sid)
    requires AtStarted(w, a, m, x) && CanRun(w, true, a, m, x, UpdateDone)
    ensures var w' := TouchRun(w, true, m, x, UpdateDone);
            var m' := Decide(m, x, m.turns[x].outcome);
            MemoryOk(w', a, m') && BlameOk(w', a, m') && WorldOk(w')
  {
    var w' := TouchRun(w, true, m, x, UpdateDone);
    assert TurnOk(w, a, m, x);
    if Decide(m, x, m.turns[x].outcome) == SettleUnsafe(m, x) {
      KeepSettle(w, a, m, x);
      KeepAfterwards(w, a, SettleUnsafe(m, x), w.rec, w'.outbox);
    } else {
      AdvanceTo(w, a, m, x, w', m.turns[x].(pc := Saving));
      KeepAdvance(w, a, m, x, w', m.turns[x].(pc := Saving));
    }
  }

  lemma KeepSaved(w: World, a: Aid, m: Memory, x: Sid)
    requires AtStarted(w, a, m, x) && m.turns[x].pc.Saving? && m.turns[x].staged.Some?
    ensures var w' := TouchRun(w, true, m, x, SaveDone);
            MemoryOk(w', a, Saved(m, x)) && WorldOk(w')
  {
    var w' := TouchRun(w, true, m, x, SaveDone);
    var m' := Saved(m, x);
    assert TurnOk(w, a, m, x);
    NoOtherClaims(w, a, m, x, x);
    assert m'.turns.Keys == {};
    forall y | y in m'.entries ensures EntryOk(w', a, m', y) {
      NoOtherClaims(w, a, m, x, y);
      assert EntryOk(w, a, m, y);
    }
  }

  /** Every step of a started turn, together. */
  lemma KeepRun(w: World, on: bool, a: Aid, m: Memory, x: Sid, act: RunAct)
    requires MemoryOk(w, a, m) && BlameOk(w, a, m) && WorldOk(w) && x in m.turns && CanRun(w, on, a, m, x, act)
    ensures var w' := TouchRun(w, on, m, x, act);
            MemoryOk(w', a, AfterRun(w, on, a, m, x, act)) && BlameOk(w', a, AfterRun(w, on, a, m, x, act))
                && WorldOk(w')
  {
    var w' := TouchRun(w, on, m, x, act);
    if act.Abandons? || act.StageFault? || act.BeginFault? || act.UpdateFault? {
      NoOtherClaims(w, a, m, x, x);
      KeepSettle(w, a, m, x);
      KeepAfterwards(w, a, SettleUnsafe(m, x), w'.rec, w'.outbox);
    } else {
      match act
      case Spawns => KeepSpawn(w, a, m, x);
      case Inits(conv) => KeepInit(w, a, m, x, conv);
      case AnswerDone => KeepAnswered(w, a, m, x);
      case RetireDone => KeepRetired(w, a, m, x);
      case StageDone => KeepStaged(w, a, m, x);
      case BeginDone(r) => KeepBegun(w, on, a, m, x, r);
      case PublishDone(outcome) => KeepPublished(w, a, m, x, outcome);
      case UpdateDone => KeepUpdated(w, a, m, x);
      case SaveDone => KeepSaved(w, a, m, x);
      case SaveFault => KeepSaveFault(w, a, m, x, m.turns[x].staged.value);
      case _ =>
    }
  }
}
