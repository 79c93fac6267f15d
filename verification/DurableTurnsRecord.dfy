/**
 The invariant through the segments that open the durable record, commit a transfer, bind
 the saved conversation and block the record again.
 */
module DurableTurnsRecord {

  import opened Options
  import opened AcpServer
  import opened DurableTurns
  import opened DurableTurnsInvariant
  import opened DurableTurnsGate
  import R = SessionRecord

  /** A turn whose record is open: it holds the lock and the pin, and nobody owns a block. */
  predicate AtOpenRecord(w: World, a: Aid, m: Memory, x: Sid) {
    && WellFormed(m) && x in m.turns
    && (m.turns[x].pc.Loading? || m.turns[x].pc.Rereading?)
    && w.lock == Some(a) && w.blame.Nobody? && WorldOk(w)
  }

  // ---- Committing the transfer ----

  lemma CommitEntry(w: World, a: Aid, m: Memory, x: Sid, y: Sid)
    requires MemoryOk(w, a, m) && AtOpenRecord(w, a, m, x) && y in m.entries
    ensures y in Commit(m, x).entries && EntryOk(w, a, Commit(m, x), y)
  {
    assert EntryOk(w, a, m, y) && TurnOk(w, a, m, x);
    if Successor(m, y) { assert m.turns[x].from == Some(y); }
  }

  lemma CommitTurn(w: World, a: Aid, m: Memory, x: Sid)
    requires MemoryOk(w, a, m) && AtOpenRecord(w, a, m, x)
    ensures WellFormed(Commit(m, x)) && TurnOk(w, a, Commit(m, x), x)
  {
    assert TurnOk(w, a, m, x);
    var m' := Commit(m, x);
    assert WellFormed(m');
    assert TransferOk(w, a, m', x);
  }

  lemma KeepCommit(w: World, a: Aid, m: Memory, x: Sid)
    requires MemoryOk(w, a, m) && AtOpenRecord(w, a, m, x)
    ensures MemoryOk(w, a, Commit(m, x)) && AtOpenRecord(w, a, Commit(m, x), x)
    ensures var m' := Commit(m, x); (m'.turns[x].from.Some? ==> m'.turns[x].committed) && !m'.entries[x].blockMine
  {
    var m' := Commit(m, x);
    CommitTurn(w, a, m, x);
    forall y | y in m'.entries ensures EntryOk(w, a, m', y) { CommitEntry(w, a, m, x, y); }
    assert m'.turns.Keys == m.turns.Keys;
  }

  // ---- Rebuilding and binding the session ----

  /** The entry of an open turn may get another provider object and lose its mark for replacement. */
  predicate Rebound(e: Entry, e': Entry) {
    && e'.everStarted == e.everStarted && e'.blockMine == e.blockMine && e'.safeToTransfer == e.safeToTransfer
    && e'.invalidated == e.invalidated && e'.stateError == e.stateError && (e'.needsReplacement ==> e.needsReplacement)
  }

  lemma ReboundTurn(w: World, a: Aid, m: Memory, x: Sid, e: Entry)
    requires AtOpenRecord(w, a, m, x) && TurnOk(w, a, m, x) && Rebound(m.entries[x], e)
    ensures WellFormed(WithEntry(m, x, e)) && TurnOk(w, a, WithEntry(m, x, e), x)
  {
    var m' := WithEntry(m, x, e);
    assert TransferOk(w, a, m', x);
    assert PreflightOk(w, a, m', x);
  }

  lemma KeepRebound(w: World, a: Aid, m: Memory, x: Sid, e: Entry)
    requires MemoryOk(w, a, m) && AtOpenRecord(w, a, m, x) && Rebound(m.entries[x], e)
    ensures MemoryOk(w, a, WithEntry(m, x, e)) && AtOpenRecord(w, a, WithEntry(m, x, e), x)
  {
    var m' := WithEntry(m, x, e);
    assert TurnOk(w, a, m, x);
    ReboundTurn(w, a, m, x, e);
    forall y | y in m'.entries ensures EntryOk(w, a, m', y) {
      assert EntryOk(w, a, m, y);
      if Successor(m, y) { assert m'.turns[x].from == Some(y); }
    }
  }

  lemma ToInspecting(w: World, a: Aid, m: Memory, x: Sid)
    requires AtOpenRecord(w, a, m, x) && TurnOk(w, a, m, x)
    requires !m.entries[x].needsReplacement && !m.entries[x].blockMine
    requires (m.turns[x].from.Some? ==> m.turns[x].committed)
    ensures TurnOk(w, a, Go(m, x, Inspecting), x)
  {}

  lemma KeepToInspecting(w: World, a: Aid, m: Memory, x: Sid)
    requires MemoryOk(w, a, m) && AtOpenRecord(w, a, m, x)
    requires !m.entries[x].needsReplacement && !m.entries[x].blockMine
    requires (m.turns[x].from.Some? ==> m.turns[x].committed)
    ensures MemoryOk(w, a, Go(m, x, Inspecting))
  {
    ToInspecting(w, a, m, x);
    KeepTurn(w, a, m, x, m.turns[x].(pc := Inspecting));
  }

  lemma KeepAttach(w: World, a: Aid, m: Memory, x: Sid, saved: Option<Conv>)
    requires MemoryOk(w, a, m) && AtOpenRecord(w, a, m, x) && !m.entries[x].needsReplacement
    requires !m.entries[x].blockMine && (m.turns[x].from.Some? ==> m.turns[x].committed)
    ensures MemoryOk(w, a, Attach(m, x, true, saved))
  {
    var e := m.entries[x];
    if e.bound {
      KeepToInspecting(w, a, m, x);
    } else if Distrusts(e.provider, saved) {
      KeepFail(w, a, m, x);
    } else {
      KeepRebound(w, a, m, x, Attached(e, saved));
      KeepToInspecting(w, a, WithEntry(m, x, Attached(e, saved)), x);
    }
  }

  lemma KeepBind(w: World, a: Aid, m: Memory, x: Sid, saved: Option<Conv>, built: bool)
    requires MemoryOk(w, a, m) && AtOpenRecord(w, a, m, x)
    requires !m.entries[x].blockMine && (m.turns[x].from.Some? ==> m.turns[x].committed)
    ensures MemoryOk(w, a, Bind(m, x, true, saved, built))
  {
    if m.entries[x].needsReplacement && !built {
      KeepFail(w, a, m, x);
    } else {
      KeepRebound(w, a, m, x, Rebuilt(m.entries[x]));
      KeepAttach(w, a, WithEntry(m, x, Rebuilt(m.entries[x])), x, saved);
    }
  }

  lemma KeepOpen(w: World, a: Aid, m: Memory, x: Sid, saved: Option<Conv>, built: bool)
    requires MemoryOk(w, a, m) && AtOpenRecord(w, a, m, x)
    ensures MemoryOk(w, a, Open(m, x, true, saved, built))
  {
    var t := m.turns[x];
    if t.from.Some? && saved.None? && !(t.cancelTransfer && t.cleared) {
      TransferFailureKeepsClaim(w, a, m, x);
      KeepFail(w, a, m, x);
    } else {
      KeepCommit(w, a, m, x);
      KeepBind(w, a, Commit(m, x), x, saved, built);
    }
  }

  /** A transfer that is not yet committed belongs to a process that held the lock all along. */
  lemma TransferFailureKeepsClaim(w: World, a: Aid, m: Memory, x: Sid)
    requires MemoryOk(w, a, m) && x in m.turns && m.turns[x].from.Some?
    ensures !m.turns[x].committed ==> m.turns[x].ownedBefore || !Preflight(m.turns[x].pc)
    ensures m.turns[x].committed && m.turns[x].pc.Rereading? ==> !m.entries[x].blockMine
  {
    assert TurnOk(w, a, m, x);
  }

  // ---- Blocked records ----

  lemma ToReconciling(w: World, a: Aid, m: Memory, x: Sid)
    requires At(m, x, Loading) && TurnOk(w, a, m, x) && EntryOk(w, a, m, x) && BlameOk(w, a, m)
    requires w.lock == Some(a) && w.rec.Blocked? && WorldOk(w) && (m.turns[x].retired || NoStartProof(m, x))
    ensures var m' := WithTurn(m, x, m.turns[x].(retired := true, pc := Reconciling)); WellFormed(m') && TurnOk(w, a,
                                                                      m', x)
  {
    var m' := WithTurn(m, x, m.turns[x].(retired := true, pc := Reconciling));
    assert WellFormed(m');
    assert TransferOk(w, a, m', x);
  }

  lemma ToRefusing(w: World, a: Aid, m: Memory, x: Sid)
    requires At(m, x, Loading) && TurnOk(w, a, m, x)
    ensures TurnOk(w, a, Go(m, x, Refusing), x)
  {}

  lemma KeepToReconciling(w: World, a: Aid, m: Memory, x: Sid)
    requires MemoryOk(w, a, m) && BlameOk(w, a, m) && WorldOk(w) && At(m, x, Loading) && w.lock == Some(a)
    requires w.rec.Blocked?
    requires m.turns[x].retired || NoStartProof(m, x)
    ensures MemoryOk(w, a, LoadedBlocked(m, x)) && BlameOk(w, a, LoadedBlocked(m, x))
  {
    ToReconciling(w, a, m, x);
    KeepTurn(w, a, m, x, m.turns[x].(retired := true, pc := Reconciling));
  }

  lemma KeepLoadedBlocked(w: World, a: Aid, m: Memory, x: Sid)
    requires MemoryOk(w, a, m) && BlameOk(w, a, m) && WorldOk(w) && At(m, x, Loading) && w.lock == Some(a)
    requires w.rec.Blocked?
    ensures MemoryOk(w, a, LoadedBlocked(m, x)) && BlameOk(w, a, LoadedBlocked(m, x))
  {
    if m.turns[x].retired || NoStartProof(m, x) {
      KeepToReconciling(w, a, m, x);
    } else {
      ToRefusing(w, a, m, x);
      KeepTurn(w, a, m, x, m.turns[x].(pc := Refusing));
    }
  }

  /** The world after `reconcile` removed the block. */
  function Reopened(w: World): World {
    w.(rec := R.Reconcile(w.rec), blame := Nobody)
  }

  lemma ReopenedEntry(w: World, a: Aid, m: Memory, x: Sid, y: Sid, conv: Option<Conv>)
    requires MemoryOk(w, a, m) && WorldOk(w) && At(m, x, Reconciling) && w.rec.Blocked? && y in m.entries
    ensures y in Reconciled(m, x, conv).entries && EntryOk(Reopened(w), a, Reconciled(m, x, conv), y)
  {
    assert EntryOk(w, a, m, y) && TurnOk(w, a, m, x);
    if Successor(m, y) { assert m.turns[x].from == Some(y); }
  }

  lemma ReopenedTurn(w: World, a: Aid, m: Memory, x: Sid, conv: Option<Conv>)
    requires At(m, x, Reconciling) && TurnOk(w, a, m, x)
    ensures WellFormed(Reconciled(m, x, conv)) && TurnOk(Reopened(w), a, Reconciled(m, x, conv), x)
  {}

  lemma KeepReconciled(w: World, a: Aid, m: Memory, x: Sid, conv: Option<Conv>)
    requires MemoryOk(w, a, m) && WorldOk(w) && At(m, x, Reconciling) && w.rec.Blocked?
    ensures MemoryOk(Reopened(w), a, Reconciled(m, x, conv)) && WorldOk(Reopened(w))
  {
    var m' := Reconciled(m, x, conv);
    assert TurnOk(w, a, m, x);
    ReopenedTurn(w, a, m, x, conv);
    forall y | y in m'.entries ensures EntryOk(Reopened(w), a, m', y) { ReopenedEntry(w, a, m, x, y, conv); }
    assert m'.turns.Keys == m.turns.Keys;
  }

  lemma ReconciledRereads(m: Memory, x: Sid)
    requires At(m, x, Reconciling)
    ensures At(Reconciled(m, x, Some(0)), x, Rereading)
  {
    var m1 := Reconciled(m, x, Some(0));
    assert m1.turns.Keys == m.turns.Keys;
  }

  lemma EndsAlike(m: Memory, x: Sid)
    requires At(m, x, Reconciling) && At(Reconciled(m, x, Some(0)), x, Rereading)
    ensures CatchTail(Reconciled(m, x, Some(0)), x) == CatchTail(m, x)
  {
    var m1 := Reconciled(m, x, Some(0));
    assert m1.turns - {x} == m.turns - {x};
    assert Busy(m1, x) <==> Busy(m, x) by { assert m1.turns.Keys == m.turns.Keys; }
  }

  lemma ReleasesAlike(m: Memory, x: Sid)
    requires At(m, x, Reconciling) && At(Reconciled(m, x, Some(0)), x, Rereading)
    ensures Releases(Reconciled(m, x, Some(0)), x) <==> Releases(m, x)
    ensures Go(Reconciled(m, x, Some(0)), x, Releasing) == Go(m, x, Releasing)
  {
    var t := m.turns[x];
    var u := t.(pc := Rereading);
    assert Reconciled(m, x, Some(0)) == WithTurn(m, x, u);
    assert u.(pc := Releasing) == t.(pc := Releasing);
    OverwritesTurn(m, x, u, t.(pc := Releasing));
  }

  lemma OverwritesTurn(m: Memory, x: Sid, u: Turn, t: Turn)
    ensures WithTurn(WithTurn(m, x, u), x, t) == WithTurn(m, x, t)
  {
    assert m.turns[x := u][x := t] == m.turns[x := t];
  }

  /** For the catch block it makes no difference whether the reconciliation is known to have worked. */
  lemma FailsAlike(m: Memory, x: Sid)
    requires At(m, x, Reconciling)
    ensures At(Reconciled(m, x, Some(0)), x, Rereading)
    ensures Releases(Reconciled(m, x, Some(0)), x) <==> Releases(m, x)
    ensures Fail(Reconciled(m, x, Some(0)), x, true) == Fail(m, x, true)
  {
    ReconciledRereads(m, x);
    ReleasesAlike(m, x);
    EndsAlike(m, x);
  }

  /** A failure after the block was already removed. */
  lemma KeepReconcileFault(w: World, a: Aid, m: Memory, x: Sid)
    requires MemoryOk(w, a, m) && BlameOk(w, a, m) && WorldOk(w) && At(m, x, Reconciling) && w.rec.Blocked?
    requires m.closing || !Releases(m, x) || !NoStart(m.entries[x])
    ensures MemoryOk(Reopened(w), a, Fail(m, x, true)) && WorldOk(Reopened(w))
  {
    assert w.lock == Some(a) by { assert TurnOk(w, a, m, x); }
    FailsAlike(m, x);
    KeepReconciled(w, a, m, x, Some(0));
    KeepFail(Reopened(w), a, Reconciled(m, x, Some(0)), x);
  }

  // ---- Blocking the record again ----

  lemma ToInvalidating(w: World, a: Aid, m: Memory, x: Sid)
    requires At(m, x, Inspecting) && TurnOk(w, a, m, x)
    ensures TurnOk(w, a, Go(m, x, Invalidating), x)
  {}

  lemma KeepInspected(w: World, a: Aid, m: Memory, x: Sid)
    requires MemoryOk(w, a, m) && At(m, x, Inspecting)
    ensures MemoryOk(w, a, Go(m, x, Invalidating))
    ensures BlameOk(w, a, m) ==> BlameOk(w, a, Go(m, x, Invalidating))
  {
    assert TurnOk(w, a, m, x);
    ToInvalidating(w, a, m, x);
    KeepTurn(w, a, m, x, m.turns[x].(pc := Invalidating));
  }

  /** While the record is open and this turn is about to block it, no entry holds an old claim. */
  lemma NoOldClaims(w: World, a: Aid, m: Memory, x: Sid, y: Sid)
    requires MemoryOk(w, a, m) && At(m, x, Invalidating) && y in m.entries
    ensures !NoStart(m.entries[y]) && (m.entries[y].needsReplacement ==> m.entries[y].invalidated)
  {
    assert EntryOk(w, a, m, y) && TurnOk(w, a, m, x);
  }

  function BlockedBy(w: World, a: Aid, x: Sid): World {
    w.(rec := R.Invalidate(w.rec), blame := Mine(a, x))
  }

  lemma InvalidatedTurn(w: World, a: Aid, m: Memory, x: Sid)
    requires At(m, x, Invalidating) && TurnOk(w, a, m, x) && WorldOk(w)
    ensures WellFormed(Invalidated(m, x)) && TurnOk(BlockedBy(w, a, x), a, Invalidated(m, x), x)
  {}

  lemma KeepInvalidated(w: World, a: Aid, m: Memory, x: Sid)
    requires MemoryOk(w, a, m) && WorldOk(w) && At(m, x, Invalidating)
    ensures MemoryOk(BlockedBy(w, a, x), a, Invalidated(m, x)) && BlameOk(BlockedBy(w, a, x), a, Invalidated(m, x))
    ensures WorldOk(BlockedBy(w, a, x))
  {
    var m' := Invalidated(m, x);
    assert TurnOk(w, a, m, x) && EntryOk(w, a, m, x);
    InvalidatedTurn(w, a, m, x);
    forall y | y in m'.entries ensures EntryOk(BlockedBy(w, a, x), a, m', y) {
      NoOldClaims(w, a, m, x, y);
      assert EntryOk(w, a, m, y);
    }
    assert m'.turns.Keys == m.turns.Keys;
  }

  predicate NoClaims(m: Memory) {
    forall y | y in m.entries :: !NoStart(m.entries[y]) && (m.entries[y].needsReplacement ==> m.entries[y].invalidated)
  }

  lemma KeepOrphaned(w: World, a: Aid, m: Memory)
    requires MemoryOk(w, a, m) && NoClaims(m) && forall x | x in m.turns :: m.turns[x].pc.Releasing?
    ensures MemoryOk(w.(rec := R.Invalidate(w.rec), blame := Orphan), a, m)
  {
    var w' := w.(rec := R.Invalidate(w.rec), blame := Orphan);
    forall y | y in m.entries ensures EntryOk(w', a, m, y) { assert EntryOk(w, a, m, y); }
    forall x | x in m.turns ensures TurnOk(w', a, m, x) { assert TurnOk(w, a, m, x); }
  }

  /** The block was written but the call failed: nobody can ever claim this block. */
  lemma KeepInvalidateFault(w: World, a: Aid, m: Memory, x: Sid)
    requires MemoryOk(w, a, m) && WorldOk(w) && At(m, x, Invalidating) && w.lock == Some(a)
    ensures var w' := w.(rec := R.Invalidate(w.rec), blame := Orphan);
            MemoryOk(w', a, Fail(m, x, true)) && WorldOk(w')
  {
    KeepFail(w, a, m, x);
    assert w.blame.Nobody? by { assert TurnOk(w, a, m, x); }
    var m' := Fail(m, x, true);
    assert m'.entries == m.entries;
    forall y | y in m'.entries ensures !NoStart(m'.entries[y])
        && (m'.entries[y].needsReplacement ==> m'.entries[y].invalidated) {
      NoOldClaims(w, a, m, x, y);
    }
    KeepOrphaned(w, a, m');
  }

  // ---- Leaving the preflight ----

  lemma StartedTurn(w: World, a: Aid, m: Memory, x: Sid)
    requires At(m, x, Starting) && TurnOk(w, a, m, x) && !m.turns[x].aborted
    ensures WellFormed(Start(m, x, true)) && TurnOk(w, a, Start(m, x, true), x)
  {}

  lemma KeepStart(w: World, a: Aid, m: Memory, x: Sid)
    requires MemoryOk(w, a, m) && BlameOk(w, a, m) && At(m, x, Starting)
    ensures MemoryOk(w, a, Start(m, x, w.lock == Some(a))) && BlameOk(w, a, Start(m, x, w.lock == Some(a)))
  {
    assert TurnOk(w, a, m, x);
    if m.turns[x].aborted {
      KeepFail(w, a, m, x);
    } else {
      StartedTurn(w, a, m, x);
      var m' := Start(m, x, true);
      assert m'.turns.Keys == m.turns.Keys;
      forall y | y in m'.entries ensures EntryOk(w, a, m', y) {
        assert EntryOk(w, a, m, y);
        if Successor(m, y) { assert m'.turns[x].from == Some(y); }
      }
    }
  }

  /** Giving the lock back: nothing in this process depends on it. */
  lemma KeepReleased(w: World, a: Aid, m: Memory, x: Sid, ok: bool)
    requires MemoryOk(w, a, m) && BlameOk(w, a, m) && At(m, x, Releasing) && w.lock == Some(a)
    ensures var w' := if ok then w.(lock := None) else w;
            MemoryOk(w', a, Released(m, x, ok)) && BlameOk(w', a, Released(m, x, ok))
  {
    var w' := if ok then w.(lock := None) else w;
    var m' := Released(m, x, ok);
    assert TurnOk(w, a, m, x);
    assert m'.turns.Keys == {};
    forall y | y in m'.entries ensures EntryOk(w', a, m', y) {
      assert EntryOk(w, a, m, y);
    }
  }

  /**
   A reread that fails, or a reconciliation that took effect and is reported as failed, does
   no harm unless it gives the lock back with a no-start claim alive in a process that goes on.
   */
  predicate Tolerated(m: Memory, x: Sid, act: Act) {
    act.Rec? && (act.record.RereadFault? || act.record.ReconcileFault?) && WellFormed(m) && x in m.turns ==>
      m.closing || !Releases(m, x) || !NoStart(m.entries[x])
  }

  /** Every step on the durable record, together. */
  lemma KeepRecord(w: World, a: Aid, m: Memory, x: Sid, act: RecordAct)
    requires MemoryOk(w, a, m) && BlameOk(w, a, m) && WorldOk(w) && x in m.turns && CanRecord(w, a, m, x, act)
    requires Tolerated(m, x, Rec(act))
    ensures var w' := TouchRecord(w, a, x, act);
            MemoryOk(w', a, AfterRecord(w, a, m, x, act)) && BlameOk(w', a, AfterRecord(w, a, m, x, act)) && WorldOk(w')
  {
    assert TurnOk(w, a, m, x);
    match act
    case LoadOpen(built) => KeepOpen(w, a, m, x, R.IdOf(w.rec), built);
    case LoadBlocked => KeepLoadedBlocked(w, a, m, x);
    case ReconcileDone => KeepReconciled(w, a, m, x, R.IdOf(w.rec));
    case ReconcileFault => KeepReconcileFault(w, a, m, x);
    case RereadOpen(built) => KeepOpen(w, a, m, x, R.IdOf(w.rec), built);
    case RereadFault => KeepFail(w, a, m, x);
    case InspectDone => KeepInspected(w, a, m, x);
    case InvalidateDone => KeepInvalidated(w, a, m, x);
    case InvalidateFault => KeepInvalidateFault(w, a, m, x);
    case StartDone => KeepStart(w, a, m, x);
    case ReleaseDone(ok) => KeepReleased(w, a, m, x, ok);
  }
}
