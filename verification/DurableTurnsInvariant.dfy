/**
 The invariant of `DurableTurns` and its preservation, one lemma per kind of step. Two kinds
 of proof can reopen a blocked record: a retired provider (`needsReplacement`) and a block
 that never started a provider. The invariant says that at most one entry of one adapter
 can hold either, that it is the entry that created the block, and that any live child is
 that entry's last one.
 */
module DurableTurnsInvariant {

  import opened Options
  import opened AcpServer
  import opened DurableTurns
  import R = SessionRecord

  // ---- The invariant ----

  predicate NoStart(e: Entry) {
    e.blockMine && !e.everStarted
  }

  predicate OnlyChild(w: World, p: Provider) {
    forall c | c in w.live :: p.last == Some(c)
  }

  predicate NeedsLock(pc: Pc) {
    pc.CancelScan? || pc.CancelRetire? || pc.Reconciling? || pc.Rereading? || pc.Inspecting? || pc.Invalidating? ||
    pc.Starting? || pc.Releasing? || Started(pc)
  }

  predicate NeedsPin(pc: Pc) {
    pc.ReplaceScan? || pc.ReplaceRetire? || pc.Loading? || pc.Refusing? || pc.Reconciling? || pc.Rereading? ||
    pc.Inspecting? || pc.Invalidating? || pc.Starting? || Started(pc)
  }

  /** Waiting to learn whether the channel can be taken over. */
  predicate Choosing(pc: Pc) {
    pc.CancelLoad? || pc.CancelScan? || pc.CancelRetire? || pc.SafeScan?
  }

  predicate OneTurn(m: Memory) {
    forall x, y | x in m.turns && y in m.turns :: x == y
  }

  /** A no-start claim outlives the block only while this process keeps the lock. */
  predicate StaleClaimOk(w: World, a: Aid, m: Memory, y: Sid) {
    && w.blame.Nobody? && w.lock == Some(a)
    && forall x | x in m.turns :: m.turns[x].ownedBefore || (x == y && m.turns[x].pc.Rereading?)
  }

  /** A closing adapter that only has a lock left to give back will never look at a claim again. */
  predicate Spent(m: Memory) {
    m.closing && forall x | x in m.turns :: m.turns[x].pc.Releasing?
  }

  predicate Successor(m: Memory, y: Sid) {
    exists x | x in m.turns :: m.turns[x].from == Some(y) && !m.turns[x].committed && m.pin == Some(x)
  }

  predicate EntryOk(w: World, a: Aid, m: Memory, y: Sid)
    requires y in m.entries
  {
    var e := m.entries[y];
    && (e.everStarted ==> w.lock == Some(a))
    && (e.needsReplacement ==> e.everStarted)
    && (e.safeToTransfer ==> e.everStarted)
    && (NoStart(e) && !Spent(m) ==> m.pin == Some(y) && (w.blame == Mine(a, y) || StaleClaimOk(w, a, m, y)))
    && (e.needsReplacement && !e.invalidated ==>
          && (w.blame.Nobody? || w.blame == Mine(a, y))
          && (m.pin == Some(y) || Successor(m, y)))
    && (e.invalidated || e.stateError ==> y !in m.turns)
  }

  /** What a retirement proof stands for until it is used. */
  predicate ProofOk(w: World, a: Aid, m: Memory) {
    && w.live == {} && Settled(w.outbox) && !w.blame.Orphan?
    && (w.blame.Mine? ==> w.blame.aid == a && w.blame.sid in m.entries && m.entries[w.blame.sid].everStarted)
  }

  predicate TurnOk(w: World, a: Aid, m: Memory, x: Sid)
    requires WellFormed(m) && x in m.turns
  {
    var t := m.turns[x];
    && (NeedsLock(t.pc) ==> w.lock == Some(a))
    && (NeedsPin(t.pc) ==> m.pin == Some(x))
    && (t.pc.Releasing? ==> !t.ownedBefore)
    && TransferOk(w, a, m, x)
    && PreflightOk(w, a, m, x)
    && (Started(t.pc) ==> StartedOk(w, a, m, x))
  }

  predicate TransferOk(w: World, a: Aid, m: Memory, x: Sid)
    requires WellFormed(m) && x in m.turns
  {
    var t := m.turns[x];
    && (t.pc.CancelLoad? || t.pc.CancelScan? || t.pc.CancelRetire? ==>
          var y := t.existing.value;
          m.entries[y].needsReplacement && !m.entries[y].invalidated && m.pin == Some(y))
    && (t.pc.Scoping? || Choosing(t.pc) ==> t.from.None? && !t.committed && !t.retired && !t.cancelTransfer)
    && (t.pc.SafeScan? ==>
          var y := t.existing.value;
          !m.entries[y].needsReplacement && m.entries[y].everStarted && (m.pin.None? || m.pin == Some(y)))
    && (Choosing(t.pc) || (t.from.Some? && !t.committed) ==>
          !m.entries[x].needsReplacement && !NoStart(m.entries[x]))
    && (t.from.Some? && !t.committed ==> m.entries[t.from.value].everStarted)
    && (t.pc.CancelRetire? || t.pc.ReplaceRetire? ==> Settled(w.outbox))
    && (t.pc.ReplaceScan? || t.pc.ReplaceRetire? ==> m.entries[x].needsReplacement)
    && (!t.ownedBefore && (Preflight(t.pc) || t.pc.Releasing?) ==> forall y | y in m.entries ::
        !m.entries[y].everStarted)
  }

  predicate PreflightOk(w: World, a: Aid, m: Memory, x: Sid)
    requires WellFormed(m) && x in m.turns
  {
    var t := m.turns[x];
    var e := m.entries[x];
    && (t.retired && (t.pc.ReplaceScan? || t.pc.ReplaceRetire? || t.pc.Loading?) ==> w.lock == Some(a) && ProofOk(w,
                                                                      a, m))
    && (t.pc.Reconciling? ==>
          && w.live == {} && Settled(w.outbox) && w.blame.Mine? && w.blame.aid == a && w.blame.sid in m.entries
          && (w.blame.sid == x || m.entries[w.blame.sid].everStarted))
    && (t.pc.Rereading? || t.pc.Inspecting? || t.pc.Invalidating? ==> w.blame.Nobody?)
    && (t.pc.Inspecting? || t.pc.Invalidating? ==>
          !e.needsReplacement && !e.blockMine && (t.from.Some? ==> t.committed))
    && (t.pc.Starting? ==>
          w.blame == Mine(a, x) && w.live == {} && Settled(w.outbox) && m.liveBlock && !e.needsReplacement
              && e.blockMine)
    && (t.committed && (t.pc.ReplaceScan? || t.pc.ReplaceRetire? || t.pc.Loading? || t.pc.Reconciling?
                        || t.pc.Rereading?) ==>
          !e.blockMine)
    && (t.committed ==> t.from.Some? && m.entries[t.from.value].invalidated)
  }

  predicate StartedOk(w: World, a: Aid, m: Memory, x: Sid)
    requires WellFormed(m) && x in m.turns
  {
    var t := m.turns[x];
    var e := m.entries[x];
    && w.blame == Mine(a, x) && e.everStarted && !e.needsReplacement && e.blockMine && m.liveBlock
    && OnlyChild(w, e.provider)
    && (t.pc.Running? || t.pc.Retiring? || t.pc.Staging? || t.pc.Beginning? || t.pc.Saving? ==> Settled(w.outbox))
    && (!t.pc.Running? ==> e.provider.last.Some? && e.provider.conv.Some?)
    && (t.pc.Staging? || t.pc.Beginning? || t.pc.Publishing? || t.pc.Updating? || t.pc.Saving? ==> w.live == {})
    && (t.pc.Beginning? || t.pc.Publishing? || t.pc.Updating? || t.pc.Saving? ==>
          t.staged == e.provider.conv && w.rec == R.Blocked(t.staged))
    && (t.pc.Publishing? || t.pc.Updating? ==>
          SettledBut(w.outbox, t.rid) && (t.rid.Some? ==> t.rid.value in w.outbox && w.outbox[t.rid.value].Inflight?))
    && (t.pc.Updating? ==> !t.outcome.Inflight?)
  }

  predicate MemoryOk(w: World, a: Aid, m: Memory) {
    && WellFormed(m)
    && OneTurn(m)
    && (m.liveBlock ==> m.turns != map[])
    && (forall y | y in m.entries :: EntryOk(w, a, m, y))
    && (forall x | x in m.turns :: TurnOk(w, a, m, x))
  }

  /** The adapter that created the block on disk, if it still runs. */
  predicate BlameOk(w: World, a: Aid, m: Memory) {
    w.blame.Mine? && w.blame.aid == a ==>
      && w.blame.sid in m.entries
      && var e := m.entries[w.blame.sid];
         if e.everStarted then w.lock == Some(a) && OnlyChild(w, e.provider)
         else e.blockMine && w.live == {} && Settled(w.outbox)
  }

  predicate WorldOk(w: World) {
    && (w.rec.Blocked? <==> !w.blame.Nobody?)
    && (w.blame.Nobody? ==> w.live == {} && Settled(w.outbox))
    && (forall c, d | c in w.live && d in w.live :: c == d)
  }

  predicate Inv(s: Sys) {
    && WorldOk(s.w)
    && (s.w.lock.Some? ==> s.w.lock.value in s.ads)
    && (s.w.blame.Mine? ==> s.w.blame.aid in s.ads)
    && (forall a | a in s.ads :: MemoryOk(s.w, a, s.ads[a]) && BlameOk(s.w, a, s.ads[a]))
  }
}
