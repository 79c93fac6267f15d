/**
 The invariant through the segments that win the channel, each of which changes only one
 adapter's memory.
 */
module DurableTurnsGate {

  import opened Options
  import opened AcpServer
  import opened DurableTurns
  import opened DurableTurnsInvariant

  // ---- Segments that change memory only ----

  lemma KeepCatchTail(w: World, a: Aid, m: Memory, x: Sid)
    requires MemoryOk(w, a, m) && x in m.turns && !Started(m.turns[x].pc)
    ensures MemoryOk(w, a, CatchTail(m, x))
    ensures BlameOk(w, a, m) ==> BlameOk(w, a, CatchTail(m, x))
  {
    assert TurnOk(w, a, m, x);
    var m' := CatchTail(m, x);
    assert m'.turns.Keys == {};
    forall y | y in m'.entries ensures EntryOk(w, a, m', y) {
      assert EntryOk(w, a, m, y);
    }
  }

  lemma ToReleasing(w: World, a: Aid, m: Memory, x: Sid)
    requires WellFormed(m) && x in m.turns && Preflight(m.turns[x].pc) && TurnOk(w, a, m, x)
    requires Releases(m, x) && w.lock == Some(a)
    ensures WellFormed(Go(m, x, Releasing)) && TurnOk(w, a, Go(m, x, Releasing), x)
  {
    var m' := Go(m, x, Releasing);
    assert WellFormed(m');
    assert PreflightOk(w, a, m', x);
  }

  lemma KeepReleasing(w: World, a: Aid, m: Memory, x: Sid)
    requires MemoryOk(w, a, m) && x in m.turns && Preflight(m.turns[x].pc)
    requires m.turns[x].pc.Rereading? ==> m.closing || !NoStart(m.entries[x])
    requires Releases(m, x) && w.lock == Some(a)
    ensures MemoryOk(w, a, Go(m, x, Releasing))
    ensures BlameOk(w, a, m) ==> BlameOk(w, a, Go(m, x, Releasing))
  {
    assert TurnOk(w, a, m, x);
    ToReleasing(w, a, m, x);
    KeepTurn(w, a, m, x, m.turns[x].(pc := Releasing));
  }

  lemma KeepFail(w: World, a: Aid, m: Memory, x: Sid)
    requires MemoryOk(w, a, m) && x in m.turns && Preflight(m.turns[x].pc)
    requires m.turns[x].pc.Rereading? ==> m.closing || !Releases(m, x) || !NoStart(m.entries[x])
    ensures MemoryOk(w, a, Fail(m, x, w.lock == Some(a)))
    ensures BlameOk(w, a, m) ==> BlameOk(w, a, Fail(m, x, w.lock == Some(a)))
  {
    if Releases(m, x) && w.lock == Some(a) {
      KeepReleasing(w, a, m, x);
    } else {
      KeepCatchTail(w, a, m, x);
    }
  }

  /** A prompt refused because the channel is busy can only clear its own settled mark and its own pin. */
  predicate RefusedPrompt(m: Memory, x: Sid, m': Memory) {
    && x in m.entries && m'.entries == m.entries[x := m.entries[x].(cancelSettled := false)]
    && m'.turns == m.turns && m'.liveBlock == m.liveBlock && m'.closing == m.closing
    && (m'.pin == m.pin || (m'.pin == None && m.pin == Some(x) && !m.entries[x].needsReplacement
                            && !m.entries[x].blockMine))
  }

  lemma PromptBusyRefuses(m: Memory, x: Sid)
    requires CanPrompt(m, x) && Busy(m, x)
    ensures forall owns :: RefusedPrompt(m, x, Prompt(m, x, owns))
  {
    forall owns ensures RefusedPrompt(m, x, Prompt(m, x, owns)) {
      var m' := Prompt(m, x, owns);
      var z :| z in m.turns && z != x;
      assert z in m.turns[x := m'.turns[z]] && z != x;
      assert m'.turns == m.turns;
    }
  }

  lemma RefusedPromptTurn(w: World, a: Aid, m: Memory, x: Sid, m': Memory, z: Sid)
    requires MemoryOk(w, a, m) && x !in m.turns && z in m.turns && RefusedPrompt(m, x, m')
    ensures WellFormed(m') && TurnOk(w, a, m', z)
  {
    assert TurnOk(w, a, m, z);
    assert TransferOk(w, a, m', z);
    assert PreflightOk(w, a, m', z);
    if Started(m.turns[z].pc) { assert StartedOk(w, a, m', z); }
  }

  lemma KeepRefusedPrompt(w: World, a: Aid, m: Memory, x: Sid, m': Memory)
    requires MemoryOk(w, a, m) && x !in m.turns && RefusedPrompt(m, x, m')
    ensures MemoryOk(w, a, m')
    ensures BlameOk(w, a, m) ==> BlameOk(w, a, m')
  {
    forall z | z in m'.turns ensures WellFormed(m') && TurnOk(w, a, m', z) { RefusedPromptTurn(w, a, m, x, m', z); }
    forall y | y in m'.entries ensures EntryOk(w, a, m', y) {
      assert EntryOk(w, a, m, y);
      if Successor(m, y) {
        var z :| z in m.turns && m.turns[z].from == Some(y) && !m.turns[z].committed && m.pin == Some(z);
        assert m'.pin == Some(z);
      }
    }
  }

  lemma PromptTurn(w: World, a: Aid, m: Memory, x: Sid)
    requires MemoryOk(w, a, m) && CanPrompt(m, x) && !Busy(m, x)
    ensures var m' := Prompt(m, x, w.lock == Some(a)); WellFormed(m') && x in m'.turns && TurnOk(w, a, m', x)
  {
    var m' := Prompt(m, x, w.lock == Some(a));
    forall y | y in m'.entries && m'.entries[y].everStarted ensures w.lock == Some(a) {
      assert EntryOk(w, a, m, y);
    }
  }

  lemma KeepPromptFree(w: World, a: Aid, m: Memory, x: Sid)
    requires MemoryOk(w, a, m) && CanPrompt(m, x) && !Busy(m, x)
    ensures MemoryOk(w, a, Prompt(m, x, w.lock == Some(a)))
    ensures BlameOk(w, a, m) ==> BlameOk(w, a, Prompt(m, x, w.lock == Some(a)))
  {
    var m' := Prompt(m, x, w.lock == Some(a));
    assert m.turns.Keys == {};
    forall y | y in m'.entries ensures EntryOk(w, a, m', y) {
      assert EntryOk(w, a, m, y);
    }
    PromptTurn(w, a, m, x);
  }

  // ---- Moving a turn forward ----

  /** Replacing one turn record keeps the invariant when the new record is in order itself. */
  lemma KeepTurn(w: World, a: Aid, m: Memory, x: Sid, t: Turn)
    requires MemoryOk(w, a, m) && x in m.turns
    requires t.ownedBefore == m.turns[x].ownedBefore && t.from == m.turns[x].from && t.committed == m.turns[x].committed
    requires m.turns[x].pc.Releasing? ==> t.pc.Releasing?
    requires m.turns[x].pc.Rereading? && !t.pc.Rereading? && !t.ownedBefore ==>
               !NoStart(m.entries[x]) || (m.closing && t.pc.Releasing?)
    requires WellFormed(WithTurn(m, x, t)) && TurnOk(w, a, WithTurn(m, x, t), x)
    ensures MemoryOk(w, a, WithTurn(m, x, t))
    ensures BlameOk(w, a, m) ==> BlameOk(w, a, WithTurn(m, x, t))
  {
    var m' := WithTurn(m, x, t);
    assert m'.turns.Keys == m.turns.Keys;
    forall y | y in m'.entries ensures EntryOk(w, a, m', y) {
      assert EntryOk(w, a, m, y);
      if Successor(m, y) { assert m.turns[x].from == Some(y); }
    }
  }

  lemma KeepFirstPin(w: World, a: Aid, m: Memory, x: Sid)
    requires MemoryOk(w, a, m) && x in m.turns && m.turns[x].pc.Scoping? && (m.pin.None? || m.pin == Some(x))
    ensures MemoryOk(w, a, m.(pin := Some(x)))
  {
    var m1 := m.(pin := Some(x));
    assert TurnOk(w, a, m, x);
    forall y | y in m1.entries ensures EntryOk(w, a, m1, y) { assert EntryOk(w, a, m, y); }
    assert TurnOk(w, a, m1, x);
  }

  lemma PinnedToLoading(w: World, a: Aid, m: Memory, x: Sid)
    requires At(m, x, Scoping) && TurnOk(w, a, m, x) && EntryOk(w, a, m, x) && m.pin == Some(x)
    ensures TurnOk(w, a, Go(m, x, Loading), x)
  {}

  lemma PinnedToReplaceScan(w: World, a: Aid, m: Memory, x: Sid)
    requires At(m, x, Scoping) && TurnOk(w, a, m, x) && m.pin == Some(x) && m.entries[x].needsReplacement
    ensures TurnOk(w, a, Go(m, x, ReplaceScan), x)
  {}

  lemma KeepTakePin(w: World, a: Aid, m: Memory, x: Sid)
    requires MemoryOk(w, a, m) && x in m.turns && m.turns[x].pc.Scoping? && (m.pin.None? || m.pin == Some(x))
    ensures MemoryOk(w, a, TakePin(m, x, w.lock == Some(a)))
    ensures BlameOk(w, a, m) ==> BlameOk(w, a, TakePin(m, x, w.lock == Some(a)))
  {
    KeepFirstPin(w, a, m, x);
    var m1 := m.(pin := Some(x));
    if !m.entries[x].needsReplacement {
      PinnedToLoading(w, a, m1, x);
      KeepTurn(w, a, m1, x, m.turns[x].(pc := Loading));
    } else if m.liveBlock || Busy(m, x) {
      KeepFail(w, a, m1, x);
    } else {
      PinnedToReplaceScan(w, a, m1, x);
      KeepTurn(w, a, m1, x, m.turns[x].(pc := ReplaceScan));
    }
  }

  lemma ToCancelLoad(w: World, a: Aid, m: Memory, x: Sid)
    requires At(m, x, Scoping) && TurnOk(w, a, m, x) && EntryOk(w, a, m, x)
    requires m.pin.Some? && m.pin.value != x && m.entries[m.pin.value].needsReplacement
    requires !m.entries[m.pin.value].invalidated
    requires !Successor(m, x)
    ensures var m' := WithTurn(m, x, m.turns[x].(existing := m.pin, pc := CancelLoad)); WellFormed(m') && TurnOk(w, a,
                                                                      m', x)
  {
    var m' := WithTurn(m, x, m.turns[x].(existing := m.pin, pc := CancelLoad));
    assert WellFormed(m');
    assert PreflightOk(w, a, m', x);
  }

  lemma ToSafeScan(w: World, a: Aid, m: Memory, x: Sid)
    requires At(m, x, Scoping) && TurnOk(w, a, m, x) && EntryOk(w, a, m, x)
    requires m.pin.Some? && m.pin.value != x && !m.entries[m.pin.value].needsReplacement
    requires m.entries[m.pin.value].everStarted
    requires !Successor(m, x)
    ensures var m' := WithTurn(m, x, m.turns[x].(existing := m.pin, pc := SafeScan)); WellFormed(m') && TurnOk(w, a,
                                                                      m', x)
  {
    var m' := WithTurn(m, x, m.turns[x].(existing := m.pin, pc := SafeScan));
    assert WellFormed(m');
    assert PreflightOk(w, a, m', x);
  }

  lemma NoSuccessorYet(w: World, a: Aid, m: Memory, x: Sid)
    requires MemoryOk(w, a, m) && At(m, x, Scoping)
    ensures !Successor(m, x)
  {
    assert TurnOk(w, a, m, x);
  }

  lemma KeepScoped(w: World, a: Aid, m: Memory, x: Sid)
    requires MemoryOk(w, a, m) && At(m, x, Scoping)
    ensures MemoryOk(w, a, Scoped(m, x, w.lock == Some(a)))
    ensures BlameOk(w, a, m) ==> BlameOk(w, a, Scoped(m, x, w.lock == Some(a)))
  {
    if m.pin.None? || m.pin.value == x {
      KeepTakePin(w, a, m, x);
      return;
    }
    var ex := m.entries[m.pin.value];
    var safe := ex.safeToTransfer && !ex.needsReplacement;
    var recovery := ex.cancelSettled && ex.needsReplacement;
    if ex.invalidated || ex.stateError || m.pin.value in m.turns || m.liveBlock || !(safe || recovery) {
      KeepFail(w, a, m, x);
    } else {
      NoSuccessorYet(w, a, m, x);
      assert TurnOk(w, a, m, x) && EntryOk(w, a, m, x) && EntryOk(w, a, m, m.pin.value);
      if recovery {
        ToCancelLoad(w, a, m, x);
        KeepTurn(w, a, m, x, m.turns[x].(existing := m.pin, pc := CancelLoad));
      } else {
        ToSafeScan(w, a, m, x);
        KeepTurn(w, a, m, x, m.turns[x].(existing := m.pin, pc := SafeScan));
      }
    }
  }

  lemma KeepCancelLoaded(w: World, a: Aid, m: Memory, x: Sid)
    requires MemoryOk(w, a, m) && At(m, x, CancelLoad) && w.lock == Some(a)
    ensures MemoryOk(w, a, CancelLoaded(m, x, true))
    ensures BlameOk(w, a, m) ==> BlameOk(w, a, CancelLoaded(m, x, true))
  {
    assert TurnOk(w, a, m, x);
    if m.liveBlock || Busy(m, x) {
      KeepFail(w, a, m, x);
    } else {
      KeepTurn(w, a, m, x, m.turns[x].(pc := CancelScan));
    }
  }

  lemma KeepCancelScanned(w: World, a: Aid, m: Memory, x: Sid)
    requires MemoryOk(w, a, m) && At(m, x, CancelScan) && Settled(w.outbox)
    ensures MemoryOk(w, a, Go(m, x, CancelRetire))
    ensures BlameOk(w, a, m) ==> BlameOk(w, a, Go(m, x, CancelRetire))
  {
    assert TurnOk(w, a, m, x);
    KeepTurn(w, a, m, x, m.turns[x].(pc := CancelRetire));
  }

  lemma KeepReplaceScanned(w: World, a: Aid, m: Memory, x: Sid)
    requires MemoryOk(w, a, m) && At(m, x, ReplaceScan) && Settled(w.outbox)
    ensures MemoryOk(w, a, Go(m, x, ReplaceRetire))
    ensures BlameOk(w, a, m) ==> BlameOk(w, a, Go(m, x, ReplaceRetire))
  {
    assert TurnOk(w, a, m, x);
    KeepTurn(w, a, m, x, m.turns[x].(pc := ReplaceRetire));
  }

  // ---- Taking over: the pin moves to the newcomer ----

  /** The newcomer that found the owner settled: it holds the pin and remembers whom it takes over from. */
  function TakenSafely(m: Memory, x: Sid): Memory
    requires x in m.turns
  {
    WithTurn(m, x, m.turns[x].(from := m.turns[x].existing, pc := Loading)).(pin := Some(x))
  }

  lemma TakenSafelyTurn(w: World, a: Aid, m: Memory, x: Sid)
    requires At(m, x, SafeScan) && TurnOk(w, a, m, x)
    ensures WellFormed(TakenSafely(m, x)) && TurnOk(w, a, TakenSafely(m, x), x)
  {
    var m' := TakenSafely(m, x);
    assert WellFormed(m');
    assert TransferOk(w, a, m', x);
  }

  lemma SafeScannedTurn(w: World, a: Aid, m: Memory, x: Sid)
    requires MemoryOk(w, a, m) && At(m, x, SafeScan)
    ensures SafeScanned(m, x, w.lock == Some(a)) == TakenSafely(m, x)
    ensures WellFormed(TakenSafely(m, x)) && TurnOk(w, a, TakenSafely(m, x), x)
  {
    assert TurnOk(w, a, m, x);
    TakenSafelyTurn(w, a, m, x);
  }

  lemma KeepSafeScanned(w: World, a: Aid, m: Memory, x: Sid)
    requires MemoryOk(w, a, m) && At(m, x, SafeScan)
    ensures MemoryOk(w, a, SafeScanned(m, x, w.lock == Some(a)))
    ensures BlameOk(w, a, m) ==> BlameOk(w, a, SafeScanned(m, x, w.lock == Some(a)))
  {
    SafeScannedTurn(w, a, m, x);
    var m' := SafeScanned(m, x, w.lock == Some(a));
    assert TurnOk(w, a, m, x);
    forall y | y in m'.entries ensures EntryOk(w, a, m', y) {
      assert EntryOk(w, a, m, y);
    }
  }

  /** A closed provider whose owner still answers for the channel leaves no child at all. */
  lemma RetirementProves(w: World, a: Aid, m: Memory, y: Sid)
    requires MemoryOk(w, a, m) && BlameOk(w, a, m) && WorldOk(w) && y in m.entries
    requires m.entries[y].needsReplacement && !m.entries[y].invalidated
    requires ChildGone(w, m.entries[y].provider) && Settled(w.outbox)
    ensures w.lock == Some(a) && ProofOk(w, a, m)
  {
    assert EntryOk(w, a, m, y);
  }

  /** What closing the retired session object changes. */
  function CloseProvider(m: Memory, y: Sid): Memory
    requires y in m.entries
  {
    WithEntry(m, y, m.entries[y].(provider := m.entries[y].provider.(closed := true)))
  }

  lemma KeepCloseProvider(w: World, a: Aid, m: Memory, y: Sid)
    requires MemoryOk(w, a, m) && y in m.entries
    ensures MemoryOk(w, a, CloseProvider(m, y))
    ensures BlameOk(w, a, m) ==> BlameOk(w, a, CloseProvider(m, y))
  {
    var m' := CloseProvider(m, y);
    forall z | z in m'.entries ensures EntryOk(w, a, m', z) {
      assert EntryOk(w, a, m, z);
      if Successor(m, z) {
        var s :| s in m.turns && m.turns[s].from == Some(z) && !m.turns[s].committed && m.pin == Some(s);
        assert s in m'.turns && m'.turns[s].from == Some(z);
      }
    }
    forall x | x in m'.turns ensures TurnOk(w, a, m', x) { CloseProviderTurn(w, a, m, y, x); }
  }

  lemma CloseProviderTurn(w: World, a: Aid, m: Memory, y: Sid, x: Sid)
    requires WellFormed(m) && y in m.entries && x in m.turns && TurnOk(w, a, m, x)
    ensures WellFormed(CloseProvider(m, y)) && TurnOk(w, a, CloseProvider(m, y), x)
  {
    var m' := CloseProvider(m, y);
    assert TransferOk(w, a, m', x);
    assert PreflightOk(w, a, m', x);
    if Started(m.turns[x].pc) { assert StartedOk(w, a, m', x); }
  }

  lemma CancelRetiredTurn(w: World, a: Aid, m: Memory, x: Sid)
    requires At(m, x, CancelRetire) && TurnOk(w, a, m, x) && ProofOk(w, a, m) && w.lock == Some(a)
    requires m.entries[m.turns[x].existing.value].everStarted
    ensures var t := m.turns[x].(cancelTransfer := true, retired := true, from := m.turns[x].existing, pc := Loading);
            var m' := WithTurn(m, x, t).(pin := Some(x));
            WellFormed(m') && TurnOk(w, a, m', x)
  {}

  lemma CancelRetiredShape(m: Memory, x: Sid, owns: bool)
    requires At(m, x, CancelRetire) && !m.entries[x].needsReplacement
    ensures CancelRetired(m, x, owns) ==
            WithTurn(CloseProvider(m, m.turns[x].existing.value), x,
                     m.turns[x].(cancelTransfer := true, retired := true, from := m.turns[x].existing, pc := Loading))
            .(pin := Some(x))
  {}

  lemma KeepCancelRetired(w: World, a: Aid, m: Memory, x: Sid)
    requires MemoryOk(w, a, m) && BlameOk(w, a, m) && WorldOk(w) && At(m, x, CancelRetire)
    requires ChildGone(w, m.entries[m.turns[x].existing.value].provider)
    ensures MemoryOk(w, a, CancelRetired(m, x, w.lock == Some(a)))
    ensures BlameOk(w, a, CancelRetired(m, x, w.lock == Some(a)))
  {
    var y := m.turns[x].existing.value;
    assert m.entries[y].needsReplacement && !m.entries[y].invalidated && !m.entries[x].needsReplacement by {
      assert TurnOk(w, a, m, x);
    }
    RetirementProves(w, a, m, y);
    KeepCloseProvider(w, a, m, y);
    CancelRetiredShape(m, x, w.lock == Some(a));
    MoveToNewcomer(w, a, CloseProvider(m, y), x, CancelRetired(m, x, w.lock == Some(a)));
  }

  /** The pin passes from the retired owner to the newcomer, which remembers where it came from. */
  lemma MoveToNewcomer(w: World, a: Aid, m: Memory, x: Sid, m': Memory)
    requires MemoryOk(w, a, m) && At(m, x, CancelRetire)
    requires m' == WithTurn(m, x, m.turns[x].(cancelTransfer := true, retired := true, from := m.turns[x].existing,
        pc := Loading)).(pin := Some(x))
    requires ProofOk(w, a, m) && w.lock == Some(a)
    ensures MemoryOk(w, a, m')
    ensures BlameOk(w, a, m) ==> BlameOk(w, a, m')
  {
    assert TurnOk(w, a, m, x) && EntryOk(w, a, m, m.turns[x].existing.value);
    CancelRetiredTurn(w, a, m, x);
    forall z | z in m'.entries ensures EntryOk(w, a, m', z) {
      assert EntryOk(w, a, m, z);
    }
  }

  lemma ReplaceRetiredTurn(w: World, a: Aid, m: Memory, x: Sid)
    requires At(m, x, ReplaceRetire) && TurnOk(w, a, m, x) && ProofOk(w, a, m) && w.lock == Some(a)
    ensures TurnOk(w, a, WithTurn(m, x, m.turns[x].(retired := true, pc := Loading)), x)
  {}

  lemma KeepReplaceRetired(w: World, a: Aid, m: Memory, x: Sid)
    requires MemoryOk(w, a, m) && BlameOk(w, a, m) && WorldOk(w) && At(m, x, ReplaceRetire)
    requires ChildGone(w, m.entries[x].provider)
    ensures MemoryOk(w, a, ReplaceRetired(m, x)) && BlameOk(w, a, ReplaceRetired(m, x))
  {
    assert TurnOk(w, a, m, x) && EntryOk(w, a, m, x);
    RetirementProves(w, a, m, x);
    KeepCloseProvider(w, a, m, x);
    var m1 := CloseProvider(m, x);
    assert TurnOk(w, a, m1, x);
    ReplaceRetiredTurn(w, a, m1, x);
    KeepTurn(w, a, m1, x, m.turns[x].(retired := true, pc := Loading));
  }

  /** Taking the free lock adds what the holder may assume and takes nothing away. */
  lemma KeepAcquire(w: World, a: Aid, m: Memory)
    requires MemoryOk(w, a, m) && BlameOk(w, a, m) && w.lock.None?
    ensures MemoryOk(w.(lock := Some(a)), a, m) && BlameOk(w.(lock := Some(a)), a, m)
  {
    var w' := w.(lock := Some(a));
    forall y | y in m.entries ensures EntryOk(w', a, m, y) { assert EntryOk(w, a, m, y); }
    forall x | x in m.turns ensures TurnOk(w', a, m, x) { assert TurnOk(w, a, m, x); }
  }

  /** Every step that wins the channel, together. */
  lemma KeepGate(w: World, on: bool, a: Aid, m: Memory, x: Sid, act: GateAct)
    requires MemoryOk(w, a, m) && BlameOk(w, a, m) && WorldOk(w) && x in m.turns && CanGate(w, on, a, m, x, act)
    ensures var w' := if act.Acquires? then w.(lock := Some(a)) else w;
            MemoryOk(w', a, AfterGate(w, on, a, m, x, act)) && BlameOk(w', a, AfterGate(w, on, a, m, x, act))
  {
    match act
    case Acquires => KeepAcquire(w, a, m);
    case Fails => KeepFail(w, a, m, x);
    case ScopeDone => KeepScoped(w, a, m, x);
    case CancelLoadDone => KeepCancelLoaded(w, a, m, x);
    case CancelScanDone => KeepCancelScanned(w, a, m, x);
    case CancelRetireDone => KeepCancelRetired(w, a, m, x);
    case SafeScanDone => KeepSafeScanned(w, a, m, x);
    case ReplaceScanDone => KeepReplaceScanned(w, a, m, x);
    case ReplaceRetireDone => KeepReplaceRetired(w, a, m, x);
  }
}
