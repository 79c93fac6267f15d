/**
 The adapter as one object whose maps and flags the handlers update in place, in a world
 it shares with other adapters and of which it knows only what its awaited calls return.
 The public methods are the moments at which it acts: a request arrives, or an awaited call
 is over. Each of them is one step of the runs in `DurableTurns` and keeps `Valid()`, this
 adapter's part of the invariant; so do the moves of everybody else. The other methods are
 the uninterrupted segments these steps are made of. The world is ghost.
 */
module AcpServerProcess {

  import opened Options
  import opened AcpServer
  import opened DurableTurns
  import opened DurableTurnsInvariant
  import opened DurableTurnsRecord
  import opened DurableTurnsSafety
  import R = SessionRecord

  /** Being busy elsewhere is about the other sessions only. */
  lemma BusyIgnoresSelf(m: Memory, m': Memory, x: Sid)
    requires m.turns.Keys - {x} == m'.turns.Keys - {x}
    ensures Busy(m, x) <==> Busy(m', x)
  {
    if Busy(m, x) {
      var y :| y in m.turns && y != x;
      assert y in m.turns.Keys - {x};
    }
    if Busy(m', x) {
      var y :| y in m'.turns && y != x;
      assert y in m'.turns.Keys - {x};
    }
  }

  class Server {
    var sessions: map<Sid, Entry>
    var activeTurns: map<Sid, Turn>
    var channelSession: Option<Sid>
    var channelHasLiveBlock: bool
    var closing: bool
    const outboxOn: bool
    ghost const aid: Aid
    ghost var world: World

    ghost function Snapshot(): Memory
      reads this
    {
      Memory(sessions, activeTurns, channelSession, channelHasLiveBlock, closing)
    }

    /** This adapter's part of the invariant of all adapters. */
    ghost predicate Valid()
      reads this
    {
      WorldOk(world) && MemoryOk(world, aid, Snapshot()) && BlameOk(world, aid, Snapshot())
    }

    constructor (on: bool, ghost a: Aid, ghost w: World)
      requires WorldOk(w) && !(w.blame.Mine? && w.blame.aid == a)
      ensures Snapshot() == EMPTY_MEMORY && outboxOn == on && aid == a && world == w && Valid()
    {
      sessions, activeTurns, channelSession, channelHasLiveBlock, closing := map[], map[], None, false, false;
      outboxOn, aid, world := on, a, w;
    }

    // ---- Requests ----

    /** A closing adapter opens no session. */
    method NewSession(x: Sid) returns (made: bool)
      requires Valid() && x !in sessions
      modifies this
      ensures made == !old(closing) && world == old(world) && Valid()
      ensures Snapshot() == if made then AcpServer.NewSession(old(Snapshot()), x) else old(Snapshot())
    {
      if closing { return false; }
      KeepNewSession(world, aid, Snapshot(), x);
      sessions := sessions[x := FRESH_ENTRY];
      return true;
    }

    /** A prompt for an unknown, busy, broken or displaced session, or beside another turn, is refused. */
    method PromptArrives(x: Sid, owned: bool) returns (accepted: bool)
      requires Valid() && owned == (world.lock == Some(aid))
      modifies this
      ensures accepted <==> old(CanPrompt(Snapshot(), x)) && !old(Busy(Snapshot(), x))
      ensures var m := old(Snapshot());
              Snapshot() == if CanPrompt(m, x) then Remember(world, outboxOn, aid, m, x, Prompts) else m
      ensures world == old(world) && Valid()
    {
      ghost var w := world;
      if CanPrompt(Snapshot(), x) { KeepOwnMemory(world, outboxOn, aid, Snapshot(), x, Prompts); }
      accepted := TakePrompt(x, owned);
      world := w;
    }

    method CancelArrives(x: Sid)
      requires Valid() && x in sessions
      modifies this
      ensures Snapshot() == if old(closing) then old(Snapshot()) else Remember(world, outboxOn, aid, old(Snapshot()),
                                                                      x, Cancels)
      ensures world == old(world) && Valid()
    {
      if closing { return; }
      KeepOwnMemory(world, outboxOn, aid, Snapshot(), x, Cancels);
      if x in activeTurns {
        activeTurns := activeTurns[x := activeTurns[x].(aborted := true, cancelled := true)];
      }
    }

    /** Every turn in flight is aborted and every session object closed, one after the other. */
    method CloseStarts()
      requires Valid()
      modifies this
      ensures Snapshot() == Close(old(Snapshot())) && world == old(world) && Valid()
    {
      KeepClose(world, aid, Snapshot());
      closing := true;
      AbortTurns();
      CloseProviders();
    }

    method AbortTurns()
      modifies this`activeTurns
      ensures activeTurns == map x | x in old(activeTurns) :: old(activeTurns)[x].(aborted := true)
    {
      var left := activeTurns.Keys;
      while left != {}
        invariant left <= activeTurns.Keys && activeTurns.Keys == old(activeTurns.Keys)
        invariant forall x | x in activeTurns ::
          activeTurns[x] == if x in left then old(activeTurns)[x] else old(activeTurns)[x].(aborted := true)
        decreases left
      {
        var x :| x in left;
        activeTurns := activeTurns[x := activeTurns[x].(aborted := true)];
        left := left - {x};
      }
    }

    method CloseProviders()
      modifies this`sessions
      ensures sessions == map x | x in old(sessions) ::
          old(sessions)[x].(provider := old(sessions)[x].provider.(closed := true))
    {
      var left := sessions.Keys;
      while left != {}
        invariant left <= sessions.Keys && sessions.Keys == old(sessions.Keys)
        invariant forall x | x in sessions ::
          sessions[x] == if x in left then old(sessions)[x]
                         else old(sessions)[x].(provider := old(sessions)[x].provider.(closed := true))
        decreases left
      {
        var x :| x in left;
        sessions := sessions[x := sessions[x].(provider := sessions[x].provider.(closed := true))];
        left := left - {x};
      }
    }

    // ---- An awaited call is over ----

    /** On the way to the channel; `owns` is what `hasOwnership` says. */
    method GateResumes(x: Sid, act: GateAct, owns: bool)
      requires Valid() && CanAct(world, outboxOn, aid, Snapshot(), x, Gate(act)) && owns == (world.lock == Some(aid))
      modifies this
      ensures Snapshot() == Remember(old(world), outboxOn, aid, old(Snapshot()), x, Gate(act))
      ensures world == Touch(old(world), outboxOn, aid, old(Snapshot()), x, Gate(act)) && Valid()
    {
      ghost var w, m := world, Snapshot();
      KeepOwnMemory(w, outboxOn, aid, m, x, Gate(act));
      match act {
        case Acquires =>
        case Fails => FailPreflight(x, owns);
        case ScopeDone => ScopeResolved(x, owns);
        case CancelLoadDone => CancelledRecordLoaded(x, owns);
        case CancelScanDone => GoOn(x, CancelRetire);
        case CancelRetireDone => PreviousOwnerRetired(x, owns);
        case SafeScanDone => SafeTransferScanned(x, owns);
        case ReplaceScanDone => GoOn(x, ReplaceRetire);
        case ReplaceRetireDone => OwnProviderRetired(x);
      }
      world := Touch(w, outboxOn, aid, m, x, Gate(act));
    }

    /** On the durable record; `saved` is the conversation id it was read with. */
    method RecordResumes(x: Sid, act: RecordAct, owns: bool, saved: Option<Conv>)
      requires Valid() && CanAct(world, outboxOn, aid, Snapshot(), x, Rec(act)) && Tolerated(Snapshot(), x, Rec(act))
      requires owns == (world.lock == Some(aid)) && saved == R.IdOf(world.rec)
      modifies this
      ensures Snapshot() == Remember(old(world), outboxOn, aid, old(Snapshot()), x, Rec(act))
      ensures world == Touch(old(world), outboxOn, aid, old(Snapshot()), x, Rec(act)) && Valid()
    {
      ghost var w, m := world, Snapshot();
      KeepOwnMemory(w, outboxOn, aid, m, x, Rec(act));
      match act {
        case LoadOpen(built) => OpenRecordLoaded(x, owns, saved, built);
        case LoadBlocked => BlockedRecordLoaded(x);
        case ReconcileDone => RecordReconciled(x, saved);
        case ReconcileFault => FailPreflight(x, owns);
        case RereadOpen(built) => OpenRecordLoaded(x, owns, saved, built);
        case RereadFault => FailPreflight(x, owns);
        case InspectDone => GoOn(x, Invalidating);
        case InvalidateDone => RecordInvalidated(x);
        case InvalidateFault => FailPreflight(x, owns);
        case StartDone => PreflightDone(x, owns);
        case ReleaseDone(ok) => OwnershipReleased(x, ok);
      }
      world := Touch(w, outboxOn, aid, m, x, Rec(act));
    }

    /** In the turn; `child` is the process a spawn returned. */
    method RunResumes(x: Sid, act: RunAct, child: Child)
      requires Valid() && CanAct(world, outboxOn, aid, Snapshot(), x, Run(act)) && child == world.nextChild
      modifies this
      ensures Snapshot() == Remember(old(world), outboxOn, aid, old(Snapshot()), x, Run(act))
      ensures world == Touch(old(world), outboxOn, aid, old(Snapshot()), x, Run(act)) && Valid()
    {
      ghost var w, m := world, Snapshot();
      KeepOwnMemory(w, outboxOn, aid, m, x, Run(act));
      RunOn(x, act, child, w);
      world := Touch(w, outboxOn, aid, m, x, Run(act));
    }

    method RunOn(x: Sid, act: RunAct, child: Child, ghost w: World)
      requires WellFormed(Snapshot()) && x in activeTurns && CanRun(w, outboxOn, aid, Snapshot(), x, act)
      requires child == w.nextChild
      modifies this
      ensures Snapshot() == AfterRun(w, outboxOn, aid, old(Snapshot()), x, act)
    {
      match act {
        case Spawns => ChildSpawned(x, child);
        case Inits(conv) => ConversationNamed(x, conv);
        case AnswerDone => GoOn(x, Retiring);
        case Abandons => FinishUnsafe(x);
        case RetireDone => ProviderRetired(x);
        case StageDone => CheckpointStaged(x);
        case StageFault => FinishUnsafe(x);
        case BeginDone(r) => DeliveryBegun(x, r);
        case BeginFault(_) => FinishUnsafe(x);
        case PublishDone(outcome) => AnswerPublished(x, outcome);
        case UpdateDone => DeliveryDecided(x, activeTurns[x].outcome);
        case UpdateFault => FinishUnsafe(x);
        case SaveDone => CheckpointSaved(x);
        case SaveFault => FinishUnsafe(x);
      }
    }

    // ---- Everybody else ----

    /** Another adapter acts: it holds the lock or takes it, and this adapter's block is not touched. */
    ghost method OthersAct(w: World)
      requires Valid() && WorldOk(w) && Elsewhere(world, w, aid)
      modifies this`world
      ensures world == w && Valid()
    {
      Bystander(world, w, aid, Snapshot());
      world := w;
    }

    ghost method AnotherDies(b: Aid)
      requires Valid() && b != aid
      modifies this`world
      ensures world == Abandoned(old(world), b) && Valid()
    {
      BesideGone(world, b, aid, Snapshot());
      world := Abandoned(world, b);
    }

    ghost method ChildExits(c: Child)
      requires Valid()
      modifies this`world
      ensures world == old(world).(live := old(world).live - {c}) && Valid()
    {
      KeepChildExit(world, aid, Snapshot(), c);
      world := world.(live := world.live - {c});
    }

    /** An operator retries or archives deliveries. */
    ghost method OperatorActs(outbox: map<Rid, Delivery>, retrying: set<Rid>)
      requires Valid() && Operated(world.outbox, outbox)
      modifies this`world
      ensures world == old(world).(outbox := outbox, retrying := retrying) && Valid()
    {
      KeepOperated(world, aid, Snapshot(), outbox, retrying);
      world := world.(outbox := outbox, retrying := retrying);
    }

    // ---- The segments ----

    /** `channelBusyElsewhere`: some other session has a turn in flight. */
    method BusyElsewhere(x: Sid) returns (busy: bool)
      ensures busy <==> Busy(Snapshot(), x)
    {
      busy := false;
      var left := activeTurns.Keys;
      while left != {}
        invariant left <= activeTurns.Keys
        invariant busy ==> Busy(Snapshot(), x)
        invariant !busy ==> forall y :: y in activeTurns && y !in left ==> y == x
        decreases left
      {
        var y :| y in left;
        if y != x { busy := true; }
        left := left - {y};
      }
    }

    /** `settleLiveBlock`, after the turn of `x` has left `activeTurns`. */
    method SettleLiveBlock(x: Sid)
      requires x !in activeTurns
      modifies this`channelHasLiveBlock
      ensures channelHasLiveBlock == (old(channelHasLiveBlock) && old(Busy(Snapshot(), x)))
    {
      var busy := BusyElsewhere(x);
      if !busy { channelHasLiveBlock := false; }
    }

    method EndCatch(x: Sid)
      requires WellFormed(Snapshot()) && x in activeTurns
      modifies this
      ensures Snapshot() == CatchTail(old(Snapshot()), x)
    {
      var t := activeTurns[x];
      var e := sessions[x];
      activeTurns := activeTurns - {x};
      BusyIgnoresSelf(old(Snapshot()), Snapshot(), x);
      SettleLiveBlock(x);
      if t.from.Some? && !t.committed && channelSession == Some(x) {
        channelSession := t.from;
      } else if !t.committed && !e.needsReplacement && !e.stateError && !e.blockMine && channelSession == Some(x) {
        channelSession := None;
      }
    }

    method FailPreflight(x: Sid, owns: bool)
      requires WellFormed(Snapshot()) && x in activeTurns
      modifies this
      ensures Snapshot() == Fail(old(Snapshot()), x, owns)
    {
      var e := sessions[x];
      if !activeTurns[x].ownedBefore && !e.cachedBound && !e.everStarted && !e.needsReplacement && owns {
        activeTurns := activeTurns[x := activeTurns[x].(pc := Releasing)];
      } else {
        EndCatch(x);
      }
    }

    method OwnershipReleased(x: Sid, ok: bool)
      requires At(Snapshot(), x, Releasing)
      modifies this
      ensures Snapshot() == Released(old(Snapshot()), x, ok)
    {
      if ok {
        sessions := sessions[x := sessions[x].(bound := false)];
      } else {
        sessions := sessions[x := sessions[x].(stateError := true)];
      }
      EndCatch(x);
    }

    method FinishUnsafe(x: Sid)
      requires WellFormed(Snapshot()) && x in activeTurns
      modifies this
      ensures Snapshot() == SettleUnsafe(old(Snapshot()), x)
    {
      var t := activeTurns[x];
      var e := sessions[x].(needsReplacement := true);
      activeTurns := activeTurns - {x};
      BusyIgnoresSelf(old(Snapshot()), Snapshot(), x);
      SettleLiveBlock(x);
      if t.aborted && t.cancelled && !channelHasLiveBlock { e := e.(cancelSettled := true); }
      sessions := sessions[x := e];
    }

    method TakePrompt(x: Sid, owned: bool) returns (accepted: bool)
      requires WellFormed(Snapshot())
      modifies this
      ensures accepted <==> old(CanPrompt(Snapshot(), x)) && !old(Busy(Snapshot(), x))
      ensures Snapshot() == if old(CanPrompt(Snapshot(), x)) then Prompt(old(Snapshot()), x, owned) else old(Snapshot())
    {
      if x !in sessions || x in activeTurns || sessions[x].stateError || sessions[x].invalidated || closing {
        return false;
      }
      sessions := sessions[x := sessions[x].(cancelSettled := false)];
      var t := Turn(Scoping, owned, None, None, false, false, false, false, None, None, Inflight, false, false);
      activeTurns := activeTurns[x := t];
      BusyIgnoresSelf(old(Snapshot()), Snapshot(), x);
      var busy := BusyElsewhere(x);
      if busy { EndCatch(x); }
      return !busy;
    }

    method TakeChannel(x: Sid, owns: bool)
      requires WellFormed(Snapshot()) && x in activeTurns
      modifies this
      ensures Snapshot() == TakePin(old(Snapshot()), x, owns)
    {
      channelSession := Some(x);
      if sessions[x].needsReplacement {
        var busy := BusyElsewhere(x);
        if channelHasLiveBlock || busy {
          FailPreflight(x, owns);
        } else {
          activeTurns := activeTurns[x := activeTurns[x].(pc := ReplaceScan)];
        }
      } else {
        activeTurns := activeTurns[x := activeTurns[x].(pc := Loading)];
      }
    }

    method ScopeResolved(x: Sid, owns: bool)
      requires At(Snapshot(), x, Scoping)
      modifies this
      ensures Snapshot() == Scoped(old(Snapshot()), x, owns)
    {
      if channelSession.None? || channelSession.value == x {
        TakeChannel(x, owns);
        return;
      }
      var ex := sessions[channelSession.value];
      var cancelRecovery := ex.cancelSettled && ex.needsReplacement;
      var safe := ex.safeToTransfer && !ex.needsReplacement;
      if ex.invalidated || ex.stateError || channelSession.value in activeTurns || channelHasLiveBlock
          || !(safe || cancelRecovery) {
        FailPreflight(x, owns);
        return;
      }
      var t := activeTurns[x].(existing := channelSession);
      activeTurns := activeTurns[x := t.(pc := if cancelRecovery then CancelLoad else SafeScan)];
    }

    method PreviousOwnerRetired(x: Sid, owns: bool)
      requires At(Snapshot(), x, CancelRetire)
      modifies this
      ensures Snapshot() == CancelRetired(old(Snapshot()), x, owns)
    {
      var y := activeTurns[x].existing.value;
      sessions := sessions[y := sessions[y].(provider := sessions[y].provider.(closed := true))];
      activeTurns := activeTurns[x := activeTurns[x].(cancelTransfer := true, retired := true, from := Some(y))];
      TakeChannel(x, owns);
    }

    method SafeTransferScanned(x: Sid, owns: bool)
      requires At(Snapshot(), x, SafeScan)
      modifies this
      ensures Snapshot() == SafeScanned(old(Snapshot()), x, owns)
    {
      activeTurns := activeTurns[x := activeTurns[x].(from := activeTurns[x].existing)];
      TakeChannel(x, owns);
    }

    method OwnProviderRetired(x: Sid)
      requires At(Snapshot(), x, ReplaceRetire)
      modifies this
      ensures Snapshot() == ReplaceRetired(old(Snapshot()), x)
    {
      sessions := sessions[x := sessions[x].(provider := sessions[x].provider.(closed := true))];
      activeTurns := activeTurns[x := activeTurns[x].(retired := true, pc := Loading)];
    }

    method BlockedRecordLoaded(x: Sid)
      requires At(Snapshot(), x, Loading)
      modifies this
      ensures Snapshot() == LoadedBlocked(old(Snapshot()), x)
    {
      var e := sessions[x];
      var noStart := e.blockMine && !e.everStarted && activeTurns[x].from.None? && channelSession == Some(x);
      if activeTurns[x].retired || noStart {
        activeTurns := activeTurns[x := activeTurns[x].(retired := true, pc := Reconciling)];
      } else {
        activeTurns := activeTurns[x := activeTurns[x].(pc := Refusing)];
      }
    }

    method RecordReconciled(x: Sid, conv: Option<Conv>)
      requires At(Snapshot(), x, Reconciling)
      modifies this
      ensures Snapshot() == Reconciled(old(Snapshot()), x, conv)
    {
      var t := activeTurns[x];
      if t.cancelTransfer && conv.None? { t := t.(cleared := true); }
      activeTurns := activeTurns[x := t.(pc := Rereading)];
    }

    /** From the open record to the steering inspection. */
    method OpenRecordLoaded(x: Sid, owns: bool, saved: Option<Conv>, built: bool)
      requires WellFormed(Snapshot()) && x in activeTurns
      modifies this
      ensures Snapshot() == Open(old(Snapshot()), x, owns, saved, built)
    {
      var t := activeTurns[x];
      if t.from.Some? && saved.None? && !(t.cancelTransfer && t.cleared) {
        FailPreflight(x, owns);
        return;
      }
      CommitTransfer(x);
      BindSession(x, owns, saved, built);
    }

    method CommitTransfer(x: Sid)
      requires WellFormed(Snapshot()) && x in activeTurns
      modifies this
      ensures Snapshot() == Commit(old(Snapshot()), x) && WellFormed(Snapshot()) && x in activeTurns
    {
      var t := activeTurns[x];
      if t.from.Some? {
        var y := t.from.value;
        sessions := sessions[y := sessions[y].(safeToTransfer := false, invalidated := true, cancelSettled := false)];
        activeTurns := activeTurns[x := t.(committed := true)];
      }
      sessions := sessions[x := sessions[x].(blockMine := false)];
    }

    method BindSession(x: Sid, owns: bool, saved: Option<Conv>, built: bool)
      requires WellFormed(Snapshot()) && x in activeTurns
      modifies this
      ensures Snapshot() == Bind(old(Snapshot()), x, owns, saved, built)
    {
      if sessions[x].needsReplacement && !built {
        FailPreflight(x, owns);
        return;
      }
      sessions := sessions[x := Rebuilt(sessions[x])];
      AttachConversation(x, owns, saved);
    }

    method AttachConversation(x: Sid, owns: bool, saved: Option<Conv>)
      requires WellFormed(Snapshot()) && x in activeTurns
      modifies this
      ensures Snapshot() == Attach(old(Snapshot()), x, owns, saved)
    {
      if !sessions[x].bound {
        if Distrusts(sessions[x].provider, saved) {
          FailPreflight(x, owns);
          return;
        }
        var e := sessions[x];
        if saved.Some? { e := e.(provider := e.provider.(conv := saved), cachedBound := true); }
        sessions := sessions[x := e.(bound := true)];
      }
      activeTurns := activeTurns[x := activeTurns[x].(pc := Inspecting)];
    }

    method RecordInvalidated(x: Sid)
      requires At(Snapshot(), x, Invalidating)
      modifies this
      ensures Snapshot() == Invalidated(old(Snapshot()), x)
    {
      sessions := sessions[x := sessions[x].(blockMine := true)];
      channelHasLiveBlock := true;
      activeTurns := activeTurns[x := activeTurns[x].(pc := Starting)];
    }

    method PreflightDone(x: Sid, owns: bool)
      requires At(Snapshot(), x, Starting)
      modifies this
      ensures Snapshot() == Start(old(Snapshot()), x, owns)
    {
      if activeTurns[x].aborted {
        FailPreflight(x, owns);
      } else {
        sessions := sessions[x := sessions[x].(everStarted := true)];
        activeTurns := activeTurns[x := activeTurns[x].(pc := Running)];
      }
    }

    method ProviderRetired(x: Sid)
      requires At(Snapshot(), x, Retiring)
      modifies this
      ensures Snapshot() == Retired(old(Snapshot()), x)
    {
      if activeTurns[x].aborted {
        FinishUnsafe(x);
      } else {
        activeTurns := activeTurns[x := activeTurns[x].(pc := Staging)];
      }
    }

    method DeliveryDecided(x: Sid, outcome: Delivery)
      requires WellFormed(Snapshot()) && x in activeTurns
      modifies this
      ensures Snapshot() == Decide(old(Snapshot()), x, outcome)
    {
      if outcome.Sent? && !activeTurns[x].aborted && activeTurns[x].staged.Some? {
        activeTurns := activeTurns[x := activeTurns[x].(pc := Saving)];
      } else {
        FinishUnsafe(x);
      }
    }

    method AnswerPublished(x: Sid, outcome: Delivery)
      requires At(Snapshot(), x, Publishing)
      modifies this
      ensures Snapshot() == Published(old(Snapshot()), x, outcome)
    {
      if activeTurns[x].rid.Some? {
        activeTurns := activeTurns[x := activeTurns[x].(outcome := outcome, pc := Updating)];
      } else {
        DeliveryDecided(x, outcome);
      }
    }

    method CheckpointSaved(x: Sid)
      requires At(Snapshot(), x, Saving)
      modifies this
      ensures Snapshot() == Saved(old(Snapshot()), x)
    {
      channelHasLiveBlock := false;
      sessions := sessions[x := sessions[x].(blockMine := false, safeToTransfer := activeTurns[x].rid.Some?)];
      activeTurns := activeTurns - {x};
    }

    method GoOn(x: Sid, pc: Pc)
      requires x in activeTurns
      modifies this
      ensures Snapshot() == Go(old(Snapshot()), x, pc)
    {
      activeTurns := activeTurns[x := activeTurns[x].(pc := pc)];
    }

    method CancelledRecordLoaded(x: Sid, owns: bool)
      requires At(Snapshot(), x, CancelLoad)
      modifies this
      ensures Snapshot() == CancelLoaded(old(Snapshot()), x, owns)
    {
      var busy := BusyElsewhere(x);
      if channelHasLiveBlock || busy { FailPreflight(x, owns); } else { GoOn(x, CancelScan); }
    }

    method ChildSpawned(x: Sid, child: Child)
      requires x in sessions
      modifies this
      ensures Snapshot() == Spawned(old(Snapshot()), x, child)
    {
      sessions := sessions[x := sessions[x].(provider := sessions[x].provider.(last := Some(child)))];
    }

    method ConversationNamed(x: Sid, conv: Conv)
      requires x in sessions
      modifies this
      ensures Snapshot() == Initialised(old(Snapshot()), x, conv)
    {
      var p := sessions[x].provider;
      if p.conv.None? { p := p.(conv := Some(conv)); }
      sessions := sessions[x := sessions[x].(provider := p)];
    }

    method CheckpointStaged(x: Sid)
      requires At(Snapshot(), x, Staging) && sessions[x].provider.conv.Some?
      modifies this
      ensures Snapshot() == Staged(old(Snapshot()), x, old(sessions)[x].provider.conv.value)
    {
      activeTurns := activeTurns[x := activeTurns[x].(staged := sessions[x].provider.conv, pc := Beginning)];
    }

    method DeliveryBegun(x: Sid, r: Rid)
      requires At(Snapshot(), x, Beginning)
      modifies this
      ensures Snapshot() == Begun(old(Snapshot()), x, if outboxOn then Some(r) else None)
    {
      activeTurns := activeTurns[x := activeTurns[x].(rid := if outboxOn then Some(r) else None, pc := Publishing)];
    }
  }
}
