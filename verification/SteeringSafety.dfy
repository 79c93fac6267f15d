/**
 What holds in every run of the steering bridge.
 */
module SteeringSafety {

  import opened Options
  import opened Steering
  import opened SteeringRuns

  /** Starting without a bridge; every event must be possible where it happens. */
  predicate Path(w: World, events: seq<Event>)
    decreases |events|
  {
    events == [] || (Enabled(w, events[0]) && Path(Apply(w, events[0]), events[1..]))
  }

  function End(w: World, events: seq<Event>): World
    decreases |events|
  {
    if events == [] then w else End(Apply(w, events[0]), events[1..])
  }

  const START := World(NO_BRIDGE, [])

  predicate Apart(b: Bridge, c: Bridge) {
    forall i, j | 0 <= i < |b.steers| && 0 <= j < |c.steers| :: b.steers[i].id != c.steers[j].id
  }

  predicate WorldOk(w: World) {
    && BridgeOk(w.bridge)
    && (forall j | 0 <= j < |w.archived| :: InOrder(w.archived[j]) && DistinctIds(w.archived[j]) && Apart(w.bridge,
                                                                      w.archived[j]))
    && (forall j, k | 0 <= j < k < |w.archived| :: Apart(w.archived[j], w.archived[k]))
  }

  lemma StepKeeps(w: World, e: Event)
    requires WorldOk(w) && Enabled(w, e)
    ensures WorldOk(Apply(w, e))
  {
    var w' := Apply(w, e);
    match e
    case Operation(a, k) =>
      OperationKeeps(w.bridge, a, k);
      forall j | 0 <= j < |w.archived| ensures Apart(w'.bridge, w.archived[j]) {
        assert Apart(w.bridge, w.archived[j]);
        forall i, h | 0 <= i < |w'.bridge.steers| && 0 <= h < |w.archived[j].steers|
          ensures w'.bridge.steers[i].id != w.archived[j].steers[h].id
        {
          assert a.Enqueues? ==> !Knows(w.archived[j], a.id);
        }
      }
    case Archiving(_, _) =>
      forall j, k | 0 <= j < k < |w'.archived| ensures Apart(w'.archived[j], w'.archived[k]) {
        if k == |w.archived| { assert Apart(w.bridge, w.archived[j]); }
      }
  }

  lemma {:induction false} PathKeeps(w: World, events: seq<Event>)
    requires WorldOk(w) && Path(w, events)
    ensures WorldOk(End(w, events))
    decreases |events|
  {
    if events != [] {
      StepKeeps(w, events[0]);
      PathKeeps(Apply(w, events[0]), events[1..]);
    }
  }

  // ---- The statements ----

  predicate Among(w: World, b: Bridge) {
    b == w.bridge || b in w.archived
  }

  /**
   At most once, and first in first out: the texts claims handed out are, in order, a prefix
   of the texts enqueued; confirmations follow the same order, number consecutively, point
   past the watermark, and run at most one behind; and no steer id occurs twice anywhere.
   */
  ghost predicate AtMostOnceInOrder(w: World) {
    && (forall b | Among(w, b) :: InOrder(b) && DistinctIds(b))
    && (forall j | 0 <= j < |w.archived| :: Apart(w.bridge, w.archived[j]))
    && (forall j, k | 0 <= j < k < |w.archived| :: Apart(w.archived[j], w.archived[k]))
  }

  lemma EverySteerAtMostOnce(events: seq<Event>)
    requires Path(START, events)
    ensures AtMostOnceInOrder(End(START, events))
  {
    PathKeeps(START, events);
    var w := End(START, events);
    forall b | Among(w, b) ensures InOrder(b) && DistinctIds(b) {
      if b == w.bridge {
        if b.disk.state.None? { assert InOrder(b); }
      }
    }
  }

  /** The queue of a live bridge: injected entries, at most one awaiting, then queued ones. */
  predicate QueueShape(s: State) {
    exists n | 0 <= n <= |s.queue| :: InjectedUpTo(s, n)
  }

  predicate InjectedUpTo(s: State, n: nat)
    requires n <= |s.queue|
  {
    && (forall i | 0 <= i < n :: s.queue[i].status.Injected?)
    && (forall i | n <= i < |s.queue| :: s.queue[i].status == if i == n && s.active.Some? then Awaiting else Queued)
    && (s.active.Some? ==> n < |s.queue| && s.queue[n].id == s.active.value)
    && (s.guarded <==> n < |s.queue|)
    && |s.queue| - n <= MAX_PENDING
  }

  predicate BridgeShape(d: Disk) {
    && (d.binding.None? ==> d == NO_FILES)
    && (d.state.Some? ==>
          var s := d.state.value;
          && d.binding.Some? && ValidState(s, d.binding.value)
          && (forall i | 0 <= i < |s.queue| :: s.queue[i].seqNo == i + 1)
          && s.next == |s.queue| + 1
          && (s.status.Claimed? <==> s.active.Some?)
          && (if s.status.Blocked? then BlockedShape(s) else QueueShape(s)))
  }

  lemma EveryBridgeKeepsItsShape(events: seq<Event>)
    requires Path(START, events)
    ensures BridgeShape(End(START, events).bridge.disk)
  {
    PathKeeps(START, events);
    var b := End(START, events).bridge;
    if b.disk.state.Some? {
      var s := b.disk.state.value;
      forall i | 0 <= i < |s.queue| ensures s.queue[i].seqNo == i + 1 { assert ListsAt(s.queue, b, i); }
      if !s.status.Blocked? {
        var n := |b.confirmed|;
        assert forall i | 0 <= i < |s.queue| :: s.queue[i].status == StatusAt(s, n, i);
        assert InjectedUpTo(s, n);
      }
    }
  }

  /**
   An entry that is confirmed had its claim carried through: request, acknowledgement and all.
   An entry counts as told once the last of the three writes of its claim is made, so a
   process that dies between that write and handing out the text is not told apart.
   */
  lemma ConfirmedOnlyAfterClaim(events: seq<Event>, i: nat)
    requires Path(START, events) && i < |End(START, events).bridge.confirmed|
    ensures var b := End(START, events).bridge;
            i < |b.told| && i < |b.steers| && b.told[i] == b.steers[i].text
            && b.confirmed[i].id == b.steers[i].id && b.confirmed[i].step > b.steers[i].floor
            && forall j | 0 <= j < i :: b.confirmed[j].seqNo < b.confirmed[i].seqNo
  {
    EverySteerAtMostOnce(events);
    var b := End(START, events).bridge;
    assert Among(End(START, events), b);
    assert ConfirmsSteer(b, i);
    forall j | 0 <= j < i ensures b.confirmed[j].seqNo < b.confirmed[i].seqNo { assert ConfirmsSteer(b, j); }
  }

  /** Blocked is absorbing: no operation changes the state record or hands anything out. */
  lemma BlockedIsAbsorbing(b: Bridge, a: Act, k: nat)
    requires BridgeOk(b) && b.disk.state.Some? && b.disk.state.value.status.Blocked?
    ensures After(b, a, k) == b
  {
  }

  /** A bridge whose creation was cut off between its two files stays as it is, and is never archived. */
  lemma HalfMadeStaysSilent(b: Bridge, a: Act, k: nat, owner: nat, channel: nat)
    requires BridgeOk(b) && b.disk.binding.Some? && b.disk.state.None?
    ensures After(b, a, k).(disk := b.disk) == b && After(b, a, k).disk == b.disk
    ensures !Archivable(b.disk, owner, channel)
  {
  }

  // ---- The bridge delivers ----

  /** A coordinator and a hook that hold the binding on disk, over a bridge with nothing pending. */
  predicate Settled(b: Bridge, c: Coordinator) {
    && BridgeOk(b) && Usable(c)
    && b.disk.binding == Some(c.binding) && b.disk.state.Some?
    && !b.disk.state.value.status.Blocked? && !b.disk.state.value.guarded
  }

  /** An accepted steer is claimed with its own text, confirmed, and leaves the bridge settled again. */
  lemma SteerIsDelivered(b: Bridge, c: Coordinator, id: SteerId, text: Text, floor: nat, invocation: nat, step: nat)
    requires Settled(b, c) && !Knows(b, id) && Acceptable(text, floor) && invocation <= MAX_INVOCATION && step > floor
    ensures var b1 := After(b, Enqueues(c, id, text, floor), 2);
            var b2 := After(b1, Claims(c.binding.token, HookInput(c.binding.conversation, invocation, true), {}), 3);
            var b3 := After(b2, Observes(c, c.binding.conversation, step, {}), 2);
            && Settled(b3, c)
            && b3.steers == b.steers + [Steer(id, text, floor)]
            && b3.told == b.told + [text]
            && b3.confirmed == b.confirmed + [Confirmation(id, |b.steers| + 1, step)]
  {
    SettledEnqueue(b, c, id, text, floor);
    var b1 := After(b, Enqueues(c, id, text, floor), 2);
    assert Acceptable(text, floor) ==> 0 < |text|;
    SettledClaim(b1, c, id, text, floor, invocation);
    var b2 := After(b1, Claims(c.binding.token, HookInput(c.binding.conversation, invocation, true), {}), 3);
    SettledConfirm(b2, c, id, text, floor, step);
  }

  lemma SettledEnqueue(b: Bridge, c: Coordinator, id: SteerId, text: Text, floor: nat)
    requires Settled(b, c) && !Knows(b, id) && Acceptable(text, floor)
    ensures var b' := After(b, Enqueues(c, id, text, floor), 2);
            OneQueued(b', c, id, text, floor) && b'.steers == b.steers + [Steer(id, text, floor)]
            && b'.told == b.told && b'.confirmed == b.confirmed
  {
    var s := b.disk.state.value;
    assert |b.confirmed| == |b.steers|;
    assert ValidState(s, c.binding) by {
      forall i | 0 <= i < |s.queue| ensures 1 <= s.queue[i].seqNo { assert ListsAt(s.queue, b, i); }
    }
    PendingCounts(s.queue, |b.steers|);
    var p := Enqueue(b.disk, c, id, text, floor);
    assert p.outcome.Enqueued?;
    EnqueueKeeps(b, c, id, text, floor, 2);
    PerformTwo(b.disk, p.writes[0], p.writes[1], 2);
  }

  /** The bridge after one enqueue on a settled bridge: one queued entry, with its request. */
  predicate OneQueued(b: Bridge, c: Coordinator, id: SteerId, text: Text, floor: nat) {
    && BridgeOk(b) && b.disk.binding == Some(c.binding) && b.disk.state.Some?
    && !b.disk.state.value.status.Blocked? && b.disk.state.value.active.None?
    && |b.steers| == |b.confirmed| + 1 && b.steers[|b.confirmed|] == Steer(id, text, floor)
    && id in b.disk.requests
    && b.disk.requests[id] == Request(c.binding.token, c.binding.conversation, id, |b.steers|, floor, text, Queued)
  }

  predicate OneClaimed(b: Bridge, c: Coordinator, id: SteerId, text: Text, floor: nat) {
    && BridgeOk(b) && b.disk.binding == Some(c.binding) && b.disk.state.Some?
    && !b.disk.state.value.status.Blocked? && b.disk.state.value.active == Some(id)
    && |b.steers| == |b.confirmed| + 1 && b.steers[|b.confirmed|] == Steer(id, text, floor)
    && id in b.disk.requests
    && b.disk.requests[id] == Request(c.binding.token, c.binding.conversation, id, |b.steers|, floor, text, Awaiting)
    && id in b.disk.acks && b.disk.acks[id] == Ack(c.binding.token, c.binding.conversation, id, |b.steers|,
        b.disk.acks[id].invocation)
  }

  lemma StateIsValid(b: Bridge)
    requires BridgeOk(b) && b.disk.state.Some?
    ensures ValidState(b.disk.state.value, b.disk.binding.value)
  {
    var s := b.disk.state.value;
    forall i | 0 <= i < |s.queue| ensures 1 <= s.queue[i].seqNo { assert ListsAt(s.queue, b, i); }
  }

  /** The hook finds that entry and its request in order. */
  lemma ClaimChooses(b: Bridge, c: Coordinator, id: SteerId, text: Text, floor: nat, invocation: nat)
    requires OneQueued(b, c, id, text, floor) && 0 < |text| <= MAX_TEXT && invocation <= MAX_INVOCATION
    ensures |b.told| == |b.confirmed|
    ensures var e := Entry(id, |b.steers|, floor, Queued);
            Claim(b.disk, c.binding.token, HookInput(c.binding.conversation, invocation, true), {}) ==
            Plan(ClaimWrites(b.disk.requests[id], c.binding, b.disk.state.value, e, invocation), Injection(text))
  {
    var n := |b.confirmed|;
    var s := b.disk.state.value;
    assert s.queue[n].status == StatusAt(s, n, n);
    assert forall i | 0 <= i < n :: s.queue[i].status == StatusAt(s, n, i);
    assert ListsAt(s.queue, b, n);
    NextToClaim(b, FirstQueued(s.queue).value);
    StateIsValid(b);
    assert id !in b.disk.acks;
  }

  lemma SettledClaim(b: Bridge, c: Coordinator, id: SteerId, text: Text, floor: nat, invocation: nat)
    requires OneQueued(b, c, id, text, floor) && 0 < |text| <= MAX_TEXT && invocation <= MAX_INVOCATION
    ensures var b' := After(b, Claims(c.binding.token, HookInput(c.binding.conversation, invocation, true), {}), 3);
            OneClaimed(b', c, id, text, floor) && b'.steers == b.steers && b'.told == b.told + [text]
                && b'.confirmed == b.confirmed
  {
    var input := HookInput(c.binding.conversation, invocation, true);
    ClaimChooses(b, c, id, text, floor, invocation);
    ClaimKeeps(b, c.binding.token, input, {}, 3);
    var writes := Claim(b.disk, c.binding.token, input, {}).writes;
    PerformThree(b.disk, writes[0], writes[1], writes[2], 3);
  }

  /** The coordinator finds the claim confirmable. */
  lemma ObserveChooses(b: Bridge, c: Coordinator, id: SteerId, text: Text, floor: nat, step: nat)
    requires OneClaimed(b, c, id, text, floor) && Usable(c) && 0 < |text| <= MAX_TEXT && step > floor
    ensures var e := Entry(id, |b.steers|, floor, Awaiting);
            Observe(b.disk, c, c.binding.conversation, step, {}) ==
            Plan(ObserveWrites(b.disk.requests[id], b.disk.state.value, e), Confirmed(e, step))
    ensures var s := b.disk.state.value; var n := |b.confirmed|;
            Mark(s.queue, id, Injected) == s.queue[n := s.queue[n].(status := Injected)]
  {
    var n := |b.confirmed|;
    var s := b.disk.state.value;
    assert s.queue[n].status == StatusAt(s, n, n);
    assert ListsAt(s.queue, b, n);
    QueueIdsDistinct(b);
    MarkOne(s.queue, n, Injected);
    assert WithId(s.queue, id).value == s.queue[n];
    StateIsValid(b);
  }

  /** A confirmation carried through: both files are written and the log grows by one. */
  lemma AfterConfirm(b: Bridge, a: Act, v: Write, w: Write, e: Entry, step: nat)
    requires PlanOf(b.disk, a) == Plan([v, w], Confirmed(e, step)) && !a.Enqueues?
    ensures After(b, a, 2) ==
            Bridge(Put(Put(b.disk, v), w), b.steers, b.told, b.confirmed + [Confirmation(e.id, e.seqNo, step)])
  {
    PerformTwo(b.disk, v, w, 2);
  }

  lemma SettledConfirm(b: Bridge, c: Coordinator, id: SteerId, text: Text, floor: nat, step: nat)
    requires OneClaimed(b, c, id, text, floor) && Usable(c) && 0 < |text| <= MAX_TEXT && step > floor
    ensures var b' := After(b, Observes(c, c.binding.conversation, step, {}), 2);
            Settled(b', c) && b'.steers == b.steers && b'.told == b.told
            && b'.confirmed == b.confirmed + [Confirmation(id, |b.steers|, step)]
  {
    ObserveChooses(b, c, id, text, floor, step);
    ObserveKeeps(b, c, c.binding.conversation, step, {}, 2);
    var e := Entry(id, |b.steers|, floor, Awaiting);
    var writes := ObserveWrites(b.disk.requests[id], b.disk.state.value, e);
    AfterConfirm(b, Observes(c, c.binding.conversation, step, {}), writes[0], writes[1], e, step);
  }
}
