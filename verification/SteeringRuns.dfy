/**
 All runs of the steering bridge: any interleaving of hooks and coordinators, each
 operation cut off after any number of its writes, reopening, and archiving. A coordinator
 is described by what it remembers, and nothing is assumed about that memory: it may be
 the memory of a coordinator of another bridge, or one that missed any number of steps.

 Three logs say what happened outside the files: the steers whose state record was
 written, the texts that claims handed to the provider, and the confirmations.
 */
module SteeringRuns {

  import opened Options
  import opened Steering

  datatype Steer = Steer(id: SteerId, text: Text, floor: nat)

  datatype Confirmation = Confirmation(id: SteerId, seqNo: nat, step: nat)

  datatype Bridge = Bridge(disk: Disk, steers: seq<Steer>, told: seq<Text>, confirmed: seq<Confirmation>)

  const NO_BRIDGE := Bridge(NO_FILES, [], [], [])

  datatype World = World(bridge: Bridge, archived: seq<Bridge>)

  datatype Act =
    | Opens(born: Binding, lost: set<SteerId>)
    | Binds(who: Coordinator, conversation: Conversation, lost: set<SteerId>)
    | Enqueues(who: Coordinator, id: SteerId, text: Text, floor: nat)
    | Claims(expected: Token, input: HookInput, lost: set<SteerId>)
    | Observes(who: Coordinator, conversation: Conversation, step: nat, lost: set<SteerId>)
    | Blocks(who: Coordinator, lost: set<SteerId>)

  function PlanOf(d: Disk, a: Act): Plan {
    match a
    case Opens(born, lost) => Open(d, born, lost)
    case Binds(c, conversation, lost) => Bind(d, c, conversation, lost)
    case Enqueues(c, id, text, floor) => Enqueue(d, c, id, text, floor)
    case Claims(expected, input, lost) => Claim(d, expected, input, lost)
    case Observes(c, conversation, step, lost) => Observe(d, c, conversation, step, lost)
    case Blocks(c, lost) => Block(d, c, lost)
  }

  /** The operation runs and stops after `k` writes, or completes. */
  function After(b: Bridge, a: Act, k: nat): Bridge {
    var p := PlanOf(b.disk, a);
    var done := k >= |p.writes|;
    Bridge(
      Perform(b.disk, p.writes, k),
      if a.Enqueues? && p.outcome.Enqueued? && k >= 1 then b.steers + [Steer(a.id, a.text, a.floor)] else b.steers,
      if p.outcome.Injection? && done then b.told + [p.outcome.text] else b.told,
      if p.outcome.Confirmed? && done
      then b.confirmed + [Confirmation(p.outcome.entry.id, p.outcome.entry.seqNo, p.outcome.step)] else b.confirmed)
  }

  predicate Knows(b: Bridge, id: SteerId) {
    exists i | 0 <= i < |b.steers| :: b.steers[i].id == id
  }

  /** Steer ids are random, so a new one was never used. */
  predicate Unused(w: World, id: SteerId) {
    !Knows(w.bridge, id) && forall j | 0 <= j < |w.archived| :: !Knows(w.archived[j], id)
  }

  datatype Event = Operation(act: Act, writes: nat) | Archiving(owner: nat, channel: nat)

  predicate Enabled(w: World, e: Event) {
    match e
    case Operation(a, _) => a.Enqueues? ==> Unused(w, a.id)
    case Archiving(owner, channel) => Archivable(w.bridge.disk, owner, channel)
  }

  function Apply(w: World, e: Event): World {
    match e
    case Operation(a, k) => w.(bridge := After(w.bridge, a, k))
    case Archiving(_, _) => World(NO_BRIDGE, w.archived + [w.bridge])
  }

  // ---- The invariant of one bridge ----

  /** The logs: texts told are a prefix of the texts enqueued, confirmations a prefix of those. */
  predicate InOrder(b: Bridge) {
    && |b.confirmed| <= |b.told| <= |b.steers|
    && |b.told| <= |b.confirmed| + 1
    && (forall i | 0 <= i < |b.told| :: b.told[i] == b.steers[i].text)
    && (forall i | 0 <= i < |b.confirmed| :: ConfirmsSteer(b, i))
  }

  predicate ConfirmsSteer(b: Bridge, i: nat)
    requires i < |b.confirmed| && i < |b.steers|
  {
    b.confirmed[i].id == b.steers[i].id && b.confirmed[i].seqNo == i + 1 && b.confirmed[i].step > b.steers[i].floor
  }

  predicate DistinctIds(b: Bridge) {
    forall i, j | 0 <= i < j < |b.steers| :: b.steers[i].id != b.steers[j].id
  }

  /** The queue lists the steers enqueued, numbered from one. */
  predicate Lists(q: seq<Entry>, b: Bridge) {
    |q| == |b.steers| && forall i | 0 <= i < |q| :: ListsAt(q, b, i)
  }

  predicate ListsAt(q: seq<Entry>, b: Bridge, i: nat)
    requires i < |q| && i < |b.steers|
  {
    q[i].id == b.steers[i].id && q[i].seqNo == i + 1 && q[i].floor == b.steers[i].floor
  }

  predicate FilesOk(b: Bridge) {
    && (forall i | 0 <= i < |b.steers| && b.steers[i].id in b.disk.requests ::
        b.disk.requests[b.steers[i].id].text == b.steers[i].text)
    && (forall id | id in b.disk.requests :: Knows(b, id))
    && (forall id | id in b.disk.acks :: exists i | 0 <= i < |b.told| && i < |b.steers| :: b.steers[i].id == id)
  }

  /** What the position in a live queue says about an entry. */
  function StatusAt(s: State, confirmed: nat, i: nat): EntryStatus {
    if i < confirmed then Injected else if i == confirmed && s.active.Some? then Awaiting else Queued
  }

  predicate LiveShape(s: State, confirmed: nat, told: nat)
    requires confirmed <= |s.queue|
  {
    && (forall i | 0 <= i < |s.queue| :: s.queue[i].status == StatusAt(s, confirmed, i))
    && (s.active.Some? ==> confirmed < |s.queue| && s.active.value == s.queue[confirmed].id)
    && (s.guarded <==> confirmed < |s.queue|)
    && (s.status.Claimed? <==> s.active.Some?)
    && (told > confirmed ==> s.active.Some?)
  }

  predicate BlockedShape(s: State) {
    s.guarded && s.active.None? && forall i | 0 <= i < |s.queue| :: s.queue[i].status.Stopped?
  }

  predicate StateOk(s: State, b: Bridge) {
    && Lists(s.queue, b)
    && InOrder(b)
    && s.next == |b.steers| + 1
    && |b.steers| <= |b.confirmed| + MAX_PENDING
    && (if s.status.Blocked? then BlockedShape(s) else LiveShape(s, |b.confirmed|, |b.told|))
  }

  predicate BridgeOk(b: Bridge) {
    && (b.disk.binding.None? ==> b.disk.state.None?)
    && (b.disk.state.None? ==> b == NO_BRIDGE.(disk := NO_FILES.(binding := b.disk.binding)))
    && (b.disk.state.Some? ==> b.disk.state.value.token == b.disk.binding.value.token && StateOk(b.disk.state.value, b))
    && DistinctIds(b)
    && FilesOk(b)
  }

  // ---- Sequences and files ----

  lemma MarkOne(q: seq<Entry>, i: nat, status: EntryStatus)
    requires i < |q|
    requires forall j, k | 0 <= j < k < |q| :: q[j].id != q[k].id
    ensures Mark(q, q[i].id, status) == q[i := q[i].(status := status)]
  {
  }

  lemma {:induction false} PendingCounts(q: seq<Entry>, settled: nat)
    requires settled <= |q|
    requires forall i | 0 <= i < |q| :: Pending(q[i]) <==> settled <= i
    ensures PendingCount(q) == |q| - settled
  {
    if q == [] {
    } else if settled == |q| {
      PendingCounts(q[..|q| - 1], settled - 1);
    } else {
      PendingCounts(q[..|q| - 1], settled);
    }
  }

  lemma PerformTwo(d: Disk, v: Write, w: Write, k: nat)
    ensures Perform(d, [v, w], k) == if k == 0 then d else if k == 1 then Put(d, v) else Put(Put(d, v), w)
  {
    assert [v, w][1..] == [w];
    if k > 1 {
      assert Perform(d, [v, w], k) == Perform(Put(d, v), [w], k - 1);
      assert [w][1..] == [];
      assert Perform(Put(d, v), [w], k - 1) == Perform(Put(Put(d, v), w), [], k - 2);
    }
  }

  lemma PerformThree(d: Disk, u: Write, v: Write, w: Write, k: nat)
    ensures Perform(d, [u, v, w], k) ==
            if k == 0 then d else if k == 1 then Put(d, u) else if k == 2 then Put(Put(d, u),
                                                                      v) else Put(Put(Put(d, u), v), w)
  {
    assert [u, v, w][1..] == [v, w];
    if k > 0 { PerformTwo(Put(d, u), v, w, k - 1); }
  }

  /** Only the status of requests differs. */
  predicate SameButStatus(d: Disk, d': Disk) {
    && d'.binding == d.binding && d'.state == d.state && d'.acks == d.acks
    && d'.requests.Keys == d.requests.Keys
    && forall id | id in d.requests :: d'.requests[id].(status := d.requests[id].status) == d.requests[id]
  }

  lemma {:induction false} StopsKeepRequests(read: Disk, d: Disk, q: seq<Entry>, lost: set<SteerId>, k: nat)
    requires SameButStatus(read.(state := d.state), d)
    ensures SameButStatus(read.(state := d.state), Perform(d, RequestStops(read, q, lost), k))
    decreases |q|
  {
    if q == [] || k == 0 {
    } else if q[0].id in read.requests && q[0].id !in lost {
      var w := PutRequest(q[0].id, read.requests[q[0].id].(status := Stopped));
      var writes := RequestStops(read, q, lost);
      assert writes[1..] == RequestStops(read, q[1..], lost);
      StopsKeepRequests(read, Put(d, w), q[1..], lost, k - 1);
    } else {
      StopsKeepRequests(read, d, q[1..], lost, k);
    }
  }

  // ---- Every operation keeps the invariant ----

  lemma StatusOnly(b: Bridge, d: Disk)
    requires BridgeOk(b) && SameButStatus(b.disk, d)
    ensures BridgeOk(b.(disk := d))
  {
    var b' := b.(disk := d);
    if b.disk.state.Some? {
      var s := b.disk.state.value;
      assert Lists(s.queue, b') by {
        forall i | 0 <= i < |s.queue| ensures ListsAt(s.queue, b', i) { assert ListsAt(s.queue, b, i); }
      }
      assert InOrder(b') by {
        forall i | 0 <= i < |b.confirmed| ensures ConfirmsSteer(b', i) { assert ConfirmsSteer(b, i); }
      }
    }
  }

  /** Replacing the state record and nothing else. */
  lemma StateOnly(b: Bridge, s: State)
    requires BridgeOk(b) && b.disk.state.Some?
    requires s.token == b.disk.binding.value.token && s.next == b.disk.state.value.next
    requires |s.queue| == |b.disk.state.value.queue|
    requires forall i | 0 <= i < |s.queue| :: s.queue[i] == b.disk.state.value.queue[i].(status := s.queue[i].status)
    requires if s.status.Blocked? then BlockedShape(s) else LiveShape(s, |b.confirmed|, |b.told|)
    ensures BridgeOk(b.(disk := Put(b.disk, PutState(s))))
  {
    var b' := b.(disk := Put(b.disk, PutState(s)));
    var q := b.disk.state.value.queue;
    assert Lists(s.queue, b') by {
      forall i | 0 <= i < |s.queue| ensures ListsAt(s.queue, b', i) { assert ListsAt(q, b, i); }
    }
    assert InOrder(b') by {
      forall i | 0 <= i < |b.confirmed| ensures ConfirmsSteer(b', i) { assert ConfirmsSteer(b, i); }
    }
  }

  lemma BlockKeeps(b: Bridge, lost: set<SteerId>, k: nat)
    requires BridgeOk(b) && b.disk.state.Some?
    ensures BridgeOk(b.(disk := Perform(b.disk, BlockWrites(b.disk, b.disk.state.value, lost), k)))
  {
    var s := b.disk.state.value;
    var writes := BlockWrites(b.disk, s, lost);
    if k > 0 {
      var stopped := b.(disk := Put(b.disk, PutState(BlockedState(s))));
      StateOnly(b, BlockedState(s));
      assert writes[1..] == RequestStops(b.disk, s.queue, lost);
      StopsKeepRequests(b.disk, stopped.disk, s.queue, lost, k - 1);
      StatusOnly(stopped, Perform(stopped.disk, writes[1..], k - 1));
    }
  }

  lemma OpenKeeps(b: Bridge, born: Binding, lost: set<SteerId>, k: nat)
    requires BridgeOk(b)
    ensures BridgeOk(After(b, Opens(born, lost), k))
  {
    var writes := Open(b.disk, born, lost).writes;
    if b.disk.binding.None? {
      PerformTwo(b.disk, writes[0], writes[1], k);
    } else if writes != [] {
      BlockKeeps(b, lost, k);
    }
  }

  lemma BindKeeps(b: Bridge, c: Coordinator, conversation: Conversation, lost: set<SteerId>, k: nat)
    requires BridgeOk(b)
    ensures BridgeOk(After(b, Binds(c, conversation, lost), k))
  {
    var p := Bind(b.disk, c, conversation, lost);
    if p.outcome.Bound? && p.writes != [] {
      PerformTwo(b.disk, p.writes[0], p.writes[1], k);
      assert b.steers == [];
    } else if p.writes != [] {
      BlockKeeps(b, lost, k);
    }
  }

  lemma BlockingKeeps(b: Bridge, c: Coordinator, lost: set<SteerId>, k: nat)
    requires BridgeOk(b)
    ensures BridgeOk(After(b, Blocks(c, lost), k))
  {
    if Block(b.disk, c, lost).writes != [] { BlockKeeps(b, lost, k); }
  }

  /** A new steer joins the end of the queue and of the log. */
  lemma Joins(b: Bridge, c: Coordinator, id: SteerId, text: Text, floor: nat)
    requires BridgeOk(b) && !Knows(b, id)
    requires Enqueue(b.disk, c, id, text, floor).outcome.Enqueued?
    ensures var b' := After(b, Enqueues(c, id, text, floor), 1);
            b'.disk.state.Some? && Lists(b'.disk.state.value.queue, b') && InOrder(b') && DistinctIds(b')
  {
    var b' := After(b, Enqueues(c, id, text, floor), 1);
    var p := Enqueue(b.disk, c, id, text, floor);
    PerformTwo(b.disk, p.writes[0], p.writes[1], 1);
    var q := b.disk.state.value.queue;
    var q' := b'.disk.state.value.queue;
    forall i | 0 <= i < |q'| ensures ListsAt(q', b', i) {
      if i < |q| { assert ListsAt(q, b, i); }
    }
    forall i | 0 <= i < |b'.confirmed| ensures ConfirmsSteer(b', i) { assert ConfirmsSteer(b, i); }
  }

  lemma EnqueueKeeps(b: Bridge, c: Coordinator, id: SteerId, text: Text, floor: nat, k: nat)
    requires BridgeOk(b) && !Knows(b, id)
    ensures BridgeOk(After(b, Enqueues(c, id, text, floor), k))
  {
    var p := Enqueue(b.disk, c, id, text, floor);
    if p.outcome.Enqueued? && k > 0 {
      JoiningKeeps(b, c, id, text, floor);
      PerformTwo(b.disk, p.writes[0], p.writes[1], 1);
      PerformTwo(b.disk, p.writes[0], p.writes[1], k);
      if k > 1 {
        var one := After(b, Enqueues(c, id, text, floor), 1);
        assert one.steers[|b.steers|] == Steer(id, text, floor);
        Requested(one, p.writes[1].request);
      }
    }
  }

  /** Up to the state record: the request file of the new steer may still be missing. */
  lemma JoiningKeeps(b: Bridge, c: Coordinator, id: SteerId, text: Text, floor: nat)
    requires BridgeOk(b) && !Knows(b, id)
    requires Enqueue(b.disk, c, id, text, floor).outcome.Enqueued?
    ensures BridgeOk(After(b, Enqueues(c, id, text, floor), 1))
  {
    var p := Enqueue(b.disk, c, id, text, floor);
    PerformTwo(b.disk, p.writes[0], p.writes[1], 1);
    Joins(b, c, id, text, floor);
    JoinsLive(b, c, id, text, floor);
    JoinsFiles(b, b.(disk := Put(b.disk, p.writes[0]), steers := b.steers + [Steer(id, text, floor)]));
  }

  lemma JoinsLive(b: Bridge, c: Coordinator, id: SteerId, text: Text, floor: nat)
    requires BridgeOk(b) && Enqueue(b.disk, c, id, text, floor).outcome.Enqueued?
    ensures var s := Put(b.disk, Enqueue(b.disk, c, id, text, floor).writes[0]).state.value;
            !s.status.Blocked? && LiveShape(s, |b.confirmed|, |b.told|) && |b.steers| < |b.confirmed| + MAX_PENDING
  {
    var s := b.disk.state.value;
    PendingCounts(s.queue, |b.confirmed|);
    var s' := Put(b.disk, Enqueue(b.disk, c, id, text, floor).writes[0]).state.value;
    forall i | 0 <= i < |s'.queue| ensures s'.queue[i].status == StatusAt(s', |b.confirmed|, i) {
      if i < |s.queue| { assert s.queue[i].status == StatusAt(s, |b.confirmed|, i); }
    }
  }

  lemma JoinsFiles(b: Bridge, b': Bridge)
    requires FilesOk(b) && InOrder(b) && DistinctIds(b')
    requires |b'.steers| == |b.steers| + 1 && b'.steers[..|b.steers|] == b.steers && b'.told == b.told
    requires b'.disk.requests == b.disk.requests && b'.disk.acks == b.disk.acks
    ensures FilesOk(b')
  {
    var n := |b.steers|;
    assert forall i | 0 <= i < n :: b'.steers[i] == b'.steers[..n][i];
    forall x | x in b'.disk.acks ensures exists i | 0 <= i < |b'.told| && i < |b'.steers| :: b'.steers[i].id == x {
      var i :| 0 <= i < |b.told| && i < n && b.steers[i].id == x;
      assert b'.steers[i].id == x;
    }
    forall x | x in b'.disk.requests ensures Knows(b', x) {
      var i :| 0 <= i < n && b.steers[i].id == x;
      assert b'.steers[i].id == x;
    }
    if b'.steers[n].id in b.disk.requests {
      var i :| 0 <= i < n && b.steers[i].id == b'.steers[n].id;
      assert false;
    }
  }

  /** Writing the request of a listed steer, with its own text. */
  lemma Requested(b: Bridge, r: Request)
    requires BridgeOk(b) && b.disk.state.Some?
    requires exists i | 0 <= i < |b.steers| :: b.steers[i].id == r.id && b.steers[i].text == r.text
    ensures BridgeOk(b.(disk := Put(b.disk, PutRequest(r.id, r))))
  {
    var b' := b.(disk := Put(b.disk, PutRequest(r.id, r)));
    var s := b.disk.state.value;
    assert Lists(s.queue, b') by {
      forall i | 0 <= i < |s.queue| ensures ListsAt(s.queue, b', i) { assert ListsAt(s.queue, b, i); }
    }
    assert InOrder(b') by {
      forall i | 0 <= i < |b.confirmed| ensures ConfirmsSteer(b', i) { assert ConfirmsSteer(b, i); }
    }
  }

  lemma QueueIdsDistinct(b: Bridge)
    requires BridgeOk(b) && b.disk.state.Some?
    ensures var q := b.disk.state.value.queue; forall i, j | 0 <= i < j < |q| :: q[i].id != q[j].id
  {
    var q := b.disk.state.value.queue;
    forall i, j | 0 <= i < j < |q| ensures q[i].id != q[j].id {
      assert ListsAt(q, b, i) && ListsAt(q, b, j);
    }
  }

  /** The first queued entry of a live bridge is the one after the confirmed ones, and nobody was told of it. */
  lemma NextToClaim(b: Bridge, e: Entry)
    requires BridgeOk(b) && b.disk.state.Some?
    requires var s := b.disk.state.value; !s.status.Blocked? && s.active.None? && FirstQueued(s.queue) == Some(e)
    ensures var i := |b.confirmed|;
            i < |b.steers| && b.disk.state.value.queue[i] == e && |b.told| == i && e.id == b.steers[i].id
  {
    var s := b.disk.state.value;
    var i :| 0 <= i < |s.queue| && s.queue[i] == e && s.queue[i].status.Queued?
        && forall j | 0 <= j < i :: !s.queue[j].status.Queued?;
    assert s.queue[i].status == StatusAt(s, |b.confirmed|, i);
    assert s.queue[|b.confirmed|].status == StatusAt(s, |b.confirmed|, |b.confirmed|);
    assert ListsAt(s.queue, b, i);
  }

  lemma ClaimKeeps(b: Bridge, expected: Token, input: HookInput, lost: set<SteerId>, k: nat)
    requires BridgeOk(b)
    ensures BridgeOk(After(b, Claims(expected, input, lost), k))
  {
    var p := Claim(b.disk, expected, input, lost);
    if p.outcome.Injection? && k > 0 {
      var s := b.disk.state.value;
      var e := FirstQueued(s.queue).value;
      NextToClaim(b, e);
      ClaimGoesThrough(b, p, b.disk.requests[e.id], e, k);
    } else if p.writes != [] && k > 0 {
      BlockKeeps(b, lost, k);
    }
  }

  lemma ClaimGoesThrough(b: Bridge, p: Plan, r: Request, e: Entry, k: nat)
    requires BridgeOk(b) && b.disk.state.Some? && k > 0
    requires !b.disk.state.value.status.Blocked? && b.disk.state.value.active.None?
    requires var i := |b.confirmed|;
             i < |b.steers| && b.disk.state.value.queue[i] == e && |b.told| == i && e.id == b.steers[i].id
    requires e.id in b.disk.requests && b.disk.requests[e.id] == r && r.id == e.id
    requires exists invocation :: p == Plan(ClaimWrites(r, b.disk.binding.value, b.disk.state.value, e, invocation),
        Injection(r.text))
    ensures BridgeOk(Bridge(Perform(b.disk, p.writes, k), b.steers, if k >= 3 then b.told + [r.text] else b.told,
                            b.confirmed))
  {
    var i := |b.confirmed|;
    var one := b.(disk := Put(b.disk, p.writes[0]));
    QueueIdsDistinct(b);
    MarkOne(b.disk.state.value.queue, i, Awaiting);
    StateOnly(b, p.writes[0].state);
    PerformThree(b.disk, p.writes[0], p.writes[1], p.writes[2], k);
    if k >= 2 {
      assert b.steers[i].id == e.id && b.steers[i].text == r.text;
      Requested(one, p.writes[1].request);
    }
    if k >= 3 {
      Told(one.(disk := Put(one.disk, p.writes[1])), e.id, p.writes[2].ack);
    }
  }

  /** The acknowledgement is written and the claim completes. */
  lemma Told(b: Bridge, id: SteerId, a: Ack)
    requires BridgeOk(b) && b.disk.state.Some?
    requires !b.disk.state.value.status.Blocked? && b.disk.state.value.active == Some(id)
    requires |b.told| == |b.confirmed| < |b.steers| && b.steers[|b.told|].id == id
    ensures BridgeOk(b.(disk := Put(b.disk, PutAck(id, a)), told := b.told + [b.steers[|b.told|].text]))
  {
    var b' := b.(disk := Put(b.disk, PutAck(id, a)), told := b.told + [b.steers[|b.told|].text]);
    var q := b.disk.state.value.queue;
    assert Lists(q, b') by {
      forall i | 0 <= i < |q| ensures ListsAt(q, b', i) { assert ListsAt(q, b, i); }
    }
    assert InOrder(b') by {
      forall i | 0 <= i < |b.confirmed| ensures ConfirmsSteer(b', i) { assert ConfirmsSteer(b, i); }
    }
    assert FilesOk(b') by {
      forall x | x in b'.disk.acks ensures exists i | 0 <= i < |b'.told| && i < |b'.steers| :: b'.steers[i].id == x {
        if x == id {
          assert b'.steers[|b.told|].id == x;
        } else {
          var i :| 0 <= i < |b.told| && i < |b.steers| && b.steers[i].id == x;
          assert b'.steers[i].id == x;
        }
      }
    }
  }

  /** The active entry, once acknowledged, is the one after the confirmed ones, and its claim completed. */
  lemma NextToConfirm(b: Bridge, e: Entry)
    requires BridgeOk(b) && b.disk.state.Some?
    requires var s := b.disk.state.value; !s.status.Blocked? && s.active.Some? && WithId(s.queue,
                                                                      s.active.value) == Some(e)
    requires e.id in b.disk.acks
    ensures var i := |b.confirmed|; i < |b.steers| && b.disk.state.value.queue[i] == e && |b.told| == i + 1
    ensures ListsAt(b.disk.state.value.queue, b, |b.confirmed|)
  {
    var s := b.disk.state.value;
    var c := |b.confirmed|;
    QueueIdsDistinct(b);
    assert s.queue[c].id == e.id;
    assert ListsAt(s.queue, b, c);
    var i :| 0 <= i < |b.told| && i < |b.steers| && b.steers[i].id == e.id;
    assert b.steers[c].id == e.id;
  }

  lemma ObserveKeeps(b: Bridge, c: Coordinator, conversation: Conversation, step: nat, lost: set<SteerId>, k: nat)
    requires BridgeOk(b)
    ensures BridgeOk(After(b, Observes(c, conversation, step, lost), k))
  {
    var p := Observe(b.disk, c, conversation, step, lost);
    if p.outcome.Confirmed? {
      var e := p.outcome.entry;
      NextToConfirm(b, e);
      ConfirmGoesThrough(b, b.disk.requests[e.id], e, step, k);
    } else if p.writes != [] {
      BlockKeeps(b, lost, k);
    }
  }

  lemma ConfirmGoesThrough(b: Bridge, r: Request, e: Entry, step: nat, k: nat)
    requires BridgeOk(b) && b.disk.state.Some? && !b.disk.state.value.status.Blocked?
    requires var i := |b.confirmed|; i < |b.steers| && b.disk.state.value.queue[i] == e && |b.told| == i + 1
    requires ListsAt(b.disk.state.value.queue, b, |b.confirmed|)
    requires e.id in b.disk.requests && b.disk.requests[e.id] == r && r.id == e.id && step > e.floor
    ensures BridgeOk(Bridge(Perform(b.disk, ObserveWrites(r, b.disk.state.value, e), k), b.steers, b.told,
                            if k >= 2 then b.confirmed + [Confirmation(e.id, e.seqNo, step)] else b.confirmed))
  {
    var i := |b.confirmed|;
    var s := b.disk.state.value;
    var writes := ObserveWrites(r, s, e);
    PerformTwo(b.disk, writes[0], writes[1], k);
    if k >= 1 {
      assert b.steers[i].id == r.id && b.steers[i].text == r.text;
      Requested(b, writes[0].request);
    }
    if k >= 2 {
      QueueIdsDistinct(b);
      MarkOne(s.queue, i, Injected);
      ConfirmedNow(b.(disk := Put(b.disk, writes[0])), writes[1].state, step);
    }
  }

  /** The state record of a confirmation: one more entry is injected, and the rest waits. */
  lemma ConfirmedNow(b: Bridge, s': State, step: nat)
    requires BridgeOk(b) && b.disk.state.Some? && !b.disk.state.value.status.Blocked?
    requires |b.told| == |b.confirmed| + 1 <= |b.steers| && step > b.steers[|b.confirmed|].floor
    requires var s, i := b.disk.state.value, |b.confirmed|;
             var q := s.queue[i := s.queue[i].(status := Injected)];
             s' == s.(status := if AnyPending(q) then Waiting
                 else AllInjected, guarded := AnyPending(q), active := None, queue := q)
    ensures BridgeOk(b.(disk := Put(b.disk, PutState(s')),
                        confirmed := b.confirmed + [Confirmation(b.steers[|b.confirmed|].id, |b.confirmed| + 1, step)]))
  {
    var c := |b.confirmed|;
    var b' := b.(disk := Put(b.disk, PutState(s')),
                 confirmed := b.confirmed + [Confirmation(b.steers[c].id, c + 1, step)]);
    var q := b.disk.state.value.queue;
    assert Lists(s'.queue, b') by {
      forall i | 0 <= i < |s'.queue| ensures ListsAt(s'.queue, b', i) { assert ListsAt(q, b, i); }
    }
    assert InOrder(b') by {
      forall i | 0 <= i < |b'.confirmed| ensures ConfirmsSteer(b', i) {
        if i < c { assert ConfirmsSteer(b, i); }
      }
    }
    assert LiveShape(s', c + 1, |b.told|) by {
      assert forall i | 0 <= i < |q| :: q[i].status == StatusAt(b.disk.state.value, c, i);
      assert c + 1 < |q| ==> Pending(s'.queue[c + 1]);
    }
  }

  lemma OperationKeeps(b: Bridge, a: Act, k: nat)
    requires BridgeOk(b) && (a.Enqueues? ==> !Knows(b, a.id))
    ensures BridgeOk(After(b, a, k))
  {
    match a
    case Opens(born, lost) => OpenKeeps(b, born, lost, k);
    case Binds(c, conversation, lost) => BindKeeps(b, c, conversation, lost, k);
    case Enqueues(c, id, text, floor) => EnqueueKeeps(b, c, id, text, floor, k);
    case Claims(expected, input, lost) => ClaimKeeps(b, expected, input, lost, k);
    case Observes(c, conversation, step, lost) => ObserveKeeps(b, c, conversation, step, lost, k);
    case Blocks(c, lost) => BlockingKeeps(b, c, lost, k);
  }
}
