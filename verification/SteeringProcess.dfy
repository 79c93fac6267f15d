/**
 The bridge operations as they run: files replaced one at a time through an object that
 stands for the directory, and a coordinator object whose memory the operations update.
 `fuse` is the number of writes that still succeed; the one after it fails and ends the
 operation. Every method is proved against its plan: the files hold exactly the writes
 the fuse allowed, the outcome is reported only when all of them were made, and the
 memory changes only as the source says.
 */
module SteeringProcess {

  import opened Options
  import opened Steering
  import opened SteeringRuns

  /** An operation that did not finish reports nothing. */
  function Reported(p: Plan, fuse: nat): Outcome {
    if fuse < |p.writes| then Refused else p.outcome
  }

  lemma {:induction false} PerformPrefix(d: Disk, a: seq<Write>, b: seq<Write>, k: nat)
    requires k <= |a|
    ensures Perform(d, a + b, k) == Perform(d, a, k)
    decreases k
  {
    if k > 0 {
      assert (a + b)[1..] == a[1..] + b;
      PerformPrefix(Put(d, a[0]), a[1..], b, k - 1);
    }
  }

  lemma {:induction false} PerformAll(d: Disk, a: seq<Write>, k: nat)
    requires k >= |a|
    ensures Perform(d, a, k) == Perform(d, a, |a|)
    decreases |a|
  {
    if a != [] { PerformAll(Put(d, a[0]), a[1..], k - 1); }
  }

  lemma {:induction false} PerformLast(d: Disk, a: seq<Write>, w: Write, k: nat)
    requires k > |a|
    ensures Perform(d, a + [w], k) == Put(Perform(d, a, |a|), w)
    decreases |a|
  {
    if a == [] {
      assert [w][1..] == [] && a + [w] == [w];
    } else {
      assert (a + [w])[1..] == a[1..] + [w];
      PerformLast(Put(d, a[0]), a[1..], w, k - 1);
    }
  }

  lemma {:induction false} StopsSplit(d: Disk, q: seq<Entry>, lost: set<SteerId>, i: nat)
    requires i <= |q|
    ensures RequestStops(d, q, lost) == RequestStops(d, q[..i], lost) + RequestStops(d, q[i..], lost)
  {
    if i > 0 {
      StopsSplit(d, q[1..], lost, i - 1);
      assert q[1..][..i - 1] == q[..i][1..] && q[1..][i - 1..] == q[i..];
    }
  }

  lemma StopsNext(d: Disk, q: seq<Entry>, lost: set<SteerId>, i: nat)
    requires i < |q|
    ensures RequestStops(d, q[..i + 1], lost) == RequestStops(d, q[..i], lost) +
      if q[i].id in d.requests && q[i].id !in lost then [PutRequest(q[i].id,
                                                                    d.requests[q[i].id].(status := Stopped))] else []
  {
    StopsSplit(d, q[..i + 1], lost, i);
    assert q[..i + 1][..i] == q[..i] && q[..i + 1][i..] == [q[i]];
    assert [q[i]][1..] == [];
  }

  class Directory {
    var disk: Disk
    var fuse: nat

    constructor (d: Disk, f: nat)
      ensures disk == d && fuse == f
    {
      disk, fuse := d, f;
    }

    /** `writeJsonAtomic`. */
    method WriteJson(w: Write) returns (ok: bool)
      modifies this
      ensures ok <==> old(fuse) > 0
      ensures ok ==> disk == Put(old(disk), w) && fuse == old(fuse) - 1
      ensures !ok ==> disk == old(disk) && fuse == old(fuse)
    {
      if fuse == 0 { return false; }
      disk, fuse := Put(disk, w), fuse - 1;
      return true;
    }
  }

  /** `blockState`: the state record first, then whichever requests can be rewritten. */
  method BlockState(dir: Directory, s: State, lost: set<SteerId>) returns (ok: bool)
    requires dir.disk.state == Some(s)
    modifies dir
    ensures dir.disk == Perform(old(dir.disk), BlockWrites(old(dir.disk), s, lost), old(dir.fuse))
    ensures ok <==> old(dir.fuse) >= |BlockWrites(old(dir.disk), s, lost)|
  {
    ghost var d := dir.disk;
    ghost var all := BlockWrites(d, s, lost);
    ghost var done := [PutState(BlockedState(s))];
    ok := dir.WriteJson(PutState(BlockedState(s)));
    if !ok { return; }
    PerformLast(d, [], done[0], 1);
    assert [] + done == done;
    var i := 0;
    while i < |s.queue|
      invariant 0 <= i <= |s.queue|
      invariant done == [PutState(BlockedState(s))] + RequestStops(d, s.queue[..i], lost)
      invariant old(dir.fuse) == dir.fuse + |done|
      invariant dir.disk == Perform(d, done, |done|)
    {
      var id := s.queue[i].id;
      StopsNext(d, s.queue, lost, i);
      StopsSplit(d, s.queue, lost, i);
      assert all == done + RequestStops(d, s.queue[i..], lost);
      BlockedRequests(d, s, lost, i);
      if id in dir.disk.requests && id !in lost {
        var w := PutRequest(id, dir.disk.requests[id].(status := Stopped));
        ok := dir.WriteJson(w);
        if !ok {
          PerformPrefix(d, done, RequestStops(d, s.queue[i..], lost), |done|);
          assert RequestStops(d, s.queue[i..], lost) != [];
          return;
        }
        PerformLast(d, done, w, |done| + 1);
        done := done + [w];
      }
      i := i + 1;
    }
    assert s.queue[..i] == s.queue;
    PerformAll(d, all, old(dir.fuse));
  }

  /** While the loop runs, only the status of requests has changed. */
  lemma BlockedRequests(d: Disk, s: State, lost: set<SteerId>, i: nat)
    requires i <= |s.queue|
    ensures var done := [PutState(BlockedState(s))] + RequestStops(d, s.queue[..i], lost);
            var d' := Perform(d, done, |done|);
            d'.requests.Keys == d.requests.Keys
            && forall id | id in d.requests :: d'.requests[id].(status := Stopped) == d.requests[id].(status := Stopped)
  {
    var w := PutState(BlockedState(s));
    var stops := RequestStops(d, s.queue[..i], lost);
    assert ([w] + stops)[1..] == stops;
    StopsKeepRequests(d, Put(d, w), s.queue[..i], lost, |stops|);
  }

  /** `claimPendingSteer`, the hook's side. */
  method ClaimPendingSteer(dir: Directory, expected: Token, input: HookInput, lost: set<SteerId>) returns (out: Outcome)
    modifies dir
    ensures dir.disk == Perform(old(dir.disk), Claim(old(dir.disk), expected, input, lost).writes, old(dir.fuse))
    ensures out == Reported(Claim(old(dir.disk), expected, input, lost), old(dir.fuse))
  {
    if dir.disk.binding.None? || dir.disk.binding.value.token != expected { return Refused; }
    var b := dir.disk.binding.value;
    if input.conversation != b.conversation || input.invocation > MAX_INVOCATION || !input.scoped { return Refused; }
    if dir.disk.state.None? || !ValidState(dir.disk.state.value, b) { return Refused; }
    var s := dir.disk.state.value;
    if s.status.Blocked? || (!s.guarded && s.queue == []) { return Idle; }
    if s.active.Some? || AnyAwaiting(s.queue) { return Idle; }
    var first := FirstQueued(s.queue);
    if first.None? { return Idle; }
    var e := first.value;
    if e.id !in dir.disk.requests || !ValidRequest(dir.disk.requests[e.id], b, e)
        || !dir.disk.requests[e.id].status.Queued? ||
       e.id in dir.disk.acks {
      var ok := BlockState(dir, s, lost);
      return if ok then Idle else Refused;
    }
    out := PerformClaim(dir, dir.disk.requests[e.id], b, s, e, input.invocation);
  }

  /**
   The three writes of a claim: the claim is durable before the request shows it, and the
   acknowledgement comes last.
   */
  method PerformClaim(dir: Directory, r: Request, b: Binding, s: State, e: Entry, invocation: nat)
    returns (out: Outcome)
    modifies dir
    ensures dir.disk == Perform(old(dir.disk), ClaimWrites(r, b, s, e, invocation), old(dir.fuse))
    ensures out == Reported(Plan(ClaimWrites(r, b, s, e, invocation), Injection(r.text)), old(dir.fuse))
  {
    ghost var d, w := dir.disk, ClaimWrites(r, b, s, e, invocation);
    PerformThree(d, w[0], w[1], w[2], dir.fuse);
    var claimed := s.(status := Claimed, guarded := true, active := Some(e.id), queue := Mark(s.queue, e.id, Awaiting));
    var ok := dir.WriteJson(PutState(claimed));
    if !ok { return Refused; }
    ok := dir.WriteJson(PutRequest(e.id, r.(status := Awaiting)));
    if !ok { return Refused; }
    ok := dir.WriteJson(PutAck(e.id, Ack(b.token, b.conversation, e.id, e.seqNo, invocation)));
    if !ok { return Refused; }
    return Injection(r.text);
  }

  class SteeringCoordinator {
    const dir: Directory
    var binding: Binding
    var conversationBound: bool
    var blocked: bool

    constructor (d: Directory, b: Binding, bound: bool, stopped: bool)
      ensures dir == d && Memory() == Coordinator(b, bound, stopped)
    {
      dir, binding, conversationBound, blocked := d, b, bound, stopped;
    }

    ghost function Memory(): Coordinator
      reads this
    {
      Coordinator(binding, conversationBound, blocked)
    }

    /** `enqueue`. A coordinator that finds the bridge blocked remembers it. */
    method EnqueueSteer(id: SteerId, text: Text, floor: nat) returns (out: Outcome)
      modifies dir, this`blocked
      ensures var p := Enqueue(old(dir.disk), old(Memory()), id, text, floor);
              && dir.disk == Perform(old(dir.disk), p.writes, old(dir.fuse))
              && out == Reported(p, old(dir.fuse))
              && blocked == (old(blocked) || out.Stop?)
    {
      if blocked || !conversationBound || !Acceptable(text, floor) { return Refused; }
      if dir.disk.state.None? || !ValidState(dir.disk.state.value, binding) { return Refused; }
      var s := dir.disk.state.value;
      if s.status.Blocked? { blocked := true; return Stop; }
      if PendingCount(s.queue) >= MAX_PENDING { return Refused; }
      var e := Entry(id, s.next, floor, Queued);
      var r := Request(binding.token, binding.conversation, id, s.next, floor, text, Queued);
      var s' := s.(status := if s.active.Some? then Claimed else Waiting, guarded := true, queue := s.queue + [e],
          next := s.next + 1);
      PerformTwo(dir.disk, PutState(s'), PutRequest(id, r), dir.fuse);
      var ok := dir.WriteJson(PutState(s'));
      if !ok { return Refused; }
      ok := dir.WriteJson(PutRequest(id, r));
      return if ok then Enqueued(e) else Refused;
    }

    /** `block`. */
    method BlockBridge(lost: set<SteerId>) returns (out: Outcome)
      modifies dir, this`blocked
      ensures var p := Block(old(dir.disk), old(Memory()), lost);
              && dir.disk == Perform(old(dir.disk), p.writes, old(dir.fuse))
              && out == Reported(p, old(dir.fuse))
              && blocked == (old(blocked) || out.Stop?)
    {
      if dir.disk.state.None? || !ValidState(dir.disk.state.value, binding) { return Refused; }
      var s := dir.disk.state.value;
      if !s.status.Blocked? {
        var ok := BlockState(dir, s, lost);
        if !ok { return Refused; }
      }
      blocked := true;
      return Stop;
    }

    /** `observeUserInput`: the request first, then the state record that releases the queue. */
    method ObserveUserInput(conversation: Conversation, step: nat, lost: set<SteerId>) returns (out: Outcome)
      modifies dir, this`blocked
      ensures var p := Observe(old(dir.disk), old(Memory()), conversation, step, lost);
              && dir.disk == Perform(old(dir.disk), p.writes, old(dir.fuse))
              && out == Reported(p, old(dir.fuse))
              && blocked == (old(blocked) || out.Stop?)
    {
      if blocked || !conversationBound { return Refused; }
      if conversation != binding.conversation { out := BlockBridge(lost); return; }
      if dir.disk.state.None? || !ValidState(dir.disk.state.value, binding) { return Refused; }
      var s := dir.disk.state.value;
      if s.status.Blocked? { blocked := true; return Stop; }
      if s.active.None? { return Refused; }
      var found := WithId(s.queue, s.active.value);
      if found.None? || !Confirmable(dir.disk, binding, found.value, step) {
        var ok := BlockState(dir, s, lost);
        if !ok { return Refused; }
        blocked := true;
        return Stop;
      }
      out := PerformObserve(dir.disk.requests[found.value.id], s, found.value, step);
    }

    method PerformObserve(r: Request, s: State, e: Entry, step: nat) returns (out: Outcome)
      modifies dir
      ensures dir.disk == Perform(old(dir.disk), ObserveWrites(r, s, e), old(dir.fuse))
      ensures out == Reported(Plan(ObserveWrites(r, s, e), Confirmed(e, step)), old(dir.fuse))
    {
      ghost var w := ObserveWrites(r, s, e);
      PerformTwo(dir.disk, w[0], w[1], dir.fuse);
      var q := Mark(s.queue, e.id, Injected);
      var more := AnyPending(q);
      var ok := dir.WriteJson(PutRequest(e.id, r.(status := Injected)));
      if !ok { return Refused; }
      ok := dir.WriteJson(PutState(s.(status := if more then Waiting
          else AllInjected, guarded := more, active := None, queue := q)));
      return if ok then Confirmed(e, step) else Refused;
    }

    /** `bindConversation`: both files are rewritten before the memory follows. */
    method BindConversation(conversation: Conversation, lost: set<SteerId>) returns (out: Outcome)
      modifies dir, this
      ensures var p := Bind(old(dir.disk), old(Memory()), conversation, lost);
              && dir.disk == Perform(old(dir.disk), p.writes, old(dir.fuse))
              && out == Reported(p, old(dir.fuse))
      ensures blocked == (old(blocked) || out.Stop?)
      ensures out.Bound? ==> conversationBound && binding == old(binding).(conversation := conversation)
      ensures !out.Bound? ==> conversationBound == old(conversationBound) && binding == old(binding)
    {
      if conversationBound { return if conversation == binding.conversation then Bound else Refused; }
      if dir.disk.binding.None? || dir.disk.binding.value.token != binding.token { return Refused; }
      var b := dir.disk.binding.value;
      if b.conversation != binding.conversation {
        if b.conversation != conversation { return Refused; }
        binding, conversationBound := b, true;
        return Bound;
      }
      if dir.disk.state.None? || !ValidState(dir.disk.state.value, b) { return Refused; }
      var s := dir.disk.state.value;
      if s.status.Blocked? { blocked := true; return Stop; }
      if s.guarded || s.queue != [] {
        var ok := BlockState(dir, s, lost);
        if !ok { return Refused; }
        blocked := true;
        return Stop;
      }
      PerformTwo(dir.disk, PutBinding(b.(conversation := conversation)), PutState(s.(token := b.token)), dir.fuse);
      var ok := dir.WriteJson(PutBinding(b.(conversation := conversation)));
      if !ok { return Refused; }
      ok := dir.WriteJson(PutState(s.(token := b.token)));
      if !ok { return Refused; }
      binding, conversationBound := b.(conversation := conversation), true;
      return Bound;
    }
  }

  /** `createSteeringCoordinator`: create the bridge, or reopen it and block what was left unconsumed. */
  method CreateSteeringCoordinator(dir: Directory, born: Binding, bound: bool, lost: set<SteerId>)
    returns (out: Outcome, made: Option<SteeringCoordinator>)
    modifies dir
    ensures var p := Open(old(dir.disk), born, lost);
            && dir.disk == Perform(old(dir.disk), p.writes, old(dir.fuse))
            && out == Reported(p, old(dir.fuse))
    ensures made.Some? <==> out.Opened?
    ensures made.Some? ==> fresh(made.value) && made.value.dir == dir
                           && made.value.Memory() == Coordinator(out.binding, out.blocked || bound, out.blocked)
  {
    made := None;
    if dir.disk.binding.None? {
      PerformTwo(dir.disk, PutBinding(born), PutState(State(born.token, Ready, false, None, [], 1)), dir.fuse);
      var ok := dir.WriteJson(PutBinding(born));
      if !ok { return Refused, None; }
      ok := dir.WriteJson(PutState(State(born.token, Ready, false, None, [], 1)));
      if !ok { return Refused, None; }
      out := Opened(born, false);
    } else {
      var b := dir.disk.binding.value;
      if b.token.(nonce := born.token.nonce) != born.token || b.conversation != born.conversation {
        return Refused, None;
      }
      if dir.disk.state.None? || !ValidState(dir.disk.state.value, b) { return Refused, None; }
      var s := dir.disk.state.value;
      if s.status.Blocked? {
        out := Opened(b, true);
      } else if s.guarded || AnyPending(s.queue) {
        var ok := BlockState(dir, s, lost);
        if !ok { return Refused, None; }
        out := Opened(b, true);
      } else {
        out := Opened(b, false);
      }
    }
    var c := new SteeringCoordinator(dir, out.binding, out.blocked || bound, out.blocked);
    made := Some(c);
  }
}
