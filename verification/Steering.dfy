/**
 The steering bridge: a directory shared by an adapter and the provider's hook processes.
 Every operation holds the bridge lock, reads the files once, and then performs a fixed
 list of atomic file replacements. An operation is therefore a plan: the writes it will
 perform, in order, and the outcome it reports if it gets through all of them. A crash or
 a failed write after `k` of them leaves the first `k` in place.

 Digests are injective, so the binding token is the record it is computed from; the
 conversation id is not part of it.
 */
module Steering {

  import opened Options

  const MAX_TEXT := 16_384
  const MAX_PENDING := 8
  const MAX_FLOOR := 1_000_000_000
  const MAX_INVOCATION := 1_000_000

  type SteerId = nat
  type Conversation = nat
  type CodeUnit = n: nat | n < 0x1_0000
  type Text = seq<CodeUnit>

  datatype Token = Token(owner: nat, channel: nat, session: nat, nonce: nat)

  datatype Binding = Binding(token: Token, conversation: Conversation)

  datatype EntryStatus = Queued | Awaiting | Injected | Stopped

  datatype Entry = Entry(id: SteerId, seqNo: nat, floor: nat, status: EntryStatus)

  datatype Status = Ready | Waiting | Claimed | AllInjected | Blocked

  datatype State = State(
    token: Token,
    status: Status,
    guarded: bool,
    active: Option<SteerId>,
    queue: seq<Entry>,
    next: nat)

  datatype Request = Request(
    token: Token,
    conversation: Conversation,
    id: SteerId,
    seqNo: nat,
    floor: nat,
    text: Text,
    status: EntryStatus)

  datatype Ack = Ack(token: Token, conversation: Conversation, id: SteerId, seqNo: nat, invocation: nat)

  datatype Disk = Disk(
    binding: Option<Binding>,
    state: Option<State>,
    requests: map<SteerId, Request>,
    acks: map<SteerId, Ack>)

  const NO_FILES := Disk(None, None, map[], map[])

  /** One atomic replacement of one file. */
  datatype Write =
    | PutBinding(binding: Binding)
    | PutState(state: State)
    | PutRequest(id: SteerId, request: Request)
    | PutAck(id: SteerId, ack: Ack)

  function Put(d: Disk, w: Write): Disk {
    match w
    case PutBinding(b) => d.(binding := Some(b))
    case PutState(s) => d.(state := Some(s))
    case PutRequest(id, r) => d.(requests := d.requests[id := r])
    case PutAck(id, a) => d.(acks := d.acks[id := a])
  }

  /** The first `k` writes of the list, or all of them. */
  function Perform(d: Disk, writes: seq<Write>, k: nat): Disk
    decreases |writes|
  {
    if writes == [] || k == 0 then d else Perform(Put(d, writes[0]), writes[1..], k - 1)
  }

  datatype Outcome =
    | Refused
    | Idle
    | Stop
    | Enqueued(entry: Entry)
    | Injection(text: Text)
    | Confirmed(entry: Entry, step: nat)
    | Bound
    | Opened(binding: Binding, blocked: bool)

  datatype Plan = Plan(writes: seq<Write>, outcome: Outcome)

  const REFUSAL := Plan([], Refused)

  // ---- Validation ----

  predicate ValidState(s: State, b: Binding) {
    && s.token == b.token
    && 1 <= s.next
    && (forall i | 0 <= i < |s.queue| :: 1 <= s.queue[i].seqNo)
    && (s.status.Claimed? ==> s.active.Some?)
  }

  predicate ValidRequest(r: Request, b: Binding, e: Entry) {
    && r.token == b.token
    && r.conversation == b.conversation
    && r.id == e.id
    && r.seqNo == e.seqNo
    && r.floor == e.floor
    && 0 < |r.text| <= MAX_TEXT
  }

  predicate ValidAck(a: Ack, b: Binding, e: Entry) {
    a.token == b.token && a.conversation == b.conversation && a.id == e.id && a.seqNo == e.seqNo
  }

  predicate Pending(e: Entry) {
    e.status.Queued? || e.status.Awaiting?
  }

  function PendingCount(q: seq<Entry>): nat {
    if q == [] then 0 else PendingCount(q[..|q| - 1]) + if Pending(q[|q| - 1]) then 1 else 0
  }

  predicate AnyPending(q: seq<Entry>) {
    exists i | 0 <= i < |q| :: Pending(q[i])
  }

  predicate AnyAwaiting(q: seq<Entry>) {
    exists i | 0 <= i < |q| :: q[i].status.Awaiting?
  }

  /** The first entry in queue order that still waits for its claim. */
  function FirstQueued(q: seq<Entry>): (r: Option<Entry>)
    ensures r.None? <==> forall i | 0 <= i < |q| :: !q[i].status.Queued?
    ensures r.Some? ==> exists i | 0 <= i < |q| ::
        q[i] == r.value && q[i].status.Queued? && forall j | 0 <= j < i :: !q[j].status.Queued?
  {
    if q == [] then None
    else if q[0].status.Queued? then Some(q[0])
    else
      var r := FirstQueued(q[1..]);
      assert r.Some? ==> exists i | 1 <= i < |q| ::
          q[i] == r.value && q[i].status.Queued? && forall j | 0 <= j < i :: !q[j].status.Queued? by
      {
        if r.Some? {
          var i :| 0 <= i < |q[1..]| && q[1..][i] == r.value && q[1..][i].status.Queued?
              && forall j | 0 <= j < i :: !q[1..][j].status.Queued?;
          assert q[i + 1] == r.value;
          assert forall j | 1 <= j < i + 1 :: q[j] == q[1..][j - 1];
        }
      }
      assert forall i | 0 <= i < |q[1..]| :: q[1..][i] == q[i + 1];
      assert r.None? ==> forall i | 1 <= i < |q| :: q[i] == q[1..][i - 1];
      r
  }

  function WithId(q: seq<Entry>, id: SteerId): (r: Option<Entry>)
    ensures r.None? <==> forall i | 0 <= i < |q| :: q[i].id != id
    ensures r.Some? ==> r.value in q && r.value.id == id
  {
    if q == [] then None
    else if q[0].id == id then Some(q[0])
    else
      assert forall i | 1 <= i < |q| :: q[i] == q[1..][i - 1];
      WithId(q[1..], id)
  }

  function Mark(q: seq<Entry>, id: SteerId, status: EntryStatus): seq<Entry> {
    seq(|q|, i requires 0 <= i < |q| => if q[i].id == id then q[i].(status := status) else q[i])
  }

  // ---- Blocking ----

  function BlockedState(s: State): State {
    s.(status := Blocked, guarded := true, active := None,
       queue := seq(|s.queue|, i requires 0 <= i < |s.queue| => s.queue[i].(status := Stopped)))
  }

  /** The requests `blockState` rewrites; those in `lost` cannot be read or written and are skipped. */
  function RequestStops(d: Disk, q: seq<Entry>, lost: set<SteerId>): seq<Write> {
    if q == [] then []
    else if q[0].id in d.requests && q[0].id !in lost
    then [PutRequest(q[0].id, d.requests[q[0].id].(status := Stopped))] + RequestStops(d, q[1..], lost)
    else RequestStops(d, q[1..], lost)
  }

  function BlockWrites(d: Disk, s: State, lost: set<SteerId>): seq<Write> {
    [PutState(BlockedState(s))] + RequestStops(d, s.queue, lost)
  }

  // ---- The hook ----

  /** What the provider tells its hook; `scoped` is the outcome of the workspace check. */
  datatype HookInput = HookInput(conversation: Conversation, invocation: nat, scoped: bool)

  function Claim(d: Disk, expected: Token, input: HookInput, lost: set<SteerId>): Plan {
    if d.binding.None? || d.binding.value.token != expected then REFUSAL
    else
      var b := d.binding.value;
      if input.conversation != b.conversation || input.invocation > MAX_INVOCATION || !input.scoped then REFUSAL
      else if d.state.None? || !ValidState(d.state.value, b) then REFUSAL
      else ClaimFrom(d, b, d.state.value, input.invocation, lost)
  }

  function ClaimFrom(d: Disk, b: Binding, s: State, invocation: nat, lost: set<SteerId>): Plan {
    if s.status.Blocked? || (!s.guarded && s.queue == []) then Plan([], Idle)
    else if s.active.Some? || AnyAwaiting(s.queue) then Plan([], Idle)
    else
      match FirstQueued(s.queue)
      case None => Plan([], Idle)
      case Some(e) =>
        if e.id !in d.requests || !ValidRequest(d.requests[e.id], b, e) || !d.requests[e.id].status.Queued?
            || e.id in d.acks
        then Plan(BlockWrites(d, s, lost), Idle)
        else Plan(ClaimWrites(d.requests[e.id], b, s, e, invocation), Injection(d.requests[e.id].text))
  }

  function ClaimWrites(r: Request, b: Binding, s: State, e: Entry, invocation: nat): seq<Write> {
    [PutState(s.(status := Claimed, guarded := true, active := Some(e.id), queue := Mark(s.queue, e.id, Awaiting))),
     PutRequest(e.id, r.(status := Awaiting)),
     PutAck(e.id, Ack(b.token, b.conversation, e.id, e.seqNo, invocation))]
  }

  // ---- The coordinator ----

  /** The memory of a coordinator. Nothing ties it to the bridge it finds on disk. */
  datatype Coordinator = Coordinator(binding: Binding, bound: bool, blocked: bool)

  predicate Usable(c: Coordinator) {
    !c.blocked && c.bound
  }

  /** The white space that `trim` removes. */
  predicate Space(c: CodeUnit) {
    || 9 <= c <= 13 || c == 0x20 || c == 0xA0 || c == 0x1680 || 0x2000 <= c <= 0x200A
    || c == 0x2028 || c == 0x2029 || c == 0x202F || c == 0x205F || c == 0x3000 || c == 0xFEFF
  }

  predicate Acceptable(text: Text, floor: nat) {
    (exists i | 0 <= i < |text| :: !Space(text[i])) && |text| <= MAX_TEXT && floor <= MAX_FLOOR
  }

  function Enqueue(d: Disk, c: Coordinator, id: SteerId, text: Text, floor: nat): Plan {
    if !Usable(c) || !Acceptable(text, floor) then REFUSAL
    else if d.state.None? || !ValidState(d.state.value, c.binding) then REFUSAL
    else
      var s := d.state.value;
      if s.status.Blocked? then Plan([], Stop)
      else if PendingCount(s.queue) >= MAX_PENDING then REFUSAL
      else
        var e := Entry(id, s.next, floor, Queued);
        var s' := s.(status := if s.active.Some? then Claimed else Waiting, guarded := true,
                     queue := s.queue + [e], next := s.next + 1);
        var r := Request(c.binding.token, c.binding.conversation, id, s.next, floor, text, Queued);
        Plan([PutState(s'), PutRequest(id, r)], Enqueued(e))
  }

  function Observe(d: Disk, c: Coordinator, conversation: Conversation, step: nat, lost: set<SteerId>): Plan {
    if !Usable(c) then REFUSAL
    else if conversation != c.binding.conversation then Block(d, c, lost)
    else if d.state.None? || !ValidState(d.state.value, c.binding) then REFUSAL
    else
      var s := d.state.value;
      if s.status.Blocked? then Plan([], Stop)
      else if s.active.None? then REFUSAL
      else
        var e := WithId(s.queue, s.active.value);
        if e.Some? && Confirmable(d, c.binding, e.value, step)
        then Plan(ObserveWrites(d.requests[e.value.id], s, e.value), Confirmed(e.value, step))
        else Plan(BlockWrites(d, s, lost), Stop)
  }

  predicate Confirmable(d: Disk, b: Binding, e: Entry, step: nat) {
    && e.status.Awaiting?
    && e.id in d.requests && ValidRequest(d.requests[e.id], b, e) && d.requests[e.id].status.Awaiting?
    && step > e.floor
    && e.id in d.acks && ValidAck(d.acks[e.id], b, e)
  }

  function ObserveWrites(r: Request, s: State, e: Entry): seq<Write> {
    var q := Mark(s.queue, e.id, Injected);
    [PutRequest(e.id, r.(status := Injected)),
     PutState(s.(status := if AnyPending(q) then Waiting else AllInjected, guarded := AnyPending(q), active := None,
         queue := q))]
  }

  function Block(d: Disk, c: Coordinator, lost: set<SteerId>): Plan {
    if d.state.None? || !ValidState(d.state.value, c.binding) then REFUSAL
    else if d.state.value.status.Blocked? then Plan([], Stop)
    else Plan(BlockWrites(d, d.state.value, lost), Stop)
  }

  function Bind(d: Disk, c: Coordinator, conversation: Conversation, lost: set<SteerId>): Plan {
    if c.bound then (if conversation == c.binding.conversation then Plan([], Bound) else REFUSAL)
    else if d.binding.None? || d.binding.value.token != c.binding.token then REFUSAL
    else
      var b := d.binding.value;
      if b.conversation != c.binding.conversation then
        if b.conversation == conversation then Plan([], Bound) else REFUSAL
      else if d.state.None? || !ValidState(d.state.value, b) then REFUSAL
      else
        var s := d.state.value;
        if s.status.Blocked? then Plan([], Stop)
        else if s.guarded || s.queue != [] then Plan(BlockWrites(d, s, lost), Stop)
        else Plan([PutBinding(b.(conversation := conversation)), PutState(s.(token := b.token))], Bound)
  }

  /** `createSteeringCoordinator` on this directory; `born` is the binding with its new nonce. */
  function Open(d: Disk, born: Binding, lost: set<SteerId>): Plan {
    if d.binding.None? then
      Plan([PutBinding(born), PutState(State(born.token, Ready, false, None, [], 1))], Opened(born, false))
    else
      var b := d.binding.value;
      if b.token.(nonce := born.token.nonce) != born.token || b.conversation != born.conversation then REFUSAL
      else if d.state.None? || !ValidState(d.state.value, b) then REFUSAL
      else
        var s := d.state.value;
        if s.status.Blocked? then Plan([], Opened(b, true))
        else if s.guarded || AnyPending(s.queue) then Plan(BlockWrites(d, s, lost), Opened(b, true))
        else Plan([], Opened(b, false))
  }

  /** `reconcileSteeringBridge` renames the directory away. */
  predicate Archivable(d: Disk, owner: nat, channel: nat) {
    && d.binding.Some? && d.state.Some?
    && d.binding.value.token.owner == owner && d.binding.value.token.channel == channel
    && ValidState(d.state.value, d.binding.value)
    && (d.state.value.status.Blocked? || d.state.value.guarded)
  }
}
