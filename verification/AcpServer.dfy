/**
 The memory of one adapter process, restricted to one channel: the ACP sessions, the
 turns in flight, the channel pin and the live-block mark. JavaScript runs one segment
 between two awaits without interruption, so every handler is cut at its awaits; each
 segment below is one function on `Memory`. The class of module AcpServerProcess performs
 the same segments on mutable fields.

 Durable state is enabled and steering is off; a failing steering inspection shows up as
 the failure every preflight await may end in.
 */
module AcpServer {

  import opened Options

  type Sid = nat     // an ACP session
  type Child = nat   // a provider child process
  type Conv = nat    // a provider conversation id
  type Rid = nat     // an outbox recovery id

  datatype Delivery = Inflight | FailedBeforeStart | Uncertain | Sent

  /** What the server can learn of an `AgySession`: its last child, its id, its `closed` flag. */
  datatype Provider = Provider(last: Option<Child>, conv: Option<Conv>, closed: bool)

  const FRESH_PROVIDER := Provider(None, None, false)

  datatype Entry = Entry(
    provider: Provider,
    bound: bool,
    cachedBound: bool,
    needsReplacement: bool,
    everStarted: bool,
    blockMine: bool,
    safeToTransfer: bool,
    invalidated: bool,
    cancelSettled: bool,
    stateError: bool)

  const FRESH_ENTRY := Entry(FRESH_PROVIDER, false, false, false, false, false, false, false, false, false)

  /** Where a turn is suspended: the await whose completion it is waiting for. */
  datatype Pc =
    | Scoping | CancelLoad | CancelScan | CancelRetire | SafeScan | ReplaceScan | ReplaceRetire
    | Loading | Refusing | Reconciling | Rereading | Inspecting | Invalidating | Starting | Releasing
    | Running | Retiring | Staging | Beginning | Publishing | Updating | Saving

  datatype Turn = Turn(
    pc: Pc,
    ownedBefore: bool,
    existing: Option<Sid>,
    from: Option<Sid>,
    committed: bool,
    cancelTransfer: bool,
    cleared: bool,
    retired: bool,
    staged: Option<Conv>,
    rid: Option<Rid>,
    outcome: Delivery,
    aborted: bool,
    cancelled: bool)

  datatype Memory = Memory(
    entries: map<Sid, Entry>,
    turns: map<Sid, Turn>,
    pin: Option<Sid>,
    liveBlock: bool,
    closing: bool)

  const EMPTY_MEMORY := Memory(map[], map[], None, false, false)

  /** The preflight awaits: a failure here runs the first catch block. */
  predicate Preflight(pc: Pc) {
    pc.Scoping? || pc.CancelLoad? || pc.CancelScan? || pc.CancelRetire? || pc.SafeScan? || pc.ReplaceScan? ||
    pc.ReplaceRetire? || pc.Loading? || pc.Refusing? || pc.Reconciling? || pc.Rereading? || pc.Inspecting? ||
    pc.Invalidating? || pc.Starting?
  }

  /** The awaits after the provider was started: a failure here runs the finally block. */
  predicate Started(pc: Pc) {
    pc.Running? || pc.Retiring? || pc.Staging? || pc.Beginning? || pc.Publishing? || pc.Updating? || pc.Saving?
  }

  predicate WellFormed(m: Memory) {
    && m.turns.Keys <= m.entries.Keys
    && (m.pin.Some? ==> m.pin.value in m.entries)
    && forall x | x in m.turns ::
         && (m.turns[x].existing.Some? ==> m.turns[x].existing.value in m.entries && m.turns[x].existing.value != x)
         && (m.turns[x].from.Some? ==> m.turns[x].from.value in m.entries && m.turns[x].from.value != x)
         && ((m.turns[x].pc.CancelLoad? || m.turns[x].pc.CancelScan? || m.turns[x].pc.CancelRetire? ||
              m.turns[x].pc.SafeScan?)
             ==> m.turns[x].existing.Some?)
  }

  predicate At(m: Memory, x: Sid, pc: Pc) {
    WellFormed(m) && x in m.turns && m.turns[x].pc == pc
  }

  /** `channelBusyElsewhere`. */
  predicate Busy(m: Memory, x: Sid) {
    exists y | y in m.turns :: y != x
  }

  function WithEntry(m: Memory, x: Sid, e: Entry): Memory {
    m.(entries := m.entries[x := e])
  }

  function WithTurn(m: Memory, x: Sid, t: Turn): Memory {
    m.(turns := m.turns[x := t])
  }

  function Go(m: Memory, x: Sid, pc: Pc): Memory
    requires x in m.turns
  {
    WithTurn(m, x, m.turns[x].(pc := pc))
  }

  // ---- Leaving a turn ----

  /** The end of the preflight catch block: drop the turn, settle the mark, return the pin. */
  function CatchTail(m: Memory, x: Sid): Memory
    requires WellFormed(m) && x in m.turns
  {
    var t := m.turns[x];
    var e := m.entries[x];
    var pin :=
      if t.from.Some? && !t.committed && m.pin == Some(x) then t.from
      else if !t.committed && !e.needsReplacement && !e.stateError && !e.blockMine && m.pin == Some(x) then None
      else m.pin;
    m.(turns := m.turns - {x}, liveBlock := m.liveBlock && Busy(m, x), pin := pin)
  }

  /** True when the catch block gives the channel lock back: this preflight took it and left nothing bound. */
  predicate Releases(m: Memory, x: Sid)
    requires WellFormed(m) && x in m.turns
  {
    var e := m.entries[x];
    !m.turns[x].ownedBefore && !e.cachedBound && !e.everStarted && !e.needsReplacement
  }

  function Fail(m: Memory, x: Sid, owns: bool): Memory
    requires WellFormed(m) && x in m.turns
  {
    if Releases(m, x) && owns then Go(m, x, Releasing) else CatchTail(m, x)
  }

  function Released(m: Memory, x: Sid, ok: bool): Memory
    requires At(m, x, Releasing)
  {
    var e := m.entries[x];
    CatchTail(WithEntry(m, x, if ok then e.(bound := false) else e.(stateError := true)), x)
  }

  /** The finally block of a turn that is not safe. */
  function SettleUnsafe(m: Memory, x: Sid): Memory
    requires WellFormed(m) && x in m.turns
  {
    var t := m.turns[x];
    var live := m.liveBlock && Busy(m, x);
    var e := m.entries[x].(needsReplacement := true);
    var e' := if t.aborted && t.cancelled && !live then e.(cancelSettled := true) else e;
    WithEntry(m, x, e').(turns := m.turns - {x}, liveBlock := live)
  }

  // ---- The preflight of `session/prompt` ----

  predicate CanPrompt(m: Memory, x: Sid) {
    WellFormed(m) && x in m.entries && x !in m.turns && !m.entries[x].stateError && !m.entries[x].invalidated
        && !m.closing
  }

  function Prompt(m: Memory, x: Sid, owned: bool): Memory
    requires CanPrompt(m, x)
  {
    var t := Turn(Scoping, owned, None, None, false, false, false, false, None, None, Inflight, false, false);
    var m1 := WithTurn(WithEntry(m, x, m.entries[x].(cancelSettled := false)), x, t);
    if Busy(m, x) then CatchTail(m1, x) else m1
  }

  function Scoped(m: Memory, x: Sid, owns: bool): Memory
    requires At(m, x, Scoping)
  {
    if m.pin.Some? && m.pin.value != x then
      var y := m.pin.value;
      var ex := m.entries[y];
      var cancelRecovery := ex.cancelSettled && ex.needsReplacement;
      var safe := ex.safeToTransfer && !ex.needsReplacement;
      var t := m.turns[x].(existing := Some(y));
      if ex.invalidated || ex.stateError || y in m.turns || m.liveBlock || !(safe || cancelRecovery) then
        Fail(m, x, owns)
      else if cancelRecovery then WithTurn(m, x, t.(pc := CancelLoad))
      else WithTurn(m, x, t.(pc := SafeScan))
    else
      TakePin(m, x, owns)
  }

  /** `channelSessions.set`, then the branch on `needsReplacement`. */
  function TakePin(m: Memory, x: Sid, owns: bool): Memory
    requires WellFormed(m) && x in m.turns
  {
    var m1 := m.(pin := Some(x));
    if !m.entries[x].needsReplacement then Go(m1, x, Loading)
    else if m.liveBlock || Busy(m, x) then Fail(m1, x, owns)
    else Go(m1, x, ReplaceScan)
  }

  function CancelLoaded(m: Memory, x: Sid, owns: bool): Memory
    requires At(m, x, CancelLoad)
  {
    if m.liveBlock || Busy(m, x) then Fail(m, x, owns) else Go(m, x, CancelScan)
  }

  /** The cancelled owner's provider has retired; its session object is closed. */
  function CancelRetired(m: Memory, x: Sid, owns: bool): Memory
    requires At(m, x, CancelRetire)
  {
    var y := m.turns[x].existing.value;
    var m1 := WithEntry(m, y, m.entries[y].(provider := m.entries[y].provider.(closed := true)));
    var t := m.turns[x].(cancelTransfer := true, retired := true, from := Some(y));
    TakePin(WithTurn(m1, x, t), x, owns)
  }

  function SafeScanned(m: Memory, x: Sid, owns: bool): Memory
    requires At(m, x, SafeScan)
  {
    TakePin(WithTurn(m, x, m.turns[x].(from := m.turns[x].existing)), x, owns)
  }

  function ReplaceRetired(m: Memory, x: Sid): Memory
    requires At(m, x, ReplaceRetire)
  {
    var m1 := WithEntry(m, x, m.entries[x].(provider := m.entries[x].provider.(closed := true)));
    WithTurn(m1, x, m.turns[x].(retired := true, pc := Loading))
  }

  /** The no-start proof: this process created the block and never started a provider for it. */
  predicate NoStartProof(m: Memory, x: Sid)
    requires WellFormed(m) && x in m.turns
  {
    m.entries[x].blockMine && !m.entries[x].everStarted && m.turns[x].from.None? && m.pin == Some(x)
  }

  /** The load found a blocked record. */
  function LoadedBlocked(m: Memory, x: Sid): Memory
    requires At(m, x, Loading)
  {
    if m.turns[x].retired || NoStartProof(m, x)
    then WithTurn(m, x, m.turns[x].(retired := true, pc := Reconciling))
    else Go(m, x, Refusing)
  }

  function Reconciled(m: Memory, x: Sid, conv: Option<Conv>): Memory
    requires At(m, x, Reconciling)
  {
    var t := m.turns[x];
    WithTurn(m, x, t.(pc := Rereading, cleared := t.cleared || (t.cancelTransfer && conv.None?)))
  }

  /** From the open record to the steering inspection: commit the transfer, rebuild, bind. */
  function Open(m: Memory, x: Sid, owns: bool, saved: Option<Conv>, built: bool): Memory
    requires WellFormed(m) && x in m.turns
  {
    var t := m.turns[x];
    if t.from.Some? && saved.None? && !(t.cancelTransfer && t.cleared) then Fail(m, x, owns)
    else Bind(Commit(m, x), x, owns, saved, built)
  }

  function Commit(m: Memory, x: Sid): Memory
    requires WellFormed(m) && x in m.turns
  {
    var t := m.turns[x];
    var m1 :=
      if t.from.Some? then
        var f := m.entries[t.from.value].(safeToTransfer := false, invalidated := true, cancelSettled := false);
        WithTurn(WithEntry(m, t.from.value, f), x, t.(committed := true))
      else m;
    WithEntry(m1, x, m1.entries[x].(blockMine := false))
  }

  function Bind(m: Memory, x: Sid, owns: bool, saved: Option<Conv>, built: bool): Memory
    requires WellFormed(m) && x in m.turns
  {
    if m.entries[x].needsReplacement && !built then Fail(m, x, owns)
    else Attach(WithEntry(m, x, Rebuilt(m.entries[x])), x, owns, saved)
  }

  /** The entry after `makeSession`, when the old session object is being replaced. */
  function Rebuilt(e: Entry): Entry {
    if e.needsReplacement
    then e.(provider := FRESH_PROVIDER, bound := false, cachedBound := false, needsReplacement := false)
    else e
  }

  /** `setTrustedConversation` refuses a closed session and another id than its own. */
  predicate Distrusts(p: Provider, saved: Option<Conv>) {
    saved.Some? && (p.closed || (p.conv.Some? && p.conv != saved))
  }

  function Attached(e: Entry, saved: Option<Conv>): Entry {
    if saved.Some? then e.(provider := e.provider.(conv := saved), cachedBound := true, bound := true)
    else e.(bound := true)
  }

  function Attach(m: Memory, x: Sid, owns: bool, saved: Option<Conv>): Memory
    requires WellFormed(m) && x in m.turns
  {
    var e := m.entries[x];
    if e.bound then Go(m, x, Inspecting)
    else if Distrusts(e.provider, saved) then Fail(m, x, owns)
    else Go(WithEntry(m, x, Attached(e, saved)), x, Inspecting)
  }

  function Invalidated(m: Memory, x: Sid): Memory
    requires At(m, x, Invalidating)
  {
    Go(WithEntry(m, x, m.entries[x].(blockMine := true)), x, Starting).(liveBlock := true)
  }

  /** The last synchronous check of the preflight, then `session.prompt`. */
  function Start(m: Memory, x: Sid, owns: bool): Memory
    requires At(m, x, Starting)
  {
    if m.turns[x].aborted then Fail(m, x, owns)
    else Go(WithEntry(m, x, m.entries[x].(everStarted := true)), x, Running)
  }

  // ---- The turn itself ----

  function Retired(m: Memory, x: Sid): Memory
    requires At(m, x, Retiring)
  {
    if m.turns[x].aborted then SettleUnsafe(m, x) else Go(m, x, Staging)
  }

  function Staged(m: Memory, x: Sid, conv: Conv): Memory
    requires At(m, x, Staging)
  {
    WithTurn(m, x, m.turns[x].(staged := Some(conv), pc := Beginning))
  }

  function Begun(m: Memory, x: Sid, rid: Option<Rid>): Memory
    requires At(m, x, Beginning)
  {
    WithTurn(m, x, m.turns[x].(rid := rid, pc := Publishing))
  }

  function Published(m: Memory, x: Sid, outcome: Delivery): Memory
    requires At(m, x, Publishing)
  {
    if m.turns[x].rid.Some? then WithTurn(m, x, m.turns[x].(outcome := outcome, pc := Updating))
    else Decide(m, x, outcome)
  }

  /** Only an acknowledged, uncancelled delivery goes on to the ready checkpoint. */
  function Decide(m: Memory, x: Sid, outcome: Delivery): Memory
    requires WellFormed(m) && x in m.turns
  {
    if outcome.Sent? && !m.turns[x].aborted && m.turns[x].staged.Some? then Go(m, x, Saving) else SettleUnsafe(m, x)
  }

  function Saved(m: Memory, x: Sid): Memory
    requires At(m, x, Saving)
  {
    var e := m.entries[x].(blockMine := false, safeToTransfer := m.turns[x].rid.Some?);
    WithEntry(m, x, e).(turns := m.turns - {x}, liveBlock := false)
  }

  // ---- Segments outside a turn ----

  function NewSession(m: Memory, x: Sid): Memory
    requires x !in m.entries
  {
    WithEntry(m, x, FRESH_ENTRY)
  }

  function Cancel(m: Memory, x: Sid): Memory {
    if x in m.turns then WithTurn(m, x, m.turns[x].(aborted := true, cancelled := true)) else m
  }

  function Close(m: Memory): Memory {
    m.(closing := true,
       turns := map x | x in m.turns :: m.turns[x].(aborted := true),
       entries := map x | x in m.entries :: m.entries[x].(provider := m.entries[x].provider.(closed := true)))
  }

  /** The session of a running turn starts a child. */
  function Spawned(m: Memory, x: Sid, c: Child): Memory
    requires x in m.entries
  {
    WithEntry(m, x, m.entries[x].(provider := m.entries[x].provider.(last := Some(c))))
  }

  /** The provider's init event names a conversation; an id already set stays. */
  function Initialised(m: Memory, x: Sid, conv: Conv): Memory
    requires x in m.entries
  {
    var p := m.entries[x].provider;
    WithEntry(m, x, m.entries[x].(provider := p.(conv := if p.conv.Some? then p.conv else Some(conv))))
  }
}
