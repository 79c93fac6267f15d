/**
 One outbox record and everyone who may publish it: the server that began it, and any
 number of retrying processes, each of which may crash between any two steps. The lock of
 the record is exclusive and dies with its holder. A write may be reported as failed after
 it has taken effect.

 Whether a publish attempt had an external effect is decided when it is made; what the
 publisher reports agrees with it: `sent` means an effect, `failed before start` means none,
 `uncertain` means nothing.
 */
module OutboxDelivery {

  import opened Options
  import opened Outbox

  type Pid = nat

  datatype Report = SentAs(event: string) | NotStarted | Unknown

  predicate Honest(r: Report, effect: bool) {
    match r
    case SentAs(e) => effect
    case NotStarted => !effect
    case Unknown => true
  }

  /** `normalizeDeliveryResult`. */
  function Normal(r: Report): Report {
    if r.SentAs? && !IsEvent(r.event) then Unknown else r
  }

  function ChangesOf(r: Report): Changes {
    match r
    case SentAs(e) => Changes(Some(Sent), Some(Some(e)))
    case NotStarted => Changes(Some(FailedBeforeStart), None)
    case Unknown => Changes(Some(Uncertain), None)
  }

  /** The server: it publishes without the lock, while the record is inflight. */
  datatype Server = Idle | Begun | Answered(report: Report) | Over

  /** A retrying process. */
  datatype Retry = Outside | Locked | Claimed | Told(report: Report) | Returned(outcome: Report) | Refused | Dead

  datatype World = World(
    disk: Option<Record>,
    lock: Option<Pid>,
    server: Server,
    retries: map<Pid, Retry>,
    effects: nat)

  const START := World(None, None, Idle, map[], 0)

  /** How a write ends: it takes effect or not, and the caller learns that it failed or not. */
  datatype Fate = Fate(applied: bool, reported: bool)

  predicate Possible(f: Fate) {
    f.reported ==> f.applied
  }

  datatype Act =
    | ServerBegins(identity: Identity, now: nat, fate: Fate)
    | ServerPublishes(effect: bool, report: Report)
    | ServerUpdates(now: nat, fate: Fate)
    | ServerCrashes
    | RetryStarts(pid: Pid)
    | RetryClaims(pid: Pid, now: nat, fate: Fate)
    | RetryPublishes(pid: Pid, effect: bool, report: Report)
    | RetryFinishes(pid: Pid, now: nat, fate: Fate)
    | RetryCrashes(pid: Pid)

  function At(w: World, p: Pid): Retry {
    if p in w.retries then w.retries[p] else Outside
  }

  predicate Enabled(w: World, a: Act) {
    match a
    case ServerBegins(_, _, f) => w.server.Idle? && w.disk.None? && w.lock.None? && Possible(f)
    case ServerPublishes(effect, report) => w.server.Begun? && Honest(report, effect)
    case ServerUpdates(_, f) => w.server.Answered? && w.lock.None? && Possible(f)
    case ServerCrashes => true
    case RetryStarts(p) => At(w, p).Outside? && w.lock.None?
    case RetryClaims(p, _, f) => At(w, p).Locked? && Possible(f)
    case RetryPublishes(p, effect, report) => At(w, p).Claimed? && Honest(report, effect)
    case RetryFinishes(p, _, f) => At(w, p).Told? && Possible(f)
    case RetryCrashes(p) => true
  }

  function Go(w: World, p: Pid, r: Retry): World {
    w.(retries := w.retries[p := r])
  }

  function Leave(w: World, p: Pid, r: Retry): World {
    Go(w, p, r).(lock := if w.lock == Some(p) then None else w.lock)
  }

  function Write(w: World, r: Record, f: Fate): World {
    if f.applied then w.(disk := Some(r)) else w
  }

  function Apply(w: World, a: Act): World
    requires Enabled(w, a)
  {
    match a
    case ServerBegins(identity, now, f) =>
      Write(w, Record(identity, Inflight, None, now), f).(server := if f.reported then Begun else Over)
    case ServerPublishes(effect, report) => w.(server := Answered(report),
                                               effects := w.effects + if effect then 1 else 0)
    case ServerUpdates(now, f) => ServerUpdate(w, now, f)
    case ServerCrashes => w.(server := Over)
    case RetryStarts(p) => Go(w, p, Locked).(lock := Some(p))
    case RetryClaims(p, now, f) => Claim(w, p, now, f)
    case RetryPublishes(p, effect, report) => Go(w, p,
                                                 Told(Normal(report))).(effects := w.effects + if effect then 1 else 0)
    case RetryFinishes(p, now, f) => Finish(w, p, now, f)
    case RetryCrashes(p) => Leave(w, p, Dead)
  }

  /** `update` by the server that published; a refused transition leaves the record as it is. */
  function ServerUpdate(w: World, now: nat, f: Fate): World
    requires w.server.Answered?
  {
    if w.disk.None? then w.(server := Over)
    else
      match NextRecord(w.disk.value, ChangesOf(w.server.report), false, now)
      case Ok(r) => Write(w, r, f).(server := Over)
      case Err(_) => w.(server := Over)
  }

  /** Under the lock: only a record that failed before start is claimed, durably, before publishing. */
  function Claim(w: World, p: Pid, now: nat, f: Fate): World {
    if w.disk.None? || !w.disk.value.status.FailedBeforeStart? then Leave(w, p, Refused)
    else
      match NextRecord(w.disk.value, Changes(Some(Uncertain), None), false, now)
      case Ok(r) => if f.reported then Go(Write(w, r, f), p, Claimed) else Leave(Write(w, r, f), p, Refused)
      case Err(_) => Leave(w, p, Refused)
  }

  /** The final write; when it is not confirmed the retry reports uncertainty. */
  function Finish(w: World, p: Pid, now: nat, f: Fate): World
    requires At(w, p).Told?
  {
    var report := At(w, p).report;
    if w.disk.None? then Leave(w, p, Returned(Unknown))
    else
      match NextRecord(w.disk.value, ChangesOf(report), true, now)
      case Ok(r) => Leave(Write(w, r, f), p, Returned(if f.reported then report else Unknown))
      case Err(_) => Leave(w, p, Returned(Unknown))
  }

  // ---- The invariant ----

  /** What the stage of a retrying process says about the record. */
  predicate RetryOk(w: World, p: Pid)
    requires p in w.retries
  {
    match w.retries[p]
    case Locked => w.lock == Some(p)
    case Claimed => w.lock == Some(p) && w.disk.Some? && w.disk.value.status.Uncertain? && w.effects == 0
    case Told(report) =>
      w.lock == Some(p) && w.disk.Some? && w.disk.value.status.Uncertain? && Honest(report, w.effects == 1)
      && (report.SentAs? ==> IsEvent(report.event))
    case Returned(outcome) => outcome.SentAs? ==> w.disk.Some? && w.disk.value.status.Sent?
    case _ => true
  }

  predicate ServerOk(w: World) {
    match w.server
    case Idle => w.disk.None?
    case Begun => w.disk.Some? && w.disk.value.status.Inflight? && w.effects == 0
    case Answered(report) => w.disk.Some? && w.disk.value.status.Inflight? && Honest(report, w.effects == 1)
    case Over => true
  }

  predicate DiskOk(w: World) {
    match w.disk
    case None => w.effects == 0
    case Some(r) =>
      && Valid(r)
      && (r.status.FailedBeforeStart? ==> w.effects == 0)
      && (r.status.Sent? ==> w.effects == 1)
  }

  predicate Inv(w: World) {
    && w.effects <= 1
    && DiskOk(w)
    && ServerOk(w)
    && forall p | p in w.retries :: RetryOk(w, p)
  }

  lemma DiskKeeps(w: World, a: Act)
    requires Inv(w) && Enabled(w, a)
    ensures Apply(w, a).effects <= 1 && DiskOk(Apply(w, a)) && ServerOk(Apply(w, a))
  {
    if (a.RetryPublishes? || a.RetryFinishes?) && a.pid in w.retries { assert RetryOk(w, a.pid); }
  }

  lemma RetriesKeep(w: World, a: Act, p: Pid)
    requires Inv(w) && Enabled(w, a) && p in Apply(w, a).retries
    ensures RetryOk(Apply(w, a), p)
  {
    if p in w.retries { assert RetryOk(w, p); }
  }

  lemma OnlyLater(w: World, a: Act)
    requires Inv(w) && Enabled(w, a) && w.disk.Some?
    ensures Apply(w, a).disk.Some? && Later(w.disk.value, Apply(w, a).disk.value)
  {
  }

  lemma StepKeeps(w: World, a: Act)
    requires Inv(w) && Enabled(w, a)
    ensures Inv(Apply(w, a))
    ensures w.disk.Some? ==> Apply(w, a).disk.Some? && Later(w.disk.value, Apply(w, a).disk.value)
  {
    DiskKeeps(w, a);
    forall p | p in Apply(w, a).retries ensures RetryOk(Apply(w, a), p) { RetriesKeep(w, a, p); }
    if w.disk.Some? { OnlyLater(w, a); }
  }

  // ---- Every run ----

  predicate Path(w: World, acts: seq<Act>)
    decreases |acts|
  {
    acts == [] || (Enabled(w, acts[0]) && Path(Apply(w, acts[0]), acts[1..]))
  }

  function End(w: World, acts: seq<Act>): World
    requires Path(w, acts)
    decreases |acts|
  {
    if acts == [] then w else End(Apply(w, acts[0]), acts[1..])
  }

  lemma {:induction false} PathKeeps(w: World, acts: seq<Act>)
    requires Inv(w) && Path(w, acts)
    ensures Inv(End(w, acts))
    ensures w.disk.Some? ==> End(w, acts).disk.Some? && Later(w.disk.value, End(w, acts).disk.value)
    decreases |acts|
  {
    if acts != [] {
      StepKeeps(w, acts[0]);
      PathKeeps(Apply(w, acts[0]), acts[1..]);
    }
  }

  /**
   However the server, the retries and the crashes interleave: at most one publish attempt
   had an effect; a record marked sent had one, and one that failed before start had none.
   */
  lemma AtMostOneEffect(acts: seq<Act>)
    requires Path(START, acts)
    ensures var w := End(START, acts);
            && w.effects <= 1
            && (w.disk.Some? && w.disk.value.status.Sent? ==> w.effects == 1)
            && (w.disk.None? || w.disk.value.status.FailedBeforeStart? ==> w.effects == 0)
  {
    PathKeeps(START, acts);
  }

  /** A retry that returned `sent` left a record that says so, now and after anything that follows. */
  lemma ReturnedSentIsDurable(acts: seq<Act>, p: Pid, more: seq<Act>)
    requires Path(START, acts) && Path(End(START, acts), more)
    requires At(End(START, acts), p).Returned? && At(End(START, acts), p).outcome.SentAs?
    ensures var d, later := End(START, acts).disk, End(End(START, acts), more).disk;
            d.Some? && d.value.status.Sent? && later.Some? && Later(d.value, later.value)
  {
    PathKeeps(START, acts);
    var w := End(START, acts);
    assert RetryOk(w, p);
    PathKeeps(w, more);
  }

  /** An attempt is made only while no earlier one can have had an effect. */
  lemma AttemptsComeAfterFailures(acts: seq<Act>, a: Act)
    requires Path(START, acts) && Enabled(End(START, acts), a) && (a.ServerPublishes? || a.RetryPublishes?)
    ensures End(START, acts).effects == 0
  {
    PathKeeps(START, acts);
    if a.RetryPublishes? { assert RetryOk(End(START, acts), a.pid); }
  }
}
