/**
 Installing and rolling back the harness configuration: a journalled swap of one file. Each
 task below is one file effect, or one check, of `applyInstall` or `applyRollback`; the
 operation may crash between any two, an effect may fail, and an outside writer may replace
 the harness file at any time. Digests are injective, so bytes stand for their digests.
 Inodes tell hard links apart from copies.
 */
module Manager {

  import opened Options

  type Bytes = nat

  datatype File = File(inode: nat, bytes: Bytes)

  datatype Action = Install | Rollback

  datatype Phase =
    | Planned | PreparingVersion | VersionStaged | PublishingVersion | VersionPublished
    | StagingHarness | HarnessStaged | ReadyToClaim | ClaimingHarness | HarnessClaimed
    | PublishingHarness | HarnessPublished | StagingRollback | RollbackStaged | ClaimingCurrent
    | CurrentClaimed | PublishingRollback | RollbackPublished | Complete | Failed

  /** `<harness>.claim-<uuid>` or `<harness>.rollback-current-<uuid>`. */
  datatype ClaimName = ClaimName(action: Action, uuid: nat)

  datatype Stamp = Stamp(phase: Phase, at: nat)

  datatype Journal = Journal(
    action: Action,
    phase: Phase,
    history: seq<Stamp>,
    startedAt: nat,
    updatedAt: nat,
    expectedHarness: Bytes,
    expectedTarget: Bytes,
    claim: Option<ClaimName>,
    claimDigest: Option<Bytes>)

  datatype Receipt = Receipt(original: Bytes, installed: Bytes, previousEntry: nat, installedEntry: nat)

  datatype Files = Files(
    harness: Option<File>,
    claims: map<ClaimName, File>,
    backup: Option<File>,
    receipt: Option<Receipt>,
    staged: Option<File>,
    stagedReceipt: Option<Receipt>,
    version: bool,
    journal: Option<Journal>,
    lock: bool)

  // ---- The journal ----

  predicate Allowed(a: Action, p: Phase) {
    match p
    case Planned => true
    case ReadyToClaim => true
    case Complete => true
    case Failed => true
    case StagingRollback => a.Rollback?
    case RollbackStaged => a.Rollback?
    case ClaimingCurrent => a.Rollback?
    case CurrentClaimed => a.Rollback?
    case PublishingRollback => a.Rollback?
    case RollbackPublished => a.Rollback?
    case _ => a.Install?
  }

  predicate Preclaim(p: Phase) {
    p.ReadyToClaim? || p.ClaimingHarness? || p.ClaimingCurrent?
  }

  predicate ClaimPhase(p: Phase) {
    Preclaim(p) || p.HarnessClaimed? || p.PublishingHarness? || p.HarnessPublished? || p.CurrentClaimed?
    || p.PublishingRollback? || p.RollbackPublished? || p.Complete?
  }

  predicate Ordered(j: Journal) {
    && (forall i | 0 <= i < |j.history| :: j.startedAt <= j.history[i].at <= j.updatedAt && Allowed(j.action,
                                                                      j.history[i].phase))
    && (forall i, k | 0 <= i < k < |j.history| :: j.history[i].at <= j.history[k].at)
  }

  /** `validateManagerJournal`, the parts that change while an operation runs. */
  predicate ValidJournal(j: Journal) {
    && Allowed(j.action, j.phase)
    && 1 <= |j.history| <= 32 && j.history[|j.history| - 1].phase == j.phase
    && j.startedAt <= j.updatedAt && Ordered(j)
    && (Preclaim(j.phase) ==> j.claim.Some? && j.claimDigest.None?)
    && (ClaimPhase(j.phase) && !Preclaim(j.phase) ==> j.claim.Some? && j.claimDigest.Some?)
    && (j.claim.None? ==> j.claimDigest.None?)
    && (j.claim.Some? && j.claimDigest.None? ==> j.phase.Failed? || Preclaim(j.phase))
    && (j.claim.Some? ==> j.claim.value.action == j.action)
  }

  function Template(plan: Plan, now: nat): Journal {
    Journal(plan.action, Planned, [Stamp(Planned, now)], now, now, plan.original, plan.target, None, None)
  }

  /** `slice(-32)`. */
  function Last32(h: seq<Stamp>): seq<Stamp> {
    if |h| <= 32 then h else h[|h| - 32..]
  }

  function Advance(j: Journal, phase: Phase, now: nat): Journal {
    j.(phase := phase, updatedAt := now, history := Last32(j.history + [Stamp(phase, now)]))
  }

  /** What `advanceManagerJournal` is given besides the phase. */
  function Entered(j: Journal, phase: Phase, now: nat, name: ClaimName, claimed: Option<Bytes>): Journal {
    var next := Advance(j, phase, now);
    match phase
    case ReadyToClaim => next.(claim := Some(name))
    case HarnessClaimed => next.(claimDigest := claimed)
    case CurrentClaimed => next.(claimDigest := claimed)
    case _ => next
  }

  // ---- The operations ----

  /** `original` is what must be found at the harness path, `target` what will be put there. */
  datatype Plan = Plan(action: Action, original: Bytes, target: Bytes, receipt: Receipt, name: ClaimName)

  datatype Task =
    | Locking
    | Starting
    | Checking(again: bool)
    | Writing(phase: Phase)
    | StagingVersion
    | PublishingVersionDir
    | StagingFile
    | StagingReceipt
    | Claiming
    | Verifying
    | LinkingBackup
    | LinkingReceipt
    | LinkingHarness
    | Unstaging
    | Unlocking

  /** `applyInstall`, in order. */
  function InstallTask(n: nat): Task {
    match n
    case 0 => Locking
    case 1 => Starting
    case 2 => Checking(false)
    case 3 => Writing(PreparingVersion)
    case 4 => StagingVersion
    case 5 => Writing(VersionStaged)
    case 6 => Writing(PublishingVersion)
    case 7 => PublishingVersionDir
    case 8 => Writing(VersionPublished)
    case 9 => Checking(true)
    case 10 => Writing(StagingHarness)
    case 11 => StagingFile
    case 12 => StagingReceipt
    case 13 => Writing(HarnessStaged)
    case 14 => Writing(ReadyToClaim)
    case 15 => Writing(ClaimingHarness)
    case 16 => Claiming
    case 17 => Verifying
    case 18 => Writing(HarnessClaimed)
    case 19 => Writing(PublishingHarness)
    case 20 => LinkingBackup
    case 21 => LinkingReceipt
    case 22 => LinkingHarness
    case 23 => Writing(HarnessPublished)
    case 24 => Unstaging
    case 25 => Writing(Complete)
    case _ => Unlocking
  }

  /** `applyRollback`, in order. */
  function RollbackTask(n: nat): Task {
    match n
    case 0 => Locking
    case 1 => Starting
    case 2 => Checking(false)
    case 3 => Writing(StagingRollback)
    case 4 => StagingFile
    case 5 => Writing(RollbackStaged)
    case 6 => Writing(ReadyToClaim)
    case 7 => Writing(ClaimingCurrent)
    case 8 => Claiming
    case 9 => Verifying
    case 10 => Writing(CurrentClaimed)
    case 11 => Writing(PublishingRollback)
    case 12 => LinkingHarness
    case 13 => Writing(RollbackPublished)
    case 14 => Writing(Complete)
    case 15 => Unstaging
    case _ => Unlocking
  }

  function TaskAt(a: Action, n: nat): Task {
    if a.Install? then InstallTask(n) else RollbackTask(n)
  }

  /** On its way, or in the failure path: restore the claim, mark the journal, drop the marker. */
  datatype Pc = At(n: nat) | Restoring | Marking | Releasing | Ended(ok: bool)

  datatype Run = Run(plan: Plan, pc: Pc, journal: Journal, files: Files)

  function Begin(plan: Plan, files: Files): Run {
    Run(plan, At(0), Template(plan, 0), files)
  }

  function Goto(r: Run, pc: Pc): Run {
    r.(pc := pc)
  }

  predicate HarnessIs(f: Files, b: Bytes) {
    f.harness.Some? && f.harness.value.bytes == b
  }

  /** The checks before an install, or the fresh plan of a rollback. */
  predicate Checks(plan: Plan, f: Files, again: bool) {
    match plan.action
    case Install => HarnessIs(f, plan.original) && f.backup.None? && if again then f.receipt.None? else !f.version
    case Rollback =>
      && HarnessIs(f, plan.original) && f.backup.Some? && f.backup.value.bytes == plan.target
      && f.receipt == Some(plan.receipt) && plan.receipt.original == plan.target
          && plan.receipt.installed == plan.original
      && plan.receipt.previousEntry != plan.receipt.installedEntry
  }

  /** `planRollback`: everything must be there and agree; `entries` says that both adapter entrypoints exist. */
  function PlanRollback(f: Files, name: ClaimName, entries: bool): Option<Plan> {
    if f.harness.None? || f.backup.None? || f.receipt.None? || !entries then None
    else
      var plan := Plan(Rollback, f.harness.value.bytes, f.backup.value.bytes, f.receipt.value, name);
      if Checks(plan, f, false) then Some(plan) else None
  }

  /** One task: `now` is the clock, `works` says that the effect does not fail, `inode` is new. */
  function Step(r: Run, now: nat, works: bool, inode: nat): Run {
    match r.pc
    case At(n) => Do(r, n, TaskAt(r.plan.action, n), now, works, inode)
    case Restoring =>
      Goto(if works && r.files.harness.None? && r.plan.name in r.files.claims
           then r.(files := r.files.(harness := Some(r.files.claims[r.plan.name]))) else r, Marking)
    case Marking => Goto(if works then r.(files := r.files.(journal := Some(Advance(r.journal, Failed, now))))
        else r, Releasing)
    case Releasing => Goto(if works then r.(files := r.files.(lock := false)) else r, Ended(false))
    case Ended(_) => r
  }

  function Do(r: Run, n: nat, t: Task, now: nat, works: bool, inode: nat): Run {
    var f := r.files;
    match t
    case Locking => if f.lock || !works then Goto(r, Ended(false)) else Done(r, n, f.(lock := true))
    case Starting =>
      if !works || (f.journal.Some? && !(ValidJournal(f.journal.value) && f.journal.value.phase.Complete?))
          then Goto(r, Releasing)
      else Done(r, n, f.(journal := Some(Template(r.plan, now)))).(journal := Template(r.plan, now))
    case Checking(again) => if works && Checks(r.plan, f, again) then Done(r, n, f) else Goto(r, Marking)
    case Writing(phase) =>
      if !works then Goto(r, Marking)
      else
        var j := Entered(r.journal, phase, now, r.plan.name, Claimed(r));
        Done(r, n, f.(journal := Some(j))).(journal := j)
    case Claiming =>
      if !works || f.harness.None? then Goto(r, Marking)
      else Done(r, n, f.(claims := f.claims[r.plan.name := f.harness.value], harness := None))
    case Verifying =>
      if !works then Goto(r, Marking) else if Claimed(r) == Some(r.plan.original) then Done(r, n, f) else Goto(r,
                                                                      Restoring)
    case LinkingBackup =>
      if !works || f.backup.Some? || r.plan.name !in f.claims then Goto(r, Restoring)
      else Done(r, n, f.(backup := Some(f.claims[r.plan.name])))
    case LinkingReceipt =>
      if !works || f.receipt.Some? || f.stagedReceipt.None? then Goto(r, Restoring)
          else Done(r, n, f.(receipt := f.stagedReceipt))
    case LinkingHarness =>
      if !works || f.harness.Some? || f.staged.None? then Goto(r, Restoring) else Done(r, n, f.(harness := f.staged))
    case Unlocking => Goto(if works then r.(files := f.(lock := false)) else r, Ended(true))
    case Unstaging => Done(r, n, if works then f.(staged := None, stagedReceipt := None) else f)
    case _ => if works then Done(r, n, Staged(r.plan, f, t, inode)) else Goto(r, Marking)
  }

  function Done(r: Run, n: nat, f: Files): Run {
    r.(files := f, pc := At(n + 1))
  }

  function Claimed(r: Run): Option<Bytes> {
    if r.plan.name in r.files.claims then Some(r.files.claims[r.plan.name].bytes) else None
  }

  function Staged(plan: Plan, f: Files, t: Task, inode: nat): Files {
    match t
    case PublishingVersionDir => f.(version := true)
    case StagingFile => f.(staged := Some(File(inode, plan.target)))
    case StagingReceipt => f.(stagedReceipt := Some(plan.receipt))
    case _ => f
  }

  /** An outside writer puts its own file in the place of the harness. */
  function Replaced(r: Run, f: File): Run {
    r.(files := r.files.(harness := Some(f)))
  }

  // ---- The diagnosis ----

  datatype Diagnosis = Interrupted | Consistent | Indeterminate | InsufficientEvidence

  predicate Matches(f: Option<File>, b: Bytes) {
    f.Some? && f.value.bytes == b
  }

  function ClaimFile(f: Files, j: Journal): Option<File> {
    if j.claim.Some? && j.claim.value in f.claims then Some(f.claims[j.claim.value]) else None
  }

  predicate BackupMatches(f: Files, j: Journal) {
    Matches(f.backup, if j.action.Install? then j.expectedHarness else j.expectedTarget)
  }

  predicate ReceiptMatches(f: Files, j: Journal) {
    f.receipt.Some? &&
    (if j.action.Install? then f.receipt.value.original == j.expectedHarness
        && f.receipt.value.installed == j.expectedTarget
     else f.receipt.value.original == j.expectedTarget && f.receipt.value.installed == j.expectedHarness)
  }

  /** A claim left by the install that is being rolled back: a hard link to the backup. */
  predicate Historical(f: Files, j: Journal, c: ClaimName)
    requires c in f.claims
  {
    j.action.Rollback? && BackupMatches(f, j) && f.claims[c].bytes == j.expectedTarget
        && f.claims[c].inode == f.backup.value.inode
  }

  predicate ExtraClaims(f: Files, j: Journal) {
    exists c | c in f.claims :: j.claim != Some(c) && !Historical(f, j, c)
  }

  predicate InClaimWindow(p: Phase) {
    p.ClaimingHarness? || p.HarnessClaimed? || p.PublishingHarness? || p.ClaimingCurrent? || p.CurrentClaimed?
        || p.PublishingRollback?
  }

  /** `diagnoseManager`. */
  function Diagnose(f: Files): Diagnosis {
    if f.journal.None? || !ValidJournal(f.journal.value) then
      if f.lock || f.claims != map[] || f.journal.Some? then Indeterminate else InsufficientEvidence
    else DiagnoseWith(f, f.journal.value)
  }

  function DiagnoseWith(f: Files, j: Journal): Diagnosis {
    var harnessOk := Matches(f.harness, if Preclaim(j.phase) then j.expectedHarness else j.expectedTarget);
    var claim := ClaimFile(f, j);
    var claimOk := Matches(claim, j.claimDigest.GetOr(j.expectedHarness));
    if (f.harness.Some? && !harnessOk) || (claim.Some? && !claimOk) || (f.receipt.Some? && !ReceiptMatches(f, j))
        || ExtraClaims(f, j)
    then Indeterminate
    else if f.harness.None? && claimOk && InClaimWindow(j.phase) then Interrupted
    else if f.lock then Indeterminate
    else if j.phase.Complete? && harnessOk && claimOk && BackupMatches(f, j) && ReceiptMatches(f, j) then Consistent
    else if j.phase.Failed? then Indeterminate
    else InsufficientEvidence
  }
}
