/**
 What the diagnosis says wherever an operation stopped, without an outside writer; and that
 an install followed by a rollback restores the original bytes.
 */
module ManagerDiagnosis {

  import opened Options
  import opened Manager
  import opened ManagerRuns

  /** What the receipt of the operation must say. */
  predicate ReceiptFits(plan: Plan) {
    if plan.action.Install? then plan.receipt.original == plan.original && plan.receipt.installed == plan.target
    else plan.receipt.original == plan.target && plan.receipt.installed == plan.original
  }

  /** A claim that is a hard link to the backup. */
  predicate LinkedToBackup(f: Files, c: ClaimName)
    requires c in f.claims && f.backup.Some?
  {
    f.claims[c] == f.backup.value
  }

  /** A clean start: no files left over for an install, exactly a completed install for a rollback. */
  predicate CleanStart(plan: Plan, f: Files) {
    && plan.name.action == plan.action && plan.name !in f.claims && ReceiptFits(plan)
    && HarnessIs(f, plan.original) && !f.lock
    && (match plan.action
        case Install =>
          && f.claims == map[] && f.backup.None? && f.receipt.None? && !f.version
          && (f.journal.Some? ==> ValidJournal(f.journal.value) && f.journal.value.phase.Complete?)
        case Rollback =>
          && f.backup.Some? && f.backup.value.bytes == plan.target && f.receipt == Some(plan.receipt)
          && plan.receipt.previousEntry != plan.receipt.installedEntry
          && (forall c | c in f.claims :: LinkedToBackup(f, c))
          && f.journal.Some? && ValidJournal(f.journal.value) && f.journal.value.phase.Complete?)
  }

  // ---- The claim window ----

  /** The evidence the diagnosis needs to identify the claim; `claimed` is the file that was taken. */
  predicate Evidence(plan: Plan, f: Files, claimed: File) {
    && plan.name in f.claims && f.claims[plan.name] == claimed && claimed.bytes == plan.original
    && (forall c | c in f.claims && c != plan.name :: plan.action.Rollback? && f.backup.Some? && LinkedToBackup(f, c))
    && (plan.action.Rollback? ==> f.backup.Some? && f.backup.value.bytes == plan.target)
    && (f.receipt.Some? ==> f.receipt == Some(plan.receipt)) && ReceiptFits(plan)
  }

  predicate Tracks(j: Journal, plan: Plan) {
    && j.action == plan.action && j.expectedHarness == plan.original && j.expectedTarget == plan.target
  }

  predicate Named(j: Journal, plan: Plan) {
    Tracks(j, plan) && j.claim == Some(plan.name) && (j.claimDigest.Some? ==> j.claimDigest == Some(plan.original))
  }

  /** With the harness missing and the evidence in place, the journal's phase alone decides. */
  lemma MissingHarness(plan: Plan, f: Files, claimed: File)
    requires f.harness.None? && Evidence(plan, f, claimed) && f.journal.Some? && ValidJournal(f.journal.value)
        && Named(f.journal.value, plan)
    ensures Diagnose(f) == Interrupted <==> InClaimWindow(f.journal.value.phase)
    ensures Diagnose(f) != Consistent
  {
    var j := f.journal.value;
    assert ClaimFile(f, j) == Some(claimed);
    assert Matches(ClaimFile(f, j), j.claimDigest.GetOr(j.expectedHarness));
    NoExtras(plan, f, claimed);
  }

  lemma NoExtras(plan: Plan, f: Files, claimed: File)
    requires Evidence(plan, f, claimed) && f.journal.Some? && Named(f.journal.value, plan)
    ensures !ExtraClaims(f, f.journal.value)
  {
    forall c | c in f.claims ensures !(f.journal.value.claim != Some(c) && !Historical(f, f.journal.value, c)) {
      if c != plan.name { assert LinkedToBackup(f, c); }
    }
  }

  lemma PresentHarness(f: Files)
    requires f.harness.Some?
    ensures Diagnose(f) != Interrupted && (f.lock ==> Diagnose(f) != Consistent)
  {
  }

  lemma FinishedOperation(plan: Plan, f: Files, claimed: File)
    requires HarnessIs(f, plan.target) && Evidence(plan, f, claimed) && !f.lock
    requires f.journal.Some? && ValidJournal(f.journal.value) && Named(f.journal.value, plan)
    requires f.journal.value.phase.Complete?
    requires f.receipt == Some(plan.receipt) && f.backup.Some?
        && (plan.action.Install? ==> f.backup.value.bytes == plan.original)
    ensures Diagnose(f) == Consistent
  {
    var j := f.journal.value;
    assert ClaimFile(f, j) == Some(claimed);
    NoExtras(plan, f, claimed);
  }

  // ---- Progress without an outside writer ----

  /** The phase last written before task `n`. */
  function PhaseAt(a: Action, n: nat): Phase {
    if n == 0 then Planned
    else match TaskAt(a, n - 1)
         case Writing(p) => p
         case _ => PhaseAt(a, n - 1)
  }

  function StagedAt(a: Action): nat { if a.Install? then 11 else 4 }

  /** What has become of the files when the operation is at task `n`. */
  predicate FilesAt(plan: Plan, f: Files, n: nat, start: Files) {
    var a := plan.action;
    && (n <= ClaimAt(a) ==> f.harness == start.harness && f.claims == start.claims)
    && (n > ClaimAt(a) ==> start.harness.Some? && f.claims == start.claims[plan.name := start.harness.value])
    && (ClaimAt(a) < n <= LinkAt(a) ==> f.harness.None?)
    && (n > LinkAt(a) ==> HarnessIs(f, plan.target))
    && f.backup == (if a.Install? && n > 20 then start.harness else start.backup)
    && f.receipt == (if a.Install? && n > 21 then Some(plan.receipt) else start.receipt)
    && (StagedAt(a) < n <= LinkAt(a) ==> f.staged.Some? && f.staged.value.bytes == plan.target)
    && (a.Install? && 12 < n <= 21 ==> f.stagedReceipt == Some(plan.receipt))
    && (a.Install? && n <= 7 ==> !f.version)
  }

  /** The journal on disk is the one in memory, and says how far the operation is. */
  predicate JournalTracks(r: Run, phase: Phase) {
    && r.files.journal == Some(r.journal) && Tracks(r.journal, r.plan) && r.journal.phase == phase
    && (r.journal.claimDigest.Some? ==> r.journal.claimDigest == Some(r.plan.original))
  }

  lemma EvidenceAt(plan: Plan, f: Files, n: nat, start: Files)
    requires CleanStart(plan, start) && FilesAt(plan, f, n, start) && n > ClaimAt(plan.action)
    ensures Evidence(plan, f, start.harness.value)
  {
    forall c | c in f.claims && c != plan.name ensures plan.action.Rollback? && f.backup.Some? && LinkedToBackup(f, c) {
      assert c in start.claims && LinkedToBackup(start, c);
    }
  }

  lemma WindowPhases(a: Action, n: nat)
    requires ClaimAt(a) < n <= LinkAt(a)
    ensures InClaimWindow(PhaseAt(a, n)) && !PhaseAt(a, n).Failed?
  {
    assert n == ClaimAt(a) + 1 || n == ClaimAt(a) + 2 || n == ClaimAt(a) + 3 || n == ClaimAt(a) + 4
        || n == ClaimAt(a) + 5 || n == ClaimAt(a) + 6;
    assert PhaseAt(a, ClaimAt(a)) == (if a.Install? then ClaimingHarness else ClaimingCurrent);
    assert PhaseAt(a, ClaimAt(a) + 2) == PhaseAt(a, ClaimAt(a));
    assert PhaseAt(a, DigestAt(a) + 2) == (if a.Install? then PublishingHarness else PublishingRollback);
    assert PhaseAt(Install, 22) == PublishingHarness;
  }

  lemma {:induction false} NeverFailedOnTheWay(a: Action, n: nat)
    ensures !PhaseAt(a, n).Failed?
    decreases n
  {
    if n > 0 {
      NeverFailedOnTheWay(a, n - 1);
      if TaskAt(a, n - 1).Writing? { WritingFacts(a, n - 1, TaskAt(a, n - 1).phase); }
    }
  }

  // ---- The invariant of runs in which effects may fail ----

  /** If the harness is missing, the evidence is there, and the journal names the claim. */
  predicate Accounted(plan: Plan, f: Files, start: Files) {
    f.harness.None? ==>
      (&& start.harness.Some? && Evidence(plan, f, start.harness.value)
       && f.journal.Some? && Named(f.journal.value, plan)
       && (InClaimWindow(f.journal.value.phase) || f.journal.value.phase.Failed?))
  }

  predicate Inv(r: Run, start: Files) {
    && CleanStart(r.plan, start)
    && (match r.pc
        case At(n) =>
          && (r.files.lock <==> n > 0) && FilesAt(r.plan, r.files, n, start)
          && (if n < 2 then r.files.journal == start.journal else JournalTracks(r, PhaseAt(r.plan.action, n)))
        case Restoring =>
          && r.files.harness.None? && Accounted(r.plan, r.files, start) && !r.files.journal.value.phase.Failed?
          && r.files.journal == Some(r.journal)
        case Marking =>
          && Accounted(r.plan, r.files, start) && Tracks(r.journal, r.plan)
          && r.files.journal == Some(r.journal) && !r.journal.phase.Failed?
        case Ended(true) => HarnessIs(r.files, r.plan.target)
        case _ => Accounted(r.plan, r.files, start))
  }

  lemma FilesTaskKeeps(r: Run, n: nat, t: Task, now: nat, works: bool, inode: nat, start: Files)
    requires CleanStart(r.plan, start) && FilesAt(r.plan, r.files, n, start) && t == TaskAt(r.plan.action, n)
    requires Do(r, n, t, now, works, inode).pc.At?
    ensures FilesAt(r.plan, Do(r, n, t, now, works, inode).files, n + 1, start)
  {
    TaskFacts(r.plan.action, n);
    StagingFacts(r.plan.action, n);
  }

  lemma StagingFacts(a: Action, n: nat)
    ensures TaskAt(a, n).StagingFile? <==> n == StagedAt(a)
    ensures TaskAt(a, n).StagingReceipt? <==> a.Install? && n == 12
    ensures TaskAt(a, n).PublishingVersionDir? ==> a.Install? && n == 7
    ensures TaskAt(a, n).Unstaging? ==> n > LinkAt(a)
  {
  }

  /** Wherever the operation stops on its way, a missing harness is accounted for. */
  lemma AccountedAt(r: Run, n: nat, start: Files, clock: nat)
    requires r.pc == At(n) && Inv(r, start) && JournalOk(r, clock)
    ensures Accounted(r.plan, r.files, start)
  {
    if r.files.harness.None? {
      EvidenceAt(r.plan, r.files, n, start);
      WindowPhases(r.plan.action, n);
    }
  }

  /** Without an outside writer the claimed bytes are the expected ones. */
  lemma VerifiedClaim(r: Run, n: nat, start: Files)
    requires r.pc == At(n) && Inv(r, start) && n > ClaimAt(r.plan.action)
    ensures Claimed(r) == Some(r.plan.original)
  {
    EvidenceAt(r.plan, r.files, n, start);
  }

  lemma PhaseNext(a: Action, n: nat)
    ensures PhaseAt(a, n + 1) == if TaskAt(a, n).Writing? then TaskAt(a, n).phase else PhaseAt(a, n)
  {
  }

  lemma TracksNext(r: Run, n: nat, t: Task, phase: Phase, now: nat, works: bool, inode: nat)
    requires r.pc == At(n) && n >= 2 && JournalTracks(r, phase) && InPlace(r.plan.action, n, t)
        && Do(r, n, t, now, works, inode).pc.At?
    requires n > ClaimAt(r.plan.action) ==> Claimed(r) == Some(r.plan.original)
    requires t.Writing? ==> Placed(r.plan.action, n, t.phase)
    ensures JournalTracks(Do(r, n, t, now, works, inode), if t.Writing? then t.phase else phase)
    ensures Do(r, n, t, now, works, inode).files.lock == r.files.lock
  {
  }

  lemma TracksFirst(r: Run, n: nat, t: Task, now: nat, works: bool, inode: nat)
    requires r.pc == At(n) && n < 2 && InPlace(r.plan.action, n, t) && Do(r, n, t, now, works, inode).pc.At?
    ensures var r' := Do(r, n, t, now, works, inode);
            (n == 0 ==> r'.files.lock && r'.files.journal == r.files.journal)
                && (n == 1 ==> JournalTracks(r', Planned) && r'.files.lock == r.files.lock)
  {
  }

  /** A step that stays on the way: the journal says the phase, and the marker is there. */
  lemma JournalKeeps(r: Run, n: nat, t: Task, now: nat, works: bool, inode: nat, start: Files)
    requires r.pc == At(n) && Inv(r, start) && t == TaskAt(r.plan.action, n) && Do(r, n, t, now, works, inode).pc.At?
    ensures var r' := Do(r, n, t, now, works, inode);
            && r'.files.lock
            && (n == 0 ==> r'.files.journal == start.journal)
            && (n >= 1 ==> JournalTracks(r', PhaseAt(r.plan.action, n + 1)))
  {
    var a := r.plan.action;
    TaskFacts(a, n);
    if n < 2 {
      PhaseTwo(a);
      TracksFirst(r, n, t, now, works, inode);
    } else {
      PhaseNext(a, n);
      LaterKeeps(r, n, t, PhaseAt(a, n), now, works, inode, start);
    }
  }

  lemma GoesOn(r: Run, n: nat, t: Task, now: nat, works: bool, inode: nat)
    requires Do(r, n, t, now, works, inode).pc.At?
    ensures Do(r, n, t, now, works, inode).pc == At(n + 1) && Do(r, n, t, now, works, inode).plan == r.plan
  {
  }

  lemma OnTheWayKeeps(r: Run, n: nat, t: Task, now: nat, works: bool, inode: nat, start: Files)
    requires r.pc == At(n) && Inv(r, start) && t == TaskAt(r.plan.action, n) && Do(r, n, t, now, works, inode).pc.At?
    ensures Inv(Do(r, n, t, now, works, inode), start)
  {
    FilesTaskKeeps(r, n, t, now, works, inode, start);
    JournalKeeps(r, n, t, now, works, inode, start);
    GoesOn(r, n, t, now, works, inode);
    StandsAfter(r, n, Do(r, n, t, now, works, inode), start);
  }

  /** The invariant on the way, from its parts. */
  lemma StandsAfter(r: Run, n: nat, r': Run, start: Files)
    requires CleanStart(r.plan, start) && r'.plan == r.plan && r'.pc == At(n + 1) && r'.files.lock
    requires FilesAt(r.plan, r'.files, n + 1, start)
    requires n == 0 ==> r'.files.journal == start.journal
    requires n >= 1 ==> JournalTracks(r', PhaseAt(r.plan.action, n + 1))
    ensures Inv(r', start)
  {
  }

  lemma PhaseTwo(a: Action)
    ensures PhaseAt(a, 2) == Planned
  {
    PhaseNext(a, 0);
    PhaseNext(a, 1);
  }

  lemma LaterKeeps(r: Run, n: nat, t: Task, phase: Phase, now: nat, works: bool, inode: nat, start: Files)
    requires r.pc == At(n) && n >= 2 && Inv(r, start) && JournalTracks(r, phase)
    requires t == TaskAt(r.plan.action, n) && Do(r, n, t, now, works, inode).pc.At?
    ensures JournalTracks(Do(r, n, t, now, works, inode), if t.Writing? then t.phase else phase)
    ensures Do(r, n, t, now, works, inode).files.lock == r.files.lock
  {
    TaskFacts(r.plan.action, n);
    if t.Writing? { WritingFacts(r.plan.action, n, t.phase); }
    if n > ClaimAt(r.plan.action) { VerifiedClaim(r, n, start); }
    TracksNext(r, n, t, phase, now, works, inode);
  }

  lemma OffTheWayKeeps(r: Run, n: nat, t: Task, now: nat, works: bool, inode: nat, start: Files)
    requires r.pc == At(n) && Inv(r, start) && Accounted(r.plan, r.files, start) && !PhaseAt(r.plan.action, n).Failed?
    requires InPlace(r.plan.action, n, t) && !Do(r, n, t, now, works, inode).pc.At?
    requires n > ClaimAt(r.plan.action) ==> Claimed(r) == Some(r.plan.original)
    requires t.Unlocking? ==> n > LinkAt(r.plan.action)
    ensures Inv(Do(r, n, t, now, works, inode), start)
  {
  }

  lemma TaskKeeps(r: Run, n: nat, now: nat, works: bool, inode: nat, start: Files, clock: nat)
    requires r.pc == At(n) && Inv(r, start) && JournalOk(r, clock) && now >= clock
    ensures Inv(Step(r, now, works, inode), start)
  {
    var a := r.plan.action;
    var t := TaskAt(a, n);
    if Do(r, n, t, now, works, inode).pc.At? {
      OnTheWayKeeps(r, n, t, now, works, inode, start);
    } else {
      TaskFacts(a, n);
      NeverFailedOnTheWay(a, n);
      AccountedAt(r, n, start, clock);
      UnlockingIsLast(a, n);
      if n > ClaimAt(a) { VerifiedClaim(r, n, start); }
      OffTheWayKeeps(r, n, t, now, works, inode, start);
    }
  }

  lemma UnlockingIsLast(a: Action, n: nat)
    ensures TaskAt(a, n).Unlocking? <==> n >= if a.Install? then 26 else 16
  {
  }

  lemma StepKeeps(r: Run, now: nat, works: bool, inode: nat, start: Files, clock: nat)
    requires Inv(r, start) && JournalOk(r, clock) && now >= clock
    ensures Inv(Step(r, now, works, inode), start)
  {
    match r.pc
    case At(n) => TaskKeeps(r, n, now, works, inode, start, clock);
    case _ =>
  }

  predicate NoWriter(events: seq<Event>) {
    forall i | 0 <= i < |events| :: events[i].Runs?
  }

  lemma {:induction false} PathKeeps(r: Run, events: seq<Event>, start: Files, clock: nat)
    requires Inv(r, start) && JournalOk(r, clock) && Path(clock, events) && NoWriter(events)
    ensures Inv(End(r, events), start) && exists c :: JournalOk(End(r, events), c)
    decreases |events|
  {
    if events == [] {
      assert JournalOk(r, clock);
    } else {
      var e := events[0];
      assert e.Runs?;
      StepKeeps(r, e.now, e.works, e.inode, start, clock);
      JournalStepKeeps(r, e.now, e.works, e.inode, clock);
      PathKeeps(Apply(r, e), events[1..], start, e.now);
    }
  }

  /**
   Effects may fail and the operation may stop anywhere. A missing harness is then diagnosed
   as an interrupted claim exactly unless the journal has meanwhile been marked failed, and
   nothing else is.
   */
  lemma InterruptedExactlyWhen(plan: Plan, start: Files, events: seq<Event>)
    requires CleanStart(plan, start) && Path(0, events) && NoWriter(events)
    ensures var f := End(Begin(plan, start), events).files;
            Diagnose(f) == Interrupted <==> f.harness.None? && f.journal.Some? && !f.journal.value.phase.Failed?
  {
    BeginningIsOk(plan, start, 0);
    PathKeeps(Begin(plan, start), events, start, 0);
    PlanStays(Begin(plan, start), events);
    var r := End(Begin(plan, start), events);
    var c :| JournalOk(r, c);
    if r.files.harness.None? {
      if r.pc.At? { AccountedAt(r, r.pc.n, start, c); }
      MissingHarness(plan, r.files, start.harness.value);
    } else {
      PresentHarness(r.files);
    }
  }

  lemma {:induction false} PlanStays(r: Run, events: seq<Event>)
    ensures End(r, events).plan == r.plan
    decreases |events|
  {
    if events != [] { PlanStays(Apply(r, events[0]), events[1..]); }
  }

  // ---- Runs in which every effect works ----

  function Last(a: Action): nat { if a.Install? then 26 else 16 }

  predicate Smooth(events: seq<Event>) {
    forall i | 0 <= i < |events| :: events[i].Runs? && events[i].works
  }

  predicate Completed(r: Run, start: Files) {
    && FilesAt(r.plan, r.files, Last(r.plan.action), start) && JournalTracks(r, Complete)
    && ValidJournal(r.journal) && r.journal.claim == Some(r.plan.name)
  }

  predicate Finished(r: Run, start: Files) {
    r.pc == Ended(true) && !r.files.lock && Completed(r, start)
  }

  predicate OnTime(r: Run, start: Files) {
    Inv(r, start) && (Finished(r, start) || (r.pc.At? && r.pc.n <= Last(r.plan.action)))
  }

  /** With a clean start and no interference every check passes. */
  lemma SmoothTask(r: Run, n: nat, t: Task, now: nat, inode: nat, start: Files)
    requires r.pc == At(n) && n <= Last(r.plan.action) && Inv(r, start) && InPlace(r.plan.action, n, t)
    requires t.Unlocking? <==> n == Last(r.plan.action)
    requires t.Checking? ==> n == 2 || (r.plan.action.Install? && n == 9 && t.again)
    requires t.Checking? && t.again ==> n == 9
    requires n > ClaimAt(r.plan.action) ==> Claimed(r) == Some(r.plan.original)
    ensures Do(r, n, t, now, true, inode).pc == if n == Last(r.plan.action) then Ended(true) else At(n + 1)
  {
  }

  lemma CheckingFacts(a: Action, n: nat)
    ensures TaskAt(a, n).Checking? ==> n == 2 || (a.Install? && n == 9)
    ensures TaskAt(a, n).Checking? ==> (TaskAt(a, n).again <==> n == 9)
  {
  }

  lemma LastPhase(a: Action)
    ensures PhaseAt(a, Last(a)) == Complete
  {
    if a.Install? {
      PhaseNext(a, 25);
    } else {
      PhaseNext(a, 15);
      PhaseNext(a, 14);
    }
  }

  lemma SmoothStep(r: Run, now: nat, inode: nat, start: Files, clock: nat)
    requires OnTime(r, start) && JournalOk(r, clock) && now >= clock
    ensures OnTime(Step(r, now, true, inode), start)
    ensures r.pc.At? ==>
              Step(r, now, true, inode).pc == if r.pc.n == Last(r.plan.action) then Ended(true) else At(r.pc.n + 1)
  {
    if r.pc.At? {
      var n, a := r.pc.n, r.plan.action;
      StepKeeps(r, now, true, inode, start, clock);
      TaskFacts(a, n);
      CheckingFacts(a, n);
      UnlockingIsLast(a, n);
      if n > ClaimAt(a) { VerifiedClaim(r, n, start); }
      SmoothTask(r, n, TaskAt(a, n), now, inode, start);
      LastPhase(a);
    }
  }

  lemma {:induction false} SmoothRun(r: Run, events: seq<Event>, start: Files, clock: nat)
    requires OnTime(r, start) && JournalOk(r, clock) && Path(clock, events) && Smooth(events)
    ensures OnTime(End(r, events), start)
    ensures r.pc.At? && |events| > Last(r.plan.action) - r.pc.n ==> End(r, events).pc == Ended(true)
    ensures r.pc.At? && |events| <= Last(r.plan.action) - r.pc.n ==> End(r, events).pc == At(r.pc.n + |events|)
    ensures r.pc == Ended(true) ==> End(r, events) == r
    decreases |events|
  {
    if events != [] {
      var e := events[0];
      assert e.Runs? && e.works;
      SmoothStep(r, e.now, e.inode, start, clock);
      JournalStepKeeps(r, e.now, e.works, e.inode, clock);
      SmoothRun(Apply(r, e), events[1..], start, e.now);
    }
  }

  lemma SmoothStart(plan: Plan, start: Files)
    requires CleanStart(plan, start)
    ensures OnTime(Begin(plan, start), start) && JournalOk(Begin(plan, start), 0)
  {
    BeginningIsOk(plan, start, 0);
  }

  /**
   At every crash point of an undisturbed operation: interrupted exactly when the harness
   path is empty, consistent exactly when the operation is complete and its marker gone.
   */
  lemma CrashesAreDiagnosed(plan: Plan, start: Files, events: seq<Event>)
    requires CleanStart(plan, start) && Path(0, events) && Smooth(events) && events != []
    ensures var r := End(Begin(plan, start), events);
            && (Diagnose(r.files) == Interrupted <==> r.files.harness.None?)
            && (Diagnose(r.files) == Consistent <==> r.pc == Ended(true))
            && (r.pc == Ended(true) ==> r.files.journal.Some? && r.files.journal.value.phase.Complete? && !r.files.lock)
  {
    SmoothStart(plan, start);
    SmoothRun(Begin(plan, start), events, start, 0);
    InterruptedExactlyWhen(plan, start, events);
    PlanStays(Begin(plan, start), events);
    Started(Begin(plan, start), events, start);
    var r := End(Begin(plan, start), events);
    if r.pc == Ended(true) {
      EvidenceAt(plan, r.files, Last(plan.action), start);
      FinishedOperation(plan, r.files, start.harness.value);
    } else {
      OnTheWayIsNotConsistent(r, start);
    }
  }

  /** After the first task the marker is there. */
  lemma Started(r: Run, events: seq<Event>, start: Files)
    requires r == Begin(r.plan, start) && CleanStart(r.plan, start) && Smooth(events) && events != [] && Path(0, events)
    ensures End(r, events).pc != At(0)
  {
    SmoothStart(r.plan, start);
    var e := events[0];
    assert e.Runs? && e.works;
    SmoothStep(r, e.now, e.inode, start, 0);
    NeverBack(Apply(r, e), events[1..], start);
  }

  lemma {:induction false} NeverBack(r: Run, events: seq<Event>, start: Files)
    requires r.pc != At(0)
    ensures End(r, events).pc != At(0)
    decreases |events|
  {
    if events != [] { NeverBack(Apply(r, events[0]), events[1..], start); }
  }

  lemma OnTheWayIsNotConsistent(r: Run, start: Files)
    requires OnTime(r, start) && r.pc.At? && r.pc.n > 0
    ensures Diagnose(r.files) != Consistent
    ensures (r.files.harness.None? ==> r.files.journal.Some? && !r.files.journal.value.phase.Failed?)
  {
    if r.files.harness.None? { WindowPhases(r.plan.action, r.pc.n); }
  }

  // ---- When an operation that may fail is diagnosed as consistent ----

  /** What the diagnosis looks at, apart from the marker, is as it was at the start. */
  predicate Untouched(f: Files, start: Files) {
    f.harness == start.harness && f.claims == start.claims && f.backup == start.backup && f.receipt == start.receipt
    && f.journal == start.journal
  }

  /** Off its way an operation keeps its marker to the end, and leaves a journal that is not complete, or nothing. */
  predicate Settling(r: Run, start: Files) {
    match r.pc
    case At(_) => true
    case Restoring => r.files.lock && !r.journal.phase.Complete?
    case Marking => r.files.lock && !r.journal.phase.Complete?
    case Releasing => r.files.lock && Unfinished(r.files, start)
    case Ended(true) => Completed(r, start)
    case Ended(false) => Unfinished(r.files, start)
  }

  predicate Unfinished(f: Files, start: Files) {
    (f.journal.Some? && !f.journal.value.phase.Complete?) || Untouched(f, start)
  }

  lemma {:induction false} NotYetComplete(a: Action, n: nat)
    requires n < if a.Install? then 26 else 15
    ensures !PhaseAt(a, n).Complete?
    decreases n
  {
    if n > 0 {
      NotYetComplete(a, n - 1);
      CompleteIsWrittenAt(a, n - 1);
    }
  }

  lemma CompleteIsWrittenAt(a: Action, n: nat)
    ensures TaskAt(a, n) == Writing(Complete) <==> n == if a.Install? then 25 else 14
    ensures a.Rollback? && n == 15 ==> TaskAt(a, n).Unstaging?
  {
  }

  /** A task that fails comes before the completed journal. */
  lemma FailingIsSettled(r: Run, n: nat, t: Task, now: nat, works: bool, inode: nat, start: Files)
    requires r.pc == At(n) && Inv(r, start) && t == TaskAt(r.plan.action, n) && InPlace(r.plan.action, n, t)
    requires !Do(r, n, t, now, works, inode).pc.At? && !t.Unlocking?
    requires !PhaseAt(r.plan.action, n).Complete?
    ensures Settling(Do(r, n, t, now, works, inode), start)
  {
  }

  lemma LastIsSettled(r: Run, start: Files, now: nat, works: bool, clock: nat)
    requires r.pc == At(Last(r.plan.action)) && Inv(r, start) && JournalOk(r, clock)
    ensures Settling(Do(r, r.pc.n, Unlocking, now, works, 0), start)
  {
    LastPhase(r.plan.action);
  }

  lemma SettlingStep(r: Run, now: nat, works: bool, inode: nat, start: Files, clock: nat)
    requires Inv(r, start) && JournalOk(r, clock) && Settling(r, start) && (r.pc.At? ==> r.pc.n <= Last(r.plan.action))
    ensures Settling(Step(r, now, works, inode), start)
    ensures var r' := Step(r, now, works, inode); r'.pc.At? ==> r'.pc.n <= Last(r'.plan.action)
  {
    if r.pc.At? {
      var a, n := r.plan.action, r.pc.n;
      var t := TaskAt(a, n);
      TaskFacts(a, n);
      UnlockingIsLast(a, n);
      if t.Unlocking? {
        LastIsSettled(r, start, now, works, clock);
      } else {
        CompleteIsWrittenAt(a, n);
        if !Do(r, n, t, now, works, inode).pc.At? {
          NotYetComplete(a, n);
          FailingIsSettled(r, n, t, now, works, inode, start);
        }
      }
    }
  }

  lemma {:induction false} SettlingPath(r: Run, events: seq<Event>, start: Files, clock: nat)
    requires Inv(r, start) && JournalOk(r, clock) && Path(clock, events) && NoWriter(events)
    requires Settling(r, start) && (r.pc.At? ==> r.pc.n <= Last(r.plan.action))
    ensures Settling(End(r, events), start) && Inv(End(r, events), start)
    decreases |events|
  {
    if events != [] {
      var e := events[0];
      assert e.Runs?;
      StepKeeps(r, e.now, e.works, e.inode, start, clock);
      JournalStepKeeps(r, e.now, e.works, e.inode, clock);
      SettlingStep(r, e.now, e.works, e.inode, start, clock);
      SettlingPath(Apply(r, e), events[1..], start, e.now);
    }
  }

  lemma ConsistentIsComplete(f: Files)
    ensures Diagnose(f) == Consistent ==> !f.lock && f.journal.Some? && f.journal.value.phase.Complete?
  {
  }

  lemma UntouchedIsDiagnosedAlike(f: Files, start: Files)
    requires Untouched(f, start) && !f.lock && !start.lock
    ensures Diagnose(f) == Diagnose(start)
  {
    if f.journal.Some? && ValidJournal(f.journal.value) {
      SameExtras(f, start, f.journal.value);
    }
  }

  lemma SameExtras(f: Files, g: Files, j: Journal)
    requires f.claims == g.claims && f.backup == g.backup
    ensures ExtraClaims(f, j) <==> ExtraClaims(g, j)
  {
    assert forall c | c in f.claims :: Historical(f, j, c) <==> Historical(g, j, c);
  }

  /**
   Effects may fail and the operation may stop anywhere. The files are then diagnosed as
   consistent exactly when the marker is gone and either the operation has completed, or it
   never got to its journal and the files were consistent before.
   */
  lemma ConsistentExactlyWhen(plan: Plan, start: Files, events: seq<Event>)
    requires CleanStart(plan, start) && Path(0, events) && NoWriter(events)
    ensures var r := End(Begin(plan, start), events);
            Diagnose(r.files) == Consistent <==>
            && !r.files.lock
            && (r.pc == Ended(true) || (r.files.journal == start.journal && Diagnose(start) == Consistent))
  {
    BeginningIsOk(plan, start, 0);
    SettlingPath(Begin(plan, start), events, start, 0);
    PlanStays(Begin(plan, start), events);
    var r := End(Begin(plan, start), events);
    ConsistentIsComplete(r.files);
    ConsistentIsComplete(start);
    if r.pc == Ended(true) && !r.files.lock {
      EvidenceAt(plan, r.files, Last(plan.action), start);
      FinishedOperation(plan, r.files, start.harness.value);
    } else if Untouched(r.files, start) && !r.files.lock {
      UntouchedIsDiagnosedAlike(r.files, start);
    }
  }

  // ---- Install, then roll back ----

  /** A completed install is a clean start for the rollback that is planned on it. */
  lemma RollbackCanStart(plan: Plan, start: Files, r: Run, back: Plan, name: ClaimName)
    requires CleanStart(plan, start) && plan.action.Install? && r.plan == plan && Finished(r, start)
    requires PlanRollback(r.files, name, true) == Some(back) && name.action.Rollback? && name !in r.files.claims
    ensures CleanStart(back, r.files) && back.target == plan.original
  {
    forall c | c in r.files.claims ensures LinkedToBackup(r.files, c) {
      assert c == plan.name;
    }
  }

  /** With both entrypoints there and distinct, the rollback can be planned. */
  lemma RollbackIsPlanned(plan: Plan, start: Files, r: Run, name: ClaimName)
    requires CleanStart(plan, start) && plan.action.Install? && r.plan == plan && Finished(r, start)
    ensures PlanRollback(r.files, name, true).Some? <==> plan.receipt.previousEntry != plan.receipt.installedEntry
  {
  }

  /**
   An undisturbed install, then an undisturbed rollback: both complete, the install puts the
   new bytes in place, and the rollback restores the original ones exactly.
   */
  lemma RollbackRestores(plan: Plan, start: Files, there: seq<Event>, name: ClaimName, back: seq<Event>)
    requires CleanStart(plan, start) && plan.action.Install?
    requires plan.receipt.previousEntry != plan.receipt.installedEntry
    requires Smooth(there) && |there| > 26 && Path(0, there) && Smooth(back) && |back| > 16 && Path(0, back)
    requires name.action.Rollback?
    ensures var installed := End(Begin(plan, start), there);
            && installed.pc == Ended(true) && HarnessIs(installed.files, plan.target)
            && PlanRollback(installed.files, name, true).Some?
            && var restored := End(Begin(PlanRollback(installed.files, name, true).value, installed.files), back);
               restored.pc == Ended(true) && HarnessIs(restored.files, plan.original)
  {
    SmoothStart(plan, start);
    SmoothRun(Begin(plan, start), there, start, 0);
    PlanStays(Begin(plan, start), there);
    var r := End(Begin(plan, start), there);
    RollbackIsPlanned(plan, start, r, name);
    assert r.files.claims.Keys == {plan.name};
    var undo := PlanRollback(r.files, name, true).value;
    RollbackCanStart(plan, start, r, undo, name);
    SmoothStart(undo, r.files);
    SmoothRun(Begin(undo, r.files), back, r.files, 0);
    PlanStays(Begin(undo, r.files), back);
  }

  // ---- When an effect fails in the claim window ----

  /**
   If a journal entry cannot be written while the harness is claimed, nothing puts the claim
   back: the marker goes, the journal says failed, and the missing harness is no longer
   reported as an interrupted claim.
   */
  lemma AFailedEntryHidesTheClaim(r: Run, start: Files, clock: nat, now: nat)
    requires Inv(r, start) && JournalOk(r, clock) && now >= clock
    requires r.pc == At(DigestAt(r.plan.action))
    ensures var e := Step(Step(Step(r, now, false, 0), now, true, 0), now, true, 0);
            e.pc == Ended(false) && !e.files.lock && e.files.harness.None? && Diagnose(e.files) == Indeterminate
  {
    var a := r.plan.action;
    assert TaskAt(a, DigestAt(a)).Writing?;
    var m := Step(r, now, false, 0);
    assert m == Goto(r, Marking);
    WindowPhases(a, DigestAt(a));
    FailedIsValid(r.journal, now);
    var e := Step(Step(m, now, true, 0), now, true, 0);
    EvidenceAt(r.plan, r.files, DigestAt(a), start);
    FailedHides(r.plan, e.files, start.harness.value);
  }

  lemma FailedHides(plan: Plan, f: Files, claimed: File)
    requires f.harness.None? && Evidence(plan, f, claimed) && f.journal.Some? && ValidJournal(f.journal.value)
    requires Named(f.journal.value, plan) && f.journal.value.phase.Failed?
    ensures Diagnose(f) == Indeterminate
  {
    NoExtras(plan, f, claimed);
  }

  /** An undisturbed operation gets to that point. */
  lemma TheWindowIsReached(plan: Plan, start: Files, events: seq<Event>)
    requires CleanStart(plan, start) && Path(0, events) && Smooth(events) && |events| == DigestAt(plan.action)
    ensures var r := End(Begin(plan, start), events);
            r.pc == At(DigestAt(r.plan.action)) && Inv(r, start) && r.files.harness.None?
  {
    SmoothStart(plan, start);
    SmoothRun(Begin(plan, start), events, start, 0);
    PlanStays(Begin(plan, start), events);
  }
}
