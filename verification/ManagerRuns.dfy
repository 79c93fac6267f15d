/**
 All runs of an install or a rollback: with crashes (a run may simply stop), failing effects,
 and an outside writer.
 */
module ManagerRuns {

  import opened Options
  import opened Manager

  datatype Event = Runs(now: nat, works: bool, inode: nat) | Writes(file: File)

  function Apply(r: Run, e: Event): Run {
    match e
    case Runs(now, works, inode) => Step(r, now, works, inode)
    case Writes(file) => Replaced(r, file)
  }

  function ClockAfter(clock: nat, e: Event): nat {
    if e.Runs? then e.now else clock
  }

  /** The clock does not go back. */
  predicate Path(clock: nat, events: seq<Event>)
    decreases |events|
  {
    events == [] || ((events[0].Runs? ==> events[0].now >= clock) && Path(ClockAfter(clock, events[0]), events[1..]))
  }

  function End(r: Run, events: seq<Event>): Run
    decreases |events|
  {
    if events == [] then r else End(Apply(r, events[0]), events[1..])
  }

  // ---- Where the tasks stand ----

  function ReadyAt(a: Action): nat { if a.Install? then 14 else 6 }
  function ClaimAt(a: Action): nat { if a.Install? then 16 else 8 }
  function DigestAt(a: Action): nat { if a.Install? then 18 else 10 }
  function LinkAt(a: Action): nat { if a.Install? then 22 else 12 }

  predicate DigestPhase(p: Phase) {
    p.HarnessClaimed? || p.CurrentClaimed?
  }

  /** What the place of a journal entry says about its phase. */
  predicate Placed(a: Action, n: nat, p: Phase) {
    && 2 < n < 26 && n != ClaimAt(a) && Allowed(a, p) && !p.Failed?
    && (p.ReadyToClaim? <==> n == ReadyAt(a)) && (DigestPhase(p) <==> n == DigestAt(a))
    && (Preclaim(p) <==> ReadyAt(a) <= n < DigestAt(a)) && (ClaimPhase(p) <==> n >= ReadyAt(a))
  }

  lemma InstallWriting(n: nat, p: Phase)
    requires InstallTask(n) == Writing(p)
    ensures Placed(Install, n, p)
  {
  }

  lemma RollbackWriting(n: nat, p: Phase)
    requires RollbackTask(n) == Writing(p)
    ensures Placed(Rollback, n, p)
  {
  }

  lemma WritingFacts(a: Action, n: nat, p: Phase)
    requires TaskAt(a, n) == Writing(p)
    ensures Placed(a, n, p)
  {
    if a.Install? { InstallWriting(n, p); } else { RollbackWriting(n, p); }
  }

  /** Where the other tasks are. */
  predicate InPlace(a: Action, n: nat, t: Task) {
    && (n > 26 ==> t.Unlocking?)
    && (t.Locking? <==> n == 0) && (t.Starting? <==> n == 1)
    && (t.Claiming? <==> n == ClaimAt(a)) && (t.Verifying? <==> n == ClaimAt(a) + 1)
        && (t.LinkingHarness? <==> n == LinkAt(a))
    && (t.LinkingBackup? <==> a.Install? && n == 20) && (t.LinkingReceipt? <==> a.Install? && n == 21)
    && (n == ReadyAt(a) || n == DigestAt(a) ==> t.Writing?)
  }

  lemma TaskFacts(a: Action, n: nat)
    ensures InPlace(a, n, TaskAt(a, n))
  {
  }

  // ---- Every journal written is valid ----

  /** The journal in memory before task `n`. */
  predicate JournalAt(r: Run, n: nat, clock: nat) {
    var a := r.plan.action;
    && ValidJournal(r.journal) && r.journal.updatedAt <= clock && r.journal.action == a
    && |r.journal.history| <= n
    && (r.journal.claim == if n > ReadyAt(a) then Some(r.plan.name) else None)
    && (r.journal.claimDigest.Some? <==> n > DigestAt(a))
  }

  predicate JournalOk(r: Run, clock: nat) {
    && r.plan.name.action == r.plan.action
    && (r.files.journal.Some? ==> ValidJournal(r.files.journal.value))
    && (match r.pc
        case At(n) => (n >= 2 ==> JournalAt(r, n, clock))
            && (n > ClaimAt(r.plan.action) ==> r.plan.name in r.files.claims)
        case Restoring => ValidJournal(r.journal) && r.journal.updatedAt <= clock && |r.journal.history| <= 30
        case Marking => ValidJournal(r.journal) && r.journal.updatedAt <= clock && |r.journal.history| <= 30
        case _ => true)
  }

  lemma AdvanceIsOrdered(j: Journal, p: Phase, now: nat)
    requires ValidJournal(j) && now >= j.updatedAt && |j.history| <= 31 && Allowed(j.action, p)
    ensures var k := Advance(j, p, now);
            Ordered(k) && |k.history| == |j.history| + 1 && k.history[|j.history|].phase == p
                && k.startedAt <= k.updatedAt
  {
    var k := Advance(j, p, now);
    assert k.history == j.history + [Stamp(p, now)];
    forall i | 0 <= i < |k.history| ensures k.startedAt <= k.history[i].at <= k.updatedAt
        && Allowed(k.action, k.history[i].phase) {
      if i < |j.history| { assert k.history[i] == j.history[i]; }
    }
  }

  lemma WritingKeeps(r: Run, n: nat, p: Phase, now: nat, clock: nat)
    requires Placed(r.plan.action, n, p) && now >= clock
    requires JournalAt(r, n, clock) && r.plan.name.action == r.plan.action
    requires n > ClaimAt(r.plan.action) ==> Claimed(r).Some?
    ensures var j := Entered(r.journal, p, now, r.plan.name, Claimed(r));
            ValidJournal(j) && JournalAt(r.(journal := j), n + 1, now)
  {
    AdvanceIsOrdered(r.journal, p, now);
  }

  lemma TemplateIsValid(plan: Plan, now: nat)
    ensures ValidJournal(Template(plan, now))
  {
  }

  lemma FailedIsValid(j: Journal, now: nat)
    requires ValidJournal(j) && now >= j.updatedAt && |j.history| <= 30
    ensures ValidJournal(Advance(j, Failed, now))
  {
    AdvanceIsOrdered(j, Failed, now);
  }

  lemma WritingTaskKeeps(r: Run, n: nat, p: Phase, now: nat, works: bool, inode: nat, clock: nat)
    requires r.pc == At(n) && JournalOk(r, clock) && now >= clock && Placed(r.plan.action, n, p)
    ensures JournalOk(Do(r, n, Writing(p), now, works, inode), now)
  {
    WritingKeeps(r, n, p, now, clock);
  }

  lemma OtherTaskKeeps(r: Run, n: nat, t: Task, now: nat, works: bool, inode: nat, clock: nat)
    requires r.pc == At(n) && JournalOk(r, clock) && now >= clock && !t.Writing? && InPlace(r.plan.action, n, t)
    ensures JournalOk(Do(r, n, t, now, works, inode), now)
  {
    TemplateIsValid(r.plan, now);
  }

  lemma JournalStepKeeps(r: Run, now: nat, works: bool, inode: nat, clock: nat)
    requires JournalOk(r, clock) && now >= clock
    ensures JournalOk(Step(r, now, works, inode), now)
  {
    match r.pc
    case At(n) =>
      var t := TaskAt(r.plan.action, n);
      TaskFacts(r.plan.action, n);
      if t.Writing? {
        WritingFacts(r.plan.action, n, t.phase);
        WritingTaskKeeps(r, n, t.phase, now, works, inode, clock);
      } else {
        OtherTaskKeeps(r, n, t, now, works, inode, clock);
      }
    case Marking => FailedIsValid(r.journal, now);
    case _ =>
  }

  lemma BeginningIsOk(plan: Plan, files: Files, clock: nat)
    requires plan.name.action == plan.action && (files.journal.Some? ==> ValidJournal(files.journal.value))
    ensures JournalOk(Begin(plan, files), clock)
  {
  }

  /** A journal that cannot be read is left as it is, and the operation goes no further. */
  predicate Stuck(r: Run, found: Option<Journal>) {
    && r.files.journal == found && found.Some? && !ValidJournal(found.value)
    && match r.pc
       case At(n) => n <= 1
       case Releasing => true
       case Ended(_) => true
       case _ => false
  }

  predicate JournalKept(r: Run, clock: nat, found: Option<Journal>) {
    JournalOk(r, clock) || Stuck(r, found)
  }

  lemma BeginningIsKept(plan: Plan, files: Files, clock: nat)
    requires plan.name.action == plan.action
    ensures JournalKept(Begin(plan, files), clock, files.journal)
  {
    if files.journal.None? || ValidJournal(files.journal.value) { BeginningIsOk(plan, files, clock); }
  }

  lemma StuckStaysStuck(r: Run, now: nat, works: bool, inode: nat, found: Option<Journal>)
    requires Stuck(r, found)
    ensures Stuck(Step(r, now, works, inode), found)
  {
    if r.pc.At? { TaskFacts(r.plan.action, r.pc.n); }
  }

  lemma KeptThroughStep(r: Run, now: nat, works: bool, inode: nat, clock: nat, found: Option<Journal>)
    requires JournalKept(r, clock, found) && now >= clock
    ensures JournalKept(Step(r, now, works, inode), now, found)
  {
    if JournalOk(r, clock) {
      JournalStepKeeps(r, now, works, inode, clock);
    } else {
      StuckStaysStuck(r, now, works, inode, found);
    }
  }

  lemma {:induction false} KeptThroughout(r: Run, clock: nat, events: seq<Event>, found: Option<Journal>)
    returns (later: nat)
    requires JournalKept(r, clock, found) && Path(clock, events)
    ensures JournalKept(End(r, events), later, found)
    decreases |events|
  {
    later := clock;
    if events != [] {
      var e := events[0];
      if e.Runs? { KeptThroughStep(r, e.now, e.works, e.inode, clock, found); }
      later := KeptThroughout(Apply(r, e), ClockAfter(clock, e), events[1..], found);
    }
  }

  /**
   Whatever fails and whoever writes: while the clock does not go back, the journal on disk is
   one the validator accepts, or the unreadable one that was there before the operation began.
   */
  lemma EveryJournalIsValid(plan: Plan, files: Files, clock: nat, events: seq<Event>)
    requires plan.name.action == plan.action && Path(clock, events)
    ensures var j := End(Begin(plan, files), events).files.journal;
            j.Some? ==> ValidJournal(j.value) || j == files.journal
  {
    BeginningIsKept(plan, files, clock);
    var later := KeptThroughout(Begin(plan, files), clock, events, files.journal);
  }

  // ---- No bytes are destroyed ----

  /** A file the manager found at the harness path is there still, or under the name of a claim. */
  predicate Survives(file: File, f: Files) {
    f.harness == Some(file) || exists c | c in f.claims :: f.claims[c] == file
  }

  /** What was at the harness path survives, claims only grow, and nothing replaces a file that is there. */
  predicate NothingDestroyed(f: Files, g: Files) {
    && (f.harness.Some? ==> Survives(f.harness.value, g))
    && (forall c | c in f.claims :: c in g.claims && g.claims[c] == f.claims[c])
    && (f.harness.Some? && g.harness.Some? ==> g.harness == f.harness)
    && (f.backup.Some? ==> g.backup == f.backup) && (f.receipt.Some? ==> g.receipt == f.receipt)
  }

  lemma StepDestroysNothing(r: Run, now: nat, works: bool, inode: nat)
    requires r.plan.name !in r.files.claims || r.pc != At(ClaimAt(r.plan.action))
    ensures NothingDestroyed(r.files, Step(r, now, works, inode).files)
  {
    match r.pc
    case At(n) =>
      TaskFacts(r.plan.action, n);
      TaskDestroysNothing(r, n, TaskAt(r.plan.action, n), now, works, inode);
    case _ =>
  }

  lemma TaskDestroysNothing(r: Run, n: nat, t: Task, now: nat, works: bool, inode: nat)
    requires t.Claiming? ==> r.plan.name !in r.files.claims
    ensures NothingDestroyed(r.files, Do(r, n, t, now, works, inode).files)
  {
    var g := Do(r, n, t, now, works, inode).files;
    if t.Claiming? && g.harness != r.files.harness { assert g.claims[r.plan.name] == r.files.harness.value; }
  }

  predicate NameUnused(r: Run) {
    match r.pc
    case At(n) => n <= ClaimAt(r.plan.action) ==> r.plan.name !in r.files.claims
    case _ => true
  }

  lemma NameStaysUnused(r: Run, e: Event)
    requires NameUnused(r)
    ensures NameUnused(Apply(r, e))
  {
    if e.Runs? && r.pc.At? { TaskFacts(r.plan.action, r.pc.n); }
  }

  /** Once found, a file survives everything the manager does, failures and crashes included. */
  lemma {:induction false} FoundFilesSurvive(r: Run, events: seq<Event>, file: File)
    requires NameUnused(r) && Survives(file, r.files) && forall i | 0 <= i < |events| :: events[i].Runs?
    ensures Survives(file, End(r, events).files)
    decreases |events|
  {
    if events != [] {
      var e := events[0];
      assert e.Runs?;
      StepDestroysNothing(r, e.now, e.works, e.inode);
      NameStaysUnused(r, e);
      var g := Apply(r, e).files;
      if r.files.harness != Some(file) {
        var c :| c in r.files.claims && r.files.claims[c] == file;
        assert g.claims[c] == file;
      }
      FoundFilesSurvive(Apply(r, e), events[1..], file);
    }
  }

  /** A claimed file outlives the outside writer too. */
  lemma {:induction false} ClaimedFilesStay(r: Run, events: seq<Event>, c: ClaimName)
    requires NameUnused(r) && c in r.files.claims
    ensures c in End(r, events).files.claims && End(r, events).files.claims[c] == r.files.claims[c]
    decreases |events|
  {
    if events != [] {
      var e := events[0];
      if e.Runs? { StepDestroysNothing(r, e.now, e.works, e.inode); }
      NameStaysUnused(r, e);
      ClaimedFilesStay(Apply(r, e), events[1..], c);
    }
  }

  // ---- The target appears last ----

  predicate EvidenceFirst(r: Run) {
    match r.pc
    case At(n) =>
      (n > ClaimAt(r.plan.action) ==> r.plan.name in r.files.claims)
      && (r.plan.action.Install? && n > 20 ==> r.files.backup.Some?)
      && (r.plan.action.Install? && n > 21 ==> r.files.receipt.Some?)
    case Restoring => r.plan.name in r.files.claims
    case _ => true
  }

  lemma EvidenceStaysFirst(r: Run, e: Event)
    requires EvidenceFirst(r)
    ensures EvidenceFirst(Apply(r, e))
  {
    if e.Runs? && r.pc.At? { TaskFacts(r.plan.action, r.pc.n); }
  }

  /**
   What the manager puts at an empty harness path is the claimed file, or the target, once backup
   and receipt exist.
   */
  lemma TargetAppearsAfterEvidence(r: Run, now: nat, works: bool, inode: nat)
    requires EvidenceFirst(r) && r.files.harness.None? && Step(r, now, works, inode).files.harness.Some?
    ensures var g := Step(r, now, works, inode).files;
            || (r.plan.name in g.claims && g.harness == Some(g.claims[r.plan.name]))
            || (g.harness == r.files.staged && (r.plan.action.Install? ==> g.backup.Some? && g.receipt.Some?))
  {
    if r.pc.At? { TaskFacts(r.plan.action, r.pc.n); }
  }

  lemma {:induction false} EvidenceFirstThroughout(plan: Plan, files: Files, events: seq<Event>)
    ensures EvidenceFirst(End(Begin(plan, files), events))
  {
    EvidenceFirstFrom(Begin(plan, files), events);
  }

  lemma {:induction false} EvidenceFirstFrom(r: Run, events: seq<Event>)
    requires EvidenceFirst(r)
    ensures EvidenceFirst(End(r, events))
    decreases |events|
  {
    if events != [] {
      EvidenceStaysFirst(r, events[0]);
      EvidenceFirstFrom(Apply(r, events[0]), events[1..]);
    }
  }
}
