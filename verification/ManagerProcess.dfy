/**
 The manager's operation as it runs: the files around the harness as fields, the journal
 the operation keeps in a variable, and one method for each file effect or check. Every
 method is the step of the model, destroys no file and keeps `Valid()`, so what is proved
 about runs holds of any sequence of calls, cut off anywhere.
 */
module ManagerProcess {

  import opened Options
  import opened Manager
  import opened ManagerRuns

  /** What every moment of an operation keeps. */
  ghost predicate Sound(r: Run, clock: nat, found: Option<Journal>) {
    JournalKept(r, clock, found) && NameUnused(r) && EvidenceFirst(r)
  }

  lemma StepKeepsSound(r: Run, now: nat, works: bool, inode: nat, clock: nat, found: Option<Journal>)
    requires Sound(r, clock, found) && now >= clock
    ensures Sound(Step(r, now, works, inode), now, found) && NothingDestroyed(r.files, Step(r, now, works, inode).files)
  {
    KeptThroughStep(r, now, works, inode, clock, found);
    NameStaysUnused(r, Runs(now, works, inode));
    EvidenceStaysFirst(r, Runs(now, works, inode));
    StepDestroysNothing(r, now, works, inode);
  }

  class Operation {
    const plan: Plan
    var pc: Pc
    var journal: Journal
    ghost const found: Option<Journal>
    ghost var clock: nat

    var harness: Option<File>
    var claims: map<ClaimName, File>
    var backup: Option<File>
    var receipt: Option<Receipt>
    var staged: Option<File>
    var stagedReceipt: Option<Receipt>
    var version: bool
    var journalFile: Option<Journal>
    var marker: bool

    ghost function Disk(): Files
      reads this
    {
      Files(harness, claims, backup, receipt, staged, stagedReceipt, version, journalFile, marker)
    }

    ghost function Snapshot(): Run
      reads this
    {
      Run(plan, pc, journal, Disk())
    }

    /**
     The journal can be read or is the one found, the claim's name is free until it is used, and
     evidence comes first.
     */
    ghost predicate Valid()
      reads this
    {
      Sound(Snapshot(), clock, found)
    }

    constructor (p: Plan, f: Files)
      requires p.name.action == p.action && p.name !in f.claims
      ensures Snapshot() == Begin(p, f) && found == f.journal && clock == 0 && Valid()
    {
      plan, pc, journal := p, At(0), Template(p, 0);
      harness, claims, backup, receipt := f.harness, f.claims, f.backup, f.receipt;
      staged, stagedReceipt, version, journalFile, marker := f.staged, f.stagedReceipt, f.version, f.journal, f.lock;
      found, clock := f.journal, 0;
      BeginningIsKept(p, f, 0);
    }

    /** The task the operation is at. */
    ghost predicate Facing(n: nat, t: Task)
      reads this
    {
      pc == At(n) && TaskAt(plan.action, n) == t
    }

    /** `withManagerLock`: the marker is created exclusively. */
    method TakeMarker(n: nat, now: nat, works: bool)
      requires Valid() && now >= clock && Facing(n, Locking)
      modifies this
      ensures Snapshot() == Step(old(Snapshot()), now, works, 0) && clock == now
      ensures Valid() && NothingDestroyed(old(Disk()), Disk())
    {
      StepKeepsSound(Snapshot(), now, works, 0, clock, found);
      clock := now;
      if marker || !works {
        pc := Ended(false);
      } else {
        marker, pc := true, At(n + 1);
      }
    }

    /** `startManagerJournal`. */
    method StartJournal(n: nat, now: nat, works: bool)
      requires Valid() && now >= clock && Facing(n, Starting)
      modifies this
      ensures Snapshot() == Step(old(Snapshot()), now, works, 0) && clock == now
      ensures Valid() && NothingDestroyed(old(Disk()), Disk())
    {
      StepKeepsSound(Snapshot(), now, works, 0, clock, found);
      clock := now;
      if !works || (journalFile.Some? && !(ValidJournal(journalFile.value) && journalFile.value.phase.Complete?)) {
        pc := Releasing;
      } else {
        journal := Template(plan, now);
        journalFile, pc := Some(journal), At(n + 1);
      }
    }

    method CheckFiles(n: nat, again: bool, now: nat, works: bool)
      requires Valid() && now >= clock && Facing(n, Checking(again))
      modifies this
      ensures Snapshot() == Step(old(Snapshot()), now, works, 0) && clock == now
      ensures Valid() && NothingDestroyed(old(Disk()), Disk())
    {
      StepKeepsSound(Snapshot(), now, works, 0, clock, found);
      clock := now;
      var found := harness.Some? && harness.value.bytes == plan.original;
      var rest := if plan.action.Install? then backup.None? && (if again then receipt.None? else !version)
                  else backup.Some? && backup.value.bytes == plan.target && receipt == Some(plan.receipt)
                       && plan.receipt.original == plan.target && plan.receipt.installed == plan.original
                       && plan.receipt.previousEntry != plan.receipt.installedEntry;
      pc := if works && found && rest then At(n + 1) else Marking;
    }

    /** `advanceManagerJournal`: the new journal replaces the old one atomically, and only then the variable. */
    method AdvanceJournal(n: nat, phase: Phase, now: nat, works: bool)
      requires Valid() && now >= clock && Facing(n, Writing(phase))
      modifies this
      ensures Snapshot() == Step(old(Snapshot()), now, works, 0) && clock == now
      ensures Valid() && NothingDestroyed(old(Disk()), Disk())
    {
      StepKeepsSound(Snapshot(), now, works, 0, clock, found);
      WriteEntry(n, phase, now, works);
      clock := now;
    }

    method WriteEntry(n: nat, phase: Phase, now: nat, works: bool)
      requires Facing(n, Writing(phase))
      modifies this
      ensures Snapshot() == Step(old(Snapshot()), now, works, 0)
    {
      if !works { pc := Marking; return; }
      var claimed := if plan.name in claims then Some(claims[plan.name].bytes) else None;
      var next := Advance(journal, phase, now);
      if phase.ReadyToClaim? { next := next.(claim := Some(plan.name)); }
      if phase.HarnessClaimed? || phase.CurrentClaimed? { next := next.(claimDigest := claimed); }
      journalFile := Some(next);
      journal := next;
      pc := At(n + 1);
    }

    method StageFiles(n: nat, t: Task, now: nat, works: bool, inode: nat)
      requires Valid() && now >= clock && Facing(n, t)
      requires (t.StagingVersion? || t.PublishingVersionDir? || t.StagingFile? || t.StagingReceipt?)
      modifies this
      ensures Snapshot() == Step(old(Snapshot()), now, works, inode) && clock == now
      ensures Valid() && NothingDestroyed(old(Disk()), Disk())
    {
      StepKeepsSound(Snapshot(), now, works, inode, clock, found);
      clock := now;
      if !works { pc := Marking; return; }
      match t {
        case PublishingVersionDir => version := true;
        case StagingFile => staged := Some(File(inode, plan.target));
        case StagingReceipt => stagedReceipt := Some(plan.receipt);
        case _ =>
      }
      pc := At(n + 1);
    }

    /** The harness is renamed to the claim: from here on its bytes live under the claim's name. */
    method ClaimHarness(n: nat, now: nat, works: bool)
      requires Valid() && now >= clock && Facing(n, Claiming)
      modifies this
      ensures Snapshot() == Step(old(Snapshot()), now, works, 0) && clock == now
      ensures Valid() && NothingDestroyed(old(Disk()), Disk())
    {
      StepKeepsSound(Snapshot(), now, works, 0, clock, found);
      clock := now;
      if !works || harness.None? { pc := Marking; return; }
      claims := claims[plan.name := harness.value];
      harness := None;
      pc := At(n + 1);
    }

    method VerifyClaim(n: nat, now: nat, works: bool)
      requires Valid() && now >= clock && Facing(n, Verifying)
      modifies this
      ensures Snapshot() == Step(old(Snapshot()), now, works, 0) && clock == now
      ensures Valid() && NothingDestroyed(old(Disk()), Disk())
    {
      StepKeepsSound(Snapshot(), now, works, 0, clock, found);
      clock := now;
      if !works {
        pc := Marking;
      } else if plan.name in claims && claims[plan.name].bytes == plan.original {
        pc := At(n + 1);
      } else {
        pc := Restoring;
      }
    }

    method LinkBackup(n: nat, now: nat, works: bool)
      requires Valid() && now >= clock && Facing(n, LinkingBackup)
      modifies this
      ensures Snapshot() == Step(old(Snapshot()), now, works, 0) && clock == now
      ensures Valid() && NothingDestroyed(old(Disk()), Disk())
    {
      StepKeepsSound(Snapshot(), now, works, 0, clock, found);
      clock := now;
      if !works || backup.Some? || plan.name !in claims { pc := Restoring; return; }
      backup := Some(claims[plan.name]);
      pc := At(n + 1);
    }

    method LinkReceipt(n: nat, now: nat, works: bool)
      requires Valid() && now >= clock && Facing(n, LinkingReceipt)
      modifies this
      ensures Snapshot() == Step(old(Snapshot()), now, works, 0) && clock == now
      ensures Valid() && NothingDestroyed(old(Disk()), Disk())
    {
      StepKeepsSound(Snapshot(), now, works, 0, clock, found);
      clock := now;
      if !works || receipt.Some? || stagedReceipt.None? { pc := Restoring; return; }
      receipt := stagedReceipt;
      pc := At(n + 1);
    }

    /** A hard link never replaces what is there. */
    method LinkHarness(n: nat, now: nat, works: bool)
      requires Valid() && now >= clock && Facing(n, LinkingHarness)
      modifies this
      ensures Snapshot() == Step(old(Snapshot()), now, works, 0) && clock == now
      ensures Valid() && NothingDestroyed(old(Disk()), Disk())
    {
      StepKeepsSound(Snapshot(), now, works, 0, clock, found);
      clock := now;
      if !works || harness.Some? || staged.None? { pc := Restoring; return; }
      harness := staged;
      pc := At(n + 1);
    }

    method RemoveStaged(n: nat, now: nat, works: bool)
      requires Valid() && now >= clock && Facing(n, Unstaging)
      modifies this
      ensures Snapshot() == Step(old(Snapshot()), now, works, 0) && clock == now
      ensures Valid() && NothingDestroyed(old(Disk()), Disk())
    {
      StepKeepsSound(Snapshot(), now, works, 0, clock, found);
      clock := now;
      if works { staged, stagedReceipt := None, None; }
      pc := At(n + 1);
    }

    method DropMarker(n: nat, now: nat, works: bool)
      requires Valid() && now >= clock && Facing(n, Unlocking)
      modifies this
      ensures Snapshot() == Step(old(Snapshot()), now, works, 0) && clock == now
      ensures Valid() && NothingDestroyed(old(Disk()), Disk())
    {
      StepKeepsSound(Snapshot(), now, works, 0, clock, found);
      clock := now;
      if works { marker := false; }
      pc := Ended(true);
    }

    // ---- The failure path ----

    /** `restoreClaimIfAbsent`. */
    method RestoreClaim(now: nat, works: bool)
      requires Valid() && now >= clock && pc == Restoring
      modifies this
      ensures Snapshot() == Step(old(Snapshot()), now, works, 0) && clock == now
      ensures Valid() && NothingDestroyed(old(Disk()), Disk())
    {
      StepKeepsSound(Snapshot(), now, works, 0, clock, found);
      clock := now;
      if works && harness.None? && plan.name in claims { harness := Some(claims[plan.name]); }
      pc := Marking;
    }

    /** `markManagerJournalFailure`; if this write fails too, the evidence stays as it is. */
    method MarkFailure(now: nat, works: bool)
      requires Valid() && now >= clock && pc == Marking
      modifies this
      ensures Snapshot() == Step(old(Snapshot()), now, works, 0) && clock == now
      ensures Valid() && NothingDestroyed(old(Disk()), Disk())
    {
      StepKeepsSound(Snapshot(), now, works, 0, clock, found);
      clock := now;
      if works { journalFile := Some(Advance(journal, Failed, now)); }
      pc := Releasing;
    }

    method ReleaseMarker(now: nat, works: bool)
      requires Valid() && now >= clock && pc == Releasing
      modifies this
      ensures Snapshot() == Step(old(Snapshot()), now, works, 0) && clock == now
      ensures Valid() && NothingDestroyed(old(Disk()), Disk())
    {
      StepKeepsSound(Snapshot(), now, works, 0, clock, found);
      clock := now;
      if works { marker := false; }
      pc := Ended(false);
    }

    // ---- The outside, and the diagnosis ----

    method OutsideWrites(f: File)
      requires Valid()
      modifies this
      ensures Snapshot() == Replaced(old(Snapshot()), f) && clock == old(clock) && Valid()
    {
      harness := Some(f);
    }

    /** `diagnoseManager`, which only reads: it walks the claims one by one. */
    method Inspect() returns (d: Diagnosis)
      ensures d == Diagnose(Disk())
    {
      if journalFile.None? || !ValidJournal(journalFile.value) {
        return if marker || claims != map[] || journalFile.Some? then Indeterminate else InsufficientEvidence;
      }
      d := InspectWith(journalFile.value);
    }

    /** What the files say, given a journal that can be read. */
    method InspectWith(j: Journal) returns (d: Diagnosis)
      ensures d == DiagnoseWith(Disk(), j)
    {
      var expected := if Preclaim(j.phase) then j.expectedHarness else j.expectedTarget;
      var harnessOk := harness.Some? && harness.value.bytes == expected;
      var claim := if j.claim.Some? && j.claim.value in claims then Some(claims[j.claim.value]) else None;
      var claimOk := claim.Some? && claim.value.bytes == j.claimDigest.GetOr(j.expectedHarness);
      var backupOk := backup.Some? && backup.value.bytes == if j.action.Install? then j.expectedHarness
          else j.expectedTarget;
      var receiptOk := receipt.Some?
        && receipt.value.original == (if j.action.Install? then j.expectedHarness else j.expectedTarget)
        && receipt.value.installed == (if j.action.Install? then j.expectedTarget else j.expectedHarness);
      var extra := FindExtraClaims(j, backupOk);
      if (harness.Some? && !harnessOk) || (claim.Some? && !claimOk) || (receipt.Some? && !receiptOk)
          || extra { return Indeterminate; }
      if harness.None? && claimOk && InClaimWindow(j.phase) { return Interrupted; }
      if marker { return Indeterminate; }
      if j.phase.Complete? && harnessOk && claimOk && backupOk && receiptOk { return Consistent; }
      return if j.phase.Failed? then Indeterminate else InsufficientEvidence;
    }

    method FindExtraClaims(j: Journal, backupOk: bool) returns (extra: bool)
      requires backupOk <==> BackupMatches(Disk(), j)
      ensures extra <==> ExtraClaims(Disk(), j)
    {
      extra := false;
      var left := claims.Keys;
      while left != {}
        invariant left <= claims.Keys
        invariant extra <==> exists c | c in claims && c !in left :: j.claim != Some(c) && !Historical(Disk(), j, c)
        decreases left
      {
        var c :| c in left;
        var historical := j.action.Rollback? && backupOk && claims[c].bytes == j.expectedTarget
            && claims[c].inode == backup.value.inode;
        assert historical <==> Historical(Disk(), j, c);
        if j.claim != Some(c) && !historical { extra := true; }
        left := left - {c};
      }
    }
  }
}
