/**
 Archiving sent records. Each record is copied to a new file, read back and compared, the
 source is read again, and only then is it removed from the outbox; a crash, a failed step
 or an outside writer may come in between. `Bytes` are file contents: a whole record in one
 of many encodings, or what a partial or damaged write left behind.
 */
module OutboxArchive {

  import opened Options
  import opened Outbox

  datatype Bytes = Whole(record: Record, layout: nat) | Damaged(n: nat)

  datatype Store = Store(outbox: map<Id, Bytes>, archive: map<Id, Bytes>)

  /**
   What happens to one record while it is archived: how many effects are made before a
   crash, what the copy holds when that is not the source, and what an outside writer puts
   in the place of the source before it is read again.
   */
  datatype Fate = Fate(steps: nat, spoilt: Option<Bytes>, outside: Option<Bytes>)

  /** No crash, a faithful copy, and nobody else. */
  predicate Smooth(f: Fate) {
    f.steps > 3 && f.spoilt.None? && f.outside.None?
  }

  datatype Outcome = Moved | NotSent | Failed | Crashed

  predicate SentBytes(b: Bytes) {
    b.Whole? && b.record.status.Sent?
  }

  /**
   Evidence is conserved: exact bytes are still in the outbox, or they were sent and are in
   the archive; only sent records left, and nothing in the archive was touched.
   */
  predicate Conserves(before: Store, after: Store) {
    && (forall id | id in before.outbox :: Kept(before, after, id))
    && (forall id | id in before.archive :: id in after.archive && after.archive[id] == before.archive[id])
    && after.outbox.Keys <= before.outbox.Keys
  }

  predicate Kept(before: Store, after: Store, id: Id)
    requires id in before.outbox
  {
    || (id in after.outbox && after.outbox[id] == before.outbox[id])
    || (SentBytes(before.outbox[id]) && id in after.archive && after.archive[id] == before.outbox[id])
  }

  lemma ConservesOn(a: Store, b: Store, c: Store)
    requires Conserves(a, b) && Conserves(b, c)
    ensures Conserves(a, c)
  {
    forall id | id in a.outbox ensures Kept(a, c, id) {
      assert Kept(a, b, id);
      if id in b.outbox && b.outbox[id] == a.outbox[id] { assert Kept(b, c, id); }
    }
  }

  /** What left the outbox was sent and is in the archive, whoever else changed records meanwhile. */
  predicate LeavesCopies(before: Store, after: Store) {
    && (forall id | id in before.outbox :: id in after.outbox || (id in after.archive && SentBytes(after.archive[id])))
    && (forall id | id in before.archive :: id in after.archive && after.archive[id] == before.archive[id])
    && after.outbox.Keys <= before.outbox.Keys
  }

  lemma CopiesStay(a: Store, b: Store, c: Store)
    requires LeavesCopies(a, b) && Conserves(b, c)
    ensures LeavesCopies(a, c)
  {
    forall id | id in a.outbox ensures id in c.outbox || (id in c.archive && SentBytes(c.archive[id])) {
      if id in b.outbox { assert Kept(b, c, id); }
    }
  }

  ghost predicate Alone(changes: nat -> Option<Bytes>, fates: nat -> Fate) {
    forall i: nat :: changes(i).None? && fates(i).outside.None?
  }

  datatype Report = Finished(eligible: nat, archived: nat, skipped: nat) | Aborted | Stopped

  function CountSent(listing: seq<Id>, files: map<Id, Bytes>): nat {
    if listing == [] then 0
    else
      var last := listing[|listing| - 1];
      CountSent(listing[..|listing| - 1], files) + if last in files && SentBytes(files[last]) then 1 else 0
  }

  predicate Distinct(listing: seq<Id>) {
    forall i, j | 0 <= i < j < |listing| :: listing[i] != listing[j]
  }

  class Archiver {
    var outbox: map<Id, Bytes>
    var archive: map<Id, Bytes>

    ghost function Files(): Store
      reads this
    {
      Store(outbox, archive)
    }

    constructor (o: map<Id, Bytes>, a: map<Id, Bytes>)
      ensures outbox == o && archive == a
    {
      outbox, archive := o, a;
    }

    /** `_archiveSentRecord`, under the record's lock. */
    method ArchiveSentRecord(id: Id, fate: Fate) returns (out: Outcome)
      modifies this
      ensures Conserves(old(Files()), Files())
      ensures forall k | k in old(outbox) && k != id :: k in outbox && outbox[k] == old(outbox)[k]
      ensures out.Moved? ==> id in old(outbox) && SentBytes(old(outbox)[id]) && id !in old(archive)
                             && outbox == old(outbox) - {id} && archive == old(archive)[id := old(outbox)[id]]
      ensures out.NotSent? ==> Files() == old(Files()) && id in outbox && !SentBytes(outbox[id])
      ensures Smooth(fate) && id in old(outbox) && SentBytes(old(outbox)[id]) && id !in old(archive) ==> out.Moved?
      ensures id in old(outbox) && id !in outbox ==> out.Moved?
      ensures fate.outside.Some? && id in outbox && outbox[id] != old(outbox)[id] ==> outbox[id] == fate.outside.value
      ensures fate.outside.None? && id in outbox && id in old(outbox) ==> outbox[id] == old(outbox)[id]
    {
      if id !in outbox || !outbox[id].Whole? { return Failed; }
      var source := outbox[id];
      if !source.record.status.Sent? { return NotSent; }
      if id in archive { return Failed; }
      if fate.steps == 0 { return Crashed; }
      archive := archive[id := Damaged(0)];
      if fate.steps == 1 { return Crashed; }
      archive := archive[id := fate.spoilt.GetOr(source)];
      if fate.steps == 2 { return Crashed; }
      if archive[id] != source {
        archive := archive - {id};
        return Failed;
      }
      outbox := outbox[id := fate.outside.GetOr(source)];
      if outbox[id] != source { return Failed; }
      if fate.steps == 3 { return Crashed; }
      outbox := outbox - {id};
      return Moved;
    }

    /**
     `archiveSent` over the directory stream `listing`. `changes` is what someone else puts in
     the place of a record after it was scanned and before its lock is taken.
     */
    method ArchiveSent(listing: seq<Id>, dryRun: bool, changes: nat -> Option<Bytes>, fates: nat -> Fate)
        returns (report: Report)
      requires Distinct(listing) && forall i | 0 <= i < |listing| :: listing[i] in outbox
      modifies this
      ensures LeavesCopies(old(Files()), Files())
      ensures dryRun ==> Files() == old(Files())
      ensures report.Finished? ==> report.eligible + report.skipped == |listing|
      ensures report.Finished? ==> report.archived == if dryRun then 0 else report.eligible
      ensures Alone(changes, fates) ==> Conserves(old(Files()), Files())
      ensures Alone(changes, fates) && report.Finished? ==> report.eligible == CountSent(listing, old(outbox))
      ensures Alone(changes, fates) && report.Finished? && !dryRun ==> forall i | 0 <= i < |listing| ::
          listing[i] in outbox <==> !SentBytes(old(outbox)[listing[i]])
    {
      var eligible, archived, skipped := 0, 0, 0;
      var i := 0;
      while i < |listing|
        invariant 0 <= i <= |listing|
        invariant LeavesCopies(old(Files()), Files())
        invariant dryRun ==> Files() == old(Files())
        invariant eligible + skipped == i && archived == if dryRun then 0 else eligible
        invariant forall k | i <= k < |listing| :: listing[k] in outbox && outbox[listing[k]] == old(outbox)[listing[k]]
        invariant Alone(changes, fates) ==> Conserves(old(Files()), Files()) && eligible == CountSent(listing[..i],
                                                                      old(outbox))
        invariant Alone(changes, fates) && !dryRun ==> forall k | 0 <= k < i :: listing[k] in outbox <==>
            !SentBytes(old(outbox)[listing[k]])
      {
        var id := listing[i];
        assert listing[..i + 1][..i] == listing[..i];
        if !outbox[id].Whole? { return Aborted; }
        if !outbox[id].record.status.Sent? {
          skipped := skipped + 1;
        } else if dryRun {
          if id in archive { return Aborted; }
          eligible := eligible + 1;
        } else {
          var out := ArchiveNext(id, changes(i), fates(i), old(Files()));
          if out.Crashed? { return Stopped; }
          if out.Failed? { return Aborted; }
          if out.Moved? { eligible, archived := eligible + 1, archived + 1; } else { skipped := skipped + 1; }
        }
        i := i + 1;
      }
      assert listing[..i] == listing;
      return Finished(eligible, archived, skipped);
    }

    /** One eligible record, after what happened to it since the scan. */
    method ArchiveNext(id: Id, change: Option<Bytes>, fate: Fate, ghost start: Store) returns (out: Outcome)
      requires id in outbox && LeavesCopies(start, Files())
      modifies this
      ensures LeavesCopies(start, Files())
      ensures forall k | k in old(outbox) && k != id :: k in outbox && outbox[k] == old(outbox)[k]
      ensures change.None? && fate.outside.None? && Conserves(start, old(Files())) ==> Conserves(start, Files())
      ensures change.None? && SentBytes(old(outbox)[id]) ==> !out.NotSent?
      ensures out.Moved? ==> id !in outbox
      ensures outbox.Keys <= old(outbox).Keys
    {
      outbox := outbox[id := change.GetOr(outbox[id])];
      ghost var before := Files();
      assert change.None? ==> before == old(Files());
      out := ArchiveSentRecord(id, fate);
      CopiesStay(start, before, Files());
      if change.None? && Conserves(start, before) { ConservesOn(start, before, Files()); }
    }
  }
}
