/**
 The outbox as the object the server and the recovery command use: a directory of records,
 each operation under the lock of its record. What a write does is decided by a fate: it may
 take effect and still be reported as failed.
 */
module OutboxStore {

  import opened Options
  import opened Outbox
  import opened OutboxDelivery

  datatype RetryResult = Blocked | Delivered(report: Report)

  class DeliveryOutbox {
    var records: map<Id, Record>

    constructor ()
      ensures records == map[]
    {
      records := map[];
    }

    ghost predicate Valid()
      reads this
    {
      forall id | id in records :: Outbox.Valid(records[id]) && records[id].identity.id == id
    }

    /** `_writeAtomic`. */
    method WriteAtomic(r: Record, fate: Fate) returns (ok: bool)
      requires Possible(fate)
      modifies this
      ensures ok == fate.reported
      ensures records == if fate.applied then old(records)[r.identity.id := r] else old(records)
    {
      if fate.applied { records := records[r.identity.id := r]; }
      return fate.reported;
    }

    /** `begin`: a new record, never over an existing one. */
    method Begin(identity: Identity, now: nat, fate: Fate) returns (ok: bool)
      requires Valid() && Possible(fate)
      modifies this
      ensures Valid()
      ensures ok ==> identity.id !in old(records) && records == old(records)[identity.id := Record(identity, Inflight,
          None, now)]
      ensures !ok ==> records == old(records) || (identity.id !in old(records) && fate.applied)
      ensures forall id | id in old(records) :: id in records && records[id] == old(records)[id]
    {
      if identity.id in records { return false; }
      ok := WriteAtomic(Record(identity, Inflight, None, now), fate);
    }

    /** `update`: one permitted transition, or nothing. */
    method Update(id: Id, changes: Changes, now: nat, fate: Fate) returns (out: Option<Record>)
      requires Valid() && Possible(fate)
      modifies this
      ensures Valid()
      ensures records.Keys == old(records).Keys
      ensures forall k | k in old(records) && k != id :: records[k] == old(records)[k]
      ensures id in old(records) ==> Later(old(records)[id], records[id])
      ensures out.Some? <==>
              id in old(records) && NextRecord(old(records)[id], changes, false, now).Ok? && fate.reported
      ensures out.Some? ==>
                records[id] == out.value && NextRecord(old(records)[id], changes, false, now) == Ok(out.value)
      ensures id in old(records) && records[id] != old(records)[id] ==>
                fate.applied && NextRecord(old(records)[id], changes, false, now) == Ok(records[id])
    {
      if id !in records { return None; }
      var next := NextRecord(records[id], changes, false, now);
      if next.Err? { return None; }
      NextIsLater(records[id], changes, false, now);
      var ok := WriteAtomic(next.record, fate);
      return if ok then Some(next.record) else None;
    }

    /**
     `retry`: claim durably, publish once, record the outcome. `attempts` counts calls of the
     publisher; `told` is what the publisher reports if it is called.
     */
    method Retry(id: Id, told: Report, now: nat, claim: Fate, final: Fate) returns (out: RetryResult, attempts: nat)
      requires Valid() && Possible(claim) && Possible(final)
      modifies this
      ensures Valid()
      ensures records.Keys == old(records).Keys
      ensures forall k | k in old(records) && k != id :: records[k] == old(records)[k]
      ensures attempts == if id in old(records) && old(records)[id].status.FailedBeforeStart? && claim.reported
          then 1 else 0
      ensures id in old(records) ==> Later(old(records)[id], records[id])
      ensures out.Blocked? <==> attempts == 0
      ensures attempts == 0 && claim.reported ==> records == old(records)
      ensures attempts == 1 ==>
                records[id].status == if final.applied then ChangesOf(Normal(told)).status.value else Uncertain
      ensures out.Delivered? && out.report.SentAs? ==>
                records[id].status.Sent? && records[id].eventId == Some(out.report.event)
      ensures out.Delivered? && out.report.NotStarted? ==> records[id].status.FailedBeforeStart?
    {
      attempts := 0;
      if id !in records || !records[id].status.FailedBeforeStart? { return Blocked, 0; }
      var claimed := NextRecord(records[id], Changes(Some(Uncertain), None), false, now);
      NextIsLater(records[id], Changes(Some(Uncertain), None), false, now);
      var ok := WriteAtomic(claimed.record, claim);
      if !ok { return Blocked, 0; }
      attempts := 1;
      var report := Normal(told);
      var last := NextRecord(claimed.record, ChangesOf(report), true, now);
      NextIsLater(claimed.record, ChangesOf(report), true, now);
      ok := WriteAtomic(last.record, final);
      out := Delivered(if ok then report else Unknown);
    }

    /** `hasUnsettledDelivery`: a scan of the directory stream. */
    method HasUnsettledDelivery(listing: seq<Id>, channel: nat) returns (unsettled: bool)
      requires forall i | 0 <= i < |listing| :: listing[i] in records
      requires forall id | id in records :: id in listing
      ensures unsettled <==>
              exists id | id in records :: records[id].identity.channel == channel && !records[id].status.Sent?
    {
      unsettled := false;
      var i := 0;
      while i < |listing|
        invariant 0 <= i <= |listing|
        invariant unsettled <==> exists k | 0 <= k < i ::
            records[listing[k]].identity.channel == channel && !records[listing[k]].status.Sent?
      {
        if records[listing[i]].identity.channel == channel && !records[listing[i]].status.Sent? { unsettled := true; }
        i := i + 1;
      }
      if unsettled {
        var k :| 0 <= k < i && records[listing[k]].identity.channel == channel && !records[listing[k]].status.Sent?;
        assert listing[k] in records;
      } else {
        forall id | id in records ensures records[id].identity.channel != channel || records[id].status.Sent? {
          var k :| 0 <= k < |listing| && listing[k] == id;
        }
      }
    }
  }
}
