/**
 The migration as it runs: three looks at the legacy store, its locks held in between, a
 stage beside the destination whose marker is written last, and one rename. Others may hold
 locks, change the source between the looks, spoil the stage or put something at the
 destination, and the process may be cut off after any effect.
 */
module MigrationProcess {

  import opened Options
  import opened Migration

  /** What `readdir` and the reads after it find. */
  datatype Look = Look(dir: Dir, names: seq<Name>)

  predicate Lists(l: Look) {
    && (forall i, j | 0 <= i < j < |l.names| :: l.names[i] != l.names[j])
    && (forall n | n in l.dir :: n in l.names)
    && (forall i | 0 <= i < |l.names| :: l.names[i] in l.dir)
  }

  datatype Moving = Moving(source: string, target: string, record: Record)

  datatype Scan = Scan(names: seq<Name>, files: Dir, locks: seq<string>, records: seq<Moving>)

  // ---- The scan, specified ----

  function MovingOf(id: string, f: File, owner: string): seq<Moving> {
    if f.text.Encoded? then [Moving(id, Lower(id), Normalized(f.text.record, owner))] else []
  }

  function RecordsIn(d: Dir, names: seq<Name>, owner: string): seq<Moving>
    requires forall i | 0 <= i < |names| :: names[i] in d
  {
    if names == [] then []
    else
      var last := names[|names| - 1];
      RecordsIn(d, names[..|names| - 1], owner) + if last.RecordFile? then MovingOf(last.id, d[last], owner) else []
  }

  function LocksIn(names: seq<Name>): seq<string> {
    if names == [] then []
    else
      var last := names[|names| - 1];
      LocksIn(names[..|names| - 1]) + if last.LockFile? then [last.id] else []
  }

  predicate Targets(records: seq<Moving>, t: string) {
    exists i | 0 <= i < |records| :: records[i].target == t
  }

  predicate Sources(records: seq<Moving>, s: string) {
    exists i | 0 <= i < |records| :: records[i].source == s
  }

  predicate DistinctTargets(records: seq<Moving>) {
    forall i, j | 0 <= i < j < |records| :: records[i].target != records[j].target
  }

  predicate LocksMatch(locks: seq<string>, records: seq<Moving>) {
    && (forall i | 0 <= i < |locks| :: Sources(records, locks[i]))
    && (forall i | 0 <= i < |records| :: records[i].source in locks)
  }

  predicate FitsUpTo(l: Look, n: nat, owner: string, relay: Relay)
    requires Lists(l) && n <= |l.names|
  {
    forall i | 0 <= i < n :: EntryFits(l.names[i], l.dir[l.names[i]], owner, relay)
  }

  predicate FitsAll(l: Look, owner: string, relay: Relay)
    requires Lists(l)
  {
    FitsUpTo(l, |l.names|, owner, relay)
  }

  predicate Passes(l: Look, owner: string, relay: Relay)
    requires Lists(l)
  {
    var records := RecordsIn(l.dir, l.names, owner);
    FitsAll(l, owner, relay)
    && DistinctTargets(records) && records != [] && LocksMatch(LocksIn(l.names), records)
  }

  function ScanOf(l: Look, owner: string): Scan
    requires Lists(l)
  {
    Scan(l.names, l.dir, LocksIn(l.names), RecordsIn(l.dir, l.names, owner))
  }

  lemma {:induction false} RecordsAre(d: Dir, names: seq<Name>, owner: string, relay: Relay)
    requires forall i | 0 <= i < |names| :: names[i] in d && EntryFits(names[i], d[names[i]], owner, relay)
    ensures forall id | RecordFile(id) in names ::
              RecordFile(id) in d && d[RecordFile(id)].text.Encoded?
              && Moving(id, Lower(id), Normalized(d[RecordFile(id)].text.record, owner)) in RecordsIn(d, names, owner)
    ensures forall m | m in RecordsIn(d, names, owner) ::
              RecordFile(m.source) in names && RecordFile(m.source) in d && d[RecordFile(m.source)].text.Encoded?
              && m == Moving(m.source, Lower(m.source), Normalized(d[RecordFile(m.source)].text.record, owner))
    decreases |names|
  {
    if names != [] {
      var n := |names| - 1;
      RecordsAre(d, names[..n], owner, relay);
      assert names == names[..n] + [names[n]];
      assert EntryFits(names[n], d[names[n]], owner, relay);
    }
  }

  lemma {:induction false} LocksAre(names: seq<Name>)
    ensures forall id :: id in LocksIn(names) <==> LockFile(id) in names
    decreases |names|
  {
    if names != [] {
      LocksAre(names[..|names| - 1]);
      assert names == names[..|names| - 1] + [names[|names| - 1]];
    }
  }

  /** Distinct names give distinct targets exactly when no two of them differ only in spelling. */
  lemma {:induction false} TargetsDiffer(d: Dir, names: seq<Name>, owner: string, relay: Relay)
    requires forall i | 0 <= i < |names| :: names[i] in d && EntryFits(names[i], d[names[i]], owner, relay)
    requires forall i, j | 0 <= i < j < |names| :: names[i] != names[j]
    requires forall a, b | RecordFile(a) in names && RecordFile(b) in names && Lower(a) == Lower(b) :: a == b
    ensures DistinctTargets(RecordsIn(d, names, owner))
    decreases |names|
  {
    if names != [] {
      var n := |names| - 1;
      var front := names[..n];
      assert names == front + [names[n]];
      TargetsDiffer(d, front, owner, relay);
      RecordsAre(d, front, owner, relay);
      var records := RecordsIn(d, front, owner);
      if names[n].RecordFile? {
        forall i | 0 <= i < |records| ensures records[i].target != Lower(names[n].id) {
          assert records[i] in records;
          assert RecordFile(records[i].source) in front;
        }
      }
    }
  }

  /** The scan accepts exactly the stores that can be migrated. */
  lemma PassesIffAccepted(l: Look, owner: string, relay: Relay)
    requires Lists(l)
    ensures Passes(l, owner, relay) <==> Accepted(l.dir, owner, relay)
  {
    if FitsAll(l, owner, relay) {
      FitsEverywhere(l, owner, relay);
      if Accepted(l.dir, owner, relay) { AcceptedPasses(l, owner, relay); }
      if Passes(l, owner, relay) { PassesAccepted(l, owner, relay); }
    } else {
      var i :| 0 <= i < |l.names| && !EntryFits(l.names[i], l.dir[l.names[i]], owner, relay);
      assert l.names[i] in l.dir;
    }
  }

  lemma FitsEverywhere(l: Look, owner: string, relay: Relay)
    requires Lists(l) && FitsAll(l, owner, relay)
    ensures forall n | n in l.dir :: EntryFits(n, l.dir[n], owner, relay)
  {
    forall n | n in l.dir ensures EntryFits(n, l.dir[n], owner, relay) {
      var i :| 0 <= i < |l.names| && l.names[i] == n;
    }
  }

  lemma AcceptedPasses(l: Look, owner: string, relay: Relay)
    requires Lists(l) && Accepted(l.dir, owner, relay)
    ensures Passes(l, owner, relay)
  {
    var records := RecordsIn(l.dir, l.names, owner);
    RecordsAre(l.dir, l.names, owner, relay);
    LocksAre(l.names);
    TargetsDiffer(l.dir, l.names, owner, relay);
    var a :| RecordFile(a) in l.dir;
    assert RecordFile(a) in l.names;
    var locks := LocksIn(l.names);
    forall i | 0 <= i < |locks| ensures Sources(records, locks[i]) {
      assert locks[i] in locks;
      assert LockFile(locks[i]) in l.dir && RecordFile(locks[i]) in l.names;
      var m := Moving(locks[i], Lower(locks[i]), Normalized(l.dir[RecordFile(locks[i])].text.record, owner));
      var j :| 0 <= j < |records| && records[j] == m;
    }
    forall i | 0 <= i < |records| ensures records[i].source in locks {
      assert records[i] in records;
      assert LockFile(records[i].source) in l.dir;
    }
  }

  lemma RecordListed(l: Look, owner: string, relay: Relay, id: string) returns (i: nat)
    requires Lists(l) && FitsAll(l, owner, relay) && RecordFile(id) in l.dir
    ensures var records := RecordsIn(l.dir, l.names, owner);
            i < |records| && records[i].source == id && records[i].target == Lower(id)
  {
    var records := RecordsIn(l.dir, l.names, owner);
    RecordsAre(l.dir, l.names, owner, relay);
    assert RecordFile(id) in l.names;
    i :| 0 <= i < |records| && records[i] == Moving(id, Lower(id),
                                                    Normalized(l.dir[RecordFile(id)].text.record, owner));
  }

  lemma RecordIsThere(l: Look, owner: string, relay: Relay, i: nat)
    requires Lists(l) && FitsAll(l, owner, relay) && i < |RecordsIn(l.dir, l.names, owner)|
    ensures RecordFile(RecordsIn(l.dir, l.names, owner)[i].source) in l.dir
  {
    var records := RecordsIn(l.dir, l.names, owner);
    RecordsAre(l.dir, l.names, owner, relay);
    assert records[i] in records;
  }

  lemma NoTwoSpellings(l: Look, owner: string, relay: Relay, a: string, b: string)
    requires Lists(l) && Passes(l, owner, relay) && RecordFile(a) in l.dir && RecordFile(b) in l.dir
    requires Lower(a) == Lower(b)
    ensures a == b
  {
    var i := RecordListed(l, owner, relay, a);
    var j := RecordListed(l, owner, relay, b);
    assert i == j;
  }

  lemma LockForRecord(l: Look, owner: string, relay: Relay, a: string)
    requires Lists(l) && Passes(l, owner, relay)
    ensures RecordFile(a) in l.dir <==> LockFile(a) in l.dir
  {
    LocksAre(l.names);
    var locks := LocksIn(l.names);
    if RecordFile(a) in l.dir {
      var i := RecordListed(l, owner, relay, a);
      assert a in locks;
    }
    if LockFile(a) in l.dir {
      assert a in locks;
      var i :| 0 <= i < |locks| && locks[i] == a;
      var records := RecordsIn(l.dir, l.names, owner);
      var j :| 0 <= j < |records| && records[j].source == a;
      RecordIsThere(l, owner, relay, j);
    }
  }

  lemma PassesAccepted(l: Look, owner: string, relay: Relay)
    requires Lists(l) && Passes(l, owner, relay)
    ensures Accepted(l.dir, owner, relay)
  {
    FitsEverywhere(l, owner, relay);
    forall a, b | RecordFile(a) in l.dir && RecordFile(b) in l.dir && Lower(a) == Lower(b) ensures a == b {
      NoTwoSpellings(l, owner, relay, a, b);
    }
    RecordIsThere(l, owner, relay, 0);
    forall a ensures RecordFile(a) in l.dir <==> LockFile(a) in l.dir { LockForRecord(l, owner, relay, a); }
  }

  // ---- The scan as a loop ----

  /** One more name of the listing, when its entry fits. */
  lemma OneMoreName(l: Look, i: nat, owner: string)
    requires Lists(l) && i < |l.names|
    ensures var n := l.names[i];
            && RecordsIn(l.dir, l.names[..i + 1], owner) ==
               RecordsIn(l.dir, l.names[..i], owner) + (if n.RecordFile? then MovingOf(n.id, l.dir[n], owner) else [])
            && LocksIn(l.names[..i + 1]) == LocksIn(l.names[..i]) + if n.LockFile? then [n.id] else []
  {
    assert l.names[..i + 1][..i] == l.names[..i];
  }

  method ScanLegacyStore(l: Look, owner: string, relay: Relay) returns (out: Option<Scan>)
    requires Lists(l)
    ensures out.Some? <==> Accepted(l.dir, owner, relay)
    ensures out.Some? ==> out.value == ScanOf(l, owner)
  {
    out := ScanNames(l, owner, relay);
    PassesIffAccepted(l, owner, relay);
  }

  method ScanNames(l: Look, owner: string, relay: Relay) returns (out: Option<Scan>)
    requires Lists(l)
    ensures out.Some? <==> Passes(l, owner, relay)
    ensures out.Some? ==> out.value == ScanOf(l, owner)
  {
    var records: seq<Moving> := [];
    var locks: seq<string> := [];
    var i := 0;
    while i < |l.names|
      invariant 0 <= i <= |l.names|
      invariant records == RecordsIn(l.dir, l.names[..i], owner) && locks == LocksIn(l.names[..i])
      invariant FitsUpTo(l, i, owner, relay) && DistinctTargets(records)
    {
      var n := l.names[i];
      OneMoreName(l, i, owner);
      if !EntryFits(n, l.dir[n], owner, relay) { return None; }
      if n.LockFile? {
        locks := locks + [n.id];
      } else {
        var m := Moving(n.id, Lower(n.id), Normalized(l.dir[n].text.record, owner));
        if Targets(records, m.target) {
          CollisionStays(l, i, m, owner);
          return None;
        }
        DistinctGrows(records, m);
        records := records + [m];
      }
      i := i + 1;
    }
    assert l.names[..i] == l.names;
    if records == [] || !LocksMatch(locks, records) { return None; }
    return Some(Scan(l.names, l.dir, locks, records));
  }

  lemma DistinctGrows(records: seq<Moving>, m: Moving)
    requires DistinctTargets(records) && !Targets(records, m.target)
    ensures DistinctTargets(records + [m])
  {
  }

  lemma {:induction false} RecordsGrow(d: Dir, names: seq<Name>, i: nat, owner: string)
    requires i <= |names| && forall k | 0 <= k < |names| :: names[k] in d
    ensures RecordsIn(d, names[..i], owner) <= RecordsIn(d, names, owner)
    decreases |names|
  {
    if i < |names| {
      RecordsGrow(d, names[..|names| - 1], i, owner);
      assert names[..|names| - 1][..i] == names[..i];
    } else {
      assert names[..i] == names;
    }
  }

  /** A target met twice stays met twice. */
  lemma CollisionStays(l: Look, i: nat, m: Moving, owner: string)
    requires Lists(l) && i < |l.names| && l.names[i].RecordFile?
    requires MovingOf(l.names[i].id, l.dir[l.names[i]], owner) == [m]
    requires Targets(RecordsIn(l.dir, l.names[..i], owner), m.target)
    ensures !DistinctTargets(RecordsIn(l.dir, l.names, owner))
  {
    OneMoreName(l, i, owner);
    RecordsGrow(l.dir, l.names, i + 1, owner);
    var before := RecordsIn(l.dir, l.names[..i], owner);
    var records := RecordsIn(l.dir, l.names, owner);
    var j :| 0 <= j < |before| && before[j].target == m.target;
    assert (before + [m])[j] == before[j] && (before + [m])[|before|] == m;
    assert records[j].target == records[|before|].target;
  }

  /** The source sorts both listings before it compares them, so their order does not count. */
  predicate SameNames(a: seq<Name>, b: seq<Name>) {
    |a| == |b| && (forall i | 0 <= i < |a| :: a[i] in b) && (forall i | 0 <= i < |b| :: b[i] in a)
  }

  predicate SameScan(a: Scan, b: Scan) {
    SameNames(a.names, b.names) &&
    forall i | 0 <= i < |a.names| :: var n := a.names[i];
      n in a.files && n in b.files && a.files[n].stamp == b.files[n].stamp && a.files[n].text == b.files[n].text
  }

  predicate AllSafe(d: Dir) {
    forall n | n in d :: d[n].safe
  }

  lemma AcceptedIsSafe(d: Dir, owner: string, relay: Relay)
    requires Accepted(d, owner, relay)
    ensures AllSafe(d)
  {
    forall n | n in d ensures d[n].safe { assert EntryFits(n, d[n], owner, relay); }
  }

  /** Two scans that agree saw the same store. */
  lemma SameScanSameStore(k: Look, l: Look, a: Scan, b: Scan)
    requires Lists(k) && Lists(l) && AllSafe(k.dir) && AllSafe(l.dir)
    requires a.names == k.names && a.files == k.dir && b.names == l.names && b.files == l.dir
    ensures SameScan(a, b) <==> k.dir == l.dir
  {
    if SameScan(a, b) {
      forall n | n in k.dir ensures n in l.dir && k.dir[n] == l.dir[n] {
        var i :| 0 <= i < |k.names| && k.names[i] == n;
        assert a.names[i] == n;
      }
      forall n | n in l.dir ensures n in k.dir {
        var i :| 0 <= i < |l.names| && l.names[i] == n;
        assert b.names[i] in a.names;
      }
      assert k.dir == l.dir;
    }
    if k.dir == l.dir {
      ListingLength(k);
      ListingLength(l);
    }
  }

  /** A listing is as long as the directory has entries. */
  lemma ListingLength(l: Look)
    requires Lists(l)
    ensures |l.names| == |l.dir|
  {
    PrefixLength(l.names, |l.names|);
    assert (set i | 0 <= i < |l.names| :: l.names[i]) == l.dir.Keys;
    assert |l.dir.Keys| == |l.dir|;
  }

  lemma {:induction false} PrefixLength(names: seq<Name>, n: nat)
    requires n <= |names| && forall i, j | 0 <= i < j < |names| :: names[i] != names[j]
    ensures |set i | 0 <= i < n :: names[i]| == n
  {
    if n > 0 {
      PrefixLength(names, n - 1);
      assert (set i | 0 <= i < n :: names[i]) == (set i | 0 <= i < n - 1 :: names[i]) + {names[n - 1]};
    }
  }

  // ---- The stage ----

  /** The stage holds these records in their canonical form, and nothing but a marker beside them. */
  predicate Holds(d: Dir, records: seq<Moving>) {
    && (forall i | 0 <= i < |records| ::
          RecordFile(records[i].target) in d && d[RecordFile(records[i].target)].text == Encoded(records[i].record))
    && (forall n | n in d :: n == StoreMarker || (n.RecordFile? && Targets(records, n.id)))
  }

  lemma HoldsOne(l: Look, d: Dir, owner: string, relay: Relay, records: seq<Moving>, id: string)
    requires Lists(l) && FitsAll(l, owner, relay) && records == RecordsIn(l.dir, l.names, owner) && Holds(d, records)
    requires RecordFile(id) in l.dir
    ensures RecordFile(Lower(id)) in d && l.dir[RecordFile(id)].text.Encoded?
    ensures d[RecordFile(Lower(id))].text == Encoded(Normalized(l.dir[RecordFile(id)].text.record, owner))
  {
    RecordsAre(l.dir, l.names, owner, relay);
    assert RecordFile(id) in l.names;
    var m := Moving(id, Lower(id), Normalized(l.dir[RecordFile(id)].text.record, owner));
    var i :| 0 <= i < |records| && records[i] == m;
  }

  lemma HoldsOnly(l: Look, d: Dir, owner: string, relay: Relay, records: seq<Moving>, n: Name)
    requires Lists(l) && FitsAll(l, owner, relay) && records == RecordsIn(l.dir, l.names, owner) && Holds(d, records)
    requires n in d && n != StoreMarker
    ensures exists id :: RecordFile(id) in l.dir && n == RecordFile(Lower(id))
  {
    RecordsAre(l.dir, l.names, owner, relay);
    var i :| 0 <= i < |records| && records[i].target == n.id;
    assert records[i] in records;
    assert RecordFile(records[i].source) in l.dir && n == RecordFile(Lower(records[i].source));
  }

  lemma AcceptedFits(l: Look, owner: string, relay: Relay)
    requires Lists(l) && Accepted(l.dir, owner, relay)
    ensures FitsAll(l, owner, relay)
  {
    forall i | 0 <= i < |l.names| ensures EntryFits(l.names[i], l.dir[l.names[i]], owner, relay) {
      assert l.names[i] in l.dir;
    }
  }

  lemma HoldsTranslates(l: Look, d: Dir, owner: string, relay: Relay)
    requires Lists(l) && FitsAll(l, owner, relay) && Holds(d, RecordsIn(l.dir, l.names, owner))
    ensures Translates(l.dir, d, owner)
  {
    var records := RecordsIn(l.dir, l.names, owner);
    forall id | RecordFile(id) in l.dir
      ensures RecordFile(Lower(id)) in d && l.dir[RecordFile(id)].text.Encoded?
      ensures d[RecordFile(Lower(id))].text == Encoded(Normalized(l.dir[RecordFile(id)].text.record, owner))
    {
      HoldsOne(l, d, owner, relay, records, id);
    }
    forall n | n in d ensures n == StoreMarker || exists id :: RecordFile(id) in l.dir && n == RecordFile(Lower(id)) {
      if n != StoreMarker { HoldsOnly(l, d, owner, relay, records, n); }
    }
  }

  // ---- The migration ----

  function CountBlocked(records: seq<Moving>): nat {
    if records == [] then 0
    else CountBlocked(records[..|records| - 1]) + if records[|records| - 1].record.blocked then 1 else 0
  }

  datatype Built = Complete | Broken | CutOff

  datatype Outcome = Published(records: nat, blocked: nat) | Validated(records: nat, blocked: nat) | Failed | Stopped

  /**
   What others do: the three looks they let this process have, the locks they hold, whether
   something is at the destination by each of the two later checks, and what they turn the
   finished stage into. `steps` is the number of files of the stage, its marker included,
   that are written before the process is cut off; with one more to go it is not.
   */
  datatype Others = Others(
    first: Look,
    second: Look,
    third: Look,
    busy: set<string>,
    busyStore: bool,
    appears: bool,
    appearsLate: bool,
    spoilt: Option<Dir>,
    steps: nat)

  predicate Sighted(o: Others) {
    Lists(o.first) && Lists(o.second) && Lists(o.third)
  }

  /** All three looks see the same store. */
  predicate Unchanged(o: Others) {
    o.first.dir == o.second.dir == o.third.dir
  }

  /** Nobody interferes and the store is one that can be migrated. */
  ghost predicate Undisturbed(o: Others, owner: string, relay: Relay) {
    && Accepted(o.first.dir, owner, relay) && Unchanged(o)
    && o.busy == {} && !o.busyStore && !o.appears && !o.appearsLate && o.spoilt.None?
  }

  /** What an undisturbed run comes to: it publishes exactly when it is not cut off, and a dry run validates. */
  predicate GoesThrough(out: Outcome, apply: bool, inTime: bool) {
    if !apply then out.Validated? else if inTime then out.Published? else out.Stopped?
  }

  /** The canonical store of what this look found, with the marker of this binding. */
  ghost predicate CompleteStage(l: Look, d: Dir, owner: string, relay: Relay) {
    Translates(l.dir, d, owner) && Marked(d, owner, relay)
  }

  /** What each outcome says of the store, of the destination and of what is left beside it. */
  ghost predicate Honest(out: Outcome, o: Others, apply: bool, owner: string, relay: Relay, destination: Option<Dir>,
                         stage: Option<Dir>)
    requires Sighted(o)
  {
    var records := RecordsIn(o.second.dir, o.second.names, owner);
    && (out.Published? || out.Validated? ==>
          && Accepted(o.first.dir, owner, relay) && Unchanged(o) && apply == out.Published?
          && out.records == |records| && out.blocked == CountBlocked(records))
    && (out.Published? ==> destination.Some? && stage.None? && CompleteStage(o.first, destination.value, owner, relay))
    && (out.Stopped? ==>
          stage.Some? && (StoreMarker !in stage.value || CompleteStage(o.first, stage.value, owner, relay)))
    && (!apply ==> stage.None? && !out.Stopped?)
  }

  class Migrator {
    const owner: string
    const relay: Relay
    var destination: Option<Dir>
    var stage: Option<Dir>
    var held: set<string>
    var heldStore: bool

    constructor (o: string, r: Relay, existing: Option<Dir>)
      ensures owner == o && relay == r && destination == existing && stage == None && held == {} && !heldStore
    {
      owner, relay, destination, stage, held, heldStore := o, r, existing, None, {}, false;
    }

    /** `acquireSourceLocks`: all of them or none. */
    method AcquireSourceLocks(locks: seq<string>, busy: set<string>) returns (ok: bool)
      requires held == {}
      modifies this`held
      ensures ok <==> forall i | 0 <= i < |locks| :: locks[i] !in busy
      ensures held == if ok then set i | 0 <= i < |locks| :: locks[i] else {}
    {
      var i := 0;
      while i < |locks|
        invariant 0 <= i <= |locks|
        invariant held == set k | 0 <= k < i :: locks[k]
        invariant forall k | 0 <= k < i :: locks[k] !in busy
      {
        if locks[i] in busy {
          held := {};
          return false;
        }
        held := held + {locks[i]};
        i := i + 1;
      }
      return true;
    }

    /** `buildStage`: the records first, the marker last, and then everything is read again. */
    method BuildStage(records: seq<Moving>, steps: nat, spoilt: Option<Dir>) returns (out: Built)
      requires stage.None? && DistinctTargets(records)
      modifies this`stage
      ensures stage.Some?
      ensures out.Complete? ==> Holds(stage.value, records) && Marked(stage.value, owner, relay)
      ensures out.CutOff? <==> steps <= |records|
      ensures out.CutOff? ==> StoreMarker !in stage.value
      ensures spoilt.None? && steps > |records| ==> out.Complete?
    {
      var d: Dir := map[];
      var i := 0;
      while i < |records|
        invariant 0 <= i <= |records| && i <= steps
        invariant Holds(d, records[..i]) && StoreMarker !in d
      {
        if i == steps {
          stage := Some(d);
          return CutOff;
        }
        var next := d[RecordFile(records[i].target) := File(0, true, Encoded(records[i].record))];
        StageGrows(d, records, i, next);
        d := next;
        i := i + 1;
      }
      assert records[..i] == records;
      if i == steps {
        stage := Some(d);
        return CutOff;
      }
      stage := Some(spoilt.GetOr(d[StoreMarker := File(0, true, MarkerText(owner, relay))]));
      var ok := VerifyStage(records);
      return if ok then Complete else Broken;
    }

    /** The first scan, and the locks it found. */
    method LockSource(look: Look, busy: set<string>) returns (scan: Option<Scan>)
      requires Lists(look) && held == {}
      modifies this`held
      ensures scan.Some? ==> Accepted(look.dir, owner, relay) && scan.value == ScanOf(look, owner)
      ensures scan.None? ==> held == {}
      ensures Accepted(look.dir, owner, relay) && busy == {} ==> scan.Some?
    {
      scan := ScanLegacyStore(look, owner, relay);
      if scan.None? { return; }
      var ok := AcquireSourceLocks(scan.value.locks, busy);
      if !ok { return None; }
    }

    /** `migrateLegacySessionState`. */
    method Migrate(o: Others, apply: bool) returns (out: Outcome)
      requires Sighted(o) && stage.None? && held == {} && !heldStore
      modifies this
      ensures Honest(out, o, apply, owner, relay, destination, stage)
      ensures if out.Published? then old(destination).None? else destination == old(destination)
      ensures !out.Stopped? ==> held == {} && !heldStore
      ensures Undisturbed(o, owner, relay) && old(destination).None? ==>
                GoesThrough(out, apply, o.steps > |RecordsIn(o.second.dir, o.second.names, owner)| + 1)
    {
      out := Failed;
      if destination.Some? { return; }
      out := MigrateAbsent(o, apply);
      if !out.Stopped? { ReleaseLocks(); }
    }

    method TakeStoreLock()
      modifies this`heldStore
      ensures heldStore
    {
      heldStore := true;
    }

    method ReleaseLocks()
      modifies this`held, this`heldStore
      ensures held == {} && !heldStore
    {
      held, heldStore := {}, false;
    }

    /** The destination is absent. */
    method MigrateAbsent(o: Others, apply: bool) returns (out: Outcome)
      requires Sighted(o) && stage.None? && destination.None? && held == {} && !heldStore
      modifies this
      ensures Honest(out, o, apply, owner, relay, destination, stage)
      ensures !out.Published? ==> destination.None?
      ensures Undisturbed(o, owner, relay) ==>
                GoesThrough(out, apply, o.steps > |RecordsIn(o.second.dir, o.second.names, owner)| + 1)
    {
      var scan := LockSource(o.first, o.busy);
      if scan.None? { return Failed; }
      out := MigrateLocked(scan.value, o, apply);
    }

    /** The part under the source locks. */
    method MigrateLocked(first: Scan, o: Others, apply: bool) returns (out: Outcome)
      requires Sighted(o) && stage.None? && destination.None? && Accepted(o.first.dir, owner, relay)
          && first == ScanOf(o.first, owner)
      modifies this`destination, this`stage, this`heldStore
      ensures Honest(out, o, apply, owner, relay, destination, stage)
      ensures !out.Published? ==> destination.None?
      ensures Undisturbed(o, owner, relay) ==>
                GoesThrough(out, apply, o.steps > |RecordsIn(o.second.dir, o.second.names, owner)| + 1)
    {
      var confirmed := LookAgain(first, o.first, o.second);
      if confirmed.None? || o.busyStore { return Failed; }
      var scan := confirmed.value;
      TakeStoreLock();
      if o.appears { return Failed; }
      if apply {
        out := PublishConfirmed(scan, o);
      } else {
        var last := LookAgain(scan, o.second, o.third);
        out := if last.Some? then Validated(|scan.records|, CountBlocked(scan.records)) else Failed;
      }
    }

    /** The stage for what a look found. */
    method BuildFor(scan: Scan, l: Look, steps: nat, spoilt: Option<Dir>) returns (built: Built)
      requires Lists(l) && Accepted(l.dir, owner, relay) && scan == ScanOf(l, owner) && stage.None?
      modifies this`stage
      ensures stage.Some? && (built.CutOff? <==> steps <= |scan.records|)
      ensures built.Complete? ==> CompleteStage(l, stage.value, owner, relay)
      ensures built.CutOff? ==> StoreMarker !in stage.value
      ensures spoilt.None? && steps > |scan.records| ==> built.Complete?
    {
      ScannedTargetsDiffer(l, owner, relay);
      built := BuildStage(scan.records, steps, spoilt);
      if built.Complete? {
        AcceptedFits(l, owner, relay);
        HoldsTranslates(l, stage.value, owner, relay);
      }
    }

    /** The stage of the confirmed scan, one more look, and the rename. */
    method PublishConfirmed(scan: Scan, o: Others) returns (out: Outcome)
      requires Sighted(o) && stage.None? && destination.None? && Accepted(o.second.dir, owner, relay)
          && scan == ScanOf(o.second, owner)
      modifies this`destination, this`stage
      ensures !out.Validated? && (!out.Published? ==> destination.None?)
      ensures out.Published? ==>
                o.third.dir == o.second.dir && out == Published(|scan.records|, CountBlocked(scan.records))
      ensures out.Published? ==>
                destination.Some? && stage.None? && CompleteStage(o.second, destination.value, owner, relay)
      ensures out.Stopped? ==>
                stage.Some? && (StoreMarker !in stage.value || CompleteStage(o.second, stage.value, owner, relay))
      ensures o.third.dir == o.second.dir && !o.appearsLate && o.spoilt.None? ==>
                GoesThrough(out, true, o.steps > |scan.records| + 1)
    {
      var built := BuildFor(scan, o.second, o.steps, o.spoilt);
      if built.CutOff? { return Stopped; }
      if built.Broken? { return Failed; }
      if o.steps == |scan.records| + 1 { return Stopped; }
      var last := LookAgain(scan, o.second, o.third);
      if last.None? || o.appearsLate { return Failed; }
      destination, stage := stage, None;
      return Published(|scan.records|, CountBlocked(scan.records));
    }

    /** Another scan, compared with the one before. */
    method LookAgain(scan: Scan, before: Look, now: Look) returns (again: Option<Scan>)
      requires Lists(before) && Lists(now) && Accepted(before.dir, owner, relay) && scan == ScanOf(before, owner)
      ensures again.Some? <==> now.dir == before.dir
      ensures again.Some? ==> again.value == ScanOf(now, owner)
    {
      again := ScanLegacyStore(now, owner, relay);
      if again.None? { return None; }
      AcceptedIsSafe(before.dir, owner, relay);
      AcceptedIsSafe(now.dir, owner, relay);
      SameScanSameStore(before, now, scan, again.value);
      if !SameScan(scan, again.value) { return None; }
    }

    /** `verifyStage`: exactly the records and the marker, byte for byte. */
    method VerifyStage(records: seq<Moving>) returns (ok: bool)
      requires stage.Some?
      ensures ok <==> Holds(stage.value, records) && Marked(stage.value, owner, relay)
    {
      var d := stage.value;
      if !Marked(d, owner, relay) { return false; }
      if exists n | n in d :: !(n == StoreMarker || (n.RecordFile? && Targets(records, n.id))) { return false; }
      var i := 0;
      while i < |records|
        invariant 0 <= i <= |records|
        invariant forall k | 0 <= k < i ::
          RecordFile(records[k].target) in d && d[RecordFile(records[k].target)].text == Encoded(records[k].record)
      {
        var n := RecordFile(records[i].target);
        if n !in d || d[n].text != Encoded(records[i].record) { return false; }
        i := i + 1;
      }
      return true;
    }
  }

  lemma ScannedTargetsDiffer(l: Look, owner: string, relay: Relay)
    requires Lists(l) && Accepted(l.dir, owner, relay)
    ensures DistinctTargets(RecordsIn(l.dir, l.names, owner))
  {
    AcceptedFits(l, owner, relay);
    TargetsDiffer(l.dir, l.names, owner, relay);
  }

  lemma StageGrows(d: Dir, records: seq<Moving>, i: nat, next: Dir)
    requires i < |records| && DistinctTargets(records) && Holds(d, records[..i])
    requires next == d[RecordFile(records[i].target) := File(0, true, Encoded(records[i].record))]
    ensures Holds(next, records[..i + 1])
  {
    var seen := records[..i + 1];
    assert seen[..i] == records[..i];
    forall k | 0 <= k < |seen| ensures RecordFile(seen[k].target) in next
        && next[RecordFile(seen[k].target)].text == Encoded(seen[k].record) {
      if k < i { assert records[..i][k] == records[k]; }
    }
    forall n | n in next ensures n == StoreMarker || (n.RecordFile? && Targets(seen, n.id)) {
      if n == RecordFile(records[i].target) {
        assert seen[i].target == n.id;
      } else if n != StoreMarker {
        var k :| 0 <= k < i && records[..i][k].target == n.id;
        assert seen[k].target == n.id;
      }
    }
  }
}
