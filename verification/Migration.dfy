/**
 Moving a legacy session store, whose record files are named by channel ids as they were
 spelled, into a canonical store named by their lower-case form. What a legacy store must
 look like, what the canonical store is, and that no channel is lost, merged or changed in
 meaning. SHA-256 is injective, so a hashed file name stands for the id it hashes.
 */
module Migration {

  import opened Options

  type Conv = nat
  type Relay = nat

  datatype Name = RecordFile(id: string) | LockFile(id: string) | StoreMarker | Other(n: nat)

  datatype Record = Record(owner: string, relay: Relay, cwd: nat, model: nat, channel: string, blocked: bool,
      conv: Option<Conv>)

  /** File contents: a record in its one canonical encoding, the store marker, or anything else. */
  datatype Text = Encoded(record: Record) | MarkerText(owner: string, relay: Relay) | Empty | Foreign(n: nat)

  /** `stamp` is what the file system reports of a file; `safe` is a private regular file with one link. */
  datatype File = File(stamp: nat, safe: bool, text: Text)

  type Dir = map<Name, File>

  // ---- Channel ids ----

  function LowerChar(c: char): char {
    if 'A' <= c <= 'Z' then c + 32 as char else c
  }

  function Lower(s: string): (t: string)
    ensures |t| == |s|
  {
    seq(|s|, i requires 0 <= i < |s| => LowerChar(s[i]))
  }

  predicate HexDigit(c: char) {
    '0' <= c <= '9' || 'a' <= c <= 'f' || 'A' <= c <= 'F'
  }

  predicate IsChannel(s: string) {
    |s| == 36 && forall i | 0 <= i < 36 :: if i == 8 || i == 13 || i == 18 || i == 23 then s[i] == '-'
        else HexDigit(s[i])
  }

  predicate IsOwner(s: string) {
    |s| == 64 && forall i | 0 <= i < 64 :: HexDigit(s[i])
  }

  lemma LowerIsCanonical(s: string)
    ensures Lower(Lower(s)) == Lower(s)
    ensures IsChannel(s) ==> IsChannel(Lower(s))
  {
  }

  // ---- A legacy store that can be migrated ----

  /** `sanitizeRecord`: a ready record names its conversation. */
  predicate ValidRecord(r: Record) {
    IsOwner(r.owner) && IsChannel(r.channel) && (!r.blocked ==> r.conv.Some?)
  }

  /** One entry of the legacy store: a record that belongs to its name and binding, or an empty lock. */
  predicate EntryFits(n: Name, f: File, owner: string, relay: Relay) {
    f.safe &&
    match n
    case RecordFile(id) =>
      f.text.Encoded? && ValidRecord(f.text.record) && f.text.record.channel == id
      && Lower(f.text.record.owner) == owner && f.text.record.relay == relay
    case LockFile(_) => f.text.Empty?
    case _ => false
  }

  ghost predicate Accepted(d: Dir, owner: string, relay: Relay) {
    && (forall n | n in d :: EntryFits(n, d[n], owner, relay))
    && (forall a, b | RecordFile(a) in d && RecordFile(b) in d && Lower(a) == Lower(b) :: a == b)
    && (exists a :: RecordFile(a) in d)
    && (forall a :: RecordFile(a) in d <==> LockFile(a) in d)
  }

  // ---- The canonical store ----

  function Normalized(r: Record, owner: string): Record {
    r.(owner := owner, channel := Lower(r.channel))
  }

  /** `out` holds, for every record of `d`, its canonical form under the canonical name, and no other record. */
  ghost predicate Translates(d: Dir, out: Dir, owner: string) {
    && (forall id | RecordFile(id) in d ::
          RecordFile(Lower(id)) in out && d[RecordFile(id)].text.Encoded?
          && out[RecordFile(Lower(id))].text == Encoded(Normalized(d[RecordFile(id)].text.record, owner)))
    && (forall n | n in out :: n == StoreMarker || exists id :: RecordFile(id) in d && n == RecordFile(Lower(id)))
  }

  /** A store a new adapter accepts: marked for this binding. */
  predicate Marked(out: Dir, owner: string, relay: Relay) {
    StoreMarker in out && out[StoreMarker].text == MarkerText(owner, relay)
  }

  /** What an adapter finds for a channel: the file of the canonical id. */
  function Stored(out: Dir, channel: string): Option<Record> {
    var n := RecordFile(Lower(channel));
    if n in out && out[n].text.Encoded? then Some(out[n].text.record) else None
  }

  /** The scope an adapter asks with, and `sameScope`. */
  predicate ScopeMatches(r: Record, owner: string, relay: Relay, cwd: nat, model: nat, channel: string) {
    r.owner == owner && r.relay == relay && r.cwd == cwd && r.model == model && r.channel == Lower(channel)
  }

  /** Every legacy record is found again under any spelling of its channel, with its status and conversation. */
  lemma NothingIsLost(d: Dir, out: Dir, owner: string, relay: Relay, id: string, spelled: string)
    requires Accepted(d, owner, relay) && Translates(d, out, owner) && RecordFile(id) in d
    requires Lower(spelled) == Lower(id)
    ensures d[RecordFile(id)].text.Encoded? && Stored(out, spelled).Some?
    ensures var r, s := d[RecordFile(id)].text.record, Stored(out, spelled).value;
            && s.blocked == r.blocked && s.conv == r.conv && ValidRecord(s)
            && ScopeMatches(s, owner, relay, r.cwd, r.model, spelled)
  {
    assert EntryFits(RecordFile(id), d[RecordFile(id)], owner, relay);
    var r := d[RecordFile(id)].text.record;
    LowerIsCanonical(r.channel);
    assert IsOwner(owner) by {
      forall i | 0 <= i < 64 ensures HexDigit(owner[i]) {
        assert owner[i] == LowerChar(r.owner[i]) && HexDigit(r.owner[i]);
      }
    }
  }

  /** And nothing else is found: a channel has a record exactly when one spelling of it had one, and only one did. */
  lemma NothingIsAdded(d: Dir, out: Dir, owner: string, relay: Relay, spelled: string) returns (id: string)
    requires Accepted(d, owner, relay) && Translates(d, out, owner) && Stored(out, spelled).Some?
    ensures RecordFile(id) in d && Lower(id) == Lower(spelled)
    ensures forall a | RecordFile(a) in d && Lower(a) == Lower(spelled) :: a == id
  {
    var n := RecordFile(Lower(spelled));
    assert n in out && n != StoreMarker;
    id :| RecordFile(id) in d && n == RecordFile(Lower(id));
  }

  // ---- Who accepts what ----

  datatype Initialised = Accepts(dir: Dir) | Refuses

  /** `initializeSessionStateStore`, for an existing or a missing directory. */
  function Initialise(dir: Option<Dir>, owner: string, relay: Relay): Initialised {
    var d := dir.GetOr(map[]);
    if StoreMarker in d then
      if d[StoreMarker].text == MarkerText(owner, relay) then Accepts(d) else Refuses
    else if d != map[] then Refuses
    else Accepts(map[StoreMarker := File(0, true, MarkerText(owner, relay))])
  }

  /** A published store is taken as it is under its own binding, and under no other. */
  lemma PublishedIsAccepted(out: Dir, owner: string, relay: Relay, owner': string, relay': Relay)
    requires Marked(out, owner, relay)
    ensures Initialise(Some(out), owner', relay') == if owner' == owner && relay' == relay then Accepts(out)
        else Refuses
  {
  }

  /** Before its marker is there, a stage that holds any record is refused. */
  lemma PartialStageIsRefused(stage: Dir, owner: string, relay: Relay, n: Name)
    requires StoreMarker !in stage && n in stage
    ensures Initialise(Some(stage), owner, relay) == Refuses
  {
    assert stage != map[];
  }
}
