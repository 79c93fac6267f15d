/**
 The durable session state as the object an adapter holds: the channel locks it owns, over a
 directory shared with other adapters. Every operation takes the channel lock first, reads
 the one file of the channel, and makes at most one atomic replacement or removal, which may
 take effect and still be reported as failed.
 */
module SessionState {

  import opened Options
  import opened AcpServer
  import opened SessionRecord

  type Channel = nat
  type Pid = nat

  datatype Scope = Scope(owner: nat, relay: nat, cwd: nat, model: nat, channel: Channel)

  /** A file that parses as a record, or one that does not. */
  datatype Content = Corrupt | Saved(scope: Scope, blocked: bool, id: Option<Conv>)

  /** `sanitizeRecord`: a ready record names its conversation. */
  predicate Sane(c: Content) {
    c.Saved? && (c.blocked || c.id.Some?)
  }

  datatype Code = Busy | Corrupted | ScopeMismatch | StateBlocked | NotBlocked | Unconfirmed | WriteFailed

  datatype Outcome = Fine(id: Option<Conv>) | Nothing | Error(code: Code)

  /** What a load returns of a record it could read. */
  function Loaded(r: Record): Outcome {
    match r
    case Absent => Nothing
    case Ready(id) => Fine(Some(id))
    case Blocked(_) => Error(StateBlocked)
  }

  datatype Fate = Fate(applied: bool, reported: bool)

  predicate Possible(f: Fate) {
    f.reported ==> f.applied
  }

  /** The record a sane file stands for. */
  function RecordOf(c: Content): Record
    requires Sane(c)
  {
    if c.blocked then Blocked(c.id) else Ready(c.id.value)
  }

  class Directory {
    var files: map<Channel, Content>
    var holders: map<Channel, Pid>

    constructor (f: map<Channel, Content>)
      ensures files == f && holders == map[]
    {
      files, holders := f, map[];
    }

    /** What the channel's file says, when it is absent or belongs to this scope. */
    ghost function Durable(s: Scope): Record
      reads this
    {
      if s.channel in files && Sane(files[s.channel]) then RecordOf(files[s.channel]) else Absent
    }

    predicate Readable(s: Scope)
      reads this
    {
      s.channel in files ==> Sane(files[s.channel]) && files[s.channel].scope == s
    }

    /** Nothing but the file of channel `c` has changed. */
    ghost predicate SameElsewhere(before: map<Channel, Content>, c: Channel)
      reads this
    {
      forall k | k != c :: (k in files <==> k in before) && (k in files ==> files[k] == before[k])
    }

    method Replace(c: Channel, content: Content, fate: Fate) returns (ok: bool)
      requires Possible(fate)
      modifies this`files
      ensures ok == fate.reported && files == if fate.applied then old(files)[c := content] else old(files)
    {
      if fate.applied { files := files[c := content]; }
      return fate.reported;
    }
  }

  class SessionState {
    const dir: Directory
    const pid: Pid
    var ownedChannels: set<Channel>

    ghost predicate Valid()
      reads this, dir
    {
      forall c | c in ownedChannels :: c in dir.holders && dir.holders[c] == pid
    }

    constructor (d: Directory, p: Pid)
      ensures Valid() && dir == d && pid == p && ownedChannels == {}
    {
      dir, pid, ownedChannels := d, p, {};
    }

    /** The lock of the channel can be had: it is held already, or by nobody. */
    ghost predicate Free(c: Channel)
      reads this, dir
    {
      c in ownedChannels || c !in dir.holders
    }

    /** `ensureOwnership`: the lock is exclusive, and kept. */
    method EnsureOwnership(c: Channel) returns (ok: bool)
      requires Valid()
      modifies this, dir`holders
      ensures Valid() && dir.files == old(dir.files)
      ensures ok <==> old(Free(c))
      ensures ok ==> c in ownedChannels
      ensures !ok ==> ownedChannels == old(ownedChannels) && dir.holders == old(dir.holders)
      ensures forall k | k in old(dir.holders) :: k in dir.holders && dir.holders[k] == old(dir.holders)[k]
    {
      if c in ownedChannels { return true; }
      if c in dir.holders { return false; }
      dir.holders := dir.holders[c := pid];
      ownedChannels := ownedChannels + {c};
      return true;
    }

    /** `releaseOwnership`: the map entry goes only once the release succeeded. */
    method ReleaseOwnership(c: Channel, works: bool) returns (released: bool)
      requires Valid()
      modifies this, dir`holders
      ensures Valid() && dir.files == old(dir.files)
      ensures released <==> c in old(ownedChannels) && works
      ensures released ==> c !in ownedChannels && c !in dir.holders
      ensures !released ==> ownedChannels == old(ownedChannels) && dir.holders == old(dir.holders)
    {
      if c !in ownedChannels || !works { return false; }
      dir.holders := dir.holders - {c};
      ownedChannels := ownedChannels - {c};
      return true;
    }

    /** What every operation checks before it acts: the lock, the file, the scope. */
    method Open(s: Scope) returns (error: Option<Code>)
      requires Valid()
      modifies this, dir`holders
      ensures Valid() && dir.files == old(dir.files)
      ensures error.None? <==> old(Free(s.channel)) && dir.Readable(s)
      ensures error.None? ==> s.channel in ownedChannels
      ensures error.Some? ==> error.value.Busy? || error.value.Corrupted? || error.value.ScopeMismatch?
    {
      var owns := EnsureOwnership(s.channel);
      if !owns { return Some(Busy); }
      if s.channel !in dir.files { return None; }
      if !Sane(dir.files[s.channel]) { return Some(Corrupted); }
      if dir.files[s.channel].scope != s { return Some(ScopeMismatch); }
      return None;
    }

    /** `load`: a ready record, nothing, or a refusal; a blocked record is never handed out. */
    method Load(s: Scope) returns (out: Outcome)
      requires Valid()
      modifies this, dir`holders
      ensures Valid() && dir.files == old(dir.files)
      ensures out.Fine? ==> out.id.Some? && dir.Durable(s) == Ready(out.id.value)
      ensures out.Nothing? ==> dir.Durable(s) == Absent
      ensures out == Error(StateBlocked) ==> dir.Durable(s).Blocked?
      ensures old(Free(s.channel)) && dir.Readable(s) ==> out == Loaded(dir.Durable(s))
    {
      var error := Open(s);
      if error.Some? { return Error(error.value); }
      if s.channel !in dir.files { return Nothing; }
      var current := dir.files[s.channel];
      return if current.blocked then Error(StateBlocked) else Fine(current.id);
    }

    /** `invalidate`: block the record, keeping its conversation. */
    method Invalidate(s: Scope, fate: Fate) returns (out: Outcome)
      requires Valid() && Possible(fate)
      modifies this, dir
      ensures Valid() && dir.SameElsewhere(old(dir.files), s.channel)
      ensures out.Fine? <==> old(Free(s.channel) && dir.Readable(s)) && fate.reported
      ensures out.Fine? ==> dir.Readable(s) && dir.Durable(s) == SessionRecord.Invalidate(old(dir.Durable(s)))
      ensures dir.Durable(s) == old(dir.Durable(s)) || dir.Durable(s) == SessionRecord.Invalidate(old(dir.Durable(s)))
    {
      var error := Open(s);
      if error.Some? { return Error(error.value); }
      var id := if s.channel in dir.files then dir.files[s.channel].id else None;
      var ok := dir.Replace(s.channel, Saved(s, true, id), fate);
      return if ok then Fine(id) else Error(WriteFailed);
    }

    /** `stageCheckpoint`: only a blocked record learns the conversation of its turn, and it stays blocked. */
    method StageCheckpoint(s: Scope, conv: Conv, fate: Fate) returns (out: Outcome)
      requires Valid() && Possible(fate)
      modifies this, dir
      ensures Valid() && dir.SameElsewhere(old(dir.files), s.channel)
      ensures out.Fine? <==> old(Free(s.channel) && dir.Readable(s) && dir.Durable(s).Blocked?) && fate.reported
      ensures out.Fine? ==> dir.Readable(s) && dir.Durable(s) == Blocked(Some(conv))
      ensures dir.Durable(s) == old(dir.Durable(s))
          || (old(dir.Durable(s)).Blocked? && dir.Durable(s) == Blocked(Some(conv)))
    {
      var error := Open(s);
      if error.Some? { return Error(error.value); }
      if s.channel !in dir.files { return Error(Corrupted); }
      if !dir.files[s.channel].blocked { return Error(NotBlocked); }
      var ok := dir.Replace(s.channel, Saved(s, true, Some(conv)), fate);
      return if ok then Fine(Some(conv)) else Error(WriteFailed);
    }

    /** `save`: the ready checkpoint. It replaces whatever is there. */
    method Save(s: Scope, conv: Conv, fate: Fate) returns (out: Outcome)
      requires Valid() && Possible(fate)
      modifies this, dir
      ensures Valid() && dir.SameElsewhere(old(dir.files), s.channel)
      ensures out.Fine? <==> old(Free(s.channel)) && fate.reported
      ensures out.Fine? ==>
                dir.Readable(s) && dir.Durable(s) == Ready(conv) && out.id == Some(conv) && s.channel in ownedChannels
      ensures dir.Durable(s) == old(dir.Durable(s)) || dir.Durable(s) == Ready(conv)
      ensures !old(Free(s.channel)) ==> dir.files == old(dir.files)
    {
      var owns := EnsureOwnership(s.channel);
      if !owns { return Error(Busy); }
      var ok := dir.Replace(s.channel, Saved(s, false, Some(conv)), fate);
      return if ok then Fine(Some(conv)) else Error(WriteFailed);
    }

    /** `reconcile`: a blocked record is repaired only with the proof that its provider retired. */
    method Reconcile(s: Scope, providerRetired: bool, fate: Fate) returns (out: Outcome, reconciled: bool)
      requires Valid() && Possible(fate)
      modifies this, dir
      ensures Valid() && dir.SameElsewhere(old(dir.files), s.channel)
      ensures out.Fine? <==> old(Free(s.channel) && dir.Readable(s)) &&
                             (old(dir.Durable(s)).Blocked? ==> providerRetired && fate.reported)
      ensures out.Fine? ==> dir.Readable(s) && out.id == IdOf(dir.Durable(s))
      ensures out.Fine? ==> dir.Durable(s) == SessionRecord.Reconcile(old(dir.Durable(s)))
      ensures dir.Durable(s) == old(dir.Durable(s)) || dir.Durable(s) == SessionRecord.Reconcile(old(dir.Durable(s)))
      ensures reconciled <==> out.Fine? && old(dir.Durable(s)).Blocked?
      ensures !old(dir.Durable(s)).Blocked? || !providerRetired ==> dir.files == old(dir.files)
    {
      reconciled := false;
      var error := Open(s);
      if error.Some? { return Error(error.value), false; }
      if s.channel !in dir.files { return Fine(None), false; }
      var current := dir.files[s.channel];
      if !current.blocked { return Fine(current.id), false; }
      if !providerRetired { return Error(Unconfirmed), false; }
      if current.id.None? {
        if fate.applied { dir.files := dir.files - {s.channel}; }
        out := if fate.reported then Fine(None) else Error(WriteFailed);
      } else {
        out := Save(s, current.id.value, fate);
      }
      reconciled := out.Fine?;
    }
  }
}
