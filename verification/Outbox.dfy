/**
 The records of the delivery outbox and the one function every transition goes through.
 Event ids are 64 hexadecimal digits and are compared without regard to case.
 */
module Outbox {

  import opened Options

  type Id = string

  datatype Status = Inflight | FailedBeforeStart | Uncertain | Sent

  /** Everything that may never change once the record exists. */
  datatype Identity = Identity(id: Id, owner: nat, relay: nat, channel: nat, replyTo: nat, content: nat, createdAt: nat)

  datatype Record = Record(identity: Identity, status: Status, eventId: Option<string>, updatedAt: nat)

  datatype Code = TransitionRefused | AckInvalid

  datatype Result = Ok(record: Record) | Err(code: Code)

  /** The `changes` object: either key may be absent, and an event id may be present but undefined. */
  datatype Changes = Changes(status: Option<Status>, event: Option<Option<string>>)

  predicate HexDigit(c: char) {
    '0' <= c <= '9' || 'a' <= c <= 'f' || 'A' <= c <= 'F'
  }

  predicate IsEvent(e: string) {
    |e| == 64 && forall i | 0 <= i < 64 :: HexDigit(e[i])
  }

  function Lower(e: string): string {
    seq(|e|, i requires 0 <= i < |e| => LowerDigit(e[i]))
  }

  function LowerDigit(c: char): char {
    match c
    case 'A' => 'a'
    case 'B' => 'b'
    case 'C' => 'c'
    case 'D' => 'd'
    case 'E' => 'e'
    case 'F' => 'f'
    case _ => c
  }

  predicate Valid(r: Record) {
    && (r.eventId.Some? ==> IsEvent(r.eventId.value))
    && (r.status.Sent? ==> r.eventId.Some?)
  }

  predicate Permitted(from: Status, to: Status, retryFinal: bool) {
    match from
    case Inflight => true
    case FailedBeforeStart => !to.Inflight?
    case Uncertain => to.Uncertain? || (retryFinal && !to.Inflight?)
    case Sent => to.Sent?
  }

  /** `_nextRecord`. */
  function NextRecord(r: Record, c: Changes, retryFinal: bool, now: nat): Result {
    var status := c.status.GetOr(r.status);
    var event := c.event.GetOr(r.eventId);
    if !Permitted(r.status, status, retryFinal) then Err(TransitionRefused)
    else if event.Some? && !IsEvent(event.value) then Err(AckInvalid)
    else if status.Sent? && event.None? then Err(AckInvalid)
    else if r.status.Sent? && (event.None? || (r.eventId.Some? && Lower(event.value) != Lower(r.eventId.value)))
        then Err(TransitionRefused)
    else Ok(Record(r.identity, status, event, now))
  }

  // ---- What a transition keeps ----

  /** A later version of the same record: a sent record stays sent, with its event id fixed up to case. */
  predicate Later(r: Record, s: Record) {
    && s.identity == r.identity
    && (r.status.Sent? ==>
          s.status.Sent? && s.eventId.Some? && r.eventId.Some? && Lower(s.eventId.value) == Lower(r.eventId.value))
    && (s.status.Inflight? ==> r.status.Inflight?)
  }

  lemma NextIsLater(r: Record, c: Changes, retryFinal: bool, now: nat)
    requires Valid(r) && NextRecord(r, c, retryFinal, now).Ok?
    ensures Valid(NextRecord(r, c, retryFinal, now).record) && Later(r, NextRecord(r, c, retryFinal, now).record)
  {
  }

  /** Transitions one after another, each starting from where the one before it got to. */
  function After(r: Record, changes: seq<(Changes, bool, nat)>): Record
    decreases |changes|
  {
    if changes == [] then r
    else
      var step := changes[0];
      match NextRecord(r, step.0, step.1, step.2)
      case Ok(s) => After(s, changes[1..])
      case Err(_) => After(r, changes[1..])
  }

  /** Over any sequence of transitions, refused ones included: sent is absorbing and the identity never changes. */
  lemma {:induction false} HistoryIsLater(r: Record, changes: seq<(Changes, bool, nat)>)
    requires Valid(r)
    ensures Valid(After(r, changes)) && Later(r, After(r, changes))
    decreases |changes|
  {
    if changes != [] {
      var step := changes[0];
      match NextRecord(r, step.0, step.1, step.2)
      case Ok(s) =>
        NextIsLater(r, step.0, step.1, step.2);
        HistoryIsLater(s, changes[1..]);
      case Err(_) =>
        HistoryIsLater(r, changes[1..]);
    }
  }

  /** Without the final step of a retry, an uncertain record never becomes anything else. */
  lemma {:induction false} UncertainStays(r: Record, changes: seq<(Changes, bool, nat)>)
    requires r.status.Uncertain? && forall i | 0 <= i < |changes| :: !changes[i].1
    ensures After(r, changes).status.Uncertain?
    decreases |changes|
  {
    if changes != [] {
      assert !changes[0].1;
      var next := NextRecord(r, changes[0].0, changes[0].1, changes[0].2);
      UncertainStays(if next.Ok? then next.record else r, changes[1..]);
    }
  }
}
