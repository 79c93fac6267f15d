/**
 The incremental line decoder: one growing buffer, results at newlines. Whatever the
 chunks, the results are those of splitting the whole stream.
 */
module FrameCodec {

  import opened Options
  import opened Utf8

  const MAX_LIMIT := 8 * 1024 * 1024

  datatype Item = Line(bytes: seq<Byte>) | TooLarge | InvalidUtf8 | Truncated

  // ---- The whole stream ----

  /** The complete lines of a stream, without their newlines. */
  function Lines(s: seq<Byte>): seq<seq<Byte>> {
    if s == [] then []
    else
      var front := s[..|s| - 1];
      if s[|s| - 1] == NEWLINE then Lines(front) + [Rest(front)] else Lines(front)
  }

  /** What follows the last newline. */
  function Rest(s: seq<Byte>): seq<Byte> {
    if s == [] then []
    else if s[|s| - 1] == NEWLINE then []
    else Rest(s[..|s| - 1]) + [s[|s| - 1]]
  }

  function Classify(line: seq<Byte>, limit: nat): Item {
    if |line| > limit then TooLarge else Decode(line)
  }

  function Decode(line: seq<Byte>): Item {
    if Utf8.Valid(line) then Line(line) else InvalidUtf8
  }

  function ClassifyAll(lines: seq<seq<Byte>>, limit: nat): seq<Item> {
    seq(|lines|, i requires 0 <= i < |lines| => Classify(lines[i], limit))
  }

  /** One result per line, and one more for a tail that is already too long. */
  function Items(s: seq<Byte>, limit: nat): seq<Item> {
    ClassifyAll(Lines(s), limit) + if |Rest(s)| > limit then [TooLarge] else []
  }

  predicate NoNewline(s: seq<Byte>) {
    forall i | 0 <= i < |s| :: s[i] != NEWLINE
  }

  lemma {:induction false} PartExtendsRest(s: seq<Byte>, part: seq<Byte>)
    requires NoNewline(part)
    ensures Lines(s + part) == Lines(s) && Rest(s + part) == Rest(s) + part
    decreases |part|
  {
    if part == [] {
      assert s + part == s;
    } else {
      var n := |part| - 1;
      PartExtendsRest(s, part[..n]);
      assert (s + part)[..|s + part| - 1] == s + part[..n];
      assert part == part[..n] + [part[n]];
    }
  }

  lemma NewlineEndsLine(s: seq<Byte>)
    ensures Lines(s + [NEWLINE]) == Lines(s) + [Rest(s)] && Rest(s + [NEWLINE]) == []
  {
    assert (s + [NEWLINE])[..|s|] == s;
  }

  lemma TailItems(s: seq<Byte>, part: seq<Byte>, limit: nat)
    requires NoNewline(part)
    ensures Items(s + part, limit) ==
            Items(s, limit) + if |Rest(s + part)| > limit && |Rest(s)| <= limit then [TooLarge] else []
  {
    PartExtendsRest(s, part);
  }

  lemma NewlineItems(s: seq<Byte>, limit: nat)
    ensures Items(s + [NEWLINE], limit) == Items(s,
                                                 limit) + if |Rest(s)| > limit then [] else [Classify(Rest(s), limit)]
  {
    NewlineEndsLine(s);
    assert ClassifyAll(Lines(s) + [Rest(s)], limit) == ClassifyAll(Lines(s), limit) + [Classify(Rest(s), limit)];
  }

  // ---- Validity line by line ----

  /** Either there is no newline, or the stream ends with a line and its rest. */
  lemma {:induction false} LastLine(s: seq<Byte>) returns (front: seq<Byte>)
    ensures Lines(s) == [] ==> Rest(s) == s
    ensures Lines(s) != [] ==>
              |front| < |s| && s == front + [NEWLINE] + Rest(s) && Lines(s) == Lines(front) + [Rest(front)]
    decreases |s|
  {
    front := [];
    if s != [] {
      var n := |s| - 1;
      if s[n] == NEWLINE {
        front := s[..n];
      } else {
        front := LastLine(s[..n]);
      }
      assert s == s[..n] + [s[n]];
    }
  }

  /** The stream is UTF-8 exactly when each of its lines and its rest are. */
  lemma {:induction false} LinesDecideValidity(s: seq<Byte>)
    ensures Utf8.Valid(s) <==> (forall i | 0 <= i < |Lines(s)| :: Utf8.Valid(Lines(s)[i])) && Utf8.Valid(Rest(s))
    decreases |s|
  {
    var front := LastLine(s);
    if Lines(s) != [] {
      NewlineSplits(front, Rest(s));
      LinesDecideValidity(front);
      var lines := Lines(front);
      assert forall i | 0 <= i < |lines| :: Lines(s)[i] == lines[i];
      assert Lines(s)[|lines|] == Rest(front);
    }
  }

  // ---- Reallocation ----

  function Pow2(n: nat): nat {
    if n == 0 then 1 else 2 * Pow2(n - 1)
  }

  function Initial(limit: nat): nat {
    if limit < 1024 then limit else 1024
  }

  /** Every reallocation at least doubles the buffer, until it has the size of the limit. */
  predicate Doubling(limit: nat, capacity: nat, times: nat) {
    && (times > 0 ==> Initial(limit) * Pow2(times - 1) < limit)
    && (capacity == limit || capacity >= Initial(limit) * Pow2(times))
  }

  lemma {:induction false} Pow2Grows(m: nat, n: nat)
    requires m <= n
    ensures Pow2(m) <= Pow2(n)
    decreases n
  {
    if m < n { Pow2Grows(m, n - 1); }
  }

  /** At most thirteen reallocations over the life of a decoder, whatever it is fed. */
  lemma FewReallocations(limit: nat, capacity: nat, times: nat)
    requires 1 <= limit <= MAX_LIMIT && Doubling(limit, capacity, times)
    ensures times <= 13
  {
    if times >= 14 {
      Pow2Grows(13, times - 1);
      assert false;
    }
  }

  /** A buffer that is too small for what the limit allows has not reached the limit, and the next one doubles it. */
  lemma DoublingStep(limit: nat, capacity: nat, next: nat, times: nat)
    requires Doubling(limit, capacity, times) && capacity < limit
    requires next == limit || next >= 2 * capacity
    ensures Doubling(limit, next, times + 1)
  {
    assert Initial(limit) * Pow2(times + 1) == 2 * (Initial(limit) * Pow2(times));
  }

  // ---- The decoder ----

  /** `indexOf` from an offset. */
  function IndexOf(s: seq<Byte>, b: Byte, from: nat): (r: Option<nat>)
    requires from <= |s|
    ensures r.None? ==> forall i | from <= i < |s| :: s[i] != b
    ensures r.Some? ==> from <= r.value < |s| && s[r.value] == b && forall i | from <= i < r.value :: s[i] != b
    decreases |s| - from
  {
    if from == |s| then None else if s[from] == b then Some(from) else IndexOf(s, b, from + 1)
  }

  class LineDecoder {
    const maxLineBytes: nat
    var storage: array<Byte>
    var length: nat
    var overflow: bool
    ghost var seen: seq<Byte>
    ghost var reallocations: nat

    ghost predicate Valid()
      reads this, storage
    {
      && 1 <= maxLineBytes <= MAX_LIMIT
      && length <= storage.Length <= maxLineBytes
      && Doubling(maxLineBytes, storage.Length, reallocations)
      && (overflow <==> |Rest(seen)| > maxLineBytes)
      && (if overflow then length == 0 else storage[..length] == Rest(seen))
    }

    constructor (limit: nat)
      requires 1 <= limit <= MAX_LIMIT
      ensures Valid() && fresh(storage) && seen == [] && maxLineBytes == limit && reallocations == 0
    {
      maxLineBytes := limit;
      storage := new Byte[Initial(limit)](_ => 0);
      length, overflow := 0, false;
      seen, reallocations := [], 0;
      new;
      assert storage[..length] == [];
    }

    /** Adds a part of a line; `results` grows by the one report of a line that gets too long. */
    method Accumulate(part: seq<Byte>, results: seq<Item>) returns (out: seq<Item>)
      requires Valid() && NoNewline(part)
      modifies this, storage
      ensures Valid() && (storage == old(storage) || fresh(storage)) && seen == old(seen) + part
      ensures out == results + if overflow && !old(overflow) then [TooLarge] else []
      ensures reallocations >= old(reallocations)
    {
      PartExtendsRest(seen, part);
      seen := seen + part;
      if overflow || |part| == 0 { return results; }
      var needed := length + |part|;
      if needed > maxLineBytes {
        length, overflow := 0, true;
        return results + [TooLarge];
      }
      if needed > storage.Length { Grow(needed); }
      forall i | 0 <= i < |part| { storage[length + i] := part[i]; }
      length := needed;
      assert storage[..length] == Rest(seen);
      return results;
    }

    /** A buffer of twice the size, or more if needed, but never beyond the limit. */
    method Grow(needed: nat)
      requires storage.Length < needed <= maxLineBytes && length <= storage.Length
          && Doubling(maxLineBytes, storage.Length, reallocations)
      modifies this`storage, this`reallocations
      ensures fresh(storage) && needed <= storage.Length <= maxLineBytes
      ensures storage[..length] == old(storage[..length])
      ensures reallocations == old(reallocations) + 1 && Doubling(maxLineBytes, storage.Length, reallocations)
    {
      var wanted := if needed > 2 * storage.Length then needed else 2 * storage.Length;
      var capacity := if wanted > maxLineBytes then maxLineBytes else wanted;
      var next := new Byte[capacity](_ => 0);
      forall i | 0 <= i < length { next[i] := storage[i]; }
      DoublingStep(maxLineBytes, storage.Length, capacity, reallocations);
      assert next[..length] == storage[..length];
      storage := next;
      reallocations := reallocations + 1;
    }

    /** A part of a line, as it adds to what was reported `before` this chunk. */
    method AddPart(part: seq<Byte>, results: seq<Item>, ghost before: seq<Item>) returns (out: seq<Item>)
      requires Valid() && NoNewline(part) && before + results == Items(seen, maxLineBytes)
      modifies this, storage
      ensures Valid() && (storage == old(storage) || fresh(storage)) && seen == old(seen) + part
      ensures before + out == Items(seen, maxLineBytes)
      ensures reallocations >= old(reallocations)
    {
      TailItems(seen, part, maxLineBytes);
      out := Accumulate(part, results);
    }

    /** The newline: the line is reported, unless it was too long, and the next one starts empty. */
    method EndLine(results: seq<Item>, ghost before: seq<Item>) returns (out: seq<Item>)
      requires Valid() && before + results == Items(seen, maxLineBytes)
      modifies this
      ensures Valid() && storage == old(storage) && seen == old(seen) + [NEWLINE]
      ensures before + out == Items(seen, maxLineBytes)
      ensures reallocations == old(reallocations)
    {
      NewlineItems(seen, maxLineBytes);
      NewlineEndsLine(seen);
      out := if overflow then results else results + [Decode(storage[..length])];
      length, overflow, seen := 0, false, seen + [NEWLINE];
      assert storage[..length] == [];
    }

    /** The line of `chunk` from `offset` to its newline; the chunk's earlier lines came after `start`. */
    method PushLine(chunk: seq<Byte>, offset: nat, newline: nat, results: seq<Item>, ghost before: seq<Item>,
        ghost start: seq<Byte>)
      returns (out: seq<Item>)
      requires Valid() && offset <= newline < |chunk| && NoNewline(chunk[offset..newline]) && chunk[newline] == NEWLINE
      requires seen == start + chunk[..offset] && before + results == Items(seen, maxLineBytes)
      modifies this, storage
      ensures Valid() && (storage == old(storage) || fresh(storage)) && seen == start + chunk[..newline + 1]
      ensures before + out == Items(seen, maxLineBytes)
      ensures reallocations >= old(reallocations)
    {
      out := AddPart(chunk[offset..newline], results, before);
      out := EndLine(out, before);
      assert start + chunk[..offset] + chunk[offset..newline] + [NEWLINE] == start + chunk[..newline + 1];
    }

    /** What remains of `chunk` has no newline. */
    method PushTail(chunk: seq<Byte>, offset: nat, results: seq<Item>, ghost before: seq<Item>,
        ghost start: seq<Byte>) returns (out: seq<Item>)
      requires Valid() && offset <= |chunk| && NoNewline(chunk[offset..])
      requires seen == start + chunk[..offset] && before + results == Items(seen, maxLineBytes)
      modifies this, storage
      ensures Valid() && (storage == old(storage) || fresh(storage)) && seen == start + chunk
      ensures before + out == Items(seen, maxLineBytes)
      ensures reallocations >= old(reallocations)
    {
      out := AddPart(chunk[offset..], results, before);
      assert start + chunk[..offset] + chunk[offset..] == start + chunk;
    }

    /** `push`: what has been reported so far, and this chunk's results, are the items of the stream so far. */
    method Push(chunk: seq<Byte>) returns (results: seq<Item>)
      requires Valid()
      modifies this, storage
      ensures Valid() && (storage == old(storage) || fresh(storage)) && seen == old(seen) + chunk
      ensures Items(old(seen), maxLineBytes) + results == Items(seen, maxLineBytes)
      ensures reallocations >= old(reallocations)
    {
      results := [];
      ghost var before := Items(seen, maxLineBytes);
      ghost var start := seen;
      var offset := 0;
      var newline := IndexOf(chunk, NEWLINE, offset);
      while newline.Some?
        invariant 0 <= offset <= |chunk| && newline == IndexOf(chunk, NEWLINE, offset)
        invariant Valid() && (storage == old(storage) || fresh(storage)) && seen == start + chunk[..offset]
        invariant before + results == Items(seen, maxLineBytes)
        invariant reallocations >= old(reallocations)
        decreases |chunk| - offset
      {
        results := PushLine(chunk, offset, newline.value, results, before, start);
        offset := newline.value + 1;
        newline := IndexOf(chunk, NEWLINE, offset);
      }
      results := PushTail(chunk, offset, results, before, start);
    }

    /** `finish`: what the unfinished last line amounts to; the decoder is then ready for a new stream. */
    method Finish() returns (result: Option<Item>)
      requires Valid()
      modifies this
      ensures Valid() && storage == old(storage) && seen == []
      ensures var rest := Rest(old(seen));
              result == if rest == [] || |rest| > maxLineBytes then None
                        else if Utf8.Valid(rest) then Some(Truncated) else Some(InvalidUtf8)
    {
      result := None;
      if length != 0 && !overflow {
        result := if Utf8.Valid(storage[..length]) then Some(Truncated) else Some(InvalidUtf8);
      }
      length, overflow, seen := 0, false, [];
      assert storage[..length] == [];
    }
  }

  // ---- Any chunking ----

  function Joined(chunks: seq<seq<Byte>>): seq<Byte> {
    if chunks == [] then [] else Joined(chunks[..|chunks| - 1]) + chunks[|chunks| - 1]
  }

  /** `attachLineDecoder` over the chunks of a stream: the results do not depend on where it was cut. */
  method DecodeStream(chunks: seq<seq<Byte>>, limit: nat)
    returns (results: seq<Item>, end: Option<Item>, ghost grown: nat)
    requires 1 <= limit <= MAX_LIMIT
    ensures results == Items(Joined(chunks), limit)
    ensures var rest := Rest(Joined(chunks));
            end == if rest == [] || |rest| > limit then None else if Utf8.Valid(rest) then Some(Truncated)
                else Some(InvalidUtf8)
    ensures grown <= 13
  {
    var decoder := new LineDecoder(limit);
    results := [];
    assert Items([], limit) == [];
    var i := 0;
    while i < |chunks|
      invariant 0 <= i <= |chunks|
      invariant decoder.Valid() && fresh(decoder) && fresh(decoder.storage) && decoder.maxLineBytes == limit
      invariant decoder.seen == Joined(chunks[..i]) && results == Items(decoder.seen, limit)
    {
      assert chunks[..i + 1][..i] == chunks[..i];
      var more := decoder.Push(chunks[i]);
      results := results + more;
      i := i + 1;
    }
    assert chunks[..i] == chunks;
    grown := decoder.reallocations;
    FewReallocations(limit, decoder.storage.Length, grown);
    end := decoder.Finish();
  }

  // ---- The byte budget ----

  /** `createByteBudget`: refuses for good once the total has passed the limit. */
  class ByteBudget {
    const maxBytes: nat
    var total: nat
    ghost var asked: nat

    ghost predicate Valid()
      reads this
    {
      total == if asked > maxBytes then maxBytes + 1 else asked
    }

    constructor (limit: nat)
      ensures Valid() && maxBytes == limit && asked == 0
    {
      maxBytes, total, asked := limit, 0, 0;
    }

    method Add(size: nat) returns (ok: bool)
      requires Valid()
      modifies this
      ensures Valid() && asked == old(asked) + size
      ensures ok <==> asked <= maxBytes
    {
      asked := asked + size;
      total := if total + size > maxBytes then maxBytes + 1 else total + size;
      ok := total <= maxBytes;
    }
  }
}
