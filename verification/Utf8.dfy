/**
 Which byte strings are UTF-8, after the grammar in section 4 of RFC 3629, and why it is
 enough to look at one line at a time.
 */
module Utf8 {

  type Byte = n: nat | n < 256

  const NEWLINE: Byte := 0x0a

  predicate Tail(s: seq<Byte>, i: nat) {
    i < |s| && 0x80 <= s[i] <= 0xBF
  }

  predicate Between(s: seq<Byte>, i: nat, lo: nat, hi: nat) {
    i < |s| && lo <= s[i] <= hi
  }

  /** The length of the UTF-8 character `s` starts with, or zero. */
  function CharLength(s: seq<Byte>): (n: nat)
    ensures n <= |s| && n <= 4
  {
    if s == [] then 0
    else if s[0] <= 0x7F then 1
    else if 0xC2 <= s[0] <= 0xDF && Tail(s, 1) then 2
    else if s[0] == 0xE0 && Between(s, 1, 0xA0, 0xBF) && Tail(s, 2) then 3
    else if 0xE1 <= s[0] <= 0xEC && Tail(s, 1) && Tail(s, 2) then 3
    else if s[0] == 0xED && Between(s, 1, 0x80, 0x9F) && Tail(s, 2) then 3
    else if 0xEE <= s[0] <= 0xEF && Tail(s, 1) && Tail(s, 2) then 3
    else if s[0] == 0xF0 && Between(s, 1, 0x90, 0xBF) && Tail(s, 2) && Tail(s, 3) then 4
    else if 0xF1 <= s[0] <= 0xF3 && Tail(s, 1) && Tail(s, 2) && Tail(s, 3) then 4
    else if s[0] == 0xF4 && Between(s, 1, 0x80, 0x8F) && Tail(s, 2) && Tail(s, 3) then 4
    else 0
  }

  predicate Valid(s: seq<Byte>)
    decreases |s|
  {
    s == [] || (CharLength(s) > 0 && Valid(s[CharLength(s)..]))
  }

  /** A newline never completes a character that began before it. */
  lemma CharLengthStops(a: seq<Byte>, b: seq<Byte>)
    requires a != []
    ensures CharLength(a + [NEWLINE] + b) == CharLength(a)
  {
    var s := a + [NEWLINE] + b;
    assert s[|a|] == NEWLINE;
    assert forall i | 0 <= i < |a| :: s[i] == a[i];
    assert forall i: nat | i <= |a| :: Tail(s, i) == Tail(a, i);
    assert forall i: nat, lo: nat, hi: nat | i <= |a| && lo > 0x0a :: Between(s, i, lo, hi) == Between(a, i, lo, hi);
  }

  /** Decoding only at newlines is exact. */
  lemma {:induction false} NewlineSplits(a: seq<Byte>, b: seq<Byte>)
    ensures Valid(a + [NEWLINE] + b) <==> Valid(a) && Valid(b)
    decreases |a|
  {
    var s := a + [NEWLINE] + b;
    if a == [] {
      assert s[0] == NEWLINE && s[1..] == b;
    } else {
      CharLengthStops(a, b);
      var n := CharLength(a);
      if n > 0 {
        assert s[n..] == a[n..] + [NEWLINE] + b;
        NewlineSplits(a[n..], b);
      }
    }
  }
}
