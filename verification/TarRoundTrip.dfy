/**
 Writing ustar blocks, and reading them back: for every list of safe entries that fit the
 format and do not collide, the reader returns exactly that list.
 */
module TarRoundTrip {

  import opened Options
  import opened Utf8
  import opened Tar
  import opened TarReader

  // ---- Encoding ----

  function Octal(n: nat, digits: nat): (s: seq<Byte>)
    ensures |s| == digits && forall i | 0 <= i < digits :: 48 <= s[i] <= 55
  {
    if digits == 0 then [] else Octal(n / 8, digits - 1) + [48 + n % 8]
  }

  function Pow8(n: nat): nat {
    if n == 0 then 1 else 8 * Pow8(n - 1)
  }

  function Pad(s: seq<Byte>, n: nat): (r: seq<Byte>)
    requires |s| <= n
    ensures |r| == n
  {
    s + Zeros(n - |s|)
  }

  /** Mode, user and group: `0000644`, `0000000`, `0000000`, each ended by NUL. */
  const OWNERSHIP: seq<Byte> :=
    [48, 48, 48, 48, 54, 52, 52, 0, 48, 48, 48, 48, 48, 48, 48, 0, 48, 48, 48, 48, 48, 48, 48, 0]

  const MTIME: seq<Byte> := [48, 48, 48, 48, 48, 48, 48, 48, 48, 48, 48, 0]

  /** `ustar`, NUL, version `00`. */
  const MAGIC: seq<Byte> := [117, 115, 116, 97, 114, 0, 48, 48]

  /** The name field, the type, and what lies between; link name, names and device numbers are empty. */
  function HeaderWith(name: Name, prefix: Name, directory: bool, size: nat, sum: seq<Byte>): (h: seq<Byte>)
    requires |name| <= 100 && |prefix| <= 155 && |sum| == 8
    ensures |h| == BLOCK
  {
    Pad(name, 100) + OWNERSHIP + (Octal(size, 11) + [0]) + MTIME + sum + Back(prefix, directory)
  }

  function Back(prefix: Name, directory: bool): (b: seq<Byte>)
    requires |prefix| <= 155
    ensures |b| == 356
  {
    [if directory then 53 else 48] + Zeros(100) + MAGIC + Zeros(80) + Pad(prefix, 155) + Zeros(12)
  }

  function Header(name: Name, prefix: Name, directory: bool, size: nat): (h: seq<Byte>)
    requires |name| <= 100 && |prefix| <= 155
    ensures |h| == BLOCK
  {
    var blank := HeaderWith(name, prefix, directory, size, SPACES);
    HeaderWith(name, prefix, directory, size, Octal(Sum(blank), 6) + [0, 32])
  }

  /** The first slash at which the full name can be cut into a prefix and a name. */
  function CutFrom(full: Name, k: nat): Option<nat>
    decreases |full| - k
  {
    if k >= |full| then None
    else if full[k] == SLASH && 1 <= k <= 155 && |full| - k - 1 <= 100 then Some(k)
    else CutFrom(full, k + 1)
  }

  predicate Fits(full: Name) {
    |full| <= 100 || CutFrom(full, 0).Some?
  }

  lemma {:induction false} CutFromWorks(full: Name, k: nat)
    requires CutFrom(full, k).Some?
    ensures var c := CutFrom(full, k).value; c < |full| && full[c] == SLASH && 1 <= c <= 155 && |full| - c - 1 <= 100
    decreases |full| - k
  {
    if !(full[k] == SLASH && 1 <= k <= 155 && |full| - k - 1 <= 100) { CutFromWorks(full, k + 1); }
  }

  function FullName(e: Entry): Name {
    PACKAGE + [SLASH] + e.path
  }

  /** An entry the format can hold and the reader considers safe. */
  predicate Storable(e: Entry) {
    && PlainBytes(e.path) && (forall i | 0 <= i < |Split(e.path)| :: SafePart(Split(e.path)[i]))
    && Fits(FullName(e))
    && (e.directory ==> e.content == [])
    && |e.content| < Pow8(11)
  }

  function HeaderOf(e: Entry): (h: seq<Byte>)
    requires Storable(e)
    ensures |h| == BLOCK
  {
    var full := FullName(e);
    if |full| <= 100 then Header(full, [], e.directory, |e.content|)
    else
      CutFromWorks(full, 0);
      var k := CutFrom(full, 0).value;
      Header(full[k + 1..], full[..k], e.directory, |e.content|)
  }

  /** A header block, the content, and zeros up to the next block. */
  datatype Member = Member(header: seq<Byte>, entry: Entry)

  function Written(m: Member): seq<Byte> {
    m.header + m.entry.content + Zeros(RoundUp(|m.entry.content|) - |m.entry.content|)
  }

  function WrittenAll(members: seq<Member>): seq<Byte> {
    if members == [] then [] else Written(members[0]) + WrittenAll(members[1..])
  }

  function EntriesOf(members: seq<Member>): seq<Entry> {
    seq(|members|, i requires 0 <= i < |members| => members[i].entry)
  }

  function MembersOf(entries: seq<Entry>): (members: seq<Member>)
    requires forall i | 0 <= i < |entries| :: Storable(entries[i])
    ensures EntriesOf(members) == entries
  {
    seq(|entries|, i requires 0 <= i < |entries| => Member(HeaderOf(entries[i]), entries[i]))
  }

  /** The archive of a list of entries: its members, and an end marker of zero blocks. */
  function Encode(entries: seq<Entry>, zeros: nat): seq<Byte>
    requires forall i | 0 <= i < |entries| :: Storable(entries[i])
  {
    WrittenAll(MembersOf(entries)) + Zeros(zeros)
  }

  // ---- Numbers ----

  lemma {:induction false} OctalInverts(n: nat, digits: nat)
    requires n < Pow8(digits)
    ensures OctalValue(Octal(n, digits)) == n
    decreases digits
  {
    if digits > 0 {
      OctalInverts(n / 8, digits - 1);
      assert Octal(n, digits)[..digits - 1] == Octal(n / 8, digits - 1);
    }
  }

  lemma FirstNulAt(s: seq<Byte>, n: nat)
    requires n <= |s| && (forall i | 0 <= i < n :: s[i] != 0) && (n < |s| ==> s[n] == 0)
    ensures FirstNul(s) == n
  {
  }

  lemma DigitsStay(d: seq<Byte>)
    requires OctalText(d)
    ensures TrimEnd(TrimStart(d)) == d
  {
    assert d[0] != 32 && d[|d| - 1] != 32;
  }

  lemma FieldCuts(d: seq<Byte>, end: seq<Byte>)
    requires OctalText(d) && (end == [0] || end == [0, 32])
    ensures CutNul(Ascii(d + end)) == d
  {
    var field := d + end;
    assert Ascii(field) == field;
    FirstNulAt(field, |d|);
    assert field[|d|..] == end;
    assert !HasLineTerminator(end);
    assert field[..|d|] == d;
  }

  /** A field of digits, ended by NUL and perhaps a space, reads as its value. */
  lemma NumberReads(n: nat, digits: nat, end: seq<Byte>)
    requires 1 <= digits && n < Pow8(digits) && (end == [0] || end == [0, 32])
    ensures ReadNumber(Octal(n, digits) + end) == Some(n)
  {
    var d := Octal(n, digits);
    FieldCuts(d, end);
    DigitsStay(d);
    OctalInverts(n, digits);
  }

  lemma {:induction false} SumBound(s: seq<Byte>)
    ensures Sum(s) <= 255 * |s|
    decreases |s|
  {
    if s != [] { SumBound(s[..|s| - 1]); }
  }

  // ---- One header ----

  lemma NoTerminatorInZeros(n: nat)
    ensures !HasLineTerminator(Zeros(n))
  {
  }

  lemma PaddedNameReads(name: Name, n: nat)
    requires |name| <= n && forall i | 0 <= i < |name| :: name[i] != 0
    ensures CutNul(Pad(name, n)) == name
  {
    var s := Pad(name, n);
    FirstNulAt(s, |name|);
    assert s[|name|..] == Zeros(n - |name|);
    NoTerminatorInZeros(n - |name|);
    assert s[..|name|] == name;
  }

  lemma Slice(a: seq<Byte>, b: seq<Byte>, c: seq<Byte>)
    ensures (a + b + c)[|a|..|a| + |b|] == b
  {
  }

  lemma FrontFields(name: Name, prefix: Name, directory: bool, size: nat, sum: seq<Byte>)
    requires |name| <= 100 && |prefix| <= 155 && |sum| == 8
    ensures var h := HeaderWith(name, prefix, directory, size, sum);
            h[..100] == Pad(name, 100) && h[124..136] == Octal(size, 11) + [0] && h[148..156] == sum
            && h[156..] == Back(prefix, directory)
  {
    var h := HeaderWith(name, prefix, directory, size, sum);
    var a, b, c := Pad(name, 100), OWNERSHIP, Octal(size, 11) + [0];
    var back := Back(prefix, directory);
    assert h == [] + a + (b + c + MTIME + sum + back);
    Slice([], a, b + c + MTIME + sum + back);
    assert h == (a + b) + c + (MTIME + sum + back);
    Slice(a + b, c, MTIME + sum + back);
    assert h == (a + b + c + MTIME) + sum + back;
    Slice(a + b + c + MTIME, sum, back);
  }

  lemma BackFields(prefix: Name, directory: bool)
    requires |prefix| <= 155
    ensures var b := Back(prefix, directory);
            b[0] == (if directory then 53 else 48) && b[189..344] == Pad(prefix, 155)
  {
    var front := [if directory then 53 else 48] + Zeros(100) + MAGIC + Zeros(80);
    assert Back(prefix, directory) == front + Pad(prefix, 155) + Zeros(12);
    Slice(front, Pad(prefix, 155), Zeros(12));
  }

  /** Reading the checksum field as spaces gives back the header that was summed. */
  lemma BlankedSum(name: Name, prefix: Name, directory: bool, size: nat, sum: seq<Byte>)
    requires |name| <= 100 && |prefix| <= 155 && |sum| == 8
    ensures var h := HeaderWith(name, prefix, directory, size, sum);
            h[..148] + SPACES + h[156..] == HeaderWith(name, prefix, directory, size, SPACES)
  {
    var h := HeaderWith(name, prefix, directory, size, sum);
    var front := Pad(name, 100) + OWNERSHIP + (Octal(size, 11) + [0]) + MTIME;
    FrontFields(name, prefix, directory, size, sum);
    assert h == front + (sum + Back(prefix, directory));
    assert h[..148] == front;
  }

  lemma HeaderSum(name: Name, prefix: Name, directory: bool, size: nat)
    requires |name| <= 100 && |prefix| <= 155
    ensures var h := Header(name, prefix, directory, size);
            Checksum(h) == Sum(HeaderWith(name, prefix, directory, size, SPACES))
                && ReadNumber(h[148..156]) == Some(Checksum(h))
  {
    var blank := HeaderWith(name, prefix, directory, size, SPACES);
    var sum := Octal(Sum(blank), 6) + [0, 32];
    var h := HeaderWith(name, prefix, directory, size, sum);
    FrontFields(name, prefix, directory, size, sum);
    BlankedSum(name, prefix, directory, size, sum);
    SumBound(blank);
    assert Pow8(6) == 262144;
    NumberReads(Sum(blank), 6, [0, 32]);
  }

  lemma HeaderNames(name: Name, prefix: Name, directory: bool, size: nat)
    requires |name| <= 100 && |prefix| <= 155
    requires (forall i | 0 <= i < |name| :: name[i] != 0) && (forall i | 0 <= i < |prefix| :: prefix[i] != 0)
    ensures TarName(Header(name, prefix, directory, size)) == if prefix == [] then name else prefix + [SLASH] + name
    ensures Header(name, prefix, directory, size)[156] == if directory then 53 else 48
    ensures Header(name, prefix, directory, size)[124..136] == Octal(size, 11) + [0]
  {
    var blank := HeaderWith(name, prefix, directory, size, SPACES);
    var sum := Octal(Sum(blank), 6) + [0, 32];
    var h := HeaderWith(name, prefix, directory, size, sum);
    FrontFields(name, prefix, directory, size, sum);
    BackFields(prefix, directory);
    assert h[345..500] == h[156..][189..344];
    assert h[156] == h[156..][0];
    PaddedNameReads(name, 100);
    PaddedNameReads(prefix, 155);
  }

  lemma ReadsAs(h: seq<Byte>, path: Name, directory: bool, size: nat)
    requires |h| == BLOCK && SafeArchivePath(TarName(h)) == Some(path)
    requires ReadNumber(h[148..156]) == Some(Checksum(h)) && ReadNumber(h[124..136]) == Some(size)
    requires h[156] == if directory then 53 else 48
    ensures ReadHeader(h) == Some(Head(path, directory, size)) && !AllZero(h)
  {
  }

  lemma NoNulInside(full: Name, name: Name, prefix: Name)
    requires PlainBytes(full) && (if prefix == [] then name else prefix + [SLASH] + name) == full
    ensures (forall i | 0 <= i < |name| :: name[i] != 0) && (forall i | 0 <= i < |prefix| :: prefix[i] != 0)
  {
    assert forall i | 0 <= i < |name| :: name[i] == full[|full| - |name| + i];
    assert forall i | 0 <= i < |prefix| :: prefix[i] == full[i];
  }

  /** A header reads as the path, kind and size it was written for. */
  lemma HeaderReads(path: Name, directory: bool, size: nat, name: Name, prefix: Name)
    requires |name| <= 100 && |prefix| <= 155 && size < Pow8(11)
    requires PlainBytes(PACKAGE + [SLASH] + path) && SafeArchivePath(PACKAGE + [SLASH] + path) == Some(path)
    requires (if prefix == [] then name else prefix + [SLASH] + name) == PACKAGE + [SLASH] + path
    ensures ReadHeader(Header(name, prefix, directory, size)) == Some(Head(path, directory, size))
    ensures !AllZero(Header(name, prefix, directory, size))
  {
    NoNulInside(PACKAGE + [SLASH] + path, name, prefix);
    HeaderNames(name, prefix, directory, size);
    HeaderSum(name, prefix, directory, size);
    NumberReads(size, 11, [0]);
    ReadsAs(Header(name, prefix, directory, size), path, directory, size);
  }

  /** A name too long for one field is cut at a slash. */
  lemma LongNameReads(path: Name, directory: bool, size: nat)
    requires size < Pow8(11) && PlainBytes(PACKAGE + [SLASH] + path)
    requires SafeArchivePath(PACKAGE + [SLASH] + path) == Some(path)
    requires Fits(PACKAGE + [SLASH] + path) && |PACKAGE + [SLASH] + path| > 100
    ensures var full := PACKAGE + [SLASH] + path; CutFrom(full, 0).Some? && CutFrom(full, 0).value < |full|
    ensures var full := PACKAGE + [SLASH] + path; var k := CutFrom(full, 0).value;
            && |full[k + 1..]| <= 100 && |full[..k]| <= 155
            && var h := Header(full[k + 1..], full[..k], directory, size);
               ReadHeader(h) == Some(Head(path, directory, size)) && !AllZero(h)
  {
    var full := PACKAGE + [SLASH] + path;
    CutFromWorks(full, 0);
    var k := CutFrom(full, 0).value;
    assert full == full[..k] + [SLASH] + full[k + 1..];
    HeaderReads(path, directory, size, full[k + 1..], full[..k]);
  }

  lemma StorableReads(e: Entry)
    requires Storable(e)
    ensures ReadHeader(HeaderOf(e)) == Some(Head(e.path, e.directory, |e.content|)) && !AllZero(HeaderOf(e))
  {
    SafePathsAreAccepted(e.path);
    PlainJoins(e.path);
    if |FullName(e)| <= 100 {
      HeaderReads(e.path, e.directory, |e.content|, FullName(e), []);
    } else {
      LongNameReads(e.path, e.directory, |e.content|);
    }
  }

  // ---- The whole archive, for any header reader ----

  /** The reader understands the header of a member. */
  predicate Understood(m: Member, read: HeaderReader) {
    && |m.header| == BLOCK && !AllZero(m.header)
    && read(m.header) == Some(Head(m.entry.path, m.entry.directory, |m.entry.content|))
    && (m.entry.directory ==> m.entry.content == [])
  }

  lemma MemberReads(pre: seq<Byte>, m: Member, post: seq<Byte>, done: seq<Entry>, fold: Fold, read: HeaderReader)
    requires Understood(m, read) && !Collides(done, m.entry.path, fold)
    ensures RoundAt(pre + Written(m) + post, |pre|, 0, done, fold, read) == Next(|pre + Written(m)|, 0,
                                                                      done + [m.entry])
  {
    var bytes := pre + Written(m) + post;
    var rest := Zeros(RoundUp(|m.entry.content|) - |m.entry.content|) + post;
    assert bytes == pre + m.header + (m.entry.content + rest);
    Slice(pre, m.header, m.entry.content + rest);
    assert bytes == (pre + m.header) + m.entry.content + rest;
    Slice(pre + m.header, m.entry.content, rest);
  }

  lemma FirstMemberReads(pre: seq<Byte>, m: Member, post: seq<Byte>, done: seq<Entry>, fold: Fold, read: HeaderReader)
    requires Understood(m, read) && !Collides(done, m.entry.path, fold)
    ensures var bytes := pre + Written(m) + post;
            ParseFrom(bytes, |pre|, 0, done, fold, read) == ParseFrom(bytes, |pre + Written(m)|, 0, done + [m.entry],
                fold, read)
  {
    MemberReads(pre, m, post, done, fold, read);
  }

  lemma Regrouped(pre: seq<Byte>, a: seq<Byte>, b: seq<Byte>, tail: seq<Byte>)
    ensures pre + (a + b) + tail == pre + a + (b + tail) && pre + (a + b) + tail == (pre + a) + b + tail
        && pre + (a + b) == (pre + a) + b
  {
  }

  lemma {:induction false} MembersRead(pre: seq<Byte>, members: seq<Member>, tail: seq<Byte>, done: seq<Entry>,
      fold: Fold, read: HeaderReader)
    requires forall i | 0 <= i < |members| :: Understood(members[i], read)
    requires Distinct(done + EntriesOf(members), fold)
    ensures ParseFrom(pre + WrittenAll(members) + tail, |pre|, 0, done, fold, read) ==
            ParseFrom(pre + WrittenAll(members) + tail, |pre + WrittenAll(members)|, 0, done + EntriesOf(members),
                      fold, read)
    decreases |members|
  {
    if members == [] {
      assert done + EntriesOf(members) == done && pre + [] == pre;
    } else {
      var m, more := members[0], members[1..];
      Separate(done, EntriesOf(members), fold);
      Regrouped(pre, Written(m), WrittenAll(more), tail);
      FirstMemberReads(pre, m, WrittenAll(more) + tail, done, fold, read);
      assert done + EntriesOf(members) == (done + [m.entry]) + EntriesOf(more);
      MembersRead(pre + Written(m), more, tail, done + [m.entry], fold, read);
    }
  }

  lemma Separate(done: seq<Entry>, entries: seq<Entry>, fold: Fold)
    requires Distinct(done + entries, fold) && entries != []
    ensures !Collides(done, entries[0].path, fold)
  {
    var all := done + entries;
    assert all[|done|] == entries[0];
    forall x | x in done ensures x.path != entries[0].path && fold(x.path) != fold(entries[0].path) {
      var i :| 0 <= i < |done| && done[i] == x;
      assert all[i] == x;
    }
  }

  lemma MarkerReads(bytes: seq<Byte>, offset: nat, entries: seq<Entry>, fold: Fold, read: HeaderReader)
    requires offset + 2 * BLOCK <= |bytes| && AllZero(bytes[offset..])
    ensures ParseFrom(bytes, offset, 0, entries, fold, read) == Entries(entries)
  {
    var tail := bytes[offset..];
    assert bytes[offset..offset + BLOCK] == tail[..BLOCK];
    assert bytes[offset + BLOCK..offset + BLOCK + BLOCK] == tail[BLOCK..2 * BLOCK];
    assert bytes[offset + 2 * BLOCK..] == tail[2 * BLOCK..];
    assert RoundAt(bytes, offset, 0, entries, fold, read) == Next(offset + BLOCK, 1, entries);
    assert RoundAt(bytes, offset + BLOCK, 1, entries, fold, read) == Stop(Entries(entries));
  }

  lemma AllMembersRead(members: seq<Member>, zeros: nat, fold: Fold, read: HeaderReader)
    requires (forall i | 0 <= i < |members| :: Understood(members[i], read)) && Distinct(EntriesOf(members), fold)
        && zeros >= 2 * BLOCK
    ensures ParseFrom(WrittenAll(members) + Zeros(zeros), 0, 0, [], fold, read) == Entries(EntriesOf(members))
  {
    var written := WrittenAll(members);
    assert [] + EntriesOf(members) == EntriesOf(members) && [] + written == written;
    MembersRead([], members, Zeros(zeros), [], fold, read);
    assert (written + Zeros(zeros))[|written|..] == Zeros(zeros);
    MarkerReads(written + Zeros(zeros), |written|, EntriesOf(members), fold, read);
  }

  /** Reading inverts writing: exactly the list, for every end marker of at least two zero blocks. */
  lemma ReadInvertsWrite(entries: seq<Entry>, zeros: nat, fold: Fold)
    requires (forall i | 0 <= i < |entries| :: Storable(entries[i])) && Distinct(entries, fold) && zeros >= 2 * BLOCK
    ensures ParseFrom(Encode(entries, zeros), 0, 0, [], fold, USTAR) == Entries(entries)
  {
    var members := MembersOf(entries);
    forall i | 0 <= i < |members| ensures Understood(members[i], USTAR) { StorableReads(entries[i]); }
    AllMembersRead(members, zeros, fold, USTAR);
  }
}
