/**
 Reading an archive, and that it inverts ustar encoding.
 */
module TarReader {

  import opened Options
  import opened Utf8
  import opened Tar

  const BLOCK := 512

  datatype Entry = Entry(path: Name, directory: bool, content: seq<Byte>)

  datatype Parsed = Entries(entries: seq<Entry>) | Bad

  // ---- Fields ----

  function Zeros(n: nat): (z: seq<Byte>)
    ensures |z| == n && forall i | 0 <= i < n :: z[i] == 0
  {
    seq(n, _ => 0)
  }

  predicate AllZero(s: seq<Byte>) {
    forall i | 0 <= i < |s| :: s[i] == 0
  }

  function FirstNul(s: seq<Byte>): (i: nat)
    ensures i <= |s| && (forall k | 0 <= k < i :: s[k] != 0) && (i < |s| ==> s[i] == 0)
  {
    if s == [] || s[0] == 0 then 0
    else
      assert forall k | 1 <= k < |s| :: s[k] == s[1..][k - 1];
      1 + FirstNul(s[1..])
  }

  /** `replace(/\0.*$/, '')`: the dot stops at line terminators, and then a NUL is left in. */
  function CutNul(s: seq<Byte>): seq<Byte> {
    var i := FirstNul(s);
    if i < |s| && HasLineTerminator(s[i..]) then s else s[..i]
  }

  predicate White(b: Byte) {
    9 <= b <= 13 || b == 32
  }

  function TrimStart(s: seq<Byte>): seq<Byte> {
    if s != [] && White(s[0]) then TrimStart(s[1..]) else s
  }

  function TrimEnd(s: seq<Byte>): seq<Byte> {
    if s != [] && White(s[|s| - 1]) then TrimEnd(s[..|s| - 1]) else s
  }

  predicate OctalText(s: seq<Byte>) {
    s != [] && forall i | 0 <= i < |s| :: 48 <= s[i] <= 55
  }

  function OctalValue(s: seq<Byte>): nat
    requires forall i | 0 <= i < |s| :: 48 <= s[i] <= 55
  {
    if s == [] then 0 else 8 * OctalValue(s[..|s| - 1]) + (s[|s| - 1] - 48)
  }

  /** The `ascii` decoding drops the highest bit. */
  function Ascii(s: seq<Byte>): seq<Byte> {
    seq(|s|, i requires 0 <= i < |s| => s[i] % 128)
  }

  /** `parseTarNumber`. */
  function ReadNumber(field: seq<Byte>): Option<nat> {
    var text := TrimEnd(TrimStart(CutNul(Ascii(field))));
    if OctalText(text) then Some(OctalValue(text)) else None
  }

  function Sum(s: seq<Byte>): nat {
    if s == [] then 0 else Sum(s[..|s| - 1]) + s[|s| - 1]
  }

  const SPACES: seq<Byte> := [32, 32, 32, 32, 32, 32, 32, 32]

  /** The sum of the header's bytes, its checksum field read as spaces. */
  function Checksum(h: seq<Byte>): nat
    requires |h| == BLOCK
  {
    Sum(h[..148] + SPACES + h[156..])
  }

  /** `tarName`. */
  function TarName(h: seq<Byte>): Name
    requires |h| == BLOCK
  {
    var prefix := CutNul(h[345..500]);
    if prefix == [] then CutNul(h[..100]) else prefix + [SLASH] + CutNul(h[..100])
  }

  datatype Head = Head(path: Name, directory: bool, size: nat)

  function ReadHeader(h: seq<Byte>): Option<Head>
    requires |h| == BLOCK
  {
    var path := SafeArchivePath(TarName(h));
    var size := ReadNumber(h[124..136]);
    if path.None? || ReadNumber(h[148..156]) != Some(Checksum(h)) || size.None? then None
    else if h[156] != 0 && h[156] != 48 && h[156] != 53 then None
    else Some(Head(path.value, h[156] == 53, size.value))
  }

  // ---- The archive ----

  type Fold = Name -> Name

  /** How a header block is read. The loop does not depend on it. */
  type HeaderReader = seq<Byte> -> Option<Head>

  const USTAR: HeaderReader := h => if |h| == BLOCK then ReadHeader(h) else None

  function RoundUp(size: nat): (r: nat)
    ensures size <= r < size + BLOCK && r % BLOCK == 0
  {
    (size + 511) / BLOCK * BLOCK
  }

  function Paths(entries: seq<Entry>): set<Name> {
    set e | e in entries :: e.path
  }

  function FoldedPaths(entries: seq<Entry>, fold: Fold): set<Name> {
    set e | e in entries :: fold(e.path)
  }

  predicate Collides(entries: seq<Entry>, path: Name, fold: Fold) {
    path in Paths(entries) || fold(path) in FoldedPaths(entries, fold)
  }

  /** One round of the loop: an outcome, or where the next round starts. */
  datatype Round = Stop(out: Parsed) | Next(offset: nat, zeros: nat, entries: seq<Entry>)

  function RoundAt(bytes: seq<Byte>, offset: nat, zeros: nat, entries: seq<Entry>, fold: Fold,
                   read: HeaderReader): (r: Round)
    ensures r.Next? ==> offset + BLOCK <= |bytes| && r.offset > offset
  {
    if offset + BLOCK > |bytes| then Stop(Ending(bytes, offset, zeros, entries))
    else
      var h := bytes[offset..offset + BLOCK];
      if AllZero(h) then
        if zeros == 1 then Stop(Ending(bytes, offset + BLOCK, 2, entries)) else Next(offset + BLOCK, 1, entries)
      else
        match read(h)
        case None => Stop(Bad)
        case Some(head) => Take(bytes, offset + BLOCK, head, entries, fold)
  }

  function Take(bytes: seq<Byte>, at: nat, head: Head, entries: seq<Entry>, fold: Fold): (r: Round)
    requires at <= |bytes|
    ensures r.Next? ==> r.offset >= at
  {
    if head.size > |bytes| - at || Collides(entries, head.path, fold) then Stop(Bad)
    else Next(at + RoundUp(head.size), 0, entries + [EntryAt(bytes, at, head)])
  }

  function ParseFrom(bytes: seq<Byte>, offset: nat, zeros: nat, entries: seq<Entry>, fold: Fold,
                     read: HeaderReader): Parsed
    decreases |bytes| - offset
  {
    match RoundAt(bytes, offset, zeros, entries, fold, read)
    case Stop(out) => out
    case Next(o, z, es) => ParseFrom(bytes, o, z, es, fold, read)
  }

  function EntryAt(bytes: seq<Byte>, at: nat, head: Head): Entry
    requires at + head.size <= |bytes|
  {
    Entry(head.path, head.directory, if head.directory then [] else bytes[at..at + head.size])
  }

  function Ending(bytes: seq<Byte>, offset: nat, zeros: nat, entries: seq<Entry>): Parsed {
    if zeros < 2 || offset > |bytes| || !AllZero(bytes[offset..]) then Bad else Entries(entries)
  }

  const MAX_ARCHIVE_BYTES := 0x800_0000

  /** Decompression is a parameter; it fails for what is no gzip stream. */
  type Gunzip = seq<Byte> -> Option<seq<Byte>>

  /** Neither the archive nor what it decompresses to may be longer than the limit. */
  predicate Decompresses(gzip: seq<Byte>, gunzip: Gunzip) {
    |gzip| <= MAX_ARCHIVE_BYTES && gunzip(gzip).Some? && |gunzip(gzip).value| <= MAX_ARCHIVE_BYTES
  }

  /** `parseTar`. */
  method ParseTar(gzip: seq<Byte>, gunzip: Gunzip, fold: Fold) returns (out: Parsed)
    ensures out == if Decompresses(gzip, gunzip) then ParseFrom(gunzip(gzip).value, 0, 0, [], fold, USTAR) else Bad
  {
    if |gzip| > MAX_ARCHIVE_BYTES { return Bad; }
    var bytes := gunzip(gzip);
    if bytes.None? || |bytes.value| > MAX_ARCHIVE_BYTES { return Bad; }
    out := ReadBlocks(bytes.value, fold, USTAR);
  }

  /** Its loop over the offset, with the growing sets of names. */
  method ReadBlocks(bytes: seq<Byte>, fold: Fold, read: HeaderReader) returns (out: Parsed)
    ensures out == ParseFrom(bytes, 0, 0, [], fold, read)
  {
    var entries: seq<Entry> := [];
    var names: set<Name> := {};
    var foldedNames: set<Name> := {};
    var offset, zeroBlocks := 0, 0;
    while offset + BLOCK <= |bytes|
      invariant zeroBlocks <= 1
      invariant ParseFrom(bytes, offset, zeroBlocks, entries, fold, read) == ParseFrom(bytes, 0, 0, [], fold, read)
      invariant names == Paths(entries) && foldedNames == FoldedPaths(entries, fold)
      decreases |bytes| - offset
    {
      ghost var round := RoundAt(bytes, offset, zeroBlocks, entries, fold, read);
      var header := bytes[offset..offset + BLOCK];
      offset := offset + BLOCK;
      if AllZero(header) {
        zeroBlocks := zeroBlocks + 1;
        if zeroBlocks == 2 { break; }
        assert round == Next(offset, zeroBlocks, entries);
        continue;
      }
      zeroBlocks := 0;
      var head := read(header);
      if head.None? || head.value.size > |bytes| - offset { return Bad; }
      var path := head.value.path;
      if path in names || fold(path) in foldedNames { return Bad; }
      var entry := EntryAt(bytes, offset, head.value);
      GrowNames(entries, entry, fold);
      names := names + {path};
      foldedNames := foldedNames + {fold(path)};
      entries := entries + [entry];
      offset := offset + RoundUp(head.value.size);
      assert round == Next(offset, zeroBlocks, entries);
    }
    if zeroBlocks < 2 || offset > |bytes| { return Bad; }
    if !AllZero(bytes[offset..]) { return Bad; }
    return Entries(entries);
  }

  lemma GrowNames(entries: seq<Entry>, e: Entry, fold: Fold)
    ensures Paths(entries + [e]) == Paths(entries) + {e.path}
    ensures FoldedPaths(entries + [e], fold) == FoldedPaths(entries, fold) + {fold(e.path)}
  {
    assert forall x :: x in entries + [e] <==> x in entries || x == e;
  }

  // ---- Every accepted archive ----

  predicate Distinct(entries: seq<Entry>, fold: Fold) {
    forall i, j | 0 <= i < j < |entries| :: entries[i].path != entries[j].path
        && fold(entries[i].path) != fold(entries[j].path)
  }

  ghost predicate Accepted(path: Name) {
    exists name :: SafeArchivePath(name) == Some(path)
  }

  ghost predicate ReadsSafely(read: HeaderReader) {
    forall h :: read(h).Some? ==> Accepted(read(h).value.path)
  }

  ghost predicate AllSafe(entries: seq<Entry>) {
    forall i | 0 <= i < |entries| :: Accepted(entries[i].path)
  }

  lemma OneMore(entries: seq<Entry>, e: Entry, fold: Fold)
    requires Distinct(entries, fold) && AllSafe(entries) && Accepted(e.path) && !Collides(entries, e.path, fold)
    ensures Distinct(entries + [e], fold) && AllSafe(entries + [e])
  {
    forall i | 0 <= i < |entries| ensures entries[i].path != e.path && fold(entries[i].path) != fold(e.path) {
      assert entries[i] in entries;
      assert entries[i].path in Paths(entries) && fold(entries[i].path) in FoldedPaths(entries, fold);
    }
  }

  lemma RoundKeeps(bytes: seq<Byte>, offset: nat, zeros: nat, entries: seq<Entry>, fold: Fold, read: HeaderReader)
    requires Distinct(entries, fold) && AllSafe(entries) && ReadsSafely(read)
    ensures var r := RoundAt(bytes, offset, zeros, entries, fold, read);
            match r
            case Next(_, _, es) => Distinct(es, fold) && AllSafe(es)
            case Stop(out) => out.Entries? ==> out.entries == entries
  {
    if offset + BLOCK <= |bytes| && !AllZero(bytes[offset..offset + BLOCK]) {
      var head := read(bytes[offset..offset + BLOCK]);
      if head.Some? && Take(bytes, offset + BLOCK, head.value, entries, fold).Next? {
        OneMore(entries, EntryAt(bytes, offset + BLOCK, head.value), fold);
      }
    }
  }

  lemma {:induction false} AcceptedArchives(bytes: seq<Byte>, offset: nat, zeros: nat, entries: seq<Entry>,
      fold: Fold, read: HeaderReader)
    requires Distinct(entries, fold) && AllSafe(entries) && ReadsSafely(read)
    requires ParseFrom(bytes, offset, zeros, entries, fold, read).Entries?
    ensures var out := ParseFrom(bytes, offset, zeros, entries, fold, read).entries; Distinct(out, fold) && AllSafe(out)
    decreases |bytes| - offset
  {
    var r := RoundAt(bytes, offset, zeros, entries, fold, read);
    RoundKeeps(bytes, offset, zeros, entries, fold, read);
    if r.Next? { AcceptedArchives(bytes, r.offset, r.zeros, r.entries, fold, read); }
  }

  lemma UstarReadsSafely()
    ensures ReadsSafely(USTAR)
  {
    forall h | USTAR(h).Some? ensures Accepted(USTAR(h).value.path) {
      assert SafeArchivePath(TarName(h)) == Some(USTAR(h).value.path);
    }
  }

  /** What the reader accepts is free of collisions, and every path stays below any root it is joined to. */
  lemma AcceptedArchivesStayBelow(bytes: seq<Byte>, fold: Fold, i: nat, root: seq<Name>)
    requires var out := ParseFrom(bytes, 0, 0, [], fold, USTAR); out.Entries? && i < |out.entries|
    ensures var out := ParseFrom(bytes, 0, 0, [], fold, USTAR).entries;
            Distinct(out, fold) && Resolve(root, Split(out[i].path)) == root + Split(out[i].path)
  {
    UstarReadsSafely();
    AcceptedArchives(bytes, 0, 0, [], fold, USTAR);
    BelowRoot(ParseFrom(bytes, 0, 0, [], fold, USTAR).entries[i].path, root);
  }

  lemma BelowRoot(path: Name, root: seq<Name>)
    requires Accepted(path)
    ensures Resolve(root, Split(path)) == root + Split(path)
  {
    var name :| SafeArchivePath(name) == Some(path);
    AcceptedStaysBelowRoot(name, root);
  }
}
