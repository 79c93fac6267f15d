/**
 The archive reader: ustar blocks (POSIX.1, pax, "ustar Interchange Format") after
 decompression. Names are bytes; the case folding of the host language is a parameter.
 */
module Tar {

  import opened Options
  import opened Utf8

  type Name = seq<Byte>

  const SLASH: Byte := 47
  const DOT: Byte := 46
  const PACKAGE: Name := [112, 97, 99, 107, 97, 103, 101]

  // ---- Safe paths ----

  /** `split('/')`. */
  function Split(s: Name): (parts: seq<Name>)
    ensures parts != []
  {
    if s == [] then [[]]
    else
      var rest := Split(s[1..]);
      if s[0] == SLASH then [[]] + rest else [[s[0]] + rest[0]] + rest[1..]
  }

  /** `join('/')`. */
  function Join(parts: seq<Name>): Name {
    if parts == [] then []
    else if |parts| == 1 then parts[0]
    else parts[0] + [SLASH] + Join(parts[1..])
  }

  function LowerByte(b: Byte): Byte {
    if 65 <= b <= 90 then b + 32 else b
  }

  function LowerAscii(s: Name): Name {
    seq(|s|, i requires 0 <= i < |s| => LowerByte(s[i]))
  }

  /** The characters a `.` in a regular expression does not match: LF, CR and U+2028, U+2029. */
  predicate HasLineTerminator(s: Name) {
    exists i | 0 <= i < |s| ::
      s[i] == 10 || s[i] == 13 ||
      (i + 2 < |s| && s[i] == 0xE2 && s[i + 1] == 0x80 && (s[i + 2] == 0xA8 || s[i + 2] == 0xA9))
  }

  function Stem(part: Name): (stem: Name)
    ensures |stem| <= |part|
  {
    if part == [] || part[0] == DOT then [] else [part[0]] + Stem(part[1..])
  }

  predicate DeviceName(s: Name) {
    || s in {[99, 111, 110], [112, 114, 110], [97, 117, 120], [110, 117, 108], [99, 108, 111, 99, 107, 36]}
    || (|s| == 4 && (s[..3] == [99, 111, 109] || s[..3] == [108, 112, 116]) && 49 <= s[3] <= 57)
  }

  /** A name Windows reserves: a device, alone or with an extension. */
  predicate Reserved(part: Name) {
    var stem := Stem(part);
    DeviceName(LowerAscii(stem)) && !HasLineTerminator(part[|stem|..])
  }

  predicate SafePart(part: Name) {
    && part != [] && part != [DOT] && part != [DOT, DOT]
    && part[|part| - 1] != DOT && part[|part| - 1] != 32
    && !Reserved(part)
  }

  predicate PlainBytes(name: Name) {
    name != [] && name[0] != SLASH && forall i | 0 <= i < |name| :: name[i] != 0 && name[i] != 92 && name[i] != 58
  }

  /** `safeArchivePath`: the path below `package/`, or nothing. */
  function SafeArchivePath(name: Name): Option<Name> {
    var parts := Split(name);
    if !PlainBytes(name) || (exists i | 0 <= i < |parts| :: !SafePart(parts[i])) || parts[0] != PACKAGE
        || |parts| < 2 then None
    else Some(Join(parts[1..]))
  }

  // ---- Where a path leads ----

  /** The directory a relative path names, starting from `base`, the way a file system resolves it. */
  function Resolve(base: seq<Name>, parts: seq<Name>): seq<Name>
    decreases |parts|
  {
    if parts == [] then base
    else if parts[0] == [] || parts[0] == [DOT] then Resolve(base, parts[1..])
    else if parts[0] == [DOT, DOT] then Resolve(if base == [] then [] else base[..|base| - 1], parts[1..])
    else Resolve(base + [parts[0]], parts[1..])
  }

  lemma {:induction false} SafePartsDescend(base: seq<Name>, parts: seq<Name>)
    requires forall i | 0 <= i < |parts| :: SafePart(parts[i])
    ensures Resolve(base, parts) == base + parts
    decreases |parts|
  {
    if parts == [] {
      assert base + [] == base;
    } else {
      SafePartsDescend(base + [parts[0]], parts[1..]);
      assert base + [parts[0]] + parts[1..] == base + parts;
    }
  }

  predicate NoSlash(s: Name) {
    forall i | 0 <= i < |s| :: s[i] != SLASH
  }

  lemma {:induction false} SplitParts(s: Name)
    ensures forall i | 0 <= i < |Split(s)| :: NoSlash(Split(s)[i])
    ensures Join(Split(s)) == s
    decreases |s|
  {
    if s != [] {
      SplitParts(s[1..]);
      var rest := Split(s[1..]);
      assert s == [s[0]] + s[1..];
      if s[0] == SLASH {
        assert ([[]] + rest)[1..] == rest;
      } else {
        assert ([[s[0]] + rest[0]] + rest[1..])[1..] == rest[1..];
      }
    }
  }

  lemma {:induction false} SplitPlain(s: Name)
    requires NoSlash(s)
    ensures Split(s) == [s]
    decreases |s|
  {
    if s != [] {
      SplitPlain(s[1..]);
      assert s == [s[0]] + s[1..];
    }
  }

  lemma {:induction false} SplitAtSlash(a: Name, b: Name)
    requires NoSlash(a)
    ensures Split(a + [SLASH] + b) == [a] + Split(b)
    decreases |a|
  {
    var s := a + [SLASH] + b;
    if a == [] {
      assert s[1..] == b;
    } else {
      assert s[1..] == a[1..] + [SLASH] + b;
      SplitAtSlash(a[1..], b);
      assert a == [a[0]] + a[1..];
      assert ([a[1..]] + Split(b))[1..] == Split(b);
    }
  }

  lemma {:induction false} SplitJoin(parts: seq<Name>)
    requires parts != [] && forall i | 0 <= i < |parts| :: NoSlash(parts[i])
    ensures Split(Join(parts)) == parts
    decreases |parts|
  {
    if |parts| == 1 {
      SplitPlain(parts[0]);
    } else {
      SplitJoin(parts[1..]);
      SplitAtSlash(parts[0], Join(parts[1..]));
    }
  }

  /** Whatever name is accepted, its path joined to a root leads strictly below that root. */
  lemma AcceptedStaysBelowRoot(name: Name, root: seq<Name>)
    requires SafeArchivePath(name).Some?
    ensures var parts := Split(SafeArchivePath(name).value);
            parts != [] && Resolve(root, parts) == root + parts && forall i | 0 <= i < |parts| :: SafePart(parts[i])
  {
    var parts := Split(name);
    SplitParts(name);
    SplitJoin(parts[1..]);
    SafePartsDescend(root, parts[1..]);
  }

  /** Paths made of safe parts are accepted, and come back as they were. */
  lemma SafePathsAreAccepted(path: Name)
    requires PlainBytes(path) && forall i | 0 <= i < |Split(path)| :: SafePart(Split(path)[i])
    ensures SafeArchivePath(PACKAGE + [SLASH] + path) == Some(path)
  {
    var name := PACKAGE + [SLASH] + path;
    SplitAtSlash(PACKAGE, path);
    SplitParts(path);
    PackageIsSafe();
    var parts := Split(name);
    assert parts == [PACKAGE] + Split(path) && parts[1..] == Split(path);
    forall i | 0 <= i < |parts| ensures SafePart(parts[i]) {
      if i > 0 { assert parts[i] == Split(path)[i - 1]; }
    }
    PlainJoins(path);
  }

  lemma PlainJoins(path: Name)
    requires PlainBytes(path)
    ensures PlainBytes(PACKAGE + [SLASH] + path)
  {
    var name := PACKAGE + [SLASH] + path;
    forall i | 0 <= i < |name| ensures name[i] != 0 && name[i] != 92 && name[i] != 58 {
      if i >= 8 { assert name[i] == path[i - 8]; }
    }
  }

  lemma PackageIsSafe()
    ensures SafePart(PACKAGE)
  {
    StemPlain(PACKAGE);
    assert |LowerAscii(PACKAGE)| == 7;
  }

  lemma {:induction false} StemPlain(s: Name)
    requires forall i | 0 <= i < |s| :: s[i] != DOT
    ensures Stem(s) == s
    decreases |s|
  {
    if s != [] { StemPlain(s[1..]); }
  }
}
