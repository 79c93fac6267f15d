/**
 Listing the outbox a page at a time. A page keeps, while the directory streams by in any
 order, only the `limit + 1` least ids beyond the cursor. The specification sorts the whole
 directory; the method refines it, and following the cursors reads every record once.
 */
module OutboxPages {

  import opened Options
  import opened Outbox

  const MAX_LIMIT := 1000

  // ---- The order of ids ----

  /** Strings are compared unit by unit; a proper prefix comes first. */
  predicate Less(a: Id, b: Id)
    decreases |a|
  {
    if b == "" then false
    else if a == "" then true
    else a[0] < b[0] || (a[0] == b[0] && Less(a[1..], b[1..]))
  }

  lemma {:induction false} LessTrichotomy(a: Id, b: Id)
    ensures Less(a, b) || a == b || Less(b, a)
    ensures !(Less(a, b) && Less(b, a)) && !Less(a, a)
    decreases |a|
  {
    if a != "" {
      if b != "" && a[0] == b[0] {
        LessTrichotomy(a[1..], b[1..]);
        assert a == [a[0]] + a[1..] && b == [b[0]] + b[1..];
      }
      LessTrichotomy(a[1..], a[1..]);
    }
  }

  lemma {:induction false} LessTransitive(a: Id, b: Id, c: Id)
    requires Less(a, b) && Less(b, c)
    ensures Less(a, c)
    decreases |a|
  {
    if a != "" && a[0] == b[0] == c[0] { LessTransitive(a[1..], b[1..], c[1..]); }
  }

  function IdOf(r: Record): Id {
    r.identity.id
  }

  predicate Sorted(s: seq<Record>) {
    forall i, j | 0 <= i < j < |s| :: Less(IdOf(s[i]), IdOf(s[j]))
  }

  predicate DistinctIds(s: seq<Record>) {
    forall i, j | 0 <= i < j < |s| :: IdOf(s[i]) != IdOf(s[j])
  }

  predicate Beyond(r: Record, after: Option<Id>) {
    after.Some? ==> Less(after.value, IdOf(r))
  }

  // ---- The specification ----

  /** The records beyond the cursor, inserted one by one. */
  function SortedBeyond(entries: seq<Record>, after: Option<Id>): seq<Record> {
    if entries == [] then []
    else
      var s := SortedBeyond(entries[..|entries| - 1], after);
      var r := entries[|entries| - 1];
      if Beyond(r, after) then Insert(s, r) else s
  }

  function Insert(s: seq<Record>, r: Record): seq<Record> {
    if s == [] then [r]
    else if Less(IdOf(s[0]), IdOf(r)) then [s[0]] + Insert(s[1..], r)
    else [r] + s
  }

  function Take(s: seq<Record>, n: nat): seq<Record> {
    if |s| <= n then s else s[..n]
  }

  datatype Page = Page(records: seq<Record>, next: Option<Id>)

  function PageOf(entries: seq<Record>, after: Option<Id>, limit: nat): Page
    requires limit >= 1
  {
    var s := SortedBeyond(entries, after);
    Page(Take(s, limit), if |s| > limit then Some(IdOf(s[limit - 1])) else None)
  }

  // ---- Inserting ----

  lemma {:induction false} InsertLength(s: seq<Record>, r: Record)
    ensures |Insert(s, r)| == |s| + 1
    ensures forall x :: x in Insert(s, r) <==> x in s || x == r
    decreases |s|
  {
    if s != [] && Less(IdOf(s[0]), IdOf(r)) {
      InsertLength(s[1..], r);
      assert s == [s[0]] + s[1..];
    }
  }

  lemma {:induction false} InsertSorted(s: seq<Record>, r: Record)
    requires Sorted(s) && forall i | 0 <= i < |s| :: IdOf(s[i]) != IdOf(r)
    ensures Sorted(Insert(s, r))
    decreases |s|
  {
    if s == [] {
    } else if Less(IdOf(s[0]), IdOf(r)) {
      InsertSorted(s[1..], r);
      InsertLength(s[1..], r);
      var t := Insert(s[1..], r);
      forall i | 0 <= i < |t| ensures Less(IdOf(s[0]), IdOf(t[i])) {
        assert t[i] in t;
        if t[i] != r {
          var k :| 0 <= k < |s[1..]| && s[1..][k] == t[i];
          assert s[k + 1] == t[i];
        }
      }
    } else {
      LessTrichotomy(IdOf(s[0]), IdOf(r));
      forall i | 0 <= i < |s| ensures Less(IdOf(r), IdOf(s[i])) {
        if i > 0 { LessTransitive(IdOf(r), IdOf(s[0]), IdOf(s[i])); }
      }
    }
  }

  /** Dropping all but the first `n` loses nothing that a later insertion would need. */
  lemma {:induction false} InsertTake(s: seq<Record>, r: Record, n: nat)
    ensures Take(Insert(Take(s, n), r), n) == Take(Insert(s, r), n)
    decreases |s|
  {
    InsertLength(s, r);
    InsertLength(Take(s, n), r);
    if |s| > n {
      if n == 0 {
      } else if Less(IdOf(s[0]), IdOf(r)) {
        InsertTake(s[1..], r, n - 1);
        assert Take(s, n)[1..] == Take(s[1..], n - 1);
        assert Insert(s, r)[1..] == Insert(s[1..], r);
      } else {
        assert ([r] + s)[..n] == [r] + s[..n - 1];
        assert ([r] + s[..n])[..n] == [r] + s[..n - 1];
      }
    }
  }

  /** Where the loop stops is where the specification inserts. */
  lemma {:induction false} InsertAt(s: seq<Record>, r: Record, i: nat)
    requires i <= |s|
    requires forall k | 0 <= k < i :: Less(IdOf(s[k]), IdOf(r))
    requires i < |s| ==> !Less(IdOf(s[i]), IdOf(r))
    ensures Insert(s, r) == s[..i] + [r] + s[i..]
    decreases i
  {
    if i > 0 {
      InsertAt(s[1..], r, i - 1);
      assert s[1..][..i - 1] == s[1..i] && s[1..][i - 1..] == s[i..];
      assert s[..i] == [s[0]] + s[1..i];
    }
  }

  // ---- The method ----

  predicate ValidId(id: Id) {
    1 <= |id| <= 96 && forall i | 0 <= i < |id| :: IdChar(id[i])
  }

  predicate IdChar(c: char) {
    'A' <= c <= 'Z' || 'a' <= c <= 'z' || '0' <= c <= '9' || c == '_' || c == '-'
  }

  datatype Listing = Listed(page: Page) | OutOfBounds | Unreadable

  /** An entry of the directory: another kind of file, a readable record, or a misnamed, irregular or unreadable one. */
  datatype DirEntry = Other | Holds(record: Record) | Broken

  /** The readable records of a directory, in its order. */
  function RecordsOf(dir: seq<DirEntry>): seq<Record> {
    if dir == [] then []
    else RecordsOf(dir[..|dir| - 1]) + if dir[|dir| - 1].Holds? then [dir[|dir| - 1].record] else []
  }

  lemma OneMoreFile(dir: seq<DirEntry>, i: nat)
    requires i < |dir|
    ensures RecordsOf(dir[..i + 1]) == RecordsOf(dir[..i]) + if dir[i].Holds? then [dir[i].record] else []
  {
    assert dir[..i + 1][..i] == dir[..i];
  }

  /** The first retained record that does not come before the new one. */
  method FindIndex(retained: seq<Record>, r: Record) returns (index: nat)
    ensures index <= |retained|
    ensures forall k | 0 <= k < index :: Less(IdOf(retained[k]), IdOf(r))
    ensures index < |retained| ==> !Less(IdOf(retained[index]), IdOf(r))
  {
    index := 0;
    while index < |retained| && Less(IdOf(retained[index]), IdOf(r))
      invariant index <= |retained|
      invariant forall k | 0 <= k < index :: Less(IdOf(retained[k]), IdOf(r))
    {
      index := index + 1;
    }
  }

  /** One record of the stream: it is inserted at its place, and what no longer fits is dropped from the end. */
  method Retain(retained: seq<Record>, r: Record, most: nat, ghost all: seq<Record>) returns (next: seq<Record>)
    requires retained == Take(all, most)
    ensures next == Take(Insert(all, r), most)
  {
    var index := FindIndex(retained, r);
    InsertAt(retained, r, index);
    InsertTake(all, r, most);
    InsertLength(retained, r);
    next := retained[..index] + [r] + retained[index..];
    if |next| > most { next := next[..|next| - 1]; }
  }

  lemma OneMoreEntry(entries: seq<Record>, r: Record, after: Option<Id>)
    ensures var s := SortedBeyond(entries, after);
            SortedBeyond(entries + [r], after) == if Beyond(r, after) then Insert(s, r) else s
  {
    assert (entries + [r])[..|entries|] == entries;
  }

  /** The visitor: a record at or before the cursor is passed over. */
  method Visit(retained: seq<Record>, r: Record, most: nat, after: Option<Id>, ghost before: seq<Record>)
    returns (next: seq<Record>)
    requires retained == Take(SortedBeyond(before, after), most)
    ensures next == Take(SortedBeyond(before + [r], after), most)
  {
    OneMoreEntry(before, r, after);
    next := retained;
    if Beyond(r, after) { next := Retain(retained, r, most, SortedBeyond(before, after)); }
  }

  /** `listPage` over the stream of the directory; one bad entry ends it. */
  method ListPage(dir: seq<DirEntry>, after: Option<Id>, limit: int) returns (out: Listing)
    ensures out.OutOfBounds? <==> (after.Some? && !ValidId(after.value)) || limit < 1 || limit > MAX_LIMIT
    ensures !out.OutOfBounds? ==> (out.Listed? <==> Broken !in dir)
    ensures out.Listed? ==> out.page == PageOf(RecordsOf(dir), after, limit)
  {
    if (after.Some? && !ValidId(after.value)) || limit < 1 || limit > MAX_LIMIT { return OutOfBounds; }
    var retained: seq<Record> := [];
    var i := 0;
    while i < |dir|
      invariant 0 <= i <= |dir| && Broken !in dir[..i]
      invariant retained == Take(SortedBeyond(RecordsOf(dir[..i]), after), limit + 1)
    {
      if dir[i].Broken? { return Unreadable; }
      OneMoreFile(dir, i);
      ghost var before := RecordsOf(dir[..i]);
      assert !dir[i].Holds? ==> RecordsOf(dir[..i + 1]) == before;
      if dir[i].Holds? { retained := Visit(retained, dir[i].record, limit + 1, after, before); }
      i := i + 1;
    }
    assert dir[..i] == dir;
    var hasMore := |retained| > limit;
    return Listed(Page(if hasMore then retained[..limit] else retained, if hasMore
        then Some(IdOf(retained[limit - 1])) else None));
  }

  // ---- A page is the least records beyond the cursor ----

  lemma {:induction false} BeyondIsSorted(entries: seq<Record>, after: Option<Id>)
    requires DistinctIds(entries)
    ensures Sorted(SortedBeyond(entries, after))
    ensures forall r :: r in SortedBeyond(entries, after) <==> r in entries && Beyond(r, after)
    decreases |entries|
  {
    if entries != [] {
      var n := |entries| - 1;
      var r := entries[n];
      var s := SortedBeyond(entries[..n], after);
      BeyondIsSorted(entries[..n], after);
      assert entries == entries[..n] + [r];
      if Beyond(r, after) {
        forall i | 0 <= i < |s| ensures IdOf(s[i]) != IdOf(r) {
          assert s[i] in entries[..n];
          var k :| 0 <= k < n && entries[..n][k] == s[i];
          assert entries[k] == s[i];
        }
        InsertSorted(s, r);
        InsertLength(s, r);
      }
    }
  }

  lemma HeadIsElement(s: seq<Record>)
    requires s != []
    ensures s[0] in s
  {}

  /** A strictly sorted list is determined by its elements, so the order of the directory does not matter. */
  lemma {:induction false} SortedIsUnique(s: seq<Record>, t: seq<Record>)
    requires Sorted(s) && Sorted(t) && forall r :: r in s <==> r in t
    ensures s == t
    decreases |s|
  {
    if s == [] {
      if t != [] {
        HeadIsElement(t);
        assert false;
      }
    } else {
      assert s[0] in t;
      HeadsAgree(s, t);
      TailsAgree(s, t);
      SortedIsUnique(s[1..], t[1..]);
      assert s == [s[0]] + s[1..] && t == [t[0]] + t[1..];
    }
  }

  lemma HeadsAgree(s: seq<Record>, t: seq<Record>)
    requires Sorted(s) && Sorted(t) && s != [] && t != [] && s[0] in t && t[0] in s
    ensures s[0] == t[0]
  {
    var i :| 0 <= i < |t| && t[i] == s[0];
    var j :| 0 <= j < |s| && s[j] == t[0];
    LessTrichotomy(IdOf(s[0]), IdOf(t[0]));
    if i > 0 && j > 0 { assert false; }
  }

  lemma TailsAgree(s: seq<Record>, t: seq<Record>)
    requires Sorted(s) && Sorted(t) && s != [] && t != [] && s[0] == t[0] && forall r :: r in s <==> r in t
    ensures forall r :: r in s[1..] <==> r in t[1..]
  {
    assert s == [s[0]] + s[1..] && t == [t[0]] + t[1..];
    HeadIsLeast(s);
    HeadIsLeast(t);
    forall r ensures r in s[1..] <==> r in t[1..] {
      assert r in s[1..] ==> r in s && r in t && r != t[0];
      assert r in t[1..] ==> r in t && r in s && r != s[0];
    }
  }

  lemma HeadIsLeast(s: seq<Record>)
    requires Sorted(s) && s != []
    ensures s[0] !in s[1..]
  {
    if s[0] in s[1..] {
      var i :| 0 <= i < |s[1..]| && s[1..][i] == s[0];
      assert Less(IdOf(s[0]), IdOf(s[i + 1]));
      LessTrichotomy(IdOf(s[0]), IdOf(s[0]));
      assert false;
    }
  }

  lemma AnyOrderWillDo(d: seq<Record>, e: seq<Record>, after: Option<Id>)
    requires DistinctIds(d) && DistinctIds(e) && forall r :: r in d <==> r in e
    ensures SortedBeyond(d, after) == SortedBeyond(e, after)
  {
    BeyondIsSorted(d, after);
    BeyondIsSorted(e, after);
    SortedIsUnique(SortedBeyond(d, after), SortedBeyond(e, after));
  }

  /** Beyond the cursor of a page lies exactly the rest. */
  lemma NextPageIsRest(d: seq<Record>, after: Option<Id>, limit: nat)
    requires DistinctIds(d) && 1 <= limit < |SortedBeyond(d, after)|
    ensures var s := SortedBeyond(d, after); SortedBeyond(d, Some(IdOf(s[limit - 1]))) == s[limit..]
  {
    var s := SortedBeyond(d, after);
    var cursor := Some(IdOf(s[limit - 1]));
    var t := SortedBeyond(d, cursor);
    BeyondIsSorted(d, after);
    BeyondIsSorted(d, cursor);
    forall r ensures r in t <==> r in s[limit..] {
      if r in t {
        if after.Some? {
          assert s[limit - 1] in s;
          LessTransitive(after.value, cursor.value, IdOf(r));
        }
        var i :| 0 <= i < |s| && s[i] == r;
        LessTrichotomy(cursor.value, IdOf(r));
        assert limit <= i;
        assert s[limit..][i - limit] == r;
      }
      if r in s[limit..] {
        var i :| 0 <= i < |s[limit..]| && s[limit..][i] == r;
        assert s[limit + i] == r && r in s;
      }
    }
    SortedIsUnique(t, s[limit..]);
  }

  // ---- Following the cursors ----

  /** Page after page, each read from the directory as it is by then, until there is no cursor. */
  function Walk(dirs: seq<seq<Record>>, after: Option<Id>, limit: nat): seq<Record>
    requires limit >= 1
    decreases |dirs|
  {
    if dirs == [] then []
    else
      var page := PageOf(dirs[0], after, limit);
      page.records + if page.next.None? then [] else Walk(dirs[1..], page.next, limit)
  }

  /** The walk has met a page without a cursor. */
  predicate Finished(dirs: seq<seq<Record>>, after: Option<Id>, limit: nat)
    requires limit >= 1
    decreases |dirs|
  {
    dirs != [] && var page := PageOf(dirs[0], after, limit); page.next.None? || Finished(dirs[1..], page.next, limit)
  }

  ghost predicate Unchanged(dirs: seq<seq<Record>>, d: seq<Record>) {
    forall i | 0 <= i < |dirs| :: DistinctIds(dirs[i]) && forall r :: r in dirs[i] <==> r in d
  }

  /** Over an unchanging directory, in whatever order it streams, the pages are all records, once, in order. */
  lemma {:induction false} WalkIsComplete(dirs: seq<seq<Record>>, d: seq<Record>, after: Option<Id>, limit: nat)
    requires limit >= 1 && DistinctIds(d) && dirs != [] && Unchanged(dirs, d)
    requires |SortedBeyond(d, after)| <= |dirs| * limit
    ensures Finished(dirs, after, limit) && Walk(dirs, after, limit) == SortedBeyond(d, after)
    decreases |dirs|
  {
    AnyOrderWillDo(dirs[0], d, after);
    var s := SortedBeyond(d, after);
    if |s| > limit {
      NextPageIsRest(d, after, limit);
      assert |dirs| * limit == (|dirs| - 1) * limit + limit;
      assert |s[limit..]| <= |dirs[1..]| * limit;
      WalkIsComplete(dirs[1..], d, Some(IdOf(s[limit - 1])), limit);
      assert s == s[..limit] + s[limit..];
    }
  }

  /** The cursor is the last id of its page. */
  lemma PageFacts(d: seq<Record>, after: Option<Id>, limit: nat)
    requires limit >= 1 && DistinctIds(d)
    ensures var page := PageOf(d, after, limit);
            && Sorted(page.records)
            && (forall r | r in page.records :: Beyond(r, after))
            && (page.next.Some? ==> page.records != [] && IdOf(page.records[|page.records| - 1]) == page.next.value)
            && (forall r | r in d && Beyond(r, after) && !(page.next.Some? && Beyond(r, page.next)) ::
                r in page.records)
  {
    var s := SortedBeyond(d, after);
    var page := PageOf(d, after, limit);
    BeyondIsSorted(d, after);
    forall r | r in page.records ensures Beyond(r, after) { assert r in s; }
    forall r | r in d && Beyond(r, after) && !(page.next.Some? && Beyond(r, page.next)) ensures r in page.records {
      var i :| 0 <= i < |s| && s[i] == r;
      if page.next.Some? {
        assert i < limit;
        assert page.records[i] == r;
      }
    }
  }

  /** However the directory changes between pages, the walk never returns an id twice or out of order. */
  lemma {:induction false} WalkIsSorted(dirs: seq<seq<Record>>, after: Option<Id>, limit: nat)
    requires limit >= 1 && forall i | 0 <= i < |dirs| :: DistinctIds(dirs[i])
    ensures Sorted(Walk(dirs, after, limit)) && forall r | r in Walk(dirs, after, limit) :: Beyond(r, after)
    decreases |dirs|
  {
    if dirs != [] {
      var page := PageOf(dirs[0], after, limit);
      PageFacts(dirs[0], after, limit);
      if page.next.Some? {
        WalkIsSorted(dirs[1..], page.next, limit);
        JoinSorted(page.records, Walk(dirs[1..], page.next, limit), after);
      }
    }
  }

  lemma JoinSorted(s: seq<Record>, t: seq<Record>, after: Option<Id>)
    requires Sorted(s) && Sorted(t) && s != [] && forall r | r in s :: Beyond(r, after)
    requires forall r | r in t :: Beyond(r, Some(IdOf(s[|s| - 1])))
    ensures Sorted(s + t) && forall r | r in s + t :: Beyond(r, after)
  {
    var last := s[|s| - 1];
    assert last in s;
    forall i, j | 0 <= i < j < |s + t| ensures Less(IdOf((s + t)[i]), IdOf((s + t)[j])) {
      if i < |s| && j >= |s| {
        assert (s + t)[j] in t;
        if i < |s| - 1 { LessTransitive(IdOf(s[i]), IdOf(last), IdOf((s + t)[j])); }
      }
    }
    forall r | r in s + t ensures Beyond(r, after) {
      if r in t && after.Some? { LessTransitive(after.value, IdOf(last), IdOf(r)); }
    }
  }

  predicate Lists(d: seq<Record>, id: Id) {
    exists r | r in d :: IdOf(r) == id
  }

  /** A record that is there throughout is returned, however others come and go. */
  lemma {:induction false} PresentThroughoutIsReturned(dirs: seq<seq<Record>>, after: Option<Id>, limit: nat, id: Id)
    requires limit >= 1 && Finished(dirs, after, limit) && (after.Some? ==> Less(after.value, id))
    requires forall i | 0 <= i < |dirs| :: DistinctIds(dirs[i]) && Lists(dirs[i], id)
    ensures Lists(Walk(dirs, after, limit), id)
    decreases |dirs|
  {
    var page := PageOf(dirs[0], after, limit);
    PageFacts(dirs[0], after, limit);
    assert Lists(dirs[0], id);
    var r :| r in dirs[0] && IdOf(r) == id;
    if page.next.Some? && Less(page.next.value, id) {
      PresentThroughoutIsReturned(dirs[1..], page.next, limit, id);
      var q :| q in Walk(dirs[1..], page.next, limit) && IdOf(q) == id;
      assert q in Walk(dirs, after, limit);
    } else {
      assert r in Walk(dirs, after, limit);
    }
  }
}
