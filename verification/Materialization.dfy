/** Parity validation of an extracted seed: hard-link chains and what their checks add up to. */
module Materialization {
  import opened Common
  import opened ArchivePaths

  datatype Kind = RegularFile | Folder | Symlink | Hardlink | Unsupported

  datatype TarMember = TarMember(name: string, kind: Kind, uid: int, gid: int, mode: int, linkname: string)

  datatype Entry = Entry(path: Path, kind: Kind, uid: int, gid: int, mode: int, linkname: Option<string>)

  type Expected = map<Path, Entry>

  datatype SeedError = UnsafePath | DuplicatePath | UnsupportedType | EmptyArchive
    | LinkCycle | NoLinkTarget | MissingTarget | ParityFailed

  predicate Readable(m: TarMember) { MemberPath(m.name).Ok? && m.kind != Unsupported }

  /** Where a readable member is recorded. */
  function PathOf(m: TarMember): Path {
    if MemberPath(m.name).Ok? then MemberPath(m.name).value else []
  }

  function EntryOf(m: TarMember): (e: Entry)
    ensures e.path == PathOf(m) && Linked(e)
  {
    Entry(PathOf(m), m.kind, m.uid, m.gid, m.mode, if m.kind == Hardlink || m.kind == Symlink then Some(m.linkname) else None)
  }

  /** Exactly the two kinds of link carry a link name. */
  predicate Linked(e: Entry) { e.linkname.Some? <==> e.kind == Hardlink || e.kind == Symlink }

  /** The expected paths of an archive: each entry under its own path. */
  ghost predicate WellKeyed(x: Expected) {
    forall p :: p in x ==> x[p].path == p && Linked(x[p])
  }

  /** Every member is readable and no two of the first `i` share a path. */
  ghost predicate ReadableArchive(ms: seq<TarMember>, i: nat)
    requires i <= |ms|
  {
    (forall k :: 0 <= k < i ==> Readable(ms[k])) &&
    (forall j, k :: 0 <= j < k < i ==> PathOf(ms[j]) != PathOf(ms[k]))
  }

  ghost predicate Records(x: Expected, ms: seq<TarMember>, i: nat)
    requires i <= |ms|
  {
    (forall k :: 0 <= k < i ==> PathOf(ms[k]) in x && x[PathOf(ms[k])] == EntryOf(ms[k])) &&
    (forall p :: p in x ==> exists k :: 0 <= k < i && PathOf(ms[k]) == p)
  }

  /** Reading succeeds exactly on a non-empty archive of readable members at distinct paths, and keeps them all. */
  method ReadExpectedPaths(ms: seq<TarMember>) returns (r: Result<Expected, SeedError>)
    ensures r.Ok? <==> ms != [] && ReadableArchive(ms, |ms|)
    ensures r.Ok? ==> WellKeyed(r.value) && Records(r.value, ms, |ms|)
  {
    hide MemberPath, PathOf, EntryOf, Linked;
    var x: Expected := map[];
    for i := 0 to |ms|
      invariant ReadableArchive(ms, i) && Records(x, ms, i)
      invariant x == map[] ==> i == 0
    {
      if MemberPath(ms[i].name).Err? {
        assert !Readable(ms[i]);
        return Err(UnsafePath);
      }
      if PathOf(ms[i]) in x { return Err(DuplicatePath); }
      if ms[i].kind == Unsupported {
        assert !Readable(ms[i]);
        return Err(UnsupportedType);
      }
      RecordOne(x, ms, i);
      x := x[PathOf(ms[i]) := EntryOf(ms[i])];
    }
    if x == map[] { return Err(EmptyArchive); }
    RecordsAreKeyed(x, ms);
    return Ok(x);
  }

  lemma RecordOne(x: Expected, ms: seq<TarMember>, i: nat)
    requires i < |ms| && Records(x, ms, i) && ReadableArchive(ms, i) && Readable(ms[i]) && PathOf(ms[i]) !in x
    ensures ReadableArchive(ms, i + 1) && Records(x[PathOf(ms[i]) := EntryOf(ms[i])], ms, i + 1)
  {
    hide Readable, PathOf, EntryOf;
    var y := x[PathOf(ms[i]) := EntryOf(ms[i])];
    forall p | p in y ensures exists k :: 0 <= k < i + 1 && PathOf(ms[k]) == p {
      if p in x {
        var k :| 0 <= k < i && PathOf(ms[k]) == p;
      }
    }
  }

  lemma RecordsAreKeyed(x: Expected, ms: seq<TarMember>)
    requires Records(x, ms, |ms|)
    ensures WellKeyed(x)
  {
    hide Linked, PathOf;
    forall p | p in x ensures x[p].path == p && Linked(x[p]) {
      var k :| 0 <= k < |ms| && PathOf(ms[k]) == p;
    }
  }

  // ----- Hard-link chains -----

  /** Where one hard link points, if it points anywhere. */
  function Next(x: Expected, e: Entry): Result<Entry, SeedError> {
    if e.linkname.None? then Err(NoLinkTarget)
    else
      var target := MemberPath(e.linkname.value);
      if target.Err? then Err(UnsafePath)
      else if target.value !in x then Err(MissingTarget)
      else Ok(x[target.value])
  }

  /** Following `n` hard links from `e` arrives at `c`, which is no hard link. */
  ghost predicate Content(x: Expected, e: Entry, c: Entry, n: nat)
    decreases n
  {
    if e.kind != Hardlink then n == 0 && c == e
    else n > 0 && Next(x, e).Ok? && Content(x, Next(x, e).value, c, n - 1)
  }

  ghost predicate HasContent(x: Expected, e: Entry) {
    exists c: Entry, n: nat :: Content(x, e, c, n)
  }

  /** A run of hard links, each pointing at the next. */
  ghost predicate Chain(x: Expected, tr: seq<Entry>) {
    (forall i :: 0 <= i < |tr| ==> tr[i].kind == Hardlink) &&
    (forall i :: 0 <= i < |tr| - 1 ==> Next(x, tr[i]) == Ok(tr[i + 1]))
  }

  lemma {:induction false} AlongChain(x: Expected, tr: seq<Entry>, k: nat, c: Entry, n: nat)
    requires Chain(x, tr) && k < |tr| && Content(x, tr[0], c, n)
    ensures n > k && Content(x, tr[k], c, n - k)
  {
    if k > 0 {
      AlongChain(x, tr, k - 1, c, n);
      assert Next(x, tr[k - 1]) == Ok(tr[k]);
    }
  }

  /** A chain that runs back into itself has no content. */
  lemma {:induction false} CycleHasNoContent(x: Expected, tr: seq<Entry>, back: nat, k: nat, c: Entry, n: nat)
    requires Chain(x, tr) && back < |tr| && k < |tr| && Next(x, tr[|tr| - 1]) == Ok(tr[back])
    ensures !Content(x, tr[k], c, n)
    decreases n
  {
    if Content(x, tr[k], c, n) {
      CycleHasNoContent(x, tr, back, if k < |tr| - 1 then k + 1 else back, c, n - 1);
    }
  }

  /** The set of visited paths is the set of paths of the links walked. */
  ghost predicate Visited(x: Expected, visited: set<Path>, tr: seq<Entry>) {
    forall p :: p in visited <==> p in x && x[p] in tr && x[p].path == p
  }

  lemma VisitOne(x: Expected, visited: set<Path>, tr: seq<Entry>, e: Entry)
    requires Visited(x, visited, tr) && e.path in x && x[e.path] == e
    ensures Visited(x, visited + {e.path}, tr + [e])
  {}

  /** The chain walker: it finds the content of an entry exactly when the chain has one. */
  method ContentEntry(x: Expected, entry: Entry) returns (r: Result<Entry, SeedError>)
    requires WellKeyed(x) && entry.path in x && x[entry.path] == entry
    ensures r.Ok? <==> HasContent(x, entry)
    ensures r.Ok? ==> exists n: nat :: Content(x, entry, r.value, n)
  {
    var visited: set<Path> := {};
    var current := entry;
    ghost var tr: seq<Entry> := [];
    while current.kind == Hardlink
      invariant Chain(x, tr) && current.path in x && x[current.path] == current
      invariant tr != [] ==> tr[0] == entry && Next(x, tr[|tr| - 1]) == Ok(current)
      invariant tr == [] ==> current == entry
      invariant forall c: Entry, n: nat :: Content(x, current, c, n) ==> Content(x, entry, c, n + |tr|)
      invariant Visited(x, visited, tr)
      invariant visited <= x.Keys
      decreases x.Keys - visited
    {
      if current.path in visited {
        ghost var back :| 0 <= back < |tr| && tr[back] == current;
        forall c: Entry, n: nat ensures !Content(x, entry, c, n) {
          CycleHasNoContent(x, tr, back, 0, c, n);
        }
        return Err(LinkCycle);
      }
      ghost var longer := tr + [current];
      VisitOne(x, visited, tr, current);
      visited := visited + {current.path};
      assert Chain(x, longer) && longer[0] == entry;
      assert longer[|tr|] == current;
      var next := Next(x, current);
      if next.Err? {
        forall c: Entry, n: nat ensures !Content(x, entry, c, n) {
          if Content(x, entry, c, n) { AlongChain(x, longer, |tr|, c, n); }
        }
        return Err(next.error);
      }
      forall c: Entry, n: nat | Content(x, next.value, c, n) ensures Content(x, entry, c, n + |longer|) {
        assert Content(x, current, c, n + 1);
      }
      tr := longer;
      current := next.value;
    }
    assert Content(x, current, current, 0);
    assert Content(x, entry, current, |tr|);
    return Ok(current);
  }

  lemma {:induction false} ContentIsUnique(x: Expected, e: Entry, c: Entry, n: nat, d: Entry, m: nat)
    requires Content(x, e, c, n) && Content(x, e, d, m)
    ensures c == d && n == m
    decreases n
  {
    if e.kind == Hardlink { ContentIsUnique(x, Next(x, e).value, c, n - 1, d, m - 1); }
  }

  lemma {:induction false} ContentIsExpected(x: Expected, e: Entry, c: Entry, n: nat)
    requires WellKeyed(x) && e.path in x && x[e.path] == e && Content(x, e, c, n)
    ensures c.path in x && x[c.path] == c && c.kind != Hardlink
    decreases n
  {
    if e.kind == Hardlink { ContentIsExpected(x, Next(x, e).value, c, n - 1); }
  }

  // ----- Parity -----

  /** What `lstat` and `readlink` report for one extracted path. */
  datatype Stat = Stat(kind: Kind, uid: int, gid: int, mode: int, device: int, inode: int, target: string)

  type Extracted = map<Path, Stat>

  predicate SameFile(a: Stat, b: Stat) { a.device == b.device && a.inode == b.inode }

  predicate Matches(s: Stat, c: Entry) {
    s.kind == c.kind && s.uid == c.uid && s.gid == c.gid && s.mode == c.mode &&
    (c.kind == Symlink ==> Some(s.target) == c.linkname)
  }

  /** The check made for one path: its own attributes, and one hard-link edge. */
  ghost predicate EntryChecked(x: Expected, fs: Extracted, p: Path)
    requires p in x
  {
    p in fs && (exists c: Entry, n: nat :: Content(x, x[p], c, n) && Matches(fs[p], c)) &&
    (x[p].kind == Hardlink ==> Next(x, x[p]).Ok? && Next(x, x[p]).value.path in fs && SameFile(fs[p], fs[Next(x, x[p]).value.path]))
  }

  /** The guarantee wanted: the path is the same file as the end of its chain, with that end's attributes. */
  ghost predicate EntryFaithful(x: Expected, fs: Extracted, p: Path)
    requires p in x
  {
    p in fs && exists c: Entry, n: nat :: Content(x, x[p], c, n) && Matches(fs[p], c) && c.path in fs && SameFile(fs[p], fs[c.path])
  }

  datatype Report = Report(paths: nat, hardlinks: nat, symlinks: nat)

  /** One pass of the loop: it lets a path through exactly when the path's own check passes. */
  method CheckEntry(x: Expected, fs: Extracted, p: Path) returns (r: Result<Entry, SeedError>)
    requires WellKeyed(x) && p in x
    ensures r.Ok? <==> EntryChecked(x, fs, p)
    ensures r.Ok? ==> Matches(fs[p], r.value)
  {
    hide Next, Linked;
    if p !in fs { return Err(ParityFailed); }
    var content := ContentEntry(x, x[p]);
    if content.Err? { return content; }
    ghost var n: nat :| Content(x, x[p], content.value, n);
    if !Matches(fs[p], content.value) {
      OnlyContent(x, x[p], content.value, n);
      return Err(ParityFailed);
    }
    if x[p].kind == Hardlink {
      var target := Next(x, x[p]);
      if target.Err? || target.value.path !in fs || !SameFile(fs[p], fs[target.value.path]) { return Err(ParityFailed); }
    }
    return content;
  }

  /** Validation succeeds exactly when every single check passes, and counts the links it met. */
  method ValidateExtraction(x: Expected, order: seq<Path>, fs: Extracted) returns (r: Result<Report, SeedError>)
    requires WellKeyed(x) && Orders(order, x)
    ensures r.Ok? <==> forall p :: p in x ==> EntryChecked(x, fs, p)
    ensures r.Ok? ==> r.value.paths == |x| && r.value.hardlinks == |OfKind(x, Hardlink)|
    ensures r.Ok? ==> r.value.symlinks == |FoundOfKind(x, fs, Symlink)|
  {
    hide EntryChecked, WellKeyed, OfKind, FoundOfKind, Orders, Done, Matches, Tally;
    var hardlinks, symlinks := 0, 0;
    ghost var done: set<Path> := {};
    NothingDone(order);
    for i := 0 to |order|
      invariant Done(order, i, done) && forall p :: p in done ==> p in x && EntryChecked(x, fs, p)
      invariant hardlinks == Tally(OfKind(x, Hardlink), done)
      invariant symlinks == Tally(FoundOfKind(x, fs, Symlink), done)
    {
      var p := order[i];
      NotYet(x, order, i, done);
      var checked := CheckEntry(x, fs, p);
      if checked.Err? { return Err(checked.error); }
      KindOf(x, fs, p, checked.value);
      OneMore(OfKind(x, Hardlink), done, p);
      OneMore(FoundOfKind(x, fs, Symlink), done, p);
      DoOne(order, i, done);
      if checked.value.kind == Symlink { symlinks := symlinks + 1; }
      if x[p].kind == Hardlink { hardlinks := hardlinks + 1; }
      done := done + {p};
    }
    AllKeys(x, order, done);
    WholeSets(x, fs);
    return Ok(Report(|x|, hardlinks, symlinks));
  }

  /** `order` lists the entries of `x`, each once. */
  ghost predicate Orders(order: seq<Path>, x: Expected) {
    (forall k :: 0 <= k < |order| ==> order[k] in x) && (forall p :: p in x ==> p in order) &&
    (forall i, j :: 0 <= i < j < |order| ==> order[i] != order[j])
  }

  ghost predicate Done(order: seq<Path>, i: nat, done: set<Path>) {
    i <= |order| && forall p :: p in done <==> exists k :: 0 <= k < i && order[k] == p
  }

  lemma NothingDone(order: seq<Path>)
    ensures Done(order, 0, {}) && forall s :: Tally(s, {}) == 0
  {}

  lemma NotYet(x: Expected, order: seq<Path>, i: nat, done: set<Path>)
    requires Orders(order, x) && Done(order, i, done) && i < |order|
    ensures order[i] in x && order[i] !in done
  {}

  lemma DoOne(order: seq<Path>, i: nat, done: set<Path>)
    requires Done(order, i, done) && i < |order|
    ensures Done(order, i + 1, done + {order[i]})
  {}

  lemma AllKeys(x: Expected, order: seq<Path>, done: set<Path>)
    requires Orders(order, x) && Done(order, |order|, done)
    ensures done == x.Keys
  {}

  ghost function Tally(s: set<Path>, done: set<Path>): nat { |s * done| }

  lemma WholeSets(x: Expected, fs: Extracted)
    ensures Tally(OfKind(x, Hardlink), x.Keys) == |OfKind(x, Hardlink)|
    ensures Tally(FoundOfKind(x, fs, Symlink), x.Keys) == |FoundOfKind(x, fs, Symlink)|
  {
    assert OfKind(x, Hardlink) * x.Keys == OfKind(x, Hardlink);
    assert FoundOfKind(x, fs, Symlink) * x.Keys == FoundOfKind(x, fs, Symlink);
  }

  lemma OneMore(s: set<Path>, done: set<Path>, p: Path)
    requires p !in done
    ensures Tally(s, done + {p}) == Tally(s, done) + if p in s then 1 else 0
  {
    assert s * (done + {p}) == s * done + if p in s then {p} else {};
  }

  lemma KindOf(x: Expected, fs: Extracted, p: Path, c: Entry)
    requires p in x && EntryChecked(x, fs, p) && Matches(fs[p], c)
    ensures p in OfKind(x, Hardlink) <==> x[p].kind == Hardlink
    ensures p in FoundOfKind(x, fs, Symlink) <==> c.kind == Symlink
  {}

  ghost function OfKind(x: Expected, kind: Kind): set<Path> { set p | p in x && x[p].kind == kind }

  ghost function FoundOfKind(x: Expected, fs: Extracted, kind: Kind): set<Path> {
    set p | p in x && p in fs && fs[p].kind == kind
  }

  lemma OnlyContent(x: Expected, e: Entry, c: Entry, n: nat)
    requires Content(x, e, c, n)
    ensures forall d: Entry, m: nat :: Content(x, e, d, m) ==> d == c
  {
    hide Content;
    forall d: Entry, m: nat | Content(x, e, d, m) ensures d == c { ContentIsUnique(x, e, c, n, d, m); }
  }

  lemma {:induction false} EdgesReachEnd(x: Expected, fs: Extracted, p: Path, c: Entry, n: nat)
    requires WellKeyed(x) && p in x && Content(x, x[p], c, n) && forall q :: q in x ==> EntryChecked(x, fs, q)
    ensures c.path in fs && p in fs && SameFile(fs[p], fs[c.path])
    decreases n
  {
    assert EntryChecked(x, fs, p);
    if x[p].kind == Hardlink {
      EdgesReachEnd(x, fs, Next(x, x[p]).value.path, c, n - 1);
    }
  }

  /** Checking every edge is exactly checking every chain against the file at its end. */
  lemma EdgesMakeComponents(x: Expected, fs: Extracted)
    requires WellKeyed(x)
    ensures (forall p :: p in x ==> EntryChecked(x, fs, p)) <==> (forall p :: p in x ==> EntryFaithful(x, fs, p))
  {
    if forall p :: p in x ==> EntryChecked(x, fs, p) {
      forall p | p in x ensures EntryFaithful(x, fs, p) {
        assert EntryChecked(x, fs, p);
        var c: Entry, n: nat :| Content(x, x[p], c, n) && Matches(fs[p], c);
        EdgesReachEnd(x, fs, p, c, n);
      }
    }
    if forall p :: p in x ==> EntryFaithful(x, fs, p) {
      forall p | p in x ensures EntryChecked(x, fs, p) {
        assert EntryFaithful(x, fs, p);
        if x[p].kind == Hardlink {
          var c: Entry, n: nat :| Content(x, x[p], c, n) && Matches(fs[p], c) && c.path in fs && SameFile(fs[p], fs[c.path]);
          var q := Next(x, x[p]).value;
          assert EntryFaithful(x, fs, q.path);
          var d: Entry, m: nat :| Content(x, q, d, m) && Matches(fs[q.path], d) && d.path in fs && SameFile(fs[q.path], fs[d.path]);
          ContentIsUnique(x, q, c, n - 1, d, m);
        }
      }
    }
  }

  /** Hence two paths whose chains end together are one file after a validated extraction. */
  lemma ValidatedComponents(x: Expected, fs: Extracted, p: Path, q: Path, c: Entry, n: nat, m: nat)
    requires WellKeyed(x) && p in x && q in x && forall r :: r in x ==> EntryChecked(x, fs, r)
    requires Content(x, x[p], c, n) && Content(x, x[q], c, m)
    ensures p in fs && q in fs && SameFile(fs[p], fs[q]) && Matches(fs[p], c) && Matches(fs[q], c)
  {
    EdgesReachEnd(x, fs, p, c, n);
    EdgesReachEnd(x, fs, q, c, m);
    AttributesOf(x, fs, p, c, n);
    AttributesOf(x, fs, q, c, m);
  }

  lemma AttributesOf(x: Expected, fs: Extracted, p: Path, c: Entry, n: nat)
    requires p in x && EntryChecked(x, fs, p) && Content(x, x[p], c, n)
    ensures Matches(fs[p], c)
  {
    var d: Entry, m: nat :| Content(x, x[p], d, m) && Matches(fs[p], d);
    ContentIsUnique(x, x[p], c, n, d, m);
  }
}
