/** Extraction of the managed toolchain archive: member validation, placement and deferred hard links. */
module Toolchain {
  import opened Common
  import opened ArchivePaths
  import Sorting

  datatype Kind = Directory | Regular | Symbolic | Hard | Other

  datatype Member = Member(name: string, kind: Kind, linkname: string)

  function PathOf(m: Member): Path {
    if MemberPath(m.name).Ok? then MemberPath(m.name).value else []
  }

  // ----- Validation -----

  predicate MemberOk(m: Member) {
    MemberPath(m.name).Ok? &&
    if PathOf(m) == [] then m.kind == Directory
    else match m.kind
      case Directory => true
      case Regular => true
      case Symbolic => LinkTarget(PathOf(m), m.linkname, false).Ok?
      case Hard => LinkTarget(PathOf(m), m.linkname, true).Ok?
      case Other => false
  }

  ghost predicate DistinctPaths(ms: seq<Member>) {
    forall i, j :: 0 <= i < j < |ms| && PathOf(ms[i]) != [] ==> PathOf(ms[i]) != PathOf(ms[j])
  }

  ghost predicate ValidArchive(ms: seq<Member>) {
    (forall i :: 0 <= i < |ms| ==> MemberOk(ms[i])) && DistinctPaths(ms)
  }

  datatype ArchiveError = BadPath(why: PathError) | Unnamed | Duplicate | BadLink(why: PathError) | Unsupported

  /** What the loop knows after `i` members: they are sound, mapped to their paths, and their paths are distinct. */
  ghost predicate Checked(ms: seq<Member>, i: nat, paths: map<string, Path>, seen: set<Path>) {
    i <= |ms| && (forall k :: 0 <= k < i ==> MemberOk(ms[k]) && ms[k].name in paths && paths[ms[k].name] == PathOf(ms[k])) &&
    (forall p :: p in seen <==> p != [] && exists k :: 0 <= k < i && PathOf(ms[k]) == p) &&
    forall j, k :: 0 <= j < k < i && PathOf(ms[j]) != [] ==> PathOf(ms[j]) != PathOf(ms[k])
  }

  lemma CheckNone(ms: seq<Member>)
    ensures Checked(ms, 0, map[], {})
  {}

  lemma CheckOne(ms: seq<Member>, i: nat, paths: map<string, Path>, seen: set<Path>)
    requires Checked(ms, i, paths, seen) && i < |ms| && MemberOk(ms[i])
    requires PathOf(ms[i]) == [] || PathOf(ms[i]) !in seen
    ensures Checked(ms, i + 1, paths[ms[i].name := PathOf(ms[i])], if PathOf(ms[i]) == [] then seen else seen + {PathOf(ms[i])})
  {
    hide MemberOk, MemberPath;
  }

  lemma Repeats(ms: seq<Member>, i: nat, paths: map<string, Path>, seen: set<Path>)
    requires Checked(ms, i, paths, seen) && i < |ms| && PathOf(ms[i]) in seen
    ensures !ValidArchive(ms)
  {
    hide MemberOk, PathOf;
  }

  lemma CheckAll(ms: seq<Member>, paths: map<string, Path>, seen: set<Path>)
    requires Checked(ms, |ms|, paths, seen)
    ensures ValidArchive(ms)
    ensures forall i :: 0 <= i < |ms| ==> ms[i].name in paths && paths[ms[i].name] == PathOf(ms[i])
  {
    hide MemberOk, PathOf;
  }

  /** Validation accepts exactly the archives whose members are sound and whose paths are distinct. */
  method ValidateArchiveMembers(ms: seq<Member>) returns (r: Result<map<string, Path>, ArchiveError>)
    ensures r.Ok? <==> ValidArchive(ms)
    ensures r.Ok? ==> forall i :: 0 <= i < |ms| ==> ms[i].name in r.value && r.value[ms[i].name] == PathOf(ms[i])
  {
    hide MemberPath, LinkTarget, Checked, DistinctPaths;
    var paths: map<string, Path> := map[];
    var seen: set<Path> := {};
    CheckNone(ms);
    for i := 0 to |ms|
      invariant Checked(ms, i, paths, seen)
    {
      var m := ms[i];
      var parsed := MemberPath(m.name);
      if parsed.Err? {
        assert !MemberOk(ms[i]);
        return Err(BadPath(parsed.error));
      }
      var parts := parsed.value;
      if parts == [] {
        if m.kind != Directory {
          assert !MemberOk(ms[i]);
          return Err(Unnamed);
        }
      } else {
        if parts in seen {
          Repeats(ms, i, paths, seen);
          return Err(Duplicate);
        }
        if m.kind == Symbolic || m.kind == Hard {
          var target := ResolveLink(parts, m.linkname, m.kind == Hard);
          if target.Err? {
            assert !MemberOk(ms[i]);
            return Err(BadLink(target.error));
          }
        } else if m.kind == Other {
          assert !MemberOk(ms[i]);
          return Err(Unsupported);
        }
      }
      CheckOne(ms, i, paths, seen);
      paths := paths[m.name := parts];
      if parts != [] { seen := seen + {parts}; }
    }
    CheckAll(ms, paths, seen);
    return Ok(paths);
  }

  // ----- The archive as an unordered collection -----

  type Members = map<Path, Member>

  ghost function Collect(ms: seq<Member>): Members {
    if ms == [] then map[]
    else
      var last := ms[|ms| - 1];
      var rest := Collect(ms[..|ms| - 1]);
      if PathOf(last) == [] then rest else rest[PathOf(last) := last]
  }

  lemma {:induction false} CollectMeans(ms: seq<Member>)
    requires DistinctPaths(ms)
    ensures forall i :: 0 <= i < |ms| && PathOf(ms[i]) != [] ==> PathOf(ms[i]) in Collect(ms) && Collect(ms)[PathOf(ms[i])] == ms[i]
    ensures forall p :: p in Collect(ms) ==> p != [] && Collect(ms)[p] in ms && PathOf(Collect(ms)[p]) == p
  {
    if ms != [] {
      var rest := ms[..|ms| - 1];
      CollectMeans(rest);
      forall i | 0 <= i < |ms| && PathOf(ms[i]) != []
        ensures PathOf(ms[i]) in Collect(ms) && Collect(ms)[PathOf(ms[i])] == ms[i]
      {
        if i < |ms| - 1 {
          assert rest[i] == ms[i];
          assert PathOf(ms[i]) != PathOf(ms[|ms| - 1]);
        }
      }
    }
  }

  /** Reordering the members of an archive collects the same archive. */
  lemma CollectIgnoresOrder(ms: seq<Member>, ns: seq<Member>)
    requires multiset(ms) == multiset(ns) && DistinctPaths(ms) && DistinctPaths(ns)
    ensures Collect(ms) == Collect(ns)
  {
    CollectMeans(ms);
    CollectMeans(ns);
    SameKeys(ms, ns);
    SameKeys(ns, ms);
  }

  lemma SameKeys(ms: seq<Member>, ns: seq<Member>)
    requires multiset(ms) == multiset(ns) && DistinctPaths(ms) && DistinctPaths(ns)
    ensures forall p :: p in Collect(ms) ==> p in Collect(ns) && Collect(ns)[p] == Collect(ms)[p]
  {
    CollectMeans(ms);
    CollectMeans(ns);
    forall p | p in Collect(ms) ensures p in Collect(ns) && Collect(ns)[p] == Collect(ms)[p] {
      var m := Collect(ms)[p];
      assert m in multiset(ns);
      var i :| 0 <= i < |ns| && ns[i] == m;
    }
  }

  /** No member lies below a member that is not a directory, and no symbolic link has an empty target. */
  ghost predicate Placeable(a: Members) {
    (forall p, q :: p in a && q in a && StrictlyAbove(q, p) ==> a[q].kind == Directory) &&
    forall p :: p in a && a[p].kind == Symbolic ==> a[p].linkname != ""
  }

  predicate StrictlyAbove(q: Path, p: Path) { |q| < |p| && p[..|q|] == q }

  // ----- The extracted tree -----

  datatype Node = Dir | File(inode: nat) | Sym(target: string)

  type Tree = map<Path, Node>

  /** Everything lies below the destination, and every parent is a real directory. */
  ghost predicate WellRooted(t: Tree) {
    [] in t && t[[]] == Dir &&
    forall p :: p in t ==> Clean(p) && (p != [] ==> Parent(p) in t && t[Parent(p)] == Dir)
  }

  /** Hence all ancestors of an entry are real directories. */
  lemma {:induction false} AncestorsAreDirectories(t: Tree, p: Path, q: Path)
    requires WellRooted(t) && p in t && StrictlyAbove(q, p)
    ensures q in t && t[q] == Dir
    decreases |p|
  {
    if Parent(p) != q {
      assert Parent(p)[..|q|] == q;
      AncestorsAreDirectories(t, Parent(p), q);
    }
  }

  ghost predicate ParentsOk(t: Tree, p: Path) {
    forall k :: 0 <= k < |p| && p[..k] in t ==> t[p[..k]] == Dir
  }

  ghost function WithParents(t: Tree, p: Path, n: nat): Tree
    requires n <= |p|
  {
    t + map q | q in Prefixes(p, n) && q !in t :: Dir
  }

  /** The ancestors of `p` with fewer than `n` components. */
  function Prefixes(p: Path, n: nat): set<Path>
    requires n <= |p|
  {
    set k | 0 <= k < n :: p[..k]
  }

  lemma PrefixesNext(p: Path, k: nat)
    requires k < |p|
    ensures Prefixes(p, k + 1) == Prefixes(p, k) + {p[..k]} && p[..k] !in Prefixes(p, k)
  {
    forall q | q in Prefixes(p, k) ensures |q| < k {}
  }

  lemma NoParents(t: Tree, p: Path)
    requires WellRooted(t)
    ensures WithParents(t, p, 0) == t && (|p| > 0 ==> WithParents(t, p, 1) == t)
  {
    if |p| > 0 { assert p[..0] == []; }
  }

  /** Extending the created ancestors by one component. */
  lemma ParentsStep(t: Tree, p: Path, k: nat)
    requires 1 <= k < |p|
    ensures p[..k] in WithParents(t, p, k) <==> p[..k] in t
    ensures p[..k] in t ==> WithParents(t, p, k)[p[..k]] == t[p[..k]] && WithParents(t, p, k + 1) == WithParents(t, p, k)
    ensures p[..k] !in t ==> WithParents(t, p, k + 1) == WithParents(t, p, k)[p[..k] := Dir]
  {
    hide Prefixes;
    PrefixesNext(p, k);
  }

  /** The ancestors shorter than `k` components are directories where they exist. */
  ghost predicate OkBelow(t: Tree, p: Path, k: nat)
    requires k <= |p|
  {
    forall j :: 0 <= j < k && p[..j] in t ==> t[p[..j]] == Dir
  }

  lemma OkAtStart(t: Tree, p: Path)
    requires WellRooted(t)
    ensures OkBelow(t, p, if |p| == 0 then 0 else 1) && (OkBelow(t, p, |p|) <==> ParentsOk(t, p))
  {
    assert p[..0] == [];
  }

  lemma OkNext(t: Tree, p: Path, k: nat)
    requires k < |p| && OkBelow(t, p, k)
    ensures OkBelow(t, p, k + 1) <==> (p[..k] in t ==> t[p[..k]] == Dir)
    ensures p[..k] in t && t[p[..k]] != Dir ==> !ParentsOk(t, p)
  {}

  lemma RootedParents(t: Tree, p: Path, k: nat)
    requires WellRooted(t) && Clean(p) && k <= |p| && OkBelow(t, p, k)
    ensures WellRooted(WithParents(t, p, k))
    ensures forall j :: 0 <= j < k ==> p[..j] in WithParents(t, p, k) && WithParents(t, p, k)[p[..j]] == Dir
  {
    var u := WithParents(t, p, k);
    forall q | q in u ensures Clean(q) && (q != [] ==> Parent(q) in u && u[Parent(q)] == Dir) {
      if q !in t {
        var j :| 0 <= j < k && q == p[..j];
        if j > 0 { assert Parent(q) == p[..j - 1]; }
      }
    }
  }

  /** What placing one member does to a tree that already has its parents. */
  function Placed(t: Tree, inode: nat, m: Member, p: Path): Option<Tree> {
    match m.kind
    case Directory => if p !in t then Some(t[p := Dir]) else if t[p] == Dir then Some(t) else None
    case Regular => if p in t then None else Some(t[p := File(inode)])
    case Symbolic => if p in t || m.linkname == "" then None else Some(t[p := Sym(m.linkname)])
    case _ => Some(t)
  }

  // ----- What placing all members builds -----

  predicate Shows(n: Node, m: Member) {
    match m.kind
    case Directory => n == Dir
    case Regular => n.File?
    case Symbolic => n == Sym(m.linkname) && m.linkname != ""
    case _ => false
  }

  predicate IsAncestor(a: Members, p: Path) { exists q :: q in a && StrictlyAbove(p, q) }

  /** The tree of an archive without its hard links: members, their ancestors, nothing else. */
  ghost predicate Built(t: Tree, inode: nat, a: Members) {
    (forall p :: p in t ==> p == [] || (p in a && a[p].kind != Hard) || IsAncestor(a, p)) &&
    (forall p :: p in a && a[p].kind != Hard ==> p in t && Shows(t[p], a[p])) &&
    (forall p, q :: q in a && StrictlyAbove(p, q) ==> p in t && t[p] == Dir) &&
    (forall p :: p in t && t[p] != Dir ==> p in a) &&
    (forall p :: p in t && t[p].File? ==> t[p].inode < inode) &&
    (forall p, q :: p in t && q in t && t[p].File? && t[q] == t[p] ==> p == q)
  }

  /** In a placeable archive, one more member fits into what is already there. */
  lemma MemberFits(t: Tree, inode: nat, a: Members, p: Path, m: Member)
    requires Built(t, inode, a) && p !in a && p != [] && m.kind != Other && Placeable(a[p := m])
    ensures ParentsOk(t, p)
    ensures p in t ==> m.kind == Directory && t[p] == Dir
    ensures Placed(WithParents(t, p, |p|), inode, m, p).Some?
  {
    var b := a[p := m];
    forall k | 0 <= k < |p| && p[..k] in t ensures t[p[..k]] == Dir {
      assert StrictlyAbove(p[..k], p);
      if p[..k] in a { assert b[p[..k]].kind == Directory; }
    }
    ParentsAdded(t, p);
    if p in t {
      var q :| q in a && StrictlyAbove(p, q);
      assert b[q] == a[q] && b[p].kind == Directory;
    }
  }

  /** Where the entries of the enlarged tree come from. */
  lemma EntriesAccounted(t: Tree, inode: nat, a: Members, p: Path, m: Member, v: Tree)
    requires Built(t, inode, a) && p !in a && m.kind != Other && Placed(WithParents(t, p, |p|), inode, m, p) == Some(v)
    ensures forall q :: q in v ==> q == [] || (q in a[p := m] && a[p := m][q].kind != Hard) || IsAncestor(a[p := m], q)
    ensures forall q :: q in v && v[q] != Dir ==> q in a[p := m]
  {
    var b := a[p := m];
    ParentsAdded(t, p);
    forall q | q in v ensures q == [] || (q in b && b[q].kind != Hard) || IsAncestor(b, q) {
      if q in t {
        if IsAncestor(a, q) {
          var r :| r in a && StrictlyAbove(q, r);
          assert r in b;
        }
      } else if q != p {
        assert StrictlyAbove(q, p) && p in b;
      }
    }
  }

  /** The enlarged tree shows every member placed so far below real directories. */
  lemma MembersShown(t: Tree, inode: nat, a: Members, p: Path, m: Member, v: Tree)
    requires Built(t, inode, a) && p !in a && Placeable(a[p := m]) && m.kind != Other
    requires Placed(WithParents(t, p, |p|), inode, m, p) == Some(v)
    ensures forall q :: q in a[p := m] && a[p := m][q].kind != Hard ==> q in v && Shows(v[q], a[p := m][q])
    ensures forall q, r :: r in a[p := m] && StrictlyAbove(q, r) ==> q in v && v[q] == Dir
  {
    var b := a[p := m];
    ParentsAdded(t, p);
    hide WithParents;
    forall q, r | r in b && StrictlyAbove(q, r) ensures q in v && v[q] == Dir {
      if q == p { assert b[p].kind == Directory; }
    }
  }

  /** Regular files keep distinct inodes. */
  lemma InodesDistinct(t: Tree, inode: nat, a: Members, p: Path, m: Member, v: Tree)
    requires Built(t, inode, a) && m.kind != Other && Placed(WithParents(t, p, |p|), inode, m, p) == Some(v)
    ensures forall q :: q in v && v[q].File? ==> v[q].inode < inode + if m.kind == Regular then 1 else 0
    ensures forall q, r :: q in v && r in v && v[q].File? && v[r] == v[q] ==> q == r
  {
    ParentsAdded(t, p);
    hide WithParents;
    forall q | q in v && v[q].File? ensures (q in t && v[q] == t[q] && t[q].inode < inode) || (q == p && v[q].inode == inode) {
    }
  }

  /** In a placeable archive, placing one more member succeeds and builds the larger archive. */
  lemma BuiltStep(t: Tree, inode: nat, a: Members, p: Path, m: Member)
    requires Built(t, inode, a) && p !in a && p != [] && m.kind != Other && Placeable(a[p := m])
    ensures ParentsOk(t, p) && Placed(WithParents(t, p, |p|), inode, m, p).Some?
    ensures Built(Placed(WithParents(t, p, |p|), inode, m, p).value, inode + if m.kind == Regular then 1 else 0, a[p := m])
  {
    hide WithParents, Placed, Placeable, ParentsOk;
    MemberFits(t, inode, a, p, m);
    var v := Placed(WithParents(t, p, |p|), inode, m, p).value;
    EntriesAccounted(t, inode, a, p, m, v);
    MembersShown(t, inode, a, p, m, v);
    InodesDistinct(t, inode, a, p, m, v);
  }

  lemma ParentsAdded(t: Tree, p: Path)
    ensures forall q :: q in WithParents(t, p, |p|) <==> q in t || StrictlyAbove(q, p)
    ensures forall q :: q in t ==> WithParents(t, p, |p|)[q] == t[q]
    ensures forall q :: StrictlyAbove(q, p) && q !in t ==> WithParents(t, p, |p|)[q] == Dir
  {
    var prefixes := set k | 0 <= k < |p| :: p[..k];
    forall q ensures q in prefixes <==> StrictlyAbove(q, p) {
      if StrictlyAbove(q, p) { assert q == p[..|q|]; }
    }
  }

  lemma {:induction false} CollectGrows(ms: seq<Member>, i: nat)
    requires i <= |ms| && DistinctPaths(ms)
    ensures forall p :: p in Collect(ms[..i]) ==> p in Collect(ms) && Collect(ms)[p] == Collect(ms[..i])[p]
    decreases |ms|
  {
    if i < |ms| {
      var rest := ms[..|ms| - 1];
      assert ms[..i] == rest[..i];
      CollectGrows(rest, i);
      CollectMeans(rest);
      forall p | p in Collect(rest) ensures p in Collect(ms) && Collect(ms)[p] == Collect(rest)[p] {
        var k :| 0 <= k < |rest| && rest[k] == Collect(rest)[p];
        assert PathOf(ms[k]) == p != PathOf(ms[|ms| - 1]);
      }
    } else {
      assert ms[..i] == ms;
    }
  }

  lemma CollectNext(ms: seq<Member>, i: nat)
    requires i < |ms| && DistinctPaths(ms)
    ensures PathOf(ms[i]) == [] ==> Collect(ms[..i + 1]) == Collect(ms[..i])
    ensures PathOf(ms[i]) != [] ==> PathOf(ms[i]) !in Collect(ms[..i]) && Collect(ms[..i + 1]) == Collect(ms[..i])[PathOf(ms[i]) := ms[i]]
    ensures Placeable(Collect(ms)) ==> Placeable(Collect(ms[..i + 1]))
  {
    hide PathOf;
    assert ms[..i + 1][..i] == ms[..i];
    assert ms[..i + 1][i] == ms[i];
    CollectGrows(ms, i + 1);
    NotCollectedYet(ms, i);
  }

  lemma NotCollectedYet(ms: seq<Member>, i: nat)
    requires i < |ms| && DistinctPaths(ms)
    ensures PathOf(ms[i]) !in Collect(ms[..i])
  {
    hide PathOf, Collect;
    CollectMeans(ms[..i]);
    forall p | p in Collect(ms[..i]) ensures p != PathOf(ms[i]) {
      var k :| 0 <= k < i && ms[..i][k] == Collect(ms[..i])[p];
      assert ms[k] == ms[..i][k];
    }
  }

  // ----- Hard links -----

  datatype Link = Link(target: Path, source: Path)

  function SourceOf(m: Member): Path {
    var r := LinkTarget(PathOf(m), m.linkname, true);
    if r.Ok? then r.value else []
  }

  /** The deferred links of an archive, in member order. */
  function Links(ms: seq<Member>): seq<Link> {
    if ms == [] then []
    else
      var last := ms[|ms| - 1];
      Links(ms[..|ms| - 1]) + if last.kind == Hard then [Link(PathOf(last), SourceOf(last))] else []
  }

  ghost predicate DistinctTargets(ls: seq<Link>) {
    forall i, j :: 0 <= i < j < |ls| ==> ls[i].target != ls[j].target
  }

  type LinkMap = map<Path, Path>

  /** A list of links with distinct targets, some of them already made, and the map they come from. */
  ghost predicate Covers(ls: seq<Link>, done: set<Path>, l: LinkMap) {
    DistinctTargets(ls) &&
    (forall i :: 0 <= i < |ls| ==> ls[i].target in l && l[ls[i].target] == ls[i].source && ls[i].target !in done) &&
    (forall p :: p in l ==> p in done || exists i :: 0 <= i < |ls| && ls[i].target == p) &&
    done <= l.Keys
  }

  /** Following links from `p` reaches the existing regular file `f` after `n` links. */
  ghost predicate EndsAt(t: Tree, l: LinkMap, p: Path, f: Path, n: nat)
    decreases n
  {
    if p in t then n == 0 && f == p && t[p].File?
    else n > 0 && p in l && EndsAt(t, l, l[p], f, n - 1)
  }

  ghost predicate Ends(t: Tree, l: LinkMap, p: Path) {
    exists f: Path, n: nat :: EndsAt(t, l, p, f, n)
  }

  ghost predicate SharesEnd(t: Tree, l: LinkMap, p: Path, node: Node) {
    exists f: Path, n: nat :: EndsAt(t, l, p, f, n) && f in t && node == t[f]
  }

  /** The tree after the links in `done` were made: each shares the inode its chain ends in. */
  ghost predicate Linked(t: Tree, l: LinkMap, done: set<Path>, u: Tree) {
    u.Keys == t.Keys + done && done <= l.Keys && done !! t.Keys &&
    (forall p :: p in t ==> u[p] == t[p]) &&
    (forall p :: p in done ==> u[p].File? && SharesEnd(t, l, p, u[p]))
  }

  lemma {:induction false} EndIsFile(t: Tree, l: LinkMap, p: Path, f: Path, n: nat)
    requires EndsAt(t, l, p, f, n)
    ensures f in t && t[f].File?
    decreases n
  {
    if p !in t { EndIsFile(t, l, l[p], f, n - 1); }
  }

  lemma {:induction false} EndIsUnique(t: Tree, l: LinkMap, p: Path, f: Path, n: nat, g: Path, m: nat)
    requires EndsAt(t, l, p, f, n) && EndsAt(t, l, p, g, m)
    ensures f == g
    decreases n
  {
    if p !in t { EndIsUnique(t, l, l[p], f, n - 1, g, m - 1); }
  }

  /** Making one link whose source already exists. */
  lemma LinkOne(t: Tree, l: LinkMap, done: set<Path>, u: Tree, p: Path)
    requires Linked(t, l, done, u) && p in l && p !in t && l[p] in u && u[l[p]].File?
    ensures Linked(t, l, done + {p}, u[p := u[l[p]]])
  {
    var s := l[p];
    if s in t {
      assert EndsAt(t, l, s, s, 0);
      assert EndsAt(t, l, p, s, 1);
    } else {
      var f: Path, n: nat :| EndsAt(t, l, s, f, n) && f in t && u[s] == t[f];
      assert EndsAt(t, l, p, f, n + 1);
    }
  }

  /** A link whose source exists but is no regular file leads nowhere. */
  lemma BadSource(t: Tree, l: LinkMap, done: set<Path>, u: Tree, p: Path)
    requires Linked(t, l, done, u) && p in l && p !in t && l[p] in u && !u[l[p]].File?
    ensures !Ends(t, l, p)
  {
    forall f: Path, n: nat ensures !EndsAt(t, l, p, f, n) {}
  }

  /** Links that only wait for each other, or for nothing at all, never end. */
  lemma {:induction false} StuckNeverEnds(t: Tree, l: LinkMap, stuck: set<Path>, p: Path, f: Path, n: nat)
    requires forall q :: q in stuck ==> q in l && q !in t && l[q] !in t && (l[q] in l ==> l[q] in stuck)
    requires p in stuck
    ensures !EndsAt(t, l, p, f, n)
    decreases n
  {
    if EndsAt(t, l, p, f, n) {
      assert EndsAt(t, l, l[p], f, n - 1);
      StuckNeverEnds(t, l, stuck, l[p], f, n - 1);
    }
  }

  /** The directory an archive is extracted into. */
  class Destination {
    var nodes: Tree
    var nextInode: nat

    constructor ()
      ensures nodes == map[[] := Dir] && nextInode == 0
    {
      nodes := map[[] := Dir];
      nextInode := 0;
    }

    /** Create the missing ancestors of a member; refuse to pass through anything but directories. */
    method SafeParent(p: Path) returns (ok: bool)
      requires WellRooted(nodes) && Clean(p)
      modifies `nodes
      ensures WellRooted(nodes)
      ensures ok <==> ParentsOk(old(nodes), p)
      ensures ok ==> nodes == WithParents(old(nodes), p, |p|)
      ensures exists n :: 0 <= n <= |p| && nodes == WithParents(old(nodes), p, n)
    {
      hide WithParents, WellRooted, Clean, ParentsOk, OkBelow;
      ghost var before := nodes;
      NoParents(before, p);
      OkAtStart(before, p);
      var k := 1;
      while k < |p|
        invariant 1 <= k && nodes == WithParents(before, p, if k <= |p| then k else |p|)
        invariant OkBelow(before, p, if k <= |p| then k else |p|)
      {
        var current := p[..k];
        ParentsStep(before, p, k);
        OkNext(before, p, k);
        if current in nodes {
          if nodes[current] != Dir {
            RootedParents(before, p, k);
            return false;
          }
        } else {
          nodes := nodes[current := Dir];
        }
        k := k + 1;
      }
      RootedParents(before, p, |p|);
      return true;
    }

    /** Place one validated member; hard links wait until everything else exists. */
    method PlaceMember(m: Member, p: Path) returns (ok: bool)
      requires WellRooted(nodes) && Clean(p) && p != [] && m.kind != Other
      modifies this
      ensures WellRooted(nodes) && nextInode >= old(nextInode)
      ensures ok <==> ParentsOk(old(nodes), p) && Placed(WithParents(old(nodes), p, |p|), old(nextInode), m, p).Some?
      ensures ok ==> nodes == Placed(WithParents(old(nodes), p, |p|), old(nextInode), m, p).value
      ensures ok ==> nextInode == old(nextInode) + if m.kind == Regular then 1 else 0
      ensures forall q :: q in old(nodes) ==> q in nodes && nodes[q] == old(nodes)[q]
    {
      ok := SafeParent(p);
      if !ok { return; }
      assert Parent(p) == p[..|p| - 1];
      assert Parent(p) in nodes && nodes[Parent(p)] == Dir;
      match m.kind
      case Directory =>
        if p in nodes { ok := nodes[p] == Dir; } else { nodes := nodes[p := Dir]; }
      case Regular =>
        if p in nodes { ok := false; } else { nodes := nodes[p := File(nextInode)]; nextInode := nextInode + 1; }
      case Symbolic =>
        if p in nodes || m.linkname == "" { ok := false; } else { nodes := nodes[p := Sym(m.linkname)]; }
      case Hard =>
    }

    /** Place every member in archive order, collecting the hard links for later. */
    method PlaceMembers(ms: seq<Member>) returns (ok: bool, pending: seq<Link>)
      requires WellRooted(nodes) && ValidArchive(ms)
      modifies this
      ensures WellRooted(nodes)
      ensures forall q :: q in old(nodes) ==> q in nodes && nodes[q] == old(nodes)[q]
      ensures ok ==> pending == Links(ms) && ParentsReady(nodes, pending) && Settled(nodes, ms, |ms|)
      ensures old(nodes) == map[[] := Dir] && Placeable(Collect(ms)) ==> ok && Built(nodes, nextInode, Collect(ms))
    {
      hide MemberPath, LinkTarget, Built, Placeable, WithParents, Placed, ParentsOk, DistinctPaths, WellRooted, MemberOk, PathOf, SourceOf, ParentsReady, Collect, Clean,
        Settled, Shows;
      EmptyBuilt();
      ReadyNothing(nodes);
      NothingSettled(nodes, ms);
      pending := [];
      ghost var simple := old(nodes) == map[[] := Dir] && Placeable(Collect(ms));
      assert ms[..0] == [];
      for i := 0 to |ms|
        invariant WellRooted(nodes)
        invariant forall q :: q in old(nodes) ==> q in nodes && nodes[q] == old(nodes)[q]
        invariant pending == Links(ms[..i]) && ParentsReady(nodes, pending) && Settled(nodes, ms, i)
        invariant simple ==> Built(nodes, nextInode, Collect(ms[..i]))
      {
        var m := ms[i];
        var parts := PathOf(m);
        MemberFacts(m);
        CollectNext(ms, i);
        assert ms[..i + 1][..i] == ms[..i] && ms[..i + 1][i] == m;
        if parts == [] {
          RootSettles(nodes, ms, i);
          continue;
        }
        if simple { BuiltStep(nodes, nextInode, Collect(ms[..i]), parts, m); }
        ghost var before := nodes;
        ok := PlaceMember(m, parts);
        if !ok { return; }
        MemberParent(before, nodes, m, parts);
        MemberShown(before, nodes, m, parts);
        OneSettles(before, nodes, ms, i);
        ReadyGrows(before, nodes, pending, parts, SourceOf(m));
        if m.kind == Hard {
          var source := ResolveLink(parts, m.linkname, true);
          pending := pending + [Link(parts, if source.Ok? then source.value else [])];
        }
      }
      assert ms[..|ms|] == ms;
      ok := true;
    }

    /** One pass over the pending links: make those whose source exists, keep the others. */
    method LinkPass(pending: seq<Link>, ghost t: Tree, ghost l: LinkMap, ghost done: set<Path>)
      returns (ok: bool, unresolved: seq<Link>, ghost now: set<Path>)
      requires Linked(t, l, done, nodes) && Covers(pending, done, l)
      modifies `nodes
      ensures !ok ==> !Resolvable(t, l)
      ensures Linked(t, l, now, nodes)
      ensures ok ==> Covers(unresolved, now, l) && |unresolved| <= |pending|
      ensures ok && |unresolved| == |pending| ==> now == done && forall i :: 0 <= i < |pending| ==> pending[i].source !in nodes
    {
      hide Covers, EndsAt, SharesEnd;
      unresolved := [];
      now := done;
      assert unresolved + pending[0..] == pending;
      for i := 0 to |pending|
        invariant Linked(t, l, now, nodes)
        invariant |unresolved| <= i && Covers(unresolved + pending[i..], now, l)
        invariant |unresolved| == i ==> now == done && nodes == old(nodes) && unresolved == pending[..i]
        invariant |unresolved| == i ==> forall k :: 0 <= k < i ==> pending[k].source !in nodes
      {
        var link := pending[i];
        CoversSplit(unresolved, pending, i, now, l);
        if link.source !in nodes {
          unresolved := unresolved + [link];
          assert unresolved + pending[i + 1..] == unresolved[..|unresolved| - 1] + pending[i..];
          assert |unresolved| == i + 1 ==> unresolved == pending[..i + 1];
          continue;
        }
        if !nodes[link.source].File? || link.target in nodes {
          if link.target !in t { BadSource(t, l, now, nodes, link.target); }
          ok := false;
          return;
        }
        LinkOne(t, l, now, nodes, link.target);
        nodes := nodes[link.target := nodes[link.source]];
        now := now + {link.target};
      }
      assert unresolved + pending[|pending|..] == unresolved;
      ok := true;
    }

    /** Repeat passes while they make progress: every link is made, or some link cannot end. */
    method LinkAll(links: seq<Link>, ghost l: LinkMap)
      returns (ok: bool)
      requires Covers(links, {}, l)
      modifies `nodes
      ensures ok <==> Resolvable(old(nodes), l)
      ensures ok ==> Linked(old(nodes), l, l.Keys, nodes)
      ensures !ok ==> exists some :: Linked(old(nodes), l, some, nodes)
    {
      var pending := links;
      ghost var t := nodes;
      ghost var done: set<Path> := {};
      while pending != []
        invariant Linked(t, l, done, nodes) && Covers(pending, done, l)
        decreases |pending|
      {
        var passed, unresolved, now := LinkPass(pending, t, l, done);
        if !passed { return false; }
        if |unresolved| == |pending| {
          NoProgress(t, l, done, nodes, pending);
          return false;
        }
        pending, done := unresolved, now;
      }
      assert done == l.Keys;
      AllLinkedResolves(t, l, nodes);
      return true;
    }
  }

  lemma EmptyBuilt()
    ensures forall inode: nat :: Built(map[[] := Dir], inode, Collect([]))
  {
  }

  lemma MemberFacts(m: Member)
    requires MemberOk(m)
    ensures Clean(PathOf(m))
    ensures PathOf(m) != [] ==> m.kind != Other
    ensures m.kind == Hard ==> PathOf(m) != [] && LinkTarget(PathOf(m), m.linkname, true) == Ok(SourceOf(m))
  {
  }

  lemma ReadyNothing(t: Tree)
    ensures ParentsReady(t, [])
  {
  }

  lemma ReadyGrows(t: Tree, u: Tree, ls: seq<Link>, p: Path, source: Path)
    requires ParentsReady(t, ls) && forall q :: q in t ==> q in u && u[q] == t[q]
    requires Clean(p) && p != [] && Parent(p) in u && u[Parent(p)] == Dir
    ensures ParentsReady(u, ls) && ParentsReady(u, ls + [Link(p, source)])
  {
  }

  /** Every deferred link already has a real parent directory. */
  ghost predicate ParentsReady(t: Tree, ls: seq<Link>) {
    forall i :: 0 <= i < |ls| ==> Clean(ls[i].target) && ls[i].target != [] && Parent(ls[i].target) in t && t[Parent(ls[i].target)] == Dir
  }

  /** The first `i` members have real parent directories, and all but hard links are there as what they are. */
  ghost predicate Settled(t: Tree, ms: seq<Member>, i: nat)
    requires i <= |ms|
  {
    forall k :: 0 <= k < i && PathOf(ms[k]) != [] ==> HasPlace(t, ms[k])
  }

  ghost predicate HasPlace(t: Tree, m: Member)
    requires PathOf(m) != []
  {
    Parent(PathOf(m)) in t && t[Parent(PathOf(m))] == Dir && (m.kind != Hard ==> PathOf(m) in t && Shows(t[PathOf(m)], m))
  }

  lemma NothingSettled(t: Tree, ms: seq<Member>)
    ensures Settled(t, ms, 0)
  {}

  lemma RootSettles(t: Tree, ms: seq<Member>, i: nat)
    requires i < |ms| && Settled(t, ms, i) && PathOf(ms[i]) == []
    ensures Settled(t, ms, i + 1)
  {
    hide PathOf;
  }

  lemma OneSettles(t: Tree, u: Tree, ms: seq<Member>, i: nat)
    requires i < |ms| && Settled(t, ms, i) && PathOf(ms[i]) != [] && HasPlace(u, ms[i])
    requires forall q :: q in t ==> q in u && u[q] == t[q]
    ensures Settled(u, ms, i + 1)
  {
    hide PathOf, Shows;
  }

  lemma MemberShown(t: Tree, u: Tree, m: Member, p: Path)
    requires p != [] && m.kind != Other
    requires exists i :: Placed(WithParents(t, p, |p|), i, m, p) == Some(u)
    ensures m.kind != Hard ==> p in u && Shows(u[p], m)
  {
    hide WithParents;
  }

  /** Where every member found its place and no link's place is taken, the archive is placeable. */
  lemma PlacedIsPlaceable(t: Tree, ms: seq<Member>)
    requires WellRooted(t) && ValidArchive(ms) && Settled(t, ms, |ms|) && LinksOf(Collect(ms)).Keys !! t.Keys
    ensures Placeable(Collect(ms))
  {
    hide WellRooted, MemberOk, PathOf, Collect, SourceOf;
    var a := Collect(ms);
    CollectMeans(ms);
    forall p, q | p in a && q in a && StrictlyAbove(q, p) ensures a[q].kind == Directory {
      var k :| 0 <= k < |ms| && ms[k] == a[p];
      var j :| 0 <= j < |ms| && ms[j] == a[q];
      assert HasPlace(t, ms[k]) && HasPlace(t, ms[j]);
      if q != Parent(p) {
        assert Parent(p)[..|q|] == q;
        AncestorsAreDirectories(t, Parent(p), q);
      }
      assert q in t && t[q] == Dir;
      assert a[q].kind == Hard ==> q in LinksOf(a);
    }
    forall p | p in a && a[p].kind == Symbolic ensures a[p].linkname != "" {
      var k :| 0 <= k < |ms| && ms[k] == a[p];
      assert HasPlace(t, ms[k]);
    }
  }

  lemma MemberParent(t: Tree, u: Tree, m: Member, p: Path)
    requires p != [] && ParentsOk(t, p)
    requires exists i :: Placed(WithParents(t, p, |p|), i, m, p) == Some(u)
    ensures Parent(p) in u && u[Parent(p)] == Dir
  {
    ParentsAdded(t, p);
    assert StrictlyAbove(Parent(p), p);
    assert p[..|p| - 1] == Parent(p);
  }

  /** All links can be made: no target is occupied and every chain ends in a regular file. */
  ghost predicate Resolvable(t: Tree, l: LinkMap) {
    l.Keys !! t.Keys && forall p :: p in l ==> Ends(t, l, p)
  }

  lemma CoversSplit(unresolved: seq<Link>, pending: seq<Link>, i: nat, now: set<Path>, l: LinkMap)
    requires i < |pending| && Covers(unresolved + pending[i..], now, l)
    ensures pending[i].target in l && l[pending[i].target] == pending[i].source && pending[i].target !in now
    ensures Covers(unresolved + pending[i + 1..], now + {pending[i].target}, l)
  {
    var all := unresolved + pending[i..];
    var rest := unresolved + pending[i + 1..];
    var n := |unresolved|;
    assert all[n] == pending[i];
    assert forall k :: 0 <= k < n ==> rest[k] == all[k];
    assert forall k :: n <= k < |rest| ==> rest[k] == all[k + 1];
    forall p | p in l && p !in now + {pending[i].target} ensures exists k :: 0 <= k < |rest| && rest[k].target == p {
      var k :| 0 <= k < |all| && all[k].target == p;
      assert k < n ==> rest[k].target == p;
      assert k > n ==> rest[k - 1].target == p;
    }
  }

  /** A pass without progress: the remaining links only wait for each other. */
  lemma NoProgress(t: Tree, l: LinkMap, done: set<Path>, u: Tree, pending: seq<Link>)
    requires Linked(t, l, done, u) && Covers(pending, done, l) && pending != []
    requires forall i :: 0 <= i < |pending| ==> pending[i].source !in u
    ensures !Resolvable(t, l)
  {
    var stuck := set i | 0 <= i < |pending| :: pending[i].target;
    var p := pending[0].target;
    assert p in stuck;
    if l.Keys !! t.Keys {
      forall q | q in stuck ensures q in l && q !in t && l[q] !in t && (l[q] in l ==> l[q] in stuck) {
        var i :| 0 <= i < |pending| && pending[i].target == q;
        assert l[q] == pending[i].source;
      }
      forall f: Path, n: nat ensures !EndsAt(t, l, p, f, n) {
        StuckNeverEnds(t, l, stuck, p, f, n);
      }
    }
  }

  lemma AllLinkedResolves(t: Tree, l: LinkMap, u: Tree)
    requires Linked(t, l, l.Keys, u)
    ensures Resolvable(t, l)
  {
    forall p | p in l ensures Ends(t, l, p) {
      var f: Path, n: nat :| EndsAt(t, l, p, f, n) && f in t && u[p] == t[f];
    }
  }

  // ----- The whole extraction -----

  ghost function LinksOf(a: Members): LinkMap {
    map p | p in a && a[p].kind == Hard :: SourceOf(a[p])
  }

  lemma CoversNext(ls: seq<Link>, l: LinkMap, p: Path, source: Path)
    requires Covers(ls, {}, l) && p !in l
    ensures Covers(ls + [Link(p, source)], {}, l[p := source])
  {
    var more := ls + [Link(p, source)];
    var extended := l[p := source];
    forall q | q in extended ensures exists i :: 0 <= i < |more| && more[i].target == q {
      if q == p {
        assert more[|ls|].target == p;
      } else {
        var i :| 0 <= i < |ls| && ls[i].target == q;
        assert more[i].target == q;
      }
    }
  }

  lemma LinksOfNext(a: Members, p: Path, m: Member)
    requires p !in a
    ensures p !in LinksOf(a)
    ensures LinksOf(a[p := m]) == if m.kind == Hard then LinksOf(a)[p := SourceOf(m)] else LinksOf(a)
  {
    hide SourceOf;
  }

  /** The deferred list and the archive's link map describe the same links. */
  lemma {:induction false} LinksCover(ms: seq<Member>)
    requires ValidArchive(ms)
    ensures Covers(Links(ms), {}, LinksOf(Collect(ms)))
  {
    hide Covers, LinksOf, MemberOk, PathOf, SourceOf, Placeable;
    if ms == [] {
      NoLinks();
    } else {
      var rest := ms[..|ms| - 1];
      var last := ms[|ms| - 1];
      assert last == ms[|ms| - 1] && MemberOk(last);
      LinksCover(rest);
      assert ms[..|ms|] == ms;
      CollectNext(ms, |ms| - 1);
      MemberFacts(last);
      assert Links(rest) + [] == Links(rest);
      if PathOf(last) != [] {
        LinksOfNext(Collect(rest), PathOf(last), last);
        if last.kind == Hard {
          CoversNext(Links(rest), LinksOf(Collect(rest)), PathOf(last), SourceOf(last));
        }
      }
    }
  }

  lemma NoLinks()
    ensures Covers([], {}, LinksOf(map[]))
  {
  }

  /** Following hard links inside the archive alone: from `p` to the regular member `f`. */
  ghost predicate LeadsTo(a: Members, p: Path, f: Path, n: nat)
    decreases n
  {
    if p in a && a[p].kind == Hard then n > 0 && LeadsTo(a, SourceOf(a[p]), f, n - 1)
    else n == 0 && f == p && p in a && a[p].kind == Regular
  }

  ghost predicate LeadsSomewhere(a: Members, p: Path) {
    exists f: Path, n: nat :: LeadsTo(a, p, f, n)
  }

  /** Two members that end in the same regular member. */
  ghost predicate SameFile(a: Members, p: Path, q: Path) {
    exists f: Path, n: nat, m: nat :: LeadsTo(a, p, f, n) && LeadsTo(a, q, f, m)
  }

  lemma HardLinksAbsent(t: Tree, inode: nat, a: Members, p: Path)
    requires Built(t, inode, a) && Placeable(a) && [] !in a && p in a && a[p].kind == Hard
    ensures p !in t
  {
  }

  /** Chains in the placed tree are chains in the archive. */
  lemma {:induction false} ChainsAgree(t: Tree, inode: nat, a: Members, p: Path, f: Path, n: nat)
    requires Built(t, inode, a) && Placeable(a) && [] !in a
    ensures EndsAt(t, LinksOf(a), p, f, n) <==> LeadsTo(a, p, f, n)
    decreases n
  {
    if p in a && a[p].kind == Hard {
      HardLinksAbsent(t, inode, a, p);
      if n > 0 { ChainsAgree(t, inode, a, SourceOf(a[p]), f, n - 1); }
    } else if p in t && t[p].File? {
      assert Shows(t[p], a[p]);
    }
  }

  /** Every hard link of the archive ends in one of its regular files. */
  ghost predicate AllLinksEnd(a: Members) {
    forall p :: p in a && a[p].kind == Hard ==> LeadsSomewhere(a, p)
  }

  lemma ResolvableIff(t: Tree, inode: nat, a: Members)
    requires Built(t, inode, a) && Placeable(a) && [] !in a
    ensures Resolvable(t, LinksOf(a)) <==> AllLinksEnd(a)
  {
    var l := LinksOf(a);
    forall p | p in l ensures p !in t && (Ends(t, l, p) <==> LeadsSomewhere(a, p)) {
      HardLinksAbsent(t, inode, a, p);
      forall f: Path, n: nat ensures EndsAt(t, l, p, f, n) <==> LeadsTo(a, p, f, n) {
        ChainsAgree(t, inode, a, p, f, n);
      }
    }
  }

  predicate IsFile(m: Member) { m.kind == Regular || m.kind == Hard }

  /** A tree that is exactly an archive: its entries, their kinds, and who shares an inode with whom. */
  ghost predicate Realizes(u: Tree, a: Members) {
    (forall p :: p in u <==> p == [] || p in a || IsAncestor(a, p)) &&
    (forall p :: p in u && p !in a ==> u[p] == Dir) &&
    (forall p :: p in a ==> if a[p].kind == Hard then u[p].File? else Shows(u[p], a[p])) &&
    (forall p, q :: p in a && q in a && IsFile(a[p]) && IsFile(a[q]) ==> (u[p] == u[q] <==> SameFile(a, p, q)))
  }

  /** The node of a file member is the node its chain ends in. */
  lemma NodeOfEnd(t: Tree, inode: nat, a: Members, u: Tree, p: Path) returns (f: Path, n: nat)
    requires Built(t, inode, a) && Placeable(a) && [] !in a && Linked(t, LinksOf(a), LinksOf(a).Keys, u)
    requires p in a && IsFile(a[p])
    ensures LeadsTo(a, p, f, n) && f in t && t[f].File? && u[p] == t[f]
  {
    if a[p].kind == Hard {
      f, n :| EndsAt(t, LinksOf(a), p, f, n) && f in t && u[p] == t[f];
      ChainsAgree(t, inode, a, p, f, n);
      EndIsFile(t, LinksOf(a), p, f, n);
    } else {
      f, n := p, 0;
      assert Shows(t[p], a[p]);
    }
  }

  lemma {:induction false} LeadsToOne(a: Members, p: Path, f: Path, n: nat, g: Path, m: nat)
    requires LeadsTo(a, p, f, n) && LeadsTo(a, p, g, m)
    ensures f == g
    decreases n
  {
    if p in a && a[p].kind == Hard { LeadsToOne(a, SourceOf(a[p]), f, n - 1, g, m - 1); }
  }

  lemma LinkedRealizes(t: Tree, inode: nat, a: Members, u: Tree)
    requires Built(t, inode, a) && Placeable(a) && [] !in a && Linked(t, LinksOf(a), LinksOf(a).Keys, u) && [] in t
    ensures Realizes(u, a)
  {
    forall p, q | p in a && q in a && IsFile(a[p]) && IsFile(a[q]) ensures u[p] == u[q] <==> SameFile(a, p, q) {
      var f, n := NodeOfEnd(t, inode, a, u, p);
      var g, m := NodeOfEnd(t, inode, a, u, q);
      if SameFile(a, p, q) {
        var h: Path, i: nat, j: nat :| LeadsTo(a, p, h, i) && LeadsTo(a, q, h, j);
        LeadsToOne(a, p, f, n, h, i);
        LeadsToOne(a, q, g, m, h, j);
      }
    }
    forall p ensures p in u <==> p == [] || p in a || IsAncestor(a, p) {
      if IsAncestor(a, p) { var q :| q in a && StrictlyAbove(p, q); }
      assert p in a && a[p].kind == Hard <==> p in LinksOf(a);
    }
    forall p | p in u && p !in a ensures u[p] == Dir {
      assert p in t;
    }
  }

  lemma LinkingKeepsRoots(t: Tree, l: LinkMap, done: set<Path>, u: Tree, ls: seq<Link>)
    requires WellRooted(t) && Linked(t, l, done, u) && Covers(ls, {}, l) && ParentsReady(t, ls)
    ensures WellRooted(u)
  {
    forall p | p in u ensures Clean(p) && (p != [] ==> Parent(p) in u && u[Parent(p)] == Dir) {
      if p !in t {
        var i :| 0 <= i < |ls| && ls[i].target == p;
      }
    }
  }

  /**
   * Extracting an archive. Whatever happens, the tree is well rooted. It
   * succeeds exactly on the valid archives in which no member lies below a
   * non-directory, no symbolic link has an empty target and every hard link
   * ends in a regular file; and then the tree is exactly the archive.
   */
  method ExtractArchive(ms: seq<Member>) returns (ok: bool, tree: Tree)
    ensures WellRooted(tree)
    ensures ok <==> ValidArchive(ms) && Placeable(Collect(ms)) && AllLinksEnd(Collect(ms))
    ensures ok ==> Realizes(tree, Collect(ms))
  {
    hide Clean, Built, Placeable, AllLinksEnd, Realizes, Linked, Resolvable, Covers, ParentsReady, ValidArchive, WellRooted, Collect, LinksOf, Links, Settled;
    var destination := new Destination();
    BareRoot();
    var paths := ValidateArchiveMembers(ms);
    if paths.Err? { return false, destination.nodes; }
    var pending;
    ok, pending := destination.PlaceMembers(ms);
    tree := destination.nodes;
    if !ok { return; }
    ghost var a := Collect(ms);
    LinksCover(ms);
    NoRootMember(ms);
    ok := destination.LinkAll(pending, LinksOf(a));
    ghost var placed := tree;
    tree := destination.nodes;
    if ok {
      LinkingKeepsRoots(placed, LinksOf(a), LinksOf(a).Keys, tree, pending);
      FreeTargets(placed, LinksOf(a));
      PlacedIsPlaceable(placed, ms);
    } else {
      ghost var some :| Linked(placed, LinksOf(a), some, tree);
      LinkingKeepsRoots(placed, LinksOf(a), some, tree, pending);
    }
    if Placeable(a) {
      ResolvableIff(placed, destination.nextInode, a);
      if ok {
        RootIn(placed);
        LinkedRealizes(placed, destination.nextInode, a, tree);
      }
    }
  }

  lemma FreeTargets(t: Tree, l: LinkMap)
    requires Resolvable(t, l)
    ensures l.Keys !! t.Keys
  {}

  lemma BareRoot()
    ensures WellRooted(map[[] := Dir])
  {
  }

  lemma RootIn(t: Tree)
    requires WellRooted(t)
    ensures [] in t
  {
  }

  lemma NoRootMember(ms: seq<Member>)
    requires ValidArchive(ms)
    ensures [] !in Collect(ms)
  {
    CollectMeans(ms);
  }

  lemma FilesAreMembers(t: Tree, a: Members, p: Path)
    requires Realizes(t, a) && p in t
    ensures t[p].File? <==> p in a && IsFile(a[p])
    ensures !t[p].File? ==> t[p] == if p in a && a[p].kind == Symbolic then Sym(a[p].linkname) else Dir
  {
    hide SameFile;
  }

  lemma RealizationsAgree(t: Tree, u: Tree, a: Members)
    requires Realizes(t, a) && Realizes(u, a)
    ensures t.Keys == u.Keys && forall p :: p in t ==> (t[p].File? <==> u[p].File?) && (!t[p].File? ==> t[p] == u[p])
    ensures forall p, q :: p in t && q in t && t[p].File? && t[q].File? ==> (t[p] == t[q] <==> u[p] == u[q])
  {
    hide SameFile, IsAncestor, Shows;
    forall p ensures p in t <==> p in u {}
    forall p | p in t ensures (t[p].File? <==> u[p].File?) && (!t[p].File? ==> t[p] == u[p]) {
      FilesAreMembers(t, a, p);
      FilesAreMembers(u, a, p);
    }
    forall p, q | p in t && q in t && t[p].File? && t[q].File? ensures t[p] == t[q] <==> u[p] == u[q] {
      FilesAreMembers(t, a, p);
      FilesAreMembers(t, a, q);
    }
  }

  /** Reordering members keeps an archive valid. */
  lemma ValidityIgnoresOrder(ms: seq<Member>, ns: seq<Member>)
    requires multiset(ms) == multiset(ns) && ValidArchive(ms)
    ensures ValidArchive(ns)
  {
    hide MemberOk, PathOf;
    Sorting.SameMembers(ms, ns);
    forall i | 0 <= i < |ns| ensures MemberOk(ns[i]) { assert ns[i] in ms; }
    forall i, j | 0 <= i < j < |ns| && PathOf(ns[i]) != [] ensures PathOf(ns[i]) != PathOf(ns[j]) {
      if ns[i] == ns[j] {
        Sorting.CountedTwice(ns, i, j);
        var k, l := Sorting.TwoPlaces(ms, ns[i]);
      } else {
        assert ns[i] in ms && ns[j] in ms;
      }
    }
  }

  /** The order of members decides nothing: neither success, nor entries, nor which files share an inode. */
  lemma OrderIsIrrelevant(ms: seq<Member>, ns: seq<Member>, t: Tree, u: Tree)
    requires multiset(ms) == multiset(ns) && ValidArchive(ms)
    requires Realizes(t, Collect(ms)) && Realizes(u, Collect(ns))
    ensures ValidArchive(ns) && (Placeable(Collect(ms)) <==> Placeable(Collect(ns)))
    ensures AllLinksEnd(Collect(ms)) <==> AllLinksEnd(Collect(ns))
    ensures t.Keys == u.Keys && forall p :: p in t ==> (t[p].File? <==> u[p].File?) && (!t[p].File? ==> t[p] == u[p])
    ensures forall p, q :: p in t && q in t && t[p].File? && t[q].File? ==> (t[p] == t[q] <==> u[p] == u[q])
  {
    hide Realizes, AllLinksEnd, Collect, MemberOk, PathOf;
    ValidityIgnoresOrder(ms, ns);
    CollectIgnoresOrder(ms, ns);
    RealizationsAgree(t, u, Collect(ms));
  }
}
