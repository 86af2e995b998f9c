/** Lexical path handling of archive members: splitting, member paths and link targets. */
module ArchivePaths {
  import opened Common

  type Path = seq<string>

  datatype PathError = Absolute | Escapes

  function IndexOfSlash(s: string): (i: nat)
    requires '/' in s
    ensures i < |s| && s[i] == '/' && '/' !in s[..i]
  {
    if s[0] == '/' then 0 else 1 + IndexOfSlash(s[1..])
  }

  /** The components between slashes, empty ones included. */
  function Split(s: string): (r: seq<string>)
    ensures forall c :: c in r ==> '/' !in c
  {
    if '/' !in s then [s]
    else
      var i := IndexOfSlash(s);
      [s[..i]] + Split(s[i + 1..])
  }

  function Significant(parts: seq<string>): (r: seq<string>)
    ensures forall c :: c in r <==> c in parts && c != "" && c != "."
  {
    if parts == [] then []
    else if parts[0] == "" || parts[0] == "." then Significant(parts[1..])
    else [parts[0]] + Significant(parts[1..])
  }

  predicate IsAbsolute(name: string) { name != "" && name[0] == '/' }

  /** The components of a relative path as the path library reports them. */
  function Parts(name: string): (r: seq<string>)
    ensures forall i :: 0 <= i < |r| ==> r[i] != "" && r[i] != "." && '/' !in r[i]
  {
    var r := Significant(Split(name));
    assert forall i :: 0 <= i < |r| ==> r[i] in r;
    r
  }

  /** A path every component of which names an entry of the directory it is looked up in. */
  predicate Clean(p: Path) {
    forall i :: 0 <= i < |p| ==> p[i] != "" && p[i] != "." && p[i] != ".." && '/' !in p[i]
  }

  /** Where an archive member is extracted, relative to the destination. */
  function MemberPath(name: string): (r: Result<Path, PathError>)
    ensures r.Ok? ==> Clean(r.value)
    ensures r.Ok? <==> !IsAbsolute(name) && ".." !in Parts(name)
  {
    if IsAbsolute(name) then Err(Absolute)
    else if ".." in Parts(name) then Err(Escapes)
    else Ok(Parts(name))
  }

  function Parent(p: Path): Path { if p == [] then [] else p[..|p| - 1] }

  /** Follow components from a directory, stepping up on `..` and never above the root. */
  function Walk(from: Path, parts: seq<string>): Result<Path, PathError>
    decreases |parts|
  {
    if parts == [] then Ok(from)
    else if parts[0] == ".." then
      if from == [] then Err(Escapes) else Walk(Parent(from), parts[1..])
    else Walk(from + [parts[0]], parts[1..])
  }

  function LinkStart(member: Path, hard: bool): Path { if hard then [] else Parent(member) }

  /** What a link member points at: from the root for hard links, from its directory otherwise. */
  function LinkTarget(member: Path, linkname: string, hard: bool): Result<Path, PathError> {
    if IsAbsolute(linkname) then Err(Absolute) else Walk(LinkStart(member, hard), Parts(linkname))
  }

  /** The list the source pushes and pops computes exactly the walk. */
  method ResolveLink(member: Path, linkname: string, hard: bool) returns (r: Result<Path, PathError>)
    ensures r == LinkTarget(member, linkname, hard)
  {
    if IsAbsolute(linkname) { return Err(Absolute); }
    var resolved := if hard then [] else Parent(member);
    var parts := Parts(linkname);
    for i := 0 to |parts|
      invariant Walk(LinkStart(member, hard), parts) == Walk(resolved, parts[i..])
    {
      assert parts[i..][0] == parts[i] && parts[i..][1..] == parts[i + 1..];
      if parts[i] == ".." {
        if resolved == [] { return Err(Escapes); }
        resolved := resolved[..|resolved| - 1];
      } else {
        resolved := resolved + [parts[i]];
      }
    }
    return Ok(resolved);
  }

  /** Net depth gained by following components. */
  function Depth(parts: seq<string>): int {
    if parts == [] then 0 else Depth(parts[..|parts| - 1]) + if parts[|parts| - 1] == ".." then -1 else 1
  }

  lemma {:induction false} DepthOfRest(parts: seq<string>, k: nat)
    requires 1 <= k <= |parts|
    ensures Depth(parts[..k]) == (if parts[0] == ".." then -1 else 1) + Depth(parts[1..][..k - 1])
  {
    if k == 1 {
      assert parts[..1] == [parts[0]] && parts[1..][..0] == [];
      assert Depth([parts[0]]) == Depth([parts[0]][..0]) + if parts[0] == ".." then -1 else 1;
    } else {
      DepthOfRest(parts, k - 1);
      assert parts[..k][..k - 1] == parts[..k - 1];
      assert parts[1..][..k - 1][..k - 2] == parts[1..][..k - 2];
      assert parts[..k][k - 1] == parts[1..][..k - 1][k - 2];
    }
  }

  ghost predicate NeverClimbsOut(depth: nat, parts: seq<string>) {
    forall k :: 0 <= k <= |parts| ==> depth + Depth(parts[..k]) >= 0
  }

  /** A walk succeeds exactly when no prefix of it climbs above the root. */
  lemma {:induction false} WalkSucceedsIff(from: Path, parts: seq<string>)
    ensures Walk(from, parts).Ok? <==> NeverClimbsOut(|from|, parts)
    ensures Walk(from, parts).Ok? ==> |Walk(from, parts).value| == |from| + Depth(parts)
    decreases |parts|
  {
    if parts == [] {
      assert parts[..0] == [];
    } else {
      var step := if parts[0] == ".." then -1 else 1;
      assert parts[..0] == [] && parts[..|parts|] == parts && parts[1..][..|parts| - 1] == parts[1..];
      forall k | 1 <= k <= |parts| ensures Depth(parts[..k]) == step + Depth(parts[1..][..k - 1]) {
        DepthOfRest(parts, k);
      }
      if parts[0] == ".." && from == [] {
        assert Depth(parts[..1]) == -1 by { DepthOfRest(parts, 1); assert parts[1..][..0] == []; }
      } else {
        var next := if parts[0] == ".." then Parent(from) else from + [parts[0]];
        WalkSucceedsIff(next, parts[1..]);
        assert |next| == |from| + step;
        if Walk(from, parts).Ok? {
          forall k | 0 <= k <= |parts| ensures |from| + Depth(parts[..k]) >= 0 {
            if k > 0 { assert |next| + Depth(parts[1..][..k - 1]) >= 0; }
          }
        } else {
          var k :| 0 <= k <= |parts| - 1 && |next| + Depth(parts[1..][..k]) < 0;
          assert |from| + Depth(parts[..k + 1]) < 0;
        }
      }
    }
  }

  /** A walk from a clean directory along split components ends at a clean path. */
  lemma {:induction false} WalkIsClean(from: Path, parts: seq<string>)
    requires Clean(from) && forall i :: 0 <= i < |parts| ==> parts[i] != "" && parts[i] != "." && '/' !in parts[i]
    ensures Walk(from, parts).Ok? ==> Clean(Walk(from, parts).value)
    decreases |parts|
  {
    if parts != [] {
      if parts[0] == ".." {
        if from != [] { WalkIsClean(Parent(from), parts[1..]); }
      } else {
        WalkIsClean(from + [parts[0]], parts[1..]);
      }
    }
  }

  /** Every accepted link target is a path below the destination, free of `.` and `..`. */
  lemma LinkTargetsAreClean(member: Path, linkname: string, hard: bool)
    requires Clean(member)
    ensures LinkTarget(member, linkname, hard).Ok? ==> Clean(LinkTarget(member, linkname, hard).value)
    ensures LinkTarget(member, linkname, hard).Ok? <==> !IsAbsolute(linkname) && NeverClimbsOut(|LinkStart(member, hard)|, Parts(linkname))
  {
    WalkSucceedsIff(LinkStart(member, hard), Parts(linkname));
    WalkIsClean(LinkStart(member, hard), Parts(linkname));
  }

  /** Joining a clean path to the destination stays below it: walking it is plain concatenation. */
  lemma {:induction false} CleanJoinStaysBelow(destination: Path, p: Path)
    requires Clean(p)
    ensures Walk(destination, p) == Ok(destination + p)
    decreases |p|
  {
    if p == [] {
      assert destination + p == destination;
    } else {
      CleanJoinStaysBelow(destination + [p[0]], p[1..]);
      assert destination + [p[0]] + p[1..] == destination + p;
    }
  }

  /** Walking in two stages is walking once. */
  lemma {:induction false} WalkComposes(from: Path, first: seq<string>, rest: seq<string>)
    ensures Walk(from, first + rest) == if Walk(from, first).Ok? then Walk(Walk(from, first).value, rest) else Err(Escapes)
    decreases |first|
  {
    if first == [] {
      assert first + rest == rest;
    } else {
      assert (first + rest)[0] == first[0] && (first + rest)[1..] == first[1..] + rest;
      if first[0] == ".." {
        if from != [] { WalkComposes(Parent(from), first[1..], rest); }
      } else {
        WalkComposes(from + [first[0]], first[1..], rest);
      }
    }
  }
}
