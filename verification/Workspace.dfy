/**
 * Directories under `workspaces/` and the scans that read them: loading one
 * workspace, opening by selector, and the checks create, recovery and base
 * removal make over all published workspaces.
 */
module Workspace {
  import opened Common

  /** The record stored in `workspace.json`. */
  datatype Meta = Meta(id: string, name: string, lock: string, base: string, generation: int)

  /** `workspace.json` is created first and filled afterwards, so it can be torn. */
  datatype MetaFile = Absent | Torn | Written(meta: Meta)

  datatype Root = NoRoot | Extracting | Extracted

  /** One directory under `workspaces/` or `staging/`. */
  datatype Tree = Tree(metaFile: MetaFile, root: Root)

  type Directory = map<string, Tree>

  datatype LoadError = Unreadable | WrongId | BadGeneration | RootMissing | BadField

  predicate IsDigest(s: string) {
    |s| == 64 && forall c :: c in s ==> '0' <= c <= '9' || 'a' <= c <= 'f'
  }

  /** The characters a string is stripped of: Unicode white space and the ASCII separators. */
  predicate IsSpace(c: char) {
    var n := c as int;
    9 <= n <= 13 || 0x1C <= n <= 0x20 || n == 0x85 || n == 0xA0 || n == 0x1680 || 0x2000 <= n <= 0x200A ||
    n == 0x2028 || n == 0x2029 || n == 0x202F || n == 0x205F || n == 0x3000
  }

  predicate IsBlank(s: string) {
    forall c :: c in s ==> IsSpace(c)
  }

  /** A name that publication accepts: not blank and free of path traversal. */
  predicate IsWorkspaceName(name: string) {
    !IsBlank(name) && '/' !in name &&
    !exists i :: 0 <= i < |name| - 1 && name[i] == '.' && name[i + 1] == '.'
  }

  /** Validate one workspace directory the way every reader does. */
  function Load(dir: string, tree: Tree): (r: Result<Meta, LoadError>)
    ensures r.Ok? ==> tree.metaFile == Written(r.value) && r.value.id == dir && tree.root != NoRoot
  {
    if !tree.metaFile.Written? then Err(Unreadable)
    else
      var m := tree.metaFile.meta;
      if m.id == "" then Err(BadField)
      else if m.id != dir then Err(WrongId)
      else if m.generation < 0 then Err(BadGeneration)
      else if tree.root == NoRoot then Err(RootMissing)
      else if m.name == "" || !IsDigest(m.lock) || !IsDigest(m.base) then Err(BadField)
      else Ok(m)
  }

  /** A workspace is complete when it loads and its root was fully extracted. */
  predicate Complete(dir: string, tree: Tree) {
    Load(dir, tree).Ok? && tree.root == Extracted
  }

  // ----- Opening by selector -----

  datatype OpenResult = Found(meta: Meta) | NotFound | Corrupt | Ambiguous

  predicate LoadsWithName(dir: string, tree: Tree, name: string) {
    Load(dir, tree).Ok? && Load(dir, tree).value.name == name
  }

  function IdsNamed(ws: Directory, name: string): set<string> {
    set id | id in ws && LoadsWithName(id, ws[id], name)
  }

  /** Directories whose metadata file exists but does not load. */
  function Unloadable(ws: Directory): set<string> {
    set id | id in ws && ws[id].metaFile != Absent && Load(id, ws[id]).Err?
  }

  /** `workspaces/.` and `workspaces/..` are directories, though no workspaces. */
  predicate IsDotted(s: string) { s == "." || s == ".." }

  /** What a generated id looks like, as far as it matters. */
  predicate IsId(u: string) { !IsBlank(u) && !IsDotted(u) }

  /** What opening a selector means: the id first, then a unique name. */
  ghost function Open(ws: Directory, selector: string): OpenResult {
    if IsBlank(selector) then NotFound
    else if IsDotted(selector) then Corrupt
    else if selector in ws then
      (match Load(selector, ws[selector]) case Ok(m) => Found(m) case Err(_) => Corrupt)
    else if Unloadable(ws) != {} then Corrupt
    else
      var ids := IdsNamed(ws, selector);
      if ids == {} then NotFound
      else if |ids| > 1 then Ambiguous
      else var id :| id in ids; Found(Load(id, ws[id]).value)
  }

  /** The same, where `workspaces/` may not have been made yet. */
  ghost function OpenIn(made: bool, ws: Directory, selector: string): OpenResult {
    if made then Open(ws, selector) else NotFound
  }

  /** A listing of a directory: every entry once, in any order. */
  ghost predicate Lists(ws: Directory, entries: seq<string>) {
    (forall i :: 0 <= i < |entries| ==> entries[i] in ws) &&
    (forall id :: id in ws ==> id in entries) &&
    (forall i, j :: 0 <= i < j < |entries| ==> entries[i] != entries[j])
  }

  /** The entries a scan has visited. */
  ghost predicate Visited(entries: seq<string>, i: nat, done: set<string>) {
    i <= |entries| && forall d :: d in done <==> exists k :: 0 <= k < i && entries[k] == d
  }

  lemma VisitNone(entries: seq<string>)
    ensures Visited(entries, 0, {})
  {}

  lemma VisitOne(ws: Directory, entries: seq<string>, i: nat, done: set<string>)
    requires Lists(ws, entries) && Visited(entries, i, done) && i < |entries|
    ensures Visited(entries, i + 1, done + {entries[i]}) && entries[i] !in done && entries[i] in ws
  {}

  lemma VisitAll(ws: Directory, entries: seq<string>, done: set<string>)
    requires Lists(ws, entries) && Visited(entries, |entries|, done)
    ensures done == ws.Keys
  {}

  function IdsOf(matches: seq<Meta>): set<string> { set m | m in matches :: m.id }

  /** The matches of a scan: one record for each visited directory that matches. */
  ghost predicate Collected(matches: seq<Meta>, all: set<string>, done: set<string>) {
    IdsOf(matches) == all * done && |matches| == |all * done|
  }

  lemma CollectNone(all: set<string>)
    ensures Collected([], all, {})
  {}

  lemma CollectOne(matches: seq<Meta>, all: set<string>, done: set<string>, m: Meta)
    requires Collected(matches, all, done) && m.id in all && m.id !in done
    ensures Collected(matches + [m], all, done + {m.id})
  {
    assert all * (done + {m.id}) == all * done + {m.id};
    forall id ensures id in IdsOf(matches + [m]) <==> id in IdsOf(matches) + {m.id} {
      assert m in matches + [m];
      if id in IdsOf(matches) {
        var x :| x in matches && x.id == id;
        assert x in matches + [m];
      }
    }
  }

  lemma CollectSkip(matches: seq<Meta>, all: set<string>, done: set<string>, id: string)
    requires Collected(matches, all, done) && id !in all
    ensures Collected(matches, all, done + {id})
  {
    assert all * (done + {id}) == all * done;
  }

  /** At the end there are as many records as matching directories. */
  lemma CollectAll(matches: seq<Meta>, all: set<string>, done: set<string>)
    requires Collected(matches, all, done) && all <= done
    ensures |matches| == |all|
    ensures |matches| == 1 ==> all == {matches[0].id}
  {
    assert all * done == all;
    if |matches| == 1 { assert matches == [matches[0]]; }
  }

  ghost predicate LoadedFrom(ws: Directory, matches: seq<Meta>) {
    forall k :: 0 <= k < |matches| ==> matches[k].id in ws && Load(matches[k].id, ws[matches[k].id]) == Ok(matches[k])
  }

  /** The scan of `open`: collects matching records and refuses ambiguity. */
  method OpenSelector(made: bool, ws: Directory, entries: seq<string>, selector: string) returns (r: OpenResult)
    requires Lists(ws, entries) && (made || ws == map[])
    ensures r == OpenIn(made, ws, selector)
  {
    hide Lists, Visited, Collected, IsBlank, Load;
    if IsBlank(selector) || !made { return NotFound; }
    if IsDotted(selector) { return Corrupt; }
    if selector in ws {
      var loaded := Load(selector, ws[selector]);
      return if loaded.Ok? then Found(loaded.value) else Corrupt;
    }
    var matches: seq<Meta> := [];
    ghost var all, done := IdsNamed(ws, selector), {};
    VisitNone(entries);
    CollectNone(all);
    for i := 0 to |entries|
      invariant Visited(entries, i, done) && Collected(matches, all, done)
      invariant LoadedFrom(ws, matches) && forall id :: id in done ==> id !in Unloadable(ws)
    {
      VisitOne(ws, entries, i, done);
      var dir := entries[i];
      if dir !in all { CollectSkip(matches, all, done, dir); }
      if ws[dir].metaFile == Absent {
        done := done + {dir};
        continue;
      }
      var loaded := Load(dir, ws[dir]);
      if loaded.Err? {
        assert dir in Unloadable(ws);
        return Corrupt;
      }
      if loaded.value.name == selector {
        CollectOne(matches, all, done, loaded.value);
        matches := matches + [loaded.value];
      }
      done := done + {dir};
    }
    VisitAll(ws, entries, done);
    CollectAll(matches, all, done);
    assert Unloadable(ws) == {};
    if matches == [] { return NotFound; }
    if |matches| > 1 { return Ambiguous; }
    return Found(matches[0]);
  }

  // ----- Publication check -----

  datatype PublishCheck = Free | IdTaken | NameTaken | MetadataUnreadable

  function MetaName(tree: Tree): Option<string> {
    if tree.metaFile.Written? then Some(tree.metaFile.meta.name) else None
  }

  /** Publication may proceed exactly when neither the id nor the name is in use. */
  ghost predicate IdAndNameFree(ws: Directory, id: string, name: string) {
    id !in ws && forall d :: d in ws ==> MetaName(ws[d]) != Some(name)
  }

  method CheckExistingWorkspaces(ws: Directory, entries: seq<string>, id: string, name: string)
    returns (r: PublishCheck)
    requires Lists(ws, entries)
    ensures r == Free <==> IdAndNameFree(ws, id, name) && forall d :: d in ws ==> ws[d].metaFile != Torn
    ensures r == IdTaken <==> id in ws
    ensures r == NameTaken ==> exists d :: d in ws && MetaName(ws[d]) == Some(name)
  {
    if id in ws { return IdTaken; }
    for i := 0 to |entries|
      invariant forall k :: 0 <= k < i ==> MetaName(ws[entries[k]]) != Some(name) && ws[entries[k]].metaFile != Torn
    {
      var tree := ws[entries[i]];
      if tree.metaFile == Absent { continue; }
      if tree.metaFile == Torn { return MetadataUnreadable; }
      if tree.metaFile.meta.name == name { return NameTaken; }
    }
    return Free;
  }

  // ----- Dependencies of a base -----

  datatype Dependents = Names(names: seq<string>) | Unproven

  /** How a referencing workspace is reported: by name, else by id, else not at all. */
  function DependentLabel(tree: Tree, lock: string): Option<string> {
    if !tree.metaFile.Written? || tree.metaFile.meta.lock != lock then None
    else if tree.metaFile.meta.name != "" then Some(tree.metaFile.meta.name)
    else if tree.metaFile.meta.id != "" then Some(tree.metaFile.meta.id)
    else None
  }

  /**
   * The scan base removal relies on: it either reports that some directory
   * cannot be read, or it lists exactly the labels of referencing workspaces.
   */
  method DependentWorkspaces(ws: Directory, entries: seq<string>, lock: string) returns (r: Dependents)
    requires Lists(ws, entries)
    ensures r == Unproven <==> exists d :: d in ws && !ws[d].metaFile.Written?
    ensures r.Names? ==> forall d :: d in ws && DependentLabel(ws[d], lock).Some? ==> DependentLabel(ws[d], lock).value in r.names
    ensures r.Names? ==> forall n :: n in r.names ==> exists d :: d in ws && DependentLabel(ws[d], lock) == Some(n)
  {
    var result: seq<string> := [];
    for i := 0 to |entries|
      invariant forall k :: 0 <= k < i ==> ws[entries[k]].metaFile.Written?
      invariant forall k :: 0 <= k < i && DependentLabel(ws[entries[k]], lock).Some? ==>
        DependentLabel(ws[entries[k]], lock).value in result
      invariant forall n :: n in result ==> exists d :: d in ws && DependentLabel(ws[d], lock) == Some(n)
    {
      var tree := ws[entries[i]];
      if !tree.metaFile.Written? { return Unproven; }
      if tree.metaFile.meta.lock != lock { continue; }
      if tree.metaFile.meta.name != "" {
        result := result + [tree.metaFile.meta.name];
      } else if tree.metaFile.meta.id != "" {
        result := result + [tree.metaFile.meta.id];
      }
    }
    return Names(result);
  }

  // ----- Recovery of a create receipt -----

  predicate IsCreateMatch(dir: string, tree: Tree, name: string, lock: string, base: string) {
    Load(dir, tree).Ok? &&
    var m := Load(dir, tree).value;
    m.name == name && m.lock == lock && m.base == base
  }

  function CreateMatches(ws: Directory, name: string, lock: string, base: string): set<string> {
    set id | id in ws && IsCreateMatch(id, ws[id], name, lock, base)
  }

  datatype Verdict = Commit | Abort | Raise

  /** What a create receipt must hold to be judged at all. */
  predicate Judgeable(name: string, lock: string, base: string) { name != "" && IsDigest(lock) && IsDigest(base) }

  function CreateVerdict(ws: Directory, name: string, lock: string, base: string): Verdict {
    var ids := CreateMatches(ws, name, lock, base);
    if !Judgeable(name, lock, base) || |ids| > 1 then Raise else if ids != {} then Commit else Abort
  }

  method RecoverCreate(ws: Directory, entries: seq<string>, name: string, lock: string, base: string)
    returns (v: Verdict, found: Option<Meta>)
    requires Lists(ws, entries)
    ensures v == CreateVerdict(ws, name, lock, base)
    ensures v == Commit <==> found.Some?
    ensures found.Some? ==> CreateMatches(ws, name, lock, base) == {found.value.id}
  {
    hide Lists, Visited, Collected, Load, IsDigest;
    if !Judgeable(name, lock, base) { return Raise, None; }
    var matches: seq<Meta> := [];
    ghost var all, done := CreateMatches(ws, name, lock, base), {};
    VisitNone(entries);
    CollectNone(all);
    for i := 0 to |entries|
      invariant Visited(entries, i, done) && Collected(matches, all, done)
    {
      VisitOne(ws, entries, i, done);
      var dir := entries[i];
      if dir !in all { CollectSkip(matches, all, done, dir); }
      var loaded := Load(dir, ws[dir]);
      if loaded.Ok? && loaded.value.name == name && loaded.value.lock == lock && loaded.value.base == base {
        CollectOne(matches, all, done, loaded.value);
        matches := matches + [loaded.value];
      }
      done := done + {dir};
    }
    VisitAll(ws, entries, done);
    CollectAll(matches, all, done);
    if |matches| > 1 { return Raise, None; }
    if matches != [] { return Commit, Some(matches[0]); }
    return Abort, None;
  }

  /** The three-way decision recovery takes for a reset receipt. */
  ghost function ResetVerdict(ws: Directory, id: string, before: int, after: int): Verdict {
    match Open(ws, id)
    case Found(m) => if m.generation == after then Commit else if m.generation == before then Abort else Raise
    case _ => Raise
  }
}
