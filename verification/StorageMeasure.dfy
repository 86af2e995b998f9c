/** Measuring a tree on disk: a depth-first walk whose recursive calls share one set of visited inodes. */
module StorageMeasure {
  import opened Common

  datatype Ident = Ident(device: int, inode: int)

  /** What one path shows to `lstat`: nothing, or an identity. */
  datatype Child = Unreadable | Child(id: Ident)

  /** Symbolic links are never followed, so they list nothing. */
  datatype Content = NotDirectory | Unlistable | Listing(children: seq<Child>)

  datatype Inode = Inode(blocks: nat, size: nat, content: Content)

  type Filesystem = map<Ident, Inode>

  datatype StorageError = CannotInspect | CannotList

  /** Whatever `lstat` reports exists. */
  ghost predicate Closed(fs: Filesystem) {
    forall id, child :: id in fs && Lists(fs[id], child) && child.Child? ==> child.id in fs
  }

  predicate Lists(node: Inode, child: Child) { node.content.Listing? && child in node.content.children }

  /** Allocated blocks where the filesystem reports them, the apparent size otherwise. */
  function Size(node: Inode): nat { if node.blocks != 0 then node.blocks * 512 else node.size }

  // ----- Reachability -----

  ghost predicate Edge(fs: Filesystem, a: Ident, b: Ident) { a in fs && Lists(fs[a], Child(b)) }

  ghost predicate Path(fs: Filesystem, p: seq<Ident>) {
    p != [] && forall i :: 0 <= i < |p| - 1 ==> Edge(fs, p[i], p[i + 1])
  }

  ghost predicate Reaches(fs: Filesystem, a: Ident, b: Ident) {
    exists p :: Path(fs, p) && p[0] == a && p[|p| - 1] == b
  }

  ghost function Reachable(fs: Filesystem, a: Ident): set<Ident> { set b | b in fs && Reaches(fs, a, b) }

  /** Listing and inspecting everything directly below `id` works. */
  ghost predicate Good(fs: Filesystem, id: Ident)
    requires id in fs
  {
    !fs[id].content.Unlistable? && !Lists(fs[id], Unreadable)
  }

  ghost predicate Inspectable(fs: Filesystem, a: Ident) {
    forall b :: b in Reachable(fs, a) ==> Good(fs, b)
  }

  lemma ReachesItself(fs: Filesystem, a: Ident)
    ensures Reaches(fs, a, a)
  {
    assert Path(fs, [a]);
  }

  lemma ReachesBelow(fs: Filesystem, a: Ident, b: Ident, c: Ident)
    requires Edge(fs, a, b) && Reaches(fs, b, c)
    ensures Reaches(fs, a, c)
  {
    var p :| Path(fs, p) && p[0] == b && p[|p| - 1] == c;
    var q := [a] + p;
    assert Path(fs, q) && q[0] == a && q[|q| - 1] == c;
  }

  /** A set closed under listing holds everything its members reach. */
  lemma {:induction false} ClosedHoldsReachable(fs: Filesystem, s: set<Ident>, p: seq<Ident>)
    requires Path(fs, p) && p[0] in s && forall a, b :: a in s && Edge(fs, a, b) ==> b in s
    ensures p[|p| - 1] in s
    decreases |p|
  {
    if |p| > 1 {
      assert Edge(fs, p[0], p[1]);
      var rest := p[1..];
      forall i | 0 <= i < |rest| - 1 ensures Edge(fs, rest[i], rest[i + 1]) {
        assert Edge(fs, p[i + 1], p[i + 2]);
      }
      ClosedHoldsReachable(fs, s, rest);
    }
  }

  // ----- Sums over sets of inodes -----

  ghost function Total(fs: Filesystem, s: set<Ident>): nat
    requires s <= fs.Keys
  {
    if s == {} then 0
    else
      var id :| id in s;
      Size(fs[id]) + Total(fs, s - {id})
  }

  /** Any member can be taken first, so the choice in `Total` does not matter. */
  lemma {:induction false} TotalTakes(fs: Filesystem, s: set<Ident>, x: Ident)
    requires s <= fs.Keys && x in s
    ensures Total(fs, s) == Size(fs[x]) + Total(fs, s - {x})
    decreases |s|
  {
    var id :| id in s && Total(fs, s) == Size(fs[id]) + Total(fs, s - {id});
    if id != x {
      TotalTakes(fs, s - {id}, x);
      TotalTakes(fs, s - {x}, id);
      assert s - {id} - {x} == s - {x} - {id};
    }
  }

  lemma {:induction false} TotalJoins(fs: Filesystem, s: set<Ident>, t: set<Ident>)
    requires s <= fs.Keys && t <= fs.Keys && s !! t
    ensures Total(fs, s + t) == Total(fs, s) + Total(fs, t)
    decreases |t|
  {
    if t == {} {
      assert s + t == s;
    } else {
      var x :| x in t;
      TotalTakes(fs, s + t, x);
      TotalTakes(fs, t, x);
      assert s + t - {x} == s + (t - {x});
      TotalJoins(fs, s, t - {x});
    }
  }

  // ----- The walk -----

  /** What a call leaves behind for `added`, the inodes it visited: all good, their listings all visited. */
  ghost predicate Explored(fs: Filesystem, added: set<Ident>, seen: set<Ident>) {
    forall a :: a in added ==> a in fs && Good(fs, a) && forall b :: Edge(fs, a, b) ==> b in seen
  }

  ghost predicate AllReached(fs: Filesystem, a: Ident, added: set<Ident>) {
    forall b :: b in added ==> Reaches(fs, a, b)
  }

  lemma ExploredGrows(fs: Filesystem, first: set<Ident>, second: set<Ident>, seen: set<Ident>, more: set<Ident>)
    requires Explored(fs, first, seen) && Explored(fs, second, more) && seen <= more
    ensures Explored(fs, first + second, more)
  {}

  lemma ReachedBelow(fs: Filesystem, a: Ident, b: Ident, added: set<Ident>)
    requires Edge(fs, a, b) && AllReached(fs, b, added)
    ensures AllReached(fs, a, added)
  {
    forall c | c in added ensures Reaches(fs, a, c) { ReachesBelow(fs, a, b, c); }
  }

  lemma UninspectableBelow(fs: Filesystem, a: Ident, b: Ident)
    requires Edge(fs, a, b) && !Inspectable(fs, b)
    ensures !Inspectable(fs, a)
  {
    var c :| c in Reachable(fs, b) && !Good(fs, c);
    ReachesBelow(fs, a, b, c);
    assert c in Reachable(fs, a);
  }

  lemma UninspectableHere(fs: Filesystem, a: Ident)
    requires a in fs && !Good(fs, a)
    ensures !Inspectable(fs, a)
  {
    ReachesItself(fs, a);
    assert a in Reachable(fs, a);
  }

  class Meter {
    const fs: Filesystem
    var seen: set<Ident>

    ghost predicate Valid()
      reads this
    {
      Closed(fs) && seen <= fs.Keys
    }

    constructor (fs: Filesystem)
      requires Closed(fs)
      ensures Valid() && this.fs == fs && seen == {}
    {
      this.fs := fs;
      seen := {};
    }

    /** Measures what `current` reaches through inodes not seen before, each once. */
    method Measure(current: Child) returns (r: Result<nat, StorageError>)
      requires Valid() && (current.Child? ==> current.id in fs)
      modifies this`seen
      ensures Valid() && old(seen) <= seen
      ensures r.Ok? ==> current.Child? && current.id in seen
      ensures r.Ok? ==> r.value == Total(fs, seen - old(seen))
      ensures r.Ok? ==> Explored(fs, seen - old(seen), seen) && AllReached(fs, current.id, seen - old(seen))
      ensures r.Err? ==> current.Unreadable? || !Inspectable(fs, current.id)
      decreases fs.Keys - seen
    {
      hide Total, Explored, AllReached, Good, Inspectable, Closed, Lists, Size;
      if current.Unreadable? { return Err(CannotInspect); }
      var id := current.id;
      NothingAdded(id);
      if id in seen {
        assert seen - seen == {};
        return Ok(0);
      }
      ghost var before := seen;
      seen := seen + {id};
      OneAdded(id);
      var size := Size(fs[id]);
      assert seen - before == {id};
      if fs[id].content.NotDirectory? {
        LeafExplored(id, seen);
        return Ok(size);
      }
      if fs[id].content.Unlistable? {
        ListingFails(id);
        return Err(CannotList);
      }
      var children := fs[id].content.children;
      ghost var mine := seen;
      assert seen - mine == {};
      NothingAdded(id);
      var total := size;
      for i := 0 to |children|
        invariant Valid() && mine <= seen
        invariant total == size + Total(fs, seen - mine)
        invariant Explored(fs, seen - mine, seen) && AllReached(fs, id, seen - mine)
        invariant forall k :: 0 <= k < i ==> children[k].Child? && children[k].id in seen
      {
        ghost var start := seen;
        ListedChild(id, i);
        var part := Measure(children[i]);
        if part.Err? {
          ChildFails(id, i);
          return part;
        }
        total := total + part.value;
        assert seen - mine == (start - mine) + (seen - start);
        TotalJoins(fs, start - mine, seen - start);
        ExploredGrows(fs, start - mine, seen - start, start, seen);
        ReachedBelow(fs, id, children[i].id, seen - start);
        ReachedJoins(id, start - mine, seen - start);
      }
      NodeExplored(id, children, seen);
      assert seen - before == {id} + (seen - mine);
      TotalJoins(fs, {id}, seen - mine);
      ExploredGrows(fs, {id}, seen - mine, seen, seen);
      ReachedJoins(id, {id}, seen - mine);
      return Ok(total);
    }

    lemma NothingAdded(id: Ident)
      ensures Explored(fs, {}, seen) && AllReached(fs, id, {}) && Total(fs, {}) == 0
    {}

    lemma OneAdded(id: Ident)
      requires id in fs
      ensures AllReached(fs, id, {id}) && Total(fs, {id}) == Size(fs[id])
    {
      ReachesItself(fs, id);
      TotalTakes(fs, {id}, id);
    }

    lemma LeafExplored(id: Ident, seen: set<Ident>)
      requires id in fs && fs[id].content.NotDirectory?
      ensures Explored(fs, {id}, seen)
    {}

    lemma ListingFails(id: Ident)
      requires id in fs && fs[id].content.Unlistable?
      ensures !Inspectable(fs, id)
    {
      UninspectableHere(fs, id);
    }

    lemma ListedChild(id: Ident, i: nat)
      requires id in fs && fs[id].content.Listing? && i < |fs[id].content.children| && Closed(fs)
      ensures fs[id].content.children[i].Child? ==> (
        fs[id].content.children[i].id in fs && Edge(fs, id, fs[id].content.children[i].id))
    {
      assert Lists(fs[id], fs[id].content.children[i]);
    }

    lemma ChildFails(id: Ident, i: nat)
      requires id in fs && fs[id].content.Listing? && i < |fs[id].content.children|
      requires fs[id].content.children[i].Unreadable? || !Inspectable(fs, fs[id].content.children[i].id)
      ensures !Inspectable(fs, id)
    {
      hide Inspectable, Reachable, Reaches;
      var child := fs[id].content.children[i];
      assert Lists(fs[id], child);
      if child.Unreadable? { UninspectableHere(fs, id); } else { UninspectableBelow(fs, id, child.id); }
    }

    lemma NodeExplored(id: Ident, children: seq<Child>, seen: set<Ident>)
      requires id in fs && fs[id].content == Listing(children)
      requires forall k :: 0 <= k < |children| ==> children[k].Child? && children[k].id in seen
      ensures Explored(fs, {id}, seen)
    {}

    lemma ReachedJoins(a: Ident, s: set<Ident>, t: set<Ident>)
      requires AllReached(fs, a, s) && AllReached(fs, a, t)
      ensures AllReached(fs, a, s + t)
    {}
  }

  /**
   * The measured bytes are the sizes of the inodes reachable from the root, each counted once; the walk fails
   * exactly when one of them, or an entry below one of them, cannot be inspected. An absent root measures zero.
   */
  method AllocatedTreeBytes(fs: Filesystem, root: Option<Child>) returns (r: Result<nat, StorageError>)
    requires Closed(fs) && (root.Some? && root.value.Child? ==> root.value.id in fs)
    ensures root.None? ==> r == Ok(0)
    ensures root.Some? ==> (r.Ok? <==> root.value.Child? && Inspectable(fs, root.value.id))
    ensures root.Some? && r.Ok? ==> r.value == Total(fs, Reachable(fs, root.value.id))
  {
    if root.None? { return Ok(0); }
    var meter := new Meter(fs);
    r := meter.Measure(root.value);
    if r.Ok? {
      assert meter.seen - {} == meter.seen;
      ExploredIsReachable(fs, root.value.id, meter.seen);
    }
  }

  lemma ExploredIsReachable(fs: Filesystem, root: Ident, seen: set<Ident>)
    requires root in seen && seen <= fs.Keys && Explored(fs, seen, seen) && AllReached(fs, root, seen)
    ensures seen == Reachable(fs, root) && Inspectable(fs, root)
  {
    forall b | b in Reachable(fs, root) ensures b in seen {
      var p :| Path(fs, p) && p[0] == root && p[|p| - 1] == b;
      ClosedHoldsReachable(fs, seen, p);
    }
  }

  // ----- Listing order and hard links -----

  /** The same tree with every directory listed in another order, or with entries listed more than once. */
  ghost predicate Relisted(fs: Filesystem, gs: Filesystem) {
    fs.Keys == gs.Keys &&
    forall id :: id in fs ==> (
      fs[id].content.Unlistable? == gs[id].content.Unlistable? && Size(fs[id]) == Size(gs[id]) &&
      forall child :: Lists(fs[id], child) <==> Lists(gs[id], child))
  }

  /** Listing order and repeated names of one inode change neither success nor the total. */
  lemma ListingOrderIsIrrelevant(fs: Filesystem, gs: Filesystem, root: Ident)
    requires Relisted(fs, gs)
    ensures Inspectable(fs, root) <==> Inspectable(gs, root)
    ensures Total(fs, Reachable(fs, root)) == Total(gs, Reachable(gs, root))
  {
    SameReachable(fs, gs, root);
    SameTotal(fs, gs, Reachable(fs, root));
  }

  lemma SameReachable(fs: Filesystem, gs: Filesystem, root: Ident)
    requires Relisted(fs, gs)
    ensures Reachable(fs, root) == Reachable(gs, root)
  {
    assert forall p :: Path(fs, p) <==> Path(gs, p) by {
      assert forall a, b :: Edge(fs, a, b) <==> Edge(gs, a, b);
    }
  }

  lemma {:induction false} SameTotal(fs: Filesystem, gs: Filesystem, s: set<Ident>)
    requires s <= fs.Keys && Relisted(fs, gs)
    ensures Total(fs, s) == Total(gs, s)
    decreases |s|
  {
    if s != {} {
      var id :| id in s;
      TotalTakes(fs, s, id);
      TotalTakes(gs, s, id);
      SameTotal(fs, gs, s - {id});
    }
  }
}
