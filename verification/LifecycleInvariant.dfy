/** The invariant of the lifecycle protocol, and the frame argument it rests on. */
module LifecycleInvariant {
  import opened Common
  import opened Workspace
  import opened Lifecycle

  // ----- Locks -----

  predicate Holds(s: State, id: string, p: nat) {
    id in s.wlocks && s.wlocks[id] == p
  }

  /** Locks and program counters agree, in both directions. */
  ghost predicate LocksOk(s: State) {
    (forall p :: p in s.procs && HoldsLifecycle(s.procs[p]) ==> s.lifecycle == Some(p)) &&
    (s.lifecycle.Some? ==> s.lifecycle.value in s.procs && HoldsLifecycle(s.procs[s.lifecycle.value])) &&
    (forall p :: p in s.procs && HeldLock(s.procs[p].pc).Some? ==> Holds(s, HeldLock(s.procs[p].pc).value, p)) &&
    (forall id :: id in s.wlocks ==> s.wlocks[id] in s.procs && HeldLock(s.procs[s.wlocks[id]].pc) == Some(id))
  }

  // ----- Shared disk -----

  predicate WorkspaceOk(s: State, id: string)
    requires id in s.disk.ws
  {
    Complete(id, s.disk.ws[id]) &&
    var m := s.disk.ws[id].metaFile.meta;
    SeedStands(s, s.disk.ws[id]) && id in s.used && m.name in s.names && IsWorkspaceName(m.name) &&
    id in s.commits && m.generation == s.commits[id]
  }

  /** The seed of a workspace's target is there and names its lock and its base. */
  predicate SeedStands(s: State, t: Tree) {
    t.metaFile.Written? && SeedOf(s, t.metaFile.meta.lock) == Some(Seed(t.metaFile.meta.lock, t.metaFile.meta.base))
  }

  ghost predicate WorkspacesOk(s: State) {
    forall id :: id in s.disk.ws ==> WorkspaceOk(s, id)
  }

  function NameOf(t: Tree): string {
    if t.metaFile.Written? then t.metaFile.meta.name else ""
  }

  ghost predicate NamesUnique(ws: Directory) {
    forall i, j :: i in ws && j in ws && NameOf(ws[i]) == NameOf(ws[j]) ==> i == j
  }

  ghost predicate PoolsOk(s: State) {
    s.used !! s.names && (forall u :: u in s.used ==> IsId(u)) &&
    s.disk.receipts.Keys == s.history.Keys &&
    s.history.Keys <= s.used &&
    s.commits.Keys <= s.used &&
    (forall u :: Attempt(u) in s.disk.staging ==> u in s.used) &&
    (forall o :: o in s.disk.receipts && s.disk.receipts[o].ResetReceipt? ==> s.disk.receipts[o].id in s.commits)
  }

  ghost predicate TargetsOk(targets: map<string, Target>) {
    forall d :: d in targets && targets[d].seed.Some? ==> targets[d].seed.value.lock == d
  }

  // ----- Receipts and what really happened -----

  /**
   * The generation of a workspace tells whether others committed since it was `g`: it only grows, and it is still `g`
   * exactly if nobody did. A workspace that is gone was removed by somebody.
   */
  predicate GenerationTells(ws: Directory, id: string, g: int, disturbed: bool) {
    if id in ws then
      ws[id].metaFile.Written? && ws[id].metaFile.meta.generation >= g && (ws[id].metaFile.meta.generation == g <==> !disturbed)
    else disturbed
  }

  predicate ReceiptOk(ws: Directory, r: Receipt, h: History) {
    (r.recovered ==> Terminal(r)) &&
    (r.phase == Completed && !r.recovered ==> h.committed) &&
    (r.phase == Failed && !r.recovered ==> !h.committed) &&
    match r
    case CreateReceipt(name, lock, base, phase, recovered) =>
      !(h.committed && h.taken) && IsDigest(lock) && IsDigest(base) &&
      (!Terminal(r) && !h.disturbed ==> (CreateMatches(ws, name, lock, base) != {} <==> h.committed || h.taken)) &&
      (recovered && !h.disturbed ==> (phase == Completed <==> h.committed || h.taken))
    case ResetReceipt(id, before, after, phase, recovered) =>
      0 <= before && after == before + 1 && !h.taken &&
      (!Terminal(r) ==> GenerationTells(ws, id, if h.committed then after else before, h.disturbed)) &&
      (recovered && !h.disturbed ==> (phase == Completed <==> h.committed))
  }

  ghost predicate ReceiptsOk(ws: Directory, receipts: map<string, Receipt>, history: map<string, History>) {
    forall o :: o in receipts && o in history ==> ReceiptOk(ws, receipts[o], history[o])
  }

  ghost predicate HistoryOk(s: State) {
    ReceiptsOk(s.disk.ws, s.disk.receipts, s.history)
  }

  // ----- What each process may rely on at its program counter -----

  /** The record a process read under the workspace lock is still what is on disk. */
  predicate CurOk(s: State, id: string, cur: Meta) {
    cur.id == id && id in s.disk.ws && s.disk.ws[id].metaFile == Written(cur)
  }

  predicate Untouched(s: State, o: string, r: Receipt, h: History) {
    o in s.disk.receipts && o in s.history && s.disk.receipts[o] == r && s.history[o] == h
  }

  predicate ResetNoted(s: State, o: string, cur: Meta, h: History) {
    o in s.disk.receipts && o in s.history && s.history[o] == h &&
    var r := s.disk.receipts[o];
    r == ResetReceipt(cur.id, cur.generation, cur.generation + 1, r.phase, false) && !Terminal(r)
  }

  predicate NameFree(ws: Directory, name: string) {
    forall d :: d in ws ==> NameOf(ws[d]) != name
  }

  /** An extraction before its rename or exchange step. */
  predicate JobOk(s: State, j: Job) {
    match j
    case CreateJob(o, id, name, lock, base) =>
      Untouched(s, o, CreateReceipt(name, lock, base, Started, false), History(false, false, false)) &&
      id in s.used && id !in s.disk.ws && id !in s.commits &&
      IsWorkspaceName(name) && name in s.names && NameFree(s.disk.ws, name) &&
      SeedOf(s, lock) == Some(Seed(lock, base)) && IsDigest(lock) && IsDigest(base)
    case ResetJob(o, held, cur) =>
      CurOk(s, held, cur) && ResetNoted(s, o, cur, History(false, false, false))
  }

  /** An extraction after its rename or exchange step. */
  predicate JobDone(s: State, j: Job) {
    match j
    case CreateJob(o, id, name, lock, base) =>
      o in s.disk.receipts && o in s.history && s.history[o].committed && !Terminal(s.disk.receipts[o]) && !s.disk.receipts[o].recovered &&
      s.disk.receipts[o].CreateReceipt? && id in s.disk.ws
    case ResetJob(o, held, cur) =>
      CurOk(s, held, JobMeta(j)) && ResetNoted(s, o, cur, History(true, false, false))
  }

  predicate TreeIs(s: State, u: string, t: Tree) {
    Attempt(u) in s.disk.staging && s.disk.staging[Attempt(u)] == t
  }

  predicate NothingSweepable(d: Disk) {
    forall n :: n in d.staging ==> !Sweepable(n)
  }

  predicate AllFinal(d: Disk) {
    forall o :: o in d.receipts ==> Terminal(d.receipts[o])
  }

  /** The staging tree of an extraction at each stage before its commit. */
  function StageTree(g: Stage, j: Job): Tree {
    match g
    case Attempted => Tree(Absent, NoRoot)
    case Rooted => Tree(Absent, Extracting)
    case Tearing => Tree(Torn, Extracted)
    case Sealed => Tree(Written(JobMeta(j)), Extracted)
    case _ => Tree(Absent, Extracted)
  }

  predicate WorkOk(s: State, op: Op, g: Stage, j: Job, u: string) {
    OpFits(op, j) &&
    if BeforeCommit(g) then JobOk(s, j) && (g.Ready? || TreeIs(s, u, StageTree(g, j)))
    else JobDone(s, j) && (g.Published? || j.ResetJob?)
  }

  predicate UnfinishedUncommitted(s: State, o: string) {
    o in s.disk.receipts && o in s.history && !Terminal(s.disk.receipts[o]) && !s.disk.receipts[o].recovered && !s.history[o].committed
  }

  predicate IdentityOk(s: State, op: Op, lock: string, base: string) {
    op.Create? && lock == op.target && IsDigest(lock) && IsDigest(base) && op.name in s.names &&
    SeedOf(s, lock) == Some(Seed(lock, base))
  }

  predicate NotedOk(s: State, op: Op, o: string, lock: string, base: string) {
    IdentityOk(s, op, lock, base) && o in s.history &&
    Untouched(s, o, CreateReceipt(op.name, lock, base, Started, false), History(false, s.history[o].taken, false)) &&
    (s.history[o].taken <==> CreateMatches(s.disk.ws, op.name, lock, base) != {})
  }

  predicate BaseUnused(ws: Directory, digest: string) {
    forall d :: d in ws ==> DependentLabel(ws[d], digest) == None
  }

  predicate SweepCovers(d: Disk, names: set<StagingName>) {
    forall n :: n in d.staging && Sweepable(n) ==> n in names
  }

  predicate OnlySweepable(names: set<StagingName>) {
    forall n :: n in names ==> Sweepable(n)
  }

  predicate TakesWorkspace(op: Op) { op.Run? || op.Build? || op.Reset? || op.Remove? }

  predicate UnfinishedWithin(d: Disk, ops: set<string>) {
    forall o :: o in d.receipts && !Terminal(d.receipts[o]) ==> o in ops
  }

  predicate LocalOk(s: State, q: Proc) {
    match q.pc
    case Begin => q.op.Create? ==> q.op.name in s.names
    case Locked => (q.op.Create? ==> q.op.name in s.names) && !q.op.Run? && !q.op.Build?
    case Opened(id) => id in s.used && TakesWorkspace(q.op)
    case Entered(id) => id in s.used && TakesWorkspace(q.op)
    case Current(use, id, cur) => TakesWorkspace(q.op) && CurOk(s, id, cur) && (use.Bound? ==> q.op.Reset?) && (use.Ran? || use.Advancing? ==> q.op.Run?)
    case Identified(lock, base) => IdentityOk(s, q.op, lock, base)
    case Noted(o, lock, base) => NotedOk(s, q.op, o, lock, base)
    case Working(stage, j, u) => WorkOk(s, q.op, stage, j, u)
    case Erasing(id, n) => q.op.Remove? && Sweepable(n)
    case Failing(o, held) =>
      UnfinishedUncommitted(s, o) && (q.op.Reset? || q.op.Create?) && (held.Some? ==> q.op.Reset?) &&
      (s.disk.receipts[o].ResetReceipt? ==> held == Some(s.disk.receipts[o].id) && held.value in s.disk.ws && !s.history[o].disturbed)
    case Planned => q.op.RemoveBase?
    case Cleared => q.op.RemoveBase? && BaseUnused(s.disk.ws, q.op.digest)
    case Sweeping(names) => q.op.Recover? && SweepCovers(s.disk, names) && OnlySweepable(names)
    case Reconciling(ops) => q.op.Recover? && NothingSweepable(s.disk) && UnfinishedWithin(s.disk, ops) && ops <= s.disk.receipts.Keys
    case Recovered => q.op.Recover? && NothingSweepable(s.disk) && AllFinal(s.disk)
    case LeavingWs(_) => true
    case LeavingLife => true
  }

  /** A reset's extraction runs inside a reset, a create's inside a create. */
  predicate OpFits(op: Op, j: Job) {
    if j.CreateJob? then op.Create? else op.Reset?
  }

  ghost predicate LocalsOk(s: State) {
    forall p :: p in s.procs ==> LocalOk(s, s.procs[p])
  }

  ghost predicate Inv(s: State) {
    LocksOk(s) && WorkspacesOk(s) && NamesUnique(s.disk.ws) && PoolsOk(s) && TargetsOk(s.disk.targets) && HistoryOk(s) && LocalsOk(s)
  }

  // ----- Opening in a state that satisfies the invariant -----

  /** Opening a known id finds exactly that workspace, and nothing once it is gone. */
  lemma OpenById(s: State, id: string)
    requires WorkspacesOk(s) && PoolsOk(s) && id in s.used
    ensures Open(s.disk.ws, id) ==
      if id in s.disk.ws then Found(s.disk.ws[id].metaFile.meta) else NotFound
  {
    if id !in s.disk.ws {
      assert Unloadable(s.disk.ws) == {};
      forall d | d in s.disk.ws ensures !LoadsWithName(d, s.disk.ws[d], id) {
        assert WorkspaceOk(s, d);
      }
      assert IdsNamed(s.disk.ws, id) == {};
    } else {
      assert WorkspaceOk(s, id);
    }
  }

  /** Whatever a selector opens is a published workspace, stored under its own id; only `.` and `..` are refused. */
  lemma OpenFinds(s: State, selector: string)
    requires WorkspacesOk(s) && NamesUnique(s.disk.ws)
    ensures !Open(s.disk.ws, selector).Ambiguous? && (Open(s.disk.ws, selector).Corrupt? <==> IsDotted(selector))
    ensures Open(s.disk.ws, selector).Found? ==>
      var m := Open(s.disk.ws, selector).meta;
      m.id in s.disk.ws && s.disk.ws[m.id].metaFile == Written(m) && m.id in s.used
  {
    var ws := s.disk.ws;
    if IsDotted(selector) {
      assert selector[0] in selector;
      return;
    }
    forall d | d in ws ensures Complete(d, ws[d]) { assert WorkspaceOk(s, d); }
    assert Unloadable(ws) == {};
    if selector !in ws {
      var ids := IdsNamed(ws, selector);
      if ids != {} {
        var d :| d in ids;
        forall e | e in ids ensures e == d {
          assert NameOf(ws[e]) == NameOf(ws[d]);
        }
        assert ids == {d};
        assert |ids| == 1 && WorkspaceOk(s, d);
      }
    } else {
      assert WorkspaceOk(s, selector);
    }
  }

  // ----- Frame: what one process may change under another's feet -----

  predicate SameIdentity(t: Tree, u: Tree) {
    t.metaFile.Written? && u.metaFile.Written? && t.root == u.root &&
    u.metaFile.meta == t.metaFile.meta.(generation := u.metaFile.meta.generation)
  }

  /** Without the lifecycle lock, a step only rewrites generations and adds bases. */
  ghost predicate QuietStep(s: State, t: State, p: nat) {
    t.disk.ws.Keys == s.disk.ws.Keys &&
    (forall id :: id in s.disk.ws ==> t.disk.ws[id] == s.disk.ws[id] || SameIdentity(s.disk.ws[id], t.disk.ws[id])) &&
    t.disk.staging == s.disk.staging && t.disk.receipts == s.disk.receipts &&
    (forall d :: d in s.disk.targets ==> d in t.disk.targets && (s.disk.targets[d].seed.Some? ==> t.disk.targets[d] == s.disk.targets[d])) &&
    t.commits.Keys == s.commits.Keys &&
    t.history.Keys == s.history.Keys &&
    (forall o :: o in s.history && o in s.disk.receipts && t.history[o] != s.history[o] ==>
      s.disk.receipts[o].ResetReceipt? && Holds(s, s.disk.receipts[o].id, p) && t.history[o] == s.history[o].(disturbed := true))
  }

  ghost predicate Frame(s: State, t: State, p: nat) {
    (forall q :: q != p ==> (q in s.procs <==> q in t.procs)) &&
    (forall q :: q != p && q in s.procs ==> t.procs[q] == s.procs[q]) &&
    s.used <= t.used && s.names <= t.names &&
    (forall id :: id in s.disk.ws && !Holds(s, id, p) ==> id in t.disk.ws && t.disk.ws[id] == s.disk.ws[id]) &&
    (s.lifecycle == Some(p) || QuietStep(s, t, p))
  }

  lemma QuietMatches(s: State, t: State, p: nat, name: string, lock: string, base: string)
    requires WorkspacesOk(s) && WorkspacesOk(t) && QuietStep(s, t, p)
    ensures CreateMatches(t.disk.ws, name, lock, base) == CreateMatches(s.disk.ws, name, lock, base)
  {
    forall id | id in s.disk.ws
      ensures IsCreateMatch(id, s.disk.ws[id], name, lock, base) == IsCreateMatch(id, t.disk.ws[id], name, lock, base)
    {
      assert WorkspaceOk(s, id) && WorkspaceOk(t, id);
    }
  }

  lemma CurPersists(s: State, t: State, p: nat, q: nat, id: string, cur: Meta)
    requires Frame(s, t, p) && q != p && Holds(s, id, q) && CurOk(s, id, cur)
    ensures CurOk(t, id, cur)
  {
    assert !Holds(s, id, p);
  }

  lemma JobPersists(s: State, t: State, p: nat, q: nat, j: Job)
    requires Frame(s, t, p) && QuietStep(s, t, p) && q != p && (j.ResetJob? ==> Holds(s, j.held, q))
    ensures JobOk(s, j) ==> JobOk(t, j)
    ensures JobDone(s, j) ==> JobDone(t, j)
  {
    if j.ResetJob? {
      assert !Holds(s, j.held, p);
    } else if JobOk(s, j) {
      assert NameFree(t.disk.ws, j.name);
    }
  }

  /** Another process's step never invalidates what `q` relies on. */
  lemma LocalPersists(s: State, t: State, p: nat, q: nat)
    requires LocksOk(s) && WorkspacesOk(s) && WorkspacesOk(t) && Frame(s, t, p)
    requires q != p && q in s.procs && LocalOk(s, s.procs[q])
    ensures LocalOk(t, t.procs[q])
  {
    var pc := s.procs[q].pc;
    assert t.procs[q] == s.procs[q];
    if HeldLock(pc).Some? {
      assert Holds(s, HeldLock(pc).value, q);
    }
    if HoldsLifecycle(s.procs[q]) {
      LifecyclePersists(s, t, p, q);
    } else {
      match pc
      case Current(_, id, cur) => CurPersists(s, t, p, q, id, cur);
      case _ =>
    }
  }

  lemma LifecyclePersists(s: State, t: State, p: nat, q: nat)
    requires WorkspacesOk(s) && WorkspacesOk(t) && Frame(s, t, p) && QuietStep(s, t, p)
    requires q != p && q in s.procs && t.procs[q] == s.procs[q] && LocalOk(s, s.procs[q])
    requires HeldLock(s.procs[q].pc).Some? ==> Holds(s, HeldLock(s.procs[q].pc).value, q)
    requires HoldsLifecycle(s.procs[q])
    ensures LocalOk(t, t.procs[q])
  {
    hide JobOk, JobDone, CreateMatches, IsDigest, WorkspacesOk, WorkspaceOk, IsWorkspaceName;
    var pc := s.procs[q].pc;
    match pc
    case Current(_, id, cur) => CurPersists(s, t, p, q, id, cur);
    case Noted(o, lock, base) => QuietMatches(s, t, p, s.procs[q].op.name, lock, base);
    case Working(_, j, _) => JobPersists(s, t, p, q, j);
    case _ =>
  }

  lemma LocalsPersist(s: State, t: State, p: nat)
    requires LocksOk(s) && WorkspacesOk(s) && WorkspacesOk(t) && Frame(s, t, p) && LocalsOk(s)
    requires p in t.procs ==> LocalOk(t, t.procs[p])
    ensures LocalsOk(t)
  {
    hide LocksOk, WorkspacesOk, LocalOk;
    forall q | q in t.procs ensures LocalOk(t, t.procs[q]) {
      if q != p { LocalPersists(s, t, p, q); }
    }
  }

  lemma WorkspacesStay(s: State, t: State)
    requires WorkspacesOk(s) && t.disk.ws == s.disk.ws && t.commits == s.commits
    requires s.used <= t.used && s.names <= t.names && t.disk.targets == s.disk.targets
    ensures WorkspacesOk(t)
  {
    forall id | id in t.disk.ws ensures WorkspaceOk(t, id) { assert WorkspaceOk(s, id); }
  }

  lemma ReceiptsStay(s: State, t: State, o: string)
    requires HistoryOk(s) && t.disk.ws == s.disk.ws
    requires forall i :: i != o && i in t.disk.receipts && i in t.history ==>
      i in s.disk.receipts && i in s.history && t.disk.receipts[i] == s.disk.receipts[i] && t.history[i] == s.history[i]
    requires o in t.disk.receipts && o in t.history ==> ReceiptOk(t.disk.ws, t.disk.receipts[o], t.history[o])
    ensures HistoryOk(t)
  {
    hide ReceiptOk;
  }

  // ----- Reading one fact off the invariant -----

  lemma LocalOf(s: State, p: nat)
    requires Inv(s) && p in s.procs
    ensures LocalOk(s, s.procs[p])
    ensures HoldsLifecycle(s.procs[p]) ==> s.lifecycle == Some(p)
    ensures HeldLock(s.procs[p].pc).Some? ==> Holds(s, HeldLock(s.procs[p].pc).value, p)
  {
    hide LocalOk, HoldsLifecycle, HeldLock;
  }

  lemma WorkspaceOf(s: State, id: string)
    requires Inv(s) && id in s.disk.ws
    ensures WorkspaceOk(s, id)
  {
    hide WorkspaceOk;
  }

  lemma ReceiptOf(s: State, o: string)
    requires Inv(s) && o in s.disk.receipts
    ensures o in s.history && ReceiptOk(s.disk.ws, s.disk.receipts[o], s.history[o])
    ensures s.disk.receipts[o].ResetReceipt? ==> s.disk.receipts[o].id in s.commits && s.disk.receipts[o].id in s.used
  {
    hide ReceiptOk;
  }

  lemma PartsOf(s: State)
    requires Inv(s)
    ensures LocksOk(s) && WorkspacesOk(s) && NamesUnique(s.disk.ws) && PoolsOk(s) && TargetsOk(s.disk.targets) && HistoryOk(s)
  {
    hide LocksOk, WorkspacesOk, NamesUnique, PoolsOk, TargetsOk, HistoryOk;
  }

  /** Put the invariant together after a step that may have changed anything it owns. */
  lemma Assemble(s: State, t: State, p: nat)
    requires Inv(s) && Frame(s, t, p)
    requires LocksOk(t) && WorkspacesOk(t) && NamesUnique(t.disk.ws) && PoolsOk(t) && TargetsOk(t.disk.targets) && HistoryOk(t)
    requires p in t.procs ==> LocalOk(t, t.procs[p])
    ensures Inv(t)
  {
    hide LocksOk, WorkspacesOk, NamesUnique, PoolsOk, TargetsOk, HistoryOk, LocalOk, LocalsOk, Frame;
    LocalsPersist(s, t, p);
  }

  /** A step that leaves disk and history alone keeps everything but locks and counters. */
  lemma ControlStep(s: State, t: State, p: nat)
    requires Inv(s) && LocksOk(t)
    requires t.disk == s.disk && t.history == s.history && t.commits == s.commits
    requires s.used <= t.used && s.names <= t.names && t.used !! t.names && forall u :: u in t.used ==> IsId(u)
    requires forall q :: q != p ==> (q in s.procs <==> q in t.procs)
    requires forall q :: q != p && q in s.procs ==> t.procs[q] == s.procs[q]
    requires p in t.procs ==> LocalOk(t, t.procs[p])
    ensures Inv(t)
  {
    hide LocksOk, WorkspacesOk, NamesUnique, LocalOk, LocalsOk, TargetsOk, ReceiptsOk;
    WorkspacesStay(s, t);
    Assemble(s, t, p);
  }
}
