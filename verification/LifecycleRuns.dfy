/** Concrete runs: a create that succeeds, and a killed create that recovery misreports. */
module LifecycleRuns {
  import opened Common
  import opened Workspace
  import opened Lifecycle
  import opened LifecycleInvariant
  import opened LifecycleSteps
  import opened LifecycleTheorems
  import opened LifecycleRecovery

  ghost predicate Reachable(s: State) {
    exists run :: After(Empty(), run) == Some(s)
  }

  lemma Extend(s: State, p: nat, e: Event, t: State)
    requires Reachable(s) && Next(s, p, e) == Some(t)
    ensures Reachable(t)
  {
    hide Next;
    var run :| After(Empty(), run) == Some(s);
    var longer := run + [Act(p, e)];
    assert longer[..|longer| - 1] == run;
    assert After(Empty(), longer) == Some(t);
  }

  /** The other receipts are as they were, and so is what is recorded of their commits. */
  ghost predicate KeepsOthers(s: State, t: State, o: string) {
    (forall i :: i in s.disk.receipts && i != o ==> i in t.disk.receipts && t.disk.receipts[i] == s.disk.receipts[i]) &&
    forall i :: i in s.history && i != o ==> i in t.history && t.history[i].committed == s.history[i].committed
  }

  /** What a create needs to find: a seeded base, a free valid name and fresh ids. */
  ghost predicate CanCreate(s: State, p: nat, d: string, base: string, name: string, o: string, id: string, u: string) {
    p !in s.procs && s.lifecycle == None && name !in s.used && IsWorkspaceName(name) &&
    IsDigest(d) && IsDigest(base) && SeedOf(s, d) == Some(Seed(d, base)) &&
    Unused(s, o) && Unused(s, id) && Unused(s, u) && o != id && o != u && id != u && name !in {o, id, u} &&
    IdAndNameFree(s.disk.ws, id, name) && (forall w :: w in s.disk.ws ==> s.disk.ws[w].metaFile != Torn) && Attempt(u) !in s.disk.staging
  }

  /** An operation appears and takes the free lifecycle lock. */
  lemma EnterLifecycle(s: State, p: nat, op: Op) returns (t: State)
    requires Reachable(s) && p !in s.procs && s.lifecycle == None
    requires (op.Create? && op.name !in s.used) || op.Recover? || op.Reset? || op.Remove?
    ensures Reachable(t) && t.disk == s.disk && t.history == s.history && t.commits == s.commits && t.wlocks == s.wlocks && t.used == s.used
    ensures t.lifecycle == Some(p) && t.procs == s.procs[p := Proc(op, Locked)]
    ensures t.names == if op.Create? then s.names + {op.name} else s.names
  {
    hide Reachable;
    var s1 := DoSpawn(s, p, op).value;
    Extend(s, p, Spawn(op), s1);
    t := Goto(s1.(lifecycle := Some(p)), p, Locked);
    Extend(s1, p, TakeLifecycle, t);
  }

  /** The first steps of a create: locks, identity, receipt. */
  lemma CreateStarts(s: State, p: nat, d: string, base: string, name: string, o: string) returns (t: State)
    requires Reachable(s) && p !in s.procs && s.lifecycle == None && name !in s.used
    requires IsDigest(d) && IsDigest(base) && SeedOf(s, d) == Some(Seed(d, base)) && Unused(s, o) && name != o
    ensures Reachable(t)
    ensures t == s.(
      disk := s.disk.(receipts := s.disk.receipts[o := CreateReceipt(name, d, base, Started, false)]),
      history := s.history[o := History(false, CreateMatches(s.disk.ws, name, d, base) != {}, false)],
      procs := s.procs[p := Proc(Create(d, name), Noted(o, d, base))],
      lifecycle := Some(p), used := s.used + {o}, names := s.names + {name})
  {
    hide IsDigest, IsBlank, CreateMatches, Reachable, SeedOf;
    var s2 := EnterLifecycle(s, p, Create(d, name));
    SeedKept(s, s2, d);
    var s3 := Goto(s2, p, Identified(d, base));
    Extend(s2, p, Identify, s3);
    t := DoNoteCreate(s3, p, o).value;
    Extend(s3, p, NoteCreate(o), t);
  }

  lemma SeedKept(s: State, t: State, d: string)
    requires t.disk.targets == s.disk.targets
    ensures SeedOf(t, d) == SeedOf(s, d)
  {
  }

  /** One extraction step of a create moves its tree to the next shape. */
  lemma StageStep(s: State, p: nat, j: Job, u: string, e: Event, from: Stage, to: Stage) returns (t: State)
    requires Reachable(s) && p in s.procs && s.procs[p].pc == Working(from, j, u) && j.CreateJob?
    requires TreeIs(s, u, StageTree(from, j))
    requires (e == MakeRoot && from == Attempted && to == Rooted) || (e == Extract && from == Rooted && to == Filled)
          || (e == CreateMeta && from == Filled && to == Tearing) || (e == WriteMeta && from == Tearing && to == Sealed)
    ensures Reachable(t) && t == Goto(SetTree(s, Attempt(u), StageTree(to, j)), p, Working(to, j, u))
  {
    hide Reachable;
    t := Goto(SetTree(s, Attempt(u), StageTree(to, j)), p, Working(to, j, u));
    Extend(s, p, e, t);
  }

  /** The rename that publishes a create. */
  lemma PublishStep(g: State, p: nat, j: Job, u: string) returns (t: State)
    requires Reachable(g) && p in g.procs && j.CreateJob? && g.procs[p].pc == Working(Sealed, j, u)
    requires TreeIs(g, u, Tree(Written(JobMeta(j)), Extracted)) && j.id !in g.disk.ws && j.op in g.history
    ensures Reachable(t) && t.lifecycle == g.lifecycle && t.wlocks == g.wlocks && t.used == g.used && t.names == g.names
    ensures t.procs == g.procs[p := Proc(g.procs[p].op, Working(Published, j, u))]
    ensures t.disk == g.disk.(ws := g.disk.ws[j.id := Tree(Written(JobMeta(j)), Extracted)], staging := g.disk.staging - {Attempt(u)})
    ensures j.op in t.history && t.history[j.op].committed && KeepsOthers(g, t, j.op)
  {
    hide Reachable, Disturb, JobMeta;
    t := DoPublish(g, p).value;
    DisturbKeys(g, Some(j.op), Some(j.name), None);
    Extend(g, p, Publish, t);
  }

  /** The receipt and the lock release that follow it. */
  lemma FinishStep(h: State, p: nat, j: Job) returns (t: State)
    requires Reachable(h) && p in h.procs && j.CreateJob? && At(h.procs[p].pc, Published) && h.procs[p].pc.job == j
    requires j.op in h.disk.receipts && j.id in h.disk.ws && Complete(j.id, h.disk.ws[j.id])
    ensures Reachable(t) && t.lifecycle == None && t.wlocks == h.wlocks && t.procs == h.procs - {p} && t.used == h.used && t.names == h.names
    ensures t.disk.ws == h.disk.ws && t.disk.staging == h.disk.staging && t.disk.targets == h.disk.targets && t.history == h.history
    ensures j.op in t.disk.receipts && t.disk.receipts[j.op].phase == Completed && KeepsOthers(h, t, j.op)
  {
    hide IsDigest, Reachable;
    var i := Goto(SetPhase(h, j.op, Completed), p, LeavingLife);
    Extend(h, p, NoteCompleted, i);
    t := Gone(i.(lifecycle := None), p);
    Extend(i, p, DropLifecycle, t);
    assert t.procs == h.procs - {p};
  }

  lemma DisturbKeys(s: State, self: Option<string>, name: Option<string>, id: Option<string>)
    ensures Disturb(s, self, name, id).Keys == s.history.Keys
    ensures forall i :: i in s.history ==> Disturb(s, self, name, id)[i].committed == s.history[i].committed
  {
  }

  /** The fresh id and the publication check. */
  lemma CheckStep(a: State, p: nat, j: Job) returns (b: State)
    requires Reachable(a) && p in a.procs && j.CreateJob? && a.procs[p] == Proc(Create(j.lock, j.name), Noted(j.op, j.lock, j.base))
    requires SeedOf(a, j.lock) == Some(Seed(j.lock, j.base)) && j.lock != "" && j.base != "" && IsWorkspaceName(j.name)
    requires Unused(a, j.id) && IdAndNameFree(a.disk.ws, j.id, j.name) && forall w :: w in a.disk.ws ==> a.disk.ws[w].metaFile != Torn
    ensures Reachable(b) && b == Goto(Claim(a, j.id), p, Working(Ready, j, ""))
  {
    hide IsBlank, IsWorkspaceName, Reachable, SeedOf, IdAndNameFree;
    b := Goto(Claim(a, j.id), p, Working(Ready, j, ""));
    Extend(a, p, CheckNew(j.id), b);
  }

  lemma AttemptStep(b: State, p: nat, j: Job, u: string) returns (c: State)
    requires Reachable(b) && p in b.procs && b.procs[p].pc == Working(Ready, j, "") && Unused(b, u)
    ensures Reachable(c) && c == Goto(SetTree(Claim(b, u), Attempt(u), StageTree(Attempted, j)), p, Working(Attempted, j, u))
  {
    hide IsBlank, Reachable;
    c := Goto(SetTree(Claim(b, u), Attempt(u), StageTree(Attempted, j)), p, Working(Attempted, j, u));
    Extend(b, p, MakeAttempt(u), c);
  }

  /** Two updates of one tree and one program counter amount to the second. */
  lemma SetTwice(c: State, p: nat, u: string, x: Tree, y: Tree, pc: PC, pd: PC)
    requires p in c.procs
    ensures Goto(SetTree(Goto(SetTree(c, Attempt(u), x), p, pc), Attempt(u), y), p, pd) == c.(
      disk := c.disk.(staging := c.disk.staging[Attempt(u) := y]), procs := c.procs[p := Proc(c.procs[p].op, pd)])
  {
    assert c.disk.staging[Attempt(u) := x][Attempt(u) := y] == c.disk.staging[Attempt(u) := y];
    assert c.procs[p := Proc(c.procs[p].op, pc)][p := Proc(c.procs[p].op, pd)] == c.procs[p := Proc(c.procs[p].op, pd)];
  }

  /** Root directory, then extraction. */
  lemma Unpack(c: State, p: nat, j: Job, u: string) returns (t: State)
    requires Reachable(c) && p in c.procs && c.procs[p].pc == Working(Attempted, j, u) && j.CreateJob? && TreeIs(c, u, StageTree(Attempted, j))
    ensures Reachable(t) && t == c.(
      disk := c.disk.(staging := c.disk.staging[Attempt(u) := StageTree(Filled, j)]),
      procs := c.procs[p := Proc(c.procs[p].op, Working(Filled, j, u))])
  {
    hide Reachable, StageTree;
    var d := StageStep(c, p, j, u, MakeRoot, Attempted, Rooted);
    t := StageStep(d, p, j, u, Extract, Rooted, Filled);
    SetTwice(c, p, u, StageTree(Rooted, j), StageTree(Filled, j), Working(Rooted, j, u), Working(Filled, j, u));
  }

  /** Metadata file, then its content. */
  lemma Seal(c: State, p: nat, j: Job, u: string) returns (t: State)
    requires Reachable(c) && p in c.procs && c.procs[p].pc == Working(Filled, j, u) && j.CreateJob? && TreeIs(c, u, StageTree(Filled, j))
    ensures Reachable(t) && t == c.(
      disk := c.disk.(staging := c.disk.staging[Attempt(u) := StageTree(Sealed, j)]),
      procs := c.procs[p := Proc(c.procs[p].op, Working(Sealed, j, u))])
  {
    hide Reachable, StageTree;
    var d := StageStep(c, p, j, u, CreateMeta, Filled, Tearing);
    t := StageStep(d, p, j, u, WriteMeta, Tearing, Sealed);
    SetTwice(c, p, u, StageTree(Tearing, j), StageTree(Sealed, j), Working(Tearing, j, u), Working(Sealed, j, u));
  }

  lemma NotedToAttempt(a: State, p: nat, j: Job, u: string) returns (c: State)
    requires Reachable(a) && p in a.procs && j.CreateJob? && a.procs[p] == Proc(Create(j.lock, j.name), Noted(j.op, j.lock, j.base))
    requires SeedOf(a, j.lock) == Some(Seed(j.lock, j.base)) && j.lock != "" && j.base != "" && IsWorkspaceName(j.name)
    requires Unused(a, j.id) && Unused(a, u) && j.id != u
    requires IdAndNameFree(a.disk.ws, j.id, j.name) && forall w :: w in a.disk.ws ==> a.disk.ws[w].metaFile != Torn
    ensures Reachable(c) && c.procs == a.procs[p := Proc(a.procs[p].op, Working(Attempted, j, u))]
    ensures c.disk == a.disk.(staging := a.disk.staging[Attempt(u) := StageTree(Attempted, j)])
    ensures c.history == a.history && c.lifecycle == a.lifecycle && c.wlocks == a.wlocks && c.used == a.used + {j.id, u} && c.names == a.names
  {
    hide Reachable, StageTree, IsBlank, IsWorkspaceName, SeedOf, IdAndNameFree;
    var b := CheckStep(a, p, j);
    c := AttemptStep(b, p, j, u);
  }

  /** From the receipt to a sealed staging tree. */
  lemma CreateSeals(a: State, p: nat, j: Job, u: string) returns (g: State)
    requires Reachable(a) && p in a.procs && j.CreateJob? && a.procs[p] == Proc(Create(j.lock, j.name), Noted(j.op, j.lock, j.base))
    requires SeedOf(a, j.lock) == Some(Seed(j.lock, j.base)) && j.lock != "" && j.base != "" && IsWorkspaceName(j.name)
    requires Unused(a, j.id) && Unused(a, u) && j.id != u
    requires IdAndNameFree(a.disk.ws, j.id, j.name) && forall w :: w in a.disk.ws ==> a.disk.ws[w].metaFile != Torn
    ensures Reachable(g) && g.procs == a.procs[p := Proc(a.procs[p].op, Working(Sealed, j, u))]
    ensures g.disk == a.disk.(staging := a.disk.staging[Attempt(u) := StageTree(Sealed, j)])
    ensures g.history == a.history && g.lifecycle == a.lifecycle && g.wlocks == a.wlocks && g.used == a.used + {j.id, u} && g.names == a.names
  {
    hide Reachable, StageTree, IsBlank, IsWorkspaceName, SeedOf, IdAndNameFree, Unused;
    var c := NotedToAttempt(a, p, j, u);
    var f := Unpack(c, p, j, u);
    g := Seal(f, p, j, u);
    assert g.disk.staging == a.disk.staging[Attempt(u) := StageTree(Sealed, j)];
    assert g.procs == a.procs[p := Proc(a.procs[p].op, Working(Sealed, j, u))];
  }

  /** A create that nothing interrupts publishes the workspace it was asked for and reports success. */
  lemma UninterruptedCreate(s: State, p: nat, d: string, base: string, name: string, o: string, id: string, u: string) returns (t: State)
    requires Reachable(s) && CanCreate(s, p, d, base, name, o, id, u)
    ensures Reachable(t) && t.lifecycle == None && t.wlocks == s.wlocks && t.procs == s.procs
    ensures t.disk.ws == s.disk.ws[id := Tree(Written(Meta(id, name, d, base, 0)), Extracted)]
    ensures t.disk.staging == s.disk.staging && t.disk.targets == s.disk.targets && t.used == s.used + {o, id, u} && t.names == s.names + {name}
    ensures o in t.disk.receipts && t.disk.receipts[o].phase == Completed && o in t.history && t.history[o].committed
    ensures KeepsOthers(s, t, o)
  {
    hide IsDigest, IsBlank, IsWorkspaceName, CreateMatches, Reachable, IdAndNameFree, Complete, StageTree, JobMeta, SeedOf;
    var j := CreateJob(o, id, name, d, base);
    JobFacts(s, p, d, base, name, o, id, u);
    var a := CreateStarts(s, p, d, base, name, o);
    SeedKept(s, a, d);
    var g := CreateSeals(a, p, j, u);
    t := CreateEnds(g, p, j, u);
    assert t.disk.staging == s.disk.staging;
    assert t.procs == s.procs;
  }

  /** From a sealed staging tree to the end of the operation. */
  lemma CreateEnds(g: State, p: nat, j: Job, u: string) returns (t: State)
    requires Reachable(g) && p in g.procs && j.CreateJob? && g.procs[p].pc == Working(Sealed, j, u)
    requires TreeIs(g, u, StageTree(Sealed, j)) && j.id !in g.disk.ws && j.op in g.history && j.op in g.disk.receipts
    requires Complete(j.id, StageTree(Sealed, j))
    ensures Reachable(t) && t.lifecycle == None && t.wlocks == g.wlocks && t.procs == g.procs - {p} && t.used == g.used && t.names == g.names
    ensures t.disk.ws == g.disk.ws[j.id := StageTree(Sealed, j)] && t.disk.staging == g.disk.staging - {Attempt(u)}
    ensures t.disk.targets == g.disk.targets
    ensures j.op in t.disk.receipts && t.disk.receipts[j.op].phase == Completed && j.op in t.history && t.history[j.op].committed
    ensures KeepsOthers(g, t, j.op)
  {
    hide Reachable, Complete, JobMeta;
    var h := PublishStep(g, p, j, u);
    t := FinishStep(h, p, j);
    assert t.procs == g.procs - {p};
  }

  lemma JobFacts(s: State, p: nat, d: string, base: string, name: string, o: string, id: string, u: string)
    requires CanCreate(s, p, d, base, name, o, id, u)
    ensures var j := CreateJob(o, id, name, d, base);
      JobMeta(j) == Meta(id, name, d, base, 0) && d != "" && base != "" && id !in s.disk.ws && Attempt(u) !in s.disk.staging &&
      StageTree(Sealed, j) == Tree(Written(JobMeta(j)), Extracted) && Complete(id, Tree(Written(JobMeta(j)), Extracted))
  {
    assert !IsBlank(id) && !IsBlank(name);
  }

  // ----- Creates that recovery reports wrongly -----

  lemma KillStep(a: State, p: nat) returns (b: State)
    requires Reachable(a) && p in a.procs && a.lifecycle == Some(p)
    ensures Reachable(b) && b.disk == a.disk && b.history == a.history && b.lifecycle == None && b.procs == a.procs - {p}
    ensures b.used == a.used && b.names == a.names && forall id :: id in b.wlocks ==> id in a.wlocks && a.wlocks[id] != p
  {
    hide Reachable;
    b := DoKill(a, p).value;
    Extend(a, p, Kill, b);
  }

  /** A create killed after its workspace was published. */
  lemma KilledAfterPublishing(s: State, p: nat, d: string, base: string, name: string, o: string, id: string, u: string)
    returns (t: State)
    requires Reachable(s) && CanCreate(s, p, d, base, name, o, id, u)
    ensures Reachable(t) && t.lifecycle == None && t.procs == s.procs
    ensures forall i :: i in t.wlocks ==> i in s.wlocks
    ensures t.disk == s.disk.(ws := s.disk.ws[id := Tree(Written(Meta(id, name, d, base, 0)), Extracted)],
      receipts := s.disk.receipts[o := CreateReceipt(name, d, base, Started, false)])
    ensures t.used == s.used + {o, id, u} && t.names == s.names + {name} && o in t.history && t.history[o].committed
  {
    hide IsDigest, IsBlank, IsWorkspaceName, CreateMatches, Reachable, IdAndNameFree, Complete, StageTree, JobMeta, SeedOf;
    var j := CreateJob(o, id, name, d, base);
    JobFacts(s, p, d, base, name, o, id, u);
    var a := CreateStarts(s, p, d, base, name, o);
    SeedKept(s, a, d);
    var g := CreateSeals(a, p, j, u);
    var h := PublishStep(g, p, j, u);
    t := KillStep(h, p);
    assert t.disk.staging == s.disk.staging;
    assert t.procs == s.procs;
  }

  /** A recovery that starts on a disk without staging leftovers and reaches its receipts. */
  lemma RecoveryReaches(b: State, r: nat) returns (c: State)
    requires Reachable(b) && b.lifecycle == None && r !in b.procs && NothingSweepable(b.disk)
    ensures Reachable(c) && c.disk == b.disk && c.history == b.history
    ensures r in c.procs && c.procs[r] == Proc(Recover, Reconciling(b.disk.receipts.Keys))
  {
    hide Reachable;
    var b2 := EnterLifecycle(b, r, Recover);
    var b3 := SweepStep(b2, r);
    c := Goto(b3, r, Reconciling(b.disk.receipts.Keys));
    Extend(b3, r, ListReceipts, c);
  }

  lemma SweepStep(b: State, r: nat) returns (c: State)
    requires Reachable(b) && r in b.procs && b.procs[r] == Proc(Recover, Locked) && NothingSweepable(b.disk)
    ensures Reachable(c) && c == Goto(b, r, Sweeping({}))
  {
    hide Reachable;
    assert (set n | n in b.disk.staging && Sweepable(n)) == {};
    c := Goto(b, r, Sweeping({}));
    Extend(b, r, ListStaging, c);
  }

  /** Recovery writes "completed" where its verdict says so. */
  lemma CommitIsWritten(c: State, r: nat, o: string) returns (t: State)
    requires Reachable(c) && r in c.procs && c.procs[r].pc.Reconciling? && o in c.procs[r].pc.ops
    requires o in c.disk.receipts && !Terminal(c.disk.receipts[o]) && VerdictFor(c.disk.ws, c.disk.receipts[o]) == Commit
    ensures Reachable(t) && t.disk.ws == c.disk.ws && t.history == c.history && o in t.disk.receipts
    ensures t.disk.receipts[o] == c.disk.receipts[o].(phase := Completed, recovered := true)
  {
    hide Next, VerdictFor, Reachable;
    t := Goto(SetReceipt(c, o, c.disk.receipts[o].(phase := Completed, recovered := true)), r, Reconciling(c.procs[r].pc.ops - {o}));
    ReconcileStep(c, t, r, o);
    Extend(c, r, Reconcile(o), t);
  }

  /** Recovery writes "failed" where its verdict says so. */
  lemma AbortIsWritten(c: State, r: nat, o: string) returns (t: State)
    requires Reachable(c) && r in c.procs && c.procs[r].pc.Reconciling? && o in c.procs[r].pc.ops
    requires o in c.disk.receipts && !Terminal(c.disk.receipts[o]) && VerdictFor(c.disk.ws, c.disk.receipts[o]) == Abort
    ensures Reachable(t) && t.disk.ws == c.disk.ws && t.history == c.history && o in t.disk.receipts
    ensures t.disk.receipts[o] == c.disk.receipts[o].(phase := Failed, recovered := true)
  {
    hide Next, VerdictFor, Reachable;
    t := Goto(SetReceipt(c, o, c.disk.receipts[o].(phase := Failed, recovered := true)), r, Reconciling(c.procs[r].pc.ops - {o}));
    assert Next(c, r, Reconcile(o)) == OwnStep(c, r, Reconcile(o)) == DoReconcile(c, r, o) by { IsReconcile(c, r, o); }
    Extend(c, r, Reconcile(o), t);
  }

  lemma IsReconcile(c: State, r: nat, o: string)
    requires r in c.procs
    ensures Next(c, r, Reconcile(o)) == OwnStep(c, r, Reconcile(o)) == DoReconcile(c, r, o)
  {
    hide DoReconcile;
  }

  lemma ReconcileStep(c: State, t: State, r: nat, o: string)
    requires r in c.procs && c.procs[r].pc.Reconciling? && o in c.procs[r].pc.ops && o in c.disk.receipts && !Terminal(c.disk.receipts[o])
    requires VerdictFor(c.disk.ws, c.disk.receipts[o]) == Commit
    requires t == Goto(SetReceipt(c, o, c.disk.receipts[o].(phase := Completed, recovered := true)), r, Reconciling(c.procs[r].pc.ops - {o}))
    ensures Next(c, r, Reconcile(o)) == Some(t)
  {
    hide VerdictFor;
  }

  /** Recovery takes a create for committed as soon as somebody published its name on its base. */
  lemma CarriedIsCommit(c: State, o: string)
    requires Reachable(c) && o in c.disk.receipts && !Terminal(c.disk.receipts[o]) && c.disk.receipts[o].CreateReceipt?
    requires var r := c.disk.receipts[o]; r.name != "" && CreateMatches(c.disk.ws, r.name, r.lock, r.base) != {}
    ensures VerdictFor(c.disk.ws, c.disk.receipts[o]) == Commit
  {
    hide Inv, VerdictFor, CreateMatches, After;
    var run :| After(Empty(), run) == Some(c);
    RunKeeps(run, c);
    VerdictInFull(c, o);
  }

  lemma PublishedMatches(s: State, w: string, name: string, d: string, base: string)
    requires Reachable(s) && w in s.disk.ws && s.disk.ws[w].metaFile.Written?
    requires var m := s.disk.ws[w].metaFile.meta; m.name == name && m.lock == d && m.base == base
    ensures CreateMatches(s.disk.ws, name, d, base) != {} && name != ""
  {
    var run :| After(Empty(), run) == Some(s);
    WorkspacesAlwaysComplete(run, s, w);
    assert w in CreateMatches(s.disk.ws, name, d, base);
  }

  /**
   * Kill a second create of a taken name right after its receipt is written:
   * recovery marks it completed, although it published nothing.
   */
  lemma KilledCreateMisreported(s: State, d: string, base: string, name: string, o: string, w: string, p: nat, r: nat) returns (t: State)
    requires Reachable(s) && s.lifecycle == None && p !in s.procs && r !in s.procs && p != r && NothingSweepable(s.disk)
    requires IsDigest(d) && IsDigest(base) && SeedOf(s, d) == Some(Seed(d, base)) && name !in s.used && Unused(s, o) && name != o
    requires w in s.disk.ws && s.disk.ws[w].metaFile.Written?
    requires var m := s.disk.ws[w].metaFile.meta; m.name == name && m.lock == d && m.base == base
    ensures Reachable(t) && t.disk.ws == s.disk.ws
    ensures o in t.disk.receipts && t.disk.receipts[o] == CreateReceipt(name, d, base, Completed, true)
    ensures o in t.history && !t.history[o].committed
  {
    hide IsDigest, IsBlank, CreateMatches, Reachable, SeedOf, VerdictFor;
    PublishedMatches(s, w, name, d, base);
    var a := CreateStarts(s, p, d, base, name, o);
    var b := KillStep(a, p);
    var c := RecoveryReaches(b, r);
    CarriedIsCommit(c, o);
    t := CommitIsWritten(c, r, o);
  }

  /** A second create of one name, killed before it publishes and then tried again with success, is misreported too. */
  lemma RetriedCreateMisreported(s: State, p: nat, d: string, base: string, name: string, o: string, retry: string, id: string,
      u: string, r: nat) returns (t: State)
    requires Reachable(s) && CanCreate(s, p, d, base, name, retry, id, u) && Unused(s, o) && o !in {retry, id, u, name}
    requires NothingSweepable(s.disk) && r !in s.procs
    ensures Reachable(t) && o in t.disk.receipts && t.disk.receipts[o] == CreateReceipt(name, d, base, Completed, true)
    ensures o in t.history && !t.history[o].committed
  {
    hide IsDigest, IsBlank, IsWorkspaceName, CreateMatches, Reachable, SeedOf, VerdictFor, IdAndNameFree;
    var a := CreateStarts(s, p, d, base, name, o);
    var b := KillStep(a, p);
    SeedKept(s, b, d);
    var c := UninterruptedCreate(b, p, d, base, name, retry, id, u);
    PublishedMatches(c, id, name, d, base);
    var e := RecoveryReaches(c, r);
    CarriedIsCommit(e, o);
    t := CommitIsWritten(e, r, o);
  }

  lemma SeededStart(d: string) returns (s: State)
    ensures Reachable(s) && s == Empty().(disk := Disk(map[], map[], map[d := Target(Some(Seed(d, d)))], map[]))
  {
    assert After(Empty(), []) == Some(Empty());
    hide Reachable;
    var first := DoAddTarget(Empty(), d).value;
    Extend(Empty(), 0, AddTarget(d), first);
    s := DoBuildSeed(first, d, d).value;
    Extend(first, 0, BuildSeed(d, d), s);
    assert s.disk.targets == map[d := Target(Some(Seed(d, d)))];
  }

  lemma ShortName()
    ensures IsWorkspaceName("n")
  {
    assert 'n' in "n";
  }

  lemma CreatableFromStart(s: State, d: string, name: string)
    requires IsWorkspaceName(name) && name !in {"1", "2", "3"}
    requires IsDigest(d) && s == Empty().(disk := Disk(map[], map[], map[d := Target(Some(Seed(d, d)))], map[]))
    ensures CanCreate(s, 0, d, d, name, "1", "2", "3") && IsId("4") && IsId("5")
  {
    hide IsDigest, IsWorkspaceName;
    assert '1' in "1" && '2' in "2" && '3' in "3" && '4' in "4" && '5' in "5";
  }

  /** From an empty installation, both runs exist: the misreport is reachable. */
  lemma MisreportIsReachable() returns (t: State, o: string)
    ensures Reachable(t) && o in t.disk.receipts && t.disk.receipts[o].phase == Completed && o in t.history && !t.history[o].committed
  {
    hide Reachable, CanCreate, IsBlank, CreateMatches;
    var d := seq(64, i => 'a');
    assert IsDigest(d);
    hide IsDigest;
    var s := SeededStart(d);
    ShortName();
    CreatableFromStart(s, d, "n");
    var created := UninterruptedCreate(s, 0, d, d, "n", "1", "2", "3");
    o := "4";
    t := KilledCreateMisreported(created, d, d, "n", o, "2", 0, 1);
  }

  /** The misreport of a retried create is reachable as well. */
  lemma RetryMisreportIsReachable() returns (t: State, o: string)
    ensures Reachable(t) && o in t.disk.receipts && t.disk.receipts[o].phase == Completed && o in t.history && !t.history[o].committed
  {
    hide Reachable, CanCreate, IsBlank, CreateMatches;
    var d := seq(64, i => 'a');
    assert IsDigest(d);
    hide IsDigest;
    var s := SeededStart(d);
    ShortName();
    CreatableFromStart(s, d, "n");
    o := "4";
    t := RetriedCreateMisreported(s, 0, d, d, "n", o, "1", "2", "3", 1);
  }
}
