/** What each operation on an existing workspace or base achieves when nothing interrupts it. */
module LifecycleOutcomes {
  import opened Common
  import opened Workspace
  import opened Lifecycle
  import opened LifecycleInvariant
  import opened LifecycleSteps
  import opened LifecycleCommits
  import opened LifecycleTheorems
  import opened LifecycleRecovery
  import opened LifecycleRuns

  lemma ReachableOk(s: State)
    requires Reachable(s)
    ensures Inv(s)
  {
    hide Inv, After;
    var run :| After(Empty(), run) == Some(s);
    RunKeeps(run, s);
  }

  /** What an open finds is a complete workspace, and re-opening it by id finds it again. */
  lemma FoundIsThere(s: State, selector: string, m: Meta)
    requires Reachable(s) && Open(s.disk.ws, selector) == Found(m)
    ensures m.id in s.disk.ws && s.disk.ws[m.id] == Tree(Written(m), Extracted) && Open(s.disk.ws, m.id) == Found(m)
    ensures SeedOf(s, m.lock) == Some(Seed(m.lock, m.base)) && IsDigest(m.lock) && IsDigest(m.base)
  {
    hide Inv, Reachable, Open, IsDigest, IsBlank;
    ReachableOk(s);
    PartsOf(s);
    OpenFinds(s, selector);
    WorkspaceOf(s, m.id);
    OpenById(s, m.id);
  }

  lemma OpenIt(s: State, p: nat, m: Meta) returns (t: State)
    requires Reachable(s) && p in s.procs
    requires (s.procs[p].pc == Begin && s.procs[p].op.Run?) || (s.procs[p].pc == Locked && (s.procs[p].op.Reset? || s.procs[p].op.Remove?))
    requires Open(s.disk.ws, s.procs[p].op.selector) == Found(m)
    ensures Reachable(t) && t == Goto(s, p, Opened(m.id))
  {
    hide Reachable, Open;
    t := Goto(s, p, Opened(m.id));
    Extend(s, p, OpenStep, t);
  }

  lemma LockIt(s: State, p: nat, id: string) returns (t: State)
    requires Reachable(s) && p in s.procs && s.procs[p].pc == Opened(id) && id !in s.wlocks
    ensures Reachable(t) && t == Goto(s.(wlocks := s.wlocks[id := p]), p, Entered(id))
  {
    hide Reachable;
    t := Goto(s.(wlocks := s.wlocks[id := p]), p, Entered(id));
    Extend(s, p, TakeWorkspace, t);
  }

  lemma ReopenIt(s: State, p: nat, m: Meta) returns (t: State)
    requires Reachable(s) && p in s.procs && s.procs[p].pc == Entered(m.id) && Open(s.disk.ws, m.id) == Found(m)
    ensures Reachable(t) && t == Goto(s, p, Current(Fetched, m.id, m))
  {
    hide Reachable, Open;
    t := Goto(s, p, Current(Fetched, m.id, m));
    Extend(s, p, Reopen, t);
  }

  /** Opening, locking and re-opening a workspace nobody holds. */
  lemma EnterWorkspace(s: State, p: nat, m: Meta) returns (t: State)
    requires Reachable(s) && p in s.procs
    requires (s.procs[p].pc == Begin && s.procs[p].op.Run?) || (s.procs[p].pc == Locked && (s.procs[p].op.Reset? || s.procs[p].op.Remove?))
    requires Open(s.disk.ws, s.procs[p].op.selector) == Found(m) && m.id !in s.wlocks
    ensures Reachable(t) && t.disk == s.disk && t.history == s.history && t.commits == s.commits && t.used == s.used && t.names == s.names
    ensures t.lifecycle == s.lifecycle && t.wlocks == s.wlocks[m.id := p]
    ensures t.procs == s.procs[p := Proc(s.procs[p].op, Current(Fetched, m.id, m))]
  {
    hide Reachable, Open;
    FoundIsThere(s, s.procs[p].op.selector, m);
    var a := OpenIt(s, p, m);
    var b := LockIt(a, p, m.id);
    t := ReopenIt(b, p, m);
    assert t.procs == s.procs[p := Proc(s.procs[p].op, Current(Fetched, m.id, m))];
  }

  /** The end of an operation: its workspace lock, and its lifecycle lock if it has one. */
  lemma LeaveWorkspace(s: State, p: nat, id: string) returns (t: State)
    requires Reachable(s) && p in s.procs && s.procs[p].pc == LeavingWs(id) && id in s.wlocks
    requires s.procs[p].op.Reset? || s.procs[p].op.Remove? ==> s.lifecycle == Some(p)
    ensures Reachable(t) && t.disk == s.disk && t.history == s.history && t.wlocks == s.wlocks - {id} && t.procs == s.procs - {p}
    ensures t.lifecycle == if s.procs[p].op.Reset? || s.procs[p].op.Remove? then None else s.lifecycle
  {
    hide Reachable;
    var op := s.procs[p].op;
    var a := AfterWorkspace(op, s.(wlocks := s.wlocks - {id}), p);
    Extend(s, p, DropWorkspace, a);
    if op.Reset? || op.Remove? {
      t := Gone(a.(lifecycle := None), p);
      Extend(a, p, DropLifecycle, t);
      assert t.procs == s.procs - {p};
    } else {
      t := a;
    }
  }

  lemma RunInside(s: State, p: nat, m: Meta) returns (t: State)
    requires Reachable(s) && p in s.procs && s.procs[p].op.Run? && s.procs[p].pc == Current(Fetched, m.id, m)
    requires Open(s.disk.ws, m.id) == Found(m)
    ensures Reachable(t) && t == Goto(s, p, Current(Advancing, m.id, m))
  {
    hide Reachable, Open;
    var a := Goto(s, p, Current(Ran, m.id, m));
    Extend(s, p, RunCommand, a);
    t := Goto(a, p, Current(Advancing, m.id, m));
    Extend(a, p, CheckGeneration, t);
    assert t.procs == s.procs[p := Proc(s.procs[p].op, Current(Advancing, m.id, m))];
  }

  /** What is recorded of the commits of operations with a receipt. */
  ghost predicate SameCommits(s: State, t: State) {
    forall i :: i in s.history ==> i in t.history && t.history[i].committed == s.history[i].committed
  }

  lemma AdvanceIt(s: State, p: nat, m: Meta) returns (t: State)
    requires Reachable(s) && p in s.procs && s.procs[p].pc == Current(Advancing, m.id, m)
    requires m.id in s.disk.ws && s.disk.ws[m.id] == Tree(Written(m), Extracted)
    ensures Reachable(t) && t.wlocks == s.wlocks && t.lifecycle == s.lifecycle && SameCommits(s, t) && t.used == s.used && t.names == s.names
    ensures t.disk == s.disk.(ws := s.disk.ws[m.id := Tree(Written(m.(generation := m.generation + 1)), Extracted)])
    ensures t.procs == s.procs[p := Proc(s.procs[p].op, LeavingWs(m.id))]
  {
    hide Reachable, Disturb;
    t := DoAdvance(s, p).value;
    DisturbKeys(s, None, None, Some(m.id));
    Extend(s, p, Advance, t);
  }

  /** A run or shell nobody interrupts leaves exactly one trace on disk: the next generation of its workspace. */
  lemma UninterruptedRun(s: State, p: nat, selector: string, m: Meta) returns (t: State)
    requires Reachable(s) && p !in s.procs && Open(s.disk.ws, selector) == Found(m) && m.id !in s.wlocks
    ensures Reachable(t) && t.procs == s.procs && t.wlocks == s.wlocks && t.lifecycle == s.lifecycle
    ensures t.disk == s.disk.(ws := s.disk.ws[m.id := Tree(Written(m.(generation := m.generation + 1)), Extracted)])
    ensures SameCommits(s, t)
  {
    hide Reachable, Open;
    var a := s.(procs := s.procs[p := Proc(Run(selector), Begin)]);
    Extend(s, p, Spawn(Run(selector)), a);
    FoundIsThere(s, selector, m);
    var b := EnterWorkspace(a, p, m);
    var c := RunInside(b, p, m);
    var d := AdvanceIt(c, p, m);
    t := LeaveWorkspace(d, p, m.id);
    assert t.procs == s.procs && t.wlocks == s.wlocks;
  }

  // ----- remove -----

  lemma MoveAway(s: State, p: nat, m: Meta, u: string) returns (t: State)
    requires Reachable(s) && p in s.procs && s.procs[p].op.Remove? && s.procs[p].pc == Current(Fetched, m.id, m)
    requires m.id in s.disk.ws && Unused(s, u)
    ensures Reachable(t) && t.wlocks == s.wlocks && t.lifecycle == s.lifecycle && SameCommits(s, t)
    ensures t.disk == s.disk.(ws := s.disk.ws - {m.id}, staging := s.disk.staging[Tombstone(m.id, u) := s.disk.ws[m.id]])
    ensures t.procs == s.procs[p := Proc(s.procs[p].op, Erasing(m.id, Tombstone(m.id, u)))]
  {
    hide Reachable, Disturb, IsBlank;
    t := DoUnpublish(s, p, u).value;
    DisturbKeys(s, None, MetaName(s.disk.ws[m.id]), Some(m.id));
    Extend(s, p, Unpublish(u), t);
  }

  lemma EraseTombstone(s: State, p: nat, id: string, u: string) returns (t: State)
    requires Reachable(s) && p in s.procs && s.procs[p].pc == Erasing(id, Tombstone(id, u))
    ensures Reachable(t) && t == Goto(WithDisk(s, s.disk.(staging := s.disk.staging - {Tombstone(id, u)})), p, LeavingWs(id))
  {
    hide Reachable;
    t := Goto(WithDisk(s, s.disk.(staging := s.disk.staging - {Tombstone(id, u)})), p, LeavingWs(id));
    Extend(s, p, Erase(Tombstone(id, u)), t);
  }

  lemma UnpublishIt(s: State, p: nat, m: Meta, u: string) returns (t: State)
    requires Reachable(s) && p in s.procs && s.procs[p].op.Remove? && s.procs[p].pc == Current(Fetched, m.id, m)
    requires m.id in s.disk.ws && Unused(s, u) && Tombstone(m.id, u) !in s.disk.staging
    ensures Reachable(t) && t.wlocks == s.wlocks && t.lifecycle == s.lifecycle && SameCommits(s, t)
    ensures t.disk == s.disk.(ws := s.disk.ws - {m.id}) && t.procs == s.procs[p := Proc(s.procs[p].op, LeavingWs(m.id))]
  {
    hide Reachable, Unused;
    var a := MoveAway(s, p, m, u);
    t := EraseTombstone(a, p, m.id, u);
    assert t.disk.staging == s.disk.staging;
    assert t.procs == s.procs[p := Proc(s.procs[p].op, LeavingWs(m.id))];
  }

  /** A remove nobody interrupts takes away its workspace and nothing else. */
  lemma UninterruptedRemove(s: State, p: nat, selector: string, m: Meta, u: string) returns (t: State)
    requires Reachable(s) && p !in s.procs && s.lifecycle == None && Open(s.disk.ws, selector) == Found(m) && m.id !in s.wlocks
    requires Unused(s, u) && Tombstone(m.id, u) !in s.disk.staging
    ensures Reachable(t) && t.procs == s.procs && t.wlocks == s.wlocks && t.lifecycle == None && SameCommits(s, t)
    ensures t.disk == s.disk.(ws := s.disk.ws - {m.id})
  {
    hide Reachable, Open, IsBlank;
    FoundIsThere(s, selector, m);
    var a := EnterLifecycle(s, p, Remove(selector));
    var b := EnterWorkspace(a, p, m);
    var c := UnpublishIt(b, p, m, u);
    t := LeaveWorkspace(c, p, m.id);
    assert t.procs == s.procs && t.wlocks == s.wlocks;
  }

  // ----- reset -----

  lemma BindIt(s: State, p: nat, m: Meta, o: string) returns (t: State)
    requires Reachable(s) && p in s.procs && s.procs[p].op.Reset? && s.procs[p].pc == Current(Fetched, m.id, m)
    requires SeedOf(s, m.lock) == Some(Seed(m.lock, m.base)) && IsDigest(m.lock) && IsDigest(m.base) && Unused(s, o)
    ensures Reachable(t) && t.wlocks == s.wlocks && t.lifecycle == s.lifecycle && t.used == s.used + {o} && t.names == s.names
    ensures t.disk == s.disk.(receipts := s.disk.receipts[o := ResetReceipt(m.id, m.generation, m.generation + 1, Started, false)])
    ensures o in t.history && t.history[o] == History(false, false, false)
    ensures t.procs == s.procs[p := Proc(s.procs[p].op, Working(Ready, ResetJob(o, m.id, m), ""))]
  {
    hide Reachable, IsDigest, IsBlank, SeedOf;
    var a := Goto(s, p, Current(Bound, m.id, m));
    Extend(s, p, Bind, a);
    t := DoNoteReset(a, p, o).value;
    Extend(a, p, NoteReset(o), t);
    assert t.procs == s.procs[p := Proc(s.procs[p].op, Working(Ready, ResetJob(o, m.id, m), ""))];
  }

  lemma RootStep(s: State, p: nat, j: Job, u: string) returns (t: State)
    requires Reachable(s) && p in s.procs && s.procs[p].pc == Working(Attempted, j, u) && TreeIs(s, u, Tree(Absent, NoRoot))
    ensures Reachable(t) && t == Goto(SetTree(s, Attempt(u), Tree(Absent, Extracting)), p, Working(Rooted, j, u))
  {
    hide Reachable;
    t := Goto(SetTree(s, Attempt(u), Tree(Absent, Extracting)), p, Working(Rooted, j, u));
    Extend(s, p, MakeRoot, t);
  }

  lemma FillStep(s: State, p: nat, j: Job, u: string) returns (t: State)
    requires Reachable(s) && p in s.procs && s.procs[p].pc == Working(Rooted, j, u) && TreeIs(s, u, Tree(Absent, Extracting))
    ensures Reachable(t) && t == Goto(SetTree(s, Attempt(u), Tree(Absent, Extracted)), p, Working(Filled, j, u))
  {
    hide Reachable;
    t := Goto(SetTree(s, Attempt(u), Tree(Absent, Extracted)), p, Working(Filled, j, u));
    Extend(s, p, Extract, t);
  }

  /** A fresh staging directory with an extracted root. */
  lemma UnpackIt(s: State, p: nat, j: Job, u: string) returns (t: State)
    requires Reachable(s) && p in s.procs && j.ResetJob? && s.procs[p].pc == Working(Ready, j, "") && Unused(s, u)
    ensures Reachable(t) && t.wlocks == s.wlocks && t.lifecycle == s.lifecycle && t.history == s.history
    ensures t.disk == s.disk.(staging := s.disk.staging[Attempt(u) := Tree(Absent, Extracted)])
    ensures t.procs == s.procs[p := Proc(s.procs[p].op, Working(Filled, j, u))]
  {
    hide Reachable, Unused;
    var a := AttemptStep(s, p, j, u);
    var b := RootStep(a, p, j, u);
    t := FillStep(b, p, j, u);
    assert t.disk.staging == s.disk.staging[Attempt(u) := Tree(Absent, Extracted)];
    assert t.procs == s.procs[p := Proc(s.procs[p].op, Working(Filled, j, u))];
  }

  lemma StagedStep(s: State, p: nat, j: Job, u: string) returns (t: State)
    requires Reachable(s) && p in s.procs && j.ResetJob? && s.procs[p].pc == Working(Filled, j, u) && j.op in s.disk.receipts
    ensures Reachable(t) && t == Goto(SetPhase(s, j.op, StagedPhase), p, Working(Staged, j, u))
  {
    hide Reachable;
    t := Goto(SetPhase(s, j.op, StagedPhase), p, Working(Staged, j, u));
    Extend(s, p, NoteStaged, t);
  }

  lemma TornStep(s: State, p: nat, j: Job, u: string) returns (t: State)
    requires Reachable(s) && p in s.procs && j.ResetJob? && s.procs[p].pc == Working(Staged, j, u) && TreeIs(s, u, Tree(Absent, Extracted))
    ensures Reachable(t) && t == Goto(SetTree(s, Attempt(u), Tree(Torn, Extracted)), p, Working(Tearing, j, u))
  {
    hide Reachable;
    t := Goto(SetTree(s, Attempt(u), Tree(Torn, Extracted)), p, Working(Tearing, j, u));
    Extend(s, p, CreateMeta, t);
  }

  lemma WrittenStep(s: State, p: nat, j: Job, u: string) returns (t: State)
    requires Reachable(s) && p in s.procs && s.procs[p].pc == Working(Tearing, j, u) && TreeIs(s, u, Tree(Torn, Extracted))
    ensures Reachable(t) && t == Goto(SetTree(s, Attempt(u), Tree(Written(JobMeta(j)), Extracted)), p, Working(Sealed, j, u))
  {
    hide Reachable, JobMeta;
    t := Goto(SetTree(s, Attempt(u), Tree(Written(JobMeta(j)), Extracted)), p, Working(Sealed, j, u));
    Extend(s, p, WriteMeta, t);
  }

  lemma MetaSteps(s: State, p: nat, j: Job, u: string) returns (t: State)
    requires Reachable(s) && p in s.procs && j.ResetJob? && s.procs[p].pc == Working(Staged, j, u) && TreeIs(s, u, Tree(Absent, Extracted))
    ensures Reachable(t) && t == s.(
      disk := s.disk.(staging := s.disk.staging[Attempt(u) := Tree(Written(JobMeta(j)), Extracted)]),
      procs := s.procs[p := Proc(s.procs[p].op, Working(Sealed, j, u))])
  {
    hide Reachable, JobMeta;
    var a := TornStep(s, p, j, u);
    t := WrittenStep(a, p, j, u);
    SetTwice(s, p, u, Tree(Torn, Extracted), Tree(Written(JobMeta(j)), Extracted), Working(Tearing, j, u), Working(Sealed, j, u));
  }

  /** The receipt says "staged", then the metadata of the next generation is written. */
  lemma SealIt(s: State, p: nat, j: Job, u: string) returns (t: State)
    requires Reachable(s) && p in s.procs && j.ResetJob? && s.procs[p].pc == Working(Filled, j, u) && TreeIs(s, u, Tree(Absent, Extracted))
    requires j.op in s.disk.receipts
    ensures Reachable(t) && t.wlocks == s.wlocks && t.lifecycle == s.lifecycle && t.history == s.history
    ensures t.disk == s.disk.(staging := s.disk.staging[Attempt(u) := Tree(Written(JobMeta(j)), Extracted)],
      receipts := s.disk.receipts[j.op := s.disk.receipts[j.op].(phase := StagedPhase)])
    ensures t.procs == s.procs[p := Proc(s.procs[p].op, Working(Sealed, j, u))]
  {
    hide Reachable, JobMeta;
    var a := StagedStep(s, p, j, u);
    t := MetaSteps(a, p, j, u);
    assert t.procs == s.procs[p := Proc(s.procs[p].op, Working(Sealed, j, u))];
  }

  lemma ExchangeIt(s: State, p: nat, j: Job, u: string) returns (t: State)
    requires Reachable(s) && p in s.procs && j.ResetJob? && s.procs[p].pc == Working(Sealed, j, u) && Attempt(u) in s.disk.staging
    requires j.current.id in s.disk.ws && j.op in s.history
    ensures Reachable(t) && t.wlocks == s.wlocks && t.lifecycle == s.lifecycle && j.op in t.history && t.history[j.op].committed
    ensures t.disk == s.disk.(ws := s.disk.ws[j.current.id := s.disk.staging[Attempt(u)]],
      staging := s.disk.staging[Attempt(u) := s.disk.ws[j.current.id]])
    ensures t.procs == s.procs[p := Proc(s.procs[p].op, Working(Published, j, u))]
  {
    hide Reachable, Disturb;
    t := DoExchange(s, p).value;
    DisturbKeys(s, Some(j.op), None, Some(j.current.id));
    Extend(s, p, Exchange, t);
  }

  lemma PublishedStep(s: State, p: nat, j: Job, u: string) returns (t: State)
    requires Reachable(s) && p in s.procs && j.ResetJob? && s.procs[p].pc == Working(Published, j, u) && j.op in s.disk.receipts
    ensures Reachable(t) && t == Goto(SetPhase(s, j.op, PublishedPhase), p, Working(Recorded, j, u))
  {
    hide Reachable;
    t := Goto(SetPhase(s, j.op, PublishedPhase), p, Working(Recorded, j, u));
    Extend(s, p, NotePublished, t);
  }

  lemma EraseAttempt(s: State, p: nat, j: Job, u: string) returns (t: State)
    requires Reachable(s) && p in s.procs && s.procs[p].pc == Working(Recorded, j, u)
    ensures Reachable(t) && t == Goto(WithDisk(s, s.disk.(staging := s.disk.staging - {Attempt(u)})), p, Working(Erased, j, u))
  {
    hide Reachable;
    t := Goto(WithDisk(s, s.disk.(staging := s.disk.staging - {Attempt(u)})), p, Working(Erased, j, u));
    Extend(s, p, Erase(Attempt(u)), t);
  }

  lemma CompletedStep(s: State, p: nat, j: Job, u: string) returns (t: State)
    requires Reachable(s) && p in s.procs && j.ResetJob? && s.procs[p].pc == Working(Erased, j, u) && j.op in s.disk.receipts
    ensures Reachable(t) && t == Goto(SetPhase(s, j.op, Completed), p, LeavingWs(j.held))
  {
    hide Reachable;
    t := Goto(SetPhase(s, j.op, Completed), p, LeavingWs(j.held));
    Extend(s, p, NoteCompleted, t);
  }

  /** After the exchange: the old tree goes, and the receipt is finished. */
  lemma FinishIt(s: State, p: nat, j: Job, u: string) returns (t: State)
    requires Reachable(s) && p in s.procs && j.ResetJob? && s.procs[p].pc == Working(Published, j, u) && Attempt(u) in s.disk.staging
    requires j.op in s.disk.receipts
    ensures Reachable(t) && t.wlocks == s.wlocks && t.lifecycle == s.lifecycle && t.history == s.history
    ensures t.disk == s.disk.(staging := s.disk.staging - {Attempt(u)},
      receipts := s.disk.receipts[j.op := s.disk.receipts[j.op].(phase := Completed)])
    ensures t.procs == s.procs[p := Proc(s.procs[p].op, LeavingWs(j.held))]
  {
    hide Reachable;
    var a := PublishedStep(s, p, j, u);
    var b := EraseAttempt(a, p, j, u);
    t := CompletedStep(b, p, j, u);
    assert t.disk.receipts == s.disk.receipts[j.op := s.disk.receipts[j.op].(phase := Completed)];
    assert t.procs == s.procs[p := Proc(s.procs[p].op, LeavingWs(j.held))];
  }

  /** From the receipt of a reset to its sealed staging tree. */
  lemma ResetSeals(s: State, p: nat, m: Meta, o: string, u: string) returns (t: State)
    requires Reachable(s) && p in s.procs && s.procs[p].op.Reset? && s.procs[p].pc == Current(Fetched, m.id, m)
    requires SeedOf(s, m.lock) == Some(Seed(m.lock, m.base)) && IsDigest(m.lock) && IsDigest(m.base)
    requires Unused(s, o) && Unused(s, u) && o != u
    ensures Reachable(t) && t.wlocks == s.wlocks && t.lifecycle == s.lifecycle && o in t.history
    ensures t.disk == s.disk.(
      staging := s.disk.staging[Attempt(u) := Tree(Written(m.(generation := m.generation + 1)), Extracted)],
      receipts := s.disk.receipts[o := ResetReceipt(m.id, m.generation, m.generation + 1, StagedPhase, false)])
    ensures t.procs == s.procs[p := Proc(s.procs[p].op, Working(Sealed, ResetJob(o, m.id, m), u))]
  {
    hide Reachable, IsDigest, IsBlank, SeedOf;
    var j := ResetJob(o, m.id, m);
    var a := BindIt(s, p, m, o);
    var b := UnpackIt(a, p, j, u);
    t := SealIt(b, p, j, u);
    assert t.disk.staging == s.disk.staging[Attempt(u) := Tree(Written(m.(generation := m.generation + 1)), Extracted)];
    assert t.disk.receipts == s.disk.receipts[o := ResetReceipt(m.id, m.generation, m.generation + 1, StagedPhase, false)];
    assert t.procs == s.procs[p := Proc(s.procs[p].op, Working(Sealed, j, u))];
  }

  /** The commit of a reset and what follows it. */
  lemma ResetEnds(s: State, p: nat, m: Meta, o: string, u: string) returns (t: State)
    requires Reachable(s) && p in s.procs && s.procs[p] == Proc(s.procs[p].op, Working(Sealed, ResetJob(o, m.id, m), u))
    requires Attempt(u) in s.disk.staging && m.id in s.disk.ws && o in s.history
    requires o in s.disk.receipts && s.disk.receipts[o].ResetReceipt?
    ensures Reachable(t) && t.wlocks == s.wlocks && t.lifecycle == s.lifecycle && o in t.history && t.history[o].committed
    ensures t.disk == s.disk.(ws := s.disk.ws[m.id := s.disk.staging[Attempt(u)]], staging := s.disk.staging - {Attempt(u)},
      receipts := s.disk.receipts[o := s.disk.receipts[o].(phase := Completed)])
    ensures t.procs == s.procs[p := Proc(s.procs[p].op, LeavingWs(m.id))]
  {
    hide Reachable;
    var j := ResetJob(o, m.id, m);
    var a := ExchangeIt(s, p, j, u);
    t := FinishIt(a, p, j, u);
    assert t.disk.staging == s.disk.staging - {Attempt(u)};
    assert t.procs == s.procs[p := Proc(s.procs[p].op, LeavingWs(m.id))];
  }

  lemma StillUnused(s: State, t: State, u: string)
    requires Unused(s, u) && t.used == s.used && t.names == s.names
    ensures Unused(t, u)
  {
    hide IsBlank;
  }

  lemma ResetRuns(s: State, p: nat, m: Meta, o: string, u: string) returns (t: State)
    requires Reachable(s) && p in s.procs && s.procs[p].op.Reset? && s.procs[p].pc == Current(Fetched, m.id, m)
    requires SeedOf(s, m.lock) == Some(Seed(m.lock, m.base)) && IsDigest(m.lock) && IsDigest(m.base) && m.id in s.disk.ws
    requires Unused(s, o) && Unused(s, u) && o != u && Attempt(u) !in s.disk.staging
    ensures Reachable(t) && t.wlocks == s.wlocks && t.lifecycle == s.lifecycle && o in t.history && t.history[o].committed
    ensures t.disk == s.disk.(ws := s.disk.ws[m.id := Tree(Written(m.(generation := m.generation + 1)), Extracted)],
      receipts := s.disk.receipts[o := ResetReceipt(m.id, m.generation, m.generation + 1, Completed, false)])
    ensures t.procs == s.procs[p := Proc(s.procs[p].op, LeavingWs(m.id))]
  {
    hide Reachable, IsDigest, SeedOf, Unused;
    var c := ResetSeals(s, p, m, o, u);
    t := ResetEnds(c, p, m, o, u);
    assert t.disk.staging == s.disk.staging;
    assert t.disk.receipts == s.disk.receipts[o := ResetReceipt(m.id, m.generation, m.generation + 1, Completed, false)];
    assert t.procs == s.procs[p := Proc(s.procs[p].op, LeavingWs(m.id))];
  }

  /**
   * A reset nobody interrupts puts a freshly extracted tree of the next generation in place of its workspace, leaves
   * nothing in staging and a receipt that says completed.
   */
  lemma UninterruptedReset(s: State, p: nat, selector: string, m: Meta, o: string, u: string) returns (t: State)
    requires Reachable(s) && p !in s.procs && s.lifecycle == None && Open(s.disk.ws, selector) == Found(m) && m.id !in s.wlocks
    requires Unused(s, o) && Unused(s, u) && o != u && Attempt(u) !in s.disk.staging
    ensures Reachable(t) && t.procs == s.procs && t.wlocks == s.wlocks && t.lifecycle == None
    ensures o in t.history && t.history[o].committed
    ensures t.disk == s.disk.(ws := s.disk.ws[m.id := Tree(Written(m.(generation := m.generation + 1)), Extracted)],
      receipts := s.disk.receipts[o := ResetReceipt(m.id, m.generation, m.generation + 1, Completed, false)])
  {
    hide Reachable, Open, IsDigest, SeedOf, Unused;
    FoundIsThere(s, selector, m);
    var a := EnterLifecycle(s, p, Reset(selector));
    var b := EnterWorkspace(a, p, m);
    SeedKept(s, b, m.lock);
    StillUnused(s, b, o);
    StillUnused(s, b, u);
    var d := ResetRuns(b, p, m, o, u);
    t := LeaveWorkspace(d, p, m.id);
    assert t.procs == s.procs && t.wlocks == s.wlocks;
  }

  // ----- remove_base -----

  lemma PlanIt(s: State, p: nat, d: string) returns (t: State)
    requires Reachable(s) && p !in s.procs && s.lifecycle == None
    requires IsDigest(d) && d in s.disk.targets && AllReadable(s.disk.ws)
    ensures Reachable(t) && t.disk == s.disk && t.wlocks == s.wlocks && t.lifecycle == Some(p)
    ensures t.procs == s.procs[p := Proc(RemoveBase(d), Locked)]
  {
    hide Reachable, IsDigest;
    var a := s.(procs := s.procs[p := Proc(RemoveBase(d), Begin)]);
    Extend(s, p, Spawn(RemoveBase(d)), a);
    var b := Goto(a, p, Planned);
    Extend(a, p, Plan, b);
    t := Goto(b.(lifecycle := Some(p)), p, Locked);
    Extend(b, p, TakeLifecycle, t);
    assert t.procs == s.procs[p := Proc(RemoveBase(d), Locked)];
  }

  lemma DeleteIt(s: State, p: nat, d: string) returns (t: State)
    requires Reachable(s) && p in s.procs && s.procs[p] == Proc(RemoveBase(d), Locked)
    requires IsDigest(d) && d in s.disk.targets && Unreferenced(s.disk.ws, d)
    ensures Reachable(t) && t.disk == s.disk.(targets := s.disk.targets - {d}) && t.wlocks == s.wlocks && t.lifecycle == None
    ensures t.procs == s.procs - {p}
  {
    hide Reachable, IsDigest, Unreferenced;
    var a := Goto(s, p, Cleared);
    Extend(s, p, Replan, a);
    var b := Goto(WithDisk(a, a.disk.(targets := a.disk.targets - {d})), p, LeavingLife);
    Extend(a, p, DeleteTarget, b);
    t := Gone(b.(lifecycle := None), p);
    Extend(b, p, DropLifecycle, t);
    assert t.procs == s.procs - {p};
  }

  /** Removing an unreferenced base nobody interferes with removes that base and nothing else. */
  lemma UninterruptedBaseRemoval(s: State, p: nat, d: string) returns (t: State)
    requires Reachable(s) && p !in s.procs && s.lifecycle == None
    requires IsDigest(d) && d in s.disk.targets && Unreferenced(s.disk.ws, d)
    ensures Reachable(t) && t.procs == s.procs && t.wlocks == s.wlocks && t.lifecycle == None
    ensures t.disk == s.disk.(targets := s.disk.targets - {d})
  {
    hide Reachable, IsDigest;
    var a := PlanIt(s, p, d);
    t := DeleteIt(a, p, d);
    assert t.procs == s.procs;
  }

  // ----- Killed resets -----

  /** A reset killed right after writing its receipt. */
  lemma KilledReset(s: State, p: nat, selector: string, m: Meta, o: string) returns (t: State)
    requires Reachable(s) && p !in s.procs && s.lifecycle == None && Open(s.disk.ws, selector) == Found(m) && m.id !in s.wlocks
    requires Unused(s, o)
    ensures Reachable(t) && t.lifecycle == None && t.procs == s.procs && m.id !in t.wlocks && t.used == s.used + {o} && t.names == s.names
    ensures t.disk == s.disk.(receipts := s.disk.receipts[o := ResetReceipt(m.id, m.generation, m.generation + 1, Started, false)])
    ensures o in t.history && !t.history[o].committed
    ensures m.id in t.disk.ws && t.disk.ws[m.id] == Tree(Written(m), Extracted) && Open(t.disk.ws, m.id) == Found(m)
  {
    hide Reachable, Open, IsBlank, IsDigest, SeedOf;
    FoundIsThere(s, selector, m);
    var a := EnterLifecycle(s, p, Reset(selector));
    var b := EnterWorkspace(a, p, m);
    SeedKept(s, b, m.lock);
    var c := BindIt(b, p, m, o);
    t := KillStep(c, p);
    assert t.procs == s.procs;
  }

  /** A run from outside on a workspace that is known by its id. */
  lemma RunById(s: State, p: nat, m: Meta) returns (t: State)
    requires Reachable(s) && p !in s.procs && m.id in s.disk.ws && s.disk.ws[m.id] == Tree(Written(m), Extracted) && m.id !in s.wlocks
    ensures Reachable(t) && t.procs == s.procs && t.wlocks == s.wlocks && t.lifecycle == s.lifecycle && SameCommits(s, t)
    ensures t.disk == s.disk.(ws := s.disk.ws[m.id := Tree(Written(m.(generation := m.generation + 1)), Extracted)])
  {
    hide Reachable, Open, SameCommits;
    KnownOpens(s, m);
    t := UninterruptedRun(s, p, m.id, m);
  }

  lemma KnownOpens(s: State, m: Meta)
    requires Reachable(s) && m.id in s.disk.ws && s.disk.ws[m.id] == Tree(Written(m), Extracted)
    ensures Open(s.disk.ws, m.id) == Found(m)
  {
    hide Inv, Reachable, Open, IsDigest, IsBlank;
    ReachableOk(s);
    PartsOf(s);
    WorkspaceOf(s, m.id);
    OpenById(s, m.id);
  }

  /** One ordinary run after a killed reset, and recovery writes that the reset was completed. */
  lemma KilledResetMisreported(s: State, p: nat, selector: string, m: Meta, o: string, r: nat) returns (t: State)
    requires Reachable(s) && p !in s.procs && s.lifecycle == None && Open(s.disk.ws, selector) == Found(m) && m.id !in s.wlocks
    requires Unused(s, o)
    requires NothingSweepable(s.disk) && r !in s.procs
    ensures Reachable(t) && o in t.disk.receipts && t.disk.receipts[o] == ResetReceipt(m.id, m.generation, m.generation + 1, Completed, true)
    ensures o in t.history && !t.history[o].committed
  {
    hide Reachable, Open, IsBlank, IsDigest, SeedOf, VerdictFor;
    var a := KilledReset(s, p, selector, m, o);
    var b := RunById(a, p, m);
    var c := RecoveryReaches(b, r);
    ReachableOk(c) by { hide Inv; }
    VerdictInFull(c, o) by { hide Inv; }
    t := CommitIsWritten(c, r, o);
  }

  /** A create killed after publishing, then an ordinary remove, and recovery writes that the create failed. */
  lemma RemovedCreateMisreported(s: State, p: nat, d: string, base: string, name: string, o: string, id: string, u: string,
      v: string, r: nat) returns (t: State)
    requires Reachable(s) && CanCreate(s, p, d, base, name, o, id, u) && id !in s.wlocks
    requires Unused(s, v) && v !in {o, id, u, name} && Tombstone(id, v) !in s.disk.staging
    requires NothingSweepable(s.disk) && r !in s.procs
    ensures Reachable(t) && o in t.disk.receipts && t.disk.receipts[o] == CreateReceipt(name, d, base, Failed, true)
    ensures o in t.history && t.history[o].committed
  {
    hide Reachable, IsBlank, IsDigest, IsWorkspaceName, VerdictFor, CanCreate, Unused;
    FreeNameMatchesNothing(s, p, d, base, name, o, id, u);
    var a := KilledAfterPublishing(s, p, d, base, name, o, id, u);
    var m := Meta(id, name, d, base, 0);
    KnownOpens(a, m);
    UnusedBeside(s, a, v, {o, id, u}, name);
    var b := UninterruptedRemove(a, p, id, m, v);
    assert b.disk.ws == s.disk.ws;
    var c := RecoveryReaches(b, r);
    ReachableOk(c) by { hide Inv; }
    VerdictInFull(c, o) by { hide Inv; }
    t := AbortIsWritten(c, r, o);
  }

  lemma FreeNameMatchesNothing(s: State, p: nat, d: string, base: string, name: string, o: string, id: string, u: string)
    requires CanCreate(s, p, d, base, name, o, id, u)
    ensures CreateMatches(s.disk.ws, name, d, base) == {} && id !in s.disk.ws && p !in s.procs && name != ""
  {
    hide IsDigest, IsSpace;
    forall w | w in s.disk.ws ensures !IsCreateMatch(w, s.disk.ws[w], name, d, base) {
      assert MetaName(s.disk.ws[w]) != Some(name);
    }
  }

  lemma UnusedBeside(s: State, t: State, v: string, others: set<string>, name: string)
    requires Unused(s, v) && v !in others && v != name && t.used == s.used + others && t.names == s.names + {name}
    ensures Unused(t, v)
  {
    hide IsId;
  }

  // ----- Receipts that can never be reconciled -----

  /** A reset killed after writing its receipt, then an ordinary remove: the receipt is stuck. */
  lemma StuckByRemoval(s: State, p: nat, selector: string, m: Meta, o: string, v: string) returns (t: State)
    requires Reachable(s) && p !in s.procs && s.lifecycle == None && Open(s.disk.ws, selector) == Found(m) && m.id !in s.wlocks
    requires Unused(s, o) && Unused(s, v) && o != v && Tombstone(m.id, v) !in s.disk.staging
    ensures Reachable(t) && Stuck(t, o) && t.disk.receipts[o].ResetReceipt? && t.disk.receipts[o].id !in t.disk.ws
  {
    hide Reachable, Open, IsBlank, IsDigest, SeedOf;
    var d := KilledReset(s, p, selector, m, o);
    t := UninterruptedRemove(d, p, m.id, m, v);
  }

  /** A reset killed after writing its receipt, then two ordinary runs: the receipt is stuck. */
  lemma StuckByRuns(s: State, p: nat, selector: string, m: Meta, o: string) returns (t: State)
    requires Reachable(s) && p !in s.procs && s.lifecycle == None && Open(s.disk.ws, selector) == Found(m) && m.id !in s.wlocks
    requires Unused(s, o)
    ensures Reachable(t) && Stuck(t, o) && t.disk.receipts[o].ResetReceipt? && t.disk.receipts[o].id in t.disk.ws
  {
    hide Reachable, Open, IsBlank, IsDigest, SeedOf;
    var a := KilledReset(s, p, selector, m, o);
    var b := RunById(a, p, m);
    var n := m.(generation := m.generation + 1);
    t := RunById(b, p, n);
  }

  /** A create without a name, killed after writing its receipt: the receipt is stuck, and nobody owns it. */
  lemma StuckByName(s: State, p: nat, d: string, base: string, o: string) returns (t: State)
    requires Reachable(s) && p !in s.procs && s.lifecycle == None
    requires IsDigest(d) && IsDigest(base) && SeedOf(s, d) == Some(Seed(d, base)) && Unused(s, o)
    ensures Reachable(t) && Stuck(t, o) && Unowned(t, o) && t.disk.receipts[o].CreateReceipt?
  {
    hide Reachable, IsBlank, IsDigest, SeedOf, CreateMatches, OwnReceipt;
    NoNameIsFree(s, o);
    var a := CreateStarts(s, p, d, base, "", o);
    t := KillStep(a, p);
    NobodyOwns(s, o);
  }

  lemma NoNameIsFree(s: State, o: string)
    requires Reachable(s) && Unused(s, o)
    ensures "" !in s.used && "" != o
  {
    hide Inv, Reachable;
    ReachableOk(s);
    PartsOf(s);
  }

  /** Nobody works on a receipt that does not exist yet. */
  lemma NobodyOwns(s: State, o: string)
    requires Reachable(s) && Unused(s, o)
    ensures Unowned(s, o)
  {
    hide Inv, Reachable, LocalOk, OwnReceipt, IsBlank;
    ReachableOk(s);
    PartsOf(s);
    forall p | p in s.procs ensures OwnReceipt(s.procs[p].pc) != Some(o) {
      LocalOf(s, p);
      OwnedExists(s, s.procs[p], o);
    }
  }

  lemma OwnedExists(s: State, q: Proc, o: string)
    requires LocalOk(s, q) && o !in s.history
    ensures OwnReceipt(q.pc) != Some(o)
  {
    hide CreateMatches, IsBlank, IsDigest, IsWorkspaceName, StageTree;
  }

  // ----- The same from an empty installation -----

  /** A first workspace, created on a seeded base. */
  lemma FirstWorkspace() returns (s: State, m: Meta)
    ensures Reachable(s) && s.procs == map[] && s.wlocks == map[] && s.lifecycle == None && Open(s.disk.ws, m.id) == Found(m)
    ensures SeedOf(s, m.lock) == Some(Seed(m.lock, m.base)) && IsDigest(m.lock) && IsDigest(m.base)
    ensures Unused(s, "4") && Unused(s, "5") && s.disk.staging == map[]
  {
    hide Reachable, CanCreate, IsBlank, Open, CreateMatches;
    var d := seq(64, i => 'a');
    assert IsDigest(d);
    hide IsDigest;
    var start := SeededStart(d);
    ShortName();
    CreatableFromStart(start, d, "n");
    s := UninterruptedCreate(start, 0, d, d, "n", "1", "2", "3");
    m := Meta("2", "n", d, d, 0);
    KnownOpens(s, m);
  }

  lemma ResetMisreportIsReachable() returns (t: State, o: string)
    ensures Reachable(t) && o in t.disk.receipts && t.disk.receipts[o].phase == Completed && o in t.history && !t.history[o].committed
    ensures t.disk.receipts[o].ResetReceipt?
  {
    hide Reachable, Open, SeedOf, IsDigest, IsBlank;
    var s, m := FirstWorkspace();
    o := "4";
    t := KilledResetMisreported(s, 0, m.id, m, o, 1);
  }

  lemma RemovedCreateMisreportIsReachable() returns (t: State, o: string)
    ensures Reachable(t) && o in t.disk.receipts && t.disk.receipts[o].phase == Failed && o in t.history && t.history[o].committed
  {
    hide Reachable, CanCreate, IsBlank, CreateMatches;
    var d := seq(64, i => 'a');
    assert IsDigest(d);
    hide IsDigest;
    var s := SeededStart(d);
    ShortName();
    CreatableFromStart(s, d, "n");
    o := "1";
    t := RemovedCreateMisreported(s, 0, d, d, "n", o, "2", "3", "4", 1);
  }

  /** A workspace whose name is a single dot can be created, and its name does not open it. */
  lemma DottedNameIsReachable() returns (t: State, m: Meta)
    ensures Reachable(t) && m.id in t.disk.ws && t.disk.ws[m.id] == Tree(Written(m), Extracted) && m.name == "."
    ensures Open(t.disk.ws, m.id) == Found(m) && Open(t.disk.ws, m.name) == Corrupt
  {
    hide Reachable, CanCreate, CreateMatches;
    var d := seq(64, i => 'a');
    assert IsDigest(d);
    assert '.' in ".";
    hide IsDigest, IsSpace;
    var s := SeededStart(d);
    CreatableFromStart(s, d, ".");
    t := UninterruptedCreate(s, 0, d, d, ".", "1", "2", "3");
    m := Meta("2", ".", d, d, 0);
    KnownOpens(t, m);
  }

  lemma StuckByRemovalIsReachable() returns (t: State, o: string)
    ensures Reachable(t) && Stuck(t, o) && t.disk.receipts[o].ResetReceipt? && t.disk.receipts[o].id !in t.disk.ws
  {
    hide Reachable, Open, SeedOf, IsDigest, IsBlank;
    var s, m := FirstWorkspace();
    o := "4";
    t := StuckByRemoval(s, 0, m.id, m, o, "5");
  }

  lemma StuckByRunsIsReachable() returns (t: State, o: string)
    ensures Reachable(t) && Stuck(t, o) && t.disk.receipts[o].ResetReceipt? && t.disk.receipts[o].id in t.disk.ws
  {
    hide Reachable, Open, SeedOf, IsDigest, IsBlank;
    var s, m := FirstWorkspace();
    o := "4";
    t := StuckByRuns(s, 0, m.id, m, o);
  }

  lemma StuckByNameIsReachable() returns (t: State, o: string)
    ensures Reachable(t) && Stuck(t, o) && Unowned(t, o) && t.disk.receipts[o].CreateReceipt?
  {
    hide Reachable, Open, SeedOf, IsDigest, IsBlank;
    var s, m := FirstWorkspace();
    o := "4";
    t := StuckByName(s, 0, m.lock, m.base, o);
  }
}
