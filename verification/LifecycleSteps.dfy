/** Every step of every operation keeps the lifecycle invariant. */
module LifecycleSteps {
  import opened Common
  import opened Workspace
  import opened Lifecycle
  import opened LifecycleInvariant

  // ----- Steps that only move a counter -----

  lemma StayLocks(s: State, t: State, p: nat)
    requires LocksOk(s) && p in s.procs && t.lifecycle == s.lifecycle && t.wlocks == s.wlocks
    requires t.procs.Keys == s.procs.Keys && forall q :: q != p && q in s.procs ==> t.procs[q] == s.procs[q]
    requires HoldsLifecycle(t.procs[p]) == HoldsLifecycle(s.procs[p]) && HeldLock(t.procs[p].pc) == HeldLock(s.procs[p].pc)
    ensures LocksOk(t)
  {
    hide HoldsLifecycle, HeldLock;
  }

  /** A step of `p` that moves its counter and keeps its locks, disk and history. */
  lemma Moves(s: State, t: State, p: nat, pc: PC)
    requires Inv(s) && p in s.procs && t == Goto(s, p, pc)
    requires HoldsLifecycle(Proc(s.procs[p].op, pc)) == HoldsLifecycle(s.procs[p]) && HeldLock(pc) == HeldLock(s.procs[p].pc)
    requires LocalOk(t, t.procs[p])
    ensures Inv(t)
  {
    hide Inv, HoldsLifecycle, HeldLock, LocalOk, LocksOk;
    PartsOf(s);
    StayLocks(s, t, p);
    ControlStep(s, t, p);
  }

  lemma Leaves(s: State, t: State, p: nat)
    requires Inv(s) && p in s.procs && t == Gone(s, p)
    requires !HoldsLifecycle(s.procs[p]) && HeldLock(s.procs[p].pc) == None
    ensures Inv(t)
  {
    hide Inv, HoldsLifecycle, HeldLock, LocalOk;
    PartsOf(s);
    ControlStep(s, t, p);
  }

  lemma KillKeeps(s: State, t: State, p: nat)
    requires Inv(s) && DoKill(s, p) == Some(t)
    ensures Inv(t)
  {
    hide Inv, HoldsLifecycle, HeldLock, LocalOk;
    PartsOf(s);
    ControlStep(s, t, p);
  }

  lemma SpawnKeeps(s: State, t: State, p: nat, op: Op)
    requires Inv(s) && DoSpawn(s, p, op) == Some(t)
    ensures Inv(t)
  {
    hide Inv, WorkspacesOk, NamesUnique, HistoryOk;
    PartsOf(s);
    ControlStep(s, t, p);
  }

  lemma TakeLifecycleKeeps(s: State, t: State, p: nat)
    requires Inv(s) && p in s.procs && DoTakeLifecycle(s, p) == Some(t)
    ensures Inv(t)
  {
    hide Inv;
    LocalOf(s, p);
    PartsOf(s);
    ControlStep(s, t, p);
  }

  lemma DropLifecycleKeeps(s: State, t: State, p: nat)
    requires Inv(s) && p in s.procs && DoDropLifecycle(s, p) == Some(t)
    ensures Inv(t)
  {
    hide Inv, LocalOk;
    LocalOf(s, p);
    PartsOf(s);
    ControlStep(s, t, p);
  }

  lemma OpenKeeps(s: State, t: State, p: nat)
    requires Inv(s) && p in s.procs && DoOpen(s, p) == Some(t)
    ensures Inv(t)
  {
    hide Inv, Open, WorkspacesOk, NamesUnique;
    var q := s.procs[p];
    PartsOf(s);
    OpenFinds(s, q.op.selector);
    match Open(s.disk.ws, q.op.selector)
    case Found(m) => Moves(s, t, p, Opened(m.id));
    case _ =>
      if q.op.Reset? || q.op.Remove? { Moves(s, t, p, LeavingLife); } else { Leaves(s, t, p); }
  }

  lemma TakeWorkspaceKeeps(s: State, t: State, p: nat)
    requires Inv(s) && p in s.procs && DoTakeWorkspace(s, p) == Some(t)
    ensures Inv(t)
  {
    hide Inv, WorkspacesOk, NamesUnique, HistoryOk;
    LocalOf(s, p);
    PartsOf(s);
    TakeWorkspaceLocks(s, t, p);
    hide LocksOk;
    ControlStep(s, t, p);
  }

  lemma TakeWorkspaceLocks(s: State, t: State, p: nat)
    requires LocksOk(s) && p in s.procs && DoTakeWorkspace(s, p) == Some(t)
    ensures LocksOk(t)
  {
  }

  lemma ReopenKeeps(s: State, t: State, p: nat)
    requires Inv(s) && p in s.procs && DoReopen(s, p) == Some(t)
    ensures Inv(t)
  {
    hide Inv, Open, WorkspacesOk, PoolsOk;
    var id := s.procs[p].pc.id;
    LocalOf(s, p);
    PartsOf(s);
    OpenById(s, id);
    if id in s.disk.ws {
      WorkspaceOf(s, id);
      Moves(s, t, p, Current(Fetched, id, s.disk.ws[id].metaFile.meta));
    } else {
      Moves(s, t, p, LeavingWs(id));
    }
  }

  lemma DropWorkspaceLocks(s: State, t: State, p: nat)
    requires LocksOk(s) && p in s.procs && DoDropWorkspace(s, p) == Some(t)
    ensures LocksOk(t)
  {
    var id := s.procs[p].pc.id;
    assert Holds(s, id, p);
    forall q | q in t.procs && HeldLock(t.procs[q].pc).Some? ensures Holds(t, HeldLock(t.procs[q].pc).value, q) {
      assert q == p || t.procs[q] == s.procs[q];
    }
  }

  lemma DropWorkspaceKeeps(s: State, t: State, p: nat)
    requires Inv(s) && p in s.procs && DoDropWorkspace(s, p) == Some(t)
    ensures Inv(t)
  {
    hide Inv, LocksOk, WorkspacesOk, NamesUnique, HistoryOk;
    PartsOf(s);
    DropWorkspaceLocks(s, t, p);
    ControlStep(s, t, p);
  }

  lemma CommandKeeps(s: State, t: State, p: nat, build: bool)
    requires Inv(s) && p in s.procs && DoCommand(s, p, build) == Some(t)
    ensures Inv(t)
  {
    hide Inv;
    LocalOf(s, p);
    var pc := s.procs[p].pc;
    Moves(s, t, p, if build then LeavingWs(pc.id) else Current(Ran, pc.id, pc.cur));
  }

  lemma CheckGenerationKeeps(s: State, t: State, p: nat)
    requires Inv(s) && p in s.procs && DoCheckGeneration(s, p) == Some(t)
    ensures Inv(t)
  {
    hide Inv, GenerationUnchanged;
    LocalOf(s, p);
    var pc := s.procs[p].pc;
    Moves(s, t, p, if GenerationUnchanged(s.disk.ws, pc.cur) then Current(Advancing, pc.id, pc.cur) else LeavingWs(pc.id));
  }

  lemma IdentifyKeeps(s: State, t: State, p: nat)
    requires Inv(s) && p in s.procs && DoIdentify(s, p) == Some(t)
    ensures Inv(t)
  {
    hide Inv, LocksOk, WorkspacesOk, NamesUnique, HistoryOk, PoolsOk, IsDigest;
    LocalOf(s, p);
    PartsOf(s);
    Moves(s, t, p, t.procs[p].pc);
  }

  lemma BindKeeps(s: State, t: State, p: nat)
    requires Inv(s) && p in s.procs && DoBind(s, p) == Some(t)
    ensures Inv(t)
  {
    hide Inv;
    LocalOf(s, p);
    Moves(s, t, p, t.procs[p].pc);
  }

  lemma PlanKeeps(s: State, t: State, p: nat)
    requires Inv(s) && p in s.procs && (DoPlan(s, p) == Some(t) || DoReplan(s, p) == Some(t))
    ensures Inv(t)
  {
    hide Inv;
    if DoReplan(s, p) == Some(t) || p in t.procs {
      Moves(s, t, p, t.procs[p].pc);
    } else {
      Leaves(s, t, p);
    }
  }

  lemma RecoverListsKeep(s: State, t: State, p: nat)
    requires Inv(s) && p in s.procs
    requires DoListStaging(s, p) == Some(t) || DoListReceipts(s, p) == Some(t) || DoFinish(s, p) == Some(t)
    ensures Inv(t)
  {
    hide Inv;
    LocalOf(s, p);
    Moves(s, t, p, t.procs[p].pc);
  }

  lemma FailKeeps(s: State, t: State, p: nat)
    requires Inv(s) && p in s.procs && DoFail(s, p) == Some(t)
    ensures Inv(t)
  {
    hide Inv, PoolsOk;
    LocalOf(s, p);
    if p in t.procs {
      Moves(s, t, p, AfterFailure(s.procs[p].pc));
    } else {
      Leaves(s, t, p);
    }
  }

  // ----- Starting a create's job -----

  lemma WorkspaceIn(s: State, d: string)
    requires WorkspacesOk(s) && d in s.disk.ws
    ensures WorkspaceOk(s, d)
  {
    hide WorkspaceOk;
  }

  /** Use of a fresh id: the job it starts has an unpublished id and a free name. */
  lemma CheckNewLocal(s: State, t: State, p: nat, u: string)
    requires WorkspacesOk(s) && PoolsOk(s) && p in s.procs && LocalOk(s, s.procs[p]) && DoCheckNew(s, p, u) == Some(t)
    ensures t == s.(procs := t.procs, used := t.used) && Unused(s, u) && (t.used == s.used || t.used == s.used + {u})
    ensures t.procs.Keys == s.procs.Keys && forall q :: q != p && q in s.procs ==> t.procs[q] == s.procs[q]
    ensures HoldsLifecycle(t.procs[p]) && HoldsLifecycle(s.procs[p]) && HeldLock(t.procs[p].pc) == HeldLock(s.procs[p].pc)
    ensures LocalOk(t, t.procs[p])
  {
    hide IsDigest, IsBlank, IsWorkspaceName, ReceiptOk, JobDone, WorkspacesOk;
    var q := s.procs[p];
    if t.procs[p].pc.Working? {
      forall d | d in s.disk.ws
        ensures NameOf(s.disk.ws[d]) != q.op.name && !IsCreateMatch(d, s.disk.ws[d], q.op.name, q.pc.lock, q.pc.base)
      {
        WorkspaceIn(s, d);
        assert MetaName(s.disk.ws[d]) != Some(q.op.name);
      }
      assert CreateMatches(s.disk.ws, q.op.name, q.pc.lock, q.pc.base) == {};
    }
  }

  lemma CheckNewKeeps(s: State, t: State, p: nat, u: string)
    requires Inv(s) && p in s.procs && DoCheckNew(s, p, u) == Some(t)
    ensures Inv(t)
  {
    hide Inv, WorkspacesOk, LocalOk, LocksOk, DoCheckNew, HoldsLifecycle, HeldLock, NamesUnique, HistoryOk;
    LocalOf(s, p);
    PartsOf(s);
    CheckNewLocal(s, t, p, u);
    StayLocks(s, t, p);
    ControlStep(s, t, p);
  }

  // ----- Steps that only write under staging/ -----

  lemma StagingStep(s: State, t: State, p: nat)
    requires Inv(s) && p in s.procs && p in t.procs && s.lifecycle == Some(p)
    requires t == SetStaging(s, t.disk.staging).(procs := t.procs, used := t.used)
    requires s.used <= t.used && t.used !! t.names && forall u :: u in t.used ==> IsId(u)
    requires forall u :: Attempt(u) in t.disk.staging ==> u in t.used
    requires t.procs.Keys == s.procs.Keys && forall q :: q != p && q in s.procs ==> t.procs[q] == s.procs[q]
    requires HoldsLifecycle(t.procs[p]) && HoldsLifecycle(s.procs[p]) && HeldLock(t.procs[p].pc) == HeldLock(s.procs[p].pc)
    requires LocalOk(t, t.procs[p])
    ensures Inv(t)
  {
    hide Inv, LocksOk, WorkspacesOk, NamesUnique, TargetsOk, LocalOk, ReceiptsOk, HoldsLifecycle, HeldLock;
    PartsOf(s);
    StayLocks(s, t, p);
    WorkspacesStay(s, t);
    Assemble(s, t, p);
  }

  function SetStaging(s: State, staging: map<StagingName, Tree>): State {
    WithDisk(s, s.disk.(staging := staging))
  }

  lemma MakeAttemptKeeps(s: State, t: State, p: nat, u: string)
    requires Inv(s) && p in s.procs && DoMakeAttempt(s, p, u) == Some(t)
    ensures Inv(t)
  {
    hide Inv, JobOk, JobDone, LocksOk, WorkspacesOk, NamesUnique, HistoryOk;
    LocalOf(s, p);
    PartsOf(s);
    JobUnaffected(s, t, s.procs[p].pc.job);
    StagingStep(s, t, p);
  }

  /** Staging writes do not touch what a job relies on. */
  lemma JobUnaffected(s: State, t: State, j: Job)
    requires t.disk == s.disk.(staging := t.disk.staging) && t.history == s.history && t.commits == s.commits
    requires s.used <= t.used && t.names == s.names
    ensures JobOk(s, j) ==> JobOk(t, j)
    ensures JobDone(s, j) ==> JobDone(t, j)
  {
  }

  /** One extraction step: the attempt's tree moves to the shape of its next stage. */
  lemma StageKeeps(s: State, t: State, p: nat, stage: Stage, tree: Tree)
    requires Inv(s) && p in s.procs && s.procs[p].pc.Working? && BeforeCommit(s.procs[p].pc.stage) && !s.procs[p].pc.stage.Ready?
    requires BeforeCommit(stage) && !stage.Ready?
    requires var pc := s.procs[p].pc;
      tree == StageTree(stage, pc.job) &&
      t == Goto(SetTree(s, Attempt(pc.uuid), tree), p, Working(stage, pc.job, pc.uuid))
    ensures Inv(t)
  {
    hide Inv, JobOk, JobDone;
    LocalOf(s, p);
    PartsOf(s);
    JobUnaffected(s, t, s.procs[p].pc.job);
    StagingStep(s, t, p);
  }

  /** Each extraction step either fails cleanly or moves the tree to its next shape. */
  lemma ExtractionShape(s: State, t: State, p: nat) returns (stage: Stage)
    requires p in s.procs && LocalOk(s, s.procs[p])
    requires DoMakeRoot(s, p) == Some(t) || DoExtract(s, p) == Some(t) || DoWriteMeta(s, p) == Some(t) || DoCreateMeta(s, p) == Some(t)
    ensures s.procs[p].pc.Working? && BeforeCommit(s.procs[p].pc.stage) && !s.procs[p].pc.stage.Ready?
    ensures BeforeCommit(stage) && !stage.Ready?
    ensures var pc := s.procs[p].pc;
      t == Goto(SetTree(s, Attempt(pc.uuid), StageTree(stage, pc.job)), p, Working(stage, pc.job, pc.uuid))
  {
    hide JobOk, JobDone;
    var g := s.procs[p].pc.stage;
    stage := if g == Attempted then Rooted else if g == Rooted then Filled else if g == Tearing then Sealed else Tearing;
  }

  lemma ExtractionKeeps(s: State, t: State, p: nat)
    requires Inv(s) && p in s.procs
    requires DoMakeRoot(s, p) == Some(t) || DoExtract(s, p) == Some(t) || DoWriteMeta(s, p) == Some(t) || DoCreateMeta(s, p) == Some(t)
    ensures Inv(t)
  {
    hide Inv, LocalOk, DoMakeRoot, DoExtract, DoWriteMeta, DoCreateMeta, StageTree;
    LocalOf(s, p);
    var stage := ExtractionShape(s, t, p);
    StageKeeps(s, t, p, stage, StageTree(stage, s.procs[p].pc.job));
  }

  lemma ShrinkKeeps(s: State, t: State, p: nat, n: StagingName, tree: Tree)
    requires Inv(s) && p in s.procs && DoShrink(s, p, n, tree) == Some(t)
    ensures Inv(t)
  {
    hide Inv;
    LocalOf(s, p);
    PartsOf(s);
    StagingStep(s, t, p);
  }

  lemma EraseLocal(s: State, t: State, p: nat, n: StagingName)
    requires p in s.procs && LocalOk(s, s.procs[p]) && DoErase(s, p, n) == Some(t)
    ensures LocalOk(t, t.procs[p]) && HoldsLifecycle(t.procs[p]) && HoldsLifecycle(s.procs[p])
    ensures HeldLock(t.procs[p].pc) == HeldLock(s.procs[p].pc)
  {
    hide JobOk, JobDone;
    if s.procs[p].pc.Working? { JobUnaffected(s, t, s.procs[p].pc.job); }
  }

  lemma EraseKeeps(s: State, t: State, p: nat, n: StagingName)
    requires Inv(s) && p in s.procs && DoErase(s, p, n) == Some(t)
    ensures Inv(t)
  {
    hide Inv, LocalOk, LocksOk, WorkspacesOk, NamesUnique, HistoryOk, HoldsLifecycle, HeldLock;
    LocalOf(s, p);
    PartsOf(s);
    EraseLocal(s, t, p, n);
    StagingStep(s, t, p);
  }

  // ----- Steps that only rewrite one existing receipt -----

  lemma ReceiptStep(s: State, t: State, p: nat, o: string, r: Receipt)
    requires Inv(s) && p in s.procs && p in t.procs && s.lifecycle == Some(p) && o in s.disk.receipts && o in s.history
    requires t == SetReceipt(s, o, r).(procs := t.procs)
    requires t.procs.Keys == s.procs.Keys && forall q :: q != p && q in s.procs ==> t.procs[q] == s.procs[q]
    requires HoldsLifecycle(t.procs[p]) && HoldsLifecycle(s.procs[p]) && HeldLock(t.procs[p].pc) == HeldLock(s.procs[p].pc)
    requires r.ResetReceipt? ==> r.id in s.commits
    requires ReceiptOk(s.disk.ws, r, s.history[o])
    requires LocalOk(t, t.procs[p])
    ensures Inv(t)
  {
    hide Inv, LocksOk, WorkspacesOk, NamesUnique, TargetsOk, LocalOk, ReceiptOk, HistoryOk, HoldsLifecycle, HeldLock;
    PartsOf(s);
    StayLocks(s, t, p);
    WorkspacesStay(s, t);
    ReceiptsStay(s, t, o);
    Assemble(s, t, p);
  }

  /** Rewriting the phase of a job's own receipt leaves the job's other facts alone. */
  lemma PhaseKeeps(s: State, t: State, p: nat, phase: Phase, stage: Stage)
    requires Inv(s) && p in s.procs && s.procs[p].pc.Working? && s.procs[p].pc.job.ResetJob?
    requires phase == StagedPhase || phase == PublishedPhase
    requires s.procs[p].pc.job.op in s.disk.receipts
    requires var pc := s.procs[p].pc;
      t == Goto(SetPhase(s, pc.job.op, phase), p, Working(stage, pc.job, pc.uuid)) &&
      ((pc.stage == Filled && stage == Staged) || (pc.stage == Published && stage == Recorded))
    ensures Inv(t)
  {
    hide Inv, LocksOk;
    var pc := s.procs[p].pc;
    var o := pc.job.op;
    LocalOf(s, p);
    ReceiptOf(s, o);
    ReceiptStep(s, t, p, o, t.disk.receipts[o]);
  }

  lemma NotesKeep(s: State, t: State, p: nat)
    requires Inv(s) && p in s.procs && (DoNoteStaged(s, p) == Some(t) || DoNotePublished(s, p) == Some(t))
    ensures Inv(t)
  {
    hide Inv;
    if DoNoteStaged(s, p) == Some(t) {
      PhaseKeeps(s, t, p, StagedPhase, Staged);
    } else {
      PhaseKeeps(s, t, p, PublishedPhase, Recorded);
    }
  }

  lemma NoteFailedKeeps(s: State, t: State, p: nat)
    requires Inv(s) && p in s.procs && DoNoteFailed(s, p) == Some(t)
    ensures Inv(t)
  {
    hide Inv;
    var o := s.procs[p].pc.op;
    LocalOf(s, p);
    ReceiptOf(s, o);
    ReceiptStep(s, t, p, o, t.disk.receipts[o]);
  }

  lemma CompletedKeeps(s: State, t: State, p: nat)
    requires Inv(s) && p in s.procs && DoNoteCompleted(s, p) == Some(t)
    ensures Inv(t)
  {
    hide Inv, LocalOk, ReceiptOk, DoNoteCompleted;
    LocalOf(s, p);
    CompletedShape(s, t, p);
    var o := s.procs[p].pc.job.op;
    ReceiptStep(s, t, p, o, t.disk.receipts[o]);
  }

  lemma CompletedShape(s: State, t: State, p: nat)
    requires Inv(s) && p in s.procs && DoNoteCompleted(s, p) == Some(t)
    ensures s.procs[p].pc.Working? && var j := s.procs[p].pc.job;
      s.lifecycle == Some(p) && j.op in s.disk.receipts && j.op in s.history &&
      var r := s.disk.receipts[j.op].(phase := Completed);
      t == Goto(SetReceipt(s, j.op, r), p, LeaveFrom(JobHeld(j))) && LocalOk(t, t.procs[p]) &&
      ReceiptOk(s.disk.ws, r, s.history[j.op]) && (r.ResetReceipt? ==> r.id in s.commits)
    ensures HoldsLifecycle(t.procs[p]) && HoldsLifecycle(s.procs[p]) && HeldLock(t.procs[p].pc) == HeldLock(s.procs[p].pc)
  {
    hide Inv, IsDigest, IsWorkspaceName, IsBlank, CreateMatches;
    var j := s.procs[p].pc.job;
    LocalOf(s, p);
    ReceiptOf(s, j.op);
    if j.CreateJob? { WorkspaceOf(s, j.id); }
  }

  // ----- Recovery's verdicts -----

  /** At most one workspace can match a create receipt, because names are unique. */
  lemma AtMostOneMatch(s: State, name: string, lock: string, base: string)
    requires NamesUnique(s.disk.ws)
    ensures |CreateMatches(s.disk.ws, name, lock, base)| <= 1
  {
    var ids := CreateMatches(s.disk.ws, name, lock, base);
    if ids != {} {
      var d :| d in ids;
      forall e | e in ids ensures e == d {
        assert NameOf(s.disk.ws[e]) == NameOf(s.disk.ws[d]);
      }
      assert ids == {d};
    }
  }

  /** What recovery decides for any unfinished receipt, in terms of what is published. */
  lemma VerdictInFull(s: State, o: string)
    requires Inv(s) && o in s.disk.receipts && !Terminal(s.disk.receipts[o])
    ensures var r := s.disk.receipts[o]; r.CreateReceipt? ==> (VerdictFor(s.disk.ws, r) ==
      if r.name == "" then Raise else if CreateMatches(s.disk.ws, r.name, r.lock, r.base) != {} then Commit else Abort)
    ensures var r := s.disk.receipts[o]; r.ResetReceipt? ==> (VerdictFor(s.disk.ws, r) ==
      if r.id !in s.disk.ws then Raise else
        var g := s.disk.ws[r.id].metaFile.meta.generation;
        if g == r.after then Commit else if g == r.before then Abort else Raise)
  {
    hide Inv, WorkspacesOk, PoolsOk, Open, NamesUnique, IsDigest;
    var r := s.disk.receipts[o];
    PartsOf(s);
    ReceiptOf(s, o);
    match r
    case CreateReceipt(name, lock, base, _, _) =>
      AtMostOneMatch(s, name, lock, base);
    case ResetReceipt(id, _, _, _, _) =>
      OpenById(s, id);
  }

  /** What recovery decides for an unfinished receipt nobody disturbed. */
  lemma VerdictExact(s: State, o: string)
    requires Inv(s)
    requires o in s.disk.receipts && o in s.history && !Terminal(s.disk.receipts[o]) && !s.history[o].disturbed
    ensures VerdictFor(s.disk.ws, s.disk.receipts[o]) ==
      if s.disk.receipts[o].CreateReceipt? && s.disk.receipts[o].name == "" then Raise
      else if s.history[o].committed || s.history[o].taken then Commit else Abort
  {
    hide Inv, VerdictFor, CreateMatches, IsDigest;
    ReceiptOf(s, o);
    VerdictInFull(s, o);
  }

  /** A verdict, once written, agrees with what happened unless something disturbed it. */
  lemma VerdictWritten(s: State, o: string)
    requires Inv(s) && o in s.disk.receipts && o in s.history && !Terminal(s.disk.receipts[o])
    ensures var r := s.disk.receipts[o];
      (VerdictFor(s.disk.ws, r) == Commit ==> ReceiptOk(s.disk.ws, r.(phase := Completed, recovered := true), s.history[o])) &&
      (VerdictFor(s.disk.ws, r) == Abort ==> ReceiptOk(s.disk.ws, r.(phase := Failed, recovered := true), s.history[o]))
  {
    hide Inv, VerdictFor;
    ReceiptOf(s, o);
    if !s.history[o].disturbed { VerdictExact(s, o); }
  }

  /** The receipts recovery still has to visit after deciding one. */
  lemma StillWithin(d: Disk, e: Disk, ops: set<string>, o: string)
    requires UnfinishedWithin(d, ops) && o in d.receipts && o in e.receipts
    requires e == d.(receipts := d.receipts[o := e.receipts[o]]) && Terminal(e.receipts[o])
    ensures UnfinishedWithin(e, ops - {o})
  {
    forall i | i in e.receipts && !Terminal(e.receipts[i]) ensures i in ops - {o} {
      assert i != o && e.receipts[i] == d.receipts[i];
    }
  }

  lemma ReconcileLocal(s: State, t: State, p: nat, o: string)
    requires p in s.procs && LocalOk(s, s.procs[p]) && DoReconcile(s, p, o) == Some(t)
    ensures LocalOk(t, t.procs[p])
  {
    hide VerdictFor, LocalOk, UnfinishedWithin, DoReconcile;
    ReconcileShape(s, t, p, o);
    ReconcilingNeeds(s, p);
    if t.procs[p].pc.LeavingLife? {
      LeavingNeedsNothing(t, p);
    } else {
      StillWithin(s.disk, t.disk, s.procs[p].pc.ops, o);
      ReconcilingNeeds(t, p);
    }
  }

  /** One decision either ends the recovery or leaves its receipt finished and the others to be visited. */
  lemma ReconcileShape(s: State, t: State, p: nat, o: string)
    requires p in s.procs && DoReconcile(s, p, o) == Some(t)
    ensures s.procs[p].pc.Reconciling? && p in t.procs && t.procs[p].op == s.procs[p].op && o in s.disk.receipts && o in t.disk.receipts
    ensures t.disk == s.disk.(receipts := s.disk.receipts[o := t.disk.receipts[o]])
    ensures t.procs[p].pc.LeavingLife? ||
      (Terminal(t.disk.receipts[o]) && t.procs[p].pc == Reconciling(s.procs[p].pc.ops - {o}))
  {
    hide DoReconcile, VerdictFor, Terminal;
    var r := Reconciled(s, t, p, o);
    assert s.disk.receipts == s.disk.receipts[o := s.disk.receipts[o]];
  }

  /** The three outcomes of a decision: it raises, the receipt was finished already, or it is finished now. */
  lemma Reconciled(s: State, t: State, p: nat, o: string) returns (r: Receipt)
    requires p in s.procs && DoReconcile(s, p, o) == Some(t)
    ensures s.procs[p].pc.Reconciling? && o in s.disk.receipts
    ensures var rest := Reconciling(s.procs[p].pc.ops - {o});
      t == Goto(s, p, LeavingLife) || (Terminal(s.disk.receipts[o]) && t == Goto(s, p, rest)) ||
      (Terminal(r) && t == Goto(SetReceipt(s, o, r), p, rest))
  {
    hide VerdictFor, Goto, SetReceipt;
    r := s.disk.receipts[o];
    if !Terminal(r) { r := r.(phase := if VerdictFor(s.disk.ws, r) == Commit then Completed else Failed, recovered := true); }
  }

  lemma ReconcilingNeeds(s: State, p: nat)
    requires p in s.procs && s.procs[p].pc.Reconciling?
    ensures LocalOk(s, s.procs[p]) <==>
      s.procs[p].op.Recover? && NothingSweepable(s.disk) && UnfinishedWithin(s.disk, s.procs[p].pc.ops) &&
      s.procs[p].pc.ops <= s.disk.receipts.Keys
  {
    hide NothingSweepable, UnfinishedWithin;
  }

  lemma LeavingNeedsNothing(s: State, p: nat)
    requires p in s.procs && s.procs[p].pc.LeavingLife?
    ensures LocalOk(s, s.procs[p])
  {
  }

  lemma ReconcileKeeps(s: State, t: State, p: nat, o: string)
    requires Inv(s) && p in s.procs && DoReconcile(s, p, o) == Some(t)
    ensures Inv(t)
  {
    hide Inv, VerdictFor, LocalOk, ReceiptOk, HoldsLifecycle, HeldLock;
    var r := s.disk.receipts[o];
    LocalOf(s, p);
    ReceiptOf(s, o);
    ReconcileLocal(s, t, p, o);
    ReconcileHolds(s, t, p, o);
    if Terminal(r) || VerdictFor(s.disk.ws, r) == Raise {
      Moves(s, t, p, t.procs[p].pc);
    } else {
      VerdictWritten(s, o);
      ReceiptStep(s, t, p, o, t.disk.receipts[o]);
    }
  }

  lemma ReconcileHolds(s: State, t: State, p: nat, o: string)
    requires p in s.procs && DoReconcile(s, p, o) == Some(t)
    ensures HoldsLifecycle(t.procs[p]) && HoldsLifecycle(s.procs[p]) && HeldLock(t.procs[p].pc) == HeldLock(s.procs[p].pc)
  {
    hide VerdictFor;
  }

  // ----- Steps that start a receipt -----

  lemma NoteStep(s: State, t: State, p: nat, o: string, r: Receipt, h: History)
    requires Inv(s) && p in s.procs && p in t.procs && s.lifecycle == Some(p) && Unused(s, o)
    requires t == SetReceipt(Claim(s, o), o, r).(history := s.history[o := h], procs := t.procs)
    requires t.procs.Keys == s.procs.Keys && forall q :: q != p && q in s.procs ==> t.procs[q] == s.procs[q]
    requires HoldsLifecycle(t.procs[p]) && HoldsLifecycle(s.procs[p]) && HeldLock(t.procs[p].pc) == HeldLock(s.procs[p].pc)
    requires r.ResetReceipt? ==> r.id in s.commits
    requires ReceiptOk(s.disk.ws, r, h)
    requires LocalOk(t, t.procs[p])
    ensures Inv(t)
  {
    hide Inv, LocksOk, WorkspacesOk, NamesUnique, TargetsOk, LocalOk, ReceiptOk, HistoryOk, HoldsLifecycle, HeldLock, PoolsOk, IsBlank;
    PartsOf(s);
    StayLocks(s, t, p);
    NotePools(s, t, o, r, h);
    WorkspacesStay(s, t);
    ReceiptsStay(s, t, o);
    Assemble(s, t, p);
  }

  lemma NotePools(s: State, t: State, o: string, r: Receipt, h: History)
    requires PoolsOk(s) && Unused(s, o) && (r.ResetReceipt? ==> r.id in s.commits)
    requires t == SetReceipt(Claim(s, o), o, r).(history := s.history[o := h], procs := t.procs)
    ensures PoolsOk(t)
  {
    hide IsBlank;
  }

  lemma NoteCreateKeeps(s: State, t: State, p: nat, u: string)
    requires Inv(s) && p in s.procs && DoNoteCreate(s, p, u) == Some(t)
    ensures Inv(t)
  {
    hide Inv;
    LocalOf(s, p);
    NoteStep(s, t, p, u, t.disk.receipts[u], t.history[u]);
  }

  lemma NoteResetKeeps(s: State, t: State, p: nat, u: string)
    requires Inv(s) && p in s.procs && DoNoteReset(s, p, u) == Some(t)
    ensures Inv(t)
  {
    hide Inv;
    LocalOf(s, p);
    WorkspaceOf(s, s.procs[p].pc.cur.id);
    NoteStep(s, t, p, u, t.disk.receipts[u], t.history[u]);
  }

  // ----- Steps that change targets/ -----

  lemma TargetStep(s: State, t: State, p: nat)
    requires Inv(s) && Frame(s, t, p) && LocksOk(t)
    requires t.disk == s.disk.(targets := t.disk.targets) && t.history == s.history && t.commits == s.commits
    requires t.used == s.used && t.names == s.names
    requires TargetsOk(t.disk.targets)
    requires forall id :: id in s.disk.ws ==> SeedStands(t, s.disk.ws[id])
    requires p in t.procs ==> LocalOk(t, t.procs[p])
    ensures Inv(t)
  {
    hide Inv, LocksOk, NamesUnique, TargetsOk, LocalOk, ReceiptsOk, Frame;
    PartsOf(s);
    forall id | id in t.disk.ws ensures WorkspaceOk(t, id) { assert WorkspaceOk(s, id); }
    Assemble(s, t, p);
  }

  lemma Reads(s: State)
    requires WorkspacesOk(s)
    ensures forall id :: id in s.disk.ws ==> SeedStands(s, s.disk.ws[id])
  {
    forall id | id in s.disk.ws ensures SeedStands(s, s.disk.ws[id]) {
      assert WorkspaceOk(s, id);
    }
  }

  lemma EnvironmentKeeps(s: State, t: State, d: string, base: string)
    requires Inv(s) && (DoAddTarget(s, d) == Some(t) || DoBuildSeed(s, d, base) == Some(t))
    ensures Inv(t)
  {
    hide Inv, WorkspacesOk, HoldsLifecycle, HeldLock, NamesUnique, HistoryOk, PoolsOk, LocalOk;
    PartsOf(s);
    Reads(s);
    var nobody := NotRunning(s);
    TargetStep(s, t, nobody);
  }

  lemma NotRunning(s: State) returns (p: nat)
    ensures p !in s.procs
  {
    p := Above(s.procs.Keys);
  }

  lemma Above(pids: set<nat>) returns (bound: nat)
    ensures forall p :: p in pids ==> p < bound
  {
    if pids == {} {
      bound := 0;
    } else {
      var p :| p in pids;
      var rest := Above(pids - {p});
      bound := if p < rest then rest else p + 1;
      forall q | q in pids ensures q < bound { assert q == p || q in pids - {p}; }
    }
  }

  lemma DeleteKeeps(s: State, t: State, p: nat)
    requires Inv(s) && p in s.procs && (DoDeleteSeed(s, p) == Some(t) || DoDeleteTarget(s, p) == Some(t))
    ensures Inv(t)
  {
    hide Inv, WorkspacesOk, LocksOk, NamesUnique, HistoryOk, PoolsOk, IsDigest;
    var digest := s.procs[p].op.digest;
    LocalOf(s, p);
    PartsOf(s);
    Reads(s);
    forall id | id in s.disk.ws ensures SeedStands(t, s.disk.ws[id]) {
      WorkspaceOf(s, id);
      assert DependentLabel(s.disk.ws[id], digest) == None;
    }
    StayLocks(s, t, p);
    TargetStep(s, t, p);
  }
}
