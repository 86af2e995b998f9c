/** Lock ordering rules out deadlock: some unfinished operation can always take its next step. */
module LifecycleProgress {
  import opened Common
  import opened Workspace
  import opened Lifecycle
  import opened LifecycleInvariant
  import opened LifecycleSteps
  import opened LifecycleTheorems
  import opened LifecycleRecovery

  // ----- Progress -----

  predicate WantsLifecycle(q: Proc) {
    (q.pc == Begin && (q.op.Create? || q.op.Reset? || q.op.Remove? || q.op.Recover?)) || q.pc == Planned
  }

  predicate Waiting(q: Proc) { WantsLifecycle(q) || q.pc.Opened? }

  /** The step an operation takes when nothing fails and it need not wait. */
  ghost function Proper(s: State, q: Proc, u: string): Event {
    match q.pc
    case Begin => if q.op.RemoveBase? then Plan else if WantsLifecycle(q) then TakeLifecycle else OpenStep
    case Locked =>
      (match q.op case Create(_, _) => Identify case RemoveBase(_) => Replan case Recover => ListStaging case _ => OpenStep)
    case Opened(_) => TakeWorkspace
    case Entered(_) => Reopen
    case Current(use, _, _) =>
      (match use
       case Fetched => (match q.op case Run(_) => RunCommand case Build(_) => BuildCommand case Reset(_) => Bind case _ => Unpublish(u))
       case Ran => CheckGeneration
       case Advancing => Advance
       case Bound => NoteReset(u))
    case Identified(_, _) => NoteCreate(u)
    case Noted(_, _, _) => CheckNew(u)
    case Working(stage, j, v) =>
      (match stage
       case Ready => MakeAttempt(u)
       case Attempted => MakeRoot
       case Rooted => Extract
       case Filled => if j.CreateJob? then CreateMeta else NoteStaged
       case Staged => CreateMeta
       case Tearing => WriteMeta
       case Sealed => if j.CreateJob? then Publish else Exchange
       case Published => if j.CreateJob? then NoteCompleted else NotePublished
       case Recorded => Erase(Attempt(v))
       case Erased => NoteCompleted)
    case Erasing(_, n) => Erase(n)
    case Failing(_, _) => NoteFailed
    case Planned => TakeLifecycle
    case Cleared => DeleteTarget
    case Sweeping(names) => if names == {} then ListReceipts else Erase(Pick(names))
    case Reconciling(ops) => if ops == {} then Finish else Reconcile(Pick(ops))
    case Recovered => DropLifecycle
    case LeavingWs(_) => DropWorkspace
    case LeavingLife => DropLifecycle
  }

  ghost function Pick<T>(s: set<T>): (x: T)
    requires s != {}
    ensures x in s
  {
    var x :| x in s; x
  }

  /** The step of a process that waits for nothing, outside an extraction. */
  lemma ProperOutside(s: State, p: nat, u: string)
    requires p in s.procs && LocalOk(s, s.procs[p]) && Unused(s, u)
    requires !Waiting(s.procs[p]) && !s.procs[p].pc.Working?
    ensures OwnStep(s, p, Proper(s, s.procs[p], u)).Some?
  {
    hide Open, CreateMatches, VerdictFor, IsDigest, IsBlank, IsWorkspaceName, IdAndNameFree, GenerationUnchanged, Concerns, WorkOk, Load, DependentLabel;
  }

  lemma ProperInside(s: State, p: nat, u: string)
    requires p in s.procs && LocalOk(s, s.procs[p]) && Unused(s, u) && s.procs[p].pc.Working?
    ensures OwnStep(s, p, Proper(s, s.procs[p], u)).Some?
  {
    hide Open, CreateMatches, VerdictFor, IsDigest, IsBlank, IsWorkspaceName, IdAndNameFree, GenerationUnchanged, Concerns, Load, DependentLabel, JobMeta;
  }

  /** An operation that is not waiting for a lock can always take its proper step. */
  lemma NotWaitingSteps(s: State, p: nat, u: string)
    requires Inv(s) && p in s.procs && Unused(s, u) && !Waiting(s.procs[p])
    ensures var e := Proper(s, s.procs[p], u); Next(s, p, e).Some? && !e.Fail? && !e.Kill?
  {
    hide Inv, LocalOk, OwnStep;
    LocalOf(s, p);
    if s.procs[p].pc.Working? { ProperInside(s, p, u); } else { ProperOutside(s, p, u); }
  }

  lemma UnusedExists(s: State) returns (u: string)
    ensures Unused(s, u)
  {
    u := LongerThanAll(s.used + s.names);
    assert 'f' in u;
  }

  /**
   * No deadlock: while any operation is unfinished, some operation can take a
   * proper step. The lifecycle lock is always taken before a workspace lock.
   */
  lemma SomeOperationCanStep(run: seq<Act>, s: State, p: nat) returns (q: nat, e: Event)
    requires After(Empty(), run) == Some(s) && p in s.procs
    ensures q in s.procs && Next(s, q, e).Some? && !e.Fail? && !e.Kill? && !e.Spawn? && !e.AddTarget? && !e.BuildSeed?
  {
    hide Inv, After, LocalOk, HoldsLifecycle, HeldLock, Proper, OwnStep;
    RunKeeps(run, s);
    PartsOf(s);
    var u := UnusedExists(s);
    // Follow the wait: p may wait for the lifecycle holder, which may wait for one workspace holder.
    q := p;
    if WantsLifecycle(s.procs[q]) && s.lifecycle.Some? { q := s.lifecycle.value; HolderIsPastIt(s, q); }
    if s.procs[q].pc.Opened? && s.procs[q].pc.id in s.wlocks { q := s.wlocks[s.procs[q].pc.id]; InsideWaitsForNothing(s, q); }
    e := Proper(s, s.procs[q], u);
    if Waiting(s.procs[q]) {
      LockIsFree(s, q, u);
    } else {
      NotWaitingSteps(s, q, u);
    }
    ProperIsOwn(s, s.procs[q], u);
  }

  lemma ProperIsOwn(s: State, q: Proc, u: string)
    ensures var e := Proper(s, q, u); !e.Fail? && !e.Kill? && !e.Spawn? && !e.AddTarget? && !e.BuildSeed?
  {
  }

  lemma HolderIsPastIt(s: State, q: nat)
    requires q in s.procs && HoldsLifecycle(s.procs[q])
    ensures !WantsLifecycle(s.procs[q])
  {
  }

  lemma InsideWaitsForNothing(s: State, q: nat)
    requires q in s.procs && HeldLock(s.procs[q].pc).Some?
    ensures !Waiting(s.procs[q])
  {
  }

  lemma LockIsFree(s: State, q: nat, u: string)
    requires q in s.procs && Waiting(s.procs[q])
    requires WantsLifecycle(s.procs[q]) ==> s.lifecycle == None
    requires s.procs[q].pc.Opened? ==> s.procs[q].pc.id !in s.wlocks
    ensures Next(s, q, Proper(s, s.procs[q], u)).Some?
  {
  }
}
