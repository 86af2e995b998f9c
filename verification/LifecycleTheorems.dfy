/** What holds in every state that any interleaving of operations and kills can reach. */
module LifecycleTheorems {
  import opened Common
  import opened Workspace
  import opened Lifecycle
  import opened LifecycleInvariant
  import opened LifecycleSteps
  import opened LifecycleCommits
  import opened LifecycleShapes

  // ----- The invariant holds along every run -----

  lemma EmptyOk()
    ensures Inv(Empty())
  {
  }

  lemma ControlKeeps(s: State, p: nat, e: Event, t: State)
    requires Inv(s) && p in s.procs && OwnStep(s, p, e) == Some(t) && KindOf(e) == Control
    ensures Inv(t)
  {
    hide Inv, DoKill, DoTakeLifecycle, DoDropLifecycle, DoOpen, DoTakeWorkspace, DoReopen, DoDropWorkspace, DoCommand,
      DoCheckGeneration, DoIdentify, DoCheckNew, DoBind, DoFail, DoPlan, DoReplan, DoListStaging, DoListReceipts, DoFinish;
    match e
    case Kill => KillKeeps(s, t, p);
    case TakeLifecycle => TakeLifecycleKeeps(s, t, p);
    case DropLifecycle => DropLifecycleKeeps(s, t, p);
    case OpenStep => OpenKeeps(s, t, p);
    case TakeWorkspace => TakeWorkspaceKeeps(s, t, p);
    case Reopen => ReopenKeeps(s, t, p);
    case DropWorkspace => DropWorkspaceKeeps(s, t, p);
    case RunCommand => CommandKeeps(s, t, p, false);
    case BuildCommand => CommandKeeps(s, t, p, true);
    case CheckGeneration => CheckGenerationKeeps(s, t, p);
    case Identify => IdentifyKeeps(s, t, p);
    case CheckNew(u) => CheckNewKeeps(s, t, p, u);
    case Bind => BindKeeps(s, t, p);
    case Fail => FailKeeps(s, t, p);
    case Plan => PlanKeeps(s, t, p);
    case Replan => PlanKeeps(s, t, p);
    case ListStaging => RecoverListsKeep(s, t, p);
    case ListReceipts => RecoverListsKeep(s, t, p);
    case Finish => RecoverListsKeep(s, t, p);
    case _ =>
  }

  lemma StagesKeep(s: State, p: nat, e: Event, t: State)
    requires Inv(s) && p in s.procs && OwnStep(s, p, e) == Some(t) && KindOf(e) == Stages
    ensures Inv(t)
  {
    hide Inv, DoMakeAttempt, DoMakeRoot, DoExtract, DoCreateMeta, DoWriteMeta, DoShrink, DoErase;
    match e
    case MakeAttempt(u) => MakeAttemptKeeps(s, t, p, u);
    case MakeRoot => ExtractionKeeps(s, t, p);
    case Extract => ExtractionKeeps(s, t, p);
    case CreateMeta => ExtractionKeeps(s, t, p);
    case WriteMeta => ExtractionKeeps(s, t, p);
    case Shrink(n, tree) => ShrinkKeeps(s, t, p, n, tree);
    case Erase(n) => EraseKeeps(s, t, p, n);
    case _ =>
  }

  lemma NotesKept(s: State, p: nat, e: Event, t: State)
    requires Inv(s) && p in s.procs && OwnStep(s, p, e) == Some(t) && KindOf(e) == Notes
    ensures Inv(t)
  {
    hide Inv, DoNoteCreate, DoNoteReset, DoNoteStaged, DoNotePublished, DoNoteCompleted, DoNoteFailed, DoReconcile;
    match e
    case NoteCreate(u) => NoteCreateKeeps(s, t, p, u);
    case NoteReset(u) => NoteResetKeeps(s, t, p, u);
    case NoteStaged => NotesKeep(s, t, p);
    case NotePublished => NotesKeep(s, t, p);
    case NoteCompleted => CompletedKeeps(s, t, p);
    case NoteFailed => NoteFailedKeeps(s, t, p);
    case Reconcile(o) => ReconcileKeeps(s, t, p, o);
    case _ =>
  }

  lemma BasesKeep(s: State, p: nat, e: Event, t: State)
    requires Inv(s) && p in s.procs && OwnStep(s, p, e) == Some(t) && KindOf(e) == Bases
    ensures Inv(t)
  {
    hide Inv, DoDeleteSeed, DoDeleteTarget;
    match e
    case DeleteSeed => DeleteKeeps(s, t, p);
    case DeleteTarget => DeleteKeeps(s, t, p);
    case _ =>
  }

  lemma MovesKeep(s: State, p: nat, e: Event, t: State)
    requires Inv(s) && p in s.procs && OwnStep(s, p, e) == Some(t) && KindOf(e) == Moves
    ensures Inv(t)
  {
    hide Inv, DoAdvance, DoPublish, DoExchange, DoUnpublish;
    match e
    case Advance => AdvanceKeeps(s, t, p);
    case Publish => PublishKeeps(s, t, p);
    case Exchange => ExchangeKeeps(s, t, p);
    case Unpublish(u) => UnpublishKeeps(s, t, p, u);
    case _ =>
  }

  lemma StepKeeps(s: State, p: nat, e: Event, t: State)
    requires Inv(s) && Next(s, p, e) == Some(t)
    ensures Inv(t)
  {
    hide Inv, OwnStep, KindOf, DoSpawn, DoAddTarget, DoBuildSeed;
    if e.Spawn? {
      SpawnKeeps(s, t, p, e.op);
    } else if e.AddTarget? {
      EnvironmentKeeps(s, t, e.digest, "");
    } else if e.BuildSeed? {
      EnvironmentKeeps(s, t, e.digest, e.base);
    } else {
      match KindOf(e)
      case Control => ControlKeeps(s, p, e, t);
      case Stages => StagesKeep(s, p, e, t);
      case Notes => NotesKept(s, p, e, t);
      case Bases => BasesKeep(s, p, e, t);
      case Moves => MovesKeep(s, p, e, t);
    }
  }

  lemma {:induction false} RunKeeps(run: seq<Act>, s: State)
    requires After(Empty(), run) == Some(s)
    ensures Inv(s)
  {
    hide Inv, Next;
    if run == [] {
      EmptyOk();
    } else {
      var before := After(Empty(), run[..|run| - 1]).value;
      RunKeeps(run[..|run| - 1], before);
      var act := run[|run| - 1];
      StepKeeps(before, act.pid, act.event, s);
    }
  }

  // ----- Published workspaces -----

  /** Every directory under `workspaces/` loads, was fully extracted, and names its own id. */
  lemma WorkspacesAlwaysComplete(run: seq<Act>, s: State, id: string)
    requires After(Empty(), run) == Some(s) && id in s.disk.ws
    ensures Complete(id, s.disk.ws[id])
    ensures Load(id, s.disk.ws[id]).value.id == id && Load(id, s.disk.ws[id]).value.generation >= 0
    ensures var m := Load(id, s.disk.ws[id]).value; SeedOf(s, m.lock) == Some(Seed(m.lock, m.base))
  {
    hide Inv, After;
    RunKeeps(run, s);
    WorkspaceOf(s, id);
  }

  /** A reset is never refused because its workspace and its seed no longer fit. */
  lemma BindingAlwaysHolds(run: seq<Act>, s: State, p: nat, t: State)
    requires After(Empty(), run) == Some(s) && p in s.procs && DoBind(s, p) == Some(t)
    ensures t.procs[p].pc == Current(Bound, s.procs[p].pc.id, s.procs[p].pc.cur)
  {
    hide Inv, After, IsDigest;
    RunKeeps(run, s);
    LocalOf(s, p);
    WorkspaceOf(s, s.procs[p].pc.id);
  }

  /**
   * Names are unique, so opening never reports ambiguity, and corruption for nothing but `.` and `..`, which are the
   * directory of all workspaces and its parent.
   */
  lemma OpeningIsUnambiguous(run: seq<Act>, s: State, made: bool, selector: string)
    requires After(Empty(), run) == Some(s) && (made || s.disk.ws == map[])
    ensures forall i, j :: i in s.disk.ws && j in s.disk.ws && MetaName(s.disk.ws[i]) == MetaName(s.disk.ws[j]) ==> i == j
    ensures !OpenIn(made, s.disk.ws, selector).Ambiguous?
    ensures OpenIn(made, s.disk.ws, selector).Corrupt? <==> made && IsDotted(selector)
    ensures OpenIn(made, s.disk.ws, selector) == NotFound <==>
      (IsBlank(selector) || !made || (!IsDotted(selector) && selector !in s.disk.ws && IdsNamed(s.disk.ws, selector) == {}))
  {
    hide Inv, After, IsWorkspaceName, IsSpace;
    RunKeeps(run, s);
    PartsOf(s);
    OpenFinds(s, selector);
    forall i, j | i in s.disk.ws && j in s.disk.ws && MetaName(s.disk.ws[i]) == MetaName(s.disk.ws[j])
      ensures i == j
    {
      WorkspaceOf(s, i);
      WorkspaceOf(s, j);
      assert NameOf(s.disk.ws[i]) == NameOf(s.disk.ws[j]);
    }
  }

  /** A published workspace is opened by its name, unless that name is a single dot. */
  lemma NameOpensIff(run: seq<Act>, s: State, id: string)
    requires After(Empty(), run) == Some(s) && id in s.disk.ws
    ensures s.disk.ws[id].metaFile.Written?
    ensures var m := s.disk.ws[id].metaFile.meta; Open(s.disk.ws, m.name) == Found(m) <==> m.name != "."
  {
    hide Inv, After, IsDigest, IsSpace;
    RunKeeps(run, s);
    WorkspaceOf(s, id);
    var ws, m := s.disk.ws, s.disk.ws[id].metaFile.meta;
    PartsOf(s);
    DotsAreNoName();
    if m.name in ws { WorkspaceOf(s, m.name); }
    forall d | d in IdsNamed(ws, m.name) ensures d == id { assert NameOf(ws[d]) == NameOf(ws[id]); }
    assert id in IdsNamed(ws, m.name);
    assert IdsNamed(ws, m.name) == {id};
  }

  lemma DotsAreNoName()
    ensures !IsWorkspaceName("..")
  {
    var dots := "..";
    assert dots[0] == '.' && dots[0 + 1] == '.';
  }

  /** The steps that commit a new generation of a workspace. */
  function CommitsOn(s: State, p: nat, e: Event): Option<string> {
    if p !in s.procs then None
    else if e.Advance? && s.procs[p].pc.Current? then Some(s.procs[p].pc.cur.id)
    else if e.Exchange? && s.procs[p].pc.Working? && s.procs[p].pc.job.ResetJob? then Some(s.procs[p].pc.job.current.id)
    else None
  }

  /** Only an advance or an exchange touches a published workspace, and never its identity. */
  lemma StepOnWorkspace(s: State, p: nat, e: Event, t: State, id: string)
    requires Inv(s) && Next(s, p, e) == Some(t) && id in s.disk.ws && id in t.disk.ws
    ensures t.disk.ws[id].metaFile.Written? && s.disk.ws[id].metaFile.Written?
    ensures var m := s.disk.ws[id].metaFile.meta;
      t.disk.ws[id].metaFile.meta == if CommitsOn(s, p, e) == Some(id) then m.(generation := m.generation + 1) else m
  {
    hide Inv, IsDigest, IsBlank, IsWorkspaceName, LocalOk, Next, DoAdvance, DoExchange;
    WorkspaceOf(s, id);
    if e.Advance? {
      NextMove(s, p, e, t);
      AdvanceShape(s, t, p);
    } else if e.Exchange? {
      NextMove(s, p, e, t);
      ExchangeShape(s, t, p);
    } else {
      UntouchedElsewhere(s, p, e, t, id);
    }
  }

  /** A step of the kind that moves workspaces is one of the four. */
  lemma NextMove(s: State, p: nat, e: Event, t: State)
    requires Next(s, p, e) == Some(t) && KindOf(e) == Moves
    ensures p in s.procs
    ensures e.Advance? ==> DoAdvance(s, p) == Some(t)
    ensures e.Publish? ==> DoPublish(s, p) == Some(t)
    ensures e.Exchange? ==> DoExchange(s, p) == Some(t)
    ensures e.Unpublish? ==> DoUnpublish(s, p, e.uuid) == Some(t)
    ensures e.Advance? || e.Publish? || e.Exchange? || e.Unpublish?
  {
    hide OwnStep, Next, DoAdvance, DoPublish, DoExchange, DoUnpublish;
    StepShape(s, p, e, t);
    MoveShape(s, p, e, t);
  }

  lemma UntouchedElsewhere(s: State, p: nat, e: Event, t: State, id: string)
    requires Next(s, p, e) == Some(t) && id in s.disk.ws && id in t.disk.ws && !e.Advance? && !e.Exchange?
    ensures t.disk.ws[id] == s.disk.ws[id]
  {
    hide Next, KindOf, OwnStep;
    StepShape(s, p, e, t);
    if KindOf(e) == Moves { NextMove(s, p, e, t); }
  }

  /** A removed id never comes back, because ids are generated fresh. */
  lemma GoneStaysGone(s: State, p: nat, e: Event, t: State, id: string)
    requires Inv(s) && Next(s, p, e) == Some(t) && id in s.commits && id !in s.disk.ws
    ensures id in t.commits && id !in t.disk.ws
  {
    hide Inv, Next, KindOf, DoAdvance, DoPublish, DoExchange, DoUnpublish, Complete, NameFree, IsWorkspaceName, Disturb;
    StepShape(s, p, e, t);
    if KindOf(e) == Moves {
      NextMove(s, p, e, t);
      match e
      case Advance => AdvanceShape(s, t, p);
      case Exchange => ExchangeShape(s, t, p);
      case Publish => PublishShape(s, t, p);
      case Unpublish(u) => UnpublishShape(s, t, p, u);
      case _ =>
    }
  }

  /** How often a run from `s` committed a new generation of one workspace. */
  ghost function CommitsInRun(s: State, run: seq<Act>, id: string): nat {
    if run == [] then 0
    else
      var last := run[|run| - 1];
      var rest := run[..|run| - 1];
      CommitsInRun(s, rest, id) +
      if After(s, rest).Some? && CommitsOn(After(s, rest).value, last.pid, last.event) == Some(id) then 1 else 0
  }

  /** Two records of one workspace. */
  ghost predicate SameRecord(m: Meta, n: Meta, commits: nat) {
    n.id == m.id && n.name == m.name && n.lock == m.lock && n.base == m.base && n.generation == m.generation + commits
  }

  /**
   * Along every run, a workspace that is there at both ends was there throughout and kept its id, name, lock and base;
   * its generation grew by exactly the commits in between.
   */
  lemma IdentityNeverChanges(run: seq<Act>, s: State, more: seq<Act>, t: State, id: string)
    requires After(Empty(), run) == Some(s) && After(s, more) == Some(t) && id in s.disk.ws && id in t.disk.ws
    ensures s.disk.ws[id].metaFile.Written? && t.disk.ws[id].metaFile.Written?
    ensures SameRecord(s.disk.ws[id].metaFile.meta, t.disk.ws[id].metaFile.meta, CommitsInRun(s, more, id))
  {
    hide Inv, After, SameRecord;
    RunKeeps(run, s);
    WorkspaceOf(s, id);
    IdentityAlong(s, more, t, id);
  }

  lemma {:induction false} IdentityAlong(s: State, more: seq<Act>, t: State, id: string)
    requires Inv(s) && After(s, more) == Some(t) && id in s.disk.ws && s.disk.ws[id].metaFile.Written?
    ensures Inv(t) && id in t.commits
    ensures id in t.disk.ws ==> (t.disk.ws[id].metaFile.Written? &&
      SameRecord(s.disk.ws[id].metaFile.meta, t.disk.ws[id].metaFile.meta, CommitsInRun(s, more, id)))
  {
    hide Inv, Next, CommitsOn;
    if more == [] {
      WorkspaceOf(s, id);
    } else {
      var rest, act := more[..|more| - 1], more[|more| - 1];
      var before := After(s, rest).value;
      IdentityAlong(s, rest, before, id);
      StepKeeps(before, act.pid, act.event, t);
      if id !in before.disk.ws {
        GoneStaysGone(before, act.pid, act.event, t, id);
      } else {
        CountedStays(before, act.pid, act.event, t, id);
        if id in t.disk.ws { StepOnWorkspace(before, act.pid, act.event, t, id); }
      }
    }
  }

  lemma CountedStays(s: State, p: nat, e: Event, t: State, id: string)
    requires Inv(s) && Next(s, p, e) == Some(t) && id in s.commits
    ensures id in t.commits
  {
    hide Inv, Next, KindOf, DoAdvance, DoPublish, DoExchange, DoUnpublish;
    StepShape(s, p, e, t);
    if KindOf(e) == Moves {
      NextMove(s, p, e, t);
      match e
      case Advance => AdvanceShape(s, t, p);
      case Exchange => ExchangeShape(s, t, p);
      case Publish => PublishShape(s, t, p);
      case Unpublish(u) => UnpublishShape(s, t, p, u);
      case _ =>
    }
  }

  lemma CountStep(s: State, p: nat, e: Event, t: State, id: string)
    requires Inv(s) && Next(s, p, e) == Some(t)
    ensures CommitCount(t, id) == CommitCount(s, id) + if CommitsOn(s, p, e) == Some(id) then 1 else 0
  {
    hide Inv, Next, KindOf, OwnStep;
    StepShape(s, p, e, t);
    if KindOf(e) == Moves {
      hide DoAdvance, DoPublish, DoExchange, DoUnpublish;
      NextMove(s, p, e, t);
      match e
      case Advance => AdvanceShape(s, t, p);
      case Exchange => ExchangeShape(s, t, p);
      case Publish => PublishShape(s, t, p);
      case Unpublish(u) => UnpublishShape(s, t, p, u);
      case _ =>
    } else {
      OnlyMovesCommit(s, p, e);
    }
  }

  lemma OnlyMovesCommit(s: State, p: nat, e: Event)
    requires KindOf(e) != Moves
    ensures CommitsOn(s, p, e) == None
  {}

  /** No update is lost: a generation is exactly the number of commits since the creation. */
  lemma {:induction false} GenerationCountsCommits(run: seq<Act>, s: State)
    requires After(Empty(), run) == Some(s)
    ensures forall id :: CommitCount(s, id) == CommitsInRun(Empty(), run, id)
    ensures forall id :: id in s.disk.ws ==> s.disk.ws[id].metaFile.Written? && s.disk.ws[id].metaFile.meta.generation == CommitsInRun(Empty(), run, id)
  {
    hide Inv, Next, CommitsOn;
    if run != [] {
      var rest := run[..|run| - 1];
      var before := After(Empty(), rest).value;
      var act := run[|run| - 1];
      GenerationCountsCommits(rest, before);
      RunKeeps(rest, before);
      forall id ensures CommitCount(s, id) == CommitsInRun(Empty(), run, id) {
        CountStep(before, act.pid, act.event, s, id);
      }
    }
    RunKeeps(run, s);
    forall id | id in s.disk.ws ensures s.disk.ws[id].metaFile.Written? && s.disk.ws[id].metaFile.meta.generation == CommitsInRun(Empty(), run, id) {
      WorkspaceOf(s, id);
    }
  }

  /** The "generation changed while locked" error cannot happen. */
  lemma GenerationCheckAlwaysPasses(run: seq<Act>, s: State, p: nat)
    requires After(Empty(), run) == Some(s) && p in s.procs && Doing(s.procs[p].pc, Ran)
    ensures GenerationUnchanged(s.disk.ws, s.procs[p].pc.cur)
  {
    hide Inv, After, WorkspacesOk, PoolsOk, Open;
    RunKeeps(run, s);
    PartsOf(s);
    LocalOf(s, p);
    WorkspaceOf(s, s.procs[p].pc.id);
    OpenById(s, s.procs[p].pc.id);
  }

  /** At most one process is inside a workspace, and at most one inside the lifecycle lock. */
  lemma MutualExclusion(run: seq<Act>, s: State, p: nat, q: nat)
    requires After(Empty(), run) == Some(s) && p in s.procs && q in s.procs && p != q
    ensures !(HoldsLifecycle(s.procs[p]) && HoldsLifecycle(s.procs[q]))
    ensures HeldLock(s.procs[p].pc).Some? ==> HeldLock(s.procs[p].pc) != HeldLock(s.procs[q].pc)
  {
    hide Inv, After, LocalOk, HoldsLifecycle, HeldLock;
    RunKeeps(run, s);
    LocalOf(s, p);
    LocalOf(s, q);
  }

  /** A build moves locks only: it never changes anything on disk. */
  lemma BuildChangesNothing(run: seq<Act>, s: State, p: nat, e: Event, t: State)
    requires After(Empty(), run) == Some(s) && p in s.procs && s.procs[p].op.Build?
    requires Next(s, p, e) == Some(t) && !e.AddTarget? && !e.BuildSeed?
    ensures t.disk == s.disk
  {
    hide Inv, After, LocalOk, Next, KindOf, OwnStep;
    RunKeeps(run, s);
    LocalOf(s, p);
    StepShape(s, p, e, t);
    if !e.Spawn? {
      match KindOf(e)
      case Stages => StagesAllowed(s, p, e, t);
      case Notes => NotesAllowed(s, p, e, t);
      case Bases => BasesAllowed(s, p, e, t);
      case Moves => MovesAllowed(s, p, e, t);
      case _ =>
    } else {
      EnvironmentKinds();
    }
  }

  // ----- Which operations take which kinds of steps -----

  lemma StagesAllowed(s: State, p: nat, e: Event, t: State)
    requires p in s.procs && LocalOk(s, s.procs[p]) && OwnStep(s, p, e) == Some(t) && KindOf(e) == Stages
    ensures !s.procs[p].op.Build?
    ensures s.procs[p].op.Recover? ==> (e.Shrink? || e.Erase?) && s.procs[p].pc.Sweeping?
  {
    hide JobOk, JobDone, TreeIs, UnfinishedUncommitted, IdentityOk, NotedOk, CurOk, BaseUnused, SweepCovers, OnlySweepable;
  }

  lemma NotesAllowed(s: State, p: nat, e: Event, t: State)
    requires p in s.procs && LocalOk(s, s.procs[p]) && OwnStep(s, p, e) == Some(t) && KindOf(e) == Notes
    ensures !s.procs[p].op.Build?
    ensures s.procs[p].op.Recover? ==> e.Reconcile? && DoReconcile(s, p, e.receipt) == Some(t)
  {
    hide JobOk, JobDone, TreeIs, UnfinishedUncommitted, IdentityOk, NotedOk, CurOk, BaseUnused, SweepCovers, OnlySweepable, VerdictFor;
  }

  lemma BasesAllowed(s: State, p: nat, e: Event, t: State)
    requires p in s.procs && OwnStep(s, p, e) == Some(t) && KindOf(e) == Bases
    ensures s.procs[p].op.RemoveBase?
  {}

  lemma MovesAllowed(s: State, p: nat, e: Event, t: State)
    requires p in s.procs && LocalOk(s, s.procs[p]) && OwnStep(s, p, e) == Some(t) && KindOf(e) == Moves
    ensures s.procs[p].op.Create? || s.procs[p].op.Run? || s.procs[p].op.Reset? || s.procs[p].op.Remove?
  {
    hide JobOk, JobDone, TreeIs, UnfinishedUncommitted, IdentityOk, NotedOk, CurOk, BaseUnused, SweepCovers, OnlySweepable;
  }

  // ----- Bases -----

  /** Whatever interleaves with its unlocked plan, base removal only deletes an unreferenced base. */
  lemma BaseRemovalIsSafe(run: seq<Act>, s: State, p: nat, e: Event, t: State)
    requires After(Empty(), run) == Some(s) && Next(s, p, e) == Some(t) && (e.DeleteSeed? || e.DeleteTarget?)
    ensures s.procs[p].op.RemoveBase?
    ensures forall id :: id in s.disk.ws ==> s.disk.ws[id].metaFile.Written? && s.disk.ws[id].metaFile.meta.lock != s.procs[p].op.digest
    ensures forall d :: d in s.disk.targets && d != s.procs[p].op.digest ==> d in t.disk.targets && t.disk.targets[d] == s.disk.targets[d]
  {
    hide Inv, After, IsDigest, IsBlank;
    RunKeeps(run, s);
    LocalOf(s, p);
    forall id | id in s.disk.ws ensures s.disk.ws[id].metaFile.Written? && s.disk.ws[id].metaFile.meta.lock != s.procs[p].op.digest {
      WorkspaceOf(s, id);
      assert DependentLabel(s.disk.ws[id], s.procs[p].op.digest) == None;
    }
  }
}
