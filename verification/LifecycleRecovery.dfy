/** What recovery decides, deletes and leaves alone, in every reachable state. */
module LifecycleRecovery {
  import opened Common
  import opened Workspace
  import opened Lifecycle
  import opened LifecycleInvariant
  import opened LifecycleSteps
  import opened LifecycleCommits
  import opened LifecycleShapes
  import opened LifecycleTheorems

  // ----- Verdicts -----

  /** Some published workspace carries a create's name, lock and base. */
  predicate Carried(ws: Directory, r: Receipt)
    requires r.CreateReceipt?
  {
    exists d :: d in ws && Carries(ws[d], r)
  }

  predicate Carries(t: Tree, r: Receipt)
    requires r.CreateReceipt?
  {
    t.metaFile.Written? && t.metaFile.meta.name == r.name && t.metaFile.meta.lock == r.lock && t.metaFile.meta.base == r.base
  }

  /** Recovery would write what really happened. */
  ghost predicate Truthful(s: State, o: string)
    requires o in s.disk.receipts && o in s.history
  {
    VerdictFor(s.disk.ws, s.disk.receipts[o]) == if s.history[o].committed then Commit else Abort
  }

  /**
   * When recovery can tell what happened: a create by its name, if its name, lock and base are published exactly when
   * it published them; a reset if since its start no run, shell, reset or removal of its workspace was committed.
   */
  predicate Tells(s: State, o: string)
    requires o in s.disk.receipts && o in s.history
  {
    var r, h := s.disk.receipts[o], s.history[o];
    match r
    case CreateReceipt(name, _, _, _, _) => name != "" && (Carried(s.disk.ws, r) <==> h.committed)
    case ResetReceipt(_, _, _, _, _) => !h.disturbed
  }

  lemma CarriedMeans(s: State, r: Receipt)
    requires Inv(s) && r.CreateReceipt?
    ensures Carried(s.disk.ws, r) <==> CreateMatches(s.disk.ws, r.name, r.lock, r.base) != {}
  {
    hide Inv, IsDigest;
    forall d | d in s.disk.ws ensures Complete(d, s.disk.ws[d]) { WorkspaceOf(s, d); }
    if Carried(s.disk.ws, r) {
      var d :| d in s.disk.ws && Carries(s.disk.ws[d], r);
      assert d in CreateMatches(s.disk.ws, r.name, r.lock, r.base);
    }
    if CreateMatches(s.disk.ws, r.name, r.lock, r.base) != {} {
      var d :| d in CreateMatches(s.disk.ws, r.name, r.lock, r.base);
      assert Carries(s.disk.ws[d], r);
    }
  }

  /**
   * What recovery decides for an unfinished receipt that no other commit concerned: "completed" exactly when the rename
   * or exchange ran, or when the name was already taken by a workspace on the same base. It raises exactly on a create
   * without a name.
   */
  lemma RecoveryDecides(run: seq<Act>, s: State, o: string)
    requires After(Empty(), run) == Some(s) && o in s.disk.receipts && o in s.history
    requires !Terminal(s.disk.receipts[o]) && !s.history[o].disturbed
    ensures VerdictFor(s.disk.ws, s.disk.receipts[o]) ==
      if s.disk.receipts[o].CreateReceipt? && s.disk.receipts[o].name == "" then Raise
      else if s.history[o].committed || s.history[o].taken then Commit else Abort
    ensures s.disk.receipts[o].ResetReceipt? ==> !s.history[o].taken
  {
    hide Inv, After, VerdictFor, CreateMatches;
    RunKeeps(run, s);
    ReceiptOf(s, o);
    VerdictExact(s, o);
  }

  /** For every unfinished receipt, disturbed or not: recovery tells the truth exactly when it can tell what happened. */
  lemma RecoveryIsTruthfulIff(run: seq<Act>, s: State, o: string)
    requires After(Empty(), run) == Some(s) && o in s.disk.receipts && !Terminal(s.disk.receipts[o])
    ensures o in s.history && (Truthful(s, o) <==> Tells(s, o))
    ensures s.disk.receipts[o].CreateReceipt? && !s.history[o].disturbed ==>
      (Tells(s, o) <==> s.disk.receipts[o].name != "" && !s.history[o].taken)
  {
    hide Inv, After, VerdictFor, CreateMatches, Carried, IsDigest;
    RunKeeps(run, s);
    ReceiptOf(s, o);
    VerdictInFull(s, o);
    if s.disk.receipts[o].CreateReceipt? { CarriedMeans(s, s.disk.receipts[o]); }
  }

  /** What recovery writes for an unfinished receipt: nothing if it is stuck, and the truth exactly when it can tell. */
  lemma ReconciledIsTrueIff(run: seq<Act>, s: State, p: nat, o: string, t: State)
    requires After(Empty(), run) == Some(s) && Next(s, p, Reconcile(o)) == Some(t)
    requires o in s.disk.receipts && !Terminal(s.disk.receipts[o])
    ensures o in s.history && o in t.disk.receipts && o in t.history
    ensures Terminal(t.disk.receipts[o]) <==> !Stuck(s, o)
    ensures Stuck(s, o) ==> t.disk == s.disk
    ensures Terminal(t.disk.receipts[o]) ==>
      ((t.disk.receipts[o].phase == Completed <==> t.history[o].committed) <==> Tells(s, o))
  {
    hide Inv, After, VerdictFor, Tells, Stuck, Next;
    RaisesIffStuck(run, s, o);
    RecoveryIsTruthfulIff(run, s, o);
    assert p in s.procs && DoReconcile(s, p, o) == Some(t) by { NextReconcile(s, p, o, t); }
  }

  lemma NextReconcile(s: State, p: nat, o: string, t: State)
    requires Next(s, p, Reconcile(o)) == Some(t)
    ensures p in s.procs && DoReconcile(s, p, o) == Some(t)
  {
    hide DoReconcile;
  }

  /** Final receipts: written by the operation they are always true, written by recovery unless disturbed or taken. */
  lemma FinalReceiptsAreTrue(run: seq<Act>, s: State, o: string)
    requires After(Empty(), run) == Some(s) && o in s.disk.receipts && Terminal(s.disk.receipts[o])
    ensures o in s.history
    ensures !s.disk.receipts[o].recovered || (!s.history[o].disturbed && !s.history[o].taken) ==>
      (s.disk.receipts[o].phase == Completed <==> s.history[o].committed)
  {
    hide Inv, After, CreateMatches;
    RunKeeps(run, s);
    ReceiptOf(s, o);
  }

  /** `taken` is decided when the create starts and means what it says. */
  lemma TakenMeans(run: seq<Act>, s: State, p: nat, u: string, t: State)
    requires After(Empty(), run) == Some(s) && Next(s, p, NoteCreate(u)) == Some(t)
    ensures u in t.history && u in t.disk.receipts && t.disk.receipts[u].CreateReceipt?
    ensures var r := t.disk.receipts[u];
      t.history[u].taken <==> Carried(s.disk.ws, r)
  {
    hide Inv, After, IsDigest;
    RunKeeps(run, s);
    var r := t.disk.receipts[u];
    forall d | d in s.disk.ws ensures Complete(d, s.disk.ws[d]) {
      WorkspaceOf(s, d);
    }
    if t.history[u].taken {
      var d :| d in CreateMatches(s.disk.ws, r.name, r.lock, r.base);
      assert d in s.disk.ws;
    }
    forall d | d in s.disk.ws && Carries(s.disk.ws[d], r)
      ensures t.history[u].taken
    {
      assert d in CreateMatches(s.disk.ws, r.name, r.lock, r.base);
    }
  }

  // ----- What recovery touches -----

  /** Apart from erasing swept trees and writing verdicts, recovery changes nothing. */
  lemma RecoverySteps(s: State, p: nat, e: Event, t: State)
    requires Inv(s) && p in s.procs && s.procs[p].op.Recover?
    requires Next(s, p, e) == Some(t) && !e.AddTarget? && !e.BuildSeed?
    ensures SameDisk(s, t) || (e.Reconcile? && DoReconcile(s, p, e.receipt) == Some(t))
      || (OnlyStaging(s, t) && (e.Shrink? || e.Erase?))
    ensures e.Shrink? || e.Erase? ==> s.procs[p].pc.Sweeping?
  {
    hide Inv, LocalOk, Next, KindOf, OwnStep, DoReconcile, OnlyStaging, SameDisk;
    LocalOf(s, p);
    StepShape(s, p, e, t);
    ErasureKinds(e);
    if !e.Spawn? {
      match KindOf(e)
      case Stages => StagesAllowed(s, p, e, t);
      case Notes => NotesAllowed(s, p, e, t);
      case Bases => BasesAllowed(s, p, e, t);
      case Moves => MovesAllowed(s, p, e, t);
      case _ =>
    } else {
      EnvironmentKinds();
    }
  }

  lemma ErasureKinds(e: Event)
    ensures e.Shrink? || e.Erase? ==> KindOf(e) == Stages
  {}

  /** Recovery never changes a published workspace, a base, a foreign staging entry or a final receipt. */
  lemma RecoveryLeavesWorkspaces(run: seq<Act>, s: State, p: nat, e: Event, t: State)
    requires After(Empty(), run) == Some(s) && p in s.procs && s.procs[p].op.Recover?
    requires Next(s, p, e) == Some(t) && !e.AddTarget? && !e.BuildSeed?
    ensures t.disk.ws == s.disk.ws && t.disk.targets == s.disk.targets
    ensures forall n :: n in s.disk.staging && !Sweepable(n) ==> n in t.disk.staging && t.disk.staging[n] == s.disk.staging[n]
    ensures forall o :: o in s.disk.receipts ==> o in t.disk.receipts && (Terminal(s.disk.receipts[o]) ==> t.disk.receipts[o] == s.disk.receipts[o])
  {
    hide Inv, After, VerdictFor, Next, DoShrink, DoErase, DoReconcile;
    RunKeeps(run, s);
    RecoverySteps(s, p, e, t);
    if e.Shrink? || e.Erase? {
      NextShrink(s, p, e, t);
      SweepsOnlySweepable(s, p, e, t);
    } else if e.Reconcile? && DoReconcile(s, p, e.receipt) == Some(t) {
      ReconcileKeepsFinal(s, p, e.receipt, t);
    }
  }

  lemma ReconcileKeepsFinal(s: State, p: nat, o: string, t: State)
    requires p in s.procs
    requires DoReconcile(s, p, o) == Some(t)
    ensures OnlyReceipts(s, t)
    ensures forall i :: i in s.disk.receipts ==> i in t.disk.receipts && (Terminal(s.disk.receipts[i]) ==> t.disk.receipts[i] == s.disk.receipts[i])
  {
    hide VerdictFor;
  }

  lemma SweepsOnlySweepable(s: State, p: nat, e: Event, t: State)
    requires p in s.procs && s.procs[p].pc.Sweeping?
    requires (e.Shrink? && DoShrink(s, p, e.name, e.tree) == Some(t)) || (e.Erase? && DoErase(s, p, e.name) == Some(t))
    ensures forall n :: n in s.disk.staging && !Sweepable(n) ==> n in t.disk.staging && t.disk.staging[n] == s.disk.staging[n]
  {
  }

  lemma NextShrink(s: State, p: nat, e: Event, t: State)
    requires p in s.procs && Next(s, p, e) == Some(t)
    ensures e.Shrink? ==> DoShrink(s, p, e.name, e.tree) == Some(t)
    ensures e.Erase? ==> DoErase(s, p, e.name) == Some(t)
  {
    hide DoShrink, DoErase;
  }

  /** Recovery never erases a tree that a live operation is writing or erasing. */
  lemma RecoveryErasesNoLiveTree(run: seq<Act>, s: State, p: nat, n: StagingName, q: nat)
    requires After(Empty(), run) == Some(s) && p in s.procs && s.procs[p].op.Recover? && MayErase(s.procs[p].pc, n)
    requires q in s.procs && q != p
    ensures UsesStaging(s.procs[q].pc) != Some(n)
  {
    hide Inv, After;
    RunKeeps(run, s);
    LocalOf(s, p);
    LocalOf(s, q);
  }

  predicate Clean(d: Disk) { NothingSweepable(d) && AllFinal(d) }

  /** A recovery that finishes leaves nothing to recover. */
  lemma FinishedRecoveryIsClean(run: seq<Act>, s: State, p: nat)
    requires After(Empty(), run) == Some(s) && p in s.procs && s.procs[p].pc.Recovered?
    ensures Clean(s.disk)
  {
    hide Inv, After;
    RunKeeps(run, s);
    LocalOf(s, p);
  }

  /** A second recovery changes nothing: from a clean disk each of its steps is idle. */
  lemma SecondRecoveryIsIdle(run: seq<Act>, s: State, p: nat, e: Event, t: State)
    requires After(Empty(), run) == Some(s) && p in s.procs && s.procs[p].op.Recover? && Clean(s.disk)
    requires Next(s, p, e) == Some(t) && !e.AddTarget? && !e.BuildSeed?
    ensures t.disk == s.disk && t.history == s.history
  {
    hide Inv, After, Next, DoShrink, DoErase, DoReconcile, Clean;
    RunKeeps(run, s);
    RecoverySteps(s, p, e, t);
    if e.Shrink? || e.Erase? {
      NextShrink(s, p, e, t);
      NothingToErase(s, p, e, t);
    } else if e.Reconcile? && DoReconcile(s, p, e.receipt) == Some(t) {
      NothingToReconcile(s, p, e.receipt, t);
    }
  }

  lemma NothingToErase(s: State, p: nat, e: Event, t: State)
    requires p in s.procs && s.procs[p].pc.Sweeping? && Clean(s.disk)
    requires (e.Shrink? && DoShrink(s, p, e.name, e.tree) == Some(t)) || (e.Erase? && DoErase(s, p, e.name) == Some(t))
    ensures t.disk == s.disk && t.history == s.history
  {}

  lemma NothingToReconcile(s: State, p: nat, o: string, t: State)
    requires p in s.procs && Clean(s.disk) && DoReconcile(s, p, o) == Some(t)
    ensures t.disk == s.disk && t.history == s.history
  {
    hide VerdictFor;
  }

  // ----- Receipts recovery can never finish -----

  /**
   * An unfinished receipt that cannot be judged: a create without a name, or a reset whose workspace is gone or has
   * been run, shelled or reset past the generation the reset was to leave.
   */
  predicate Stuck(s: State, o: string) {
    o in s.disk.receipts && !Terminal(s.disk.receipts[o]) &&
    match s.disk.receipts[o]
    case CreateReceipt(name, _, _, _, _) => name == ""
    case ResetReceipt(id, _, after, _, _) => id !in s.disk.ws || GenerationPast(s.disk.ws[id], after)
  }

  predicate GenerationPast(t: Tree, after: int) { t.metaFile.Written? && t.metaFile.meta.generation > after }

  /** In every reachable state recovery raises on exactly the stuck receipts. */
  lemma RaisesIffStuck(run: seq<Act>, s: State, o: string)
    requires After(Empty(), run) == Some(s) && o in s.disk.receipts && !Terminal(s.disk.receipts[o])
    ensures VerdictFor(s.disk.ws, s.disk.receipts[o]) == Raise <==> Stuck(s, o)
  {
    hide Inv, After, VerdictFor, CreateMatches, IsDigest;
    RunKeeps(run, s);
    ReceiptOf(s, o);
    VerdictInFull(s, o);
  }

  /** The receipt a process is working on. */
  function OwnReceipt(pc: PC): Option<string> {
    match pc
    case Noted(o, _, _) => Some(o)
    case Working(_, j, _) => Some(j.op)
    case Failing(o, _) => Some(o)
    case _ => None
  }

  ghost predicate Unowned(s: State, o: string) {
    forall p :: p in s.procs ==> OwnReceipt(s.procs[p].pc) != Some(o)
  }

  /** A reset that is still running cannot be stuck: it holds its workspace. */
  lemma StuckResetIsUnowned(run: seq<Act>, s: State, o: string)
    requires After(Empty(), run) == Some(s) && Stuck(s, o) && s.disk.receipts[o].ResetReceipt?
    ensures Unowned(s, o)
  {
    hide Inv, After, LocalOk, ReceiptOk, OwnReceipt;
    RunKeeps(run, s);
    ReceiptOf(s, o);
    forall p | p in s.procs ensures OwnReceipt(s.procs[p].pc) != Some(o) {
      LocalOf(s, p);
      OwnersAreNotStuck(s, s.procs[p], o);
    }
  }

  lemma OwnersAreNotStuck(s: State, q: Proc, o: string)
    requires LocalOk(s, q) && Stuck(s, o) && o in s.history && s.disk.receipts[o].ResetReceipt?
    requires ReceiptOk(s.disk.ws, s.disk.receipts[o], s.history[o])
    ensures OwnReceipt(q.pc) != Some(o)
  {
    hide CreateMatches, IsBlank, IsDigest, IsWorkspaceName, StageTree;
  }

  /** Nothing but its own operation or a recovery could finish the receipt, and recovery raises. */
  lemma StuckReceiptKept(s: State, p: nat, e: Event, t: State, o: string)
    requires p in s.procs && OwnStep(s, p, e) == Some(t) && KindOf(e) == Notes
    requires s.procs[p].pc.Working? ==> s.procs[p].pc.job.op != o
    requires s.procs[p].pc.Failing? ==> s.procs[p].pc.op != o
    requires o in s.used && o in s.disk.receipts && !Terminal(s.disk.receipts[o]) && VerdictFor(s.disk.ws, s.disk.receipts[o]) == Raise
    ensures o in t.disk.receipts && t.disk.receipts[o] == s.disk.receipts[o]
  {
    hide VerdictFor, CreateMatches, IsBlank, IsDigest, Load, DoReconcile, DoNoteCreate, DoNoteReset;
    match e
    case Reconcile(i) => StuckNotReconciled(s, p, i, t, o);
    case NoteCreate(u) => FreshReceiptElsewhere(s, p, u, t, o);
    case NoteReset(u) => FreshReceiptElsewhere(s, p, u, t, o);
    case _ =>
  }

  lemma StuckNotReconciled(s: State, p: nat, i: string, t: State, o: string)
    requires p in s.procs && DoReconcile(s, p, i) == Some(t)
    requires o in s.disk.receipts && VerdictFor(s.disk.ws, s.disk.receipts[o]) == Raise
    ensures o in t.disk.receipts && t.disk.receipts[o] == s.disk.receipts[o]
  {
    hide VerdictFor;
  }

  lemma FreshReceiptElsewhere(s: State, p: nat, u: string, t: State, o: string)
    requires p in s.procs && (DoNoteCreate(s, p, u) == Some(t) || DoNoteReset(s, p, u) == Some(t))
    requires o in s.used && o in s.disk.receipts
    ensures o in t.disk.receipts && t.disk.receipts[o] == s.disk.receipts[o]
  {
    hide CreateMatches, IsBlank;
  }

  lemma StuckStays(s: State, p: nat, e: Event, t: State, o: string)
    requires Inv(s) && Next(s, p, e) == Some(t) && Stuck(s, o) && VerdictFor(s.disk.ws, s.disk.receipts[o]) == Raise && Unowned(s, o)
    ensures Stuck(t, o) && t.disk.receipts[o] == s.disk.receipts[o]
  {
    hide Inv, Next, OwnStep, KindOf, VerdictFor, ReceiptOk;
    ReceiptOf(s, o);
    assert o in s.used by { PartsOf(s); }
    StepShape(s, p, e, t);
    if KindOf(e) == Notes {
      EnvironmentKinds();
      StuckReceiptKept(s, p, e, t, o);
    }
    if s.disk.receipts[o].ResetReceipt? { StuckWorkspace(s, p, e, t, s.disk.receipts[o].id, s.disk.receipts[o].after); }
  }

  /** A workspace that is gone stays gone, and a generation that is past stays past. */
  lemma StuckWorkspace(s: State, p: nat, e: Event, t: State, id: string, after: int)
    requires Inv(s) && Next(s, p, e) == Some(t) && id in s.commits
    requires id !in s.disk.ws || GenerationPast(s.disk.ws[id], after)
    ensures id !in t.disk.ws || GenerationPast(t.disk.ws[id], after)
  {
    hide Inv, Next, CommitsOn;
    if id !in s.disk.ws {
      GoneStaysGone(s, p, e, t, id);
    } else if id in t.disk.ws {
      StepOnWorkspace(s, p, e, t, id);
    }
  }

  /** After a step of `p` the others are where they were, and `p` does not work on receipt `o`. */
  ghost predicate TakesUpNothing(s: State, t: State, p: nat, o: string) {
    (p in t.procs ==> OwnReceipt(t.procs[p].pc) != Some(o)) &&
    forall q :: q != p ==> (q in t.procs <==> q in s.procs) && (q in s.procs ==> t.procs[q] == s.procs[q])
  }

  lemma LocksTakeUpNothing(s: State, p: nat, t: State, o: string)
    requires p in s.procs && o in s.used && OwnReceipt(s.procs[p].pc) != Some(o)
    requires DoKill(s, p) == Some(t) || DoTakeLifecycle(s, p) == Some(t) || DoDropLifecycle(s, p) == Some(t) ||
      DoTakeWorkspace(s, p) == Some(t) || DoDropWorkspace(s, p) == Some(t)
    ensures TakesUpNothing(s, t, p, o)
  {
    hide Open, CreateMatches, VerdictFor, IsDigest, IsBlank, IsWorkspaceName, IdAndNameFree, GenerationUnchanged, Load, DependentLabel,
      Disturb, JobMeta, Unreferenced, AllReadable;
  }

  lemma OpensTakeUpNothing(s: State, p: nat, t: State, o: string)
    requires p in s.procs && o in s.used && OwnReceipt(s.procs[p].pc) != Some(o)
    requires DoOpen(s, p) == Some(t) || DoReopen(s, p) == Some(t) || DoCheckGeneration(s, p) == Some(t)
    ensures TakesUpNothing(s, t, p, o)
  {
    hide Open, CreateMatches, VerdictFor, IsDigest, IsBlank, IsWorkspaceName, IdAndNameFree, GenerationUnchanged, Load, DependentLabel,
      Disturb, JobMeta, Unreferenced, AllReadable;
  }

  lemma ReadsTakeUpNothing(s: State, p: nat, t: State, o: string)
    requires p in s.procs && o in s.used && OwnReceipt(s.procs[p].pc) != Some(o)
    requires DoIdentify(s, p) == Some(t) || DoBind(s, p) == Some(t) || DoCommand(s, p, true) == Some(t) || DoCommand(s, p, false) == Some(t)
    ensures TakesUpNothing(s, t, p, o)
  {
    hide Open, CreateMatches, VerdictFor, IsDigest, IsBlank, IsWorkspaceName, IdAndNameFree, GenerationUnchanged, Load, DependentLabel,
      Disturb, JobMeta, Unreferenced, AllReadable;
  }

  lemma ListsTakeUpNothing(s: State, p: nat, t: State, o: string)
    requires p in s.procs && o in s.used && OwnReceipt(s.procs[p].pc) != Some(o)
    requires DoPlan(s, p) == Some(t) || DoReplan(s, p) == Some(t) || DoListStaging(s, p) == Some(t) || DoListReceipts(s, p) == Some(t) ||
      DoFinish(s, p) == Some(t)
    ensures TakesUpNothing(s, t, p, o)
  {
    hide Open, CreateMatches, VerdictFor, IsDigest, IsBlank, IsWorkspaceName, IdAndNameFree, GenerationUnchanged, Load, DependentLabel,
      Disturb, JobMeta, Unreferenced, AllReadable;
  }

  lemma TriesTakeUpNothing(s: State, p: nat, t: State, o: string)
    requires p in s.procs && o in s.used && OwnReceipt(s.procs[p].pc) != Some(o)
    requires DoFail(s, p) == Some(t) || exists u :: DoCheckNew(s, p, u) == Some(t)
    ensures TakesUpNothing(s, t, p, o)
  {
    hide Open, CreateMatches, VerdictFor, IsDigest, IsBlank, IsWorkspaceName, IdAndNameFree, GenerationUnchanged, Load, DependentLabel,
      Disturb, JobMeta, Unreferenced, AllReadable;
  }

  lemma ControlTakesUpNothing(s: State, p: nat, e: Event, t: State, o: string)
    requires p in s.procs && OwnStep(s, p, e) == Some(t) && o in s.used && OwnReceipt(s.procs[p].pc) != Some(o) && KindOf(e) == Control
    ensures TakesUpNothing(s, t, p, o)
  {
    hide OwnReceipt, TakesUpNothing, DoKill, DoTakeLifecycle, DoDropLifecycle, DoOpen, DoTakeWorkspace, DoReopen, DoDropWorkspace, DoCommand,
      DoCheckGeneration, DoIdentify, DoCheckNew, DoBind, DoFail, DoPlan, DoReplan, DoListStaging, DoListReceipts, DoFinish;
    match e
    case Kill => LocksTakeUpNothing(s, p, t, o);
    case TakeLifecycle => LocksTakeUpNothing(s, p, t, o);
    case DropLifecycle => LocksTakeUpNothing(s, p, t, o);
    case TakeWorkspace => LocksTakeUpNothing(s, p, t, o);
    case DropWorkspace => LocksTakeUpNothing(s, p, t, o);
    case OpenStep => OpensTakeUpNothing(s, p, t, o);
    case Reopen => OpensTakeUpNothing(s, p, t, o);
    case CheckGeneration => OpensTakeUpNothing(s, p, t, o);
    case Identify => ReadsTakeUpNothing(s, p, t, o);
    case Bind => ReadsTakeUpNothing(s, p, t, o);
    case RunCommand => ReadsTakeUpNothing(s, p, t, o);
    case BuildCommand => ReadsTakeUpNothing(s, p, t, o);
    case Plan => ListsTakeUpNothing(s, p, t, o);
    case Replan => ListsTakeUpNothing(s, p, t, o);
    case ListStaging => ListsTakeUpNothing(s, p, t, o);
    case ListReceipts => ListsTakeUpNothing(s, p, t, o);
    case Finish => ListsTakeUpNothing(s, p, t, o);
    case Fail => TriesTakeUpNothing(s, p, t, o);
    case CheckNew(_) => TriesTakeUpNothing(s, p, t, o);
    case _ =>
  }

  lemma TreesTakeUpNothing(s: State, p: nat, t: State, o: string)
    requires p in s.procs && o in s.used && OwnReceipt(s.procs[p].pc) != Some(o)
    requires DoMakeRoot(s, p) == Some(t) || DoExtract(s, p) == Some(t) || DoCreateMeta(s, p) == Some(t) || DoWriteMeta(s, p) == Some(t)
    ensures TakesUpNothing(s, t, p, o)
  {
    hide Open, CreateMatches, VerdictFor, IsDigest, IsBlank, IsWorkspaceName, IdAndNameFree, GenerationUnchanged, Load, DependentLabel,
      Disturb, JobMeta, Unreferenced, AllReadable;
  }

  lemma SweepsTakeUpNothing(s: State, p: nat, t: State, o: string)
    requires p in s.procs && o in s.used && OwnReceipt(s.procs[p].pc) != Some(o)
    requires (exists u :: DoMakeAttempt(s, p, u) == Some(t)) || (exists n :: DoErase(s, p, n) == Some(t)) || exists n, x :: DoShrink(s, p, n, x) == Some(t)
    ensures TakesUpNothing(s, t, p, o)
  {
    hide Open, CreateMatches, VerdictFor, IsDigest, IsBlank, IsWorkspaceName, IdAndNameFree, GenerationUnchanged, Load, DependentLabel,
      Disturb, JobMeta, Unreferenced, AllReadable;
  }

  lemma StagesTakeUpNothing(s: State, p: nat, e: Event, t: State, o: string)
    requires p in s.procs && OwnStep(s, p, e) == Some(t) && o in s.used && OwnReceipt(s.procs[p].pc) != Some(o) && KindOf(e) == Stages
    ensures TakesUpNothing(s, t, p, o)
  {
    hide OwnReceipt, TakesUpNothing, DoMakeAttempt, DoMakeRoot, DoExtract, DoCreateMeta, DoWriteMeta, DoShrink, DoErase;
    match e
    case MakeRoot => TreesTakeUpNothing(s, p, t, o);
    case Extract => TreesTakeUpNothing(s, p, t, o);
    case CreateMeta => TreesTakeUpNothing(s, p, t, o);
    case WriteMeta => TreesTakeUpNothing(s, p, t, o);
    case MakeAttempt(_) => SweepsTakeUpNothing(s, p, t, o);
    case Shrink(_, _) => SweepsTakeUpNothing(s, p, t, o);
    case Erase(_) => SweepsTakeUpNothing(s, p, t, o);
    case _ =>
  }

  lemma StartsTakeUpNothing(s: State, p: nat, t: State, o: string)
    requires p in s.procs && o in s.used && OwnReceipt(s.procs[p].pc) != Some(o)
    requires exists u :: DoNoteCreate(s, p, u) == Some(t) || DoNoteReset(s, p, u) == Some(t)
    ensures TakesUpNothing(s, t, p, o)
  {
    hide Open, CreateMatches, VerdictFor, IsDigest, IsBlank, IsWorkspaceName, IdAndNameFree, GenerationUnchanged, Load, DependentLabel,
      Disturb, JobMeta, Unreferenced, AllReadable;
  }

  lemma PhasesTakeUpNothing(s: State, p: nat, t: State, o: string)
    requires p in s.procs && o in s.used && OwnReceipt(s.procs[p].pc) != Some(o)
    requires DoNoteStaged(s, p) == Some(t) || DoNotePublished(s, p) == Some(t)
    ensures TakesUpNothing(s, t, p, o)
  {
    hide Open, CreateMatches, VerdictFor, IsDigest, IsBlank, IsWorkspaceName, IdAndNameFree, GenerationUnchanged, Load, DependentLabel,
      Disturb, JobMeta, Unreferenced, AllReadable;
  }

  lemma EndsTakeUpNothing(s: State, p: nat, t: State, o: string)
    requires p in s.procs && o in s.used && OwnReceipt(s.procs[p].pc) != Some(o)
    requires DoNoteCompleted(s, p) == Some(t) || DoNoteFailed(s, p) == Some(t)
    ensures TakesUpNothing(s, t, p, o)
  {
    hide Open, CreateMatches, VerdictFor, IsDigest, IsBlank, IsWorkspaceName, IdAndNameFree, GenerationUnchanged, Load, DependentLabel,
      Disturb, JobMeta, Unreferenced, AllReadable;
  }

  lemma VerdictsTakeUpNothing(s: State, p: nat, t: State, o: string)
    requires p in s.procs && o in s.used && OwnReceipt(s.procs[p].pc) != Some(o)
    requires exists i :: DoReconcile(s, p, i) == Some(t)
    ensures TakesUpNothing(s, t, p, o)
  {
    hide Open, CreateMatches, VerdictFor, IsDigest, IsBlank, IsWorkspaceName, IdAndNameFree, GenerationUnchanged, Load, DependentLabel,
      Disturb, JobMeta, Unreferenced, AllReadable;
  }

  lemma NotesTakeUpNothing(s: State, p: nat, e: Event, t: State, o: string)
    requires p in s.procs && OwnStep(s, p, e) == Some(t) && o in s.used && OwnReceipt(s.procs[p].pc) != Some(o) && KindOf(e) == Notes
    ensures TakesUpNothing(s, t, p, o)
  {
    hide OwnReceipt, TakesUpNothing, DoNoteCreate, DoNoteReset, DoNoteStaged, DoNotePublished, DoNoteCompleted, DoNoteFailed, DoReconcile;
    match e
    case NoteCreate(_) => StartsTakeUpNothing(s, p, t, o);
    case NoteReset(_) => StartsTakeUpNothing(s, p, t, o);
    case NoteStaged => PhasesTakeUpNothing(s, p, t, o);
    case NotePublished => PhasesTakeUpNothing(s, p, t, o);
    case NoteCompleted => EndsTakeUpNothing(s, p, t, o);
    case NoteFailed => EndsTakeUpNothing(s, p, t, o);
    case Reconcile(_) => VerdictsTakeUpNothing(s, p, t, o);
    case _ =>
  }

  lemma DeletionsTakeUpNothing(s: State, p: nat, t: State, o: string)
    requires p in s.procs && o in s.used && OwnReceipt(s.procs[p].pc) != Some(o)
    requires DoDeleteSeed(s, p) == Some(t) || DoDeleteTarget(s, p) == Some(t)
    ensures TakesUpNothing(s, t, p, o)
  {
    hide Open, CreateMatches, VerdictFor, IsDigest, IsBlank, IsWorkspaceName, IdAndNameFree, GenerationUnchanged, Load, DependentLabel,
      Disturb, JobMeta, Unreferenced, AllReadable;
  }

  lemma BasesTakeUpNothing(s: State, p: nat, e: Event, t: State, o: string)
    requires p in s.procs && OwnStep(s, p, e) == Some(t) && o in s.used && OwnReceipt(s.procs[p].pc) != Some(o) && KindOf(e) == Bases
    ensures TakesUpNothing(s, t, p, o)
  {
    hide OwnReceipt, TakesUpNothing, DoDeleteSeed, DoDeleteTarget;
    match e
    case DeleteSeed => DeletionsTakeUpNothing(s, p, t, o);
    case DeleteTarget => DeletionsTakeUpNothing(s, p, t, o);
    case _ =>
  }

  lemma PublicationsTakeUpNothing(s: State, p: nat, t: State, o: string)
    requires p in s.procs && o in s.used && OwnReceipt(s.procs[p].pc) != Some(o)
    requires DoAdvance(s, p) == Some(t) || DoPublish(s, p) == Some(t)
    ensures TakesUpNothing(s, t, p, o)
  {
    hide Open, CreateMatches, VerdictFor, IsDigest, IsBlank, IsWorkspaceName, IdAndNameFree, GenerationUnchanged, Load, DependentLabel,
      Disturb, JobMeta, Unreferenced, AllReadable;
  }

  lemma ExchangesTakeUpNothing(s: State, p: nat, t: State, o: string)
    requires p in s.procs && o in s.used && OwnReceipt(s.procs[p].pc) != Some(o)
    requires DoExchange(s, p) == Some(t) || exists u :: DoUnpublish(s, p, u) == Some(t)
    ensures TakesUpNothing(s, t, p, o)
  {
    hide Open, CreateMatches, VerdictFor, IsDigest, IsBlank, IsWorkspaceName, IdAndNameFree, GenerationUnchanged, Load, DependentLabel,
      Disturb, JobMeta, Unreferenced, AllReadable;
  }

  lemma MovesTakeUpNothing(s: State, p: nat, e: Event, t: State, o: string)
    requires p in s.procs && OwnStep(s, p, e) == Some(t) && o in s.used && OwnReceipt(s.procs[p].pc) != Some(o) && KindOf(e) == Moves
    ensures TakesUpNothing(s, t, p, o)
  {
    hide OwnReceipt, TakesUpNothing, DoAdvance, DoPublish, DoExchange, DoUnpublish;
    match e
    case Advance => PublicationsTakeUpNothing(s, p, t, o);
    case Publish => PublicationsTakeUpNothing(s, p, t, o);
    case Exchange => ExchangesTakeUpNothing(s, p, t, o);
    case Unpublish(_) => ExchangesTakeUpNothing(s, p, t, o);
    case _ =>
  }

  /** A step takes up a receipt only by creating it. */
  lemma OwnersStay(s: State, p: nat, e: Event, t: State, o: string)
    requires p in s.procs && OwnStep(s, p, e) == Some(t) && o in s.used && OwnReceipt(s.procs[p].pc) != Some(o)
    ensures TakesUpNothing(s, t, p, o)
  {
    hide OwnStep, OwnReceipt, KindOf, TakesUpNothing;
    match KindOf(e)
    case Control => ControlTakesUpNothing(s, p, e, t, o);
    case Stages => StagesTakeUpNothing(s, p, e, t, o);
    case Notes => NotesTakeUpNothing(s, p, e, t, o);
    case Bases => BasesTakeUpNothing(s, p, e, t, o);
    case Moves => MovesTakeUpNothing(s, p, e, t, o);
  }

  lemma UnownedStays(s: State, p: nat, e: Event, t: State, o: string)
    requires Next(s, p, e) == Some(t) && o in s.used && Unowned(s, o)
    ensures Unowned(t, o)
  {
    hide OwnStep, OwnReceipt;
    if !e.Spawn? && !e.AddTarget? && !e.BuildSeed? { OwnersStay(s, p, e, t, o); } else { BeginOwnsNothing(); }
  }

  lemma BeginOwnsNothing()
    ensures OwnReceipt(Begin) == None
  {}

  /**
   * A stuck receipt whose operation is over stays as it is through every later run. Each recovery that reaches it
   * raises, and no recovery ever finishes again.
   */
  lemma {:induction false} StuckIsForever(run: seq<Act>, s: State, more: seq<Act>, t: State, o: string)
    requires After(Empty(), run) == Some(s) && Stuck(s, o) && Unowned(s, o) && After(s, more) == Some(t)
    ensures After(Empty(), run + more) == Some(t)
    ensures Stuck(t, o) && Unowned(t, o) && t.disk.receipts[o] == s.disk.receipts[o]
    ensures VerdictFor(t.disk.ws, t.disk.receipts[o]) == Raise
    ensures forall p :: p in t.procs ==> !t.procs[p].pc.Recovered?
  {
    hide Inv, Next, Stuck, VerdictFor, Unowned, LocalOk;
    if more == [] {
      assert run + more == run;
    } else {
      var rest, act := more[..|more| - 1], more[|more| - 1];
      var before := After(s, rest).value;
      StuckIsForever(run, s, rest, before, o);
      assert (run + more)[..|run + more| - 1] == run + rest;
      RunKeeps(run + rest, before);
      StuckStays(before, act.pid, act.event, t, o);
      assert o in before.used by { StuckIsUsed(before, o); }
      UnownedStays(before, act.pid, act.event, t, o);
    }
    StuckUnfinished(t, o);
    RaisesIffStuck(run + more, t, o);
    forall p | p in t.procs ensures !t.procs[p].pc.Recovered? {
      if t.procs[p].pc.Recovered? { FinishedRecoveryIsClean(run + more, t, p); }
    }
  }

  lemma StuckIsUsed(s: State, o: string)
    requires Inv(s) && Stuck(s, o)
    ensures o in s.used
  {
    hide Inv;
    PartsOf(s);
  }

  lemma StuckUnfinished(s: State, o: string)
    requires Stuck(s, o)
    ensures o in s.disk.receipts && !Terminal(s.disk.receipts[o]) && !Clean(s.disk)
  {}
}
