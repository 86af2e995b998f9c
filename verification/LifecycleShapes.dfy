/** The five kinds of steps, and the part of the shared state each kind may change. */
module LifecycleShapes {
  import opened Common
  import opened Workspace
  import opened Lifecycle

  datatype Kind = Control | Stages | Notes | Bases | Moves

  /** Locks and readings; trees under `staging/`; receipts; bases; and the four steps that change `workspaces/`. */
  function KindOf(e: Event): Kind {
    match e
    case MakeAttempt(_) => Stages
    case MakeRoot => Stages
    case Extract => Stages
    case CreateMeta => Stages
    case WriteMeta => Stages
    case Shrink(_, _) => Stages
    case Erase(_) => Stages
    case NoteCreate(_) => Notes
    case NoteReset(_) => Notes
    case NoteStaged => Notes
    case NotePublished => Notes
    case NoteCompleted => Notes
    case NoteFailed => Notes
    case Reconcile(_) => Notes
    case AddTarget(_) => Bases
    case BuildSeed(_, _) => Bases
    case DeleteSeed => Bases
    case DeleteTarget => Bases
    case Advance => Moves
    case Publish => Moves
    case Exchange => Moves
    case Unpublish(_) => Moves
    case _ => Control
  }

  lemma ControlShape(s: State, p: nat, e: Event, t: State)
    requires p in s.procs && OwnStep(s, p, e) == Some(t) && KindOf(e) == Control
    ensures SameDisk(s, t)
  {
    hide SameDisk, DoKill, DoTakeLifecycle, DoDropLifecycle, DoOpen, DoTakeWorkspace, DoReopen, DoDropWorkspace, DoCommand,
      DoCheckGeneration, DoIdentify, DoCheckNew, DoBind, DoFail, DoPlan, DoReplan, DoListStaging, DoListReceipts, DoFinish;
  }

  lemma StageShape(s: State, p: nat, e: Event, t: State)
    requires p in s.procs && OwnStep(s, p, e) == Some(t) && KindOf(e) == Stages
    ensures OnlyStaging(s, t)
  {
    hide OnlyStaging, DoMakeAttempt, DoMakeRoot, DoExtract, DoCreateMeta, DoWriteMeta, DoShrink, DoErase;
  }

  lemma NoteShape(s: State, p: nat, e: Event, t: State)
    requires p in s.procs && OwnStep(s, p, e) == Some(t) && KindOf(e) == Notes
    ensures OnlyReceipts(s, t)
  {
    hide OnlyReceipts, DoNoteCreate, DoNoteReset, DoNoteStaged, DoNotePublished, DoNoteCompleted, DoNoteFailed, DoReconcile;
  }

  lemma TargetShape(s: State, p: nat, e: Event, t: State)
    requires p in s.procs && OwnStep(s, p, e) == Some(t) && KindOf(e) == Bases
    ensures OnlyTargets(s, t)
  {
    hide OnlyTargets, DoDeleteSeed, DoDeleteTarget;
  }

  lemma MoveKeeps(s: State, p: nat, e: Event, t: State)
    requires p in s.procs && OwnStep(s, p, e) == Some(t) && KindOf(e) == Moves
    ensures t.disk.receipts == s.disk.receipts && t.disk.targets == s.disk.targets
  {
    hide DoAdvance, DoPublish, DoExchange, DoUnpublish;
  }

  lemma EnvironmentKinds()
    ensures forall op :: KindOf(Spawn(op)) == Control
    ensures forall d :: KindOf(AddTarget(d)) == Bases
    ensures forall d, base :: KindOf(BuildSeed(d, base)) == Bases
  {}

  /** What any step leaves alone. */
  lemma StepShape(s: State, p: nat, e: Event, t: State)
    requires Next(s, p, e) == Some(t)
    ensures KindOf(e) == Control ==> SameDisk(s, t)
    ensures KindOf(e) == Stages ==> OnlyStaging(s, t)
    ensures KindOf(e) == Notes ==> OnlyReceipts(s, t)
    ensures KindOf(e) == Bases ==> OnlyTargets(s, t)
    ensures KindOf(e) == Moves ==> t.disk.receipts == s.disk.receipts && t.disk.targets == s.disk.targets
    ensures !e.Spawn? && !e.AddTarget? && !e.BuildSeed? ==> p in s.procs && OwnStep(s, p, e) == Some(t)
  {
    EnvironmentKinds();
    hide KindOf, SameDisk, OnlyStaging, OnlyReceipts, OnlyTargets, OwnStep, DoSpawn, DoAddTarget, DoBuildSeed;
    if !e.Spawn? && !e.AddTarget? && !e.BuildSeed? {
      if KindOf(e) == Stages {
        StageShape(s, p, e, t);
      } else if KindOf(e) == Notes {
        NoteShape(s, p, e, t);
      } else if KindOf(e) == Bases {
        TargetShape(s, p, e, t);
      } else if KindOf(e) == Moves {
        MoveKeeps(s, p, e, t);
      } else {
        ControlShape(s, p, e, t);
      }
    }
  }

  /** The four moves, each by its own step function. */
  lemma MoveShape(s: State, p: nat, e: Event, t: State)
    requires p in s.procs && OwnStep(s, p, e) == Some(t)
    ensures e.Advance? ==> DoAdvance(s, p) == Some(t)
    ensures e.Publish? ==> DoPublish(s, p) == Some(t)
    ensures e.Exchange? ==> DoExchange(s, p) == Some(t)
    ensures e.Unpublish? ==> DoUnpublish(s, p, e.uuid) == Some(t)
  {
    hide DoAdvance, DoPublish, DoExchange, DoUnpublish;
  }
}
