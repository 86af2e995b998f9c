/**
 * The workspace lifecycle protocol as a small-step transition system: every
 * operation is a program counter, every step is one filesystem action or one
 * lock action, and a kill may strike any process between two steps.
 */
module Lifecycle {
  import opened Common
  import opened Workspace

  // ----- Shared disk -----

  datatype Seed = Seed(lock: string, base: string)
  datatype Target = Target(seed: Option<Seed>)

  /** Names under `staging/`: extraction attempts, removal tombstones, everything else. */
  datatype StagingName = Attempt(uuid: string) | Tombstone(id: string, uuid: string) | Foreign(name: string)

  /** The two name patterns recovery deletes. */
  predicate Sweepable(n: StagingName) { !n.Foreign? }

  datatype Phase = Started | StagedPhase | PublishedPhase | Completed | Failed

  predicate Terminal(r: Receipt) { r.phase == Completed || r.phase == Failed }

  datatype Receipt =
    | CreateReceipt(name: string, lock: string, base: string, phase: Phase, recovered: bool)
    | ResetReceipt(id: string, before: int, after: int, phase: Phase, recovered: bool)

  datatype Disk = Disk(
    ws: Directory,
    staging: map<StagingName, Tree>,
    targets: map<string, Target>,
    receipts: map<string, Receipt>)

  // ----- Processes -----

  /** `Run` stands for run and shell, whose lifecycle steps are the same. */
  datatype Op =
    | Create(target: string, name: string)
    | Run(selector: string)
    | Build(selector: string)
    | Reset(selector: string)
    | Remove(selector: string)
    | RemoveBase(digest: string)
    | Recover

  /** What an extraction will publish: a new workspace, or the next generation of one. */
  datatype Job =
    | CreateJob(op: string, id: string, name: string, lock: string, base: string)
    | ResetJob(op: string, held: string, current: Meta)

  function JobMeta(j: Job): Meta {
    match j
    case CreateJob(_, id, name, lock, base) => Meta(id, name, lock, base, 0)
    case ResetJob(_, _, current) => current.(generation := current.generation + 1)
  }

  function JobHeld(j: Job): Option<string> {
    if j.ResetJob? then Some(j.held) else None
  }

  /** Where an operation stands with the record it read under the workspace lock. */
  datatype Use = Fetched | Ran | Advancing | Bound

  /** Where an extraction stands; `Published` and later follow its rename or exchange. */
  datatype Stage = Ready | Attempted | Rooted | Filled | Staged | Tearing | Sealed | Published | Recorded | Erased

  predicate BeforeCommit(g: Stage) {
    !g.Published? && !g.Recorded? && !g.Erased?
  }

  datatype PC =
    | Begin
    | Locked
    | Opened(id: string)
    | Entered(id: string)
    | Current(use: Use, id: string, cur: Meta)
    | Identified(lock: string, base: string)
    | Noted(op: string, lock: string, base: string)
    | Working(stage: Stage, job: Job, uuid: string)
    | Erasing(id: string, tomb: StagingName)
    | Failing(op: string, held: Option<string>)
    | Planned
    | Cleared
    | Sweeping(names: set<StagingName>)
    | Reconciling(ops: set<string>)
    | Recovered
    | LeavingWs(id: string)
    | LeavingLife

  datatype Proc = Proc(op: Op, pc: PC)

  /** Whether a process holds the lifecycle lock at its program counter. */
  predicate HoldsLifecycle(q: Proc) {
    match q.pc
    case Begin => false
    case Planned => false
    case Opened(_) => q.op.Reset? || q.op.Remove?
    case Entered(_) => q.op.Reset? || q.op.Remove?
    case Current(use, _, _) => q.op.Reset? || q.op.Remove?
    case LeavingWs(_) => q.op.Reset? || q.op.Remove?
    case _ => true
  }

  /** The workspace lock a process holds at its program counter. */
  function HeldLock(pc: PC): Option<string> {
    match pc
    case Entered(id) => Some(id)
    case Current(_, id, _) => Some(id)
    case Working(_, job, _) => JobHeld(job)
    case Erasing(id, _) => Some(id)
    case Failing(_, held) => held
    case LeavingWs(id) => Some(id)
    case _ => None
  }

  /** The staging tree a process is writing or erasing on its own behalf. */
  function UsesStaging(pc: PC): Option<StagingName> {
    match pc
    case Working(stage, _, u) =>
      if stage.Ready? || stage.Published? || stage.Erased? then None else Some(Attempt(u))
    case Erasing(_, tomb) => Some(tomb)
    case _ => None
  }

  /**
   * What really happened to an operation, kept beside its receipt.
   * `committed`: its rename or exchange step ran. `taken`: when a create
   * began, a workspace with its name, lock and base already existed.
   * `disturbed`: before the receipt became final, another operation committed
   * on the same name (create) or workspace (reset).
   */
  datatype History = History(committed: bool, taken: bool, disturbed: bool)

  datatype State = State(
    disk: Disk,
    lifecycle: Option<nat>,
    wlocks: map<string, nat>,
    procs: map<nat, Proc>,
    history: map<string, History>,
    commits: map<string, nat>,
    used: set<string>,
    names: set<string>)

  datatype Event =
    | Spawn(op: Op) | Kill
    | AddTarget(digest: string) | BuildSeed(digest: string, base: string)
    | TakeLifecycle | DropLifecycle | OpenStep | TakeWorkspace | Reopen | DropWorkspace
    | RunCommand | BuildCommand | CheckGeneration | Advance
    | Identify | NoteCreate(uuid: string) | CheckNew(uuid: string) | Publish
    | Bind | NoteReset(uuid: string) | NoteStaged | Exchange | NotePublished
    | MakeAttempt(uuid: string) | MakeRoot | Extract | CreateMeta | WriteMeta
    | NoteCompleted | NoteFailed | Fail
    | Unpublish(uuid: string) | Shrink(name: StagingName, tree: Tree) | Erase(name: StagingName)
    | Plan | Replan | DeleteSeed | DeleteTarget
    | ListStaging | ListReceipts | Reconcile(receipt: string) | Finish

  // ----- Building blocks of steps -----

  predicate At(pc: PC, stage: Stage) { pc.Working? && pc.stage == stage }

  predicate Doing(pc: PC, use: Use) { pc.Current? && pc.use == use }

  function Goto(s: State, p: nat, pc: PC): State
    requires p in s.procs
  {
    s.(procs := s.procs[p := Proc(s.procs[p].op, pc)])
  }

  function Gone(s: State, p: nat): State {
    s.(procs := s.procs - {p})
  }

  /** Generated ids and user-chosen names never coincide, and ids are never reused. */
  predicate Unused(s: State, u: string) {
    IsId(u) && u !in s.used && u !in s.names
  }

  function Claim(s: State, u: string): State {
    s.(used := s.used + {u})
  }

  function WithDisk(s: State, d: Disk): State { s.(disk := d) }

  function SetTree(s: State, n: StagingName, t: Tree): State {
    WithDisk(s, s.disk.(staging := s.disk.staging[n := t]))
  }

  function SetReceipt(s: State, o: string, r: Receipt): State {
    WithDisk(s, s.disk.(receipts := s.disk.receipts[o := r]))
  }

  function SetPhase(s: State, o: string, phase: Phase): State
    requires o in s.disk.receipts
  {
    SetReceipt(s, o, s.disk.receipts[o].(phase := phase))
  }

  predicate Concerns(r: Receipt, name: Option<string>, id: Option<string>) {
    match r
    case CreateReceipt(n, _, _, _, _) => name == Some(n)
    case ResetReceipt(i, _, _, _, _) => id == Some(i)
  }

  /** Record a commit by `self` on every other unfinished operation it concerns. */
  function Disturb(s: State, self: Option<string>, name: Option<string>, id: Option<string>): map<string, History> {
    map o | o in s.history ::
      if self != Some(o) && o in s.disk.receipts && !Terminal(s.disk.receipts[o]) && Concerns(s.disk.receipts[o], name, id)
      then s.history[o].(disturbed := true) else s.history[o]
  }

  function MarkCommitted(h: map<string, History>, o: string): map<string, History> {
    if o in h then h[o := h[o].(committed := true)] else h
  }

  function SetWorkspace(s: State, id: string, t: Tree, commits: nat): State {
    WithDisk(s, s.disk.(ws := s.disk.ws[id := t])).(commits := s.commits[id := commits])
  }

  function CommitCount(s: State, id: string): nat {
    if id in s.commits then s.commits[id] else 0
  }

  function AfterWorkspace(op: Op, s: State, p: nat): State
    requires p in s.procs
  {
    if op.Reset? || op.Remove? then Goto(s, p, LeavingLife) else Gone(s, p)
  }

  function LeaveFrom(held: Option<string>): PC {
    if held.Some? then LeavingWs(held.value) else LeavingLife
  }

  // ----- What a step leaves alone -----

  predicate SameDisk(s: State, t: State) {
    t.disk == s.disk && t.history == s.history && t.commits == s.commits
  }

  predicate OnlyStaging(s: State, t: State) {
    t.disk == s.disk.(staging := t.disk.staging) && t.history == s.history && t.commits == s.commits
  }

  predicate OnlyReceipts(s: State, t: State) {
    t.disk == s.disk.(receipts := t.disk.receipts) && t.commits == s.commits
  }

  predicate OnlyTargets(s: State, t: State) {
    t.disk == s.disk.(targets := t.disk.targets) && t.history == s.history && t.commits == s.commits
  }

  // ----- Locks and opening -----

  function DoTakeLifecycle(s: State, p: nat): (r: Option<State>)
    requires p in s.procs
    ensures r.Some? ==> SameDisk(s, r.value)
  {
    var q := s.procs[p];
    if s.lifecycle == None && ((q.pc == Begin && (q.op.Create? || q.op.Reset? || q.op.Remove? || q.op.Recover?)) || q.pc == Planned)
    then Some(Goto(s.(lifecycle := Some(p)), p, Locked)) else None
  }

  function DoDropLifecycle(s: State, p: nat): (r: Option<State>)
    requires p in s.procs
    ensures r.Some? ==> SameDisk(s, r.value)
  {
    if s.procs[p].pc == LeavingLife || s.procs[p].pc == Recovered
    then Some(Gone(s.(lifecycle := None), p)) else None
  }

  ghost function DoOpen(s: State, p: nat): (r: Option<State>)
    requires p in s.procs
    ensures r.Some? ==> SameDisk(s, r.value)
  {
    var q := s.procs[p];
    if (q.pc == Begin && (q.op.Run? || q.op.Build?)) || (q.pc == Locked && (q.op.Reset? || q.op.Remove?)) then
      match Open(s.disk.ws, q.op.selector)
      case Found(m) => Some(Goto(s, p, Opened(m.id)))
      case _ => Some(AfterWorkspace(q.op, s, p))
    else None
  }

  function DoTakeWorkspace(s: State, p: nat): (r: Option<State>)
    requires p in s.procs
    ensures r.Some? ==> SameDisk(s, r.value)
  {
    var pc := s.procs[p].pc;
    if pc.Opened? && pc.id !in s.wlocks
    then Some(Goto(s.(wlocks := s.wlocks[pc.id := p]), p, Entered(pc.id))) else None
  }

  ghost function DoReopen(s: State, p: nat): (r: Option<State>)
    requires p in s.procs
    ensures r.Some? ==> SameDisk(s, r.value)
  {
    var pc := s.procs[p].pc;
    if !pc.Entered? then None else
    match Open(s.disk.ws, pc.id)
    case Found(m) => Some(Goto(s, p, Current(Fetched, pc.id, m)))
    case _ => Some(Goto(s, p, LeavingWs(pc.id)))
  }

  function DoDropWorkspace(s: State, p: nat): (r: Option<State>)
    requires p in s.procs
    ensures r.Some? ==> SameDisk(s, r.value)
  {
    var q := s.procs[p];
    if q.pc.LeavingWs?
    then Some(AfterWorkspace(q.op, s.(wlocks := s.wlocks - {q.pc.id}), p)) else None
  }

  // ----- run, shell and build -----

  function DoCommand(s: State, p: nat, build: bool): (r: Option<State>)
    requires p in s.procs
    ensures r.Some? ==> SameDisk(s, r.value)
  {
    var q := s.procs[p];
    if !Doing(q.pc, Fetched) then None
    else if build && q.op.Build? then Some(Goto(s, p, LeavingWs(q.pc.id)))
    else if !build && q.op.Run? then Some(Goto(s, p, Current(Ran, q.pc.id, q.pc.cur)))
    else None
  }

  /** The recheck before a generation advance. */
  ghost predicate GenerationUnchanged(ws: Directory, cur: Meta) {
    var r := Open(ws, cur.id);
    r.Found? && r.meta.generation == cur.generation
  }

  ghost function DoCheckGeneration(s: State, p: nat): (r: Option<State>)
    requires p in s.procs
    ensures r.Some? ==> SameDisk(s, r.value)
  {
    var pc := s.procs[p].pc;
    if !Doing(pc, Ran) then None
    else if GenerationUnchanged(s.disk.ws, pc.cur) then Some(Goto(s, p, Current(Advancing, pc.id, pc.cur)))
    else Some(Goto(s, p, LeavingWs(pc.id)))
  }

  function DoAdvance(s: State, p: nat): (r: Option<State>)
    requires p in s.procs
    ensures r.Some? ==> r.value.disk.receipts == s.disk.receipts && r.value.disk.targets == s.disk.targets
  {
    var pc := s.procs[p].pc;
    if !Doing(pc, Advancing) then None else
    var id := pc.cur.id;
    var t := if id in s.disk.ws then s.disk.ws[id] else Tree(Absent, NoRoot);
    var next := pc.cur.(generation := pc.cur.generation + 1);
    var s1 := SetWorkspace(s, id, t.(metaFile := Written(next)), CommitCount(s, id) + 1);
    Some(Goto(s1.(history := Disturb(s, None, None, Some(id))), p, LeavingWs(pc.id)))
  }

  // ----- create -----

  function SeedOf(s: State, dir: string): Option<Seed> {
    if dir in s.disk.targets then s.disk.targets[dir].seed else None
  }

  function DoIdentify(s: State, p: nat): (r: Option<State>)
    requires p in s.procs
    ensures r.Some? ==> SameDisk(s, r.value)
  {
    var q := s.procs[p];
    if !(q.op.Create? && q.pc == Locked) then None else
    match SeedOf(s, q.op.target)
    case Some(sd) =>
      if IsDigest(sd.lock) && IsDigest(sd.base) then Some(Goto(s, p, Identified(sd.lock, sd.base)))
      else Some(Goto(s, p, LeavingLife))
    case None => Some(Goto(s, p, LeavingLife))
  }

  function DoNoteCreate(s: State, p: nat, u: string): (r: Option<State>)
    requires p in s.procs
    ensures r.Some? ==> OnlyReceipts(s, r.value)
  {
    var q := s.procs[p];
    if !(q.op.Create? && q.pc.Identified? && Unused(s, u)) then None else
    var taken := CreateMatches(s.disk.ws, q.op.name, q.pc.lock, q.pc.base) != {};
    var r := CreateReceipt(q.op.name, q.pc.lock, q.pc.base, Started, false);
    var s1 := SetReceipt(Claim(s, u), u, r).(history := s.history[u := History(false, taken, false)]);
    Some(Goto(s1, p, Noted(u, q.pc.lock, q.pc.base)))
  }

  ghost function DoCheckNew(s: State, p: nat, u: string): (r: Option<State>)
    requires p in s.procs
    ensures r.Some? ==> SameDisk(s, r.value)
  {
    var q := s.procs[p];
    if !(q.op.Create? && q.pc.Noted? && Unused(s, u)) then None else
    match SeedOf(s, q.op.target)
    case Some(sd) =>
      if IsWorkspaceName(q.op.name) && sd.lock != "" && sd.base != "" && IdAndNameFree(s.disk.ws, u, q.op.name) &&
         (forall d :: d in s.disk.ws ==> s.disk.ws[d].metaFile != Torn)
      then Some(Goto(Claim(s, u), p, Working(Ready, CreateJob(q.pc.op, u, q.op.name, sd.lock, sd.base), "")))
      else Some(Goto(Claim(s, u), p, Failing(q.pc.op, None)))
    case None => Some(Goto(s, p, Failing(q.pc.op, None)))
  }

  function DoPublish(s: State, p: nat): (r: Option<State>)
    requires p in s.procs
    ensures r.Some? ==> r.value.disk.receipts == s.disk.receipts && r.value.disk.targets == s.disk.targets
  {
    var pc := s.procs[p].pc;
    if !(At(pc, Sealed) && pc.job.CreateJob? && Attempt(pc.uuid) in s.disk.staging) then None else
    var j := pc.job;
    if j.id in s.disk.ws then Some(Goto(s, p, Failing(j.op, None))) else
    var n := Attempt(pc.uuid);
    var s1 := SetWorkspace(s, j.id, s.disk.staging[n], CommitCount(s, j.id));
    var s2 := WithDisk(s1, s1.disk.(staging := s.disk.staging - {n}));
    var h := MarkCommitted(Disturb(s, Some(j.op), Some(j.name), None), j.op);
    Some(Goto(s2.(history := h), p, Working(Published, j, pc.uuid)))
  }

  // ----- reset -----

  function DoBind(s: State, p: nat): (r: Option<State>)
    requires p in s.procs
    ensures r.Some? ==> SameDisk(s, r.value)
  {
    var q := s.procs[p];
    if !(q.op.Reset? && Doing(q.pc, Fetched)) then None else
    var seed := SeedOf(s, q.pc.cur.lock);
    if seed.Some? && IsDigest(seed.value.lock) && IsDigest(seed.value.base) &&
       seed.value.lock == q.pc.cur.lock && seed.value.base == q.pc.cur.base
    then Some(Goto(s, p, Current(Bound, q.pc.id, q.pc.cur)))
    else Some(Goto(s, p, LeavingWs(q.pc.id)))
  }

  function DoNoteReset(s: State, p: nat, u: string): (r: Option<State>)
    requires p in s.procs
    ensures r.Some? ==> OnlyReceipts(s, r.value)
  {
    var pc := s.procs[p].pc;
    if !(Doing(pc, Bound) && Unused(s, u)) then None else
    var r := ResetReceipt(pc.cur.id, pc.cur.generation, pc.cur.generation + 1, Started, false);
    var s1 := SetReceipt(Claim(s, u), u, r).(history := s.history[u := History(false, false, false)]);
    Some(Goto(s1, p, Working(Ready, ResetJob(u, pc.id, pc.cur), "")))
  }

  function DoNoteStaged(s: State, p: nat): (r: Option<State>)
    requires p in s.procs
    ensures r.Some? ==> OnlyReceipts(s, r.value)
  {
    var pc := s.procs[p].pc;
    if At(pc, Filled) && pc.job.ResetJob? && pc.job.op in s.disk.receipts
    then Some(Goto(SetPhase(s, pc.job.op, StagedPhase), p, Working(Staged, pc.job, pc.uuid))) else None
  }

  function DoExchange(s: State, p: nat): (r: Option<State>)
    requires p in s.procs
    ensures r.Some? ==> r.value.disk.receipts == s.disk.receipts && r.value.disk.targets == s.disk.targets
  {
    var pc := s.procs[p].pc;
    if !(At(pc, Sealed) && pc.job.ResetJob? && Attempt(pc.uuid) in s.disk.staging) then None else
    var j := pc.job;
    var id := j.current.id;
    if id !in s.disk.ws then Some(Goto(s, p, Failing(j.op, Some(j.held)))) else
    var n := Attempt(pc.uuid);
    var s1 := SetWorkspace(s, id, s.disk.staging[n], CommitCount(s, id) + 1);
    var s2 := SetTree(s1, n, s.disk.ws[id]);
    var h := MarkCommitted(Disturb(s, Some(j.op), None, Some(id)), j.op);
    Some(Goto(s2.(history := h), p, Working(Published, j, pc.uuid)))
  }

  function DoNotePublished(s: State, p: nat): (r: Option<State>)
    requires p in s.procs
    ensures r.Some? ==> OnlyReceipts(s, r.value)
  {
    var pc := s.procs[p].pc;
    if At(pc, Published) && pc.job.ResetJob? && pc.job.op in s.disk.receipts
    then Some(Goto(SetPhase(s, pc.job.op, PublishedPhase), p, Working(Recorded, pc.job, pc.uuid))) else None
  }

  // ----- Extraction, shared by create and reset -----

  function DoMakeAttempt(s: State, p: nat, u: string): (r: Option<State>)
    requires p in s.procs
    ensures r.Some? ==> OnlyStaging(s, r.value)
  {
    var pc := s.procs[p].pc;
    if At(pc, Ready) && Unused(s, u)
    then Some(Goto(SetTree(Claim(s, u), Attempt(u), Tree(Absent, NoRoot)), p, Working(Attempted, pc.job, u))) else None
  }

  function DoMakeRoot(s: State, p: nat): (r: Option<State>)
    requires p in s.procs
    ensures r.Some? ==> OnlyStaging(s, r.value)
  {
    var pc := s.procs[p].pc;
    if At(pc, Attempted) && Attempt(pc.uuid) in s.disk.staging
    then Some(Goto(SetTree(s, Attempt(pc.uuid), s.disk.staging[Attempt(pc.uuid)].(root := Extracting)), p, Working(Rooted, pc.job, pc.uuid)))
    else None
  }

  function DoExtract(s: State, p: nat): (r: Option<State>)
    requires p in s.procs
    ensures r.Some? ==> OnlyStaging(s, r.value)
  {
    var pc := s.procs[p].pc;
    if At(pc, Rooted) && Attempt(pc.uuid) in s.disk.staging
    then Some(Goto(SetTree(s, Attempt(pc.uuid), s.disk.staging[Attempt(pc.uuid)].(root := Extracted)), p, Working(Filled, pc.job, pc.uuid)))
    else None
  }

  /** Exclusive creation of `workspace.json`, before its content is complete. */
  function DoCreateMeta(s: State, p: nat): (r: Option<State>)
    requires p in s.procs
    ensures r.Some? ==> OnlyStaging(s, r.value)
  {
    var pc := s.procs[p].pc;
    if !(((At(pc, Filled) && pc.job.CreateJob?) || At(pc, Staged)) && Attempt(pc.uuid) in s.disk.staging) then None else
    var t := s.disk.staging[Attempt(pc.uuid)];
    if t.metaFile != Absent then Some(Goto(s, p, Failing(pc.job.op, JobHeld(pc.job))))
    else Some(Goto(SetTree(s, Attempt(pc.uuid), t.(metaFile := Torn)), p, Working(Tearing, pc.job, pc.uuid)))
  }

  function DoWriteMeta(s: State, p: nat): (r: Option<State>)
    requires p in s.procs
    ensures r.Some? ==> OnlyStaging(s, r.value)
  {
    var pc := s.procs[p].pc;
    if At(pc, Tearing) && Attempt(pc.uuid) in s.disk.staging
    then Some(Goto(SetTree(s, Attempt(pc.uuid), s.disk.staging[Attempt(pc.uuid)].(metaFile := Written(JobMeta(pc.job)))), p, Working(Sealed, pc.job, pc.uuid)))
    else None
  }

  // ----- Finishing receipts -----

  function DoNoteCompleted(s: State, p: nat): (r: Option<State>)
    requires p in s.procs
    ensures r.Some? ==> OnlyReceipts(s, r.value)
  {
    var pc := s.procs[p].pc;
    if At(pc, Published) && pc.job.CreateJob? && pc.job.op in s.disk.receipts then
      if pc.job.id in s.disk.ws && Load(pc.job.id, s.disk.ws[pc.job.id]).Ok?
      then Some(Goto(SetPhase(s, pc.job.op, Completed), p, LeavingLife))
      else Some(Goto(s, p, LeavingLife))
    else if At(pc, Erased) && pc.job.ResetJob? && pc.job.op in s.disk.receipts then
      Some(Goto(SetPhase(s, pc.job.op, Completed), p, LeavingWs(pc.job.held)))
    else None
  }

  function DoNoteFailed(s: State, p: nat): (r: Option<State>)
    requires p in s.procs
    ensures r.Some? ==> OnlyReceipts(s, r.value)
  {
    var pc := s.procs[p].pc;
    if pc.Failing? && pc.op in s.disk.receipts
    then Some(Goto(SetPhase(s, pc.op, Failed), p, LeaveFrom(pc.held))) else None
  }

  /** Where an operation goes when its next action fails without effect. */
  function AfterFailure(pc: PC): PC {
    match pc
    case Noted(o, _, _) => Failing(o, None)
    case Working(stage, j, _) =>
      if BeforeCommit(stage) then Failing(j.op, JobHeld(j)) else LeaveFrom(JobHeld(j))
    case _ => LeaveFrom(HeldLock(pc))
  }

  function DoFail(s: State, p: nat): (r: Option<State>)
    requires p in s.procs
    ensures r.Some? ==> SameDisk(s, r.value)
  {
    var q := s.procs[p];
    if q.pc.LeavingWs? || q.pc.LeavingLife? || q.pc.Recovered? then None
    else if HoldsLifecycle(q) || HeldLock(q.pc).Some? then Some(Goto(s, p, AfterFailure(q.pc)))
    else Some(Gone(s, p))
  }

  // ----- remove -----

  function DoUnpublish(s: State, p: nat, u: string): (r: Option<State>)
    requires p in s.procs
    ensures r.Some? ==> r.value.disk.receipts == s.disk.receipts && r.value.disk.targets == s.disk.targets
  {
    var q := s.procs[p];
    if !(q.op.Remove? && Doing(q.pc, Fetched) && Unused(s, u)) then None else
    var id := q.pc.cur.id;
    if id !in s.disk.ws then Some(Goto(s, p, LeavingWs(q.pc.id))) else
    var n := Tombstone(id, u);
    var d := s.disk.(ws := s.disk.ws - {id}, staging := s.disk.staging[n := s.disk.ws[id]]);
    var h := Disturb(s, None, MetaName(s.disk.ws[id]), Some(id));
    Some(Goto(WithDisk(Claim(s, u), d).(history := h), p, Erasing(q.pc.id, n)))
  }

  /** The trees a process is erasing right now. */
  predicate MayErase(pc: PC, n: StagingName) {
    match pc
    case Working(stage, _, u) => stage.Recorded? && n == Attempt(u)
    case Erasing(_, tomb) => n == tomb
    case Sweeping(names) => n in names && Sweepable(n)
    case _ => false
  }

  /** Recursive deletion is not atomic: parts of a tree may go first. */
  function DoShrink(s: State, p: nat, n: StagingName, t: Tree): (r: Option<State>)
    requires p in s.procs
    ensures r.Some? ==> OnlyStaging(s, r.value)
  {
    if MayErase(s.procs[p].pc, n) && n in s.disk.staging &&
       (t.metaFile == s.disk.staging[n].metaFile || t.metaFile == Absent)
    then Some(SetTree(s, n, t)) else None
  }

  function DoErase(s: State, p: nat, n: StagingName): (r: Option<State>)
    requires p in s.procs
    ensures r.Some? ==> OnlyStaging(s, r.value)
  {
    var pc := s.procs[p].pc;
    if !MayErase(pc, n) then None else
    var s1 := WithDisk(s, s.disk.(staging := s.disk.staging - {n}));
    match pc
    case Working(_, j, u) => Some(Goto(s1, p, Working(Erased, j, u)))
    case Erasing(id, _) => Some(Goto(s1, p, LeavingWs(id)))
    case Sweeping(names) => Some(Goto(s1, p, Sweeping(names - {n})))
    case _ => None
  }

  // ----- remove_base -----

  predicate AllReadable(ws: Directory) {
    forall d :: d in ws ==> ws[d].metaFile.Written?
  }

  predicate Unreferenced(ws: Directory, lock: string) {
    AllReadable(ws) && forall d :: d in ws ==> DependentLabel(ws[d], lock) == None
  }

  function DoPlan(s: State, p: nat): (r: Option<State>)
    requires p in s.procs
    ensures r.Some? ==> SameDisk(s, r.value)
  {
    var q := s.procs[p];
    if !(q.op.RemoveBase? && q.pc == Begin) then None
    else if IsDigest(q.op.digest) && q.op.digest in s.disk.targets && AllReadable(s.disk.ws) then Some(Goto(s, p, Planned))
    else Some(Gone(s, p))
  }

  function DoReplan(s: State, p: nat): (r: Option<State>)
    requires p in s.procs
    ensures r.Some? ==> SameDisk(s, r.value)
  {
    var q := s.procs[p];
    if !(q.op.RemoveBase? && q.pc == Locked) then None
    else if IsDigest(q.op.digest) && q.op.digest in s.disk.targets && Unreferenced(s.disk.ws, q.op.digest) then Some(Goto(s, p, Cleared))
    else Some(Goto(s, p, LeavingLife))
  }

  function DoDeleteSeed(s: State, p: nat): (r: Option<State>)
    requires p in s.procs
    ensures r.Some? ==> OnlyTargets(s, r.value)
  {
    var q := s.procs[p];
    if q.op.RemoveBase? && q.pc == Cleared && q.op.digest in s.disk.targets
    then Some(WithDisk(s, s.disk.(targets := s.disk.targets[q.op.digest := Target(None)]))) else None
  }

  function DoDeleteTarget(s: State, p: nat): (r: Option<State>)
    requires p in s.procs
    ensures r.Some? ==> OnlyTargets(s, r.value)
  {
    var q := s.procs[p];
    if q.op.RemoveBase? && q.pc == Cleared
    then Some(Goto(WithDisk(s, s.disk.(targets := s.disk.targets - {q.op.digest})), p, LeavingLife)) else None
  }

  // ----- recover_staging -----

  function DoListStaging(s: State, p: nat): (r: Option<State>)
    requires p in s.procs
    ensures r.Some? ==> SameDisk(s, r.value)
  {
    if s.procs[p].op.Recover? && s.procs[p].pc == Locked
    then Some(Goto(s, p, Sweeping(set n | n in s.disk.staging && Sweepable(n)))) else None
  }

  function DoListReceipts(s: State, p: nat): (r: Option<State>)
    requires p in s.procs
    ensures r.Some? ==> SameDisk(s, r.value)
  {
    if s.procs[p].pc == Sweeping({}) then Some(Goto(s, p, Reconciling(s.disk.receipts.Keys))) else None
  }

  /** The decision recovery takes for one unfinished receipt. */
  ghost function VerdictFor(ws: Directory, r: Receipt): Verdict {
    match r
    case CreateReceipt(name, lock, base, _, _) => CreateVerdict(ws, name, lock, base)
    case ResetReceipt(id, before, after, _, _) =>
      if before < 0 || after != before + 1 then Raise else ResetVerdict(ws, id, before, after)
  }

  ghost function DoReconcile(s: State, p: nat, o: string): (r: Option<State>)
    requires p in s.procs
    ensures r.Some? ==> OnlyReceipts(s, r.value)
  {
    var pc := s.procs[p].pc;
    if !(pc.Reconciling? && o in pc.ops && o in s.disk.receipts) then None else
    var r := s.disk.receipts[o];
    var rest := Reconciling(pc.ops - {o});
    if Terminal(r) then Some(Goto(s, p, rest)) else
    match VerdictFor(s.disk.ws, r)
    case Commit => Some(Goto(SetReceipt(s, o, r.(phase := Completed, recovered := true)), p, rest))
    case Abort => Some(Goto(SetReceipt(s, o, r.(phase := Failed, recovered := true)), p, rest))
    case Raise => Some(Goto(s, p, LeavingLife))
  }

  function DoFinish(s: State, p: nat): (r: Option<State>)
    requires p in s.procs
    ensures r.Some? ==> SameDisk(s, r.value)
  {
    if s.procs[p].pc == Reconciling({}) then Some(Goto(s, p, Recovered)) else None
  }

  // ----- Environment -----

  function DoSpawn(s: State, p: nat, op: Op): (r: Option<State>)
    ensures r.Some? ==> SameDisk(s, r.value)
  {
    if p in s.procs || (op.Create? && op.name in s.used) then None else
    var s1 := s.(procs := s.procs[p := Proc(op, Begin)]);
    Some(if op.Create? then s1.(names := s.names + {op.name}) else s1)
  }

  /** A kill ends the process and releases whatever locks it held. */
  function DoKill(s: State, p: nat): (r: Option<State>)
    ensures r.Some? ==> SameDisk(s, r.value)
  {
    if p !in s.procs then None else
    Some(Gone(s, p).(
      lifecycle := if s.lifecycle == Some(p) then None else s.lifecycle,
      wlocks := map id | id in s.wlocks && s.wlocks[id] != p :: s.wlocks[id]))
  }

  function DoAddTarget(s: State, d: string): (r: Option<State>)
    ensures r.Some? ==> OnlyTargets(s, r.value)
  {
    if d in s.disk.targets then None
    else Some(WithDisk(s, s.disk.(targets := s.disk.targets[d := Target(None)])))
  }

  /** A seed is written once, and its lock digest names its target directory. */
  function DoBuildSeed(s: State, d: string, base: string): (r: Option<State>)
    ensures r.Some? ==> OnlyTargets(s, r.value)
  {
    if d !in s.disk.targets || s.disk.targets[d].seed.Some? then None
    else Some(WithDisk(s, s.disk.(targets := s.disk.targets[d := Target(Some(Seed(d, base)))])))
  }

  /** One step of the system: process `p` (or the environment) performs `e`. */
  ghost function Next(s: State, p: nat, e: Event): Option<State> {
    match e
    case Spawn(op) => DoSpawn(s, p, op)
    case AddTarget(d) => DoAddTarget(s, d)
    case BuildSeed(d, base) => DoBuildSeed(s, d, base)
    case _ => if p !in s.procs then None else OwnStep(s, p, e)
  }

  ghost function OwnStep(s: State, p: nat, e: Event): Option<State>
    requires p in s.procs
  {
    match e
    case Kill => DoKill(s, p)
    case TakeLifecycle => DoTakeLifecycle(s, p)
    case DropLifecycle => DoDropLifecycle(s, p)
    case OpenStep => DoOpen(s, p)
    case TakeWorkspace => DoTakeWorkspace(s, p)
    case Reopen => DoReopen(s, p)
    case DropWorkspace => DoDropWorkspace(s, p)
    case RunCommand => DoCommand(s, p, false)
    case BuildCommand => DoCommand(s, p, true)
    case CheckGeneration => DoCheckGeneration(s, p)
    case Advance => DoAdvance(s, p)
    case Identify => DoIdentify(s, p)
    case NoteCreate(u) => DoNoteCreate(s, p, u)
    case CheckNew(u) => DoCheckNew(s, p, u)
    case Publish => DoPublish(s, p)
    case Bind => DoBind(s, p)
    case NoteReset(u) => DoNoteReset(s, p, u)
    case NoteStaged => DoNoteStaged(s, p)
    case Exchange => DoExchange(s, p)
    case NotePublished => DoNotePublished(s, p)
    case MakeAttempt(u) => DoMakeAttempt(s, p, u)
    case MakeRoot => DoMakeRoot(s, p)
    case Extract => DoExtract(s, p)
    case CreateMeta => DoCreateMeta(s, p)
    case WriteMeta => DoWriteMeta(s, p)
    case NoteCompleted => DoNoteCompleted(s, p)
    case NoteFailed => DoNoteFailed(s, p)
    case Fail => DoFail(s, p)
    case Unpublish(u) => DoUnpublish(s, p, u)
    case Shrink(n, t) => DoShrink(s, p, n, t)
    case Erase(n) => DoErase(s, p, n)
    case Plan => DoPlan(s, p)
    case Replan => DoReplan(s, p)
    case DeleteSeed => DoDeleteSeed(s, p)
    case DeleteTarget => DoDeleteTarget(s, p)
    case ListStaging => DoListStaging(s, p)
    case ListReceipts => DoListReceipts(s, p)
    case Reconcile(o) => DoReconcile(s, p, o)
    case Finish => DoFinish(s, p)
    case _ => None
  }

  /** A fresh installation: no workspaces, no bases, no receipts, nobody running. */
  function Empty(): State {
    State(Disk(map[], map[], map[], map[]), None, map[], map[], map[], map[], {}, {})
  }

  datatype Act = Act(pid: nat, event: Event)

  /** The state a run leads to, if every step of it was enabled. */
  ghost function After(s: State, run: seq<Act>): Option<State> {
    if run == [] then Some(s)
    else
      match After(s, run[..|run| - 1])
      case None => None
      case Some(t) => Next(t, run[|run| - 1].pid, run[|run| - 1].event)
  }
}
