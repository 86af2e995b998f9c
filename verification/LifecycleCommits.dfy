/** The four steps that change `workspaces/` keep the lifecycle invariant. */
module LifecycleCommits {
  import opened Common
  import opened Workspace
  import opened Lifecycle
  import opened LifecycleInvariant
  import opened LifecycleSteps

  /** Two complete trees for one workspace that differ at most in generation. */
  predicate SameWorkspace(id: string, t: Tree, u: Tree) {
    Complete(id, t) && Complete(id, u) &&
    u.metaFile.meta == t.metaFile.meta.(generation := u.metaFile.meta.generation)
  }

  lemma MatchesKept(ws: Directory, id: string, u: Tree, name: string, lock: string, base: string)
    requires id in ws && SameWorkspace(id, ws[id], u)
    ensures CreateMatches(ws[id := u], name, lock, base) == CreateMatches(ws, name, lock, base)
  {
    hide IsDigest;
    forall d | d in ws
      ensures IsCreateMatch(d, ws[d], name, lock, base) == IsCreateMatch(d, ws[id := u][d], name, lock, base)
    {
    }
  }

  lemma UniqueKept(ws: Directory, id: string, u: Tree)
    requires id in ws && SameWorkspace(id, ws[id], u) && NamesUnique(ws)
    ensures NamesUnique(ws[id := u])
  {
    var ws' := ws[id := u];
    forall d | d in ws ensures NameOf(ws'[d]) == NameOf(ws[d]) {}
  }

  /** Receipts survive a generation change: other resets of that workspace are marked disturbed. */
  lemma GenerationHistory(s: State, t: State, id: string, u: Tree, self: Option<string>)
    requires HistoryOk(s) && PoolsOk(s) && id in s.disk.ws && SameWorkspace(id, s.disk.ws[id], u)
    requires u.metaFile.meta.generation == s.disk.ws[id].metaFile.meta.generation + 1
    requires t.disk.ws == s.disk.ws[id := u] && t.disk.receipts == s.disk.receipts
    requires t.history == if self.Some? then MarkCommitted(Disturb(s, self, None, Some(id)), self.value) else Disturb(s, self, None, Some(id))
    requires self.Some? ==> self.value in s.disk.receipts && self.value in s.history && var r := s.disk.receipts[self.value];
      r.ResetReceipt? && r.id == id && !Terminal(r) && !r.recovered && u.metaFile.meta.generation == r.after &&
      s.history[self.value] == History(false, false, false)
    ensures HistoryOk(t)
  {
    hide PoolsOk, IsDigest, SameWorkspace;
    forall o | o in t.disk.receipts && o in t.history ensures ReceiptOk(t.disk.ws, t.disk.receipts[o], t.history[o]) {
      var r := s.disk.receipts[o];
      assert o in s.history;
      assert ReceiptOk(s.disk.ws, r, s.history[o]);
      GenerationReceipt(s, t, id, u, self, o);
    }
  }

  lemma GenerationReceipt(s: State, t: State, id: string, u: Tree, self: Option<string>, o: string)
    requires o in s.disk.receipts && o in s.history && ReceiptOk(s.disk.ws, s.disk.receipts[o], s.history[o])
    requires id in s.disk.ws && SameWorkspace(id, s.disk.ws[id], u)
    requires u.metaFile.meta.generation == s.disk.ws[id].metaFile.meta.generation + 1
    requires t.disk.ws == s.disk.ws[id := u] && o in t.history
    requires t.history == if self.Some? then MarkCommitted(Disturb(s, self, None, Some(id)), self.value) else Disturb(s, self, None, Some(id))
    requires self.Some? ==> self.value in s.disk.receipts && self.value in s.history && var r := s.disk.receipts[self.value];
      r.ResetReceipt? && r.id == id && !Terminal(r) && !r.recovered && u.metaFile.meta.generation == r.after &&
      s.history[self.value] == History(false, false, false)
    ensures ReceiptOk(t.disk.ws, s.disk.receipts[o], t.history[o])
  {
    hide CreateMatches, IsDigest;
    var r := s.disk.receipts[o];
    if r.CreateReceipt? {
      MatchesKept(s.disk.ws, id, u, r.name, r.lock, r.base);
    }
  }

  lemma GenerationWorkspaces(s: State, t: State, id: string, u: Tree)
    requires WorkspacesOk(s) && id in s.disk.ws && SameWorkspace(id, s.disk.ws[id], u)
    requires t.disk.ws == s.disk.ws[id := u] && t.disk.targets == s.disk.targets && t.used == s.used && t.names == s.names
    requires t.commits == s.commits[id := CommitCount(s, id) + 1]
    requires u.metaFile.meta.generation == s.disk.ws[id].metaFile.meta.generation + 1
    ensures WorkspacesOk(t)
  {
    hide IsDigest;
    forall d | d in t.disk.ws ensures WorkspaceOk(t, d) {
      assert WorkspaceOk(s, d);
    }
  }

  // ----- run, shell: the generation advance -----

  lemma AdvanceShape(s: State, t: State, p: nat)
    requires Inv(s) && p in s.procs && DoAdvance(s, p) == Some(t)
    ensures var pc := s.procs[p].pc;
      pc.Current? && pc.cur.id == pc.id && pc.id in s.disk.ws && s.procs[p].op.Run? && Holds(s, pc.id, p) &&
      var u := Tree(Written(pc.cur.(generation := pc.cur.generation + 1)), s.disk.ws[pc.id].root);
      SameWorkspace(pc.id, s.disk.ws[pc.id], u) && SameIdentity(s.disk.ws[pc.id], u) &&
      u.metaFile.meta.generation == s.disk.ws[pc.id].metaFile.meta.generation + 1 && pc.id in s.commits && pc.id in s.used &&
      t == Goto(SetWorkspace(s, pc.id, u, CommitCount(s, pc.id) + 1).(history := Disturb(s, None, None, Some(pc.id))), p, LeavingWs(pc.id))
  {
    hide Inv, IsDigest;
    LocalOf(s, p);
    WorkspaceOf(s, s.procs[p].pc.id);
  }

  lemma AdvanceFrame(s: State, t: State, p: nat)
    requires p in s.procs && PoolsOk(s)
    requires var pc := s.procs[p].pc;
      pc.Current? && pc.id in s.disk.ws && Holds(s, pc.id, p) && pc.id in s.commits &&
      exists u :: SameIdentity(s.disk.ws[pc.id], u) &&
        t == Goto(SetWorkspace(s, pc.id, u, CommitCount(s, pc.id) + 1).(history := Disturb(s, None, None, Some(pc.id))), p, LeavingWs(pc.id))
    ensures Frame(s, t, p) && PoolsOk(t)
  {
    hide IsDigest, IsBlank;
  }

  lemma AdvanceKeeps(s: State, t: State, p: nat)
    requires Inv(s) && p in s.procs && DoAdvance(s, p) == Some(t)
    ensures Inv(t)
  {
    hide Inv, DoAdvance, LocksOk, WorkspacesOk, NamesUnique, PoolsOk, TargetsOk, HistoryOk, Frame, SameWorkspace, SameIdentity;
    var pc := s.procs[p].pc;
    PartsOf(s);
    AdvanceShape(s, t, p);
    var u := Tree(Written(pc.cur.(generation := pc.cur.generation + 1)), s.disk.ws[pc.id].root);
    assert t.disk.ws == s.disk.ws[pc.id := u];
    StayLocks(s, t, p);
    GenerationWorkspaces(s, t, pc.id, u);
    UniqueKept(s.disk.ws, pc.id, u);
    GenerationHistory(s, t, pc.id, u, None);
    AdvanceFrame(s, t, p);
    Assemble(s, t, p);
  }

  // ----- reset: the exchange -----

  lemma ExchangeShape(s: State, t: State, p: nat)
    requires Inv(s) && p in s.procs && DoExchange(s, p) == Some(t)
    ensures var pc := s.procs[p].pc;
      pc.Working? && pc.job.ResetJob? && s.lifecycle == Some(p) &&
      var j := pc.job; var id := j.held; var n := Attempt(pc.uuid);
      j.current.id == id && id in s.disk.ws && n in s.disk.staging && Holds(s, id, p) && id in s.commits && id in s.used &&
      j.op in s.disk.receipts && j.op in s.history &&
      var u := s.disk.staging[n]; var r := s.disk.receipts[j.op];
      r.ResetReceipt? && r.id == id && !Terminal(r) && !r.recovered && s.history[j.op] == History(false, false, false) &&
      u.metaFile == Written(JobMeta(j)) && u.metaFile.meta.generation == r.after &&
      SameWorkspace(id, s.disk.ws[id], u) && u.metaFile.meta.generation == s.disk.ws[id].metaFile.meta.generation + 1 &&
      t == Goto(SetTree(SetWorkspace(s, id, u, CommitCount(s, id) + 1), n, s.disk.ws[id]).(
        history := MarkCommitted(Disturb(s, Some(j.op), None, Some(id)), j.op)), p, Working(Published, j, pc.uuid))
  {
    hide Inv, IsDigest;
    LocalOf(s, p);
    WorkspaceOf(s, s.procs[p].pc.job.held);
  }

  lemma ExchangePools(s: State, t: State, p: nat, j: Job, n: StagingName, u: Tree)
    requires PoolsOk(s) && p in s.procs && s.procs[p].pc.Working? && j.ResetJob? && j.held in s.disk.ws && n in s.disk.staging && j.held in s.commits
    requires t == Goto(SetTree(SetWorkspace(s, j.held, u, CommitCount(s, j.held) + 1), n, s.disk.ws[j.held]).(
        history := MarkCommitted(Disturb(s, Some(j.op), None, Some(j.held)), j.op)), p, Working(Published, j, s.procs[p].pc.uuid))
    requires Holds(s, j.held, p) && s.lifecycle == Some(p)
    ensures PoolsOk(t) && Frame(s, t, p)
  {
    hide IsBlank;
  }

  lemma ExchangeKeeps(s: State, t: State, p: nat)
    requires Inv(s) && p in s.procs && DoExchange(s, p) == Some(t)
    ensures Inv(t)
  {
    hide Inv, DoExchange, LocksOk, WorkspacesOk, NamesUnique, PoolsOk, Frame, TargetsOk, HistoryOk, SameWorkspace, LocalOk, ReceiptOk;
    var pc := s.procs[p].pc;
    PartsOf(s);
    ExchangeShape(s, t, p);
    var id := pc.job.held;
    var u := s.disk.staging[Attempt(pc.uuid)];
    assert t.disk.ws == s.disk.ws[id := u];
    ExchangeLocal(s, t, p);
    ExchangePools(s, t, p, pc.job, Attempt(pc.uuid), u);
    StayLocks(s, t, p);
    GenerationWorkspaces(s, t, id, u);
    UniqueKept(s.disk.ws, id, u);
    GenerationHistory(s, t, id, u, Some(pc.job.op));
    Assemble(s, t, p);
  }

  lemma ExchangeLocal(s: State, t: State, p: nat)
    requires Inv(s) && p in s.procs && DoExchange(s, p) == Some(t)
    ensures LocalOk(t, t.procs[p])
  {
    hide Inv, IsDigest;
    LocalOf(s, p);
    ExchangeShape(s, t, p);
  }

  // ----- create: the publication -----

  lemma PublishShape(s: State, t: State, p: nat)
    requires Inv(s) && p in s.procs && DoPublish(s, p) == Some(t)
    ensures var pc := s.procs[p].pc;
      pc.Working? && pc.job.CreateJob? && s.lifecycle == Some(p) &&
      var j := pc.job; var n := Attempt(pc.uuid);
      n in s.disk.staging && j.id !in s.disk.ws && j.id !in s.commits && j.id in s.used &&
      NameFree(s.disk.ws, j.name) && j.name in s.names && IsWorkspaceName(j.name) && SeedOf(s, j.lock) == Some(Seed(j.lock, j.base)) &&
      Untouched(s, j.op, CreateReceipt(j.name, j.lock, j.base, Started, false), History(false, false, false)) &&
      s.disk.staging[n] == Tree(Written(JobMeta(j)), Extracted) && Complete(j.id, s.disk.staging[n]) &&
      t == Goto(SetStaging(SetWorkspace(s, j.id, s.disk.staging[n], 0), s.disk.staging - {n}).(
        history := MarkCommitted(Disturb(s, Some(j.op), Some(j.name), None), j.op)), p, Working(Published, j, pc.uuid))
  {
    hide Inv, IsDigest;
    LocalOf(s, p);
    var j := s.procs[p].pc.job;
    assert j.id != "" by {
      PartsOf(s);
      hide LocksOk, WorkspacesOk, NamesUnique, HistoryOk;
      assert !IsBlank(j.id);
    }
    assert j.name != "" by {
      assert !IsBlank(j.name);
    }
  }

  lemma PublishMatches(ws: Directory, id: string, m: Meta, name: string, lock: string, base: string)
    requires id !in ws && Complete(id, Tree(Written(m), Extracted)) && m.id == id
    ensures CreateMatches(ws[id := Tree(Written(m), Extracted)], name, lock, base) ==
      if m.name == name && m.lock == lock && m.base == base then CreateMatches(ws, name, lock, base) + {id} else CreateMatches(ws, name, lock, base)
  {
    hide IsDigest;
    var ws' := ws[id := Tree(Written(m), Extracted)];
    forall d | d in ws'
      ensures IsCreateMatch(d, ws'[d], name, lock, base) <==>
        (d in ws && IsCreateMatch(d, ws[d], name, lock, base)) || (d == id && m.name == name && m.lock == lock && m.base == base)
    {
      assert d != id ==> ws'[d] == ws[d];
    }
  }

  lemma NoMatchForFreeName(ws: Directory, name: string, lock: string, base: string)
    requires NameFree(ws, name)
    ensures CreateMatches(ws, name, lock, base) == {}
  {
    forall d | d in ws ensures !IsCreateMatch(d, ws[d], name, lock, base) {}
  }

  lemma PublishReceipt(s: State, t: State, j: Job, o: string)
    requires j.CreateJob? && j.id !in s.disk.ws && Complete(j.id, Tree(Written(JobMeta(j)), Extracted))
    requires NameFree(s.disk.ws, j.name)
    requires Untouched(s, j.op, CreateReceipt(j.name, j.lock, j.base, Started, false), History(false, false, false))
    requires o in s.disk.receipts && o in s.history && ReceiptOk(s.disk.ws, s.disk.receipts[o], s.history[o])
    requires s.disk.receipts[o].ResetReceipt? ==> s.disk.receipts[o].id != j.id
    requires t.disk.ws == s.disk.ws[j.id := Tree(Written(JobMeta(j)), Extracted)]
    requires t.history == MarkCommitted(Disturb(s, Some(j.op), Some(j.name), None), j.op) && o in t.history
    ensures ReceiptOk(t.disk.ws, s.disk.receipts[o], t.history[o])
  {
    hide CreateMatches, NameFree, Complete, IsDigest;
    var r := s.disk.receipts[o];
    if r.CreateReceipt? {
      PublishMatches(s.disk.ws, j.id, JobMeta(j), r.name, r.lock, r.base);
      if r.name == j.name { NoMatchForFreeName(s.disk.ws, r.name, r.lock, r.base); }
    }
  }

  lemma PublishHistory(s: State, t: State, j: Job)
    requires HistoryOk(s) && PoolsOk(s) && j.CreateJob? && j.id !in s.commits && j.id !in s.disk.ws && Complete(j.id, Tree(Written(JobMeta(j)), Extracted))
    requires NameFree(s.disk.ws, j.name)
    requires Untouched(s, j.op, CreateReceipt(j.name, j.lock, j.base, Started, false), History(false, false, false))
    requires t.disk.ws == s.disk.ws[j.id := Tree(Written(JobMeta(j)), Extracted)] && t.disk.receipts == s.disk.receipts
    requires t.history == MarkCommitted(Disturb(s, Some(j.op), Some(j.name), None), j.op)
    ensures HistoryOk(t)
  {
    hide ReceiptOk, Complete, NameFree, IsBlank;
    forall o | o in t.disk.receipts && o in t.history ensures ReceiptOk(t.disk.ws, t.disk.receipts[o], t.history[o]) {
      PublishReceipt(s, t, j, o);
    }
  }

  lemma PublishWorkspaces(s: State, t: State, j: Job)
    requires WorkspacesOk(s) && NamesUnique(s.disk.ws) && j.CreateJob? && j.id !in s.disk.ws && NameFree(s.disk.ws, j.name)
    requires Complete(j.id, Tree(Written(JobMeta(j)), Extracted))
    requires j.id in s.used && j.name in s.names && IsWorkspaceName(j.name) && SeedOf(s, j.lock) == Some(Seed(j.lock, j.base))
    requires t.disk.ws == s.disk.ws[j.id := Tree(Written(JobMeta(j)), Extracted)]
    requires t.commits == s.commits[j.id := 0] && t.disk.targets == s.disk.targets && t.used == s.used && t.names == s.names
    ensures WorkspacesOk(t) && NamesUnique(t.disk.ws)
  {
    hide Complete;
    forall d | d in t.disk.ws ensures WorkspaceOk(t, d) {
      if d != j.id { assert WorkspaceOk(s, d); }
    }
  }

  lemma PublishPools(s: State, t: State, p: nat, j: Job)
    requires PoolsOk(s) && p in s.procs && s.procs[p].pc.Working? && j.CreateJob? && s.lifecycle == Some(p)
    requires Attempt(s.procs[p].pc.uuid) in s.disk.staging && j.id !in s.disk.ws && j.id !in s.commits && j.id in s.used && j.op in s.history
    requires t == Goto(SetStaging(SetWorkspace(s, j.id, s.disk.staging[Attempt(s.procs[p].pc.uuid)], 0), s.disk.staging - {Attempt(s.procs[p].pc.uuid)}).(
        history := MarkCommitted(Disturb(s, Some(j.op), Some(j.name), None), j.op)), p, Working(Published, j, s.procs[p].pc.uuid))
    ensures PoolsOk(t) && Frame(s, t, p)
  {
    hide IsId;
  }

  lemma PublishLocal(s: State, t: State, p: nat)
    requires Inv(s) && p in s.procs && DoPublish(s, p) == Some(t)
    ensures LocalOk(t, t.procs[p]) && HeldLock(t.procs[p].pc) == HeldLock(s.procs[p].pc)
  {
    hide Inv, IsDigest, NameFree;
    LocalOf(s, p);
    PublishShape(s, t, p);
  }

  lemma PublishKeeps(s: State, t: State, p: nat)
    requires Inv(s) && p in s.procs && DoPublish(s, p) == Some(t)
    ensures Inv(t)
  {
    hide Inv, DoPublish, LocksOk, WorkspacesOk, NamesUnique, PoolsOk, Frame, TargetsOk, HistoryOk, Complete, NameFree, LocalOk, ReceiptOk;
    var pc := s.procs[p].pc;
    PartsOf(s);
    PublishShape(s, t, p);
    PublishLocal(s, t, p);
    PublishPools(s, t, p, pc.job);
    StayLocks(s, t, p);
    PublishWorkspaces(s, t, pc.job);
    PublishHistory(s, t, pc.job);
    Assemble(s, t, p);
  }

  // ----- remove: the rename to a tombstone -----

  lemma UnpublishShape(s: State, t: State, p: nat, u: string)
    requires Inv(s) && p in s.procs && DoUnpublish(s, p, u) == Some(t)
    ensures var pc := s.procs[p].pc;
      pc.Current? && s.lifecycle == Some(p) && s.procs[p].op.Remove? && Unused(s, u) && pc.cur.id == pc.id &&
      var id := pc.id; var n := Tombstone(id, u);
      id in s.disk.ws && Holds(s, id, p) && s.disk.ws[id].metaFile == Written(pc.cur) &&
      t == Goto(WithDisk(Claim(s, u), s.disk.(ws := s.disk.ws - {id}, staging := s.disk.staging[n := s.disk.ws[id]])).(
        history := Disturb(s, None, Some(pc.cur.name), Some(id))), p, Erasing(id, n))
  {
    hide Inv, IsDigest, IsBlank;
    LocalOf(s, p);
  }

  lemma RemoveMatches(ws: Directory, id: string, name: string, lock: string, base: string)
    requires id in ws && NameOf(ws[id]) != name
    ensures CreateMatches(ws - {id}, name, lock, base) == CreateMatches(ws, name, lock, base)
  {
    hide IsDigest;
    forall d | d in ws ensures IsCreateMatch(d, ws[d], name, lock, base) ==> d != id {}
  }

  lemma RemoveReceipt(s: State, t: State, id: string, o: string)
    requires id in s.disk.ws && s.disk.ws[id].metaFile.Written?
    requires o in s.disk.receipts && o in s.history && ReceiptOk(s.disk.ws, s.disk.receipts[o], s.history[o])
    requires t.disk.ws == s.disk.ws - {id} && o in t.history
    requires t.history == Disturb(s, None, Some(s.disk.ws[id].metaFile.meta.name), Some(id))
    ensures ReceiptOk(t.disk.ws, s.disk.receipts[o], t.history[o])
  {
    hide CreateMatches;
    var r := s.disk.receipts[o];
    if r.CreateReceipt? && r.name != s.disk.ws[id].metaFile.meta.name {
      RemoveMatches(s.disk.ws, id, r.name, r.lock, r.base);
    }
  }

  lemma RemoveGlobals(s: State, t: State, id: string)
    requires HistoryOk(s) && WorkspacesOk(s) && NamesUnique(s.disk.ws) && id in s.disk.ws && s.disk.ws[id].metaFile.Written?
    requires t.disk.ws == s.disk.ws - {id} && t.disk.receipts == s.disk.receipts && t.disk.targets == s.disk.targets
    requires t.history == Disturb(s, None, Some(s.disk.ws[id].metaFile.meta.name), Some(id))
    requires s.used <= t.used && t.names == s.names && t.commits == s.commits
    ensures HistoryOk(t) && WorkspacesOk(t) && NamesUnique(t.disk.ws)
  {
    hide ReceiptOk, Complete;
    forall o | o in t.disk.receipts && o in t.history ensures ReceiptOk(t.disk.ws, t.disk.receipts[o], t.history[o]) {
      RemoveReceipt(s, t, id, o);
    }
    forall d | d in t.disk.ws ensures WorkspaceOk(t, d) { assert WorkspaceOk(s, d); }
  }

  lemma UnpublishKeeps(s: State, t: State, p: nat, u: string)
    requires Inv(s) && p in s.procs && DoUnpublish(s, p, u) == Some(t)
    ensures Inv(t)
  {
    hide Inv, DoUnpublish, LocksOk, WorkspacesOk, NamesUnique, TargetsOk, HistoryOk, IsBlank;
    PartsOf(s);
    UnpublishShape(s, t, p, u);
    StayLocks(s, t, p);
    RemoveGlobals(s, t, s.procs[p].pc.id);
    UnpublishPools(s, t, p, u);
    Assemble(s, t, p);
  }

  lemma UnpublishPools(s: State, t: State, p: nat, u: string)
    requires Inv(s) && p in s.procs && DoUnpublish(s, p, u) == Some(t)
    ensures PoolsOk(t) && Frame(s, t, p)
  {
    hide Inv, DoUnpublish, LocksOk, WorkspacesOk, NamesUnique, TargetsOk, HistoryOk;
    PartsOf(s);
    UnpublishShape(s, t, p, u);
  }
}
