/** The gate in front of package installation: what is installed, and what may be removed, was locked before. */
module RemovalGate {
  import opened Common
  import opened Sorting
  import opened AptSimulation

  datatype Policy = Policy(version: string, allowed: seq<string>)

  datatype LockedPackage = LockedPackage(name: string, version: string, architecture: string, upgrade: bool,
    filename: string, sha256: string)

  datatype PackageSet = PackageSet(packages: seq<LockedPackage>, policy: Option<Policy>, removed: seq<string>)

  datatype Evidence = Evidence(removed: seq<string>, policyVersion: string, allowed: seq<string>)

  datatype Command = Simulate(specs: seq<string>, noRemove: bool) | ListInstalled | Apply(specs: seq<string>, noRemove: bool)

  datatype StatusLine = Status(name: string, installed: bool) | BadStatus

  /** Whatever the guest answers: an exit code, output, and whether its failure names the removal restriction. */
  datatype Answer = Answer(code: int, apt: seq<Line>, packages: seq<StatusLine>, forbidden: bool)

  datatype Exchange = Exchange(command: Command, answer: Answer)

  datatype GateError = NotActive | CommandFailed(forbidden: bool) | DiagnosticFailed | BadOutput(why: AptError)
    | ForbiddenRemovals | TransactionChanged | RemovalsChanged | ArchivesChanged | BadSnapshot | RemovalsDiffer
    | NotInstalled | RemovedWithoutPolicy

  datatype Simulation = Simulation(transaction: seq<Step>, diagnostic: Diagnostic)

  const DENY_ALL := "deny-all-v1"

  function SpecOf(p: LockedPackage): string {
    if p.architecture == "all" then p.name + "=" + p.version else p.name + ":" + p.architecture + "=" + p.version
  }

  function Specs(s: PackageSet): seq<string> { seq(|s.packages|, i requires 0 <= i < |s.packages| => SpecOf(s.packages[i])) }

  /** The transaction the lock froze. */
  function Expected(s: PackageSet): seq<Step> {
    seq(|s.packages|, i requires 0 <= i < |s.packages| =>
      Step(s.packages[i].name, s.packages[i].version, s.packages[i].architecture, s.packages[i].upgrade))
  }

  // ----- The removal policy -----

  /** No removal without a policy, and with one only what it lists. */
  predicate Permitted(removals: set<string>, policy: Option<Policy>) {
    removals == {} || (policy.Some? && forall x :: x in removals ==> x in policy.value.allowed)
  }

  method ValidateRemovalReport(d: Diagnostic, policy: Option<Policy>) returns (ok: bool)
    ensures ok <==> Permitted(Elements(d.remove), policy)
  {
    if d.remove == [] { return true; }
    assert d.remove[0] in d.remove && d.remove[0] in Elements(d.remove);
    if policy.None? { return false; }
    ok := forall x :: x in d.remove ==> x in policy.value.allowed;
  }

  /** A simulation the gate lets through: it ran, it can be read, and every removal it plans is permitted. */
  ghost predicate Acceptable(a: Answer, policy: Option<Policy>) {
    a.code == 0 && Parsable(a.apt) && Permitted(ToRemove(a.apt), policy)
  }

  ghost predicate Simulates(sim: Simulation, a: Answer) {
    sim.transaction == Transaction(a.apt) && Reports(sim.diagnostic, a.apt)
  }

  lemma ReportedRemovals(d: Diagnostic, lines: seq<Line>)
    requires Reports(d, lines)
    ensures Elements(d.remove) == ToRemove(lines) && Lists(d.remove, ToRemove(lines))
  {
    hide ToRemove, Stated, Listed, Sorted;
  }

  method ReadSimulation(a: Answer, policy: Option<Policy>) returns (r: Result<Simulation, GateError>)
    requires a.code == 0
    ensures r.Ok? <==> Acceptable(a, policy)
    ensures r.Ok? ==> Simulates(r.value, a)
    ensures r != Err(RemovedWithoutPolicy)
  {
    hide Parsable, Reports, ToRemove, Transaction, Permitted;
    var d := ParseDiagnostic(a.apt);
    if d.Err? { return Err(BadOutput(d.error)); }
    ReportedRemovals(d.value, a.apt);
    var ok := ValidateRemovalReport(d.value, policy);
    if !ok { return Err(ForbiddenRemovals); }
    var steps := ParseSimulation(a.apt);
    return Ok(Simulation(steps.value, d.value));
  }

  // ----- Installed packages -----

  function InstalledIn(lines: seq<StatusLine>): set<string> {
    set l | l in lines && l.Status? && l.installed :: l.name
  }

  predicate Readable(a: Answer) { a.code == 0 && BadStatus !in a.packages }

  method ParseInstalled(lines: seq<StatusLine>) returns (r: Result<set<string>, GateError>)
    ensures r.Ok? <==> BadStatus !in lines
    ensures r.Ok? ==> r.value == InstalledIn(lines)
    ensures r != Err(RemovedWithoutPolicy)
  {
    var installed: set<string> := {};
    for i := 0 to |lines|
      invariant BadStatus !in lines[..i] && installed == InstalledIn(lines[..i])
    {
      assert lines[..i + 1] == lines[..i] + [lines[i]];
      if lines[i].BadStatus? { return Err(BadSnapshot); }
      InstalledNext(lines[..i], lines[i]);
      if lines[i].installed { installed := installed + {lines[i].name}; }
    }
    assert lines[..|lines|] == lines;
    return Ok(installed);
  }

  lemma InstalledNext(lines: seq<StatusLine>, l: StatusLine)
    requires l.Status?
    ensures InstalledIn(lines + [l]) == InstalledIn(lines) + if l.installed then {l.name} else {}
  {
    forall x ensures x in InstalledIn(lines + [l]) <==> x in InstalledIn(lines) + if l.installed then {l.name} else {} {
      if x in InstalledIn(lines) {
        var k :| k in lines && k.Status? && k.installed && k.name == x;
        assert k in lines + [l];
      }
      if l.installed && x == l.name { assert l in lines + [l]; }
    }
  }

  method ValidateActualRemovals(before: set<string>, after: set<string>, expected: seq<string>)
    returns (r: Result<seq<string>, GateError>)
    ensures r.Ok? <==> before - after == Elements(expected)
    ensures r.Ok? ==> Lists(r.value, before - after)
    ensures r != Err(RemovedWithoutPolicy)
  {
    hide Lists;
    var wanted := Elements(expected);
    var actual := SortSet(before - after);
    if before - after - wanted != {} || wanted - (before - after) != {} { return Err(RemovalsDiffer); }
    assert before - after == wanted;
    return Ok(actual);
  }

  // ----- Installing a locked package set -----

  ghost predicate OnlySimulations(part: seq<Exchange>, specs: seq<string>) {
    forall i :: 0 <= i < |part| ==> part[i].command.Simulate? && part[i].command.specs == specs
  }

  /** The simulation agrees with the lock in every row and in what it removes. */
  ghost predicate Agrees(a: Answer, s: PackageSet) {
    Acceptable(a, s.policy) && Transaction(a.apt) == Expected(s) && Lists(s.removed, ToRemove(a.apt))
  }

  /** The mutating command at `i` came directly after an agreeing simulation of the same packages and a snapshot. */
  ghost predicate Guarded(part: seq<Exchange>, i: int, s: PackageSet) {
    2 <= i < |part| && part[i].command == Apply(Specs(s), s.removed == []) &&
    part[i - 1].command == ListInstalled && Readable(part[i - 1].answer) &&
    part[i - 2].command.Simulate? && part[i - 2].command.specs == Specs(s) && Agrees(part[i - 2].answer, s)
  }

  /** The only command that changes the root filesystem is a guarded one, issued at most once. */
  ghost predicate AllGuarded(part: seq<Exchange>, s: PackageSet) {
    (forall i :: 0 <= i < |part| && part[i].command.Apply? ==> Guarded(part, i, s)) &&
    (forall i, j :: 0 <= i < |part| && 0 <= j < |part| && part[i].command.Apply? && part[j].command.Apply? ==> i == j)
  }

  /** The whole promise of a successful installation. */
  ghost predicate Fulfilled(part: seq<Exchange>, s: PackageSet, e: Evidence) {
    |part| >= 4 && Guarded(part, |part| - 2, s) && part[|part| - 2].answer.code == 0 &&
    part[|part| - 1].command == ListInstalled && Readable(part[|part| - 1].answer) &&
    var before, after := InstalledIn(part[|part| - 3].answer.packages), InstalledIn(part[|part| - 1].answer.packages);
    Lists(s.removed, before - after) && e.removed == s.removed && Permitted(before - after, s.policy) &&
    (forall i :: 0 <= i < |s.packages| ==> s.packages[i].name in after) &&
    e.policyVersion == (if s.policy.Some? then s.policy.value.version else DENY_ALL) &&
    e.allowed == (if s.policy.Some? then s.policy.value.allowed else [])
  }

  /** Without a policy a successful installation removed nothing, and ran with removals switched off. */
  lemma WithoutPolicyNothingIsRemoved(part: seq<Exchange>, s: PackageSet, e: Evidence)
    requires Fulfilled(part, s, e) && s.policy.None?
    ensures e.removed == [] && part[|part| - 2].command == Apply(Specs(s), true)
    ensures InstalledIn(part[|part| - 3].answer.packages) <= InstalledIn(part[|part| - 1].answer.packages)
  {
    hide Specs, InstalledIn, Agrees, Readable, Sorted;
    var gone := InstalledIn(part[|part| - 3].answer.packages) - InstalledIn(part[|part| - 1].answer.packages);
    assert gone == {};
    ListsNothing(s.removed);
    var before, after := InstalledIn(part[|part| - 3].answer.packages), InstalledIn(part[|part| - 1].answer.packages);
    assert forall x :: x in before && x !in after ==> x in gone;
  }

  class Session {
    var active: bool
    var log: seq<Exchange>

    constructor ()
      ensures active && log == []
    {
      active, log := true, [];
    }

    /** One guest command; the guest may answer anything. */
    method Run(command: Command, check: bool) returns (r: Result<Answer, GateError>)
      modifies this`log
      ensures !active ==> r == Err(NotActive) && log == old(log)
      ensures active ==> |log| == |old(log)| + 1 && log[..|old(log)|] == old(log) && log[|old(log)|].command == command
      ensures active ==> var a := log[|old(log)|].answer;
        r == if check && a.code != 0 then Err(CommandFailed(a.forbidden)) else Ok(a)
    {
      if !active { return Err(NotActive); }
      var code, apt, packages, forbidden := *, *, *, *;
      var a := Answer(code, apt, packages, forbidden);
      log := log + [Exchange(command, a)];
      return if check && code != 0 then Err(CommandFailed(forbidden)) else Ok(a);
    }

    /** The simulation is accepted exactly when its last answer is acceptable. */
    method SimulateTransaction(specs: seq<string>, policy: Option<Policy>) returns (r: Result<Simulation, GateError>)
      modifies this`log
      ensures old(log) <= log && OnlySimulations(log[|old(log)|..], specs)
      ensures active ==> |log| > |old(log)| && (r.Ok? <==> Acceptable(log[|log| - 1].answer, policy))
      ensures r.Ok? ==> active && Simulates(r.value, log[|log| - 1].answer)
      ensures r != Err(RemovedWithoutPolicy)
    {
      hide Acceptable, Simulates;
      var first := Run(Simulate(specs, true), true);
      if !active { return Err(NotActive); }
      if first.Ok? {
        r := ReadSimulation(first.value, policy);
        return;
      }
      FailedIsUnacceptable(log[|log| - 1].answer, policy);
      if !first.error.forbidden { return Err(first.error); }
      var second := Run(Simulate(specs, false), false);
      if second.value.code != 0 {
        FailedIsUnacceptable(second.value, policy);
        return Err(DiagnosticFailed);
      }
      r := ReadSimulation(second.value, policy);
    }

    lemma FailedIsUnacceptable(a: Answer, policy: Option<Policy>)
      requires a.code != 0
      ensures !Acceptable(a, policy)
    {}

    method InstalledPackageNames() returns (r: Result<set<string>, GateError>)
      modifies this`log
      ensures !active ==> r == Err(NotActive) && log == old(log)
      ensures active ==> |log| == |old(log)| + 1 && log[..|old(log)|] == old(log) && log[|old(log)|].command == ListInstalled
      ensures active ==> (r.Ok? <==> Readable(log[|old(log)|].answer))
      ensures r != Err(RemovedWithoutPolicy)
      ensures active && r.Ok? ==> r.value == InstalledIn(log[|old(log)|].answer.packages)
    {
      var answer := Run(ListInstalled, true);
      if answer.Err? { return Err(answer.error); }
      r := ParseInstalled(answer.value.packages);
    }

    /**
     * Installing is attempted only right after a simulation that equals the lock; and if it succeeds, exactly the
     * locked removals happened and every locked package is there. The branch for removals without a policy is dead.
     */
    method InstallLockedPackageSet(s: PackageSet) returns (r: Result<Evidence, GateError>)
      modifies this`log
      ensures old(log) <= log && AllGuarded(log[|old(log)|..], s)
      ensures r.Ok? ==> Fulfilled(log[|old(log)|..], s, r.value)
      ensures r != Err(RemovedWithoutPolicy)
    {
      hide Acceptable, Simulates, Expected, Specs, Lists, InstalledIn, Readable, Permitted, Agrees, ToRemove, Transaction, Reports;
      hide OnlySimulations, AllGuarded, Fulfilled;
      ghost var start := |log|;
      var simulation := SimulateTransaction(Specs(s), s.policy);
      ghost var sims := log[start..];
      NothingApplied(sims, Specs(s), s);
      if simulation.Err? { return Err(simulation.error); }
      ghost var sim := log[|log| - 1].answer;
      LastSimulation(sims, Specs(s));
      if simulation.value.transaction != Expected(s) { return Err(TransactionChanged); }
      if simulation.value.diagnostic.remove != s.removed { return Err(RemovalsChanged); }
      AgreesNow(sim, s, simulation.value);
      var verified: bool := *;
      if !verified { return Err(ArchivesChanged); }
      var before := InstalledPackageNames();
      ghost var b := log[|log| - 1];
      assert log[start..] == sims + [b];
      ListedOnly(sims, b, s);
      if before.Err? { return Err(before.error); }
      var applied := Run(Apply(Specs(s), s.removed == []), true);
      ghost var x := log[|log| - 1];
      assert log[start..] == sims + [b, x];
      AppliedOnce(sims, b, x, s);
      if applied.Err? { return Err(applied.error); }
      var after := InstalledPackageNames();
      ghost var a := log[|log| - 1];
      assert log[start..] == sims + [b, x, a];
      AppliedAndListed(sims, b, x, a, s);
      if after.Err? { return Err(after.error); }
      var removed := ValidateActualRemovals(before.value, after.value, s.removed);
      if removed.Err? { return Err(removed.error); }
      RemovedAsLocked(sim, s, before.value, after.value, removed.value);
      if exists i :: 0 <= i < |s.packages| && s.packages[i].name !in after.value { return Err(NotInstalled); }
      if s.policy.None? && removed.value != [] {
        assert false;
        return Err(RemovedWithoutPolicy);
      }
      var evidence := Evidence(removed.value, if s.policy.Some? then s.policy.value.version else DENY_ALL,
        if s.policy.Some? then s.policy.value.allowed else []);
      AllFulfilled(sims, b, x, a, s, evidence);
      return Ok(evidence);
    }

    lemma NothingApplied(sims: seq<Exchange>, specs: seq<string>, s: PackageSet)
      requires OnlySimulations(sims, specs)
      ensures AllGuarded(sims, s)
    {}

    lemma LastSimulation(sims: seq<Exchange>, specs: seq<string>)
      requires OnlySimulations(sims, specs) && sims != []
      ensures sims[|sims| - 1].command.Simulate? && sims[|sims| - 1].command.specs == specs
    {}

    lemma ListedOnly(sims: seq<Exchange>, b: Exchange, s: PackageSet)
      requires OnlySimulations(sims, Specs(s)) && b.command == ListInstalled
      ensures AllGuarded(sims + [b], s)
    {
      hide Specs, Guarded;
    }

    lemma AppliedOnce(sims: seq<Exchange>, b: Exchange, x: Exchange, s: PackageSet)
      requires OnlySimulations(sims, Specs(s)) && sims != [] && Agrees(sims[|sims| - 1].answer, s)
      requires b.command == ListInstalled && Readable(b.answer) && x.command == Apply(Specs(s), s.removed == [])
      ensures AllGuarded(sims + [b, x], s)
    {
      hide Specs, Readable, Agrees;
      assert Guarded(sims + [b, x], |sims| + 1, s);
    }

    lemma AppliedAndListed(sims: seq<Exchange>, b: Exchange, x: Exchange, a: Exchange, s: PackageSet)
      requires OnlySimulations(sims, Specs(s)) && sims != [] && Agrees(sims[|sims| - 1].answer, s)
      requires b.command == ListInstalled && Readable(b.answer) && x.command == Apply(Specs(s), s.removed == [])
      requires a.command == ListInstalled
      ensures AllGuarded(sims + [b, x, a], s) && Guarded(sims + [b, x, a], |sims| + 1, s)
    {
      hide Specs, Readable, Agrees;
      assert Guarded(sims + [b, x, a], |sims| + 1, s);
    }

    lemma AllFulfilled(sims: seq<Exchange>, b: Exchange, x: Exchange, a: Exchange, s: PackageSet, e: Evidence)
      requires sims != [] && Guarded(sims + [b, x, a], |sims| + 1, s) && x.answer.code == 0
      requires a.command == ListInstalled && Readable(a.answer)
      requires var before, after := InstalledIn(b.answer.packages), InstalledIn(a.answer.packages);
        Lists(s.removed, before - after) && Permitted(before - after, s.policy) &&
        forall i :: 0 <= i < |s.packages| ==> s.packages[i].name in after
      requires e.removed == s.removed && e.policyVersion == (if s.policy.Some? then s.policy.value.version else DENY_ALL)
      requires e.allowed == (if s.policy.Some? then s.policy.value.allowed else [])
      ensures Fulfilled(sims + [b, x, a], s, e)
    {
      hide Guarded, InstalledIn, Readable, Permitted, Lists;
    }

    lemma AgreesNow(a: Answer, s: PackageSet, sim: Simulation)
      requires Acceptable(a, s.policy) && Simulates(sim, a) && sim.transaction == Expected(s) && sim.diagnostic.remove == s.removed
      ensures Agrees(a, s)
    {
      hide Transaction, ToRemove, Stated, Expected, Parsable;
    }

    /** Equal as sets to the locked removals, the actual ones are the same list, and permitted. */
    lemma RemovedAsLocked(a: Answer, s: PackageSet, before: set<string>, after: set<string>, removed: seq<string>)
      requires Agrees(a, s) && before - after == Elements(s.removed) && Lists(removed, before - after)
      ensures removed == s.removed && Lists(s.removed, before - after) && Permitted(before - after, s.policy)
      ensures s.policy.None? ==> removed == []
    {
      hide Transaction, ToRemove, Expected, Parsable, Sorted;
      assert before - after == ToRemove(a.apt);
      ListingIsUnique(removed, s.removed, before - after);
      if removed != [] { assert removed[0] in before - after; }
    }
  }
}
