/** Preparing and restoring the construction chroot, with every step of the environment free to fail. */
module Chroot {
  import opened Common

  datatype Node = Directory | File(content: string) | Link(target: string)

  /** The target root filesystem: the five paths the preparation occupies, and everything else. */
  datatype Files = Files(qemu: Option<Node>, policy: Option<Node>, marker: Option<Node>, resolv: Option<Node>,
    backup: Option<Node>, others: map<string, Node>)

  /** How the resolver file was set aside. */
  datatype Saved = WasLink(target: string) | WasMoved | WasMissing

  datatype Point = Proc | Sys | Dev | DevPts

  datatype Event = MountedAt(point: Point) | UnmountTried(point: Point) | UnmountRaised(point: Point)

  /** The paths the preparation creates. */
  datatype Path = Qemu | Policy | Marker | Resolv

  /** What preparing and cleaning up ask of the host; each is asked for at most once in a session. */
  datatype Action =
    | CheckCaller
    | CheckBinfmt
    | FindBinary
    | FindResolver
    | MakeParents(path: Path)
    | Create(path: Path)
    | MakeExecutable
    | SetAside
    | MountOn(point: Point)
    | Unmount(point: Point)
    | Unlink(path: Path)
    | PutBack

  /**
   * How an action ends. Creating a file is refused with nothing there, or breaks with part or all of it there; a mount
   * is refused, or mounts and then reports failure; an unmount is refused with an exit status, or its command cannot be
   * started and raises.
   */
  datatype Outcome = Done | Refused | Broken

  type Host = Action -> Outcome

  datatype CleanupError = CannotUnmount(point: Point) | CannotRestoreResolv

  /** How a cleanup ended: it went through (perhaps with complaints), or an unmount or the removal of a file raised. */
  datatype Cleanup = Finished(errors: seq<CleanupError>) | Aborted

  datatype Entry = Entered | NotPermitted | Failed(cleanup: Cleanup)

  const POINTS := [Proc, Sys, Dev, DevPts]

  /** Every path the preparation touches is as it was. */
  predicate SameProtected(before: Files, files: Files) { files == before.(others := files.others) }

  /** Elsewhere nothing is lost or altered; only directories may be new. */
  ghost predicate OnlyNewDirectories(before: Files, files: Files) {
    forall p :: (p in before.others ==> p in files.others && files.others[p] == before.others[p]) &&
      (p in files.others && p !in before.others ==> files.others[p] == Directory)
  }

  lemma OnlyNewStill(before: Files, middle: Files, files: Files)
    requires OnlyNewDirectories(before, middle) && OnlyNewDirectories(middle, files)
    ensures OnlyNewDirectories(before, files)
  {}

  lemma SameElsewhere(before: Files, middle: Files, files: Files)
    requires OnlyNewDirectories(before, middle) && middle.others == files.others
    ensures OnlyNewDirectories(before, files)
  {}

  // ----- How far the host lets a preparation come; `d` asks for the marker -----

  predicate BeginsQemu(h: Host, f: Files) {
    h(CheckBinfmt).Done? && h(FindBinary).Done? && h(MakeParents(Qemu)).Done? && f.qemu.None?
  }

  predicate BeginsPolicy(h: Host, f: Files) {
    BeginsQemu(h, f) && h(Create(Qemu)).Done? && h(MakeParents(Policy)).Done? && f.policy.None?
  }

  predicate BeginsMarker(h: Host, f: Files, d: bool) {
    BeginsPolicy(h, f) && h(Create(Policy)).Done? && h(MakeExecutable).Done? &&
    d && h(MakeParents(Marker)).Done? && f.marker.None?
  }

  predicate MakesMarker(h: Host, f: Files, d: bool) { BeginsMarker(h, f, d) && h(Create(Marker)).Done? }

  predicate BeginsResolv(h: Host, f: Files, d: bool) {
    BeginsPolicy(h, f) && h(Create(Policy)).Done? && h(MakeExecutable).Done? && (d ==> MakesMarker(h, f, d)) &&
    h(MakeParents(Resolv)).Done? && h(FindResolver).Done? &&
    (f.resolv.Some? && !f.resolv.value.Link? ==> f.backup.None? && h(SetAside).Done?)
  }

  predicate MakesFiles(h: Host, f: Files, d: bool) {
    BeginsResolv(h, f, d) && (f.resolv.Some? ==> h(SetAside).Done?) && h(Create(Resolv)).Done?
  }

  predicate IsMounted(h: Host, f: Files, d: bool, k: nat)
    requires k < |POINTS|
  {
    MakesFiles(h, f, d) && forall i :: 0 <= i <= k ==> h(MountOn(POINTS[i])).Done?
  }

  // ----- What then goes wrong, if anything -----

  /** The marker is created and raises afterwards, before it is noted as created. */
  predicate Leaks(h: Host, f: Files, d: bool) { BeginsMarker(h, f, d) && h(Create(Marker)).Broken? }

  predicate UnmountRaises(h: Host, f: Files, d: bool) {
    exists k :: 0 <= k < |POINTS| && IsMounted(h, f, d, k) && h(Unmount(POINTS[k])).Broken?
  }

  /** A file system is mounted by a command that then reports failure, so that nobody notes it as mounted. */
  predicate MountStrays(h: Host, f: Files, d: bool) {
    exists k :: 0 <= k < |POINTS| && MakesFiles(h, f, d) && (k > 0 ==> IsMounted(h, f, d, k - 1)) && h(MountOn(POINTS[k])).Broken?
  }

  /** The resolver file comes back, or was never changed. */
  predicate ResolvComesBack(h: Host, f: Files) {
    match f.resolv
    case None => h(Unlink(Resolv)).Done? || h(Create(Resolv)).Refused?
    case Some(Link(_)) => (h(Unlink(Resolv)).Done? && h(PutBack).Done?) || (!h(SetAside).Done? && !h(Unlink(Resolv)).Done?)
    case Some(_) => h(Unlink(Resolv)).Done? && h(PutBack).Done?
  }

  /** After a complete preparation: no removal raises. */
  predicate RemovesCreated(h: Host, d: bool) {
    h(Unlink(Policy)).Done? && (d ==> h(Unlink(Marker)).Done?) && h(Unlink(Qemu)).Done?
  }

  /** Exactly when every protected path ends as it was. */
  predicate Restores(h: Host, f: Files, d: bool) {
    !Leaks(h, f, d) && !UnmountRaises(h, f, d) &&
    (BeginsQemu(h, f) && !h(Create(Qemu)).Refused? ==> h(Unlink(Qemu)).Done?) &&
    (BeginsPolicy(h, f) ==> h(Unlink(Policy)).Done?) &&
    (MakesMarker(h, f, d) ==> h(Unlink(Marker)).Done?) &&
    (BeginsResolv(h, f, d) ==> ResolvComesBack(h, f))
  }

  /** No step of the cleanup raises; an unmount may still be refused. */
  ghost predicate CleansUp(h: Host) {
    (forall p :: h(Unlink(p)).Done?) && (forall p :: !h(Unmount(p)).Broken?) && h(PutBack).Done?
  }

  /** With a cleanup that does not raise, the leaked marker is the only way to leave something behind. */
  lemma OnlyTheMarkerLeaks(h: Host, f: Files, d: bool)
    requires CleansUp(h)
    ensures Restores(h, f, d) <==> !Leaks(h, f, d)
  {}

  function Reversed(s: seq<Point>): seq<Point> { seq(|s|, i requires 0 <= i < |s| => s[|s| - 1 - i]) }

  function Mounts(s: seq<Point>): seq<Event> { seq(|s|, i requires 0 <= i < |s| => MountedAt(s[i])) }

  function Unmounts(s: seq<Point>): seq<Event> { seq(|s|, i requires 0 <= i < |s| => UnmountTried(s[i])) }

  /** The mounts that succeeded, then one unmount attempt for each in reverse order. */
  ghost predicate Balanced(log: seq<Event>) {
    exists k :: 0 <= k <= |POINTS| && log == Mounts(POINTS[..k]) + Unmounts(Reversed(POINTS[..k]))
  }

  lemma BalancedAfter(points: seq<Point>, log: seq<Event>)
    requires points <= POINTS && log == Mounts(points) + Unmounts(Reversed(points))
    ensures Balanced(log)
  {
    assert POINTS[..|points|] == points;
  }

  lemma LastUnmount(s: seq<Point>, i: nat)
    requires i < |s|
    ensures Unmounts(Reversed(s[i..])) == Unmounts(Reversed(s[i + 1..])) + [UnmountTried(s[i])]
  {}

  /** The unmounts up to the first, from the end, that raises. */
  ghost predicate RaisedWithin(h: Host, mounted: seq<Point>, was: seq<Event>, log: seq<Event>) {
    exists i :: 0 <= i < |mounted| && h(Unmount(mounted[i])).Broken? &&
      log == was + Unmounts(Reversed(mounted[i + 1..])) + [UnmountRaised(mounted[i])]
  }

  lemma RaisedIsUnbalanced(h: Host, mounted: seq<Point>, was: seq<Event>, log: seq<Event>)
    requires RaisedWithin(h, mounted, was, log)
    ensures !Balanced(log)
  {
    assert log[|log| - 1].UnmountRaised?;
  }

  /** What the log holds beside the mounts that are noted. */
  function Stray(h: Host, mounted: seq<Point>): (r: seq<Event>)
    ensures |r| <= 1 && (mounted == POINTS ==> r == [])
  {
    if |mounted| < |POINTS| && h(MountOn(POINTS[|mounted|])).Broken? then [MountedAt(POINTS[|mounted|])] else []
  }

  lemma StrayIsUnbalanced(points: seq<Point>, e: Event)
    ensures !Balanced(Mounts(points) + [e] + Unmounts(Reversed(points)))
  {
    hide Balanced;
    var log := Mounts(points) + [e] + Unmounts(Reversed(points));
    assert |log| == 2 * |points| + 1;
    if Balanced(log) { BalancedIsEven(log); }
  }

  lemma BalancedIsEven(log: seq<Event>)
    requires Balanced(log)
    ensures |log| % 2 == 0
  {}

  lemma MountsNothing(h: Host, before: Files, d: bool)
    ensures Mounts([]) == []
    ensures !MakesFiles(h, before, d) ==> MountedAsAnswered([], h, before, d) && !MountStrays(h, before, d)
  {}

  /** Mounting changes nothing that the answers so far decided. */
  lemma MountsOnly(s: State, t: State, h: Host, before: Files, d: bool)
    requires AsAnswered(s, h, before, d) && MakesFiles(h, before, d)
    requires t == s.(mounted := t.mounted, files := t.files) && SameProtected(s.files, t.files)
    requires t.mounted <= POINTS && forall i :: 0 <= i < |t.mounted| ==> h(MountOn(POINTS[i])).Done?
    requires t.mounted == POINTS || !h(MountOn(POINTS[|t.mounted|])).Done?
    ensures AsAnswered(t, h, before, d) && MountedAsAnswered(t.mounted, h, before, d)
    ensures t.mounted == POINTS <==> IsMounted(h, before, d, |POINTS| - 1)
    ensures Stray(h, t.mounted) != [] <==> MountStrays(h, before, d)
  {
    hide MakesFiles, Leaks, BeginsResolv, MakesMarker, BeginsPolicy, BeginsQemu;
    assert AsAnswered(t, h, before, d);
    forall k | 0 <= k < |POINTS| ensures k < |t.mounted| <==> IsMounted(h, before, d, k) {
      if k >= |t.mounted| { assert !h(MountOn(POINTS[|t.mounted|])).Done?; }
    }
  }

  /** A cleanup that restored every file it knew of, whatever the unmounts answered. */
  predicate Restored(c: Cleanup) { c.Finished? && CannotRestoreResolv !in c.errors }

  // ----- The fields, and what a cleanup makes of them -----

  /** The fields of the chroot, and whether a marker is there that no field knows of. */
  datatype State = State(files: Files, mounted: seq<Point>, saved: Option<Saved>, qemuCreated: bool, policyCreated: bool,
    markerCreated: bool, leaked: bool)

  /** But for a leaked marker, the flags and the saved resolver state are enough to get back to `before`. */
  predicate Restorable(s: State, before: Files) {
    before.qemu == (if s.qemuCreated then None else s.files.qemu) &&
    before.policy == (if s.policyCreated then None else s.files.policy) &&
    before.marker == (if s.markerCreated || s.leaked then None else s.files.marker) &&
    (s.leaked ==> s.files.marker.Some? && !s.markerCreated) &&
    match s.saved
    case None => before.resolv == s.files.resolv && before.backup == s.files.backup
    case Some(WasLink(target)) => before.resolv == Some(Link(target)) && before.backup == s.files.backup
    case Some(WasMoved) =>
      before.resolv == s.files.backup && before.resolv.Some? && !before.resolv.value.Link? && before.backup.None?
    case Some(WasMissing) => before.resolv.None? && before.backup == s.files.backup
  }

  /** The flags and the files are what the host's answers make of them. */
  predicate AsAnswered(s: State, h: Host, before: Files, d: bool) {
    Restorable(s, before) &&
    (s.qemuCreated <==> BeginsQemu(h, before)) &&
    (s.qemuCreated ==> (s.files.qemu.None? <==> h(Create(Qemu)).Refused?)) &&
    (s.policyCreated <==> BeginsPolicy(h, before)) &&
    (s.markerCreated <==> MakesMarker(h, before, d)) && (s.markerCreated ==> s.files.marker.Some?) &&
    (s.leaked <==> Leaks(h, before, d)) &&
    (s.saved.Some? <==> BeginsResolv(h, before, d)) &&
    (s.saved.Some? ==> ResolvAsAnswered(s.files.resolv, h, before.resolv))
  }

  predicate ResolvAsAnswered(resolv: Option<Node>, h: Host, before: Option<Node>) {
    if before.Some? && !h(SetAside).Done? then resolv == before
    else if h(Create(Resolv)).Refused? then resolv.None?
    else resolv.Some? && resolv.value.File?
  }

  predicate MountedAsAnswered(mounted: seq<Point>, h: Host, before: Files, d: bool) {
    mounted <= POINTS && forall k :: 0 <= k < |POINTS| ==> (k < |mounted| <==> IsMounted(h, before, d, k))
  }

  predicate Raises(s: State, h: Host) { exists i :: 0 <= i < |s.mounted| && h(Unmount(s.mounted[i])).Broken? }

  predicate DropsPolicy(s: State, h: Host) { s.policyCreated ==> h(Unlink(Policy)).Done? }

  predicate DropsMarker(s: State, h: Host) { DropsPolicy(s, h) && (s.markerCreated ==> h(Unlink(Marker)).Done?) }

  predicate DropsQemu(s: State, h: Host) { DropsMarker(s, h) && (s.qemuCreated ==> h(Unlink(Qemu)).Done?) }

  /** The created files go in the order policy, marker, helper binary, up to the first removal that raises. */
  function Removed(s: State, h: Host): State {
    s.(policyCreated := s.policyCreated && !DropsPolicy(s, h),
      markerCreated := s.markerCreated && !DropsMarker(s, h),
      qemuCreated := s.qemuCreated && !DropsQemu(s, h),
      files := s.files.(policy := if s.policyCreated && DropsPolicy(s, h) then None else s.files.policy,
        marker := if s.markerCreated && DropsMarker(s, h) then None else s.files.marker,
        qemu := if s.qemuCreated && DropsQemu(s, h) then None else s.files.qemu))
  }

  predicate PutsBack(s: State, h: Host) {
    s.saved.Some? ==> h(Unlink(Resolv)).Done? && (s.saved.value.WasMissing? || h(PutBack).Done?)
  }

  function ResolvRestored(s: State, h: Host): State {
    if s.saved.None? || !h(Unlink(Resolv)).Done? then s
    else if !PutsBack(s, h) then s.(files := s.files.(resolv := None))
    else match s.saved.value
      case WasLink(target) => s.(saved := None, files := s.files.(resolv := Some(Link(target))))
      case WasMoved => s.(saved := None, files := s.files.(resolv := s.files.backup, backup := None))
      case WasMissing => s.(saved := None, files := s.files.(resolv := None))
  }

  /** An unmount that raises leaves everything as it is; a removal that raises leaves the resolver set aside. */
  function CleanedUp(s: State, h: Host): State {
    if Raises(s, h) then s
    else
      var t := Removed(s.(mounted := []), h);
      if DropsQemu(s, h) then ResolvRestored(t, h) else t
  }

  /** The cleanup raised nothing and restored the resolver. */
  predicate WentThrough(s: State, h: Host) { !Raises(s, h) && DropsQemu(s, h) && PutsBack(s, h) }

  /** Cleaning up never loses what restoring needs, so that cleaning up again can finish the work. */
  lemma CleanupKeepsRestorable(s: State, h: Host, before: Files)
    requires Restorable(s, before)
    ensures Restorable(CleanedUp(s, h), before)
    ensures WentThrough(s, h) ==> (SameProtected(before, CleanedUp(s, h).files) <==> !s.leaked)
  {
    hide Restorable;
    UnmountedKeeps(s, before);
    RemovedKeeps(s.(mounted := []), h, before);
    ResolvKeeps(Removed(s.(mounted := []), h), h, before);
    NothingOwed(CleanedUp(s, h), before);
  }

  lemma UnmountedKeeps(s: State, before: Files)
    requires Restorable(s, before)
    ensures Restorable(s.(mounted := []), before)
  {}

  lemma RemovedKeeps(s: State, h: Host, before: Files)
    requires Restorable(s, before)
    ensures Restorable(Removed(s, h), before)
  {}

  lemma ResolvKeeps(s: State, h: Host, before: Files)
    requires Restorable(s, before)
    ensures Restorable(ResolvRestored(s, h), before)
  {}

  lemma NothingOwed(s: State, before: Files)
    requires Restorable(s, before)
    ensures !s.qemuCreated && !s.policyCreated && !s.markerCreated && s.saved.None? ==>
      (SameProtected(before, s.files) <==> !s.leaked)
  {}

  /** What the host answered decides whether the protected paths are restored. */
  lemma AnswersDecide(s: State, h: Host, before: Files, d: bool)
    requires AsAnswered(s, h, before, d) && MountedAsAnswered(s.mounted, h, before, d)
    ensures CleanedUp(s, h).files.others == s.files.others && (CleansUp(h) ==> WentThrough(s, h))
    ensures SameProtected(before, CleanedUp(s, h).files) <==> Restores(h, before, d)
    ensures Raises(s, h) <==> UnmountRaises(h, before, d)
    ensures WentThrough(s, h) ==> (SameProtected(before, CleanedUp(s, h).files) <==> !Leaks(h, before, d))
    ensures Restorable(CleanedUp(s, h), before) && s.leaked == CleanedUp(s, h).leaked == Leaks(h, before, d)
  {
    MountsDecide(s, h, before, d);
  }

  /** The log tells whether a mount went unnoted or an unmount raised. */
  lemma CleanupIsLogged(s: State, h: Host, stray: seq<Event>, log: seq<Event>)
    requires s.mounted <= POINTS && |stray| <= 1
    requires if Raises(s, h) then RaisedWithin(h, s.mounted, Mounts(s.mounted) + stray, log)
      else log == Mounts(s.mounted) + stray + Unmounts(Reversed(s.mounted))
    ensures Balanced(log) <==> !Raises(s, h) && stray == []
  {
    hide Balanced, Mounts, Unmounts, Reversed, RaisedWithin, Raises;
    if Raises(s, h) {
      RaisedIsUnbalanced(h, s.mounted, Mounts(s.mounted) + stray, log);
    } else if stray == [] {
      assert Mounts(s.mounted) + stray == Mounts(s.mounted);
      BalancedAfter(s.mounted, log);
    } else {
      assert stray == [stray[0]];
      StrayIsUnbalanced(s.mounted, stray[0]);
    }
  }

  lemma SameAnswers(s: State, t: State, h: Host, before: Files, d: bool)
    requires AsAnswered(s, h, before, d) && t == s.(files := t.files, mounted := t.mounted) && SameProtected(s.files, t.files)
    ensures AsAnswered(t, h, before, d)
  {
    hide Leaks, BeginsResolv, MakesMarker, BeginsPolicy, BeginsQemu;
  }

  lemma AllMounted(h: Host, before: Files, d: bool)
    requires IsMounted(h, before, d, |POINTS| - 1)
    ensures MakesFiles(h, before, d) && !Leaks(h, before, d) && MountedAsAnswered(POINTS, h, before, d)
    ensures !MountStrays(h, before, d)
  {}

  /** After a complete preparation, a cleanup in which anything raises leaves something behind. */
  lemma EnteredLeavesMuch(s: State, h: Host, before: Files, d: bool)
    requires AsAnswered(s, h, before, d) && MakesFiles(h, before, d)
    ensures SameProtected(before, CleanedUp(s, h).files) <==> WentThrough(s, h)
    ensures DropsQemu(s, h) <==> RemovesCreated(h, d)
  {}

  lemma MountsDecide(s: State, h: Host, before: Files, d: bool)
    requires MountedAsAnswered(s.mounted, h, before, d)
    ensures Raises(s, h) <==> UnmountRaises(h, before, d)
    ensures Raises(s, h) ==> MakesFiles(h, before, d)
  {
    hide MakesFiles;
    if Raises(s, h) {
      var i :| 0 <= i < |s.mounted| && h(Unmount(s.mounted[i])).Broken?;
      assert IsMounted(h, before, d, i);
    }
    if UnmountRaises(h, before, d) {
      var k :| 0 <= k < |POINTS| && IsMounted(h, before, d, k) && h(Unmount(POINTS[k])).Broken?;
      assert s.mounted[k] == POINTS[k];
    }
  }

  class ConstructionChroot {
    const disablesPreinstall: bool
    var files: Files
    var mounted: seq<Point>
    var saved: Option<Saved>
    var qemuCreated: bool
    var policyCreated: bool
    var markerCreated: bool
    var prepared: bool
    var log: seq<Event>
    /** The marker is there although the preparation does not know it: no field of the program says so. */
    ghost var leaked: bool

    constructor (files: Files, disablesPreinstall: bool)
      ensures Idle() && this.files == files && log == [] && this.disablesPreinstall == disablesPreinstall
    {
      this.files, this.disablesPreinstall := files, disablesPreinstall;
      mounted, log, saved := [], [], None;
      qemuCreated, policyCreated, markerCreated, prepared, leaked := false, false, false, false, false;
    }

    ghost predicate Idle()
      reads this
    {
      mounted == [] && saved.None? && !qemuCreated && !policyCreated && !markerCreated && !prepared && !leaked
    }

    ghost function Now(): State
      reads this
    {
      State(files, mounted, saved, qemuCreated, policyCreated, markerCreated, leaked)
    }

    // ----- Steps of the environment -----

    /** Creating missing parent directories, which may stop anywhere. */
    method MakeDirectories()
      modifies this`files
      ensures OnlyNewDirectories(old(files), files) && SameProtected(old(files), files)
    {
      var made: set<string> := *;
      files := files.(others := (map p | p in made :: Directory) + files.others);
    }

    /** Writing a new file, which may fail with nothing, part or all of it there. */
    method WriteFile(o: Outcome) returns (node: Option<Node>)
      ensures node.None? <==> o.Refused?
      ensures node.None? || node.value.File?
    {
      var content: string := *;
      node := if o.Refused? then None else Some(File(content));
    }

    // ----- Preparation -----

    method PrepareQemu(host: Host, ghost before: Files) returns (ok: bool)
      requires Restorable(Now(), before) && !qemuCreated
      modifies this`files, this`qemuCreated
      ensures Restorable(Now(), before) && OnlyNewDirectories(old(files), files)
      ensures files == old(files).(qemu := files.qemu, others := files.others)
      ensures qemuCreated <==> host(FindBinary).Done? && host(MakeParents(Qemu)).Done? && old(files).qemu.None?
      ensures qemuCreated ==> (files.qemu.None? <==> host(Create(Qemu)).Refused?)
      ensures ok <==> qemuCreated && host(Create(Qemu)).Done?
    {
      if !host(FindBinary).Done? { return false; }
      MakeDirectories();
      if !host(MakeParents(Qemu)).Done? || files.qemu.Some? { return false; }
      qemuCreated := true;
      var node := WriteFile(host(Create(Qemu)));
      files := files.(qemu := node);
      ok := host(Create(Qemu)).Done?;
    }

    method PreparePolicy(host: Host, ghost before: Files) returns (ok: bool)
      requires Restorable(Now(), before) && !policyCreated
      modifies this`files, this`policyCreated
      ensures Restorable(Now(), before) && OnlyNewDirectories(old(files), files)
      ensures files == old(files).(policy := files.policy, others := files.others)
      ensures policyCreated <==> host(MakeParents(Policy)).Done? && old(files).policy.None?
      ensures policyCreated ==> (files.policy.None? <==> host(Create(Policy)).Refused?)
      ensures ok <==> policyCreated && host(Create(Policy)).Done? && host(MakeExecutable).Done?
    {
      MakeDirectories();
      if !host(MakeParents(Policy)).Done? || files.policy.Some? { return false; }
      policyCreated := true;
      var node := WriteFile(host(Create(Policy)));
      files := files.(policy := node);
      ok := host(Create(Policy)).Done? && host(MakeExecutable).Done?;
    }

    /** Other than the rest, the marker is flagged only after it was created: breaking in between leaks it. */
    method PrepareMarker(host: Host, ghost before: Files) returns (ok: bool)
      requires Restorable(Now(), before) && !markerCreated && !leaked
      modifies this`files, this`markerCreated, this`leaked
      ensures Restorable(Now(), before) && OnlyNewDirectories(old(files), files)
      ensures files == old(files).(marker := files.marker, others := files.others)
      ensures var begun := disablesPreinstall && host(MakeParents(Marker)).Done? && old(files).marker.None?;
        (markerCreated <==> begun && host(Create(Marker)).Done?) && (leaked <==> begun && host(Create(Marker)).Broken?)
      ensures markerCreated ==> files.marker.Some?
      ensures ok <==> !disablesPreinstall || markerCreated
    {
      if !disablesPreinstall { return true; }
      MakeDirectories();
      if !host(MakeParents(Marker)).Done? || files.marker.Some? { return false; }
      if !host(Create(Marker)).Refused? { files := files.(marker := Some(File(""))); }
      if !host(Create(Marker)).Done? {
        leaked := host(Create(Marker)).Broken?;
        return false;
      }
      markerCreated := true;
      return true;
    }

    /** What was there decides how it is set aside, which is recorded before the host's resolver replaces it. */
    method PrepareResolv(host: Host, ghost before: Files) returns (ok: bool)
      requires Restorable(Now(), before) && saved.None?
      modifies this`files, this`saved
      ensures Restorable(Now(), before) && OnlyNewDirectories(old(files), files)
      ensures files == old(files).(resolv := files.resolv, backup := files.backup, others := files.others)
      ensures saved.Some? <==> (host(MakeParents(Resolv)).Done? && host(FindResolver).Done? &&
        (old(files).resolv.Some? && !old(files).resolv.value.Link? ==> old(files).backup.None? && host(SetAside).Done?))
      ensures saved.Some? ==> ResolvAsAnswered(files.resolv, host, old(files).resolv)
      ensures ok <==> saved.Some? && (old(files).resolv.Some? ==> host(SetAside).Done?) && host(Create(Resolv)).Done?
    {
      MakeDirectories();
      if !host(MakeParents(Resolv)).Done? || !host(FindResolver).Done? { return false; }
      if files.resolv.Some? && files.resolv.value.Link? {
        saved := Some(WasLink(files.resolv.value.target));
        if !host(SetAside).Done? { return false; }
        files := files.(resolv := None);
      } else if files.resolv.Some? {
        if files.backup.Some? || !host(SetAside).Done? { return false; }
        files := files.(backup := files.resolv, resolv := None);
        saved := Some(WasMoved);
      } else {
        saved := Some(WasMissing);
      }
      var node := WriteFile(host(Create(Resolv)));
      files := files.(resolv := node);
      ok := host(Create(Resolv)).Done?;
    }

    method Mount(host: Host, point: Point) returns (ok: bool)
      modifies this`files, this`mounted, this`log
      ensures OnlyNewDirectories(old(files), files) && SameProtected(old(files), files)
      ensures ok <==> host(MountOn(point)).Done?
      ensures mounted == (if ok then old(mounted) + [point] else old(mounted))
      ensures log == (if host(MountOn(point)).Refused? then old(log) else old(log) + [MountedAt(point)])
    {
      MakeDirectories();
      if !host(MountOn(point)).Refused? { log := log + [MountedAt(point)]; }
      if !host(MountOn(point)).Done? { return false; }
      mounted := mounted + [point];
      return true;
    }

    /** The file systems are mounted in order up to the first that cannot be. */
    method MountAll(host: Host) returns (ok: bool)
      requires mounted == [] && log == []
      modifies this`files, this`mounted, this`log
      ensures SameProtected(old(files), files) && OnlyNewDirectories(old(files), files)
      ensures mounted <= POINTS && log == Mounts(mounted) + Stray(host, mounted) && (ok <==> mounted == POINTS)
      ensures forall i :: 0 <= i < |mounted| ==> host(MountOn(POINTS[i])).Done?
      ensures !ok ==> !host(MountOn(POINTS[|mounted|])).Done?
    {
      for i := 0 to |POINTS|
        invariant SameProtected(old(files), files) && OnlyNewDirectories(old(files), files)
        invariant mounted == POINTS[..i] && log == Mounts(mounted)
        invariant forall j :: 0 <= j < i ==> host(MountOn(POINTS[j])).Done?
      {
        ok := Mount(host, POINTS[i]);
        if !ok { return; }
      }
      ok := true;
    }

    method PrepareFiles(host: Host, ghost before: Files) returns (ok: bool)
      requires Idle() && files == before
      modifies this`files, this`qemuCreated, this`policyCreated, this`markerCreated, this`leaked, this`saved
      ensures AsAnswered(Now(), host, before, disablesPreinstall) && OnlyNewDirectories(before, files)
      ensures ok <==> MakesFiles(host, before, disablesPreinstall)
    {
      if !host(CheckBinfmt).Done? { return false; }
      ok := PrepareQemu(host, before);
      if !ok { return; }
      ok := PreparePolicy(host, before);
      if !ok { return; }
      ok := PrepareMarker(host, before);
      if !ok { return; }
      ok := PrepareResolv(host, before);
    }

    /**
     * Preparation either succeeds completely, exactly when the host grants every step and no path it creates is taken,
     * or cleans up before reporting its failure.
     */
    method Enter(host: Host, ghost before: Files) returns (r: Entry)
      requires Idle() && log == [] && files == before
      modifies this
      ensures r.NotPermitted? <==> !host(CheckCaller).Done?
      ensures r.NotPermitted? ==> Idle() && files == before && log == []
      ensures r.Entered? <==> host(CheckCaller).Done? && IsMounted(host, before, disablesPreinstall, |POINTS| - 1)
      ensures r.Entered? ==> AsAnswered(Now(), host, before, disablesPreinstall) && OnlyNewDirectories(before, files)
      ensures r.Entered? ==> prepared && mounted == POINTS && log == Mounts(POINTS)
      ensures r.Failed? ==> Restorable(Now(), before) && OnlyNewDirectories(before, files)
      ensures r.Failed? ==> (SameProtected(before, files) <==> Restores(host, before, disablesPreinstall))
      ensures r.Failed? ==> (leaked <==> Leaks(host, before, disablesPreinstall))
      ensures r.Failed? && Restored(r.cleanup) ==> (SameProtected(before, files) <==> !leaked)
      ensures r.Failed? && CleansUp(host) ==> Restored(r.cleanup)
      ensures r.Failed? ==>
        (Balanced(log) <==> !UnmountRaises(host, before, disablesPreinstall) && !MountStrays(host, before, disablesPreinstall))
    {
      hide Restores, Balanced, Mounts, Stray, MountStrays, Unmounts, Restored, AsAnswered, MountedAsAnswered, UnmountRaises, CleanedUp;
      hide MakesFiles, Restorable, WentThrough, SameProtected, Raises, OnlyNewDirectories;
      if !host(CheckCaller).Done? { return NotPermitted; }
      var ok := PrepareFiles(host, before);
      ghost var ready := Now();
      MountsNothing(host, before, disablesPreinstall);
      if ok {
        ok := MountAll(host);
        OnlyNewStill(before, ready.files, files);
        MountsOnly(ready, Now(), host, before, disablesPreinstall);
      }
      if ok {
        prepared := true;
        return Entered;
      }
      ghost var s := Now();
      AnswersDecide(s, host, before, disablesPreinstall);
      SameElsewhere(before, s.files, CleanedUp(s, host).files);
      ghost var stray := if MakesFiles(host, before, disablesPreinstall) then Stray(host, mounted) else [];
      assert log == Mounts(mounted) + stray;
      var cleanup := Close(host);
      CleanupIsLogged(s, host, stray, log);
      return Failed(cleanup);
    }

    // ----- Restoration -----

    /** One attempt for each mount in reverse order; a refused one is noted, one that raises ends everything. */
    method UnmountAll(host: Host) returns (raised: bool, errors: seq<CleanupError>)
      modifies this`mounted, this`log
      ensures raised <==> Raises(old(Now()), host)
      ensures mounted == if raised then old(mounted) else []
      ensures if raised then RaisedWithin(host, old(mounted), old(log), log)
        else log == old(log) + Unmounts(Reversed(old(mounted)))
      ensures forall e :: e in errors ==> e.CannotUnmount?
      ensures !raised ==>
        forall p :: (CannotUnmount(p) in errors <==> p in old(mounted) && host(Unmount(p)).Refused?)
    {
      errors := [];
      var i := |mounted|;
      while i > 0
        invariant 0 <= i <= |mounted| && mounted == old(mounted)
        invariant log == old(log) + Unmounts(Reversed(mounted[i..]))
        invariant forall j :: i <= j < |mounted| ==> !host(Unmount(mounted[j])).Broken?
        invariant forall e :: e in errors ==> e.CannotUnmount?
        invariant forall p :: CannotUnmount(p) in errors <==> p in mounted[i..] && host(Unmount(p)).Refused?
      {
        i := i - 1;
        var answer := host(Unmount(mounted[i]));
        if answer.Broken? {
          log := log + [UnmountRaised(mounted[i])];
          return true, errors;
        }
        if answer.Refused? { errors := errors + [CannotUnmount(mounted[i])]; }
        LastUnmount(mounted, i);
        log := log + [UnmountTried(mounted[i])];
      }
      assert mounted[0..] == mounted;
      mounted := [];
      raised := false;
    }

    /** The created files are removed in the order policy, marker, helper binary; a removal that raises stops it. */
    method RemoveCreated(host: Host) returns (ok: bool)
      modifies this`files, this`policyCreated, this`markerCreated, this`qemuCreated
      ensures Now() == Removed(old(Now()), host) && (ok <==> DropsQemu(old(Now()), host))
    {
      if policyCreated {
        if !host(Unlink(Policy)).Done? { return false; }
        files := files.(policy := None);
        policyCreated := false;
      }
      if markerCreated {
        if !host(Unlink(Marker)).Done? { return false; }
        files := files.(marker := None);
        markerCreated := false;
      }
      if qemuCreated {
        if !host(Unlink(Qemu)).Done? { return false; }
        files := files.(qemu := None);
        qemuCreated := false;
      }
      return true;
    }

    method RestoreResolv(host: Host) returns (ok: bool)
      modifies this`files, this`saved
      ensures Now() == ResolvRestored(old(Now()), host) && (ok <==> PutsBack(old(Now()), host))
    {
      if saved.None? { return true; }
      if !host(Unlink(Resolv)).Done? { return false; }
      files := files.(resolv := None);
      if !saved.value.WasMissing? && !host(PutBack).Done? { return false; }
      match saved.value {
        case WasLink(target) => files := files.(resolv := Some(Link(target)));
        case WasMoved => files := files.(resolv := files.backup, backup := None);
        case WasMissing =>
      }
      saved := None;
      return true;
    }

    /** Unmounting, removing and putting back; what raises ends it, and what is then still owed stays recorded. */
    method Close(host: Host) returns (r: Cleanup)
      modifies this
      ensures Now() == CleanedUp(old(Now()), host)
      ensures Restored(r) <==> WentThrough(old(Now()), host)
      ensures r.Finished? <==> !Raises(old(Now()), host) && DropsQemu(old(Now()), host)
      ensures r.Finished? ==>
        forall p :: (CannotUnmount(p) in r.errors <==> p in old(mounted) && host(Unmount(p)).Refused?)
      ensures prepared == (old(prepared) && !r.Finished?)
      ensures if Raises(old(Now()), host)
        then RaisedWithin(host, old(mounted), old(log), log)
        else log == old(log) + Unmounts(Reversed(old(mounted)))
    {
      hide Raises, Unmounts, Reversed, RaisedWithin;
      var raised, errors := UnmountAll(host);
      if raised { return Aborted; }
      var ok := RemoveCreated(host);
      if !ok { return Aborted; }
      ok := RestoreResolv(host);
      if !ok { errors := errors + [CannotRestoreResolv]; }
      prepared := false;
      return Finished(errors);
    }

    // ----- A whole session -----

    /** A guest command: any result and any change outside the protected paths. */
    method Run() returns (r: Option<int>)
      modifies this`files
      ensures r.None? <==> !prepared
      ensures !prepared ==> files == old(files)
      ensures SameProtected(old(files), files)
    {
      if !prepared { return None; }
      var others: map<string, Node> := *;
      files := files.(others := others);
      var code: int := *;
      return Some(code);
    }

    /** Entering, any number of guest commands, and leaving: when exactly the protected paths end as they began. */
    method Session(host: Host, commands: nat) returns (r: Entry, leaving: Cleanup)
      requires Idle() && log == []
      modifies this
      ensures r.NotPermitted? <==> !host(CheckCaller).Done?
      ensures r.Entered? <==> host(CheckCaller).Done? && IsMounted(host, old(files), disablesPreinstall, |POINTS| - 1)
      ensures r.NotPermitted? ==> files == old(files) && log == []
      ensures !r.NotPermitted? ==> (SameProtected(old(files), files) <==> Restores(host, old(files), disablesPreinstall))
      ensures !r.NotPermitted? ==> (Balanced(log) <==>
        !UnmountRaises(host, old(files), disablesPreinstall) && !MountStrays(host, old(files), disablesPreinstall))
      ensures r.Failed? ==> OnlyNewDirectories(old(files), files)
      ensures r.Failed? && Restored(r.cleanup) ==>
        (SameProtected(old(files), files) <==> !Leaks(host, old(files), disablesPreinstall))
      ensures r.Failed? && CleansUp(host) ==> Restored(r.cleanup)
      ensures r.Entered? ==> (SameProtected(old(files), files) <==> Restored(leaving))
      ensures r.Entered? ==> (leaving.Finished? <==>
        (!UnmountRaises(host, old(files), disablesPreinstall) && RemovesCreated(host, disablesPreinstall)))
    {
      hide Balanced, Mounts, Unmounts, Reversed, Restored, AsAnswered, Restores, UnmountRaises, CleanedUp, MakesFiles;
      hide WentThrough, Raises, RaisedWithin, Leaks, DropsQemu, RemovesCreated, MountStrays;
      leaving := Finished([]);
      ghost var before := files;
      r := Enter(host, before);
      if !r.Entered? { return; }
      for i := 0 to commands
        invariant AsAnswered(Now(), host, before, disablesPreinstall) && prepared && mounted == POINTS && log == Mounts(POINTS)
      {
        ghost var s := Now();
        var code := Run();
        SameAnswers(s, Now(), host, before, disablesPreinstall);
      }
      ghost var s := Now();
      AllMounted(host, before, disablesPreinstall);
      AnswersDecide(s, host, before, disablesPreinstall);
      EnteredLeavesMuch(s, host, before, disablesPreinstall);
      assert log == Mounts(mounted) + [];
      leaving := Close(host);
      CleanupIsLogged(s, host, [], log);
    }
  }

  // ----- The ways to fail that no flag shows -----

  function DoneBut(a: Action, o: Outcome): Host { x => if x == a then o else Done }

  predicate Free(f: Files) {
    f.qemu.None? && f.policy.None? && f.marker.None? && (f.resolv.Some? && !f.resolv.value.Link? ==> f.backup.None?)
  }

  /** One broken answer, to the creation of the marker: the cleanup reports success and the marker stays. */
  method LeakTheMarker(files: Files) returns (c: ConstructionChroot, r: Entry)
    requires Free(files)
    ensures Leaks(DoneBut(Create(Marker), Broken), files, true)
    ensures r.Failed? && Restored(r.cleanup) && !SameProtected(files, c.files) && Balanced(c.log)
  {
    var host := DoneBut(Create(Marker), Broken);
    assert CleansUp(host);
    OnlyTheMarkerLeaks(host, files, true);
    c := new ConstructionChroot(files, true);
    var leaving;
    r, leaving := c.Session(host, 0);
  }

  lemma RaisingAnswers(files: Files, d: bool, k: nat)
    requires Free(files) && k < |POINTS|
    ensures var host := DoneBut(Unmount(POINTS[k]), Broken);
      host(CheckCaller).Done? && IsMounted(host, files, d, |POINTS| - 1) &&
      UnmountRaises(host, files, d) && !Restores(host, files, d)
  {
    assert IsMounted(DoneBut(Unmount(POINTS[k]), Broken), files, d, k);
  }

  /** One broken answer, to any of the unmounts: nothing is restored and the log ends in the middle. */
  method RaiseInUnmount(files: Files, d: bool, k: nat, commands: nat) returns (c: ConstructionChroot, r: Entry, leaving: Cleanup)
    requires Free(files) && k < |POINTS|
    ensures r.Entered? && leaving.Aborted? && !SameProtected(files, c.files) && !Balanced(c.log)
  {
    var host := DoneBut(Unmount(POINTS[k]), Broken);
    RaisingAnswers(files, d, k);
    hide Free, UnmountRaises, IsMounted, Restores, Balanced, Restored, SameProtected, OnlyNewDirectories, RemovesCreated;
    c := new ConstructionChroot(files, d);
    r, leaving := c.Session(host, commands);
  }

  /** One broken answer, to any of the mounts: the cleanup reports success and the file system stays mounted. */
  method LeaveMounted(files: Files, d: bool, k: nat) returns (c: ConstructionChroot, r: Entry)
    requires Free(files) && k < |POINTS|
    ensures r.Failed? && Restored(r.cleanup) && SameProtected(files, c.files) && !Balanced(c.log)
  {
    var host := DoneBut(MountOn(POINTS[k]), Broken);
    StrayAnswers(files, d, k);
    hide Free, UnmountRaises, IsMounted, Restores, Balanced, Restored, SameProtected, OnlyNewDirectories, MountStrays, CleansUp;
    c := new ConstructionChroot(files, d);
    var leaving;
    r, leaving := c.Session(host, 0);
  }

  lemma StrayAnswers(files: Files, d: bool, k: nat)
    requires Free(files) && k < |POINTS|
    ensures var host := DoneBut(MountOn(POINTS[k]), Broken);
      host(CheckCaller).Done? && !IsMounted(host, files, d, |POINTS| - 1) && CleansUp(host) &&
      MountStrays(host, files, d) && Restores(host, files, d)
  {
    var host := DoneBut(MountOn(POINTS[k]), Broken);
    OnlyTheMarkerLeaks(host, files, d);
    assert MakesFiles(host, files, d) && (k > 0 ==> IsMounted(host, files, d, k - 1));
  }
}
