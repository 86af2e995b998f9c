/** Publishing immutable bases, and the gate that decides whether a published one may be used again. */
module BaseReuse {
  import opened Common
  import opened Sorting
  import opened BaseIdentity
  import RemovalGate

  datatype Manifest = Manifest(schemaVersion: Option<int>, baseDigest: Option<string>, rows: string)

  datatype BaseReceipt = BaseReceipt(schemaVersion: Option<int>, baseDigest: Option<string>, lockDigest: Option<string>,
    identityPolicy: Option<string>, identityVersion: Option<int>, projectionDigest: Option<string>, recipeDigest: Option<string>,
    packageSetDigest: Option<string>, removed: Option<seq<string>>, removalPolicy: Option<string>, allowed: Option<seq<string>>,
    validationPolicy: Option<string>, validationVersion: Option<int>, validation: Option<string>, manifestSha: Option<string>)

  /** One directory of `targets/`; a record is absent when its file is missing or cannot be loaded. */
  datatype Directory = Directory(base: bool, lock: Option<Lock>, receipt: Option<BaseReceipt>, manifest: Option<Manifest>)

  type Directories = map<string, Directory>

  type FileHash = Manifest -> string

  const IDENTITY_POLICY := "base-identity-v1"
  const IDENTITY_VERSION := 1
  const VALIDATION_POLICY := "base-validation-v2"
  const VALIDATION_VERSION := 2

  // ----- The gate -----

  predicate Usable(e: ArtifactEntry) { e.filename.Some? && e.size.Some? && e.officialSha1.Some? && e.sha256.Some? }

  predicate HasArtifacts(lock: Lock) {
    lock.artifacts.Some? && "bsp" in lock.artifacts.value && "sample_rootfs" in lock.artifacts.value &&
    Usable(lock.artifacts.value["bsp"]) && Usable(lock.artifacts.value["sample_rootfs"])
  }

  function ArtifactsOf(lock: Lock): seq<Artifact>
    requires HasArtifacts(lock)
  {
    [Artifact("bsp", lock.artifacts.value["bsp"].sha256.value),
      Artifact("sample_rootfs", lock.artifacts.value["sample_rootfs"].sha256.value)]
  }

  /** The lock can be read, belongs to its directory, and determines a base digest. */
  ghost predicate Locked(ds: Digests, name: string, lock: Lock) {
    lock.schemaVersion == Some(1) && name == ds.lock(lock) && Projectable(lock) && lock.packages.value.removal.Some? &&
    lock.recipe.Some? && lock.recipe.value.Some? && HasArtifacts(lock) &&
    Identifiable(ds.projection(Project(lock)), lock.recipe.value.value, ArtifactsOf(lock))
  }

  ghost predicate IsDigestOf(ds: Digests, digest: string, lock: Lock) {
    Projectable(lock) && lock.recipe.Some? && lock.recipe.value.Some? && HasArtifacts(lock) &&
    IsBaseDigest(ds, digest, ds.projection(Project(lock)), lock.recipe.value.value, ArtifactsOf(lock))
  }

  /** The receipt says what the lock determines. */
  predicate Certifies(ds: Digests, r: BaseReceipt, lock: Lock, digest: string, projection: string)
    requires lock.packages.Some? && lock.packages.value.removal.Some? && lock.recipe.Some? && lock.recipe.value.Some?
  {
    r.schemaVersion == Some(1) && r.baseDigest == Some(digest) && r.lockDigest == Some(ds.lock(lock)) &&
    r.identityPolicy == Some(IDENTITY_POLICY) && r.identityVersion == Some(IDENTITY_VERSION) &&
    r.projectionDigest == Some(projection) && r.recipeDigest == lock.recipe.value &&
    r.packageSetDigest == Some(ds.packages(lock.packages.value)) &&
    r.removed == lock.packages.value.removal.value.removed &&
    r.removalPolicy == lock.packages.value.removal.value.policyVersion &&
    r.allowed == lock.packages.value.removal.value.allowed &&
    r.validationPolicy == Some(VALIDATION_POLICY) && r.validationVersion == Some(VALIDATION_VERSION) &&
    r.validation == Some("passed")
  }

  /** Everything about a published directory fits together. */
  ghost predicate Reusable(ds: Digests, fileSha: FileHash, name: string, d: Directory) {
    d.base && d.manifest.Some? && d.lock.Some? && d.receipt.Some? && Locked(ds, name, d.lock.value) &&
    d.receipt.value.baseDigest.Some? && IsDigestOf(ds, d.receipt.value.baseDigest.value, d.lock.value) &&
    Certifies(ds, d.receipt.value, d.lock.value, d.receipt.value.baseDigest.value, ds.projection(Project(d.lock.value))) &&
    d.receipt.value.manifestSha == Some(fileSha(d.manifest.value)) &&
    d.manifest.value.schemaVersion == Some(1) && d.manifest.value.baseDigest == d.receipt.value.baseDigest
  }

  lemma OneDigest(ds: Digests, a: string, b: string, lock: Lock)
    requires IsDigestOf(ds, a, lock) && IsDigestOf(ds, b, lock)
    ensures a == b
  {
    hide IsBaseDigest;
    DigestIgnoresArtifactOrder(ds, a, b, ds.projection(Project(lock)), lock.recipe.value.value, ArtifactsOf(lock), ArtifactsOf(lock));
  }

  /** The cheap reuse gate accepts exactly the directories in which everything fits together. */
  method BaseDirectoryIsReusable(ds: Digests, fileSha: FileHash, name: string, d: Directory) returns (ok: bool)
    ensures ok <==> Reusable(ds, fileSha, name, d)
  {
    hide Projectable, Project, Identifiable, IsBaseDigest;
    if !d.base || d.manifest.None? || d.lock.None? || d.receipt.None? { return false; }
    var lock, receipt, manifest := d.lock.value, d.receipt.value, d.manifest.value;
    if lock.schemaVersion != Some(1) || receipt.schemaVersion != Some(1) || name != ds.lock(lock) { return false; }
    var projected := BuildProjection(lock);
    if projected.Err? || lock.recipe.None? || lock.recipe.value.None? { return false; }
    ProjectableHasPackages(lock);
    if lock.packages.value.removal.None? || !HasArtifacts(lock) { return false; }
    var projection := ds.projection(projected.value);
    var expected := BuildBaseDigest(ds, projection, lock.recipe.value.value, ArtifactsOf(lock));
    if expected.Err? { return false; }
    assert IsDigestOf(ds, expected.value, lock);
    if receipt.baseDigest.Some? && receipt.baseDigest.value != expected.value {
      assert !Reusable(ds, fileSha, name, d) by {
        if Reusable(ds, fileSha, name, d) { OneDigest(ds, receipt.baseDigest.value, expected.value, lock); }
      }
      return false;
    }
    return Certifies(ds, receipt, lock, expected.value, projection) &&
      receipt.manifestSha == Some(fileSha(manifest)) && manifest.schemaVersion == Some(1) &&
      manifest.baseDigest == Some(expected.value);
  }

  lemma ProjectableHasPackages(lock: Lock)
    requires Projectable(lock)
    ensures lock.packages.Some?
  {}

  // ----- Requests and candidates -----

  /** An artifact of the acquisition receipt the caller holds. */
  datatype Source = Source(filename: string, size: int, officialSha1: string, sha256: string)

  datatype Request = Request(target: map<string, string>, recipe: string, bsp: Source, sampleRootfs: Source)

  function EntryFor(s: Source): ArtifactEntry {
    ArtifactEntry(Some(s.filename), Some(s.size), Some(s.officialSha1), Some(s.sha256))
  }

  predicate Hidden(name: string) { |name| > 0 && name[0] == '.' }

  /** The directory was built for this release, by this recipe, from these artifact contents. */
  predicate Fits(d: Directory, q: Request) {
    d.lock.Some? && d.lock.value.target.Some? && "canonical_id" in d.lock.value.target.value && "canonical_id" in q.target &&
    d.lock.value.target.value["canonical_id"] == q.target["canonical_id"] && d.lock.value.recipe == Some(Some(q.recipe)) &&
    d.lock.value.artifacts.Some? && "bsp" in d.lock.value.artifacts.value && "sample_rootfs" in d.lock.value.artifacts.value &&
    d.lock.value.artifacts.value["bsp"].sha256 == Some(q.bsp.sha256) &&
    d.lock.value.artifacts.value["sample_rootfs"].sha256 == Some(q.sampleRootfs.sha256)
  }

  ghost predicate Candidate(ds: Digests, fileSha: FileHash, name: string, d: Directory, q: Request) {
    !Hidden(name) && Fits(d, q) && Reusable(ds, fileSha, name, d)
  }

  ghost predicate HasCandidate(ds: Digests, fileSha: FileHash, all: Directories, q: Request) {
    exists name :: name in all && Candidate(ds, fileSha, name, all[name], q)
  }

  /** The first reusable directory for the request by name, if there is one at all. */
  method FindReusableCandidate(ds: Digests, fileSha: FileHash, all: Directories, q: Request) returns (r: Option<string>)
    ensures r.Some? <==> HasCandidate(ds, fileSha, all, q)
    ensures r.Some? ==> r.value in all && Candidate(ds, fileSha, r.value, all[r.value], q)
    ensures r.Some? ==> forall name :: name in all && Candidate(ds, fileSha, name, all[name], q) ==> StringLeq(r.value, name)
  {
    hide Fits, Reusable, StringLeq;
    var names := SortSet(all.Keys);
    for i := 0 to |names|
      invariant forall k :: 0 <= k < i ==> names[k] in all && !Candidate(ds, fileSha, names[k], all[names[k]], q)
    {
      var name := names[i];
      assert name in names;
      if Hidden(name) || !Fits(all[name], q) { continue; }
      var reusable := BaseDirectoryIsReusable(ds, fileSha, name, all[name]);
      if reusable {
        forall other | other in all && Candidate(ds, fileSha, other, all[other], q) ensures StringLeq(name, other) {
          FirstOf(names, i, other);
        }
        return Some(name);
      }
    }
    forall name | name in all ensures !Candidate(ds, fileSha, name, all[name], q) {
      assert name in names;
    }
    return None;
  }

  lemma FirstOf(names: seq<string>, i: nat, other: string)
    requires Sorted(StringLeq, names) && i < |names| && other in names && other !in names[..i]
    ensures StringLeq(names[i], other)
  {
    hide StringLeq;
    var k :| 0 <= k < |names| && names[k] == other;
    if k == i {
      StringsAreOrdered();
      assert StringLeq(other, other);
    }
  }

  // ----- What is published -----

  function OperationName(upgrade: bool): string { if upgrade then "upgrade" else "install" }

  function EntryOf(p: RemovalGate.LockedPackage): PackageEntry {
    Entry(Some(p.name), Some(p.version), Some(p.architecture), Some(OperationName(p.upgrade)), Some(p.filename), Some(p.sha256))
  }

  function PolicyVersion(s: RemovalGate.PackageSet): string {
    if s.policy.Some? then s.policy.value.version else RemovalGate.DENY_ALL
  }

  function AllowedSet(s: RemovalGate.PackageSet): seq<string> { if s.policy.Some? then s.policy.value.allowed else [] }

  /** The package section of the lock. */
  function SectionOf(s: RemovalGate.PackageSet, seed: Seed, repositories: string): PackagesSection {
    PackagesSection(Some(SeedEntry(Some(seed.name), Some(seed.version), Some(seed.architecture))), repositories,
      Some(seq(|s.packages|, i requires 0 <= i < |s.packages| => EntryOf(s.packages[i]))),
      Some(RemovalSection(Some(s.removed), Some(PolicyVersion(s)), Some(AllowedSet(s)))))
  }

  function BuildLock(q: Request, section: PackagesSection, others: string): Lock {
    Lock(Some(1), Some(q.target), Some(section), Some(Some(q.recipe)),
      Some(map["bsp" := EntryFor(q.bsp), "sample_rootfs" := EntryFor(q.sampleRootfs)]), others)
  }

  function MakeReceipt(ds: Digests, fileSha: FileHash, lock: Lock, section: PackagesSection, recipe: string, digest: string,
      projection: string, e: RemovalGate.Evidence, manifest: Manifest): BaseReceipt {
    BaseReceipt(Some(1), Some(digest), Some(ds.lock(lock)), Some(IDENTITY_POLICY), Some(IDENTITY_VERSION), Some(projection),
      Some(recipe), Some(ds.packages(section)), Some(e.removed), Some(e.policyVersion), Some(e.allowed),
      Some(VALIDATION_POLICY), Some(VALIDATION_VERSION), Some("passed"), Some(fileSha(manifest)))
  }

  predicate Matches(e: RemovalGate.Evidence, s: RemovalGate.PackageSet) {
    e.removed == s.removed && e.policyVersion == PolicyVersion(s) && e.allowed == AllowedSet(s)
  }

  lemma FulfilledMatches(part: seq<RemovalGate.Exchange>, s: RemovalGate.PackageSet, e: RemovalGate.Evidence)
    requires RemovalGate.Fulfilled(part, s, e)
    ensures Matches(e, s)
  {
    hide RemovalGate.Guarded, RemovalGate.InstalledIn, RemovalGate.Readable, RemovalGate.Permitted, Lists;
  }

  function Published(ds: Digests, fileSha: FileHash, q: Request, section: PackagesSection, others: string, digest: string,
      e: RemovalGate.Evidence, rows: string): Directory
    requires Projectable(BuildLock(q, section, others))
  {
    var lock := BuildLock(q, section, others);
    var manifest := Manifest(Some(1), Some(digest), rows);
    Directory(true, Some(lock),
      Some(MakeReceipt(ds, fileSha, lock, section, q.recipe, digest, ds.projection(Project(lock)), e, manifest)), Some(manifest))
  }

  /** What is published passes the gate, and is a candidate for the request it was built for. */
  lemma PublishedIsCandidate(ds: Digests, fileSha: FileHash, q: Request, s: RemovalGate.PackageSet, seed: Seed,
      repositories: string, others: string, digest: string, e: RemovalGate.Evidence, rows: string)
    requires Hashing(ds) && "canonical_id" in q.target && Matches(e, s)
    requires IsDigestOf(ds, digest, BuildLock(q, SectionOf(s, seed, repositories), others))
    ensures var lock := BuildLock(q, SectionOf(s, seed, repositories), others);
      Candidate(ds, fileSha, ds.lock(lock), Published(ds, fileSha, q, SectionOf(s, seed, repositories), others, digest, e, rows), q)
  {
    hide Projectable, Project, IsPayload, Identifiable, Lower;
    var lock := BuildLock(q, SectionOf(s, seed, repositories), others);
    DigestIsVisible(ds, lock);
    assert Locked(ds, ds.lock(lock), lock);
  }

  lemma DigestIsVisible(ds: Digests, lock: Lock)
    requires Hashing(ds)
    ensures !Hidden(ds.lock(lock))
  {
    assert IsSha256(ds.lock(lock));
    assert IsHex(ds.lock(lock)[0]);
  }

  /**
   * A reusable directory under the digest of a lock holds that lock, unless the two collide, so it fits whatever the
   * lock was built for.
   */
  lemma SameLockIsCandidate(ds: Digests, fileSha: FileHash, d: Directory, q: Request, section: PackagesSection, others: string)
    requires Hashing(ds) && "canonical_id" in q.target
    requires Reusable(ds, fileSha, ds.lock(BuildLock(q, section, others)), d)
    requires Apart(ds.lock, d.lock.value, BuildLock(q, section, others))
    ensures Candidate(ds, fileSha, ds.lock(BuildLock(q, section, others)), d, q)
  {
    hide Projectable, Project, IsBaseDigest, Identifiable, Certifies;
    assert d.lock.value == BuildLock(q, section, others);
    DigestIsVisible(ds, d.lock.value);
  }

  // ----- Building or reusing -----

  datatype Outcome = Outcome(name: string, baseDigest: string, cacheHit: bool)

  datatype BuildError = NotPrivileged | AssemblyFailed | IdentityFailed(why: IdentityError)
    | InstallFailed(cause: RemovalGate.GateError) | ValidationFailed | Occupied | PublishFailed

  ghost predicate Answers(o: Outcome, all: Directories) {
    o.name in all && all[o.name].lock.Some? && all[o.name].receipt.Some? &&
    all[o.name].receipt.value.baseDigest == Some(o.baseDigest)
  }

  /** A directory in which none of a base's parts is found. */
  const BARE := Directory(false, None, None, None)

  /** One directory was added, under a new name or in the place of one that held no part of a base. */
  ghost predicate AddedTo(before: Directories, all: Directories, name: string) {
    (name in before ==> before[name] == BARE) && name in all && all == before[name := all[name]]
  }

  /** The lock a request leads to, whatever the package section and the sections nobody reads. */
  ghost predicate LockFor(lock: Lock, q: Request) {
    exists section, others :: lock == BuildLock(q, section, others)
  }

  /** What one rename of this process made of the published directories. */
  datatype Write = Write(before: Directories, after: Directories)

  class Targets {
    var directories: Directories
    /** The renames of this process. */
    ghost var writes: seq<Write>

    constructor (directories: Directories)
      ensures this.directories == directories && writes == []
    {
      this.directories, writes := directories, [];
    }

    /** Other processes publish and remove bases meanwhile. */
    method Meanwhile()
      modifies this`directories
    {
      directories := *;
    }

    /** The final rename: it may fail, and it does where a directory that holds anything of a base is in its place. */
    method Rename(name: string, d: Directory) returns (ok: bool)
      modifies this
      ensures ok ==> AddedTo(old(directories), directories, name) && directories[name] == d
      ensures ok ==> writes == old(writes) + [Write(old(directories), directories)]
      ensures !ok ==> directories == old(directories) && writes == old(writes)
    {
      var renamed: bool := *;
      if !renamed || (name in directories && directories[name] != BARE) { return false; }
      ghost var before := directories;
      directories := directories[name := d];
      writes := writes + [Write(before, directories)];
      return true;
    }

    method Find(ds: Digests, fileSha: FileHash, q: Request) returns (r: Option<Outcome>)
      ensures r.Some? <==> HasCandidate(ds, fileSha, directories, q)
      ensures r.Some? ==> r.value.cacheHit && Answers(r.value, directories)
      ensures r.Some? ==> Candidate(ds, fileSha, r.value.name, directories[r.value.name], q)
    {
      hide Fits, IsDigestOf, Locked, Certifies;
      var found := FindReusableCandidate(ds, fileSha, directories, q);
      if found.None? { return None; }
      return Some(Outcome(found.value, directories[found.value].receipt.value.baseDigest.value, true));
    }

    /**
     * Reuses a base where one fits, and otherwise builds and publishes one. Either way a base for the request is
     * there afterwards, unless the lock found under the digest of the new lock collides with it; and where one was
     * there before, nothing is built, installed or published. What is published is one new directory.
     */
    method EnsureBase(ds: Digests, fileSha: FileHash, q: Request, session: RemovalGate.Session, privileged: bool)
      returns (r: Result<Outcome, BuildError>, ghost wanted: Lock)
      requires Hashing(ds) && "canonical_id" in q.target
      modifies this, session`log
      ensures r.Ok? ==> Answers(r.value, directories)
      ensures r.Ok? ==> (Candidate(ds, fileSha, r.value.name, directories[r.value.name], q) ||
        (r.value.cacheHit && LockFor(wanted, q) && !Apart(ds.lock, directories[r.value.name].lock.value, wanted)))
      ensures r.Ok? && !r.value.cacheHit ==>
        |writes| == |old(writes)| + 1 && writes[..|old(writes)|] == old(writes) && writes[|old(writes)|].after == directories &&
        AddedTo(writes[|old(writes)|].before, directories, r.value.name) && directories[r.value.name].lock == Some(wanted)
      ensures r.Err? || r.value.cacheHit ==> writes == old(writes)
      ensures old(HasCandidate(ds, fileSha, directories, q)) ==> (
        r.Ok? && r.value.cacheHit && directories == old(directories) && session.log == old(session.log) &&
        Candidate(ds, fileSha, r.value.name, directories[r.value.name], q))
    {
      hide Reusable, Fits, Projectable, Project, IsBaseDigest, RemovalGate.Fulfilled, RemovalGate.AllGuarded, Hashing;
      wanted := *;
      var reused := Find(ds, fileSha, q);
      if reused.Some? { r := Ok(reused.value); return; }
      if !privileged { r := Err(NotPrivileged); return; }
      Meanwhile();
      var assembled: bool := *;
      if !assembled { r := Err(AssemblyFailed); return; }
      var s: RemovalGate.PackageSet := *;
      var seed, repositories, others := *, *, *;
      var section := SectionOf(s, seed, repositories);
      var lock := BuildLock(q, section, others);
      wanted := lock;
      var projected := BuildProjection(lock);
      if projected.Err? { r := Err(IdentityFailed(projected.error)); return; }
      var digest := BuildBaseDigest(ds, ds.projection(projected.value), q.recipe, ArtifactsOf(lock));
      if digest.Err? { r := Err(IdentityFailed(digest.error)); return; }
      assert IsDigestOf(ds, digest.value, lock);
      reused := Find(ds, fileSha, q);
      if reused.Some? && reused.value.baseDigest == digest.value { r := Ok(reused.value); return; }
      ghost var start := |session.log|;
      var evidence := session.InstallLockedPackageSet(s);
      if evidence.Err? { r := Err(InstallFailed(evidence.error)); return; }
      FulfilledMatches(session.log[start..], s, evidence.value);
      Meanwhile();
      var validated: bool := *;
      if !validated { r := Err(ValidationFailed); return; }
      var rows: string := *;
      var name := ds.lock(lock);
      if name in directories {
        var reusable := BaseDirectoryIsReusable(ds, fileSha, name, directories[name]);
        if reusable {
          ReusableHasReceipt(ds, fileSha, name, directories[name]);
          if Apart(ds.lock, directories[name].lock.value, lock) {
            SameLockIsCandidate(ds, fileSha, directories[name], q, section, others);
          }
          if directories[name].receipt.value.baseDigest == Some(digest.value) {
            r := Ok(Outcome(name, digest.value, true));
            return;
          }
        }
        r := Err(Occupied);
        return;
      }
      Meanwhile();
      var published := Rename(name, Published(ds, fileSha, q, section, others, digest.value, evidence.value, rows));
      if !published { r := Err(PublishFailed); return; }
      PublishedIsCandidate(ds, fileSha, q, s, seed, repositories, others, digest.value, evidence.value, rows);
      r := Ok(Outcome(name, digest.value, false));
    }
  }

  lemma ReusableHasReceipt(ds: Digests, fileSha: FileHash, name: string, d: Directory)
    requires Reusable(ds, fileSha, name, d)
    ensures d.receipt.Some? && d.lock.Some? && name == ds.lock(d.lock.value)
  {}

  /** No collision between the identities of two locks. */
  ghost predicate LocksDistinguished(ds: Digests, a: Lock, b: Lock)
    requires Projectable(a) && Projectable(b) && HasArtifacts(a) && HasArtifacts(b)
    requires a.recipe.Some? && a.recipe.value.Some? && b.recipe.Some? && b.recipe.value.Some?
  {
    Distinguishes(ds, a, a.recipe.value.value, ArtifactsOf(a), b, b.recipe.value.value, ArtifactsOf(b))
  }

  /**
   * Two reusable bases have one digest exactly if they are bases of one target projection, one recipe and the same
   * artifact contents.
   */
  lemma EqualBasesIffEqualInputs(ds: Digests, fileSha: FileHash, n: string, d: Directory, m: string, e: Directory)
    requires Hashing(ds) && Reusable(ds, fileSha, n, d) && Reusable(ds, fileSha, m, e)
    requires LocksDistinguished(ds, d.lock.value, e.lock.value)
    ensures var a, b := d.lock.value, e.lock.value;
      d.receipt.value.baseDigest == e.receipt.value.baseDigest <==>
        (Project(a) == Project(b) && Lower(a.recipe.value.value) == Lower(b.recipe.value.value) &&
         forall k :: 0 <= k < 2 ==> Lower(ArtifactsOf(a)[k].sha256) == Lower(ArtifactsOf(b)[k].sha256))
  {
    hide Projectable, Project, IsBaseDigest, Lower, IsSha256, Hashing, Distinguishes, SameHashes;
    var a, b := d.lock.value, e.lock.value;
    EqualDigestIffEqualIdentity(ds, d.receipt.value.baseDigest.value, e.receipt.value.baseDigest.value, a, b,
      a.recipe.value.value, b.recipe.value.value, ArtifactsOf(a), ArtifactsOf(b));
    SameHashesOf(a, b);
  }

  lemma SameHashesOf(a: Lock, b: Lock)
    requires HasArtifacts(a) && HasArtifacts(b)
    ensures SameHashes(ArtifactsOf(a), ArtifactsOf(b)) <==>
      (forall k :: 0 <= k < 2 ==> Lower(ArtifactsOf(a)[k].sha256) == Lower(ArtifactsOf(b)[k].sha256))
  {
    hide Lower, ShaOfKind;
    ShasOf(a);
    ShasOf(b);
    assert forall k :: 0 <= k < 2 ==> ArtifactsOf(a)[k].kind == ArtifactsOf(b)[k].kind && ArtifactsOf(a)[k].kind in KINDS;
    assert KINDS == {ArtifactsOf(a)[0].kind, ArtifactsOf(a)[1].kind};
    if forall k :: 0 <= k < 2 ==> Lower(ArtifactsOf(a)[k].sha256) == Lower(ArtifactsOf(b)[k].sha256) {
      forall kind | kind in KINDS
        ensures exists sha :: ShaOfKind(ArtifactsOf(a), kind, sha) && ShaOfKind(ArtifactsOf(b), kind, sha)
      {
        var k := if kind == ArtifactsOf(a)[0].kind then 0 else 1;
        assert ShaOfKind(ArtifactsOf(a), kind, Lower(ArtifactsOf(a)[k].sha256));
      }
    }
  }

  lemma ShasOf(lock: Lock)
    requires HasArtifacts(lock)
    ensures forall k, sha :: 0 <= k < 2 ==>
      (ShaOfKind(ArtifactsOf(lock), ArtifactsOf(lock)[k].kind, sha) <==> sha == Lower(ArtifactsOf(lock)[k].sha256))
  {
    hide Lower;
    forall k, sha | 0 <= k < 2
      ensures ShaOfKind(ArtifactsOf(lock), ArtifactsOf(lock)[k].kind, sha) <==> sha == Lower(ArtifactsOf(lock)[k].sha256)
    {
      assert ArtifactsOf(lock)[k] in ArtifactsOf(lock);
    }
  }
}
