/** The identity of an immutable base: what of a target lock enters it, and what its digest determines. */
module BaseIdentity {
  import opened Common
  import opened Sorting

  // ----- The lock, as far as it is read -----

  /** A package entry; a field is absent when it is missing or no string. */
  datatype PackageEntry = NotMapping
    | Entry(name: Option<string>, version: Option<string>, architecture: Option<string>, operation: Option<string>,
        filename: Option<string>, sha256: Option<string>)

  datatype SeedEntry = SeedEntry(name: Option<string>, version: Option<string>, architecture: Option<string>)

  datatype RemovalSection = RemovalSection(removed: Option<seq<string>>, policyVersion: Option<string>, allowed: Option<seq<string>>)

  datatype PackagesSection = PackagesSection(seed: Option<SeedEntry>, repositories: string, entries: Option<seq<PackageEntry>>,
    removal: Option<RemovalSection>)

  datatype ArtifactEntry = ArtifactEntry(filename: Option<string>, size: Option<int>, officialSha1: Option<string>,
    sha256: Option<string>)

  /** `others` stands for all sections that no check reads: acquisition, validation, declared environment, licensing. */
  datatype Lock = Lock(schemaVersion: Option<int>, target: Option<map<string, string>>, packages: Option<PackagesSection>,
    recipe: Option<Option<string>>, artifacts: Option<map<string, ArtifactEntry>>, others: string)

  datatype IdentityError = NoSection | NoPackageList | NoTargetField | NoSeedField | NoPackageField | BadSha256
    | DuplicatePackage | DuplicateKind | WrongKinds

  // ----- Digests -----

  datatype Package = Package(name: string, version: string, architecture: string, operation: string, sha256: string)

  datatype Seed = Seed(name: string, version: string, architecture: string)

  datatype Projection = Projection(target: map<string, string>, seed: Seed, packages: seq<Package>)

  /** What the base digest is taken of. */
  datatype Payload = Payload(projection: string, recipe: string, artifacts: seq<(string, string)>)

  /** The hash of the canonical rendering of each kind of record. */
  datatype Digests = Digests(lock: Lock -> string, projection: Projection -> string, base: Payload -> string,
    packages: PackagesSection -> string)

  const TARGET_KEYS := ["canonical_id", "jetpack_version", "l4t_version", "ubuntu_suite", "target_abi",
    "debian_architecture", "repository_platform"]

  predicate IsHex(c: char) { '0' <= c <= '9' || 'a' <= c <= 'f' }

  predicate IsSha256(s: string) { |s| == 64 && forall i :: 0 <= i < |s| ==> IsHex(s[i]) }

  /** Every digest is printed as 64 lower-case hexadecimal digits. */
  ghost predicate Hashing(ds: Digests) {
    (forall x :: IsSha256(ds.lock(x))) && (forall x :: IsSha256(ds.projection(x))) && (forall x :: IsSha256(ds.base(x)))
  }

  /** These two records do not collide. */
  predicate Apart<T(!new,==)>(f: T -> string, a: T, b: T) { f(a) == f(b) ==> a == b }

  function RequireSha256(value: string): Result<string, IdentityError> {
    if IsSha256(Lower(value)) then Ok(Lower(value)) else Err(BadSha256)
  }

  lemma ShaIsLower(s: string)
    requires IsSha256(s)
    ensures Lower(s) == s
  {}

  // ----- The projection -----

  predicate Given(value: Option<string>) { value.Some? && value.value != "" }

  predicate EntryOk(e: PackageEntry) {
    e.Entry? && Given(e.name) && Given(e.version) && Given(e.architecture) && Given(e.operation) && Given(e.sha256) &&
    IsSha256(Lower(e.sha256.value))
  }

  function PackageOf(e: PackageEntry): Package
    requires EntryOk(e)
  {
    Package(e.name.value, e.version.value, e.architecture.value, e.operation.value, Lower(e.sha256.value))
  }

  function PackageRow(e: PackageEntry): seq<Package> { if EntryOk(e) then [PackageOf(e)] else [] }

  function Key(p: Package): (string, string) { (p.name, p.architecture) }

  ghost predicate PackagesOk(es: seq<PackageEntry>) {
    (forall i :: 0 <= i < |es| ==> EntryOk(es[i])) && DistinctKeys(Key, Gather(PackageRow, es))
  }

  predicate TargetOk(t: map<string, string>) { forall k :: k in TARGET_KEYS ==> k in t && t[k] != "" }

  predicate SeedOk(s: SeedEntry) { Given(s.name) && Given(s.version) && Given(s.architecture) }

  ghost predicate Projectable(lock: Lock) {
    lock.target.Some? && lock.packages.Some? && lock.packages.value.seed.Some? && lock.packages.value.entries.Some? &&
    TargetOk(lock.target.value) && SeedOk(lock.packages.value.seed.value) && PackagesOk(lock.packages.value.entries.value)
  }

  function TargetOf(t: map<string, string>): map<string, string>
    requires TargetOk(t)
  {
    map k | k in TARGET_KEYS :: t[k]
  }

  function SeedOf(s: SeedEntry): Seed
    requires SeedOk(s)
  {
    Seed(s.name.value, s.version.value, s.architecture.value)
  }

  function Project(lock: Lock): Projection
    requires Projectable(lock)
  {
    Projection(TargetOf(lock.target.value), SeedOf(lock.packages.value.seed.value),
      Sort(By(Key), Gather(PackageRow, lock.packages.value.entries.value)))
  }

  /** The package loop: complete entries with a proper hash, none twice for one architecture. */
  method NormalizePackages(es: seq<PackageEntry>) returns (r: Result<seq<Package>, IdentityError>)
    ensures r.Ok? <==> PackagesOk(es)
    ensures r.Ok? ==> r.value == Gather(PackageRow, es)
  {
    hide DistinctKeys, Gather, Lower, IsSha256, Keys;
    NoPackages();
    var normalized: seq<Package> := [];
    var seen: set<(string, string)> := {};
    for i := 0 to |es|
      invariant normalized == Gather(PackageRow, es[..i]) && DistinctKeys(Key, normalized) && seen == Keys(Key, normalized)
      invariant forall k :: 0 <= k < i ==> EntryOk(es[k])
    {
      var e := es[i];
      GatherNext(PackageRow, es, i);
      if e.NotMapping? || !Given(e.name) || !Given(e.version) || !Given(e.architecture) || !Given(e.operation) || !Given(e.sha256) {
        assert !EntryOk(e);
        return Err(NoPackageField);
      }
      var sha := RequireSha256(e.sha256.value);
      if sha.Err? {
        assert !EntryOk(e);
        return Err(sha.error);
      }
      var p := PackageOf(e);
      if Key(p) in seen {
        RepeatedKey(Key, PackageRow, es, i);
        return Err(DuplicatePackage);
      }
      KeysNext(Key, normalized, p);
      seen := seen + {Key(p)};
      normalized := normalized + [p];
    }
    assert es[..|es|] == es;
    return Ok(normalized);
  }

  lemma NoPackages()
    ensures Keys(Key, []) == {} && DistinctKeys(Key, []) && Gather(PackageRow, []) == []
  {}

  method BuildProjection(lock: Lock) returns (r: Result<Projection, IdentityError>)
    ensures r.Ok? <==> Projectable(lock)
    ensures r.Ok? ==> r.value == Project(lock)
  {
    hide Gather, Sort, PackagesOk;
    if lock.target.None? || lock.packages.None? || lock.packages.value.seed.None? { return Err(NoSection); }
    if lock.packages.value.entries.None? { return Err(NoPackageList); }
    var target := lock.target.value;
    for i := 0 to |TARGET_KEYS|
      invariant forall k :: 0 <= k < i ==> TARGET_KEYS[k] in target && target[TARGET_KEYS[k]] != ""
    {
      if TARGET_KEYS[i] !in target || target[TARGET_KEYS[i]] == "" {
        assert TARGET_KEYS[i] in TARGET_KEYS;
        return Err(NoTargetField);
      }
    }
    if !SeedOk(lock.packages.value.seed.value) { return Err(NoSeedField); }
    var packages := NormalizePackages(lock.packages.value.entries.value);
    if packages.Err? { return Err(packages.error); }
    return Ok(Projection(TargetOf(target), SeedOf(lock.packages.value.seed.value), Sort(By(Key), packages.value)));
  }

  // ----- The base digest -----

  datatype Artifact = Artifact(kind: string, sha256: string)

  function KindsOf(artifacts: seq<Artifact>): set<string> { set a | a in artifacts :: a.kind }

  ghost predicate DistinctKinds(artifacts: seq<Artifact>) {
    forall i, j :: 0 <= i < j < |artifacts| ==> artifacts[i].kind != artifacts[j].kind
  }

  /** Every kind exactly once, each with a proper hash. */
  ghost predicate ArtifactsOk(artifacts: seq<Artifact>) {
    DistinctKinds(artifacts) && KindsOf(artifacts) == KINDS && forall a :: a in artifacts ==> IsSha256(Lower(a.sha256))
  }

  /** The artifact of one kind has this hash. */
  ghost predicate ShaOfKind(artifacts: seq<Artifact>, kind: string, sha: string) {
    exists a :: a in artifacts && a.kind == kind && Lower(a.sha256) == sha
  }

  /** The payload lists the artifacts by kind and depends on nothing but their kinds and hashes. */
  ghost predicate IsPayload(p: Payload, projection: string, recipe: string, artifacts: seq<Artifact>) {
    p.projection == Lower(projection) && p.recipe == Lower(recipe) && |p.artifacts| == 2 &&
    p.artifacts[0].0 == "bsp" && ShaOfKind(artifacts, "bsp", p.artifacts[0].1) &&
    p.artifacts[1].0 == "sample_rootfs" && ShaOfKind(artifacts, "sample_rootfs", p.artifacts[1].1)
  }

  ghost predicate Identifiable(projection: string, recipe: string, artifacts: seq<Artifact>) {
    IsSha256(Lower(projection)) && IsSha256(Lower(recipe)) && ArtifactsOk(artifacts)
  }

  /** The dictionary of the artifacts read so far. */
  ghost predicate Mapped(byKind: map<string, string>, artifacts: seq<Artifact>) {
    byKind.Keys == KindsOf(artifacts) && DistinctKinds(artifacts) &&
    forall a :: a in artifacts ==> a.kind in byKind && byKind[a.kind] == Lower(a.sha256) && IsSha256(Lower(a.sha256))
  }

  lemma MappedNext(byKind: map<string, string>, artifacts: seq<Artifact>, a: Artifact)
    requires Mapped(byKind, artifacts) && a.kind !in byKind && IsSha256(Lower(a.sha256))
    ensures Mapped(byKind[a.kind := Lower(a.sha256)], artifacts + [a])
  {
    hide Lower, IsSha256;
    forall k ensures k in KindsOf(artifacts + [a]) <==> k in KindsOf(artifacts) + {a.kind} {
      if k in KindsOf(artifacts) {
        var x :| x in artifacts && x.kind == k;
        assert x in artifacts + [a];
      }
      assert a in artifacts + [a];
    }
    forall i | 0 <= i < |artifacts| ensures artifacts[i].kind != a.kind { assert artifacts[i] in artifacts; }
  }

  lemma RepeatedKind(byKind: map<string, string>, artifacts: seq<Artifact>, i: nat)
    requires i < |artifacts| && Mapped(byKind, artifacts[..i]) && artifacts[i].kind in byKind
    ensures !ArtifactsOk(artifacts)
  {
    hide Lower, IsSha256;
    var a :| a in artifacts[..i] && a.kind == artifacts[i].kind;
    var j :| 0 <= j < i && artifacts[..i][j] == a;
    assert artifacts[j].kind == artifacts[i].kind;
  }

  lemma MappedShas(byKind: map<string, string>, artifacts: seq<Artifact>, kind: string)
    requires Mapped(byKind, artifacts) && kind in byKind
    ensures ShaOfKind(artifacts, kind, byKind[kind])
  {
    hide Lower, IsSha256;
    var a :| a in artifacts && a.kind == kind;
  }

  method BuildPayload(projection: string, recipe: string, artifacts: seq<Artifact>) returns (r: Result<Payload, IdentityError>)
    ensures r.Ok? <==> Identifiable(projection, recipe, artifacts)
    ensures r.Ok? ==> IsPayload(r.value, projection, recipe, artifacts)
  {
    hide Lower, IsSha256, ArtifactsOk, Mapped, ShaOfKind;
    var p := RequireSha256(projection);
    if p.Err? { return Err(p.error); }
    var q := RequireSha256(recipe);
    if q.Err? { return Err(q.error); }
    var byKind: map<string, string> := map[];
    NothingMapped();
    for i := 0 to |artifacts|
      invariant Mapped(byKind, artifacts[..i])
    {
      assert artifacts[..i + 1] == artifacts[..i] + [artifacts[i]];
      if artifacts[i].kind in byKind {
        RepeatedKind(byKind, artifacts, i);
        return Err(DuplicateKind);
      }
      var sha := RequireSha256(artifacts[i].sha256);
      if sha.Err? {
        BadArtifact(artifacts, i);
        return Err(sha.error);
      }
      MappedNext(byKind, artifacts[..i], artifacts[i]);
      byKind := byKind[artifacts[i].kind := sha.value];
    }
    assert artifacts[..|artifacts|] == artifacts;
    MappedIs(byKind, artifacts);
    if byKind.Keys != KINDS { return Err(WrongKinds); }
    assert "bsp" in byKind && "sample_rootfs" in byKind;
    MappedShas(byKind, artifacts, "bsp");
    MappedShas(byKind, artifacts, "sample_rootfs");
    return Ok(Payload(p.value, q.value, [("bsp", byKind["bsp"]), ("sample_rootfs", byKind["sample_rootfs"])]));
  }

  lemma NothingMapped()
    ensures Mapped(map[], [])
  {}

  lemma BadArtifact(artifacts: seq<Artifact>, i: nat)
    requires i < |artifacts| && !IsSha256(Lower(artifacts[i].sha256))
    ensures !ArtifactsOk(artifacts)
  {
    hide Lower, IsSha256;
  }

  lemma MappedIs(byKind: map<string, string>, artifacts: seq<Artifact>)
    requires Mapped(byKind, artifacts)
    ensures byKind.Keys == KINDS <==> ArtifactsOk(artifacts)
  {
    hide Lower, IsSha256;
  }

  /** The digest of the payload: defined on identifiable inputs, and of exactly one payload. */
  ghost predicate IsBaseDigest(ds: Digests, digest: string, projection: string, recipe: string, artifacts: seq<Artifact>) {
    Identifiable(projection, recipe, artifacts) && exists p :: IsPayload(p, projection, recipe, artifacts) && digest == ds.base(p)
  }

  method BuildBaseDigest(ds: Digests, projection: string, recipe: string, artifacts: seq<Artifact>)
    returns (r: Result<string, IdentityError>)
    ensures r.Ok? <==> Identifiable(projection, recipe, artifacts)
    ensures r.Ok? ==> IsBaseDigest(ds, r.value, projection, recipe, artifacts)
  {
    var p := BuildPayload(projection, recipe, artifacts);
    if p.Err? { return Err(p.error); }
    return Ok(ds.base(p.value));
  }

  // ----- What the digest depends on -----

  lemma SameSha(artifacts: seq<Artifact>, kind: string, a: string, b: string)
    requires ArtifactsOk(artifacts) && ShaOfKind(artifacts, kind, a) && ShaOfKind(artifacts, kind, b)
    ensures a == b
  {
    SameShaInBoth(artifacts, artifacts, kind, a, b);
  }

  /** Reordering the artifacts keeps the payload, and so the digest. */
  lemma DigestIgnoresArtifactOrder(ds: Digests, a: string, b: string, projection: string, recipe: string,
      artifacts: seq<Artifact>, other: seq<Artifact>)
    requires multiset(artifacts) == multiset(other)
    requires IsBaseDigest(ds, a, projection, recipe, artifacts) && IsBaseDigest(ds, b, projection, recipe, other)
    ensures a == b
  {
    hide Lower, IsSha256;
    SameMembers(artifacts, other);
    var p :| IsPayload(p, projection, recipe, artifacts) && a == ds.base(p);
    var q :| IsPayload(q, projection, recipe, other) && b == ds.base(q);
    SameShaInBoth(artifacts, other, "bsp", p.artifacts[0].1, q.artifacts[0].1);
    SameShaInBoth(artifacts, other, "sample_rootfs", p.artifacts[1].1, q.artifacts[1].1);
    assert p.artifacts == q.artifacts;
  }

  lemma SameShaInBoth(artifacts: seq<Artifact>, other: seq<Artifact>, kind: string, a: string, b: string)
    requires forall x :: x in artifacts <==> x in other
    requires ArtifactsOk(artifacts) && ShaOfKind(artifacts, kind, a) && ShaOfKind(other, kind, b)
    ensures a == b
  {
    hide Lower, IsSha256;
    var x :| x in artifacts && x.kind == kind && Lower(x.sha256) == a;
    var y :| y in other && y.kind == kind && Lower(y.sha256) == b;
    var i :| 0 <= i < |artifacts| && artifacts[i] == x;
    var j :| 0 <= j < |artifacts| && artifacts[j] == y;
  }

  /** Reordering the package entries of a lock changes neither whether it projects nor its projection. */
  lemma ProjectionIgnoresPackageOrder(lock: Lock, es: seq<PackageEntry>)
    requires Projectable(lock) && multiset(es) == multiset(lock.packages.value.entries.value)
    ensures var other := lock.(packages := Some(lock.packages.value.(entries := Some(es))));
      Projectable(other) && Project(other) == Project(lock)
  {
    hide Gather, EntryOk, By;
    var before := lock.packages.value.entries.value;
    SameMembers(before, es);
    GatherPermutes(PackageRow, before, es);
    DistinctKeysPermute(Key, Gather(PackageRow, before), Gather(PackageRow, es));
    forall i | 0 <= i < |es| ensures EntryOk(es[i]) { assert es[i] in before; }
    OrderedBy(Key, Gather(PackageRow, before));
    SortIgnoresOrder(By(Key), Gather(PackageRow, before), Gather(PackageRow, es));
  }

  /** Neither the projections nor the payloads of these two identities collide. */
  ghost predicate Distinguishes(ds: Digests, a: Lock, recipeA: string, artifactsA: seq<Artifact>,
      b: Lock, recipeB: string, artifactsB: seq<Artifact>)
    requires Projectable(a) && Projectable(b)
  {
    Apart(ds.projection, Project(a), Project(b)) &&
    forall p, q :: (IsPayload(p, ds.projection(Project(a)), recipeA, artifactsA) &&
      IsPayload(q, ds.projection(Project(b)), recipeB, artifactsB)) ==> Apart(ds.base, p, q)
  }

  /** The artifact of every kind has the same hash on both sides. */
  ghost predicate SameHashes(artifacts: seq<Artifact>, other: seq<Artifact>) {
    forall kind :: kind in KINDS ==>
      exists sha :: ShaOfKind(artifacts, kind, sha) && ShaOfKind(other, kind, sha)
  }

  /**
   * Digests are equal exactly if the identities are: target, seed, package set, recipe and artifact contents. One
   * direction needs that the records compared do not collide; nothing is asked of all other records.
   */
  lemma EqualDigestIffEqualIdentity(ds: Digests, x: string, y: string, a: Lock, b: Lock, recipeA: string, recipeB: string,
      artifactsA: seq<Artifact>, artifactsB: seq<Artifact>)
    requires Hashing(ds) && Projectable(a) && Projectable(b)
    requires IsBaseDigest(ds, x, ds.projection(Project(a)), recipeA, artifactsA)
    requires IsBaseDigest(ds, y, ds.projection(Project(b)), recipeB, artifactsB)
    requires Distinguishes(ds, a, recipeA, artifactsA, b, recipeB, artifactsB)
    ensures x == y <==> Project(a) == Project(b) && Lower(recipeA) == Lower(recipeB) && SameHashes(artifactsA, artifactsB)
  {
    hide Project, Projectable, Lower, IsSha256, ArtifactsOk, ShaOfKind, SameHashes;
    var p :| IsPayload(p, ds.projection(Project(a)), recipeA, artifactsA) && x == ds.base(p);
    var q :| IsPayload(q, ds.projection(Project(b)), recipeB, artifactsB) && y == ds.base(q);
    assert x == y <==> p == q by { assert Apart(ds.base, p, q); }
    ShaIsLower(ds.projection(Project(a)));
    ShaIsLower(ds.projection(Project(b)));
    assert p.projection == q.projection <==> Project(a) == Project(b);
    PayloadHashes(p, ds.projection(Project(a)), recipeA, artifactsA, q, ds.projection(Project(b)), recipeB, artifactsB);
  }

  lemma PayloadHashes(p: Payload, projectionA: string, recipeA: string, artifactsA: seq<Artifact>,
      q: Payload, projectionB: string, recipeB: string, artifactsB: seq<Artifact>)
    requires IsPayload(p, projectionA, recipeA, artifactsA) && IsPayload(q, projectionB, recipeB, artifactsB)
    requires ArtifactsOk(artifactsA) && ArtifactsOk(artifactsB)
    ensures p.artifacts == q.artifacts <==> SameHashes(artifactsA, artifactsB)
  {
    hide Lower, IsSha256, ArtifactsOk, ShaOfKind;
    if SameHashes(artifactsA, artifactsB) {
      assert "bsp" in KINDS && "sample_rootfs" in KINDS;
      var s :| ShaOfKind(artifactsA, "bsp", s) && ShaOfKind(artifactsB, "bsp", s);
      var t :| ShaOfKind(artifactsA, "sample_rootfs", t) && ShaOfKind(artifactsB, "sample_rootfs", t);
      SameSha(artifactsA, "bsp", s, p.artifacts[0].1);
      SameSha(artifactsB, "bsp", s, q.artifacts[0].1);
      SameSha(artifactsA, "sample_rootfs", t, p.artifacts[1].1);
      SameSha(artifactsB, "sample_rootfs", t, q.artifacts[1].1);
      assert p.artifacts == q.artifacts;
    }
    if p.artifacts == q.artifacts {
      assert ShaOfKind(artifactsA, "bsp", p.artifacts[0].1) && ShaOfKind(artifactsB, "bsp", p.artifacts[0].1);
      assert ShaOfKind(artifactsA, "sample_rootfs", p.artifacts[1].1) && ShaOfKind(artifactsB, "sample_rootfs", p.artifacts[1].1);
    }
  }

  const ZEROS: string := seq(64, i => '0')
  const ONES: string := seq(64, i => '1')

  /** Digests that tell one record of each kind from all others. */
  function Telling(lock: Lock, projection: Projection, payload: Payload): Digests {
    Digests(x => if x == lock then ZEROS else ONES, x => if x == projection then ZEROS else ONES,
      x => if x == payload then ZEROS else ONES, x => ZEROS)
  }

  lemma TellingTells(lock: Lock, projection: Projection, payload: Payload)
    ensures Hashing(Telling(lock, projection, payload))
    ensures forall x :: Apart(Telling(lock, projection, payload).lock, lock, x)
    ensures forall x :: Apart(Telling(lock, projection, payload).projection, projection, x)
    ensures forall x :: Apart(Telling(lock, projection, payload).base, payload, x)
    ensures Telling(lock, projection, payload).projection(projection) == ZEROS
  {
    assert ZEROS[0] != ONES[0];
  }

  /** For any two identities there are digests of which all this is true: the hypotheses exclude no input. */
  lemma SomeDigestsDistinguish(a: Lock, recipeA: string, artifactsA: seq<Artifact>, b: Lock, recipeB: string,
      artifactsB: seq<Artifact>) returns (ds: Digests)
    requires Projectable(a) && Projectable(b) && ArtifactsOk(artifactsA) && ArtifactsOk(artifactsB)
    ensures Hashing(ds) && Apart(ds.lock, a, b) && Distinguishes(ds, a, recipeA, artifactsA, b, recipeB, artifactsB)
  {
    hide Projectable, ArtifactsOk, Project, IsPayload, Hashing, Telling, Apart;
    var p := PayloadFrom(ZEROS, recipeA, artifactsA);
    ds := Telling(a, Project(a), p);
    TellingTells(a, Project(a), p);
    forall v, w | IsPayload(v, ds.projection(Project(a)), recipeA, artifactsA) &&
      IsPayload(w, ds.projection(Project(b)), recipeB, artifactsB)
      ensures Apart(ds.base, v, w)
    {
      OnePayload(v, p, ZEROS, recipeA, artifactsA);
    }
  }

  lemma PayloadFrom(projection: string, recipe: string, artifacts: seq<Artifact>) returns (p: Payload)
    requires ArtifactsOk(artifacts)
    ensures IsPayload(p, projection, recipe, artifacts)
  {
    hide Lower, IsSha256;
    assert "bsp" in KindsOf(artifacts) && "sample_rootfs" in KindsOf(artifacts);
    var x :| x in artifacts && x.kind == "bsp";
    var y :| y in artifacts && y.kind == "sample_rootfs";
    p := Payload(Lower(projection), Lower(recipe), [("bsp", Lower(x.sha256)), ("sample_rootfs", Lower(y.sha256))]);
  }

  lemma OnePayload(p: Payload, q: Payload, projection: string, recipe: string, artifacts: seq<Artifact>)
    requires ArtifactsOk(artifacts) && IsPayload(p, projection, recipe, artifacts) && IsPayload(q, projection, recipe, artifacts)
    ensures p == q
  {
    hide Lower, IsSha256, ArtifactsOk, ShaOfKind;
    SameSha(artifacts, "bsp", p.artifacts[0].1, q.artifacts[0].1);
    SameSha(artifacts, "sample_rootfs", p.artifacts[1].1, q.artifacts[1].1);
    assert p.artifacts == q.artifacts;
  }

  /** Equal projections hold the same target fields, the same seed and the same packages. */
  lemma EqualProjectionEqualInputs(a: Lock, b: Lock)
    requires Projectable(a) && Projectable(b) && Project(a) == Project(b)
    ensures forall k :: k in TARGET_KEYS ==> a.target.value[k] == b.target.value[k]
    ensures SeedOf(a.packages.value.seed.value) == SeedOf(b.packages.value.seed.value)
    ensures multiset(Gather(PackageRow, a.packages.value.entries.value)) == multiset(Gather(PackageRow, b.packages.value.entries.value))
  {
    hide Gather, By, PackagesOk;
    var ps, qs := Gather(PackageRow, a.packages.value.entries.value), Gather(PackageRow, b.packages.value.entries.value);
    OrderedBy(Key, ps);
    SortSorts(By(Key), ps);
    SortSorts(By(Key), qs);
    forall k | k in TARGET_KEYS ensures a.target.value[k] == b.target.value[k] {
      assert Project(a).target[k] == a.target.value[k] && Project(b).target[k] == b.target.value[k];
    }
  }
}
