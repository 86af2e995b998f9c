/** Acquisition receipts on disk, and the predicate that decides whether one is still valid. */
module Receipts {
  import opened Common

  type Path = seq<string>

  type Bytes = seq<int>

  type Hash = Bytes -> string

  /** A path as a receipt writes it: an absolute one replaces what it is joined to. */
  datatype Reference = Reference(absolute: bool, parts: Path)

  function Join(base: Path, r: Reference): Path { if r.absolute then r.parts else base + r.parts }

  /** The disk at one moment: how paths resolve, which of them are symbolic links, and the regular files. */
  datatype Disk = Disk(resolve: Path -> Path, symlink: Path -> bool, files: map<Path, Bytes>)

  /** No two different files of the disk have one hash, and hashes are printed in lower case. */
  ghost predicate Identifies(h: Hash, d: Disk) {
    (forall p, q :: p in d.files && q in d.files && h(d.files[p]) == h(d.files[q]) ==> d.files[p] == d.files[q]) &&
    forall p :: p in d.files ==> Lower(h(d.files[p])) == h(d.files[p])
  }

  /** The reference leads to a regular file below the root with this size and hash, and is no symbolic link itself. */
  predicate Verifies(d: Disk, h: Hash, root: Path, r: Reference, size: int, sha: string) {
    var base := d.resolve(root);
    var named := Join(base, r);
    var found := d.resolve(named);
    !d.symlink(named) && base <= found && found in d.files && |d.files[found]| == size && h(d.files[found]) == sha
  }

  // ----- Receipts -----

  /** The entries of a receipt, each absent when it is missing or has the wrong type. */
  datatype Item = NotObject
    | Item(kind: Option<string>, filename: Option<string>, path: Option<Reference>, size: Option<int>, sha: Option<string>,
        hasSha1s: bool)

  datatype Receipt = Receipt(digest: Option<string>, downloadRoot: Option<Path>, canonicalId: Option<string>,
    target: Option<string>, groups: Option<seq<string>>, artifacts: Option<seq<Item>>, metadata: Option<seq<Item>>)

  /** A receipt directory: its name, and its receipt if that can be loaded. */
  datatype Stored = Stored(dir: string, receipt: Option<Receipt>)

  function Downloads(root: Path): Path { root + ["sdkm", "downloads"] }

  function ReceiptDir(root: Path, dir: string): Path { root + ["sdkm", "receipts", dir] }

  predicate ItemVerifies(d: Disk, h: Hash, root: Path, i: Item) {
    i.Item? && i.path.Some? && i.size.Some? && i.sha.Some? && Verifies(d, h, root, i.path.value, i.size.value, i.sha.value)
  }

  /** The two construction artifacts, in either order. */
  predicate OneOfEach(items: seq<Item>) {
    |items| == 2 && items[0].Item? && items[1].Item? && (
      (items[0].kind == Some("bsp") && items[1].kind == Some("sample_rootfs")) ||
      (items[0].kind == Some("sample_rootfs") && items[1].kind == Some("bsp")))
  }

  predicate AllVerify(d: Disk, h: Hash, root: Path, items: seq<Item>) {
    forall i :: 0 <= i < |items| ==> ItemVerifies(d, h, root, items[i])
  }

  /** The receipt is the named one, lists both construction artifacts and nothing else, and every listed file verifies. */
  predicate CacheHit(d: Disk, h: Hash, downloads: Path, metadata: Path, r: Receipt, digest: string) {
    r.digest == Some(digest) && r.downloadRoot == Some(downloads) && r.artifacts.Some? && r.metadata.Some? &&
    OneOfEach(r.artifacts.value) && AllVerify(d, h, downloads, r.artifacts.value) &&
    r.metadata.value != [] && AllVerify(d, h, metadata, r.metadata.value)
  }

  method CheckItems(d: Disk, h: Hash, root: Path, items: seq<Item>) returns (ok: bool)
    ensures ok <==> AllVerify(d, h, root, items)
  {
    hide Verifies;
    for i := 0 to |items|
      invariant forall k :: 0 <= k < i ==> ItemVerifies(d, h, root, items[k])
    {
      if !ItemVerifies(d, h, root, items[i]) { return false; }
    }
    return true;
  }

  /** The loop over the artifacts: kinds not seen before, files that verify, and both expected kinds at the end. */
  method CheckArtifacts(d: Disk, h: Hash, root: Path, items: seq<Item>) returns (ok: bool)
    ensures ok <==> OneOfEach(items) && AllVerify(d, h, root, items)
  {
    hide Verifies;
    if |items| != 2 { return false; }
    var seen: set<string> := {};
    for i := 0 to |items|
      invariant forall k :: 0 <= k < i ==> items[k].Item? && items[k].kind.Some? && ItemVerifies(d, h, root, items[k])
      invariant i == 0 ==> seen == {}
      invariant i == 1 ==> seen == {items[0].kind.value}
      invariant i == 2 ==> seen == {items[0].kind.value, items[1].kind.value} && items[0].kind != items[1].kind
    {
      if items[i].NotObject? || items[i].kind.None? || items[i].kind.value in seen { return false; }
      seen := seen + {items[i].kind.value};
      if !ItemVerifies(d, h, root, items[i]) { return false; }
    }
    if seen != KINDS {
      assert !OneOfEach(items);
      return false;
    }
    BothKinds(items[0].kind.value, items[1].kind.value);
    return true;
  }

  lemma BothKinds(a: string, b: string)
    requires {a, b} == KINDS
    ensures (a == "bsp" && b == "sample_rootfs") || (a == "sample_rootfs" && b == "bsp")
  {
    assert "bsp" in KINDS && "sample_rootfs" in KINDS && a in KINDS && b in KINDS;
  }

  method ReceiptIsCacheHit(d: Disk, h: Hash, downloads: Path, metadata: Path, stored: Option<Receipt>, digest: string)
    returns (hit: bool)
    ensures hit <==> stored.Some? && CacheHit(d, h, downloads, metadata, stored.value, digest)
  {
    hide AllVerify, OneOfEach;
    if stored.None? { return false; }
    var r := stored.value;
    if r.digest != Some(digest) || r.downloadRoot != Some(downloads) || r.artifacts.None? { return false; }
    var ok := CheckArtifacts(d, h, downloads, r.artifacts.value);
    if !ok || r.metadata.None? || r.metadata.value == [] { return false; }
    hit := CheckItems(d, h, metadata, r.metadata.value);
  }

  /** A receipt the index is built from: valid, in the directory its digest names. */
  predicate Valid(d: Disk, h: Hash, root: Path, s: Stored) {
    s.receipt.Some? && CacheHit(d, h, Downloads(root), ReceiptDir(root, s.dir) + ["metadata"], s.receipt.value, s.dir)
  }

  /** Two files that verify against one hash are equal, so they cannot have different sizes. */
  lemma OneSizePerHash(d: Disk, h: Hash, a: Path, r: Reference, n: int, b: Path, t: Reference, m: int, sha: string)
    requires Identifies(h, d) && Verifies(d, h, a, r, n, sha) && Verifies(d, h, b, t, m, sha)
    ensures n == m
  {}
}
