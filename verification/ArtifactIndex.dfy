/** The artifact index derived from valid receipts, and its agreement with a direct look at those receipts. */
module ArtifactIndex {
  import opened Common
  import opened Sorting
  import opened Receipts

  datatype Relationship = Relationship(source: string, canonicalId: string, kind: string, filename: string, target: string,
    groups: seq<string>, local: Path, digest: string, receipt: Path)

  /** One artifact of one receipt: its content identity and where it was listed. */
  datatype Row = Row(sha: string, size: int, relationship: Relationship)

  datatype Content = Content(sha: string, size: int, relationships: seq<Relationship>)

  type Index = seq<Content>

  datatype IndexError = MalformedArtifact | OutsideRoot | MissingField | ConflictingSizes

  datatype Expectation = Expectation(canonicalId: string, kind: string, filename: string, target: string,
    sha: Option<string>, size: Option<int>, groups: seq<string>)

  datatype Status = VerifiedCached | DownloadRequired | SdkmDecision

  const SOURCE := "sdk-manager"

  // ----- Rows -----

  /** The row of one listed artifact, with the file's resolved location relative to the data root. */
  function RowOf(d: Disk, root: Path, dir: string, r: Receipt, i: Item): Result<Row, IndexError>
    requires r.groups.Some?
  {
    if !i.Item? || i.kind.None? || i.filename.None? || i.path.None? || i.size.None? || i.sha.None? || !i.hasSha1s then
      Err(MalformedArtifact)
    else if r.downloadRoot.None? || r.canonicalId.None? || r.target.None? || r.digest.None? then Err(MissingField)
    else
      var local := d.resolve(Join(r.downloadRoot.value, i.path.value));
      if !(root <= local) then Err(OutsideRoot)
      else Ok(Row(Lower(i.sha.value), i.size.value, Relationship(SOURCE, r.canonicalId.value, i.kind.value, i.filename.value,
        r.target.value, Sort(StringLeq, r.groups.value), local[|root|..], r.digest.value,
        ["sdkm", "receipts", dir, "receipt.json"])))
  }

  /** Receipts without a usable artifact or group list are passed over. */
  predicate Usable(s: Stored) { s.receipt.Some? && s.receipt.value.groups.Some? && s.receipt.value.artifacts.Some? }

  /** Every artifact of a usable receipt has a row. */
  ghost predicate Complete(d: Disk, root: Path, s: Stored) {
    Usable(s) ==> forall i :: i in s.receipt.value.artifacts.value && i.Item? ==> RowOf(d, root, s.dir, s.receipt.value, i).Ok?
  }

  function ItemRow(d: Disk, root: Path, dir: string, r: Receipt, i: Item): seq<Row>
    requires r.groups.Some?
  {
    if i.Item? && RowOf(d, root, dir, r, i).Ok? then [RowOf(d, root, dir, r, i).value] else []
  }

  function ItemRows(d: Disk, root: Path, dir: string, r: Receipt): Item -> seq<Row>
    requires r.groups.Some?
  {
    (i: Item) => ItemRow(d, root, dir, r, i)
  }

  function ReceiptRows(d: Disk, root: Path, s: Stored): seq<Row> {
    if Usable(s) then Gather(ItemRows(d, root, s.dir, s.receipt.value), s.receipt.value.artifacts.value) else []
  }

  function RowsOf(d: Disk, root: Path): Stored -> seq<Row> { (s: Stored) => ReceiptRows(d, root, s) }

  function AllRows(d: Disk, root: Path, ss: seq<Stored>): seq<Row> { Gather(RowsOf(d, root), ss) }

  // ----- The index of a collection of rows -----

  function Relates(sha: string): Row -> seq<Relationship> {
    (r: Row) => if r.sha == sha then [r.relationship] else []
  }

  function Under(rows: seq<Row>, sha: string): seq<Relationship> { Gather(Relates(sha), rows) }

  function Shas(rows: seq<Row>): set<string> { set r | r in rows :: r.sha }

  function Indexed(index: Index): seq<string> { seq(|index|, i requires 0 <= i < |index| => index[i].sha) }

  function SortKey(r: Relationship): seq<seq<string>> {
    [[r.canonicalId], [r.kind], [r.filename], [r.target], r.groups, r.local, [r.digest], r.receipt]
  }

  predicate RelationshipLeq(a: Relationship, b: Relationship) { KeyLeq(SortKey(a), SortKey(b)) }

  /** One content carries the relationships of all rows with its hash, in order, and their common size. */
  ghost predicate Describes(c: Content, rows: seq<Row>) {
    Sorted(RelationshipLeq, c.relationships) && multiset(c.relationships) == multiset(Under(rows, c.sha)) &&
    forall r :: r in rows && r.sha == c.sha ==> r.size == c.size
  }

  /** The index lists every hash once, in order, and nothing else. */
  ghost predicate IsIndex(index: Index, rows: seq<Row>) {
    Lists(Indexed(index), Shas(rows)) && forall i :: 0 <= i < |index| ==> Describes(index[i], rows)
  }

  ghost predicate OneSizeEach(rows: seq<Row>) {
    forall r, q :: r in rows && q in rows && r.sha == q.sha ==> r.size == q.size
  }

  ghost predicate FromSource(rows: seq<Row>) { forall r :: r in rows ==> r.relationship.source == SOURCE }

  // ----- Building -----

  /** The grouping dictionary: for each hash the rows that carry it. */
  ghost predicate Groups(grouped: map<string, seq<Row>>, rows: seq<Row>) {
    grouped.Keys == Shas(rows) && forall sha :: sha in grouped ==> grouped[sha] == Gather(Carries(sha), rows)
  }

  function Carries(sha: string): Row -> seq<Row> { (r: Row) => if r.sha == sha then [r] else [] }

  lemma GroupsNext(grouped: map<string, seq<Row>>, rows: seq<Row>, r: Row)
    requires Groups(grouped, rows)
    ensures Groups(grouped[r.sha := (if r.sha in grouped then grouped[r.sha] else []) + [r]], rows + [r])
  {
    var next := grouped[r.sha := (if r.sha in grouped then grouped[r.sha] else []) + [r]];
    forall sha ensures sha in Shas(rows + [r]) <==> sha in Shas(rows) + {r.sha} {
      if sha in Shas(rows) {
        var q :| q in rows && q.sha == sha;
        assert q in rows + [r];
      }
      assert r in rows + [r];
    }
    forall sha | sha in next ensures next[sha] == Gather(Carries(sha), rows + [r]) {
      assert (rows + [r])[..|rows|] == rows;
      if sha !in grouped { NoneCarries(sha, rows); }
    }
  }

  lemma {:induction false} NoneCarries(sha: string, rows: seq<Row>)
    requires sha !in Shas(rows)
    ensures Gather(Carries(sha), rows) == []
  {
    if rows != [] {
      assert rows[|rows| - 1].sha in Shas(rows);
      NoneCarries(sha, rows[..|rows| - 1]);
    }
  }

  predicate DirLeq(a: Stored, b: Stored) { StringLeq(a.dir, b.dir) }

  function OnlyValid(d: Disk, h: Hash, root: Path): Stored -> seq<Stored> {
    (s: Stored) => if Valid(d, h, root, s) then [s] else []
  }

  /** The valid receipts among those found, by directory name. */
  function Successful(d: Disk, h: Hash, root: Path, present: bool, found: seq<Stored>): seq<Stored> {
    if present then Gather(OnlyValid(d, h, root), Sort(DirLeq, found)) else []
  }

  method SuccessfulReceipts(d: Disk, h: Hash, root: Path, present: bool, found: seq<Stored>) returns (ss: seq<Stored>)
    ensures ss == Successful(d, h, root, present, found)
  {
    hide Sort, CacheHit;
    ss := [];
    if !present { return; }
    var paths := Sort(DirLeq, found);
    for i := 0 to |paths|
      invariant ss == Gather(OnlyValid(d, h, root), paths[..i])
    {
      GatherNext(OnlyValid(d, h, root), paths, i);
      var s := paths[i];
      var hit := ReceiptIsCacheHit(d, h, Downloads(root), ReceiptDir(root, s.dir) + ["metadata"], s.receipt, s.dir);
      if hit { ss := ss + [s]; }
    }
    assert paths[..|paths|] == paths;
  }

  method AddReceipt(d: Disk, root: Path, s: Stored, before: map<string, seq<Row>>, ghost rows: seq<Row>)
    returns (r: Result<map<string, seq<Row>>, IndexError>)
    requires Groups(before, rows) && Usable(s)
    ensures r.Ok? <==> Complete(d, root, s)
    ensures r.Ok? ==> Groups(r.value, rows + ReceiptRows(d, root, s))
    ensures r.Err? ==> r.error != ConflictingSizes
  {
    hide Groups, RowOf;
    var receipt, items := s.receipt.value, s.receipt.value.artifacts.value;
    var grouped := before;
    ghost var f := ItemRows(d, root, s.dir, receipt);
    assert rows + [] == rows;
    for i := 0 to |items|
      invariant Groups(grouped, rows + Gather(f, items[..i]))
      invariant forall k :: 0 <= k < i && items[k].Item? ==> RowOf(d, root, s.dir, receipt, items[k]).Ok?
    {
      GatherNext(f, items, i);
      if items[i].NotObject? {
        assert Gather(f, items[..i + 1]) == Gather(f, items[..i]);
        continue;
      }
      var row := RowOf(d, root, s.dir, receipt, items[i]);
      if row.Err? {
        NoConflictHere(d, root, s.dir, receipt, items[i]);
        return Err(row.error);
      }
      GroupsNext(grouped, rows + Gather(f, items[..i]), row.value);
      assert rows + Gather(f, items[..i]) + [row.value] == rows + Gather(f, items[..i + 1]);
      grouped := grouped[row.value.sha := (if row.value.sha in grouped then grouped[row.value.sha] else []) + [row.value]];
    }
    assert items[..|items|] == items;
    return Ok(grouped);
  }

  lemma NoConflictHere(d: Disk, root: Path, dir: string, r: Receipt, i: Item)
    requires r.groups.Some?
    ensures RowOf(d, root, dir, r, i).Err? ==> RowOf(d, root, dir, r, i).error != ConflictingSizes
  {}

  function Relationships(rows: seq<Row>): seq<Relationship> { seq(|rows|, i requires 0 <= i < |rows| => rows[i].relationship) }

  lemma {:induction false} CarriedRelate(sha: string, rows: seq<Row>)
    ensures Relationships(Gather(Carries(sha), rows)) == Under(rows, sha)
    ensures forall r :: r in Gather(Carries(sha), rows) <==> r in rows && r.sha == sha
  {
    if rows != [] {
      CarriedRelate(sha, rows[..|rows| - 1]);
      assert rows == rows[..|rows| - 1] + [rows[|rows| - 1]];
    }
  }

  lemma RelationshipsAreOrdered()
    ensures Total(RelationshipLeq)
    ensures forall a, b :: RelationshipLeq(a, b) && RelationshipLeq(b, a) && a.source == b.source ==> a == b
  {
    hide KeyLeq;
    KeysAreOrdered();
    forall a, b ensures RelationshipLeq(a, b) || RelationshipLeq(b, a) {
      assert KeyLeq(SortKey(a), SortKey(b)) || KeyLeq(SortKey(b), SortKey(a));
    }
    forall a, b | RelationshipLeq(a, b) && RelationshipLeq(b, a) && a.source == b.source ensures a == b {
      assert SortKey(a) == SortKey(b);
      SameKeySame(a, b);
    }
  }

  lemma SameKeySame(a: Relationship, b: Relationship)
    requires SortKey(a) == SortKey(b) && a.source == b.source
    ensures a == b
  {
    var k, l := SortKey(a), SortKey(b);
    assert k[0] == l[0] && k[1] == l[1] && k[2] == l[2] && k[3] == l[3] && k[4] == l[4] && k[5] == l[5] && k[6] == l[6] && k[7] == l[7];
    assert k[0][0] == l[0][0] && k[1][0] == l[1][0] && k[2][0] == l[2][0] && k[3][0] == l[3][0] && k[6][0] == l[6][0];
  }

  /** One entry of the index: all rows of one hash agree on the size, or the build stops. */
  method MakeContent(sha: string, carried: seq<Row>, ghost rows: seq<Row>) returns (r: Result<Content, IndexError>)
    requires carried == Gather(Carries(sha), rows) && sha in Shas(rows)
    ensures r.Ok? <==> forall q, p :: q in rows && p in rows && q.sha == sha && p.sha == sha ==> q.size == p.size
    ensures r.Ok? ==> r.value.sha == sha && Describes(r.value, rows)
    ensures r.Err? ==> r.error == ConflictingSizes
  {
    hide RelationshipLeq, Gather, Sort;
    CarriedRelate(sha, rows);
    ghost var q :| q in rows && q.sha == sha;
    var sizes := set p | p in carried :: p.size;
    assert q.size in sizes;
    OnlyOne(sizes, q.size);
    if |sizes| != 1 {
      ghost var y :| y in sizes && y != q.size;
      return Err(ConflictingSizes);
    }
    RelationshipsAreOrdered();
    SortSorts(RelationshipLeq, Relationships(carried));
    assert forall p :: p in rows && p.sha == sha ==> p.size in sizes;
    return Ok(Content(sha, carried[0].size, Sort(RelationshipLeq, Relationships(carried))));
  }

  lemma OnlyOne(s: set<int>, x: int)
    requires x in s
    ensures |s| == 1 <==> s == {x}
  {
    assert |s - {x}| == |s| - 1;
  }

  method MakeContents(grouped: map<string, seq<Row>>, ghost rows: seq<Row>) returns (r: Result<Index, IndexError>)
    requires Groups(grouped, rows)
    ensures r.Ok? <==> OneSizeEach(rows)
    ensures r.Ok? ==> IsIndex(r.value, rows)
    ensures r.Err? ==> r.error == ConflictingSizes
  {
    hide Sorted, Describes, Gather, Shas;
    var shas := SortSet(grouped.Keys);
    var contents: Index := [];
    for i := 0 to |shas|
      invariant |contents| == i && forall k :: 0 <= k < i ==> contents[k].sha == shas[k] && Describes(contents[k], rows)
      invariant forall q, p :: q in rows && p in rows && q.sha == p.sha && q.sha in shas[..i] ==> q.size == p.size
    {
      assert shas[i] in shas;
      assert shas[..i + 1] == shas[..i] + [shas[i]];
      var content := MakeContent(shas[i], grouped[shas[i]], rows);
      if content.Err? { return Err(content.error); }
      contents := contents + [content.value];
    }
    assert shas[..|shas|] == shas;
    assert Indexed(contents) == shas;
    AllListed(rows, shas);
    return Ok(contents);
  }

  lemma AllListed(rows: seq<Row>, shas: seq<string>)
    requires Lists(shas, Shas(rows))
    ensures forall q :: q in rows ==> q.sha in shas
  {}

  /** The rows the index is built from. */
  function IndexRows(d: Disk, h: Hash, root: Path, present: bool, found: seq<Stored>): seq<Row> {
    AllRows(d, root, Successful(d, h, root, present, found))
  }

  ghost predicate AllComplete(d: Disk, root: Path, ss: seq<Stored>) { forall s :: s in ss ==> Complete(d, root, s) }

  /** Building succeeds exactly when every valid receipt is complete and no hash has two sizes. */
  method BuildArtifactIndex(d: Disk, h: Hash, root: Path, present: bool, found: seq<Stored>) returns (r: Result<Index, IndexError>)
    ensures r.Ok? <==> AllComplete(d, root, Successful(d, h, root, present, found)) && OneSizeEach(IndexRows(d, h, root, present, found))
    ensures r.Ok? ==> IsIndex(r.value, IndexRows(d, h, root, present, found))
    ensures r == Err(ConflictingSizes) ==> !OneSizeEach(IndexRows(d, h, root, present, found))
  {
    hide Groups, Complete, OneSizeEach, IsIndex, Successful, Gather;
    var receipts := SuccessfulReceipts(d, h, root, present, found);
    var grouped: map<string, seq<Row>> := map[];
    NothingGrouped(d, root);
    for i := 0 to |receipts|
      invariant Groups(grouped, AllRows(d, root, receipts[..i]))
      invariant forall k :: 0 <= k < i ==> Complete(d, root, receipts[k])
    {
      GatherNext(RowsOf(d, root), receipts, i);
      assert AllRows(d, root, receipts[..i + 1]) == AllRows(d, root, receipts[..i]) + ReceiptRows(d, root, receipts[i]);
      if !Usable(receipts[i]) {
        assert AllRows(d, root, receipts[..i]) + ReceiptRows(d, root, receipts[i]) == AllRows(d, root, receipts[..i]);
        assert Complete(d, root, receipts[i]) by { UnusableIsComplete(d, root, receipts[i]); }
        continue;
      }
      var more := AddReceipt(d, root, receipts[i], grouped, AllRows(d, root, receipts[..i]));
      if more.Err? { return Err(more.error); }
      grouped := more.value;
    }
    assert receipts[..|receipts|] == receipts;
    r := MakeContents(grouped, AllRows(d, root, receipts));
  }

  lemma NothingGrouped(d: Disk, root: Path)
    ensures Groups(map[], AllRows(d, root, []))
  {}

  lemma UnusableIsComplete(d: Disk, root: Path, s: Stored)
    requires !Usable(s)
    ensures Complete(d, root, s)
  {}

  // ----- Order of receipts, and conflicts -----

  lemma RowsComeFrom(d: Disk, root: Path, ss: seq<Stored>, q: Row)
    ensures q in AllRows(d, root, ss) <==> exists s, i :: s in ss && Usable(s) && Gives(d, root, s, i, q)
  {
    hide Gather, RowOf;
    GatherHolds(RowsOf(d, root), ss);
    if q in AllRows(d, root, ss) {
      var s :| s in ss && q in RowsOf(d, root)(s);
      GatherHolds(ItemRows(d, root, s.dir, s.receipt.value), s.receipt.value.artifacts.value);
      var i :| i in s.receipt.value.artifacts.value && q in ItemRows(d, root, s.dir, s.receipt.value)(i);
      assert Gives(d, root, s, i, q);
    }
    if exists s, i :: s in ss && Usable(s) && Gives(d, root, s, i, q) {
      var s, i :| s in ss && Usable(s) && Gives(d, root, s, i, q);
      GatherHolds(ItemRows(d, root, s.dir, s.receipt.value), s.receipt.value.artifacts.value);
      assert q in ItemRows(d, root, s.dir, s.receipt.value)(i);
      assert q in RowsOf(d, root)(s);
    }
  }

  /** The receipt lists the artifact, and this is its row. */
  ghost predicate Gives(d: Disk, root: Path, s: Stored, i: Item, q: Row)
    requires Usable(s)
  {
    i in s.receipt.value.artifacts.value && i.Item? && RowOf(d, root, s.dir, s.receipt.value, i) == Ok(q)
  }

  lemma SuccessfulAre(d: Disk, h: Hash, root: Path, present: bool, found: seq<Stored>, s: Stored)
    ensures s in Successful(d, h, root, present, found) <==> present && s in found && Valid(d, h, root, s)
  {
    hide Gather, Sort, Valid, StringLeq;
    if present {
      DirsAreOrdered();
      SortSorts(DirLeq, found);
      SameMembers(Sort(DirLeq, found), found);
      GatherHolds(OnlyValid(d, h, root), Sort(DirLeq, found));
      assert s in found && Valid(d, h, root, s) ==> s in OnlyValid(d, h, root)(s);
    }
  }

  lemma DirsAreOrdered()
    ensures Total(DirLeq)
  {
    hide StringLeq;
    StringsAreOrdered();
    forall a: Stored, b: Stored ensures DirLeq(a, b) || DirLeq(b, a) { assert StringLeq(a.dir, b.dir) || StringLeq(b.dir, a.dir); }
  }

  /** Rows of valid receipts carry the hash and the size of one file; as files do not collide there is one size for each. */
  lemma ConflictIsUnreachable(d: Disk, h: Hash, root: Path, present: bool, found: seq<Stored>)
    requires Identifies(h, d)
    ensures OneSizeEach(IndexRows(d, h, root, present, found))
  {
    hide Gather, Successful, RowOf, Identifies;
    var rows := IndexRows(d, h, root, present, found);
    forall r, q | r in rows && q in rows && r.sha == q.sha ensures r.size == q.size {
      var a := RowIsVerified(d, h, root, present, found, r);
      var b := RowIsVerified(d, h, root, present, found, q);
      OneSizePerHash(d, h, Downloads(root), a, r.size, Downloads(root), b, q.size, r.sha);
    }
  }

  lemma RowIsVerified(d: Disk, h: Hash, root: Path, present: bool, found: seq<Stored>, q: Row) returns (p: Reference)
    requires Identifies(h, d) && q in IndexRows(d, h, root, present, found)
    ensures Verifies(d, h, Downloads(root), p, q.size, q.sha)
  {
    hide Gather, Successful, Identifies, OneOfEach;
    RowsComeFrom(d, root, Successful(d, h, root, present, found), q);
    var s, i :| s in Successful(d, h, root, present, found) && Usable(s) && Gives(d, root, s, i, q);
    SuccessfulAre(d, h, root, present, found, s);
    assert ItemVerifies(d, h, Downloads(root), i);
    p := i.path.value;
    HashesAreLower(d, h, Downloads(root), p, i.size.value, i.sha.value);
  }

  lemma HashesAreLower(d: Disk, h: Hash, root: Path, p: Reference, size: int, sha: string)
    requires Identifies(h, d) && Verifies(d, h, root, p, size, sha)
    ensures Lower(sha) == sha
  {}

  /** If no two files of the disk collide, building fails only on an incomplete valid receipt. */
  lemma BuildFailsOnlyIncomplete(d: Disk, h: Hash, root: Path, present: bool, found: seq<Stored>)
    requires Identifies(h, d)
    ensures (AllComplete(d, root, Successful(d, h, root, present, found)) && OneSizeEach(IndexRows(d, h, root, present, found))) <==>
      (present ==> forall s :: s in found && Valid(d, h, root, s) ==> Complete(d, root, s))
  {
    hide Complete, Valid, Successful, OneSizeEach, Identifies;
    ConflictIsUnreachable(d, h, root, present, found);
    forall s ensures s in Successful(d, h, root, present, found) <==> present && s in found && Valid(d, h, root, s) {
      SuccessfulAre(d, h, root, present, found, s);
    }
  }

  lemma {:induction false} UnderHolds(rows: seq<Row>, sha: string, x: Relationship)
    ensures x in Under(rows, sha) <==> exists r :: r in rows && r.sha == sha && r.relationship == x
  {
    hide Gather;
    GatherHolds(Relates(sha), rows);
    if exists r :: r in rows && r.sha == sha && r.relationship == x {
      var r :| r in rows && r.sha == sha && r.relationship == x;
      assert x in Relates(sha)(r);
    }
  }

  /** Rows that are permutations of each other have one index. */
  lemma IndexIsUnique(a: Index, rows: seq<Row>, b: Index, other: seq<Row>)
    requires IsIndex(a, rows) && IsIndex(b, other) && multiset(rows) == multiset(other) && FromSource(rows)
    ensures a == b
  {
    hide Gather, Sorted, Describes;
    SameMembers(rows, other);
    SameShas(rows, other);
    ListingIsUnique(Indexed(a), Indexed(b), Shas(rows));
    forall i | 0 <= i < |a| ensures a[i] == b[i] {
      assert a[i].sha == Indexed(a)[i] == Indexed(b)[i] == b[i].sha;
      assert Indexed(a)[i] in Indexed(a);
      ContentIsUnique(a[i], rows, b[i], other);
    }
    assert |a| == |Indexed(a)| == |Indexed(b)| == |b|;
  }

  lemma SameShas(rows: seq<Row>, other: seq<Row>)
    requires forall r :: r in rows <==> r in other
    ensures Shas(rows) == Shas(other)
  {}

  lemma ContentIsUnique(a: Content, rows: seq<Row>, b: Content, other: seq<Row>)
    requires Describes(a, rows) && Describes(b, other) && a.sha == b.sha && a.sha in Shas(rows)
    requires multiset(rows) == multiset(other) && FromSource(rows)
    ensures a == b
  {
    hide Gather, Sorted, RelationshipLeq;
    SameMembers(rows, other);
    GatherPermutes(Relates(a.sha), rows, other);
    SameMembers(a.relationships, Under(rows, a.sha));
    forall x | x in a.relationships ensures x.source == SOURCE {
      UnderHolds(rows, a.sha, x);
    }
    RelationshipsAreOrdered();
    SortedIsUnique(RelationshipLeq, a.relationships, b.relationships);
  }

  lemma RowsAreFromSource(d: Disk, root: Path, ss: seq<Stored>)
    ensures FromSource(AllRows(d, root, ss))
  {
    hide Gather;
    forall q | q in AllRows(d, root, ss) ensures q.relationship.source == SOURCE {
      RowsComeFrom(d, root, ss, q);
    }
  }

  /** The order in which receipts are found does not show in the index. */
  lemma IndexIgnoresReceiptOrder(d: Disk, h: Hash, root: Path, present: bool, found: seq<Stored>, other: seq<Stored>,
      a: Index, b: Index)
    requires multiset(found) == multiset(other)
    requires IsIndex(a, IndexRows(d, h, root, present, found)) && IsIndex(b, IndexRows(d, h, root, present, other))
    ensures a == b
  {
    hide Gather, Sort, IsIndex;
    if present {
      DirsAreOrdered();
      SortSorts(DirLeq, found);
      SortSorts(DirLeq, other);
      GatherPermutes(OnlyValid(d, h, root), Sort(DirLeq, found), Sort(DirLeq, other));
      GatherPermutes(RowsOf(d, root), Successful(d, h, root, present, found), Successful(d, h, root, present, other));
    }
    RowsAreFromSource(d, root, Successful(d, h, root, present, found));
    IndexIsUnique(a, IndexRows(d, h, root, present, found), b, IndexRows(d, h, root, present, other));
  }

  // ----- Looking an artifact up -----

  predicate IsHexDigit(c: char) { '0' <= c <= '9' || 'a' <= c <= 'f' || 'A' <= c <= 'F' }

  predicate AcceptedSha256(s: string) { |s| == 64 && forall i :: 0 <= i < |s| ==> IsHexDigit(s[i]) }

  predicate Sufficient(e: Expectation) {
    e.canonicalId != "" && e.kind != "" && e.filename != "" && e.target != "" && e.sha.Some? && AcceptedSha256(e.sha.value) &&
    (e.size.None? || e.size.value >= 0)
  }

  predicate Wanted(e: Expectation, sha: string, size: int) {
    e.sha.Some? && sha == Lower(e.sha.value) && (e.size.None? || size == e.size.value)
  }

  predicate Fits(e: Expectation, x: Relationship) {
    x.source == SOURCE && x.canonicalId == e.canonicalId && x.kind == e.kind && x.filename == e.filename &&
    x.target == e.target && forall g :: g in e.groups ==> g in x.groups
  }

  ghost predicate InIndex(index: Index, e: Expectation, now: Disk, h: Hash, root: Path) {
    exists c, x :: c in index && x in c.relationships && Wanted(e, c.sha, c.size) && Fits(e, x) &&
      Verifies(now, h, root, Reference(false, x.local), c.size, c.sha)
  }

  method ArtifactStatus(index: Index, e: Expectation, now: Disk, h: Hash, root: Path) returns (r: Status)
    ensures r == SdkmDecision <==> !Sufficient(e)
    ensures r == VerifiedCached <==> Sufficient(e) && InIndex(index, e, now, h, root)
  {
    hide Verifies, Fits, Lower;
    if !Sufficient(e) { return SdkmDecision; }
    for i := 0 to |index|
      invariant forall c, x :: c in index[..i] && x in c.relationships && Wanted(e, c.sha, c.size) && Fits(e, x) ==>
        !Verifies(now, h, root, Reference(false, x.local), c.size, c.sha)
    {
      assert index[..i + 1] == index[..i] + [index[i]];
      var c := index[i];
      if !Wanted(e, c.sha, c.size) { continue; }
      for j := 0 to |c.relationships|
        invariant forall x :: x in c.relationships[..j] && Fits(e, x) ==>
          !Verifies(now, h, root, Reference(false, x.local), c.size, c.sha)
      {
        var x := c.relationships[j];
        assert c.relationships[..j + 1] == c.relationships[..j] + [x];
        if Fits(e, x) && Verifies(now, h, root, Reference(false, x.local), c.size, c.sha) {
          assert c in index && x in c.relationships;
          return VerifiedCached;
        }
      }
      assert c.relationships[..|c.relationships|] == c.relationships;
    }
    assert index[..|index|] == index;
    return DownloadRequired;
  }

  /** Looking directly at a receipt: it lists an artifact with everything the expectation asks for. */
  ghost predicate ListsArtifact(e: Expectation, r: Receipt, i: Item) {
    r.artifacts.Some? && r.groups.Some? && i in r.artifacts.value && i.Item? && i.sha.Some? && i.size.Some? && i.path.Some? &&
    r.downloadRoot.Some? && Wanted(e, Lower(i.sha.value), i.size.value) && r.canonicalId == Some(e.canonicalId) &&
    i.kind == Some(e.kind) && i.filename == Some(e.filename) && r.target == Some(e.target) &&
    forall g :: g in e.groups ==> g in r.groups.value
  }

  /** Where the artifact was when the index was built, as a reference below the data root. */
  ghost function Located(d: Disk, root: Path, r: Receipt, i: Item): Reference
    requires r.downloadRoot.Some? && i.Item? && i.path.Some?
  {
    var local := d.resolve(Join(r.downloadRoot.value, i.path.value));
    Reference(false, if root <= local then local[|root|..] else [])
  }

  ghost predicate StillVerifies(d: Disk, r: Receipt, i: Item, now: Disk, h: Hash, root: Path) {
    r.downloadRoot.Some? && i.Item? && i.path.Some? && i.size.Some? && i.sha.Some? &&
    Verifies(now, h, root, Located(d, root, r, i), i.size.value, Lower(i.sha.value))
  }

  ghost predicate InReceipts(ss: seq<Stored>, d: Disk, e: Expectation, now: Disk, h: Hash, root: Path) {
    exists s, i :: s in ss && s.receipt.Some? && ListsArtifact(e, s.receipt.value, i) &&
      StillVerifies(d, s.receipt.value, i, now, h, root)
  }

  /** An artifact fits the expectation in the receipt exactly when its row does. */
  lemma RowFits(d: Disk, root: Path, s: Stored, i: Item, e: Expectation)
    requires Usable(s) && i in s.receipt.value.artifacts.value && i.Item? && RowOf(d, root, s.dir, s.receipt.value, i).Ok?
    ensures var q := RowOf(d, root, s.dir, s.receipt.value, i).value;
      (ListsArtifact(e, s.receipt.value, i) <==> Wanted(e, q.sha, q.size) && Fits(e, q.relationship)) &&
      Located(d, root, s.receipt.value, i) == Reference(false, q.relationship.local)
  {
    hide Sort, Lower, StringLeq;
    StringsAreOrdered();
    SortSorts(StringLeq, s.receipt.value.groups.value);
    SameMembers(Sort(StringLeq, s.receipt.value.groups.value), s.receipt.value.groups.value);
  }

  lemma IndexHolds(index: Index, rows: seq<Row>, e: Expectation, now: Disk, h: Hash, root: Path)
    requires IsIndex(index, rows)
    ensures InIndex(index, e, now, h, root) <==>
      exists q :: q in rows && Wanted(e, q.sha, q.size) && Fits(e, q.relationship) &&
        Verifies(now, h, root, Reference(false, q.relationship.local), q.size, q.sha)
  {
    hide Gather, Sorted, Verifies, Fits, Lower;
    if InIndex(index, e, now, h, root) {
      var c, x :| c in index && x in c.relationships && Wanted(e, c.sha, c.size) && Fits(e, x) &&
        Verifies(now, h, root, Reference(false, x.local), c.size, c.sha);
      SameMembers(c.relationships, Under(rows, c.sha));
      UnderHolds(rows, c.sha, x);
    }
    forall q | q in rows && Wanted(e, q.sha, q.size) && Fits(e, q.relationship) &&
        Verifies(now, h, root, Reference(false, q.relationship.local), q.size, q.sha)
      ensures InIndex(index, e, now, h, root)
    {
      var shas := Indexed(index);
      assert q.sha in shas;
      var k :| 0 <= k < |shas| && shas[k] == q.sha;
      var c := index[k];
      UnderHolds(rows, q.sha, q.relationship);
      SameMembers(c.relationships, Under(rows, c.sha));
      assert c in index;
    }
  }

  /** The index answers exactly what a direct look at the receipts it was built from would answer. */
  lemma IndexAgreesWithReceipts(index: Index, d: Disk, ss: seq<Stored>, e: Expectation, now: Disk, h: Hash, root: Path)
    requires IsIndex(index, AllRows(d, root, ss)) && AllComplete(d, root, ss)
    ensures InIndex(index, e, now, h, root) <==> InReceipts(ss, d, e, now, h, root)
  {
    hide IsIndex, AllRows, RowOf, Verifies, Wanted, Fits, ListsArtifact, Located;
    var rows := AllRows(d, root, ss);
    IndexHolds(index, rows, e, now, h, root);
    if InIndex(index, e, now, h, root) {
      var q :| q in rows && Wanted(e, q.sha, q.size) && Fits(e, q.relationship) &&
        Verifies(now, h, root, Reference(false, q.relationship.local), q.size, q.sha);
      RowsComeFrom(d, root, ss, q);
      var s, i :| s in ss && Usable(s) && Gives(d, root, s, i, q);
      RowFits(d, root, s, i, e);
      RowIdentity(d, root, s, i);
    }
    if InReceipts(ss, d, e, now, h, root) {
      var s, i :| s in ss && s.receipt.Some? && ListsArtifact(e, s.receipt.value, i) &&
        StillVerifies(d, s.receipt.value, i, now, h, root);
      ListedIsUsable(e, s, i);
      var q := RowOf(d, root, s.dir, s.receipt.value, i).value;
      RowFits(d, root, s, i, e);
      RowIdentity(d, root, s, i);
      assert Gives(d, root, s, i, q);
      RowsComeFrom(d, root, ss, q);
    }
  }

  lemma ListedIsUsable(e: Expectation, s: Stored, i: Item)
    requires s.receipt.Some? && ListsArtifact(e, s.receipt.value, i)
    ensures Usable(s) && i in s.receipt.value.artifacts.value && i.Item?
  {}

  lemma RowIdentity(d: Disk, root: Path, s: Stored, i: Item)
    requires Usable(s) && i in s.receipt.value.artifacts.value && i.Item? && RowOf(d, root, s.dir, s.receipt.value, i).Ok?
    ensures var q := RowOf(d, root, s.dir, s.receipt.value, i).value;
      s.receipt.value.downloadRoot.Some? && i.path.Some? && i.sha.Some? && i.size.Some? && q.sha == Lower(i.sha.value) && q.size == i.size.value
  {}

  // ----- An unchanged disk -----

  /**
   * How resolution behaves on one disk: resolved paths stay as they are and are no symbolic links, and resolving a
   * directory first does not change where a path below it leads. The data root is resolved.
   */
  ghost predicate Coherent(d: Disk, root: Path) {
    d.resolve(root) == root && (forall p :: d.resolve(d.resolve(p)) == d.resolve(p) && !d.symlink(d.resolve(p))) &&
    forall p, r :: d.resolve(Join(d.resolve(p), r)) == d.resolve(Join(p, r))
  }

  /** While nothing has changed, being listed by a valid receipt is enough. */
  lemma UnchangedDiskNeedsNoCheck(d: Disk, h: Hash, root: Path, present: bool, found: seq<Stored>, index: Index, e: Expectation)
    requires Coherent(d, root) && Identifies(h, d) && AllComplete(d, root, Successful(d, h, root, present, found))
    requires IsIndex(index, IndexRows(d, h, root, present, found))
    ensures InIndex(index, e, d, h, root) <==>
      present && exists s, i :: s in found && Valid(d, h, root, s) && ListsArtifact(e, s.receipt.value, i)
  {
    hide IsIndex, AllRows, RowOf, StillVerifies, ListsArtifact, Successful, Valid, Identifies, Coherent, Complete;
    var ss := Successful(d, h, root, present, found);
    IndexAgreesWithReceipts(index, d, ss, e, d, h, root);
    forall s ensures s in ss <==> present && s in found && Valid(d, h, root, s) { SuccessfulAre(d, h, root, present, found, s); }
    ValidHasReceipt(d, h, root);
    forall s, i | s in ss && ListsArtifact(e, s.receipt.value, i)
      ensures StillVerifies(d, s.receipt.value, i, d, h, root)
    {
      ListedIsUsable(e, s, i);
      StillThere(d, h, root, s, i);
    }
  }

  lemma ValidHasReceipt(d: Disk, h: Hash, root: Path)
    ensures forall s :: Valid(d, h, root, s) ==> s.receipt.Some?
  {}

  lemma VerifiedFile(d: Disk, h: Hash, root: Path, p: Reference, size: int, sha: string)
    requires Verifies(d, h, root, p, size, sha)
    ensures var found := d.resolve(Join(d.resolve(root), p)); found in d.files && |d.files[found]| == size && h(d.files[found]) == sha
  {}

  lemma StillThere(d: Disk, h: Hash, root: Path, s: Stored, i: Item)
    requires Coherent(d, root) && Identifies(h, d) && Valid(d, h, root, s) && Complete(d, root, s)
    requires Usable(s) && i in s.receipt.value.artifacts.value && i.Item?
    ensures StillVerifies(d, s.receipt.value, i, d, h, root)
  {
    hide OneOfEach, Lower, Identifies, Sort;
    assert ItemVerifies(d, h, Downloads(root), i);
    HashesAreLower(d, h, Downloads(root), i.path.value, i.size.value, i.sha.value);
    var local := d.resolve(Join(Downloads(root), i.path.value));
    VerifiedFile(d, h, Downloads(root), i.path.value, i.size.value, i.sha.value);
    assert RowOf(d, root, s.dir, s.receipt.value, i).Ok?;
    assert root <= local;
    assert root + local[|root|..] == local;
    assert Located(d, root, s.receipt.value, i) == Reference(false, local[|root|..]);
    assert d.resolve(local) == local && !d.symlink(local);
  }
}
