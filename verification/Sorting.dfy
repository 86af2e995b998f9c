/** Sorting as the planners use it: by keys, with a result that does not depend on the input order. */
module Sorting {
  type Order<!T> = (T, T) -> bool

  ghost predicate Total<T(!new)>(leq: Order<T>) {
    (forall a, b :: leq(a, b) || leq(b, a)) && forall a, b, c :: leq(a, b) && leq(b, c) ==> leq(a, c)
  }

  ghost predicate Sorted<T(!new)>(leq: Order<T>, s: seq<T>) {
    forall i, j :: 0 <= i < j < |s| ==> leq(s[i], s[j])
  }

  /** Elements that compare equal are equal: the keys of `s` are distinct. */
  ghost predicate Separates<T(!new)>(leq: Order<T>, s: seq<T>) {
    forall a, b :: a in s && b in s && leq(a, b) && leq(b, a) ==> a == b
  }

  ghost predicate NoRepeats<T>(s: seq<T>) { forall i, j :: 0 <= i < j < |s| ==> s[i] != s[j] }

  function Insert<T>(leq: Order<T>, x: T, s: seq<T>): seq<T> {
    if s == [] then [x]
    else if leq(x, s[0]) then [x] + s
    else [s[0]] + Insert(leq, x, s[1..])
  }

  function Sort<T>(leq: Order<T>, s: seq<T>): seq<T> {
    if s == [] then [] else Insert(leq, s[0], Sort(leq, s[1..]))
  }

  lemma FirstAside<T>(s: seq<T>)
    requires s != []
    ensures multiset(s) == multiset{s[0]} + multiset(s[1..])
  {
    assert s == [s[0]] + s[1..];
  }

  lemma Without<T>(s: seq<T>, j: nat)
    requires j < |s|
    ensures multiset(s) == multiset(s[..j] + s[j + 1..]) + multiset{s[j]}
  {
    assert s == s[..j] + [s[j]] + s[j + 1..];
    assert multiset(s) == multiset(s[..j]) + multiset{s[j]} + multiset(s[j + 1..]);
  }

  lemma Between<T>(a: seq<T>, b: seq<T>, c: seq<T>)
    ensures multiset(a + b + c) == multiset(a + c) + multiset(b)
  {}

  lemma {:induction false} InsertAdds<T>(leq: Order<T>, x: T, s: seq<T>)
    ensures multiset(Insert(leq, x, s)) == multiset(s) + multiset{x}
  {
    if s != [] && !leq(x, s[0]) {
      InsertAdds(leq, x, s[1..]);
      FirstAside(s);
      assert multiset(Insert(leq, x, s)) == multiset{s[0]} + multiset(Insert(leq, x, s[1..]));
    }
  }

  lemma SameMembers<T>(s: seq<T>, t: seq<T>)
    requires multiset(s) == multiset(t)
    ensures forall y :: y in s <==> y in t
  {
    forall y ensures y in s <==> y in t { assert y in s <==> y in multiset(s); }
  }

  lemma {:induction false} InsertSorts<T(!new)>(leq: Order<T>, x: T, s: seq<T>)
    requires Total(leq) && Sorted(leq, s)
    ensures Sorted(leq, Insert(leq, x, s))
  {
    if s != [] && !leq(x, s[0]) {
      InsertSorts(leq, x, s[1..]);
      InsertAdds(leq, x, s[1..]);
      var r := Insert(leq, x, s[1..]);
      SameMembers(r, s[1..] + [x]);
      assert forall y :: y in r ==> leq(s[0], y);
    } else if s != [] {
      assert forall y :: y in s ==> leq(x, y);
    }
  }

  lemma InsertKeeps<T(!new)>(leq: Order<T>, x: T, s: seq<T>)
    requires Total(leq) && Sorted(leq, s)
    ensures Sorted(leq, Insert(leq, x, s)) && multiset(Insert(leq, x, s)) == multiset(s) + multiset{x}
  {
    InsertSorts(leq, x, s);
    InsertAdds(leq, x, s);
  }

  lemma {:induction false} SortSorts<T(!new)>(leq: Order<T>, s: seq<T>)
    requires Total(leq)
    ensures Sorted(leq, Sort(leq, s)) && multiset(Sort(leq, s)) == multiset(s)
  {
    if s != [] {
      SortSorts(leq, s[1..]);
      InsertKeeps(leq, s[0], Sort(leq, s[1..]));
      assert s == [s[0]] + s[1..];
    }
  }

  /** One order of the elements is sorted, and no other. */
  lemma {:induction false} SortedIsUnique<T(!new)>(leq: Order<T>, a: seq<T>, b: seq<T>)
    requires Sorted(leq, a) && Sorted(leq, b) && multiset(a) == multiset(b) && Separates(leq, a)
    ensures a == b
    decreases |a|
  {
    assert |a| == |b| by { assert |a| == |multiset(a)| && |b| == |multiset(b)|; }
    if a != [] {
      SameFirst(leq, a, b);
      FirstAside(a);
      FirstAside(b);
      assert multiset(a[1..]) == multiset(a) - multiset{a[0]};
      assert multiset(b[1..]) == multiset(b) - multiset{b[0]};
      SortedIsUnique(leq, a[1..], b[1..]);
    }
  }

  lemma SameFirst<T(!new)>(leq: Order<T>, a: seq<T>, b: seq<T>)
    requires Sorted(leq, a) && Sorted(leq, b) && multiset(a) == multiset(b) && Separates(leq, a) && a != [] && b != []
    ensures a[0] == b[0]
  {
    assert a[0] in multiset(b) && b[0] in multiset(a);
    var i :| 0 <= i < |b| && b[i] == a[0];
    var j :| 0 <= j < |a| && a[j] == b[0];
    if i > 0 && j > 0 {
      assert leq(b[0], b[i]) && leq(a[0], a[j]);
    }
  }

  /** Sorting forgets the order it was given. */
  lemma SortIgnoresOrder<T(!new)>(leq: Order<T>, s: seq<T>, t: seq<T>)
    requires Total(leq) && multiset(s) == multiset(t) && Separates(leq, s)
    ensures Sort(leq, s) == Sort(leq, t)
  {
    SortSorts(leq, s);
    SortSorts(leq, t);
    var a := Sort(leq, s);
    forall x | x in a ensures x in s { assert x in multiset(a); }
    SortedIsUnique(leq, a, Sort(leq, t));
  }

  // ----- Concatenated images -----

  /** What `f` makes of each element, in order. */
  function Gather<T, U>(f: T -> seq<U>, s: seq<T>): seq<U> {
    if s == [] then [] else Gather(f, s[..|s| - 1]) + f(s[|s| - 1])
  }

  lemma GatherNext<T, U>(f: T -> seq<U>, s: seq<T>, i: nat)
    requires i < |s|
    ensures Gather(f, s[..i + 1]) == Gather(f, s[..i]) + f(s[i])
  {
    assert s[..i + 1][..i] == s[..i];
  }

  lemma {:induction false} GatherJoins<T, U>(f: T -> seq<U>, a: seq<T>, b: seq<T>)
    ensures Gather(f, a + b) == Gather(f, a) + Gather(f, b)
  {
    if b == [] {
      assert a + b == a;
    } else {
      assert (a + b)[..|a + b| - 1] == a + b[..|b| - 1];
      GatherJoins(f, a, b[..|b| - 1]);
    }
  }

  lemma {:induction false} GatherHolds<T, U>(f: T -> seq<U>, s: seq<T>)
    ensures forall u :: u in Gather(f, s) <==> exists x :: x in s && u in f(x)
  {
    if s != [] {
      var before, last := s[..|s| - 1], s[|s| - 1];
      GatherHolds(f, before);
      assert s == before + [last];
      forall u ensures u in Gather(f, s) <==> exists x :: x in s && u in f(x) {
        if u in Gather(f, before) { var x :| x in before && u in f(x); }
        if u in f(last) { assert last in s; }
        if exists x :: x in s && u in f(x) {
          var x :| x in s && u in f(x);
          assert x in before || x == last;
        }
      }
    }
  }

  lemma GatherWithout<T, U>(f: T -> seq<U>, s: seq<T>, j: nat)
    requires j < |s|
    ensures multiset(Gather(f, s)) == multiset(Gather(f, s[..j] + s[j + 1..])) + multiset(f(s[j]))
  {
    hide Gather;
    assert s == s[..j + 1] + s[j + 1..];
    GatherNext(f, s, j);
    GatherJoins(f, s[..j + 1], s[j + 1..]);
    GatherJoins(f, s[..j], s[j + 1..]);
    Between(Gather(f, s[..j]), f(s[j]), Gather(f, s[j + 1..]));
  }

  /** The images of a permutation are a permutation of the images. */
  lemma {:induction false} GatherPermutes<T, U>(f: T -> seq<U>, s: seq<T>, t: seq<T>)
    requires multiset(s) == multiset(t)
    ensures multiset(Gather(f, s)) == multiset(Gather(f, t))
    decreases |s|
  {
    if s == [] {
      assert |multiset(t)| == 0;
    } else {
      hide Gather;
      assert s[0] in multiset(s);
      var j :| 0 <= j < |t| && t[j] == s[0];
      Without(s, 0);
      Without(t, j);
      GatherWithout(f, s, 0);
      GatherWithout(f, t, j);
      var rest, others := s[..0] + s[1..], t[..j] + t[j + 1..];
      assert multiset(rest) == multiset(s) - multiset{s[0]};
      assert multiset(others) == multiset(t) - multiset{s[0]};
      GatherPermutes(f, rest, others);
    }
  }

  // ----- Lexicographic orders -----

  ghost predicate Antisymmetric<T(!new)>(leq: Order<T>) {
    forall a, b :: leq(a, b) && leq(b, a) ==> a == b
  }

  predicate SeqLeq<T(==)>(leq: Order<T>, a: seq<T>, b: seq<T>) {
    a == [] || (b != [] && if a[0] == b[0] then SeqLeq(leq, a[1..], b[1..]) else leq(a[0], b[0]))
  }

  lemma {:induction false} SeqConnected<T(!new)>(leq: Order<T>, a: seq<T>, b: seq<T>)
    requires Total(leq) && Antisymmetric(leq)
    ensures SeqLeq(leq, a, b) || SeqLeq(leq, b, a)
    ensures SeqLeq(leq, a, b) && SeqLeq(leq, b, a) ==> a == b
  {
    if a != [] && b != [] && a[0] == b[0] {
      SeqConnected(leq, a[1..], b[1..]);
      assert a == [a[0]] + a[1..] && b == [b[0]] + b[1..];
    }
  }

  lemma {:induction false} SeqTransitive<T(!new)>(leq: Order<T>, a: seq<T>, b: seq<T>, c: seq<T>)
    requires Total(leq) && Antisymmetric(leq) && SeqLeq(leq, a, b) && SeqLeq(leq, b, c)
    ensures SeqLeq(leq, a, c)
  {
    if a != [] && a[0] == b[0] && b[0] == c[0] { SeqTransitive(leq, a[1..], b[1..], c[1..]); }
  }

  predicate CharLeq(a: char, b: char) { a <= b }

  /** Strings by code point. */
  predicate StringLeq(a: string, b: string) { SeqLeq(CharLeq, a, b) }

  lemma StringsAreOrdered()
    ensures Total(StringLeq) && Antisymmetric(StringLeq)
  {
    forall a, b
      ensures StringLeq(a, b) || StringLeq(b, a)
      ensures StringLeq(a, b) && StringLeq(b, a) ==> a == b
    {
      SeqConnected(CharLeq, a, b);
    }
    forall a, b, c | StringLeq(a, b) && StringLeq(b, c) ensures StringLeq(a, c) { SeqTransitive(CharLeq, a, b, c); }
  }

  predicate StringsLeq(a: seq<string>, b: seq<string>) { SeqLeq(StringLeq, a, b) }

  lemma StringListsAreOrdered()
    ensures Total(StringsLeq) && Antisymmetric(StringsLeq)
  {
    StringsAreOrdered();
    forall a, b
      ensures StringsLeq(a, b) || StringsLeq(b, a)
      ensures StringsLeq(a, b) && StringsLeq(b, a) ==> a == b
    {
      SeqConnected(StringLeq, a, b);
    }
    forall a, b, c | StringsLeq(a, b) && StringsLeq(b, c) ensures StringsLeq(a, c) { SeqTransitive(StringLeq, a, b, c); }
  }

  /** Keys of several components, each a list of strings, earlier components deciding. */
  predicate KeyLeq(a: seq<seq<string>>, b: seq<seq<string>>) { SeqLeq(StringsLeq, a, b) }

  lemma KeysAreOrdered()
    ensures Total(KeyLeq) && Antisymmetric(KeyLeq)
  {
    StringListsAreOrdered();
    forall a, b
      ensures KeyLeq(a, b) || KeyLeq(b, a)
      ensures KeyLeq(a, b) && KeyLeq(b, a) ==> a == b
    {
      SeqConnected(StringsLeq, a, b);
    }
    forall a, b, c | KeyLeq(a, b) && KeyLeq(b, c) ensures KeyLeq(a, c) { SeqTransitive(StringsLeq, a, b, c); }
  }

  /** Pairs of strings, the first component deciding. */
  predicate PairLeq(a: (string, string), b: (string, string)) {
    if a.0 == b.0 then StringLeq(a.1, b.1) else StringLeq(a.0, b.0)
  }

  lemma PairsAreOrdered()
    ensures Total(PairLeq)
    ensures forall a, b :: PairLeq(a, b) && PairLeq(b, a) ==> a == b
  {
    hide StringLeq;
    StringsAreOrdered();
    forall a: (string, string), b: (string, string)
      ensures PairLeq(a, b) || PairLeq(b, a)
      ensures PairLeq(a, b) && PairLeq(b, a) ==> a == b
    {
      OnlyEqual(a.0, b.0);
      OnlyEqual(a.1, b.1);
    }
    forall a, b, c | PairLeq(a, b) && PairLeq(b, c) ensures PairLeq(a, c) {
      if a.0 != b.0 && b.0 != c.0 && a.0 == c.0 { OnlyEqual(a.0, b.0); }
    }
  }

  lemma OnlyEqual(a: string, b: string)
    ensures StringLeq(a, b) || StringLeq(b, a)
    ensures StringLeq(a, b) && StringLeq(b, a) ==> a == b
  {
    SeqConnected(CharLeq, a, b);
  }

  // ----- Rows ordered by a key -----

  type KeyOf<!T> = T -> (string, string)

  function By<T>(key: KeyOf<T>): Order<T> { (a: T, b: T) => PairLeq(key(a), key(b)) }

  function Keys<T(==)>(key: KeyOf<T>, s: seq<T>): set<(string, string)> { set x | x in s :: key(x) }

  ghost predicate DistinctKeys<T>(key: KeyOf<T>, s: seq<T>) {
    forall i, j :: 0 <= i < j < |s| ==> key(s[i]) != key(s[j])
  }

  lemma OrderedBy<T(!new)>(key: KeyOf<T>, s: seq<T>)
    ensures Total(By(key))
    ensures DistinctKeys(key, s) ==> Separates(By(key), s)
  {
    hide PairLeq;
    PairsAreOrdered();
    forall a, b ensures By(key)(a, b) || By(key)(b, a) { assert PairLeq(key(a), key(b)) || PairLeq(key(b), key(a)); }
    if DistinctKeys(key, s) {
      forall a, b | a in s && b in s && By(key)(a, b) && By(key)(b, a) ensures a == b {
        assert key(a) == key(b);
      }
    }
  }

  lemma KeysNext<T>(key: KeyOf<T>, s: seq<T>, x: T)
    requires key(x) !in Keys(key, s) && DistinctKeys(key, s)
    ensures Keys(key, s + [x]) == Keys(key, s) + {key(x)} && DistinctKeys(key, s + [x])
  {
    forall i | 0 <= i < |s| ensures key(s[i]) != key(x) { assert key(s[i]) in Keys(key, s); }
    forall k ensures k in Keys(key, s + [x]) <==> k in Keys(key, s) + {key(x)} {}
  }

  /** A row whose key occurred before spoils the whole list. */
  lemma RepeatedKey<S, T>(key: KeyOf<T>, f: S -> seq<T>, s: seq<S>, i: nat)
    requires i < |s| && f(s[i]) != [] && key(f(s[i])[0]) in Keys(key, Gather(f, s[..i]))
    ensures !DistinctKeys(key, Gather(f, s))
  {
    hide Gather;
    var all, earlier := Gather(f, s), Gather(f, s[..i]);
    var j :| 0 <= j < |earlier| && key(earlier[j]) == key(f(s[i])[0]);
    assert s == s[..i + 1] + s[i + 1..];
    GatherNext(f, s, i);
    GatherJoins(f, s[..i + 1], s[i + 1..]);
    assert all[j] == earlier[j] && all[|earlier|] == f(s[i])[0];
  }

  lemma DistinctKeysPermute<T>(key: KeyOf<T>, a: seq<T>, b: seq<T>)
    requires multiset(a) == multiset(b) && DistinctKeys(key, a)
    ensures DistinctKeys(key, b)
  {
    OnceEach(a) by { assert forall i, j :: 0 <= i < j < |a| ==> key(a[i]) != key(a[j]); }
    SameMembers(a, b);
    EachOnce(b);
    forall i, j | 0 <= i < j < |b| ensures key(b[i]) != key(b[j]) {
      assert b[i] in a && b[j] in a && b[i] != b[j];
    }
  }

  // ----- Sets listed in order -----

  /** `r` lists the elements of `s` in ascending order, each once. */
  ghost predicate Lists(r: seq<string>, s: set<string>) {
    Sorted(StringLeq, r) && NoRepeats(r) && forall x :: x in r <==> x in s
  }

  lemma FirstIn(r: seq<string>)
    requires r != []
    ensures r[0] in r
  {}

  lemma ListsNothing(r: seq<string>)
    requires Lists(r, {})
    ensures r == []
  {
    if r != [] { FirstIn(r); }
  }

  function Elements(s: seq<string>): set<string> { set x | x in s }

  method SortSet(s: set<string>) returns (r: seq<string>)
    ensures Lists(r, s)
  {
    hide StringLeq, Insert;
    StringsAreOrdered();
    r := [];
    var left := s;
    while left != {}
      invariant left <= s && Lists(r, s - left)
      decreases left
    {
      var x :| x in left;
      InsertKeeps(StringLeq, x, r);
      InsertedOnce(x, r, s - left);
      r := Insert(StringLeq, x, r);
      left := left - {x};
      assert s - left == (s - (left + {x})) + {x};
    }
    assert s - {} == s;
  }

  lemma InsertedOnce(x: string, r: seq<string>, s: set<string>)
    requires Lists(r, s) && x !in s && multiset(Insert(StringLeq, x, r)) == multiset(r) + multiset{x}
    requires Sorted(StringLeq, Insert(StringLeq, x, r))
    ensures Lists(Insert(StringLeq, x, r), s + {x})
  {
    var q := Insert(StringLeq, x, r);
    forall y ensures y in q <==> y in s + {x} { assert y in q <==> y in multiset(q); }
    OnceEach(r);
    forall y | y in q ensures multiset(q)[y] == 1 { assert y != x ==> multiset(r)[y] == 1; }
    EachOnce(q);
  }

  lemma {:induction false} OnceEach<T>(s: seq<T>)
    requires NoRepeats(s)
    ensures forall y :: y in s ==> multiset(s)[y] == 1
  {
    if s != [] {
      OnceEach(s[1..]);
      assert s == [s[0]] + s[1..];
    }
  }

  lemma CountedTwice<T>(s: seq<T>, i: nat, j: nat)
    requires i < j < |s|
    ensures s[i] == s[j] ==> multiset(s)[s[i]] >= 2
  {
    assert s == s[..j] + [s[j]] + s[j + 1..];
    assert s[..j][i] == s[i] && s[i] in multiset(s[..j]);
    assert multiset(s) == multiset(s[..j]) + multiset{s[j]} + multiset(s[j + 1..]);
  }

  lemma {:induction false} TwoPlaces<T>(s: seq<T>, x: T) returns (i: nat, j: nat)
    requires multiset(s)[x] >= 2
    ensures i < j < |s| && s[i] == x && s[j] == x
  {
    var before, last := s[..|s| - 1], s[|s| - 1];
    assert s == before + [last];
    if last == x {
      assert x in before by { assert multiset(before)[x] >= 1; }
      i :| 0 <= i < |before| && before[i] == x;
      j := |s| - 1;
    } else {
      i, j := TwoPlaces(before, x);
    }
  }

  lemma EachOnce<T>(s: seq<T>)
    requires forall y :: y in s ==> multiset(s)[y] == 1
    ensures NoRepeats(s)
  {
    forall i, j | 0 <= i < j < |s| ensures s[i] != s[j] { CountedTwice(s, i, j); }
  }

  /** A set has one ascending listing. */
  lemma ListingIsUnique(a: seq<string>, b: seq<string>, s: set<string>)
    requires Lists(a, s) && Lists(b, s)
    ensures a == b
  {
    hide StringLeq;
    StringsAreOrdered();
    OnceEach(a);
    OnceEach(b);
    forall y ensures multiset(a)[y] == multiset(b)[y] {
      assert y in a <==> y in b;
      if y !in s { assert y !in multiset(a) && y !in multiset(b); }
    }
    assert multiset(a) == multiset(b);
    SortedIsUnique(StringLeq, a, b);
  }
}
