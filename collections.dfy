/** The document-store primitives the handlers are built from, over a
    collection kept as a sequence in natural (insertion) order: filtering
    (`$match`, `deleteMany`), the first match (`findOne`, `findById`),
    updating by id (`findByIdAndUpdate`, `save`), the array operators
    `$addToSet` and `$pull`, `$sum`, and `$sort` on one numeric key. */
module Collections {
  import opened Common

  // ---------------------------------------------------------------------
  // Filtering and counting
  // ---------------------------------------------------------------------

  /** The elements of `s` that satisfy `p`, in their original order. */
  function Filter<T(!new)>(s: seq<T>, p: T -> bool): (r: seq<T>)
    ensures |r| <= |s|
    ensures forall x :: x in r <==> x in s && p(x)
    decreases |s|
  {
    if s == [] then []
    else Filter(s[..|s| - 1], p) + (if p(s[|s| - 1]) then [s[|s| - 1]] else [])
  }

  /** The positions of `s` whose element satisfies `p`. */
  function Positions<T(!new)>(s: seq<T>, p: T -> bool): set<int> {
    set i | 0 <= i < |s| && p(s[i])
  }

  /** The positions of `s` are those of its prefix and, when it satisfies
      `p`, the last position. */
  lemma PositionsSnoc<T(!new)>(s: seq<T>, p: T -> bool)
    requires s != []
    ensures var last := |s| - 1;
            Positions(s, p) == Positions(s[..last], p) + (if p(s[last]) then {last} else {}) &&
            last !in Positions(s[..last], p)
  {
    var last := |s| - 1;
    var init := s[..last];
    var extra: set<int> := if p(s[last]) then {last} else {};
    forall i | i in Positions(s, p) ensures i in Positions(init, p) + extra {
      if i < last { assert s[i] == init[i]; }
    }
    forall i | i in Positions(init, p) + extra ensures i in Positions(s, p) {
      if i < last { assert s[i] == init[i]; }
    }
  }

  /** A filter keeps one element per satisfying position: `$size` of a
      joined array is the number of records that match the join. */
  lemma {:induction false} FilterCount<T(!new)>(s: seq<T>, p: T -> bool)
    ensures |Filter(s, p)| == |Positions(s, p)|
    decreases |s|
  {
    if s != [] {
      FilterCount(s[..|s| - 1], p);
      PositionsSnoc(s, p);
    }
  }

  lemma {:induction false} FilterAppend<T(!new)>(a: seq<T>, b: seq<T>, p: T -> bool)
    ensures Filter(a + b, p) == Filter(a, p) + Filter(b, p)
    decreases |b|
  {
    if b == [] {
      assert a + b == a;
    } else {
      var b' := b[..|b| - 1];
      assert (a + b)[..|a + b| - 1] == a + b';
      assert (a + b)[|a + b| - 1] == b[|b| - 1];
      FilterAppend(a, b', p);
    }
  }

  /** Filtering with `p` and then with `q` is filtering with both. */
  lemma {:induction false} FilterFilter<T(!new)>(s: seq<T>, p: T -> bool, q: T -> bool, pq: T -> bool)
    requires forall x :: pq(x) == (p(x) && q(x))
    ensures Filter(Filter(s, p), q) == Filter(s, pq)
    decreases |s|
  {
    if s != [] {
      var init := s[..|s| - 1];
      var x := s[|s| - 1];
      FilterFilter(init, p, q, pq);
      FilterAppend(Filter(init, p), if p(x) then [x] else [], q);
    }
  }

  /** A filter keeps every copy of a satisfying element and no copy of any other. */
  lemma {:induction false} FilterMultiset<T(!new)>(s: seq<T>, p: T -> bool, x: T)
    ensures multiset(Filter(s, p))[x] == if p(x) then multiset(s)[x] else 0
    decreases |s|
  {
    if s != [] {
      var init := s[..|s| - 1];
      assert s == init + [s[|s| - 1]];
      FilterMultiset(init, p, x);
    }
  }

  /** Filters of two permutations of each other are permutations of each other. */
  lemma FilterPermutation<T(!new)>(a: seq<T>, b: seq<T>, p: T -> bool)
    requires multiset(a) == multiset(b)
    ensures multiset(Filter(a, p)) == multiset(Filter(b, p))
  {
    forall x ensures multiset(Filter(a, p))[x] == multiset(Filter(b, p))[x] {
      FilterMultiset(a, p, x);
      FilterMultiset(b, p, x);
    }
  }

  /** Both predicates at once (two `$match` stages in a row). */
  function Both<T(!new)>(p: T -> bool, q: T -> bool): T -> bool {
    (x: T) => p(x) && q(x)
  }

  /** Filters by predicates that agree everywhere are the same filter. */
  lemma {:induction false} FilterExt<T(!new)>(s: seq<T>, p: T -> bool, q: T -> bool)
    requires forall x :: p(x) == q(x)
    ensures Filter(s, p) == Filter(s, q)
    decreases |s|
  {
    if s != [] {
      FilterExt(s[..|s| - 1], p, q);
    }
  }

  /** A filter every element passes keeps the whole collection. */
  lemma {:induction false} FilterAll<T(!new)>(s: seq<T>, p: T -> bool)
    requires forall x :: p(x)
    ensures Filter(s, p) == s
    decreases |s|
  {
    if s != [] {
      FilterAll(s[..|s| - 1], p);
      assert s == s[..|s| - 1] + [s[|s| - 1]];
    }
  }

  /** A filter and its complement share the collection between them. */
  lemma {:induction false} FilterSplit<T(!new)>(s: seq<T>, p: T -> bool, q: T -> bool)
    requires forall x :: q(x) == !p(x)
    ensures |Filter(s, p)| + |Filter(s, q)| == |s|
    decreases |s|
  {
    if s != [] {
      FilterSplit(s[..|s| - 1], p, q);
    }
  }

  // ---------------------------------------------------------------------
  // The first match and lookup by key
  // ---------------------------------------------------------------------

  /** The first element of `s` that satisfies `p` (`findOne`). */
  function First<T(!new)>(s: seq<T>, p: T -> bool): (r: Option<T>)
    ensures r.Some? ==> exists i :: 0 <= i < |s| && s[i] == r.value && p(s[i])
                          && forall j :: 0 <= j < i ==> !p(s[j])
    ensures r.None? <==> forall x :: x in s ==> !p(x)
  {
    if s == [] then None
    else if p(s[0]) then Some(s[0])
    else
      var r := First(s[1..], p);
      assert forall i :: 0 <= i < |s| - 1 ==> s[1..][i] == s[i + 1];
      r
  }

  /** Two lists of one length whose elements satisfy `p` at the same
      positions have their first match at the same position. */
  lemma {:induction false} FirstAtSamePosition<T(!new)>(a: seq<T>, b: seq<T>, p: T -> bool)
    requires |a| == |b| && forall i :: 0 <= i < |a| ==> (p(a[i]) <==> p(b[i]))
    ensures First(a, p).Some? <==> First(b, p).Some?
    ensures First(a, p).Some? ==>
              exists i :: 0 <= i < |a| && First(a, p).value == a[i] && First(b, p).value == b[i]
    decreases |a|
  {
    if a != [] && !p(a[0]) {
      assert forall i :: 0 <= i < |a| - 1 ==> a[1..][i] == a[i + 1] && b[1..][i] == b[i + 1];
      FirstAtSamePosition(a[1..], b[1..], p);
      if First(a, p).Some? {
        var i :| 0 <= i < |a| - 1 && First(a[1..], p).value == a[1..][i] && First(b[1..], p).value == b[1..][i];
        assert First(a, p).value == a[i + 1] && First(b, p).value == b[i + 1];
      }
    }
  }

  /** The record whose key is `id`, if any (`findById` with a well-formed id). */
  function FindKey<T(!new)>(s: seq<T>, key: T -> Id, id: Id): (r: Option<T>)
    ensures r.Some? ==> r.value in s && key(r.value) == id
    ensures r.None? <==> forall x :: x in s ==> key(x) != id
  {
    if s == [] then None
    else if key(s[0]) == id then Some(s[0])
    else FindKey(s[1..], key, id)
  }

  /** No two records share a key. */
  predicate UniqueKeys<T(!new)>(s: seq<T>, key: T -> Id) {
    forall i, j :: 0 <= i < |s| && 0 <= j < |s| && key(s[i]) == key(s[j]) ==> i == j
  }

  /** `findByIdAndUpdate(id, ...)` and `save` on a record: every record whose
      key is `id` is rewritten by `f`; the others stay as they are, where they are. */
  function Update<T(!new)>(s: seq<T>, key: T -> Id, id: Id, f: T -> T): (r: seq<T>)
    ensures |r| == |s|
    ensures forall i :: 0 <= i < |s| ==> r[i] == (if key(s[i]) == id then f(s[i]) else s[i])
  {
    if s == [] then [] else [if key(s[0]) == id then f(s[0]) else s[0]] + Update(s[1..], key, id, f)
  }

  /** An update of an absent id changes nothing. */
  lemma UpdateAbsent<T(!new)>(s: seq<T>, key: T -> Id, id: Id, f: T -> T)
    requires FindKey(s, key, id).None?
    ensures Update(s, key, id, f) == s
  {
  }

  /** After an update that keeps keys, looking up the updated id yields the
      old record rewritten by `f`, and every other id yields what it did before. */
  lemma {:induction false} FindAfterUpdate<T(!new)>(s: seq<T>, key: T -> Id, id: Id, f: T -> T, j: Id)
    requires forall x :: key(f(x)) == key(x)
    ensures var old_ := FindKey(s, key, j);
            FindKey(Update(s, key, id, f), key, j) ==
              if j == id && old_.Some? then Some(f(old_.value)) else old_
  {
    if s != [] {
      var r := Update(s, key, id, f);
      assert r[1..] == Update(s[1..], key, id, f);
      FindAfterUpdate(s[1..], key, id, f, j);
    }
  }

  /** Two updates of the same id in a row are one update by their composition. */
  lemma {:induction false} UpdateCompose<T(!new)>(s: seq<T>, key: T -> Id, id: Id, f: T -> T, g: T -> T, h: T -> T)
    requires forall x :: key(f(x)) == key(x)
    requires forall x :: h(x) == g(f(x))
    ensures Update(Update(s, key, id, f), key, id, g) == Update(s, key, id, h)
  {
    var a := Update(Update(s, key, id, f), key, id, g);
    var b := Update(s, key, id, h);
    assert |a| == |b|;
    forall i | 0 <= i < |a| ensures a[i] == b[i] {
    }
  }

  // ---------------------------------------------------------------------
  // Array operators on a list of ids
  // ---------------------------------------------------------------------

  function Occurrences(s: seq<Id>, x: Id): nat {
    multiset(s)[x]
  }

  predicate NoDuplicates(s: seq<Id>) {
    forall i, j :: 0 <= i < |s| && 0 <= j < |s| && s[i] == s[j] ==> i == j
  }

  /** `$addToSet`: append `x` unless it is already present. */
  function AddToSet(s: seq<Id>, x: Id): (r: seq<Id>)
    ensures x in r
    ensures forall y :: y in r <==> y in s || y == x
  {
    if x in s then s else s + [x]
  }

  /** `$pull`: drop every occurrence of `x`. */
  function Pull(s: seq<Id>, x: Id): (r: seq<Id>)
    ensures x !in r
    ensures forall y :: y != x ==> (y in r <==> y in s)
  {
    if s == [] then [] else (if s[0] == x then [] else [s[0]]) + Pull(s[1..], x)
  }

  lemma NoDuplicatesCount(s: seq<Id>, x: Id)
    requires NoDuplicates(s) && x in s
    ensures Occurrences(s, x) == 1
  {
    var i :| 0 <= i < |s| && s[i] == x;
    assert s == s[..i] + [x] + s[i + 1..];
    assert x !in s[..i] && x !in s[i + 1..];
  }

  /** On a duplicate-free list, `$addToSet` leaves `x` present exactly once
      and the list still free of duplicates. */
  lemma AddToSetOnce(s: seq<Id>, x: Id)
    requires NoDuplicates(s)
    ensures NoDuplicates(AddToSet(s, x))
    ensures Occurrences(AddToSet(s, x), x) == 1
  {
    var r := AddToSet(s, x);
    if x !in s {
      assert forall i :: 0 <= i < |s| ==> r[i] == s[i] && r[i] != x;
    }
    NoDuplicatesCount(r, x);
  }

  /** Repeating `$addToSet` changes nothing. */
  lemma AddToSetIdempotent(s: seq<Id>, x: Id)
    ensures AddToSet(AddToSet(s, x), x) == AddToSet(s, x)
  {
  }

  /** `$pull` keeps the other entries in their order: it distributes over concatenation. */
  lemma {:induction false} PullAppend(a: seq<Id>, b: seq<Id>, x: Id)
    ensures Pull(a + b, x) == Pull(a, x) + Pull(b, x)
  {
    if a != [] {
      assert (a + b)[1..] == a[1..] + b;
      PullAppend(a[1..], b, x);
    } else {
      assert a + b == b;
    }
  }

  /** `$pull` removes every copy of `x` and no copy of anything else. */
  lemma {:induction false} PullCounts(s: seq<Id>, x: Id)
    ensures multiset(Pull(s, x)) == multiset(s)[x := 0]
  {
    if s != [] {
      assert s == [s[0]] + s[1..];
      PullCounts(s[1..], x);
    }
  }

  lemma {:induction false} PullIdempotent(s: seq<Id>, x: Id)
    ensures Pull(Pull(s, x), x) == Pull(s, x)
  {
    if s != [] {
      PullIdempotent(s[1..], x);
      PullAppend(if s[0] == x then [] else [s[0]], Pull(s[1..], x), x);
    }
  }

  function Other(x: Id): Id -> bool {
    (y: Id) => y != x
  }

  /** `$pull` is the filter that keeps every other entry, in order. */
  lemma {:induction false} PullIsFilter(s: seq<Id>, x: Id)
    ensures Pull(s, x) == Filter(s, Other(x))
  {
    if s != [] {
      var t := s[1..];
      PullIsFilter(t, x);
      assert s == [s[0]] + t;
      FilterAppend([s[0]], t, Other(x));
      assert [s[0]][..0] == [];
      assert Filter([s[0]], Other(x)) == (if s[0] != x then [s[0]] else []);
      assert Pull(s, x) == (if s[0] == x then [] else [s[0]]) + Pull(t, x);
    }
  }

  lemma PullNoDuplicates(s: seq<Id>, x: Id)
    requires NoDuplicates(s)
    ensures NoDuplicates(Pull(s, x))
  {
    var r := Pull(s, x);
    PullCounts(s, x);
    forall i, j | 0 <= i < |r| && 0 <= j < |r| && r[i] == r[j]
      ensures i == j
    {
      if i != j {
        var y := r[i];
        assert y in s;
        NoDuplicatesCount(s, y);
        TwoPositions(r, i, j);
      }
    }
  }

  lemma TwoPositions(s: seq<Id>, i: int, j: int)
    requires 0 <= i < |s| && 0 <= j < |s| && i != j && s[i] == s[j]
    ensures Occurrences(s, s[i]) >= 2
  {
    var lo, hi := if i < j then i else j, if i < j then j else i;
    assert s == s[..lo] + [s[lo]] + s[lo + 1..hi] + [s[hi]] + s[hi + 1..];
  }

  // ---------------------------------------------------------------------
  // $sum
  // ---------------------------------------------------------------------

  function SumOf<T(!new)>(s: seq<T>, f: T -> int): int
    decreases |s|
  {
    if s == [] then 0 else SumOf(s[..|s| - 1], f) + f(s[|s| - 1])
  }

  lemma {:induction false} SumOfAppend<T(!new)>(a: seq<T>, b: seq<T>, f: T -> int)
    ensures SumOf(a + b, f) == SumOf(a, f) + SumOf(b, f)
    decreases |b|
  {
    if b == [] {
      assert a + b == a;
    } else {
      assert (a + b)[..|a + b| - 1] == a + b[..|b| - 1];
      SumOfAppend(a, b[..|b| - 1], f);
    }
  }

  /** Summing `f` over a filter is summing, over the whole collection, `f`
      on the elements that pass and 0 on the others. */
  lemma {:induction false} SumOfFilter<T(!new)>(s: seq<T>, p: T -> bool, f: T -> int, g: T -> int)
    requires forall x :: g(x) == (if p(x) then f(x) else 0)
    ensures SumOf(Filter(s, p), f) == SumOf(s, g)
    decreases |s|
  {
    if s != [] {
      var init := s[..|s| - 1];
      var last := s[|s| - 1];
      SumOfFilter(init, p, f, g);
      if p(last) {
        var fi := Filter(init, p);
        assert (fi + [last])[..|fi + [last]| - 1] == fi;
      } else {
        assert Filter(s, p) == Filter(init, p) + [] == Filter(init, p);
        assert g(last) == 0;
        assert SumOf(s, g) == SumOf(init, g) + g(last);
      }
    }
  }

  /** A sum of non-negative terms is non-negative. */
  lemma {:induction false} SumOfNonNegative<T(!new)>(s: seq<T>, f: T -> int)
    requires forall x :: x in s ==> f(x) >= 0
    ensures SumOf(s, f) >= 0
    decreases |s|
  {
    if s != [] {
      SumOfNonNegative(s[..|s| - 1], f);
    }
  }

  // ---------------------------------------------------------------------
  // $sort on one numeric key
  // ---------------------------------------------------------------------

  /** `a` may come before `b`: `{key: 1}` sorts ascending, `{key: -1}` descending. */
  predicate InOrder(a: int, b: int, ascending: bool) {
    if ascending then a <= b else a >= b
  }

  predicate Ordered<T(!new)>(s: seq<T>, key: T -> int, ascending: bool) {
    forall i, j :: 0 <= i < j < |s| ==> InOrder(key(s[i]), key(s[j]), ascending)
  }

  /** A record that may precede every element of an ordered list may be put in front of it. */
  lemma ConsOrdered<T(!new)>(h: T, t: seq<T>, key: T -> int, ascending: bool)
    requires Ordered(t, key, ascending)
    requires forall y :: y in t ==> InOrder(key(h), key(y), ascending)
    ensures Ordered([h] + t, key, ascending)
  {
    var r := [h] + t;
    forall i, j | 0 <= i < j < |r|
      ensures InOrder(key(r[i]), key(r[j]), ascending)
    {
      if i > 0 {
        assert r[i] == t[i - 1] && r[j] == t[j - 1];
      } else {
        assert r[j] in t;
      }
    }
  }

  /** A filter of an ordered list is ordered: `$match` after `$sort` keeps the order. */
  lemma {:induction false} FilterOrdered<T(!new)>(s: seq<T>, p: T -> bool, key: T -> int, ascending: bool)
    requires Ordered(s, key, ascending)
    ensures Ordered(Filter(s, p), key, ascending)
    decreases |s|
  {
    if s != [] {
      var init := s[..|s| - 1];
      var last := s[|s| - 1];
      assert Ordered(init, key, ascending) by {
        forall i, j | 0 <= i < j < |init| ensures InOrder(key(init[i]), key(init[j]), ascending) {
          assert init[i] == s[i] && init[j] == s[j];
        }
      }
      FilterOrdered(init, p, key, ascending);
      var fi := Filter(init, p);
      if p(last) {
        var r := fi + [last];
        forall i, j | 0 <= i < j < |r| ensures InOrder(key(r[i]), key(r[j]), ascending) {
          if j < |fi| {
            assert r[i] == fi[i] && r[j] == fi[j];
          } else {
            assert r[i] == fi[i] && fi[i] in init;
            var k :| 0 <= k < |init| && init[k] == fi[i];
            assert s[k] == r[i] && s[|s| - 1] == r[j];
          }
        }
      } else {
        assert Filter(s, p) == fi + [];
      }
    }
  }

  /** The head of an ordered list may precede every element of it. */
  lemma HeadFirst<T(!new)>(s: seq<T>, key: T -> int, ascending: bool)
    requires s != [] && Ordered(s, key, ascending)
    ensures forall y :: y in s ==> InOrder(key(s[0]), key(y), ascending)
    ensures forall y :: y in s[1..] ==> InOrder(key(s[0]), key(y), ascending)
  {
    forall y | y in s ensures InOrder(key(s[0]), key(y), ascending) {
      var j :| 0 <= j < |s| && s[j] == y;
      if j > 0 { assert InOrder(key(s[0]), key(s[j]), ascending); }
    }
  }

  /** Putting the head back in front of the tail with `x` inserted keeps the order. */
  lemma InsertBehindHead<T(!new)>(x: T, s: seq<T>, rest: seq<T>, key: T -> int, ascending: bool)
    requires s != [] && Ordered(s, key, ascending) && !InOrder(key(x), key(s[0]), ascending)
    requires Ordered(rest, key, ascending) && multiset(rest) == multiset(s[1..]) + multiset{x}
    ensures Ordered([s[0]] + rest, key, ascending)
    ensures multiset([s[0]] + rest) == multiset(s) + multiset{x}
  {
    assert s == [s[0]] + s[1..];
    HeadFirst(s, key, ascending);
    forall y | y in rest ensures InOrder(key(s[0]), key(y), ascending) {
      assert y in multiset(rest);
      if y != x { assert y in multiset(s[1..]); }
    }
    ConsOrdered(s[0], rest, key, ascending);
  }

  function Insert<T(!new)>(x: T, s: seq<T>, key: T -> int, ascending: bool): (r: seq<T>)
    requires Ordered(s, key, ascending)
    ensures multiset(r) == multiset(s) + multiset{x}
    ensures Ordered(r, key, ascending)
  {
    if s == [] then [x]
    else if InOrder(key(x), key(s[0]), ascending) then
      HeadFirst(s, key, ascending);
      ConsOrdered(x, s, key, ascending);
      [x] + s
    else
      assert Ordered(s[1..], key, ascending) by {
        forall i, j | 0 <= i < j < |s| - 1 ensures InOrder(key(s[1..][i]), key(s[1..][j]), ascending) {
          assert s[1..][i] == s[i + 1] && s[1..][j] == s[j + 1];
        }
      }
      var rest := Insert(x, s[1..], key, ascending);
      InsertBehindHead(x, s, rest, key, ascending);
      [s[0]] + rest
  }

  /** An insertion sort: the result is ordered on the key and is a
      permutation of the input; equal keys keep their collection order. */
  function SortBy<T(!new)>(s: seq<T>, key: T -> int, ascending: bool): (r: seq<T>)
    ensures multiset(r) == multiset(s)
    ensures Ordered(r, key, ascending)
  {
    if s == [] then []
    else
      assert s == [s[0]] + s[1..];
      Insert(s[0], SortBy(s[1..], key, ascending), key, ascending)
  }

  /** A sort keeps exactly the records it was given. */
  lemma SortByMembers<T(!new)>(s: seq<T>, key: T -> int, ascending: bool)
    ensures forall x :: x in SortBy(s, key, ascending) <==> x in s
  {
    var r := SortBy(s, key, ascending);
    assert forall x :: x in r <==> x in multiset(r);
    assert forall x :: x in s <==> x in multiset(s);
  }
}
