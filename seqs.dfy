/** The two array built-ins the result pipeline is made of:
    `Array.prototype.filter` (Keep) and `Array.prototype.sort`, which since
    ECMAScript 2019 is a stable sort. The sort is modelled as insertion of
    each element in front of the first one it does not strictly follow, over
    a "goes strictly before" relation `lt` (the comparator being negative). */
module Seqs {

  /** `s.filter(p)`: the elements of `s` that satisfy `p`, in their order. */
  function Keep<T(==,!new)>(s: seq<T>, p: T -> bool): (r: seq<T>)
    ensures |r| <= |s|
    ensures forall i :: 0 <= i < |r| ==> p(r[i]) && r[i] in s
  {
    if s == [] then [] else (if p(s[0]) then [s[0]] else []) + Keep(s[1..], p)
  }

  /** What the filter keeps, counted with multiplicity: every element that
      passes, as often as it occurs, and nothing else. */
  lemma {:induction false} KeepCount<T(!new)>(s: seq<T>, p: T -> bool)
    ensures forall x :: multiset(Keep(s, p))[x] == if p(x) then multiset(s)[x] else 0
  {
    if s != [] {
      KeepCount(s[1..], p);
      assert s == [s[0]] + s[1..];
    }
  }

  /** An element is kept iff it occurs and passes. */
  lemma KeepMembers<T(!new)>(s: seq<T>, p: T -> bool)
    ensures forall x :: x in Keep(s, p) <==> x in s && p(x)
  {
    KeepCount(s, p);
    forall x ensures x in Keep(s, p) <==> x in s && p(x) {
      assert x in Keep(s, p) <==> x in multiset(Keep(s, p));
      assert x in s <==> x in multiset(s);
    }
  }

  /** `r` is `s` with some elements left out, the others in the same order. */
  predicate IsSubsequence<T(==)>(r: seq<T>, s: seq<T>)
    decreases |s|
  {
    if r == [] then true
    else if s == [] then false
    else if r[0] == s[0] then IsSubsequence(r[1..], s[1..])
    else IsSubsequence(r, s[1..])
  }

  /** Filtering keeps the relative order of what it keeps. */
  lemma {:induction false} KeepIsSubsequence<T(!new)>(s: seq<T>, p: T -> bool)
    ensures IsSubsequence(Keep(s, p), s)
  {
    if s != [] {
      KeepIsSubsequence(s[1..], p);
      var r := Keep(s, p);
      if p(s[0]) {
        assert r == [s[0]] + Keep(s[1..], p);
        assert r[1..] == Keep(s[1..], p);
      } else {
        assert r == Keep(s[1..], p);
        assert r != [] ==> r[0] != s[0];
      }
    }
  }

  /** A filter that every element passes changes nothing. */
  lemma {:induction false} KeepAll<T(!new)>(s: seq<T>, p: T -> bool)
    requires forall i :: 0 <= i < |s| ==> p(s[i])
    ensures Keep(s, p) == s
  {
    if s != [] {
      KeepAll(s[1..], p);
      assert s == [s[0]] + s[1..];
    }
  }

  /** Filtering a concatenation filters each part. */
  lemma {:induction false} KeepAppend<T(!new)>(a: seq<T>, b: seq<T>, p: T -> bool)
    ensures Keep(a + b, p) == Keep(a, p) + Keep(b, p)
  {
    if a == [] {
      assert a + b == b;
    } else {
      assert (a + b)[0] == a[0] && (a + b)[1..] == a[1..] + b;
      KeepAppend(a[1..], b, p);
    }
  }

  /** Filtering four elements keeps those that pass, in order. */
  lemma KeepFour<T(!new)>(w: T, x: T, y: T, z: T, p: T -> bool)
    ensures Keep([w] + [x] + [y] + [z], p)
            == (if p(w) then [w] else []) + (if p(x) then [x] else []) + (if p(y) then [y] else [])
               + (if p(z) then [z] else [])
  {
    KeepSingle(w, p);
    KeepSingle(x, p);
    KeepSingle(y, p);
    KeepSingle(z, p);
    KeepAppend([w], [x], p);
    KeepAppend([w] + [x], [y], p);
    KeepAppend([w] + [x] + [y], [z], p);
  }

  /** Filtering a single element keeps it exactly when it passes. */
  lemma KeepSingle<T(!new)>(x: T, p: T -> bool)
    ensures Keep([x], p) == if p(x) then [x] else []
  {
    assert [x][1..] == [];
  }

  /** The conjunction of two tests. */
  function Both<T>(p: T -> bool, q: T -> bool): T -> bool
  {
    x => p(x) && q(x)
  }

  /** Two filters in a row are one filter by both tests. */
  lemma {:induction false} KeepKeep<T(!new)>(s: seq<T>, p: T -> bool, q: T -> bool)
    ensures Keep(Keep(s, p), q) == Keep(s, Both(p, q))
  {
    if s != [] {
      KeepKeep(s[1..], p, q);
      assert Both(p, q)(s[0]) == (p(s[0]) && q(s[0]));
      var k := Keep(s, p);
      if p(s[0]) {
        assert k == [s[0]] + Keep(s[1..], p);
        assert k[0] == s[0] && k[1..] == Keep(s[1..], p);
        assert Keep(k, q) == (if q(s[0]) then [s[0]] else []) + Keep(Keep(s[1..], p), q);
      } else {
        assert k == Keep(s[1..], p);
      }
    }
  }

  /** Filters with the same verdict on every element keep the same ones. */
  lemma {:induction false} KeepSame<T(!new)>(s: seq<T>, p: T -> bool, q: T -> bool)
    requires forall x :: p(x) == q(x)
    ensures Keep(s, p) == Keep(s, q)
  {
    if s != [] {
      KeepSame(s[1..], p, q);
    }
  }

  /** Three filters in a row are one filter by the three tests together. */
  lemma KeepThree<T(!new)>(s: seq<T>, p1: T -> bool, p2: T -> bool, p3: T -> bool, p: T -> bool)
    requires forall x :: p(x) == (p1(x) && p2(x) && p3(x))
    ensures Keep(Keep(Keep(s, p1), p2), p3) == Keep(s, p)
  {
    KeepKeep(s, p1, p2);
    KeepKeep(s, Both(p1, p2), p3);
    KeepSame(s, Both(Both(p1, p2), p3), p);
  }

  // ---------------------------------------------------------------------
  // Sorting

  /** No element is strictly before one that precedes it. */
  predicate Sorted<T>(s: seq<T>, lt: (T, T) -> bool)
  {
    forall i, j :: 0 <= i < j < |s| ==> !lt(s[j], s[i])
  }

  /** What a consistent comparator gives: an irreflexive, transitive
      relation whose incomparability is transitive too. */
  ghost predicate StrictWeakOrder<T(!new)>(lt: (T, T) -> bool)
  {
    && (forall a :: !lt(a, a))
    && (forall a, b, c :: lt(a, b) && lt(b, c) ==> lt(a, c))
    && (forall a, b, c :: lt(a, c) ==> lt(a, b) || lt(b, c))
  }

  /** Neither goes before the other: the comparator returns 0. */
  predicate Equivalent<T>(lt: (T, T) -> bool, a: T, b: T)
  {
    !lt(a, b) && !lt(b, a)
  }

  /** Puts `x` in front of the first element it does not strictly follow. */
  function Insert<T(==)>(x: T, s: seq<T>, lt: (T, T) -> bool): (r: seq<T>)
    ensures |r| == |s| + 1
    ensures multiset(r) == multiset(s) + multiset{x}
  {
    if s == [] then [x]
    else if lt(s[0], x) then
      assert s == [s[0]] + s[1..];
      [s[0]] + Insert(x, s[1..], lt)
    else [x] + s
  }

  /** `s.sort(cmp)` where `lt(a, b)` holds iff `cmp(a, b) < 0`: the result is
      a permutation of `s`. */
  function StableSort<T(==)>(s: seq<T>, lt: (T, T) -> bool): (r: seq<T>)
    ensures |r| == |s|
    ensures multiset(r) == multiset(s)
  {
    if s == [] then []
    else
      assert s == [s[0]] + s[1..];
      Insert(s[0], StableSort(s[1..], lt), lt)
  }

  lemma {:induction false} InsertSorted<T(!new)>(x: T, s: seq<T>, lt: (T, T) -> bool)
    requires StrictWeakOrder(lt) && Sorted(s, lt)
    ensures Sorted(Insert(x, s, lt), lt)
  {
    if s != [] {
      var r := Insert(x, s, lt);
      if lt(s[0], x) {
        var tail := Insert(x, s[1..], lt);
        InsertSorted(x, s[1..], lt);
        assert r == [s[0]] + tail;
        forall j | 0 < j < |r| ensures !lt(r[j], s[0]) {
          assert r[j] in multiset(tail);
          if r[j] != x {
            assert r[j] in s[1..];
            var k :| 0 <= k < |s[1..]| && s[1..][k] == r[j];
            assert s[k + 1] == r[j];
          }
        }
      } else {
        assert r == [x] + s;
        forall j | 0 < j < |r| ensures !lt(r[j], x) {
          assert r[j] == s[j - 1];
          assert !lt(s[j - 1], s[0]);
        }
      }
    }
  }

  /** With a consistent comparator the result is in order. */
  lemma {:induction false} SortSorted<T(!new)>(s: seq<T>, lt: (T, T) -> bool)
    requires StrictWeakOrder(lt)
    ensures Sorted(StableSort(s, lt), lt)
  {
    if s != [] {
      SortSorted(s[1..], lt);
      InsertSorted(s[0], StableSort(s[1..], lt), lt);
    }
  }

  /** The elements of `s` that the comparator ties with `k`, in order. */
  function TiedWith<T>(s: seq<T>, lt: (T, T) -> bool, k: T): (r: seq<T>)
    ensures |r| <= |s|
    ensures forall i :: 0 <= i < |r| ==> Equivalent(lt, r[i], k)
  {
    if s == [] then []
    else (if Equivalent(lt, s[0], k) then [s[0]] else []) + TiedWith(s[1..], lt, k)
  }

  /** Under a consistent comparator, none of the elements that tie with `k`
      goes before another. */
  ghost predicate TiesWithKAreTied<T(!new)>(lt: (T, T) -> bool, k: T)
  {
    forall a, b :: Equivalent(lt, a, k) && Equivalent(lt, b, k) ==> !lt(a, b)
  }

  lemma TiedTransitive<T(!new)>(lt: (T, T) -> bool, k: T)
    requires StrictWeakOrder(lt)
    ensures TiesWithKAreTied(lt, k)
  {
  }

  /** Inserting `x`, which no element tied with `k` goes before when `x`
      itself is tied with `k`, puts `x` in front of the tied elements. */
  lemma {:induction false} InsertTiedWith<T>(x: T, s: seq<T>, lt: (T, T) -> bool, k: T)
    requires Equivalent(lt, x, k) ==> forall y :: y in s && Equivalent(lt, y, k) ==> !lt(y, x)
    ensures TiedWith(Insert(x, s, lt), lt, k)
            == (if Equivalent(lt, x, k) then [x] else []) + TiedWith(s, lt, k)
  {
    if s != [] && lt(s[0], x) {
      var t := Insert(x, s[1..], lt);
      assert Insert(x, s, lt) == [s[0]] + t;
      assert s == [s[0]] + s[1..];
      InsertTiedWith(x, s[1..], lt, k);
      TiedFront(s[0], t, lt, k);
      TiedFront(s[0], s[1..], lt, k);
      if Equivalent(lt, x, k) {
        assert s[0] in s;
        assert TiedWith(Insert(x, s, lt), lt, k) == TiedWith(t, lt, k) == [x] + TiedWith(s[1..], lt, k);
        assert TiedWith(s, lt, k) == TiedWith(s[1..], lt, k);
      } else {
        assert TiedWith(t, lt, k) == TiedWith(s[1..], lt, k);
      }
    } else {
      assert Insert(x, s, lt) == [x] + s;
      TiedFront(x, s, lt, k);
    }
  }

  /** How the tied elements of a sequence start. */
  lemma TiedFront<T>(a: T, rest: seq<T>, lt: (T, T) -> bool, k: T)
    ensures TiedWith([a] + rest, lt, k) == (if Equivalent(lt, a, k) then [a] else []) + TiedWith(rest, lt, k)
  {
    assert ([a] + rest)[0] == a && ([a] + rest)[1..] == rest;
  }

  /** Stability: the elements that tie with any `k` come out in the order
      they went in. */
  lemma {:induction false} SortStable<T(!new)>(s: seq<T>, lt: (T, T) -> bool, k: T)
    requires StrictWeakOrder(lt)
    ensures TiedWith(StableSort(s, lt), lt, k) == TiedWith(s, lt, k)
  {
    if s != [] {
      SortStable(s[1..], lt, k);
      if Equivalent(lt, s[0], k) {
        forall y | y in StableSort(s[1..], lt) && Equivalent(lt, y, k) ensures !lt(y, s[0]) {
          TiedTransitive(lt, k);
        }
      }
      InsertTiedWith(s[0], StableSort(s[1..], lt), lt, k);
      assert TiedWith(s, lt, k)
             == (if Equivalent(lt, s[0], k) then [s[0]] else []) + TiedWith(s[1..], lt, k);
    }
  }

  /** Within every group of elements tied under `lt`, no element is strictly
      before an earlier one under `tie`. */
  predicate TiesOrdered<T>(s: seq<T>, lt: (T, T) -> bool, tie: (T, T) -> bool)
  {
    forall i, j :: 0 <= i < j < |s| && Equivalent(lt, s[i], s[j]) ==> !tie(s[j], s[i])
  }

  lemma {:induction false} InsertTiesOrdered<T(!new)>(x: T, s: seq<T>, lt: (T, T) -> bool, tie: (T, T) -> bool)
    requires StrictWeakOrder(lt) && Sorted(s, lt) && TiesOrdered(s, lt, tie)
    requires forall y :: y in s ==> !tie(y, x)
    ensures TiesOrdered(Insert(x, s, lt), lt, tie)
  {
    if s != [] {
      var r := Insert(x, s, lt);
      if lt(s[0], x) {
        var tail := Insert(x, s[1..], lt);
        InsertTiesOrdered(x, s[1..], lt, tie);
        assert r == [s[0]] + tail;
        forall j | 0 < j < |r| && Equivalent(lt, r[0], r[j]) ensures !tie(r[j], r[0]) {
          assert r[j] in multiset(tail);
          assert r[j] != x;
          assert r[j] in s[1..];
          var m :| 0 <= m < |s[1..]| && s[1..][m] == r[j];
          assert s[m + 1] == r[j];
        }
      } else {
        assert r == [x] + s;
        forall j | 0 < j < |r| && Equivalent(lt, r[0], r[j]) ensures !tie(r[j], r[0]) {
          assert r[j] == s[j - 1] && r[j] in s;
        }
      }
    }
  }

  /** Sorting with a second comparator keeps the first order as the
      tie-breaker: if `s` was in `tie` order, every group of elements that
      `lt` ties stays in `tie` order. */
  lemma {:induction false} SortKeepsTieOrder<T(!new)>(s: seq<T>, lt: (T, T) -> bool, tie: (T, T) -> bool)
    requires StrictWeakOrder(lt) && Sorted(s, tie)
    ensures TiesOrdered(StableSort(s, lt), lt, tie)
  {
    if s != [] {
      var rest := StableSort(s[1..], lt);
      SortKeepsTieOrder(s[1..], lt, tie);
      SortSorted(s[1..], lt);
      forall y | y in rest ensures !tie(y, s[0]) {
        assert y in multiset(rest);
        assert y in s[1..];
        var m :| 0 <= m < |s[1..]| && s[1..][m] == y;
        assert s[m + 1] == y;
      }
      InsertTiesOrdered(s[0], rest, lt, tie);
    }
  }

  /** A comparator that puts no element of `s` before another leaves `s`
      as it was. */
  lemma {:induction false} SortWithoutOrder<T>(s: seq<T>, lt: (T, T) -> bool)
    requires forall a, b :: a in s && b in s ==> !lt(a, b)
    ensures StableSort(s, lt) == s
  {
    if s != [] {
      var t := s[1..];
      forall a, b | a in t && b in t ensures !lt(a, b) {
        assert a in s && b in s;
      }
      SortWithoutOrder(t, lt);
      assert s == [s[0]] + t;
      if t != [] {
        assert t[0] in s && s[0] in s;
        assert !lt(t[0], s[0]);
      }
      assert Insert(s[0], t, lt) == [s[0]] + t;
    }
  }

  /** Insertion only consults the comparator on (element of `t`, `x`). */
  lemma {:induction false} InsertAgrees<T>(x: T, t: seq<T>, lt1: (T, T) -> bool, lt2: (T, T) -> bool)
    requires forall y :: y in t ==> lt1(y, x) == lt2(y, x)
    ensures Insert(x, t, lt1) == Insert(x, t, lt2)
  {
    if t != [] {
      assert t[0] in t;
      InsertAgrees(x, t[1..], lt1, lt2);
    }
  }

  /** Two comparators that agree on the elements of `s` sort it alike. */
  lemma {:induction false} SortAgrees<T>(s: seq<T>, lt1: (T, T) -> bool, lt2: (T, T) -> bool)
    requires forall a, b :: a in s && b in s ==> lt1(a, b) == lt2(a, b)
    ensures StableSort(s, lt1) == StableSort(s, lt2)
  {
    if s != [] {
      var rest := StableSort(s[1..], lt1);
      SortAgrees(s[1..], lt1, lt2);
      forall y | y in rest ensures lt1(y, s[0]) == lt2(y, s[0]) {
        assert y in multiset(rest);
        assert y in s[1..];
      }
      InsertAgrees(s[0], rest, lt1, lt2);
    }
  }
}
