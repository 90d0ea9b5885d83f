/** Go's `sort.SliceStable`, as the unique sorted permutation that keeps equal elements in their
    original order. Every other module that sorts uses the facts proved here. */
module StableSort {

  /** What Go asks of a `less` argument: a strict weak ordering. */
  ghost predicate Ordering<T(!new)>(less: (T, T) -> bool) {
    && (forall x, y :: less(x, y) ==> !less(y, x))
    && (forall x, y, z :: Between(less, x, y, z))
  }

  /** Nothing can be put between x < z without being above x or below z. */
  ghost predicate Between<T>(less: (T, T) -> bool, x: T, y: T, z: T) {
    less(x, z) ==> less(x, y) || less(y, z)
  }

  predicate Sorted<T>(s: seq<T>, less: (T, T) -> bool) {
    forall i, j :: 0 <= i < j < |s| ==> !less(s[j], s[i])
  }

  /** Inserts x behind every element it is not less than. */
  function InsertLast<T>(s: seq<T>, x: T, less: (T, T) -> bool): (r: seq<T>)
    ensures |r| == |s| + 1
  {
    if s == [] || !less(x, s[|s| - 1]) then s + [x]
    else InsertLast(s[..|s| - 1], x, less) + [s[|s| - 1]]
  }

  function Sort<T>(s: seq<T>, less: (T, T) -> bool): (r: seq<T>)
    ensures |r| == |s|
  {
    if s == [] then [] else InsertLast(Sort(s[..|s| - 1], less), s[|s| - 1], less)
  }

  /** The elements satisfying p, in order. */
  function Filter<T>(s: seq<T>, p: T -> bool): (r: seq<T>)
  {
    if s == [] then []
    else Filter(s[..|s| - 1], p) + (if p(s[|s| - 1]) then [s[|s| - 1]] else [])
  }

  lemma NotLessThanAny<T(!new)>(s: seq<T>, x: T, less: (T, T) -> bool)
    requires Ordering(less) && Sorted(s, less) && s != [] && !less(x, s[|s| - 1])
    ensures forall z :: z in s ==> !less(x, z)
  {
    var last := s[|s| - 1];
    forall z | z in s ensures !less(x, z) {
      assert Between(less, x, last, z);
    }
  }

  lemma {:induction false} InsertLastMembers<T>(s: seq<T>, x: T, less: (T, T) -> bool)
    ensures multiset(InsertLast(s, x, less)) == multiset(s) + multiset{x}
    ensures forall y :: y in InsertLast(s, x, less) ==> y == x || y in s
  {
    if s != [] && less(x, s[|s| - 1]) {
      InsertLastMembers(s[..|s| - 1], x, less);
      assert s == s[..|s| - 1] + [s[|s| - 1]];
    }
  }

  lemma {:induction false} InsertLastSorted<T(!new)>(s: seq<T>, x: T, less: (T, T) -> bool)
    requires Ordering(less) && Sorted(s, less)
    ensures Sorted(InsertLast(s, x, less), less)
  {
    if s == [] {
    } else if less(x, s[|s| - 1]) {
      var front, z := s[..|s| - 1], s[|s| - 1];
      InsertLastSorted(front, x, less);
      InsertLastMembers(front, x, less);
      forall y | y in front ensures !less(z, y) { }
    } else {
      NotLessThanAny(s, x, less);
    }
  }

  lemma {:induction false} SortSorts<T(!new)>(s: seq<T>, less: (T, T) -> bool)
    requires Ordering(less)
    ensures multiset(Sort(s, less)) == multiset(s)
    ensures Sorted(Sort(s, less), less)
  {
    if s == [] {
    } else {
      var front, x := s[..|s| - 1], s[|s| - 1];
      assert s == front + [x];
      SortSorts(front, less);
      assert multiset(Sort(s, less)) == multiset(s) by {
        InsertLastMembers(Sort(front, less), x, less);
      }
      InsertLastSorted(Sort(front, less), x, less);
    }
  }

  /** Sorting changes nothing exactly when the input is sorted already. */
  lemma {:induction false} SortIdentity<T(!new)>(s: seq<T>, less: (T, T) -> bool)
    requires Ordering(less)
    ensures Sort(s, less) == s <==> Sorted(s, less)
  {
    SortSorts(s, less);
    if Sorted(s, less) {
      SortedIsFixed(s, less);
    }
  }

  lemma {:induction false} SortedIsFixed<T(!new)>(s: seq<T>, less: (T, T) -> bool)
    requires Sorted(s, less)
    ensures Sort(s, less) == s
  {
    if s == [] {
    } else {
      SortedIsFixed(s[..|s| - 1], less);
      if |s| > 1 {
        assert !less(s[|s| - 1], s[|s| - 2]);
      }
    }
  }

  /** Inserting only moves x past elements it is less than, so it commutes with any filter. */
  lemma {:induction false} FilterInsertLast<T(!new)>(s: seq<T>, x: T, p: T -> bool, less: (T, T) -> bool)
    requires Ordering(less) && Sorted(s, less)
    ensures Filter(InsertLast(s, x, less), p) ==
            (if p(x) then InsertLast(Filter(s, p), x, less) else Filter(s, p))
  {
    if s == [] {
      FilterSnoc(s, x, p);
    } else if !less(x, s[|s| - 1]) {
      FilterSnoc(s, x, p);
      NotLessThanAny(s, x, less);
      var f := Filter(s, p);
      FilterMembers(s, p);
      assert InsertLast(s, x, less) == s + [x];
      assert InsertLast(f, x, less) == f + [x];
    } else {
      var front, z := s[..|s| - 1], s[|s| - 1];
      FilterInsertLast(front, x, p, less);
      FilterSnoc(InsertLast(front, x, less), z, p);
      var f := Filter(front, p);
      InsertLastSnoc(f, z, x, less);
      assert InsertLast(s, x, less) == InsertLast(front, x, less) + [z];
      assert Filter(s, p) == if p(z) then f + [z] else f;
    }
  }

  lemma InsertLastSnoc<T>(s: seq<T>, z: T, x: T, less: (T, T) -> bool)
    requires less(x, z)
    ensures InsertLast(s + [z], x, less) == InsertLast(s, x, less) + [z]
  {
    assert (s + [z])[..|s|] == s;
  }

  /** A filter keeps exactly the members that satisfy p. */
  lemma {:induction false} FilterMembers<T>(s: seq<T>, p: T -> bool)
    ensures forall i :: 0 <= i < |Filter(s, p)| ==> Filter(s, p)[i] in s && p(Filter(s, p)[i])
    ensures forall i :: 0 <= i < |s| && p(s[i]) ==> s[i] in Filter(s, p)
  {
    if s == [] {
    } else {
      FilterMembers(s[..|s| - 1], p);
    }
  }

  lemma {:induction false} FilterNone<T>(s: seq<T>, p: T -> bool)
    requires forall i :: 0 <= i < |s| ==> !p(s[i])
    ensures Filter(s, p) == []
  {
    if s == [] {
    } else {
      FilterNone(s[..|s| - 1], p);
    }
  }

  lemma {:induction false} FilterTwice<T>(s: seq<T>, p: T -> bool)
    ensures Filter(Filter(s, p), p) == Filter(s, p)
  {
    if s == [] {
    } else {
      var front, x := s[..|s| - 1], s[|s| - 1];
      FilterTwice(front, p);
      FilterSnoc(Filter(front, p), x, p);
      assert Filter(s, p) == if p(x) then Filter(front, p) + [x] else Filter(front, p);
    }
  }

  lemma FilterSnoc<T>(s: seq<T>, x: T, p: T -> bool)
    ensures Filter(s + [x], p) == Filter(s, p) + (if p(x) then [x] else [])
  {
    assert (s + [x])[..|s|] == s;
  }

  /** Stability: sorting and filtering commute, for every filter. Filtering by one key class, the
      members of that class keep their order; filtering by owner, a group is sorted as if alone. */
  lemma {:induction false} SortStable<T(!new)>(s: seq<T>, p: T -> bool, less: (T, T) -> bool)
    requires Ordering(less)
    ensures Filter(Sort(s, less), p) == Sort(Filter(s, p), less)
  {
    if s == [] {
    } else {
      var front, x := s[..|s| - 1], s[|s| - 1];
      SortStable(front, p, less);
      SortSorts(front, less);
      FilterInsertLast(Sort(front, less), x, p, less);
      if p(x) {
        var f := Filter(front, p) + [x];
        assert f[..|f| - 1] == Filter(front, p);
      } else {
        assert Filter(s, p) == Filter(front, p);
      }
    }
  }

  lemma {:induction false} FilterAppend<T>(a: seq<T>, b: seq<T>, p: T -> bool)
    ensures Filter(a + b, p) == Filter(a, p) + Filter(b, p)
  {
    if b == [] {
      assert a + b == a;
    } else {
      var front, x := b[..|b| - 1], b[|b| - 1];
      FilterAppend(a, front, p);
      FilterSnoc(a + front, x, p);
      assert a + b == (a + front) + [x];
    }
  }

  /** When nothing in b is less than anything in a, sorting a + b sorts the two parts separately. */
  lemma {:induction false} SortAppend<T(!new)>(a: seq<T>, b: seq<T>, less: (T, T) -> bool)
    requires Ordering(less)
    requires forall x, y :: x in a && y in b ==> !less(y, x)
    ensures Sort(a + b, less) == Sort(a, less) + Sort(b, less)
  {
    if b == [] {
      assert a + b == a;
      assert Sort(a, less) + [] == Sort(a, less);
    } else {
      var front, x := b[..|b| - 1], b[|b| - 1];
      assert (a + b)[..|a + b| - 1] == a + front;
      forall y | y in front ensures y in b { assert y in b; }
      SortAppend(a, front, less);
      forall y | y in Sort(a, less) ensures !less(x, y) { SortSorts(a, less); assert y in multiset(a); assert x in b; }
      InsertBehind(Sort(a, less), Sort(front, less), x, less);
    }
  }

  lemma {:induction false} InsertBehind<T(!new)>(a: seq<T>, b: seq<T>, x: T, less: (T, T) -> bool)
    requires forall y :: y in a ==> !less(x, y)
    ensures InsertLast(a + b, x, less) == a + InsertLast(b, x, less)
  {
    var s := a + b;
    if b == [] {
      assert s == a;
      assert a == [] || a[|a| - 1] in a;
    } else if less(x, b[|b| - 1]) {
      assert s[..|s| - 1] == a + b[..|b| - 1];
      InsertBehind(a, b[..|b| - 1], x, less);
      assert a + InsertLast(b, x, less) == (a + InsertLast(b[..|b| - 1], x, less)) + [b[|b| - 1]];
    } else {
      assert a + b + [x] == a + (b + [x]);
    }
  }

  /** A sorted permutation is unique once ties are equal elements, whatever algorithm produced it. */
  lemma {:induction false} SortedUnique<T(!new)>(a: seq<T>, b: seq<T>, less: (T, T) -> bool)
    requires Ordering(less)
    requires multiset(a) == multiset(b) && Sorted(a, less) && Sorted(b, less)
    requires forall x, y :: x in a && y in a && !less(x, y) && !less(y, x) ==> x == y
    ensures a == b
  {
    assert |a| == |multiset(a)| == |multiset(b)| == |b|;
    if a == [] {
    } else {
      SameLast(a, b, less);
      var x, front, front' := a[|a| - 1], a[..|a| - 1], b[..|b| - 1];
      assert a == front + [x] && b == front' + [x];
      assert multiset(front) == multiset(front') by {
        DropLast(a, x);
        DropLast(b, x);
      }
      assert forall y :: y in front ==> y in a;
      SortedUnique(front, front', less);
    }
  }

  lemma SameLast<T(!new)>(a: seq<T>, b: seq<T>, less: (T, T) -> bool)
    requires Ordering(less)
    requires multiset(a) == multiset(b) && Sorted(a, less) && Sorted(b, less) && a != [] && b != []
    requires forall x, y :: x in a && y in a && !less(x, y) && !less(y, x) ==> x == y
    ensures a[|a| - 1] == b[|b| - 1]
  {
    var x, y := a[|a| - 1], b[|b| - 1];
    assert x in multiset(b) && y in multiset(a);
    var i :| 0 <= i < |a| && a[i] == y;
    var j :| 0 <= j < |b| && b[j] == x;
    assert !less(x, y) && !less(y, x);
  }

  lemma DropLast<T>(s: seq<T>, x: T)
    requires s != [] && s[|s| - 1] == x
    ensures multiset(s[..|s| - 1]) == multiset(s) - multiset{x}
  {
    assert s == s[..|s| - 1] + [x];
  }
}
