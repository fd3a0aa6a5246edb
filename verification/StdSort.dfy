/**
 * The standard sort as its callers may rely on it: some permutation of the input which, if the
 * comparator is a strict weak order on the elements, has no inversion.  The order of tied elements
 * is left open.
 */
module StdSort {
  ghost predicate StrictWeakOrder<T>(v: seq<T>, less: (T, T) -> bool) {
    && (forall x :: x in v ==> !less(x, x))
    && (forall x, y, z :: x in v && y in v && z in v && less(x, y) && less(y, z) ==> less(x, z))
    && (forall x, y, z :: x in v && y in v && z in v && Tied(x, y, less) && Tied(y, z, less) ==> Tied(x, z, less))
  }

  ghost predicate Tied<T>(x: T, y: T, less: (T, T) -> bool) {
    !less(x, y) && !less(y, x)
  }

  ghost predicate Sorted<T>(r: seq<T>, less: (T, T) -> bool) {
    forall i, j :: 0 <= i < j < |r| ==> !less(r[j], r[i])
  }

  /** Any result the sort may deliver; nothing is promised when the order is broken. */
  ghost predicate SortResult<T>(r: seq<T>, v: seq<T>, less: (T, T) -> bool) {
    multiset(r) == multiset(v) && (StrictWeakOrder(v, less) ==> Sorted(r, less))
  }

  lemma {:induction false} SameElements<T>(r: seq<T>, v: seq<T>)
    requires multiset(r) == multiset(v)
    ensures forall x :: x in r <==> x in v
    ensures |r| == |v|
  {
    assert forall x :: x in r <==> x in multiset(r);
    assert forall x :: x in v <==> x in multiset(v);
    assert |multiset(r)| == |r| && |multiset(v)| == |v|;
  }

  lemma {:induction false} OrderOfFewer<T>(u: seq<T>, v: seq<T>, less: (T, T) -> bool)
    requires StrictWeakOrder(v, less) && forall x :: x in u ==> x in v
    ensures StrictWeakOrder(u, less)
  {
  }

  lemma {:induction false} InsertedSorted<T>(r: seq<T>, i: nat, x: T, v: seq<T>, less: (T, T) -> bool)
    requires StrictWeakOrder(v, less) && Sorted(r, less) && i <= |r| && x in v
    requires forall y :: y in r ==> y in v
    requires forall j :: 0 <= j < i ==> !less(x, r[j])
    requires i < |r| ==> less(x, r[i])
    ensures Sorted(r[..i] + [x] + r[i..], less)
  {
    forall j | i <= j < |r|
      ensures !less(r[j], x)
    {
      assert r[j] in r && r[i] in r && (i < j ==> !less(r[j], r[i]));
    }
  }

  /** The sort has a result for every input. */
  lemma {:induction false} SortExists<T>(v: seq<T>, less: (T, T) -> bool) returns (r: seq<T>)
    ensures SortResult(r, v, less)
  {
    if v == [] {
      r := [];
    } else {
      var u, x := v[..|v| - 1], v[|v| - 1];
      assert v == u + [x];
      var q := SortExists(u, less);
      SameElements(q, u);
      var i := 0;
      while i < |q| && !less(x, q[i])
        invariant 0 <= i <= |q|
        invariant forall j :: 0 <= j < i ==> !less(x, q[j])
      {
        i := i + 1;
      }
      r := q[..i] + [x] + q[i..];
      assert q == q[..i] + q[i..];
      if StrictWeakOrder(v, less) {
        OrderOfFewer(u, v, less);
        InsertedSorted(q, i, x, v, less);
      }
    }
  }

  /** An element that nobody precedes may end up in front, and any element if there is no order. */
  lemma {:induction false} CanComeFirst<T>(v: seq<T>, f: T, less: (T, T) -> bool) returns (r: seq<T>)
    requires f in v && (StrictWeakOrder(v, less) ==> forall x :: x in v ==> !less(x, f))
    ensures SortResult(r, v, less) && r != [] && r[0] == f
  {
    var i :| 0 <= i < |v| && v[i] == f;
    var rest := v[..i] + v[i + 1..];
    assert v == v[..i] + [v[i]] + v[i + 1..];
    var q := SortExists(rest, less);
    SameElements(q, rest);
    r := [f] + q;
    if StrictWeakOrder(v, less) {
      OrderOfFewer(rest, v, less);
    }
  }

  method InsertInOrder<T>(r: seq<T>, x: T, less: (T, T) -> bool) returns (r': seq<T>)
    ensures multiset(r') == multiset(r) + multiset{x}
    ensures StrictWeakOrder(r + [x], less) && Sorted(r, less) ==> Sorted(r', less)
  {
    var i := 0;
    while i < |r| && !less(x, r[i])
      invariant 0 <= i <= |r|
      invariant forall j :: 0 <= j < i ==> !less(x, r[j])
    {
      i := i + 1;
    }
    r' := r[..i] + [x] + r[i..];
    assert r == r[..i] + r[i..];
    if StrictWeakOrder(r + [x], less) && Sorted(r, less) {
      assert x in r + [x] && forall y :: y in r ==> y in r + [x];
      InsertedSorted(r, i, x, r + [x], less);
    }
  }

  method Sort<T>(v: seq<T>, less: (T, T) -> bool) returns (r: seq<T>)
    ensures SortResult(r, v, less)
  {
    r := [];
    for i := 0 to |v|
      invariant multiset(r) == multiset(v[..i])
      invariant StrictWeakOrder(v, less) ==> Sorted(r, less)
    {
      assert v[..i + 1] == v[..i] + [v[i]];
      SameElements(r, v[..i]);
      if StrictWeakOrder(v, less) {
        OrderOfFewer(r + [v[i]], v, less);
      }
      r := InsertInOrder(r, v[i], less);
    }
    assert v[..|v|] == v;
  }
}
