/**
 * Entries of length zero in the sweep.  Sorting may put such an entry's end before its start, and the
 * number of running names then drops below zero unless another entry of the name makes up for it.
 */
module ZeroLength {
  import opened Reals
  import opened UsageModel
  import opened Sweep
  import opened SweepLaws
  import opened StdSort

  /** Entries as they may be recorded, also with a return at the very clock value of the grant. */
  ghost predicate Recordable(h: seq<Entry>) {
    forall e :: e in h ==> 0.0 < e.start <= e.end
  }

  /** Entries of length zero at `x`. */
  ghost function Instants(h: seq<Entry>, who: Who, x: real): nat {
    if h == [] then 0
    else (if Of(h[0].name, who) && h[0].start == x == h[0].end then 1 else 0) + Instants(h[1..], who, x)
  }

  /** Entries that run before and after `x`. */
  ghost function Straddling(h: seq<Entry>, who: Who, x: real): nat {
    if h == [] then 0
    else (if Of(h[0].name, who) && h[0].start < x < h[0].end then 1 else 0) + Straddling(h[1..], who, x)
  }

  /** The entries of length zero at `x` are made up for, by phantoms twice. */
  ghost predicate Outweighed(h: seq<Entry>, who: Who, w: real, x: real) {
    Instants(h, who, x) <= Straddling(h, who, x) + 2 * Phantoms(h, who, w)
  }

  ghost predicate Balanced(ts: seq<Stamp>, who: Who, w: real) {
    forall i :: 0 <= i <= |ts| ==> Sum(ts[..i], Delta(who, w)) >= 0
  }

  lemma {:induction false} FloorAt(h: seq<Entry>, who: Who, w: real, x: real)
    requires Recordable(h)
    ensures x <= w ==> Sum(Stamps(h), Floor(who, w, x)) >= 0
    ensures w < x ==> Sum(Stamps(h), Floor(who, w, x))
                      == Straddling(h, who, x) + 2 * Phantoms(h, who, w) - Instants(h, who, x)
  {
    if h != [] {
      var e := h[0];
      assert e in h;
      FloorAt(h[1..], who, w, x);
      DeltaValues(e, who, w);
      SumPair(Stamp(e.name, -e.start), Stamp(e.name, e.end), Stamps(h[1..]), Floor(who, w, x));
    }
  }

  // ----- the worst arrangement

  /** Order by time with ends first. */
  ghost predicate EndsFirst(s: Stamp, t: Stamp) {
    Abs(s.time) < Abs(t.time) || (Abs(s.time) == Abs(t.time) && t.time < 0.0 < s.time)
  }

  /** Stamps before `x`, and ends at `x`. */
  ghost predicate Early(s: Stamp, x: real) {
    Abs(s.time) < x || (Abs(s.time) == x && 0.0 < s.time)
  }

  lemma {:induction false} StampsNonzero(h: seq<Entry>)
    requires Recordable(h)
    ensures forall s :: s in Stamps(h) ==> s.time != 0.0
  {
    if h != [] {
      assert h[0] in h;
      StampsNonzero(h[1..]);
    }
  }

  /** Some arrangement has a prefix of exactly the early stamps. */
  lemma {:induction false} EarlyPrefix(h: seq<Entry>, x: real) returns (ts: seq<Stamp>, i: nat)
    requires Recordable(h)
    ensures Arranged(ts, h) && i <= |ts|
    ensures forall j :: 0 <= j < i ==> Early(ts[j], x)
    ensures forall j :: i <= j < |ts| ==> !Early(ts[j], x)
  {
    StampsNonzero(h);
    ghost var less := (s: Stamp, t: Stamp) => EndsFirst(s, t);
    ts := SortExists(Stamps(h), less);
    assert Sorted(ts, less);
    SameElements(ts, Stamps(h));
    assert forall a, b :: 0 <= a < b < |ts| ==> !EndsFirst(ts[b], ts[a]);
    i := 0;
    while i < |ts| && Early(ts[i], x)
      invariant i <= |ts|
      invariant forall j :: 0 <= j < i ==> Early(ts[j], x)
    {
      i := i + 1;
    }
    forall j | i <= j < |ts|
      ensures !Early(ts[j], x)
    {
      assert ts[i] in ts && (i < j ==> !EndsFirst(ts[j], ts[i]));
    }
  }

  /** The floor is reached. */
  lemma {:induction false} FloorReached(h: seq<Entry>, who: Who, w: real, x: real) returns (ts: seq<Stamp>, i: nat)
    requires Recordable(h) && w < x
    ensures Arranged(ts, h) && i <= |ts|
    ensures Sum(ts[..i], Delta(who, w)) == Sum(Stamps(h), Floor(who, w, x))
  {
    ts, i := EarlyPrefix(h, x);
    var f, g := Delta(who, w), Floor(who, w, x);
    StampsNonzero(h);
    SameElements(ts, Stamps(h));
    assert ts == ts[..i] + ts[i..];
    forall s | s in ts[..i]
      ensures f(s) == g(s)
    {
      assert s in ts && Early(s, x);
    }
    forall s | s in ts[i..]
      ensures g(s) == 0
    {
      assert s in ts && !Early(s, x);
    }
    SumConcat(ts[..i], ts[i..], g);
    SumMono(ts[..i], f, g);
    SumMono(ts[..i], g, f);
    SumZero(ts[i..], g);
    SumPermuted(ts, Stamps(h), g);
  }

  /**
   * The exact condition: however sorting orders ties, neither the counter nor any client's number of
   * running names drops below zero, if and only if at every moment after the window start the entries
   * of length zero do not outnumber the entries running through it, phantoms counted twice.
   */
  lemma {:induction false} BalancedExactly(h: seq<Entry>, w: real)
    requires Recordable(h)
    ensures (forall ts, who :: Arranged(ts, h) ==> Balanced(ts, who, w))
            <==> (forall who, x :: w < x ==> Outweighed(h, who, w, x))
  {
    if forall ts, who :: Arranged(ts, h) ==> Balanced(ts, who, w) {
      forall who, x | w < x
        ensures Outweighed(h, who, w, x)
      {
        var ts, i := FloorReached(h, who, w, x);
        assert Balanced(ts, who, w);
        FloorAt(h, who, w, x);
      }
    }
    if forall who, x :: w < x ==> Outweighed(h, who, w, x) {
      forall ts, who | Arranged(ts, h)
        ensures Balanced(ts, who, w)
      {
        OutweighedBalanced(h, ts, who, w);
      }
    }
  }

  lemma {:induction false} OutweighedBalanced(h: seq<Entry>, ts: seq<Stamp>, who: Who, w: real)
    requires Recordable(h) && Arranged(ts, h) && forall x :: w < x ==> Outweighed(h, who, w, x)
    ensures Balanced(ts, who, w)
  {
    forall i | 0 <= i <= |ts|
      ensures Sum(ts[..i], Delta(who, w)) >= 0
    {
      if i > 0 {
        var x := Abs(ts[i - 1].time);
        PrefixAboveFloor(h, ts, i - 1, who, w);
        FloorAt(h, who, w, x);
        assert w < x ==> Outweighed(h, who, w, x);
      }
    }
  }

  /** It is enough that no entry after the window start has length zero. */
  lemma {:induction false} LengthsSuffice(h: seq<Entry>, who: Who, w: real, x: real)
    requires w < x && forall e :: e in h && w < e.end ==> e.start < e.end
    ensures Outweighed(h, who, w, x)
  {
    NoInstants(h, who, x);
  }

  lemma {:induction false} NoInstants(h: seq<Entry>, who: Who, x: real)
    requires forall e :: e in h && e.end == x ==> e.start < x
    ensures Instants(h, who, x) == 0
  {
    if h != [] {
      assert h[0] in h;
      NoInstants(h[1..], who, x);
    }
  }

  /** It is not necessary: a longer entry of the same client hides one of length zero. */
  lemma {:induction false} HiddenInstant(who: Who, x: real)
    requires 0.0 < x
    ensures Outweighed([Entry("a", 3.0, 9.0), Entry("a", 5.0, 5.0)], who, 0.0, x)
  {
    var long, short := Entry("a", 3.0, 9.0), Entry("a", 5.0, 5.0);
    assert [long, short][1..] == [short] && [short][1..] == [];
    assert Instants([short], who, x) == if Of("a", who) && x == 5.0 then 1 else 0;
    assert Straddling([short], who, x) == 0;
    assert Straddling([long, short], who, x) == if Of("a", who) && 3.0 < x < 9.0 then 1 else 0;
  }

  /**
   * A concrete failure: a single entry of length zero, whose end sorting puts before its
   * start, and the counter then drops below the number of names in the vector.
   */
  lemma {:induction false} ZeroLengthUnbalanced()
    ensures var h := [Entry("a", 5.0, 5.0)];
            var ts := [Stamp("a", 5.0), Stamp("a", -5.0)];
            Arranged(ts, h) && Sum(ts[..1], Delta(Anyone, 0.0)) == -1
  {
    var h := [Entry("a", 5.0, 5.0)];
    var ts := [Stamp("a", 5.0), Stamp("a", -5.0)];
    assert h[1..] == [] && Stamps([]) == [];
    assert Stamps(h) == [Stamp("a", -5.0), Stamp("a", 5.0)];
    assert ts[..1] == [ts[0]] && [ts[0]][1..] == [];
    assert Delta(Anyone, 0.0)(ts[0]) == -1;
  }
}
