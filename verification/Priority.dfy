/** The comparator that orders eligible candidates. */
module Priority {
  import opened Reals
  import opened StdSort

  /** An eligible candidate with its score; `index` is its place in the candidate list. */
  datatype Score = Score(missing: real, remaining: real, usage: real, arrived: real, index: nat)

  type Scored = s: Score | 0.0 <= s.usage witness Score(0.0, 0.0, 0.0, 0.0, 0)

  /** `schd_priority`: is `a` served before `b`? */
  predicate Before(a: Scored, b: Scored) {
    if a.missing > 0.0 && b.missing > 0.0 then
      a.missing / (a.missing + a.usage) > b.missing / (b.missing + b.usage)
    else if a.missing > 0.0 && b.missing < 0.0 then true
    else if a.missing < 0.0 && b.missing > 0.0 then false
    else a.usage < b.usage
  }

  ghost predicate Plausible(x: Scored) {
    0.0 <= x.missing + x.usage
  }

  /** A client exactly at a positive requirement confuses the comparator; all others are ordered. */
  ghost predicate Rankable(x: Scored) {
    Plausible(x) && (x.missing == 0.0 ==> x.usage == 0.0)
  }

  // ----- the order behind the comparator

  ghost predicate Under(x: Scored) {
    x.missing >= 0.0
  }

  /** Clients under their minimum come first, the relatively most starved of them in front. */
  ghost function Key(x: Scored): real
    requires Rankable(x)
  {
    if x.missing > 0.0 then -(x.missing / (x.missing + x.usage))
    else if x.missing == 0.0 then -1.0
    else x.usage
  }

  lemma {:induction false} RatioAtMostOne(m: real, u: real)
    requires m > 0.0 && u >= 0.0
    ensures m / (m + u) <= 1.0
    ensures m / (m + u) == 1.0 <==> u == 0.0
  {
    var r := m / (m + u);
    assert r * (m + u) == m;
    if u > 0.0 && r >= 1.0 {
      MulMono(m + u, 1.0, r);
      assert false;
    }
    if u == 0.0 {
      assert m / m == 1.0;
    }
  }

  lemma {:induction false} BeforeIsKeyOrder(x: Scored, y: Scored)
    requires Rankable(x) && Rankable(y)
    ensures Before(x, y) <==> (Under(x) && !Under(y)) || (Under(x) == Under(y) && Key(x) < Key(y))
  {
    if x.missing > 0.0 {
      RatioAtMostOne(x.missing, x.usage);
    }
    if y.missing > 0.0 {
      RatioAtMostOne(y.missing, y.usage);
    }
  }

  /** On rankable candidates the comparator is a strict weak order. */
  lemma {:induction false} RankableOrdered(v: seq<Scored>)
    requires forall x :: x in v ==> Rankable(x)
    ensures StrictWeakOrder(v, Before)
  {
    forall x, y | x in v && y in v
      ensures Before(x, y) <==> (Under(x) && !Under(y)) || (Under(x) == Under(y) && Key(x) < Key(y))
    {
      BeforeIsKeyOrder(x, y);
    }
  }

  /**
   * The condition is exact: a plausible candidate may be sorted together with rankable candidates
   * below their limits without breaking the order if and only if it is rankable itself.
   */
  lemma {:induction false} RankableExactly(x: Scored)
    requires Plausible(x)
    ensures Rankable(x) <==>
            forall y: Scored, z: Scored ::
              Rankable(y) && Rankable(z) && y.remaining > 0.0 && z.remaining > 0.0 ==>
              StrictWeakOrder([x, y, z], Before)
  {
    if Rankable(x) {
      forall y: Scored, z: Scored | Rankable(y) && Rankable(z) && y.remaining > 0.0 && z.remaining > 0.0
        ensures StrictWeakOrder([x, y, z], Before)
      {
        RankableOrdered([x, y, z]);
      }
    } else {
      var y := Score(1.0, 1.0, x.usage + 1.0, 0.0, 0);
      var z := Score(-x.usage / 4.0, 1.0, x.usage / 2.0, 0.0, 0);
      CycleBreaksOrder(x, y, z);
    }
  }

  lemma {:induction false} CycleBreaksOrder(x: Scored, y: Scored, z: Scored)
    requires Before(x, y) && Before(y, z) && Before(z, x)
    ensures !StrictWeakOrder([x, y, z], Before)
  {
    var v := [x, y, z];
    assert v[0] in v && v[1] in v && v[2] in v;
  }

  // ----- exactly which lists are ordered

  /** Which part of its minimum a client is missing. */
  ghost function Starved(x: Scored): real
    requires x.missing > 0.0
  {
    x.missing / (x.missing + x.usage)
  }

  /**
   * A client at its minimum is compared with everybody by usage.  That agrees with the rank of a
   * starved client before another one if their usages are on the right sides of its own, and with a
   * tie of two starved clients if theirs are on the same side.
   */
  ghost predicate Agrees(mid: Scored, x: Scored, y: Scored)
    requires mid.missing == 0.0 && x.missing > 0.0 && y.missing != 0.0
  {
    if y.missing < 0.0 || Starved(x) > Starved(y) then x.usage < mid.usage || mid.usage < y.usage
    else if Starved(x) == Starved(y) then
      (x.usage < mid.usage <==> y.usage < mid.usage) && (mid.usage < x.usage <==> mid.usage < y.usage)
    else true
  }

  ghost predicate Consistent(v: seq<Scored>) {
    forall mid: Scored, x: Scored, y: Scored ::
      (mid in v && x in v && y in v && mid.missing == 0.0 && x.missing > 0.0 && y.missing != 0.0) ==>
        Agrees(mid, x, y)
  }

  /** The comparator with the division named. */
  lemma {:induction false} BeforeByUsage(x: Scored, y: Scored)
    ensures Before(x, y) <==>
            if x.missing > 0.0 && y.missing > 0.0 then Starved(x) > Starved(y)
            else if x.missing > 0.0 && y.missing < 0.0 then true
            else if x.missing < 0.0 && y.missing > 0.0 then false
            else x.usage < y.usage
  {
  }

  /**
   * Any list of candidates is ordered by the comparator if and only if the usages of the clients at
   * their minimum agree with the order of the others.
   */
  lemma {:induction false} OrderedExactly(v: seq<Scored>)
    ensures StrictWeakOrder(v, Before) <==> Consistent(v)
  {
    hide Starved;
    if Consistent(v) {
      forall x: Scored, y: Scored, z: Scored | x in v && y in v && z in v
        ensures !Before(x, x)
        ensures Before(x, y) && Before(y, z) ==> Before(x, z)
        ensures Tied(x, y, Before) && Tied(y, z, Before) ==> Tied(x, z, Before)
      {
        ConsistentTriple(v, x, y, z);
      }
    }
    if StrictWeakOrder(v, Before) {
      forall mid: Scored, x: Scored, y: Scored
        | mid in v && x in v && y in v && mid.missing == 0.0 && x.missing > 0.0 && y.missing != 0.0
        ensures Agrees(mid, x, y)
      {
        OrderAgrees(v, mid, x, y);
      }
    }
  }

  lemma {:induction false} ConsistentTriple(v: seq<Scored>, x: Scored, y: Scored, z: Scored)
    requires Consistent(v) && x in v && y in v && z in v
    ensures !Before(x, x)
    ensures Before(x, y) && Before(y, z) ==> Before(x, z)
    ensures Tied(x, y, Before) && Tied(y, z, Before) ==> Tied(x, z, Before)
  {
    BeforeByUsage(x, x);
    BeforeByUsage(x, y);
    BeforeByUsage(y, x);
    BeforeByUsage(y, z);
    BeforeByUsage(z, y);
    BeforeByUsage(x, z);
    BeforeByUsage(z, x);
    hide Before, Starved;
  }

  lemma {:induction false} OrderAgrees(v: seq<Scored>, mid: Scored, x: Scored, y: Scored)
    requires StrictWeakOrder(v, Before) && mid in v && x in v && y in v
    requires mid.missing == 0.0 && x.missing > 0.0 && y.missing != 0.0
    ensures Agrees(mid, x, y)
  {
    BeforeByUsage(x, y);
    BeforeByUsage(y, x);
    BeforeByUsage(x, mid);
    BeforeByUsage(mid, x);
    BeforeByUsage(y, mid);
    BeforeByUsage(mid, y);
    hide Before, Starved;
  }

  /** The first of a sorted list has nobody ahead of it. */
  lemma {:induction false} FirstIsBest(r: seq<Scored>, v: seq<Scored>)
    requires SortResult(r, v, Before) && StrictWeakOrder(v, Before) && r != []
    ensures r[0] in v && forall x :: x in v ==> !Before(x, r[0])
  {
    SameElements(r, v);
    assert r[0] in r;
    forall x | x in v
      ensures !Before(x, r[0])
    {
      var j :| 0 <= j < |r| && r[j] == x;
    }
  }
}
