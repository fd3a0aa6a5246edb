/**
 * Integrals of step functions.  A partition is an ascending sequence of points; a function is a
 * step function for a partition when it is constant on every slice [p[i], p[i+1]).  The integral
 * does not depend on the partition chosen, and is monotone in the function.
 */
module StepIntegral {
  import opened Reals

  ghost predicate Ascending(p: seq<real>) {
    |p| < 2 || (p[0] <= p[1] && Ascending(p[1..]))
  }

  function Area(width: real, height: real): real {
    width * height
  }

  lemma {:induction false} AreaMono(c: real, x: real, d: real, y: real)
    requires 0.0 <= c == d
    requires x <= y || c == 0.0
    ensures Area(c, x) <= Area(d, y)
  {
    MulMono(c, x, y);
  }

  ghost predicate Steps(f: real -> real, p: seq<real>) {
    |p| < 2 || ((forall t :: p[0] <= t < p[1] ==> f(t) == f(p[0])) && Steps(f, p[1..]))
  }

  /** The sum of slice length times function value over the slices of `p`. */
  ghost function Integral(f: real -> real, p: seq<real>): real {
    if |p| < 2 then 0.0 else Area(p[1] - p[0], f(p[0])) + Integral(f, p[1..])
  }

  ghost function Last(p: seq<real>): real
    requires p != []
  {
    p[|p| - 1]
  }

  lemma {:induction false} AscendingBounds(p: seq<real>, i: nat)
    requires Ascending(p) && i < |p|
    ensures p[0] <= p[i] <= Last(p)
  {
    if |p| >= 2 {
      if i == 0 {
        AscendingBounds(p[1..], 0);
      } else {
        AscendingBounds(p[1..], i - 1);
      }
    }
  }

  /** Cuts the first slice of `p` at `x` and drops the part before the cut. */
  lemma {:induction false} CutFirstSlice(f: real -> real, p: seq<real>, x: real) returns (p': seq<real>)
    requires |p| >= 2 && Ascending(p) && Steps(f, p) && p[0] <= x <= p[1]
    ensures p' != [] && Ascending(p') && Steps(f, p')
    ensures p'[0] == x && Last(p') == Last(p) && |p'| == (if x == p[1] then |p| - 1 else |p|)
    ensures Integral(f, p) == Area(x - p[0], f(p[0])) + Integral(f, p')
  {
    if x == p[1] {
      p' := p[1..];
    } else {
      p' := [x] + p[1..];
      assert p'[1..] == p[1..];
      assert f(x) == f(p[0]);
      assert (p[1] - p[0]) * f(p[0]) == (x - p[0]) * f(p[0]) + (p[1] - x) * f(p[0]);
    }
  }

  /**
   * The integral is monotone, whatever partitions the two sides use.  With f and g swapped this
   * also gives independence of the partition.
   */
  lemma {:induction false} IntegralMono(f: real -> real, p: seq<real>, g: real -> real, q: seq<real>)
    requires p != [] && q != [] && p[0] == q[0] && Last(p) == Last(q)
    requires Ascending(p) && Ascending(q) && Steps(f, p) && Steps(g, q)
    requires forall t :: p[0] <= t < Last(p) ==> f(t) <= g(t)
    ensures Integral(f, p) <= Integral(g, q)
    decreases |p| + |q|
  {
    if |p| == 1 && |q| == 1 {
    } else if |p| == 1 {
      AscendingBounds(q, 1);
      IntegralMono(f, p, g, q[1..]);
    } else if |q| == 1 {
      AscendingBounds(p, 1);
      IntegralMono(f, p[1..], g, q);
    } else {
      AscendingBounds(p, 1);
      AscendingBounds(q, 1);
      var x := Min(p[1], q[1]);
      AreaMono(x - p[0], f(p[0]), x - q[0], g(q[0]));
      var p' := CutFirstSlice(f, p, x);
      var q' := CutFirstSlice(g, q, x);
      IntegralMono(f, p', g, q');
    }
  }

  /** Functions that agree on the range have the same integral, whatever the partitions. */
  lemma {:induction false} IntegralEqual(f: real -> real, p: seq<real>, g: real -> real, q: seq<real>)
    requires p != [] && q != [] && p[0] == q[0] && Last(p) == Last(q)
    requires Ascending(p) && Ascending(q) && Steps(f, p) && Steps(g, q)
    requires forall t :: p[0] <= t < Last(p) ==> f(t) == g(t)
    ensures Integral(f, p) == Integral(g, q)
  {
    IntegralMono(f, p, g, q);
    IntegralMono(g, q, f, p);
  }

  lemma {:induction false} IntegralAdd(f: real -> real, g: real -> real, h: real -> real, p: seq<real>)
    requires forall t :: h(t) == f(t) + g(t)
    ensures Integral(h, p) == Integral(f, p) + Integral(g, p)
  {
    if |p| >= 2 {
      IntegralAdd(f, g, h, p[1..]);
      AreaAdd(p[1] - p[0], f(p[0]), g(p[0]));
      hide Area;
      assert h(p[0]) == f(p[0]) + g(p[0]);
    }
  }

  lemma {:induction false} AreaAdd(width: real, x: real, y: real)
    ensures Area(width, x + y) == Area(width, x) + Area(width, y)
  {
  }

  /** A function between 0 and 1 integrates to something between 0 and the length of the range. */
  lemma {:induction false} IntegralBounds(f: real -> real, p: seq<real>)
    requires p != [] && Ascending(p)
    requires forall t :: 0.0 <= f(t) <= 1.0
    ensures 0.0 <= Integral(f, p) <= Last(p) - p[0]
  {
    if |p| >= 2 {
      IntegralBounds(f, p[1..]);
      assert 0.0 <= f(p[0]) <= 1.0;
      AreaMono(p[1] - p[0], 0.0, p[1] - p[0], f(p[0]));
      AreaMono(p[1] - p[0], f(p[0]), p[1] - p[0], 1.0);
    }
  }

  /** Appending a point adds one slice. */
  lemma {:induction false} IntegralSnoc(f: real -> real, p: seq<real>, x: real)
    requires p != [] && Ascending(p) && Last(p) <= x
    ensures Ascending(p + [x])
    ensures Integral(f, p + [x]) == Integral(f, p) + Area(x - Last(p), f(Last(p)))
  {
    if |p| >= 2 {
      assert (p + [x])[1..] == p[1..] + [x];
      IntegralSnoc(f, p[1..], x);
    } else {
      assert (p + [x])[1..] == [x];
    }
  }

  /** Gluing two partitions that share an end point adds the integrals. */
  lemma {:induction false} IntegralConcat(f: real -> real, p: seq<real>, q: seq<real>)
    requires p != [] && q != [] && Last(p) == q[0]
    requires Ascending(p) && Ascending(q) && Steps(f, p) && Steps(f, q)
    ensures Ascending(p + q[1..]) && Steps(f, p + q[1..])
    ensures Integral(f, p + q[1..]) == Integral(f, p) + Integral(f, q)
  {
    if |p| == 1 {
      assert p + q[1..] == q;
    } else {
      IntegralConcat(f, p[1..], q);
      assert (p + q[1..])[1..] == p[1..] + q[1..];
      assert (p + q[1..])[0] == p[0] && (p + q[1..])[1] == p[1];
    }
  }

  function Times(c: real, x: real): real {
    c * x
  }

  ghost function Scaled(c: real, f: real -> real): real -> real {
    t => Times(c, f(t))
  }

  lemma {:induction false} AreaScale(w: real, c: real, v: real)
    ensures Area(w, Times(c, v)) == Times(c, Area(w, v))
  {
  }

  lemma {:induction false} TimesSum(c: real, x: real, y: real)
    ensures Times(c, x + y) == Times(c, x) + Times(c, y)
  {
  }

  lemma {:induction false} IntegralScale(f: real -> real, c: real, p: seq<real>)
    ensures Integral(Scaled(c, f), p) == Times(c, Integral(f, p))
  {
    if |p| >= 2 {
      hide Area;
      IntegralScale(f, c, p[1..]);
      AreaScale(p[1] - p[0], c, f(p[0]));
      TimesSum(c, Area(p[1] - p[0], f(p[0])), Integral(f, p[1..]));
      hide Times;
    }
  }

  lemma {:induction false} ScaledSteps(f: real -> real, c: real, p: seq<real>)
    requires Steps(f, p)
    ensures Steps(Scaled(c, f), p)
  {
    if |p| >= 2 {
      hide Times;
      ScaledSteps(f, c, p[1..]);
    }
  }
}
