/**
 * Laws of the accounted usage: what an entry can add, conservation over all clients, the disjoint
 * case, and independence of entries that ended before the window.
 */
module UsageLaws {
  import opened Reals
  import opened StepIntegral
  import opened UsageModel

  // ----- single entries

  ghost function Pulse(e: Entry, t: real): real {
    if Running(e, t) then 1.0 else 0.0
  }

  ghost function PulseFn(e: Entry): real -> real {
    t => Pulse(e, t)
  }

  ghost function Plus(f: real -> real, g: real -> real): real -> real {
    t => f(t) + g(t)
  }

  /** The part of an entry that lies inside [a, b]. */
  function Clipped(e: Entry, a: real, b: real): real {
    Max(0.0, Min(e.end, b) - Max(e.start, a))
  }

  lemma {:induction false} PulseIntegral(e: Entry, p: seq<real>)
    requires p != [] && Ascending(p) && Hit(e.start, p) && Hit(e.end, p) && e.start <= e.end
    ensures Integral(PulseFn(e), p) == Clipped(e, p[0], Last(p))
  {
    if |p| >= 2 {
      AscendingBounds(p, 1);
      HitsTail([e], p);
      assert e in [e];
      PulseIntegral(e, p[1..]);
      PulseSlice(e, p);
      ClippedSplit(e, p[0], p[1], Last(p));
    }
  }

  lemma {:induction false} PulseSlice(e: Entry, p: seq<real>)
    requires |p| >= 2 && Ascending(p) && Hit(e.start, p) && Hit(e.end, p) && e.start <= e.end
    ensures Area(p[1] - p[0], Pulse(e, p[0])) == Clipped(e, p[0], p[1])
  {
    AscendingBounds(p, 1);
    if p[0] < p[1] {
      if p[0] < e.start < p[1] {
        NothingInside(e.start, p, e.start);
      }
      if p[0] < e.end < p[1] {
        NothingInside(e.end, p, e.end);
      }
    }
  }

  lemma {:induction false} ClippedSplit(e: Entry, a: real, b: real, c: real)
    requires a <= b <= c
    ensures Clipped(e, a, c) == Clipped(e, a, b) + Clipped(e, b, c) || e.end < e.start
  {
  }

  /**
   * If my share grew by at most 1 during [x, y) and nowhere else, my usage grew by at most y - x.
   */
  lemma {:induction false} UsageSlack(h: seq<Entry>, g: seq<Entry>, n: string, a: real, b: real, x: real, y: real)
    requires a <= b && x <= y
    requires forall t :: a <= t < b ==> Share(h, n, t) <= Share(g, n, t) + Pulse(Entry("", x, y), t)
    ensures Usage(h, n, a, b) <= Usage(g, n, a, b) + (y - x)
  {
    var e := Entry("", x, y);
    var all := [e] + g;
    var p := Breaks(all, a, b);
    var f := Plus(ShareFn(g, n), PulseFn(e));
    BreaksPartition(all, a, b);
    BreaksPartition(h, a, b);
    assert e in all && forall z :: z in g ==> z in all;
    ShareDriven(g, n, all);
    assert DrivenBy(f, all) by {
      forall t, u | SameStatus(all, t, u)
        ensures f(t) == f(u)
      {
        assert Running(e, t) == Running(e, u);
        assert ShareFn(g, n)(t) == ShareFn(g, n)(u);
      }
    }
    StepsOf(f, all, p);
    UsageByPartition(h, n, h, Breaks(h, a, b), a, b);
    UsageByPartition(g, n, all, p, a, b);
    IntegralMono(ShareFn(h, n), Breaks(h, a, b), f, p);
    IntegralAdd(ShareFn(g, n), PulseFn(e), f, p);
    PulseIntegral(e, p);
  }

  /** If my share is at most a multiple of another one, so is my usage. */
  lemma {:induction false} UsageScale(h: seq<Entry>, g: seq<Entry>, n: string, a: real, b: real, c: real)
    requires a <= b
    requires forall t :: a <= t < b ==> Share(h, n, t) <= Times(c, Share(g, n, t))
    ensures Usage(h, n, a, b) <= Times(c, Usage(g, n, a, b))
  {
    hide Times, Share, Breaks;
    var p, q := Breaks(h, a, b), Breaks(g, a, b);
    BreaksPartition(h, a, b);
    BreaksPartition(g, a, b);
    UsageByPartition(h, n, h, p, a, b);
    UsageByPartition(g, n, g, q, a, b);
    ScaledSteps(ShareFn(g, n), c, q);
    forall t | a <= t < b
      ensures ShareFn(h, n)(t) <= Scaled(c, ShareFn(g, n))(t)
    {
      assert ShareFn(h, n)(t) == Share(h, n, t) && ShareFn(g, n)(t) == Share(g, n, t);
    }
    IntegralMono(ShareFn(h, n), p, Scaled(c, ShareFn(g, n)), q);
    IntegralScale(ShareFn(g, n), c, q);
  }

  // ----- conservation

  ghost function Busy(h: seq<Entry>, t: real): real {
    if Active(h, Anyone, t) == 0 then 0.0 else 1.0
  }

  ghost function BusyFn(h: seq<Entry>): real -> real {
    t => Busy(h, t)
  }

  /** The measure of the union of all entries inside [a, b]. */
  ghost function Covered(h: seq<Entry>, a: real, b: real): real
    requires a <= b
  {
    Integral(BusyFn(h), Breaks(h, a, b))
  }

  ghost predicate Distinct(names: seq<string>) {
    forall i, j :: 0 <= i < j < |names| ==> names[i] != names[j]
  }

  ghost predicate Covers(names: seq<string>, h: seq<Entry>) {
    forall e :: e in h ==> e.name in names
  }

  ghost function TotalUsage(h: seq<Entry>, names: seq<string>, a: real, b: real): real
    requires a <= b
  {
    if names == [] then 0.0 else Usage(h, names[0], a, b) + TotalUsage(h, names[1..], a, b)
  }

  ghost function TotalShare(h: seq<Entry>, names: seq<string>, t: real): real {
    if names == [] then 0.0 else Share(h, names[0], t) + TotalShare(h, names[1..], t)
  }

  ghost function TotalShareFn(h: seq<Entry>, names: seq<string>): real -> real {
    t => TotalShare(h, names, t)
  }

  ghost function TotalActive(h: seq<Entry>, names: seq<string>, t: real): nat {
    if names == [] then 0 else Active(h, Only(names[0]), t) + TotalActive(h, names[1..], t)
  }

  lemma {:induction false} TotalActiveStep(h: seq<Entry>, names: seq<string>, t: real)
    requires h != [] && Distinct(names)
    ensures TotalActive(h, names, t) == TotalActive(h[1..], names, t)
                                        + (if h[0].name in names && Running(h[0], t) then 1 else 0)
  {
    if names != [] {
      TotalActiveStep(h, names[1..], t);
      assert h[0].name in names <==> h[0].name == names[0] || h[0].name in names[1..];
    }
  }

  lemma {:induction false} TotalActiveNone(names: seq<string>, t: real)
    ensures TotalActive([], names, t) == 0
  {
    if names != [] {
      TotalActiveNone(names[1..], t);
    }
  }

  lemma {:induction false} TotalActiveIsAll(h: seq<Entry>, names: seq<string>, t: real)
    requires Distinct(names) && Covers(names, h)
    ensures TotalActive(h, names, t) == Active(h, Anyone, t)
  {
    if h == [] {
      TotalActiveNone(names, t);
    } else {
      TotalActiveStep(h, names, t);
      TotalActiveIsAll(h[1..], names, t);
    }
  }

  lemma {:induction false} RatioAdd(x: nat, y: nat, whole: nat)
    ensures Ratio(x + y, whole) == Ratio(x, whole) + Ratio(y, whole)
  {
  }

  lemma {:induction false} RatioWhole(x: nat)
    ensures x != 0 ==> Ratio(x, x) == 1.0
  {
    var y := x as real;
    assert x != 0 ==> y / y == 1.0;
  }

  lemma {:induction false} TotalShareIsRatio(h: seq<Entry>, names: seq<string>, t: real)
    ensures TotalShare(h, names, t) == Ratio(TotalActive(h, names, t), Active(h, Anyone, t))
  {
    if names != [] {
      TotalShareIsRatio(h, names[1..], t);
      RatioAdd(Active(h, Only(names[0]), t), TotalActive(h, names[1..], t), Active(h, Anyone, t));
    }
  }

  lemma {:induction false} TotalShareIsBusy(h: seq<Entry>, names: seq<string>, t: real)
    requires Distinct(names) && Covers(names, h)
    ensures TotalShare(h, names, t) == Busy(h, t)
  {
    TotalShareIsRatio(h, names, t);
    TotalActiveIsAll(h, names, t);
    RatioWhole(Active(h, Anyone, t));
  }

  lemma {:induction false} TotalUsageIsIntegral(h: seq<Entry>, names: seq<string>, a: real, b: real)
    requires a <= b
    ensures TotalUsage(h, names, a, b) == Integral(TotalShareFn(h, names), Breaks(h, a, b))
  {
    if names == [] {
      IntegralAdd(TotalShareFn(h, names), TotalShareFn(h, names), TotalShareFn(h, names), Breaks(h, a, b));
    } else {
      TotalUsageIsIntegral(h, names[1..], a, b);
      IntegralAdd(ShareFn(h, names[0]), TotalShareFn(h, names[1..]), TotalShareFn(h, names), Breaks(h, a, b));
    }
  }

  lemma {:induction false} BusyDriven(h: seq<Entry>)
    ensures DrivenBy(BusyFn(h), h)
  {
    forall t, u | SameStatus(h, t, u)
      ensures BusyFn(h)(t) == BusyFn(h)(u)
    {
      ActiveSame(h, Anyone, t, u);
    }
  }

  lemma {:induction false} IntegralAgree(f: real -> real, g: real -> real, p: seq<real>)
    requires forall t :: f(t) == g(t)
    ensures Integral(f, p) == Integral(g, p)
  {
    if |p| >= 2 {
      IntegralAgree(f, g, p[1..]);
    }
  }

  /**
   * Conservation: splitting a shared moment equally loses and invents nothing.  Over any list of
   * clients that names every entry once, the usages add up to the time the GPU was held at all.
   */
  lemma {:induction false} Conservation(h: seq<Entry>, names: seq<string>, a: real, b: real)
    requires a <= b && Distinct(names) && Covers(names, h)
    ensures TotalUsage(h, names, a, b) == Covered(h, a, b)
  {
    TotalUsageIsIntegral(h, names, a, b);
    forall t
      ensures TotalShareFn(h, names)(t) == BusyFn(h)(t)
    {
      TotalShareIsBusy(h, names, t);
    }
    IntegralAgree(TotalShareFn(h, names), BusyFn(h), Breaks(h, a, b));
  }

  /** The union is no longer than the part of the window in which an entry can lie at all. */
  lemma {:induction false} CoveredBounds(h: seq<Entry>, a: real, b: real, lo: real)
    requires a <= b && lo <= b
    requires forall e :: e in h ==> lo <= e.start
    ensures 0.0 <= Covered(h, a, b) <= b - Max(a, lo)
  {
    BreaksPartition(h, a, b);
    BusyDriven(h);
    StepsOf(BusyFn(h), h, Breaks(h, a, b));
    IntegralBounds(BusyFn(h), Breaks(h, a, b));
    if a < lo {
      var e := Entry("", lo, b);
      var p := Breaks([e], a, b);
      BreaksPartition([e], a, b);
      assert e in [e];
      forall t, u | SameStatus([e], t, u)
        ensures PulseFn(e)(t) == PulseFn(e)(u)
      {
      }
      StepsOf(PulseFn(e), [e], p);
      forall t | a <= t < b
        ensures BusyFn(h)(t) <= PulseFn(e)(t)
      {
        if t < lo {
          IdleBefore(h, lo, t);
        }
      }
      IntegralMono(BusyFn(h), Breaks(h, a, b), PulseFn(e), p);
      PulseIntegral(e, p);
    }
  }

  lemma {:induction false} IdleBefore(h: seq<Entry>, lo: real, t: real)
    requires t < lo && forall e :: e in h ==> lo <= e.start
    ensures Active(h, Anyone, t) == 0
  {
    if h != [] {
      IdleBefore(h[1..], lo, t);
    }
  }

  // ----- disjoint entries

  ghost function SumClipped(h: seq<Entry>, n: string, a: real, b: real): real {
    if h == [] then 0.0
    else (if h[0].name == n then Clipped(h[0], a, b) else 0.0) + SumClipped(h[1..], n, a, b)
  }

  ghost function CountFn(h: seq<Entry>, n: string): real -> real {
    t => Active(h, Only(n), t) as real
  }

  ghost predicate Disjoint(h: seq<Entry>) {
    forall i, j :: 0 <= i < j < |h| ==> h[i].end <= h[j].start || h[j].end <= h[i].start
  }

  lemma {:induction false} CountIntegral(h: seq<Entry>, n: string, p: seq<real>)
    requires p != [] && Ascending(p) && Hits(h, p)
    requires forall e :: e in h ==> e.start <= e.end
    ensures Integral(CountFn(h, n), p) == SumClipped(h, n, p[0], Last(p))
  {
    if h == [] {
      IntegralAdd(CountFn(h, n), CountFn(h, n), CountFn(h, n), p);
    } else {
      CountIntegral(h[1..], n, p);
      if h[0].name == n {
        PulseIntegral(h[0], p);
        IntegralAdd(PulseFn(h[0]), CountFn(h[1..], n), CountFn(h, n), p);
      } else {
        IntegralAgree(CountFn(h[1..], n), CountFn(h, n), p);
      }
    }
  }

  lemma {:induction false} DisjointAtMostOne(h: seq<Entry>, t: real)
    requires Disjoint(h)
    ensures Active(h, Anyone, t) <= 1
  {
    if h != [] {
      DisjointAtMostOne(h[1..], t);
      if Running(h[0], t) {
        forall e | e in h[1..]
          ensures !Running(e, t)
        {
          var j :| 1 <= j < |h| && h[j] == e;
          assert h[0].end <= h[j].start || h[j].end <= h[0].start;
        }
        NoneRunning(h[1..], t);
      }
    }
  }

  lemma {:induction false} NoneRunning(h: seq<Entry>, t: real)
    requires forall e :: e in h ==> !Running(e, t)
    ensures Active(h, Anyone, t) == 0
  {
    if h != [] {
      NoneRunning(h[1..], t);
    }
  }

  /** With disjoint entries a client's usage is the plain sum of its clipped entries. */
  lemma {:induction false} DisjointUsage(h: seq<Entry>, n: string, a: real, b: real)
    requires a <= b && Disjoint(h) && forall e :: e in h ==> e.start <= e.end
    ensures Usage(h, n, a, b) == SumClipped(h, n, a, b)
  {
    BreaksPartition(h, a, b);
    forall t
      ensures ShareFn(h, n)(t) == CountFn(h, n)(t)
    {
      DisjointAtMostOne(h, t);
      ActiveWithin(h, n, t);
    }
    IntegralAgree(ShareFn(h, n), CountFn(h, n), Breaks(h, a, b));
    CountIntegral(h, n, Breaks(h, a, b));
  }

  // ----- pruning

  /** The history list after dropping every entry that ended before `w`. */
  function Kept(h: seq<Entry>, w: real): seq<Entry> {
    if h == [] then []
    else if h[0].end < w then Kept(h[1..], w)
    else [h[0]] + Kept(h[1..], w)
  }

  lemma {:induction false} KeptMembers(h: seq<Entry>, w: real)
    ensures forall e :: e in Kept(h, w) <==> e in h && w <= e.end
  {
    if h != [] {
      KeptMembers(h[1..], w);
      assert forall e :: e in h <==> e == h[0] || e in h[1..];
    }
  }

  lemma {:induction false} KeptActive(h: seq<Entry>, w: real, who: Who, t: real)
    requires w <= t
    ensures Active(Kept(h, w), who, t) == Active(h, who, t)
  {
    if h != [] {
      KeptActive(h[1..], w, who, t);
    }
  }

  /** Dropped entries are invisible in the current window and in every later one. */
  lemma {:induction false} PruneInvisible(h: seq<Entry>, w: real, n: string, a: real, b: real)
    requires w <= a <= b
    ensures Usage(Kept(h, w), n, a, b) == Usage(h, n, a, b)
  {
    forall t | a <= t < b
      ensures Share(Kept(h, w), n, t) == Share(h, n, t)
    {
      KeptActive(h, w, Only(n), t);
      KeptActive(h, w, Anyone, t);
    }
    UsageEqual(Kept(h, w), h, n, a, b);
  }
}
