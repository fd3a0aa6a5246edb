/**
 * When the sweep is right.  An entry that ended exactly at the window start survives pruning and is
 * charged as if it were still running.  Without such phantoms the sweep computes the declared usage;
 * with one it may still do so by chance, but not whatever else runs in the window.  By how much
 * running clients are undercharged is bounded by the number of phantoms.
 */
module SweepLaws {
  import opened Reals
  import opened StepIntegral
  import opened UsageModel
  import opened UsageLaws
  import opened Sweep

  /** Some entry is taken for a running one although it has ended. */
  ghost predicate HasPhantom(h: seq<Entry>, w: real) {
    exists e :: e in h && e.end <= w
  }

  lemma {:induction false} NoPhantomSame(h: seq<Entry>, w: real, hz: real)
    requires !HasPhantom(h, w)
    ensures Haunted(h, w, hz) == h
  {
    if h != [] {
      assert h[0] in h;
      assert forall e :: e in h[1..] ==> e in h;
      NoPhantomSame(h[1..], w, hz);
    }
  }

  /** Nothing runs after the horizon. */
  lemma {:induction false} UsageAfterHorizon(h: seq<Entry>, n: string, w: real, t: real)
    requires Horizon(h, w) <= t
    ensures Usage(h, n, Horizon(h, w), t) == 0.0
  {
    var hz := Horizon(h, w);
    HorizonBounds(h, w);
    forall u | hz <= u < t
      ensures Share(h, n, u) <= Share([], n, u)
    {
      NoneRunning(h, u);
    }
    UsageMono(h, [], n, hz, t);
    UsageBounds(h, n, hz, t);
    EmptyUsage(n, hz, t);
  }

  lemma {:induction false} EmptyUsage(n: string, a: real, b: real)
    requires a <= b
    ensures Usage([], n, a, b) == 0.0
  {
    assert [a, b][1..] == [b];
    assert Breaks([], a, b) == [a, b] && ShareFn([], n)(a) == 0.0;
    assert Integral(ShareFn([], n), [b]) == 0.0;
    assert Integral(ShareFn([], n), [a, b]) == Area(b - a, 0.0);
  }

  /**
   * Sweep correctness: without phantoms, what the sweep computes is the usage in every window that
   * starts at `w` and reaches past the last end.
   */
  lemma {:induction false} SweptIsUsage(h: seq<Entry>, n: string, w: real, t: real)
    requires !HasPhantom(h, w) && Horizon(h, w) <= t
    ensures w <= t && Swept(h, n, w) == Usage(h, n, w, t)
  {
    var hz := Horizon(h, w);
    HorizonBounds(h, w);
    NoPhantomSame(h, w, hz);
    UsageSplit(h, n, w, hz, t);
    UsageAfterHorizon(h, n, w, t);
  }

  // ----- the vector after the prefix loop

  /** How many entries of `who` are phantoms. */
  ghost function Phantoms(h: seq<Entry>, who: Who, w: real): nat {
    if h == [] then 0
    else (if Of(h[0].name, who) && h[0].end <= w then 1 else 0) + Phantoms(h[1..], who, w)
  }

  lemma {:induction false} PhantomsCount(h: seq<Entry>, who: Who, w: real)
    ensures Phantoms(h, who, w) > 0 <==> exists e :: e in h && Of(e.name, who) && e.end <= w
  {
    if h != [] {
      PhantomsCount(h[1..], who, w);
      assert h[0] in h && forall e :: e in h <==> e == h[0] || e in h[1..];
    }
  }

  /** How many phantoms are entries of other clients than `n`. */
  ghost function OtherPhantoms(h: seq<Entry>, n: string, w: real): nat {
    if h == [] then 0
    else (if h[0].name != n && h[0].end <= w then 1 else 0) + OtherPhantoms(h[1..], n, w)
  }

  lemma {:induction false} OtherPhantomsCount(h: seq<Entry>, n: string, w: real)
    ensures OtherPhantoms(h, n, w) > 0 <==> exists e :: e in h && e.name != n && e.end <= w
  {
    if h != [] {
      OtherPhantomsCount(h[1..], n, w);
      assert h[0] in h && forall e :: e in h <==> e == h[0] || e in h[1..];
    }
  }

  lemma {:induction false} PhantomsSplit(h: seq<Entry>, n: string, w: real)
    ensures Phantoms(h, Anyone, w) == Phantoms(h, Only(n), w) + OtherPhantoms(h, n, w)
  {
    if h != [] {
      PhantomsSplit(h[1..], n, w);
    }
  }

  /** The sweep sees every phantom twice. */
  lemma {:induction false} HauntedActive(h: seq<Entry>, who: Who, w: real, hz: real, t: real)
    requires w <= t <= hz
    ensures Active(Haunted(h, w, hz), who, t) == Active(h, who, t) + 2 * Phantoms(h, who, w)
  {
    if h != [] {
      var e := h[0];
      HauntedActive(h[1..], who, w, hz, t);
      if e.end <= w {
        var g := Entry(e.name, w, hz + 1.0);
        ActiveConcat([g, g], Haunted(h[1..], w, hz), who, t);
        assert [g, g][1..] == [g];
      } else {
        ActiveConcat([e], Haunted(h[1..], w, hz), who, t);
      }
    }
  }

  /**
   * The prefix loop leaves exactly the entries running at the window start in the vector if and
   * only if no entry it saw had ended by then.
   */
  lemma {:induction false} PrefixExact(h: seq<Entry>, ts: seq<Stamp>, k: nat, running: seq<string>, w: real)
    requires Proper(h) && Arranged(ts, h) && k <= |ts|
    requires forall j :: 0 <= j < k ==> Abs(ts[j].time) <= w
    requires forall j :: k <= j < |ts| ==> w < Abs(ts[j].time)
    requires Tracks(running, ts[..k], w)
    ensures |running| == Active(h, Anyone, w) <==> !HasPhantom(h, w)
  {
    PrefixIsActive(h, ts, k, Anyone, w, w, w);
    assert Occ(running, Anyone) == Sum(ts[..k], Delta(Anyone, w));
    OccAnyone(running);
    HauntedActive(h, Anyone, w, w, w);
    PhantomsCount(h, Anyone, w);
  }

  // ----- totals

  ghost function TotalSwept(h: seq<Entry>, names: seq<string>, w: real): real {
    if names == [] then 0.0 else Swept(h, names[0], w) + TotalSwept(h, names[1..], w)
  }

  lemma {:induction false} TotalSweptIsTotalUsage(h: seq<Entry>, names: seq<string>, w: real)
    ensures w <= Horizon(h, w)
    ensures TotalSwept(h, names, w) == TotalUsage(Haunted(h, w, Horizon(h, w)), names, w, Horizon(h, w))
  {
    HorizonBounds(h, w);
    if names != [] {
      TotalSweptIsTotalUsage(h, names[1..], w);
    }
  }

  lemma {:induction false} SomeRunning(h: seq<Entry>, e: Entry, who: Who, t: real)
    requires e in h && Running(e, t) && Of(e.name, who)
    ensures Active(h, who, t) > 0
  {
    if h[0] != e {
      SomeRunning(h[1..], e, who, t);
    }
  }

  lemma {:induction false} PhantomMember(h: seq<Entry>, w: real, hz: real, e: Entry)
    requires e in h && e.end <= w
    ensures Entry(e.name, w, hz + 1.0) in Haunted(h, w, hz)
  {
    if h[0] != e {
      PhantomMember(h[1..], w, hz, e);
    }
  }

  /** With a phantom the sweep never sees the GPU idle between the window start and the horizon. */
  lemma {:induction false} PhantomCovers(h: seq<Entry>, w: real)
    requires HasPhantom(h, w)
    ensures w <= Horizon(h, w)
    ensures Covered(Haunted(h, w, Horizon(h, w)), w, Horizon(h, w)) == Horizon(h, w) - w
  {
    HorizonBounds(h, w);
    var hz := Horizon(h, w);
    var g := Haunted(h, w, hz);
    var e :| e in h && e.end <= w;
    var ph := Entry(e.name, w, hz + 1.0);
    PhantomMember(h, w, hz, e);
    var p := Breaks(g, w, hz);
    BreaksPartition(g, w, hz);
    BusyDriven(g);
    StepsOf(BusyFn(g), g, p);
    forall t, u | SameStatus(g, t, u)
      ensures PulseFn(ph)(t) == PulseFn(ph)(u)
    {
    }
    StepsOf(PulseFn(ph), g, p);
    forall t | w <= t < hz
      ensures BusyFn(g)(t) == PulseFn(ph)(t)
    {
      SomeRunning(g, ph, Anyone, t);
    }
    IntegralEqual(BusyFn(g), p, PulseFn(ph), p);
    PulseIntegral(ph, p);
  }

  lemma {:induction false} HauntedCovers(h: seq<Entry>, names: seq<string>, w: real, hz: real)
    requires Covers(names, h)
    ensures Covers(names, Haunted(h, w, hz))
  {
    HauntedMembers(h, w, hz);
  }

  /**
   * Conservation of the swept totals, phantoms included, and the exact condition under which the
   * total is the time the GPU was held: no phantom, or no idle moment after the window start.
   */
  lemma {:induction false} SweptConservation(h: seq<Entry>, names: seq<string>, w: real)
    requires Distinct(names) && Covers(names, h)
    ensures w <= Horizon(h, w)
    ensures TotalSwept(h, names, w)
            == if HasPhantom(h, w) then Horizon(h, w) - w else Covered(h, w, Horizon(h, w))
    ensures TotalSwept(h, names, w) == Covered(h, w, Horizon(h, w))
            <==> !HasPhantom(h, w) || Covered(h, w, Horizon(h, w)) == Horizon(h, w) - w
  {
    var hz := Horizon(h, w);
    TotalSweptIsTotalUsage(h, names, w);
    HauntedCovers(h, names, w, hz);
    Conservation(Haunted(h, w, hz), names, w, hz);
    if HasPhantom(h, w) {
      PhantomCovers(h, w);
    } else {
      NoPhantomSame(h, w, hz);
    }
  }

  /**
   * In a state where every recorded end is in the past, the swept usages together never exceed
   * the window size, also while less than a whole window has passed.
   */
  lemma {:induction false} SweptWithinWindow(h: seq<Entry>, names: seq<string>, now: real, window: real)
    requires Proper(h) && Distinct(names) && Covers(names, h)
    requires 0.0 <= now && 0.0 < window && forall e :: e in h ==> e.end <= now
    ensures TotalSwept(h, names, now - window) <= if now - window < 0.0 then now else window
  {
    var w := now - window;
    HorizonLeast(h, w, now);
    HorizonBounds(h, w);
    SweptConservation(h, names, w);
    if HasPhantom(h, w) {
      var e :| e in h && e.end <= w;
      assert 0.0 < w;
    } else if h == [] {
      CoveredBounds(h, w, w, w);
    } else {
      assert h[0] in h;
      CoveredBounds(h, w, Horizon(h, w), 0.0);
    }
  }

  // ----- how far the sweep can be off

  function Stretch(phantoms: nat): (c: real)
    ensures c >= 1.0
  {
    1.0 + 2.0 * phantoms as real
  }

  lemma {:induction false} RatioStretch(a: nat, all: nat, own: nat, others: nat)
    requires a <= all
    ensures Ratio(a, all) <= Times(Stretch(others), Ratio(a + 2 * own, all + 2 * (own + others)))
  {
    RatioBounds(a + 2 * own, all + 2 * (own + others));
    var z := Ratio(a + 2 * own, all + 2 * (own + others));
    if a == 0 {
      MulMono(Stretch(others), 0.0, z);
    } else {
      StretchCore(a as real, all as real, own as real, others as real, z);
    }
  }

  lemma {:induction false} StretchCore(x: real, y: real, o: real, q: real, z: real)
    requires 1.0 <= x <= y && 0.0 <= o && 0.0 <= q && z * (y + 2.0 * o + 2.0 * q) == x + 2.0 * o
    ensures x / y <= (1.0 + 2.0 * q) * z
  {
    var s, v := 1.0 + 2.0 * q, y + 2.0 * o + 2.0 * q;
    assert x * v <= s * (x + 2.0 * o) * y by {
      StretchProduct(x, y, o, q);
    }
    assert s * (z * v) * y == (s * z * y) * v;
    QuotientAtMost(x * v, v, s * z * y);
    assert x * v / v == x;
    QuotientAtMost(x, y, s * z);
  }

  lemma {:induction false} StretchProduct(x: real, y: real, o: real, q: real)
    requires 1.0 <= x <= y && 0.0 <= o && 0.0 <= q
    ensures x * (y + 2.0 * o + 2.0 * q) <= (1.0 + 2.0 * q) * (x + 2.0 * o) * y
  {
    MulMono(o, x, y);
    MulMono(q * x, 1.0, y);
    assert 0.0 <= q * o * y;
    assert x * (y + 2.0 * o + 2.0 * q) == x * y + 2.0 * (o * x) + 2.0 * (q * x);
    assert (1.0 + 2.0 * q) * (x + 2.0 * o) * y
           == x * y + 2.0 * (o * y) + 2.0 * (q * x * y) + 4.0 * (q * o * y);
  }

  lemma {:induction false} QuotientAtMost(x: real, y: real, c: real)
    requires 0.0 < y && x <= c * y
    ensures x / y <= c
  {
    DivMono(x, y, c, 1.0);
  }

  /**
   * Whatever the history, the declared usage is at most the swept one times 1 plus twice the number
   * of other clients' phantoms, in every window that starts no earlier.
   */
  lemma {:induction false} UsageAtMostSwept(h: seq<Entry>, n: string, w: real, a: real, b: real)
    requires w <= a <= b
    ensures Usage(h, n, a, b) <= Times(Stretch(OtherPhantoms(h, n, w)), Swept(h, n, w))
  {
    hide Usage, Times, Stretch, Share;
    var hz := Horizon(h, w);
    HorizonBounds(h, w);
    var g, t, p := Haunted(h, w, hz), Max(b, hz), OtherPhantoms(h, n, w);
    UsageShrink(h, n, w, t, a, b);
    UsageSplit(h, n, w, hz, t);
    UsageAfterHorizon(h, n, w, t);
    forall u | w <= u < hz
      ensures Share(h, n, u) <= Times(Stretch(p), Share(g, n, u))
    {
      ShareStretch(h, n, w, hz, u);
    }
    UsageScale(h, g, n, w, hz, Stretch(p));
  }

  lemma {:induction false} ShareStretch(h: seq<Entry>, n: string, w: real, hz: real, t: real)
    requires w <= t <= hz
    ensures Share(h, n, t) <= Times(Stretch(OtherPhantoms(h, n, w)), Share(Haunted(h, w, hz), n, t))
  {
    hide Times, Stretch;
    HauntedActive(h, Only(n), w, hz, t);
    HauntedActive(h, Anyone, w, hz, t);
    ActiveWithin(h, n, t);
    PhantomsSplit(h, n, w);
    RatioStretch(Active(h, Only(n), t), Active(h, Anyone, t), Phantoms(h, Only(n), w), OtherPhantoms(h, n, w));
  }

  /** A share among more entries is smaller by a fixed factor. */
  lemma {:induction false} RatioDamped(a: nat, all: nat, extra: nat, n: nat)
    requires a <= all <= n && 1 <= extra
    ensures Ratio(a, all + extra) <= Times(Damping(n), Ratio(a, all))
  {
    if a > 0 {
      DampedCore(a as real, all as real, extra as real, n as real);
    }
  }

  function Damping(n: nat): (c: real)
    ensures 0.0 <= c < 1.0
  {
    n as real / (n + 1) as real
  }

  lemma {:induction false} DampedCore(x: real, y: real, q: real, n: real)
    requires 1.0 <= x <= y <= n && 1.0 <= q
    ensures x / (y + q) <= (n / (n + 1.0)) * (x / y)
  {
    var r, c := x / y, n / (n + 1.0);
    assert r * y == x && c * (n + 1.0) == n;
    assert x <= c * (x + r) by {
      DampedStep(x, y, r, c, n);
    }
    assert 0.0 <= c * r;
    MulMono(c * r, 1.0, q);
    assert c * (x + r) <= (c * r) * (y + q) by {
      assert (c * r) * (y + q) == c * (r * y) + (c * r) * q;
      assert c * (x + r) == c * x + c * r;
    }
    QuotientAtMost(x, y + q, c * r);
  }

  lemma {:induction false} DampedStep(x: real, y: real, r: real, c: real, n: real)
    requires 0.0 <= r && r * y == x && y <= n && 0.0 < n + 1.0 && c * (n + 1.0) == n
    ensures x <= c * (x + r)
  {
    MulMono(r, y, n);
    var d := c * (x + r) - x;
    assert d * (n + 1.0) == n * (x + r) - x * (n + 1.0) by {
      assert (c * (x + r)) * (n + 1.0) == (c * (n + 1.0)) * (x + r);
    }
    assert n * (x + r) - x * (n + 1.0) == n * r - x;
    QuotientAtMost(0.0, n + 1.0, d);
  }

  /**
   * The harmful case: a client none of whose own entries is a phantom is never overcharged, and it is
   * charged its usage if and only if there is no phantom at all or it did not run.
   */
  lemma {:induction false} UnderchargedExactly(h: seq<Entry>, n: string, w: real)
    requires forall e :: e in h && e.name == n ==> w < e.end
    ensures w <= Horizon(h, w) && Swept(h, n, w) <= Usage(h, n, w, Horizon(h, w))
    ensures Swept(h, n, w) == Usage(h, n, w, Horizon(h, w))
            <==> !HasPhantom(h, w) || Usage(h, n, w, Horizon(h, w)) == 0.0
  {
    hide Usage, Times, Damping, Share;
    var hz := Horizon(h, w);
    HorizonBounds(h, w);
    var g := Haunted(h, w, hz);
    UsageBounds(h, n, w, hz);
    UsageBounds(g, n, w, hz);
    if HasPhantom(h, w) {
      forall t | w <= t < hz
        ensures Share(g, n, t) <= Times(Damping(|h|), Share(h, n, t))
      {
        ShareDamped(h, n, w, hz, t);
      }
      UsageScale(g, h, n, w, hz, Damping(|h|));
      TimesLess(Damping(|h|), Usage(h, n, w, hz));
    } else {
      NoPhantomSame(h, w, hz);
    }
  }

  lemma {:induction false} TimesLess(c: real, x: real)
    requires 0.0 <= c < 1.0 && 0.0 <= x
    ensures Times(c, x) <= x && (Times(c, x) == x ==> x == 0.0)
  {
    MulMono(x, c, 1.0);
    if x > 0.0 {
      assert x * (1.0 - c) > 0.0;
    }
  }

  lemma {:induction false} ShareDamped(h: seq<Entry>, n: string, w: real, hz: real, t: real)
    requires w <= t <= hz && HasPhantom(h, w)
    requires forall e :: e in h && e.name == n ==> w < e.end
    ensures Share(Haunted(h, w, hz), n, t) <= Times(Damping(|h|), Share(h, n, t))
  {
    hide Times, Damping;
    HauntedActive(h, Only(n), w, hz, t);
    HauntedActive(h, Anyone, w, hz, t);
    PhantomsCount(h, Only(n), w);
    PhantomsCount(h, Anyone, w);
    ActiveWithin(h, n, t);
    ActiveAtMost(h, Anyone, t);
    RatioDamped(Active(h, Only(n), t), Active(h, Anyone, t), 2 * Phantoms(h, Anyone, w), |h|);
  }

  // ----- exactly when the sweep is right

  ghost predicate SweptRight(h: seq<Entry>, n: string, w: real) {
    HorizonBounds(h, w);
    Swept(h, n, w) == Usage(h, n, w, Horizon(h, w))
  }

  ghost predicate LaterEntries(g: seq<Entry>, w: real) {
    Proper(g) && forall e :: e in g ==> w <= e.start
  }

  /** A name longer than every name in the history. */
  function FreshName(h: seq<Entry>): (n: string)
    ensures n != "" && forall e :: e in h ==> |e.name| < |n|
  {
    if h == [] then "x"
    else
      assert forall e :: e in h ==> e == h[0] || e in h[1..];
      h[0].name + FreshName(h[1..])
  }

  /**
   * The exact condition: the sweep computes the declared usage of every client, whatever else runs in
   * the window, if and only if no entry had ended by the window start.
   */
  lemma {:induction false} SweptExactly(h: seq<Entry>, w: real)
    ensures !HasPhantom(h, w) <==> forall g, n :: LaterEntries(g, w) ==> SweptRight(h + g, n, w)
  {
    if HasPhantom(h, w) {
      var g, n := UnderchargedNewcomer(h, w);
      assert LaterEntries(g, w) && !SweptRight(h + g, n, w);
    } else {
      forall g, n | LaterEntries(g, w)
        ensures SweptRight(h + g, n, w)
      {
        assert !HasPhantom(h + g, w);
        SweptIsUsage(h + g, n, w, Horizon(h + g, w));
      }
    }
  }

  /** Next to a phantom, a new client that runs alone is undercharged. */
  lemma {:induction false} UnderchargedNewcomer(h: seq<Entry>, w: real) returns (g: seq<Entry>, n: string)
    requires HasPhantom(h, w)
    ensures LaterEntries(g, w) && !SweptRight(h + g, n, w)
  {
    hide Usage, Swept;
    n := FreshName(h);
    var x := Max(1.0, Horizon(h, w));
    var e := Entry(n, x, x + 1.0);
    HorizonBounds(h, w);
    g := [e];
    var all := h + g;
    assert all[|h|] == e;
    HorizonBounds(all, w);
    var hz := Horizon(all, w);
    RunningThroughout(all, e, x, x + 1.0);
    UsageShrink(all, n, w, hz, x, x + 1.0);
    UsageBounds(all, n, x, x + 1.0);
    var d :| d in h && d.end <= w;
    assert d in all;
    UnderchargedExactly(all, n, w);
  }

  // ----- exactly when one client is never undercharged

  ghost predicate NotUndercharged(h: seq<Entry>, n: string, w: real) {
    HorizonBounds(h, w);
    Usage(h, n, w, Horizon(h, w)) <= Swept(h, n, w)
  }

  /**
   * The exact condition for one client: whatever else runs in the window, it is never undercharged if
   * and only if no entry of another client had ended by the window start.  Its own ended entries do
   * not matter.
   */
  lemma {:induction false} NeverUndercharged(h: seq<Entry>, n: string, w: real)
    ensures (forall e :: e in h && e.name != n ==> w < e.end)
            <==> forall g :: LaterEntries(g, w) ==> NotUndercharged(h + g, n, w)
  {
    OtherPhantomsCount(h, n, w);
    if forall e :: e in h && e.name != n ==> w < e.end {
      forall g | LaterEntries(g, w)
        ensures NotUndercharged(h + g, n, w)
      {
        var all := h + g;
        HorizonBounds(all, w);
        OtherPhantomsCount(all, n, w);
        UsageAtMostSwept(all, n, w, w, Horizon(all, w));
        assert Times(Stretch(0), Swept(all, n, w)) == Swept(all, n, w);
      }
    } else {
      var g := UnderchargedLater(h, n, w);
      assert LaterEntries(g, w) && !NotUndercharged(h + g, n, w);
    }
  }

  /** Next to another client's phantom, a long enough later entry is undercharged. */
  lemma {:induction false} UnderchargedLater(h: seq<Entry>, n: string, w: real) returns (g: seq<Entry>)
    requires OtherPhantoms(h, n, w) > 0
    ensures LaterEntries(g, w) && !NotUndercharged(h + g, n, w)
  {
    hide Usage, Swept, Area, Ratio;
    HorizonBounds(h, w);
    var x, own, others := Max(1.0, Horizon(h, w)), Phantoms(h, Only(n), w), OtherPhantoms(h, n, w);
    var size := 1 + 2 * (own + others);
    var length := Area(size as real, x - w + 1.0);
    LongEnough(own, others, x - w);
    var e := Entry(n, x, x + length);
    g := [e];
    var all, hz := h + g, x + length;
    assert all[|h|] == e;
    HorizonBounds(all, w);
    HorizonLeast(all, w, hz);
    AloneUsage(h, e, w);
    DilutedUsage(h, e, w);
    assert !NotUndercharged(all, n, w);
  }

  lemma {:induction false} LongEnough(own: nat, others: nat, d: real)
    requires 0.0 <= d && 1 <= others
    ensures var size := 1 + 2 * (own + others);
            var length := Area(size as real, d + 1.0);
            0.0 < length && d + Area(length, Ratio(1 + 2 * own, size)) < length
  {
    var x, y, z := (1 + 2 * own) as real, (1 + 2 * (own + others)) as real, d + 1.0;
    var c := x / y;
    assert c * y == x;
    assert (y * z) * c == x * z;
    assert y * z == x * z + 2.0 * others as real * z;
    MulMono(z, 1.0, others as real);
    MulMono(z, 0.0, x);
  }

  /** A client that runs alone after everything else is used in full. */
  lemma {:induction false} AloneUsage(h: seq<Entry>, e: Entry, w: real)
    requires Horizon(h, w) <= e.start <= e.end
    ensures w <= e.start && e.end - e.start <= Usage(h + [e], e.name, w, e.end)
  {
    hide Usage;
    HorizonBounds(h, w);
    var all := h + [e];
    UsageSplit(all, e.name, w, e.start, e.end);
    UsageBounds(all, e.name, w, e.start);
    forall t | e.start <= t < e.end
      ensures 1.0 <= Share(all, e.name, t)
    {
      AloneActive(h, e, Only(e.name), t);
      AloneActive(h, e, Anyone, t);
    }
    UsageAtLeast(all, e.name, e.start, e.end, 1.0);
  }

  lemma {:induction false} AloneActive(h: seq<Entry>, e: Entry, who: Who, t: real)
    requires Running(e, t) && Of(e.name, who) && forall d :: d in h ==> d.end <= e.start
    ensures Active(h + [e], who, t) == 1
  {
    ActiveConcat(h, [e], who, t);
    assert [e][1..] == [];
    NoneOf(h, who, t);
  }

  lemma {:induction false} NoneOf(h: seq<Entry>, who: Who, t: real)
    requires forall e :: e in h ==> !Running(e, t)
    ensures Active(h, who, t) == 0
  {
    if h != [] {
      NoneOf(h[1..], who, t);
    }
  }

  lemma {:induction false} DilutedUsage(h: seq<Entry>, e: Entry, w: real)
    requires Horizon(h, w) <= e.start < e.end && Horizon(h + [e], w) == e.end
    ensures var own, others := Phantoms(h, Only(e.name), w), OtherPhantoms(h, e.name, w);
            Swept(h + [e], e.name, w)
            <= e.start - w + Area(e.end - e.start, Ratio(1 + 2 * own, 1 + 2 * (own + others)))
  {
    hide Usage, Area, Share;
    var all, hz := h + [e], e.end;
    var seen := Haunted(all, w, hz);
    var own, others := Phantoms(h, Only(e.name), w), OtherPhantoms(h, e.name, w);
    var c := Ratio(1 + 2 * own, 1 + 2 * (own + others));
    HorizonBounds(h, w);
    UsageSplit(seen, e.name, w, e.start, hz);
    UsageBounds(seen, e.name, w, e.start);
    forall t | e.start <= t < hz
      ensures Share(seen, e.name, t) <= c
    {
      DilutedShare(h, e, w, hz, t);
    }
    UsageAtMost(seen, e.name, e.start, hz, c);
  }

  lemma {:induction false} DilutedShare(h: seq<Entry>, e: Entry, w: real, hz: real, t: real)
    requires w <= e.start <= t < e.end <= hz && forall d :: d in h ==> d.end <= e.start
    ensures var own, others := Phantoms(h, Only(e.name), w), OtherPhantoms(h, e.name, w);
            Share(Haunted(h + [e], w, hz), e.name, t) == Ratio(1 + 2 * own, 1 + 2 * (own + others))
  {
    hide Ratio;
    PhantomsSplit(h, e.name, w);
    AloneActive(h, e, Only(e.name), t);
    AloneActive(h, e, Anyone, t);
    HauntedActive(h + [e], Only(e.name), w, hz, t);
    HauntedActive(h + [e], Anyone, w, hz, t);
    PhantomsLater(h, e, Only(e.name), w);
    PhantomsLater(h, e, Anyone, w);
  }

  lemma {:induction false} PhantomsLater(h: seq<Entry>, e: Entry, who: Who, w: real)
    requires w < e.end
    ensures Phantoms(h + [e], who, w) == Phantoms(h, who, w)
  {
    if h == [] {
      assert h + [e] == [e] && [e][1..] == [];
    } else {
      assert (h + [e])[1..] == h[1..] + [e];
      PhantomsLater(h[1..], e, who, w);
    }
  }

  // ----- the failing family

  ghost function Constant(c: real): real -> real {
    t => c
  }

  lemma {:induction false} ActiveAtMost(h: seq<Entry>, who: Who, t: real)
    ensures Active(h, who, t) <= |h|
  {
    if h != [] {
      ActiveAtMost(h[1..], who, t);
    }
  }

  /** A running name is charged at least one part in the number of entries. */
  lemma {:induction false} ShareAtLeast(h: seq<Entry>, e: Entry, t: real)
    requires e in h && Running(e, t)
    ensures Share(h, e.name, t) >= 1.0 / |h| as real
  {
    SomeRunning(h, e, Only(e.name), t);
    SomeRunning(h, e, Anyone, t);
    ActiveAtMost(h, Anyone, t);
    RatioAtLeast(Active(h, Only(e.name), t), Active(h, Anyone, t), |h|);
  }

  lemma {:induction false} RatioAtLeast(part: nat, whole: nat, n: nat)
    requires 1 <= part && 1 <= whole <= n
    ensures Ratio(part, whole) >= 1.0 / n as real
  {
    var x, y, z := part as real, whole as real, n as real;
    MulMono(z, 1.0, x);
    DivMono(1.0, z, x, y);
  }

  /**
   * A client whose entries have all ended by the window start has usage zero.  The sweep agrees if
   * and only if the client has no entry left in the history or nothing ended after the window start.
   */
  lemma {:induction false} PhantomCharged(h: seq<Entry>, n: string, w: real)
    requires forall e :: e in h && e.name == n ==> e.end <= w
    ensures Horizon(h, w) >= w && Usage(h, n, w, Horizon(h, w)) == 0.0
    ensures Swept(h, n, w) == 0.0 <==> (forall e :: e in h ==> e.name != n) || Horizon(h, w) == w
  {
    var hz := Horizon(h, w);
    HorizonBounds(h, w);
    ClientIdle(h, n, w, hz);
    if forall e :: e in h ==> e.name != n {
      var g := Haunted(h, w, hz);
      HauntedMembers(h, w, hz);
      assert forall e :: e in g ==> e.name != n;
      ClientIdle(g, n, w, hz);
    } else {
      var e :| e in h && e.name == n;
      PhantomMember(h, w, hz, e);
      var g := Haunted(h, w, hz);
      RunningThroughout(g, Entry(n, w, hz + 1.0), w, hz);
    }
  }

  /** An entry that runs throughout a window is charged something, unless the window is empty. */
  lemma {:induction false} RunningThroughout(g: seq<Entry>, e: Entry, a: real, b: real)
    requires a <= b && e in g && e.start <= a && b <= e.end
    ensures Usage(g, e.name, a, b) == 0.0 <==> a == b
  {
    UsageBounds(g, e.name, a, b);
    ChargedThroughout(g, e, a, b);
    AreaPositive(b - a, 1.0 / |g| as real);
  }

  lemma {:induction false} ChargedThroughout(g: seq<Entry>, e: Entry, a: real, b: real)
    requires a <= b && e in g && e.start <= a && b <= e.end
    ensures Area(b - a, 1.0 / |g| as real) <= Usage(g, e.name, a, b)
  {
    forall t | a <= t < b
      ensures 1.0 / |g| as real <= Share(g, e.name, t)
    {
      ShareAtLeast(g, e, t);
    }
    UsageAtLeast(g, e.name, a, b, 1.0 / |g| as real);
  }

  lemma {:induction false} UsageAtLeast(h: seq<Entry>, n: string, a: real, b: real, c: real)
    requires a <= b && forall t :: a <= t < b ==> c <= Share(h, n, t)
    ensures Area(b - a, c) <= Usage(h, n, a, b)
  {
    var p, line := Breaks(h, a, b), [a, b];
    BreaksPartition(h, a, b);
    UsageByPartition(h, n, h, p, a, b);
    LineIntegral(a, b, c);
    assert forall t :: a <= t < b ==> ShareFn(h, n)(t) == Share(h, n, t);
    hide Area, Integral;
    IntegralMono(Constant(c), line, ShareFn(h, n), p);
  }

  lemma {:induction false} UsageAtMost(h: seq<Entry>, n: string, a: real, b: real, c: real)
    requires a <= b && forall t :: a <= t < b ==> Share(h, n, t) <= c
    ensures Usage(h, n, a, b) <= Area(b - a, c)
  {
    var p, line := Breaks(h, a, b), [a, b];
    BreaksPartition(h, a, b);
    UsageByPartition(h, n, h, p, a, b);
    LineIntegral(a, b, c);
    assert forall t :: a <= t < b ==> ShareFn(h, n)(t) == Share(h, n, t);
    hide Area, Integral;
    IntegralMono(ShareFn(h, n), p, Constant(c), line);
  }

  lemma {:induction false} LineIntegral(a: real, b: real, c: real)
    ensures Integral(Constant(c), [a, b]) == Area(b - a, c)
  {
    assert [a, b][1..] == [b];
  }

  /** How many entries belong to client `n`. */
  function EntriesOf(h: seq<Entry>, n: string): nat {
    if h == [] then 0 else (if h[0].name == n then 1 else 0) + EntriesOf(h[1..], n)
  }

  /** Equal splitting: of entries that all run throughout, each is charged the same part of the time. */
  lemma {:induction false} EqualSplit(h: seq<Entry>, n: string, a: real, b: real)
    requires a <= b && h != [] && forall e :: e in h ==> e.start <= a && b <= e.end
    ensures Usage(h, n, a, b) == (b - a) * (EntriesOf(h, n) as real / |h| as real)
  {
    hide Usage;
    var c := EntriesOf(h, n) as real / |h| as real;
    forall t | a <= t < b
      ensures Share(h, n, t) == c
    {
      AllRunning(h, n, t);
    }
    UsageAtLeast(h, n, a, b, c);
    UsageAtMost(h, n, a, b, c);
  }

  lemma {:induction false} AllRunning(h: seq<Entry>, n: string, t: real)
    requires forall e :: e in h ==> Running(e, t)
    ensures Active(h, Anyone, t) == |h| && Active(h, Only(n), t) == EntriesOf(h, n)
  {
    if h != [] {
      assert h[0] in h;
      AllRunning(h[1..], n, t);
    }
  }

  lemma {:induction false} AreaPositive(x: real, y: real)
    requires 0.0 <= x && 0.0 < y
    ensures Area(x, y) >= 0.0 && (Area(x, y) == 0.0 <==> x == 0.0)
  {
  }

  lemma {:induction false} ClientIdle(h: seq<Entry>, n: string, a: real, b: real)
    requires a <= b && forall e :: e in h && e.name == n ==> e.end <= a
    ensures Usage(h, n, a, b) == 0.0
  {
    forall t | a <= t < b
      ensures Share(h, n, t) <= Share([], n, t)
    {
      ClientNotRunning(h, n, t);
    }
    UsageMono(h, [], n, a, b);
    EmptyUsage(n, a, b);
    UsageBounds(h, n, a, b);
  }

  lemma {:induction false} ClientNotRunning(h: seq<Entry>, n: string, t: real)
    requires forall e :: e in h && e.name == n ==> !Running(e, t)
    ensures Active(h, Only(n), t) == 0
  {
    if h != [] {
      assert h[0] in h;
      assert forall e :: e in h[1..] ==> e in h;
      ClientNotRunning(h[1..], n, t);
    }
  }

  /**
   * A concrete failure: client "a" ended exactly at the window start 5 and pruning keeps it, client
   * "b" ran from 6 to 8.  The declared usage of "a" is zero, the swept one is not.
   */
  lemma {:induction false} BoundaryEntryMischarged()
    ensures var h := [Entry("a", 1.0, 5.0), Entry("b", 6.0, 8.0)];
            Proper(h) && Kept(h, 5.0) == h && Horizon(h, 5.0) == 8.0
            && Usage(h, "a", 5.0, 8.0) == 0.0 && Swept(h, "a", 5.0) != 0.0
  {
    hide Usage, Swept;
    var a, b := Entry("a", 1.0, 5.0), Entry("b", 6.0, 8.0);
    var h := [a, b];
    assert h[1..] == [b] && [b][1..] == [];
    assert Kept([b], 5.0) == [b] + Kept([], 5.0);
    assert Horizon([b], 5.0) == Max(8.0, Horizon([], 5.0));
    assert a in h && b in h;
    PhantomCharged(h, "a", 5.0);
  }
}
