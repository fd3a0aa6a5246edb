/**
 * What the scheduler means by "usage": the time a client held the GPU inside a window, where a
 * moment shared by several running entries is split equally among them.  The definition is an
 * integral over the window and mentions no sorting and no sweep.
 */
module UsageModel {
  import opened Reals
  import opened StepIntegral

  /** One grant of the token, as kept in the scheduler's history list. */
  datatype Entry = Entry(name: string, start: real, end: real)

  /** Selects the entries of one client, or all of them. */
  datatype Who = Anyone | Only(name: string)

  predicate Proper(h: seq<Entry>) {
    forall e :: e in h ==> 0.0 < e.start < e.end
  }

  predicate Running(e: Entry, t: real) {
    e.start <= t < e.end
  }

  predicate Of(name: string, who: Who) {
    who.Anyone? || name == who.name
  }

  /** How many entries of `who` are running at time `t`. */
  ghost function Active(h: seq<Entry>, who: Who, t: real): nat {
    if h == [] then 0
    else (if Of(h[0].name, who) && Running(h[0], t) then 1 else 0) + Active(h[1..], who, t)
  }

  ghost function Ratio(part: nat, whole: nat): real {
    if whole == 0 then 0.0 else part as real / whole as real
  }

  /** The fraction of the GPU that client `n` is charged for at time `t`. */
  ghost function Share(h: seq<Entry>, n: string, t: real): real {
    Ratio(Active(h, Only(n), t), Active(h, Anyone, t))
  }

  ghost function ShareFn(h: seq<Entry>, n: string): real -> real {
    t => Share(h, n, t)
  }

  // ----- partitions that respect the entries

  ghost predicate Hit(x: real, p: seq<real>)
    requires p != []
  {
    p[0] < x < Last(p) ==> x in p
  }

  ghost predicate Hits(h: seq<Entry>, p: seq<real>)
    requires p != []
  {
    forall e :: e in h ==> Hit(e.start, p) && Hit(e.end, p)
  }

  ghost predicate Partition(h: seq<Entry>, p: seq<real>, a: real, b: real) {
    p != [] && p[0] == a && Last(p) == b && Ascending(p) && Hits(h, p)
  }

  ghost function Insert(x: real, p: seq<real>): seq<real> {
    if p == [] || x <= p[0] then [x] + p else [p[0]] + Insert(x, p[1..])
  }

  ghost function Clamp(x: real, a: real, b: real): real {
    Max(a, Min(x, b))
  }

  /** The window [a, b] cut at every start and every end inside it. */
  ghost function Breaks(h: seq<Entry>, a: real, b: real): seq<real> {
    if h == [] then [a, b]
    else Insert(Clamp(h[0].start, a, b), Insert(Clamp(h[0].end, a, b), Breaks(h[1..], a, b)))
  }

  /** Usage of client `n` inside the window [a, b]. */
  ghost function Usage(h: seq<Entry>, n: string, a: real, b: real): real
    requires a <= b
  {
    Integral(ShareFn(h, n), Breaks(h, a, b))
  }

  lemma {:induction false} InsertAscending(x: real, p: seq<real>)
    requires p != [] && Ascending(p) && p[0] <= x <= Last(p)
    ensures var r := Insert(x, p);
            r != [] && Ascending(r) && r[0] == p[0] && Last(r) == Last(p)
            && x in r && forall y :: y in p ==> y in r
  {
    var r := Insert(x, p);
    if x <= p[0] {
      assert r[1..] == p && r[0] == x;
    } else {
      assert |p| > 1;
      if x < p[1] {
        assert Insert(x, p[1..]) == [x] + p[1..];
        assert r == [p[0], x] + p[1..];
        assert r[1..] == [x] + p[1..] && r[1..][1..] == p[1..];
        assert r[1] == x && forall i :: 1 <= i < |p| ==> p[i] == r[i + 1];
      } else {
        InsertAscending(x, p[1..]);
        assert r[1..] == Insert(x, p[1..]);
        assert forall y :: y in p ==> y == p[0] || y in p[1..];
      }
    }
  }

  lemma {:induction false} BreaksPartition(h: seq<Entry>, a: real, b: real)
    requires a <= b
    ensures Partition(h, Breaks(h, a, b), a, b)
  {
    if h == [] {
      assert [a, b][1..] == [b];
    } else {
      var p := Breaks(h[1..], a, b);
      BreaksPartition(h[1..], a, b);
      var q := Insert(Clamp(h[0].end, a, b), p);
      InsertAscending(Clamp(h[0].end, a, b), p);
      InsertAscending(Clamp(h[0].start, a, b), q);
    }
  }

  lemma {:induction false} HitsTail(h: seq<Entry>, p: seq<real>)
    requires |p| >= 2 && Ascending(p) && Hits(h, p)
    ensures Hits(h, p[1..])
  {
    forall e | e in h
      ensures Hit(e.start, p[1..]) && Hit(e.end, p[1..])
    {
      assert Hit(e.start, p) && Hit(e.end, p);
    }
  }

  ghost predicate SameStatus(h: seq<Entry>, t: real, u: real) {
    forall e :: e in h ==> Running(e, t) == Running(e, u)
  }

  /** `f` changes only when some entry of `h` starts or ends. */
  ghost predicate DrivenBy(f: real -> real, h: seq<Entry>) {
    forall t, u :: SameStatus(h, t, u) ==> f(t) == f(u)
  }

  lemma {:induction false} NothingInside(x: real, p: seq<real>, t: real)
    requires |p| >= 2 && Ascending(p) && Hit(x, p) && p[0] <= t < p[1]
    ensures x <= t <==> x <= p[0]
  {
    if p[0] < x <= t {
      AscendingBounds(p, 1);
      var i :| 0 <= i < |p| && p[i] == x;
      AscendingBounds(p[1..], i - 1);
      assert false;
    }
  }

  lemma {:induction false} StepsOf(f: real -> real, h: seq<Entry>, p: seq<real>)
    requires p != [] && Ascending(p) && Hits(h, p) && DrivenBy(f, h)
    ensures Steps(f, p)
  {
    if |p| >= 2 {
      forall t | p[0] <= t < p[1]
        ensures f(t) == f(p[0])
      {
        forall e | e in h
          ensures Running(e, t) == Running(e, p[0])
        {
          NothingInside(e.start, p, t);
          NothingInside(e.end, p, t);
        }
        assert SameStatus(h, t, p[0]);
      }
      HitsTail(h, p);
      StepsOf(f, h, p[1..]);
    }
  }

  lemma {:induction false} ActiveSame(h: seq<Entry>, who: Who, t: real, u: real)
    requires SameStatus(h, t, u)
    ensures Active(h, who, t) == Active(h, who, u)
  {
    if h != [] {
      ActiveSame(h[1..], who, t, u);
    }
  }

  lemma {:induction false} ShareDriven(h: seq<Entry>, n: string, g: seq<Entry>)
    requires forall e :: e in h ==> e in g
    ensures DrivenBy(ShareFn(h, n), g)
  {
    forall t, u | SameStatus(g, t, u)
      ensures ShareFn(h, n)(t) == ShareFn(h, n)(u)
    {
      assert SameStatus(h, t, u);
      ActiveSame(h, Only(n), t, u);
      ActiveSame(h, Anyone, t, u);
    }
  }

  /** Any partition that respects the entries computes the same usage. */
  lemma {:induction false} UsageByPartition(h: seq<Entry>, n: string, g: seq<Entry>, p: seq<real>, a: real, b: real)
    requires a <= b && Partition(g, p, a, b)
    requires forall e :: e in h ==> e in g
    ensures Steps(ShareFn(h, n), p)
    ensures Integral(ShareFn(h, n), p) == Usage(h, n, a, b)
  {
    ShareDriven(h, n, h);
    BreaksPartition(h, a, b);
    StepsOf(ShareFn(h, n), h, Breaks(h, a, b));
    StepsOf(ShareFn(h, n), h, p);
    IntegralEqual(ShareFn(h, n), p, ShareFn(h, n), Breaks(h, a, b));
  }

  // ----- elementary facts about shares

  lemma {:induction false} ActiveWithin(h: seq<Entry>, n: string, t: real)
    ensures Active(h, Only(n), t) <= Active(h, Anyone, t)
  {
    if h != [] {
      ActiveWithin(h[1..], n, t);
    }
  }

  lemma {:induction false} ActiveConcat(g: seq<Entry>, h: seq<Entry>, who: Who, t: real)
    ensures Active(g + h, who, t) == Active(g, who, t) + Active(h, who, t)
  {
    if g == [] {
      assert g + h == h;
    } else {
      assert (g + h)[1..] == g[1..] + h;
      ActiveConcat(g[1..], h, who, t);
    }
  }

  lemma {:induction false} RatioBounds(part: nat, whole: nat)
    requires part <= whole
    ensures 0.0 <= Ratio(part, whole) <= 1.0
  {
  }

  /** Fewer of my entries, or more entries of the others, never raise my share. */
  lemma {:induction false} RatioMono(part: nat, others: nat, part': nat, others': nat)
    requires (part' <= part && others <= others') || part' == 0
    ensures Ratio(part', part' + others') <= Ratio(part, part + others)
  {
    if part' == 0 {
      assert Ratio(part', part' + others') == 0.0;
      RatioBounds(part, part + others);
    } else {
      var x, y, x', y' := part as real, others as real, part' as real, others' as real;
      assert x' * (x + y) <= x * (x' + y') by {
        MulMono(x', y, y');
        MulMono(y', x', x);
      }
      DivMono(x', x' + y', x, x + y);
    }
  }

  lemma {:induction false} DivMono(x: real, y: real, u: real, v: real)
    requires y > 0.0 && v > 0.0 && x * v <= u * y
    ensures x / y <= u / v
  {
    var c := u / v - x / y;
    assert c * (y * v) == u * y - x * v;
  }

  lemma {:induction false} ShareBounds(h: seq<Entry>, n: string, t: real)
    ensures 0.0 <= Share(h, n, t) <= 1.0
  {
    ActiveWithin(h, n, t);
    RatioBounds(Active(h, Only(n), t), Active(h, Anyone, t));
  }

  // ----- comparing usages

  lemma {:induction false} UsageBounds(h: seq<Entry>, n: string, a: real, b: real)
    requires a <= b
    ensures 0.0 <= Usage(h, n, a, b) <= b - a
  {
    BreaksPartition(h, a, b);
    forall t
      ensures 0.0 <= ShareFn(h, n)(t) <= 1.0
    {
      ShareBounds(h, n, t);
    }
    IntegralBounds(ShareFn(h, n), Breaks(h, a, b));
  }

  lemma {:induction false} UsageMono(h: seq<Entry>, g: seq<Entry>, n: string, a: real, b: real)
    requires a <= b
    requires forall t :: a <= t < b ==> Share(h, n, t) <= Share(g, n, t)
    ensures Usage(h, n, a, b) <= Usage(g, n, a, b)
  {
    BreaksPartition(h, a, b);
    BreaksPartition(g, a, b);
    ShareDriven(h, n, h);
    ShareDriven(g, n, g);
    StepsOf(ShareFn(h, n), h, Breaks(h, a, b));
    StepsOf(ShareFn(g, n), g, Breaks(g, a, b));
    assert forall t :: ShareFn(h, n)(t) == Share(h, n, t);
    assert forall t :: ShareFn(g, n)(t) == Share(g, n, t);
    IntegralMono(ShareFn(h, n), Breaks(h, a, b), ShareFn(g, n), Breaks(g, a, b));
  }

  lemma {:induction false} UsageEqual(h: seq<Entry>, g: seq<Entry>, n: string, a: real, b: real)
    requires a <= b
    requires forall t :: a <= t < b ==> Share(h, n, t) == Share(g, n, t)
    ensures Usage(h, n, a, b) == Usage(g, n, a, b)
  {
    UsageMono(h, g, n, a, b);
    UsageMono(g, h, n, a, b);
  }

  /** Usage is additive in the window. */
  lemma {:induction false} UsageSplit(h: seq<Entry>, n: string, a: real, b: real, c: real)
    requires a <= b <= c
    ensures Usage(h, n, a, c) == Usage(h, n, a, b) + Usage(h, n, b, c)
  {
    var p, q := Breaks(h, a, b), Breaks(h, b, c);
    BreaksPartition(h, a, b);
    BreaksPartition(h, b, c);
    UsageByPartition(h, n, h, p, a, b);
    UsageByPartition(h, n, h, q, b, c);
    IntegralConcat(ShareFn(h, n), p, q);
    var r := p + q[1..];
    assert Last(r) == c;
    forall x | a < x < c && (a < x < b ==> x in p) && (b < x < c ==> x in q)
      ensures x in r
    {
      if x == b {
        assert b in p by { assert p[|p| - 1] == b; }
      } else if b < x {
        var i :| 0 <= i < |q| && q[i] == x;
        assert r[|p| + i - 1] == x;
      }
    }
    forall e | e in h
      ensures Hit(e.start, r) && Hit(e.end, r)
    {
      assert Hit(e.start, p) && Hit(e.start, q) && Hit(e.end, p) && Hit(e.end, q);
    }
    UsageByPartition(h, n, h, r, a, c);
  }

  /** A smaller window holds less usage. */
  lemma {:induction false} UsageShrink(h: seq<Entry>, n: string, a: real, b: real, a': real, b': real)
    requires a <= a' <= b' <= b
    ensures Usage(h, n, a', b') <= Usage(h, n, a, b)
  {
    UsageSplit(h, n, a, a', b);
    UsageSplit(h, n, a', b', b);
    UsageBounds(h, n, a, a');
    UsageBounds(h, n, b', b);
  }
}
