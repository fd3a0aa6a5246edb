/**
 * The overlap sweep of `select_candidate`: start and end stamps in time order, a vector of the
 * names running right now, and equal splitting of every slice.  It is proved equal to the
 * declarative usage for every order that sorting may give to equal stamps.
 */
module Sweep {
  import opened Reals
  import opened StepIntegral
  import opened UsageModel

  /** A start is encoded as a negative time, an end as a positive one. */
  datatype Stamp = Stamp(name: string, time: real)

  function Stamps(h: seq<Entry>): seq<Stamp> {
    if h == [] then []
    else [Stamp(h[0].name, -h[0].start), Stamp(h[0].name, h[0].end)] + Stamps(h[1..])
  }

  ghost predicate ByTime(ts: seq<Stamp>) {
    forall i, j :: 0 <= i < j < |ts| ==> Abs(ts[i].time) <= Abs(ts[j].time)
  }

  /** `ts` is one of the results an unstable sort by absolute time may produce. */
  ghost predicate Arranged(ts: seq<Stamp>, h: seq<Entry>) {
    multiset(ts) == multiset(Stamps(h)) && ByTime(ts)
  }

  function Lookup(usage: map<string, real>, n: string): real {
    if n in usage then usage[n] else 0.0
  }

  /** The latest time mentioned by the history, or the window start if that is later. */
  ghost function Horizon(h: seq<Entry>, w: real): real {
    if h == [] then w else Max(h[0].end, Horizon(h[1..], w))
  }

  /**
   * The history as the sweep sees it.  The prefix loop takes every stamp up to the window start
   * for a start, so an entry that ended there appears twice and is never removed.
   */
  ghost function Haunted(h: seq<Entry>, w: real, hz: real): seq<Entry> {
    if h == [] then []
    else if h[0].end <= w then
      [Entry(h[0].name, w, hz + 1.0), Entry(h[0].name, w, hz + 1.0)] + Haunted(h[1..], w, hz)
    else [h[0]] + Haunted(h[1..], w, hz)
  }

  /** What the sweep leaves in `usage[n]`. */
  ghost function Swept(h: seq<Entry>, n: string, w: real): real {
    HorizonBounds(h, w);
    Usage(Haunted(h, w, Horizon(h, w)), n, w, Horizon(h, w))
  }

  lemma {:induction false} HorizonBounds(h: seq<Entry>, w: real)
    ensures w <= Horizon(h, w)
    ensures forall e :: e in h ==> e.end <= Horizon(h, w)
  {
    if h != [] {
      HorizonBounds(h[1..], w);
      assert forall e :: e in h ==> e == h[0] || e in h[1..];
    }
  }

  lemma {:induction false} HorizonLeast(h: seq<Entry>, w: real, x: real)
    requires w <= x && forall e :: e in h ==> e.end <= x
    ensures Horizon(h, w) <= x
  {
    if h != [] {
      HorizonLeast(h[1..], w, x);
    }
  }

  // ----- sums of weights over stamps

  ghost function Sum(ts: seq<Stamp>, f: Stamp -> int): int {
    if ts == [] then 0 else f(ts[0]) + Sum(ts[1..], f)
  }

  lemma {:induction false} SumConcat(s: seq<Stamp>, t: seq<Stamp>, f: Stamp -> int)
    ensures Sum(s + t, f) == Sum(s, f) + Sum(t, f)
  {
    if s == [] {
      assert s + t == t;
    } else {
      assert (s + t)[1..] == s[1..] + t;
      SumConcat(s[1..], t, f);
    }
  }

  lemma {:induction false} SumPermuted(s: seq<Stamp>, t: seq<Stamp>, f: Stamp -> int)
    requires multiset(s) == multiset(t)
    ensures Sum(s, f) == Sum(t, f)
  {
    if s == [] {
      assert |t| == |multiset(t)| == 0;
    } else {
      assert s[0] in multiset(t);
      var i :| 0 <= i < |t| && t[i] == s[0];
      RemoveOne(s, t, i);
      SumPermuted(s[1..], t[..i] + t[i + 1..], f);
      assert t == t[..i] + ([t[i]] + t[i + 1..]);
      SumConcat(t[..i], [t[i]] + t[i + 1..], f);
      SumConcat(t[..i], t[i + 1..], f);
    }
  }

  lemma {:induction false} RemoveOne(s: seq<Stamp>, t: seq<Stamp>, i: nat)
    requires s != [] && i < |t| && t[i] == s[0] && multiset(s) == multiset(t)
    ensures multiset(s[1..]) == multiset(t[..i] + t[i + 1..])
  {
    assert s == [s[0]] + s[1..];
    assert t == t[..i] + [t[i]] + t[i + 1..];
    assert multiset(s[1..]) == multiset(s) - multiset{s[0]};
    assert multiset(t[..i] + t[i + 1..]) == multiset(t) - multiset{t[i]};
  }

  lemma {:induction false} SumMono(ts: seq<Stamp>, f: Stamp -> int, g: Stamp -> int)
    requires forall s :: s in ts ==> f(s) <= g(s)
    ensures Sum(ts, f) <= Sum(ts, g)
  {
    if ts != [] {
      SumMono(ts[1..], f, g);
    }
  }

  /** The change a stamp makes to the number of running names of `who`. */
  ghost function Delta(who: Who, w: real): Stamp -> int {
    (s: Stamp) => if !Of(s.name, who) then 0 else if Abs(s.time) <= w || s.time < 0.0 then 1 else -1
  }

  /** The changes made up to and including time `x`. */
  ghost function UpTo(who: Who, w: real, x: real): Stamp -> int {
    (s: Stamp) => if Abs(s.time) <= x then Delta(who, w)(s) else 0
  }

  /** The changes made before `x`, and the removals at `x`: the worst order of ties. */
  ghost function Floor(who: Who, w: real, x: real): Stamp -> int {
    (s: Stamp) => if Abs(s.time) < x || (Abs(s.time) == x && Delta(who, w)(s) < 0) then Delta(who, w)(s) else 0
  }

  lemma {:induction false} SumPair(s: Stamp, t: Stamp, rest: seq<Stamp>, f: Stamp -> int)
    ensures Sum([s, t] + rest, f) == f(s) + f(t) + Sum(rest, f)
  {
    assert ([s, t] + rest)[1..] == [t] + rest;
    assert ([t] + rest)[1..] == rest;
  }

  lemma {:induction false} DeltaValues(e: Entry, who: Who, w: real)
    requires 0.0 < e.start <= e.end
    ensures Delta(who, w)(Stamp(e.name, -e.start)) == if Of(e.name, who) then 1 else 0
    ensures Delta(who, w)(Stamp(e.name, e.end))
            == if !Of(e.name, who) then 0 else if e.end <= w then 1 else -1
  {
  }

  lemma {:induction false} UpToIsActive(h: seq<Entry>, who: Who, w: real, x: real, hz: real)
    requires Proper(h) && w <= x <= hz
    ensures Sum(Stamps(h), UpTo(who, w, x)) == Active(Haunted(h, w, hz), who, x)
  {
    if h != [] {
      var e := h[0];
      assert e in h;
      UpToIsActive(h[1..], who, w, x, hz);
      DeltaValues(e, who, w);
      SumPair(Stamp(e.name, -e.start), Stamp(e.name, e.end), Stamps(h[1..]), UpTo(who, w, x));
      if e.end <= w {
        var g := Entry(e.name, w, hz + 1.0);
        ActiveConcat([g, g], Haunted(h[1..], w, hz), who, x);
        assert [g, g][1..] == [g];
      } else {
        ActiveConcat([e], Haunted(h[1..], w, hz), who, x);
      }
    }
  }

  lemma {:induction false} FloorNonnegative(h: seq<Entry>, who: Who, w: real, x: real)
    requires Proper(h)
    ensures Sum(Stamps(h), Floor(who, w, x)) >= 0
  {
    if h != [] {
      var e := h[0];
      assert e in h;
      FloorNonnegative(h[1..], who, w, x);
      DeltaValues(e, who, w);
      SumPair(Stamp(e.name, -e.start), Stamp(e.name, e.end), Stamps(h[1..]), Floor(who, w, x));
    }
  }

  // ----- prefixes of an arranged sequence

  /** At a moment strictly between stamps the balance is the number of running entries. */
  lemma {:induction false} PrefixIsActive(h: seq<Entry>, ts: seq<Stamp>, i: nat, who: Who, w: real, x: real, hz: real)
    requires Proper(h) && Arranged(ts, h) && i <= |ts| && w <= x <= hz
    requires forall j :: 0 <= j < i ==> Abs(ts[j].time) <= x
    requires forall j :: i <= j < |ts| ==> x < Abs(ts[j].time)
    ensures Sum(ts[..i], Delta(who, w)) == Active(Haunted(h, w, hz), who, x)
  {
    var f, g := Delta(who, w), UpTo(who, w, x);
    assert ts == ts[..i] + ts[i..];
    SumConcat(ts[..i], ts[i..], g);
    SumMono(ts[..i], f, g);
    SumMono(ts[..i], g, f);
    SumZero(ts[i..], g);
    SumPermuted(ts, Stamps(h), g);
    UpToIsActive(h, who, w, x, hz);
  }

  lemma {:induction false} SumZero(ts: seq<Stamp>, f: Stamp -> int)
    requires forall s :: s in ts ==> f(s) == 0
    ensures Sum(ts, f) == 0
  {
    if ts != [] {
      SumZero(ts[1..], f);
    }
  }

  /** No order of ties brings a prefix below the floor. */
  lemma {:induction false} PrefixAboveFloor(h: seq<Entry>, ts: seq<Stamp>, i: nat, who: Who, w: real)
    requires Arranged(ts, h) && i < |ts|
    ensures Sum(ts[..i + 1], Delta(who, w)) >= Sum(Stamps(h), Floor(who, w, Abs(ts[i].time)))
  {
    var x := Abs(ts[i].time);
    var f, g := Delta(who, w), Floor(who, w, x);
    var pre, post := ts[..i + 1], ts[i + 1..];
    assert ts == pre + post;
    forall s | s in pre
      ensures g(s) <= f(s)
    {
      var j :| 0 <= j <= i && ts[j] == s;
      assert Abs(s.time) <= x;
    }
    forall s | s in post
      ensures g(s) <= 0
    {
      var j :| i < j < |ts| && ts[j] == s;
      assert x <= Abs(s.time);
    }
    SumConcat(pre, post, g);
    SumMono(pre, g, f);
    SumNonpositive(post, g);
    SumPermuted(ts, Stamps(h), g);
  }

  /** No prefix ever removes more names than it added, however ties are ordered. */
  lemma {:induction false} PrefixNonnegative(h: seq<Entry>, ts: seq<Stamp>, i: nat, who: Who, w: real)
    requires Proper(h) && Arranged(ts, h) && i < |ts|
    ensures Sum(ts[..i + 1], Delta(who, w)) >= 0
  {
    PrefixAboveFloor(h, ts, i, who, w);
    FloorNonnegative(h, who, w, Abs(ts[i].time));
  }

  lemma {:induction false} SumNonpositive(ts: seq<Stamp>, f: Stamp -> int)
    requires forall s :: s in ts ==> f(s) <= 0
    ensures Sum(ts, f) <= 0
  {
    if ts != [] {
      SumNonpositive(ts[1..], f);
    }
  }

  // ----- the vector of running names

  ghost function Occ(v: seq<string>, who: Who): nat {
    if v == [] then 0 else (if Of(v[0], who) then 1 else 0) + Occ(v[1..], who)
  }

  lemma {:induction false} OccConcat(u: seq<string>, v: seq<string>, who: Who)
    ensures Occ(u + v, who) == Occ(u, who) + Occ(v, who)
  {
    if u == [] {
      assert u + v == v;
    } else {
      assert (u + v)[1..] == u[1..] + v;
      OccConcat(u[1..], v, who);
    }
  }

  lemma {:induction false} OccAnyone(v: seq<string>)
    ensures Occ(v, Anyone) == |v|
  {
    if v != [] {
      OccAnyone(v[1..]);
    }
  }

  lemma {:induction false} OccMember(v: seq<string>, n: string)
    ensures Occ(v, Only(n)) > 0 <==> n in v
  {
    if v != [] {
      OccMember(v[1..], n);
      assert n in v <==> n == v[0] || n in v[1..];
    }
  }

  /** The vector holds, name by name, the balance of the stamps taken so far. */
  ghost predicate Tracks(v: seq<string>, prefix: seq<Stamp>, w: real) {
    forall who :: Occ(v, who) == Sum(prefix, Delta(who, w))
  }

  lemma {:induction false} TracksPush(v: seq<string>, prefix: seq<Stamp>, s: Stamp, w: real)
    requires Tracks(v, prefix, w) && (Abs(s.time) <= w || s.time < 0.0)
    ensures Tracks(v + [s.name], prefix + [s], w)
  {
    forall who
      ensures Occ(v + [s.name], who) == Sum(prefix + [s], Delta(who, w))
    {
      OccConcat(v, [s.name], who);
      SumConcat(prefix, [s], Delta(who, w));
    }
  }

  lemma {:induction false} TracksErase(v: seq<string>, j: nat, prefix: seq<Stamp>, s: Stamp, w: real)
    requires Tracks(v, prefix, w) && j < |v| && v[j] == s.name
    requires w < Abs(s.time) && 0.0 <= s.time
    ensures Tracks(v[..j] + v[j + 1..], prefix + [s], w)
  {
    forall who
      ensures Occ(v[..j] + v[j + 1..], who) == Sum(prefix + [s], Delta(who, w))
    {
      assert v == v[..j] + ([v[j]] + v[j + 1..]);
      OccConcat(v[..j], [v[j]] + v[j + 1..], who);
      OccConcat([v[j]], v[j + 1..], who);
      OccConcat(v[..j], v[j + 1..], who);
      SumConcat(prefix, [s], Delta(who, w));
    }
  }

  /** An end stamp always finds its name in the vector. */
  lemma {:induction false} EndFindsName(h: seq<Entry>, ts: seq<Stamp>, i: nat, v: seq<string>, w: real)
    requires Proper(h) && Arranged(ts, h) && i < |ts| && Tracks(v, ts[..i], w)
    requires w < Abs(ts[i].time) && 0.0 <= ts[i].time
    ensures ts[i].name in v
  {
    var who := Only(ts[i].name);
    PrefixNonnegative(h, ts, i, who, w);
    assert ts[..i + 1] == ts[..i] + [ts[i]];
    SumConcat(ts[..i], [ts[i]], Delta(who, w));
    assert Occ(v, who) == Sum(ts[..i], Delta(who, w));
    OccMember(v, ts[i].name);
  }

  // ----- the loops

  /** The equal part of a slice that each of `cnt` running names gets. */
  function Portion(slice: real, cnt: nat): real {
    if cnt == 0 then 0.0 else slice / cnt as real
  }

  lemma {:induction false} PortionIsShare(slice: real, occ: nat, cnt: nat)
    ensures Area(occ as real, Portion(slice, cnt)) == Area(slice, Ratio(occ, cnt))
  {
  }

  /** Turns the history into stamps and gives every client in it an entry of zero. */
  method CollectStamps(h: seq<Entry>) returns (ts: seq<Stamp>, usage: map<string, real>)
    ensures ts == Stamps(h)
    ensures forall n :: n in usage <==> exists e :: e in h && e.name == n
    ensures forall n :: n in usage ==> usage[n] == 0.0
  {
    ts, usage := [], map[];
    for i := 0 to |h|
      invariant ts == Stamps(h[..i])
      invariant forall n :: n in usage <==> exists j :: 0 <= j < i && h[j].name == n
      invariant forall n :: n in usage ==> usage[n] == 0.0
    {
      ts := ts + [Stamp(h[i].name, -h[i].start), Stamp(h[i].name, h[i].end)];
      usage := usage[h[i].name := 0.0];
      assert h[..i + 1] == h[..i] + [h[i]];
      StampsConcat(h[..i], [h[i]]);
    }
    assert h[..|h|] == h;
  }

  lemma {:induction false} StampsConcat(g: seq<Entry>, h: seq<Entry>)
    ensures Stamps(g + h) == Stamps(g) + Stamps(h)
  {
    if g == [] {
      assert g + h == h;
    } else {
      assert (g + h)[1..] == g[1..] + h;
      StampsConcat(g[1..], h);
    }
  }

  lemma {:induction false} OneMore(k: nat, p: real)
    ensures Area((k + 1) as real, p) == Area(k as real, p) + p
  {
  }

  /** Charges one slice to every running name, once per occurrence. */
  method ChargeSlice(usage: map<string, real>, running: seq<string>, slice: real, cnt: nat)
    returns (charged: map<string, real>)
    requires cnt == |running|
    requires forall n :: n in running ==> n in usage
    ensures charged.Keys == usage.Keys
    ensures forall n :: Lookup(charged, n)
                        == Lookup(usage, n) + Area(Occ(running, Only(n)) as real, Portion(slice, cnt))
  {
    charged := usage;
    for j := 0 to |running|
      invariant charged.Keys == usage.Keys
      invariant forall n :: Lookup(charged, n)
                            == Lookup(usage, n) + Area(Occ(running[..j], Only(n)) as real, Portion(slice, cnt))
    {
      forall n
        ensures Area(Occ(running[..j + 1], Only(n)) as real, Portion(slice, cnt))
                == Area(Occ(running[..j], Only(n)) as real, Portion(slice, cnt))
                   + (if running[j] == n then Portion(slice, cnt) else 0.0)
      {
        assert running[..j + 1] == running[..j] + [running[j]];
        OccConcat(running[..j], [running[j]], Only(n));
        OneMore(Occ(running[..j], Only(n)), Portion(slice, cnt));
      }
      hide Area, Occ;
      charged := charged[running[j] := charged[running[j]] + slice / cnt as real];
    }
    assert running[..|running|] == running;
  }

  /** Erases the first occurrence of `name`; the vector is unchanged if there is none. */
  method EraseFirst(running: seq<string>, name: string) returns (rest: seq<string>, ghost j: nat)
    ensures name in running ==> j < |running| && running[j] == name && name !in running[..j]
                                && rest == running[..j] + running[j + 1..]
    ensures name !in running ==> rest == running
  {
    j := 0;
    for i := 0 to |running|
      invariant name !in running[..i]
    {
      if running[i] == name {
        j := i;
        rest := running[..i] + running[i + 1..];
        return;
      }
    }
    rest := running;
  }

  /** The partition the sweep has walked: the window start and the stamps after it. */
  ghost function Points(w: real, ts: seq<Stamp>): seq<real> {
    [w] + seq(|ts|, i requires 0 <= i < |ts| => Abs(ts[i].time))
  }

  lemma {:induction false} PointsSnoc(w: real, ts: seq<Stamp>, s: Stamp)
    ensures Points(w, ts + [s]) == Points(w, ts) + [Abs(s.time)]
  {
  }

  /** One slice of the sweep is one slice of the integral. */
  lemma {:induction false} SliceStep(h: seq<Entry>, ts: seq<Stamp>, i: nat, v: seq<string>, w: real, hz: real,
                  p: seq<real>, n: string)
    requires Proper(h) && Arranged(ts, h) && i < |ts| && Tracks(v, ts[..i], w)
    requires p != [] && Ascending(p) && w <= Last(p) <= Abs(ts[i].time) && Last(p) <= hz
    requires forall j :: 0 <= j < i ==> Abs(ts[j].time) <= Last(p)
    ensures var x := Abs(ts[i].time); var g := ShareFn(Haunted(h, w, hz), n);
            Ascending(p + [x])
            && Integral(g, p + [x])
               == Integral(g, p) + Area(Occ(v, Only(n)) as real, Portion(x - Last(p), |v|))
  {
    var x, y := Abs(ts[i].time), Last(p);
    var g := ShareFn(Haunted(h, w, hz), n);
    IntegralSnoc(g, p, x);
    PortionIsShare(x - y, Occ(v, Only(n)), |v|);
    if y < x {
      VectorShare(h, ts, i, v, w, hz, y, n);
    }
    AreaMono(x - y, g(y), x - y, Ratio(Occ(v, Only(n)), |v|));
    AreaMono(x - y, Ratio(Occ(v, Only(n)), |v|), x - y, g(y));
  }

  /** Strictly between stamps the vector yields exactly the declarative share. */
  lemma {:induction false} VectorShare(h: seq<Entry>, ts: seq<Stamp>, i: nat, v: seq<string>, w: real, hz: real,
                    y: real, n: string)
    requires Proper(h) && Arranged(ts, h) && i < |ts| && Tracks(v, ts[..i], w)
    requires w <= y < Abs(ts[i].time) && y <= hz
    requires forall j :: 0 <= j < i ==> Abs(ts[j].time) <= y
    ensures Share(Haunted(h, w, hz), n, y) == Ratio(Occ(v, Only(n)), |v|)
  {
    PrefixIsActive(h, ts, i, Only(n), w, y, hz);
    PrefixIsActive(h, ts, i, Anyone, w, y, hz);
    assert Occ(v, Only(n)) == Sum(ts[..i], Delta(Only(n), w));
    assert Occ(v, Anyone) == Sum(ts[..i], Delta(Anyone, w));
    OccAnyone(v);
  }

  /** Every name in the vector occurred in a stamp, hence in the history. */
  ghost predicate Known(v: seq<string>, usage: map<string, real>) {
    forall n :: n in v ==> n in usage
  }

  lemma {:induction false} StampMembers(h: seq<Entry>)
    ensures forall s :: s in Stamps(h) <==>
                        exists e :: e in h && (s == Stamp(e.name, -e.start) || s == Stamp(e.name, e.end))
  {
    if h != [] {
      StampMembers(h[1..]);
      forall s
        ensures s in Stamps(h) <==>
                exists e :: e in h && (s == Stamp(e.name, -e.start) || s == Stamp(e.name, e.end))
      {
        if s in Stamps(h) && s != Stamp(h[0].name, -h[0].start) && s != Stamp(h[0].name, h[0].end) {
          assert s in Stamps(h[1..]);
          var e :| e in h[1..] && (s == Stamp(e.name, -e.start) || s == Stamp(e.name, e.end));
          assert e in h;
        }
        assert h[0] in h;
        assert Stamps(h)[0] == Stamp(h[0].name, -h[0].start) && Stamps(h)[1] == Stamp(h[0].name, h[0].end);
      }
    }
  }

  /** The stamps after the prefix cut the swept history at every start and end in the window. */
  lemma {:induction false} PointsHit(h: seq<Entry>, ts: seq<Stamp>, k: nat, w: real, hz: real)
    requires Proper(h) && Arranged(ts, h) && k <= |ts|
    requires forall j :: 0 <= j < k ==> Abs(ts[j].time) <= w
    requires Last(Points(w, ts[k..])) <= hz
    ensures Hits(Haunted(h, w, hz), Points(w, ts[k..]))
  {
    hide Stamps, Haunted;
    var p := Points(w, ts[k..]);
    HauntedMembers(h, w, hz);
    StampMembers(h);
    forall e | e in Haunted(h, w, hz)
      ensures Hit(e.start, p) && Hit(e.end, p)
    {
      if e in h {
        assert Stamp(e.name, -e.start) in Stamps(h) && Stamp(e.name, e.end) in Stamps(h);
        StampHit(ts, k, w, Stamp(e.name, -e.start));
        StampHit(ts, k, w, Stamp(e.name, e.end));
      }
    }
  }

  lemma {:induction false} StampHit(ts: seq<Stamp>, k: nat, w: real, s: Stamp)
    requires k <= |ts| && s in multiset(ts)
    requires forall j :: 0 <= j < k ==> Abs(ts[j].time) <= w
    ensures Hit(Abs(s.time), Points(w, ts[k..]))
  {
    var j :| 0 <= j < |ts| && ts[j] == s;
    if k <= j {
      assert Points(w, ts[k..])[j - k + 1] == Abs(s.time);
    }
  }

  lemma {:induction false} HauntedMembers(h: seq<Entry>, w: real, hz: real)
    ensures forall e :: e in Haunted(h, w, hz) ==>
                        (e in h && w < e.end)
                        || (e.start == w && e.end == hz + 1.0 && exists d :: d in h && d.name == e.name && d.end <= w)
  {
    if h != [] {
      HauntedMembers(h[1..], w, hz);
      forall e | e in Haunted(h, w, hz)
        ensures (e in h && w < e.end)
                || (e.start == w && e.end == hz + 1.0 && exists d :: d in h && d.name == e.name && d.end <= w)
      {
        assert h[0] in h && forall d :: d in h[1..] ==> d in h;
        if e in Haunted(h[1..], w, hz) {
        } else {
          assert e == h[0] || (h[0].end <= w && e == Entry(h[0].name, w, hz + 1.0));
        }
      }
    }
  }

  /** The sweep ends at the horizon. */
  lemma {:induction false} EndsAtHorizon(h: seq<Entry>, ts: seq<Stamp>, k: nat, w: real)
    requires Proper(h) && Arranged(ts, h) && k <= |ts|
    requires forall j :: 0 <= j < k ==> Abs(ts[j].time) <= w
    requires forall j :: k <= j < |ts| ==> w < Abs(ts[j].time)
    ensures Last(Points(w, ts[k..])) == Horizon(h, w)
  {
    var x := Last(Points(w, ts[k..]));
    HorizonBounds(h, w);
    if k < |ts| {
      assert x == Abs(ts[|ts| - 1].time);
      StampBelowHorizon(h, ts, |ts| - 1, w);
    }
    forall e | e in h
      ensures e.end <= x
    {
      var j := EndStampAt(h, ts, e);
      assert Abs(ts[j].time) <= x;
    }
    HorizonLeast(h, w, x);
  }

  lemma {:induction false} StampBelowHorizon(h: seq<Entry>, ts: seq<Stamp>, j: nat, w: real)
    requires Proper(h) && Arranged(ts, h) && j < |ts|
    ensures Abs(ts[j].time) <= Horizon(h, w)
  {
    HorizonBounds(h, w);
    StampMembers(h);
    var s := ts[j];
    assert s in multiset(ts);
    assert s in Stamps(h);
    var e :| e in h && (s == Stamp(e.name, -e.start) || s == Stamp(e.name, e.end));
  }

  lemma {:induction false} EndStampAt(h: seq<Entry>, ts: seq<Stamp>, e: Entry) returns (j: nat)
    requires Proper(h) && Arranged(ts, h) && e in h
    ensures j < |ts| && ts[j] == Stamp(e.name, e.end)
  {
    StampMembers(h);
    assert Stamp(e.name, e.end) in Stamps(h);
    assert Stamp(e.name, e.end) in multiset(ts);
    j :| 0 <= j < |ts| && ts[j] == Stamp(e.name, e.end);
  }

  /** What holds before the `i`-th stamp is taken; `k` is the first stamp after the window start. */
  ghost predicate Midway(h: seq<Entry>, ts: seq<Stamp>, k: nat, i: nat, w: real,
                         running: seq<string>, usage: map<string, real>, current: real)
    requires k <= i <= |ts|
  {
    && Tracks(running, ts[..i], w) && Known(running, usage)
    && Ascending(Points(w, ts[k..i])) && Last(Points(w, ts[k..i])) == current
    && w <= current <= Horizon(h, w)
    && (forall j :: 0 <= j < i ==> Abs(ts[j].time) <= current)
    && (forall n :: Lookup(usage, n)
                    == Integral(ShareFn(Haunted(h, w, Horizon(h, w)), n), Points(w, ts[k..i])))
  }

  lemma {:induction false} MidwayStart(
    h: seq<Entry>, ts: seq<Stamp>, k: nat, w: real, running: seq<string>, usage: map<string, real>)
    requires k <= |ts| && Tracks(running, ts[..k], w) && Known(running, usage)
    requires forall j :: 0 <= j < k ==> Abs(ts[j].time) <= w
    requires forall n :: n in usage ==> usage[n] == 0.0
    ensures Midway(h, ts, k, k, w, running, usage, w)
  {
    HorizonBounds(h, w);
    assert Points(w, ts[k..k]) == [w];
  }

  lemma {:induction false} MidwayEnd(h: seq<Entry>, ts: seq<Stamp>, k: nat, w: real, running: seq<string>,
                  usage: map<string, real>, current: real)
    requires Proper(h) && Arranged(ts, h) && k <= |ts|
    requires forall j :: 0 <= j < k ==> Abs(ts[j].time) <= w
    requires forall j :: k <= j < |ts| ==> w < Abs(ts[j].time)
    requires Midway(h, ts, k, |ts|, w, running, usage, current)
    ensures forall n :: Lookup(usage, n) == Swept(h, n, w)
  {
    var hz := Horizon(h, w);
    assert ts[k..|ts|] == ts[k..];
    EndsAtHorizon(h, ts, k, w);
    PointsHit(h, ts, k, w, hz);
    forall n
      ensures Lookup(usage, n) == Swept(h, n, w)
    {
      UsageByPartition(Haunted(h, w, hz), n, Haunted(h, w, hz), Points(w, ts[k..]), w, hz);
    }
  }

  /** The body of the main loop: charge the slice up to the stamp, then start or end its entry. */
  method TakeStamp(ghost h: seq<Entry>, ts: seq<Stamp>, ghost k: nat, i: nat, windowStart: real,
                   running: seq<string>, overlap: nat, usage: map<string, real>, current: real)
    returns (running': seq<string>, overlap': nat, usage': map<string, real>)
    requires Proper(h) && Arranged(ts, h) && k <= i < |ts|
    requires Midway(h, ts, k, i, windowStart, running, usage, current) && overlap == |running|
    requires windowStart < Abs(ts[i].time) <= Horizon(h, windowStart) && current <= Abs(ts[i].time)
    requires ts[i].name in usage
    ensures Midway(h, ts, k, i + 1, windowStart, running', usage', Abs(ts[i].time))
    ensures overlap' == |running'| && usage'.Keys == usage.Keys
  {
    ghost var w := windowStart;
    usage' := ChargeSlice(usage, running, Abs(ts[i].time) - current, overlap);
    if ts[i].time < 0.0 {
      TracksPush(running, ts[..i], ts[i], w);
      running' := running + [ts[i].name];
      overlap' := overlap + 1;
    } else {
      EndFindsName(h, ts, i, running, w);
      ghost var j;
      running', j := EraseFirst(running, ts[i].name);
      TracksErase(running, j, ts[..i], ts[i], w);
      overlap' := overlap - 1;
    }
    assert ts[..i + 1] == ts[..i] + [ts[i]];
    MidwayStep(h, ts, k, i, windowStart, running, usage, current, running', usage');
  }

  /** Charging the slice up to the `i`-th stamp moves the sweep past it. */
  lemma {:induction false} MidwayStep(
    h: seq<Entry>, ts: seq<Stamp>, k: nat, i: nat, w: real, running: seq<string>, usage: map<string, real>,
    current: real, running': seq<string>, usage': map<string, real>)
    requires Proper(h) && Arranged(ts, h) && k <= i < |ts|
    requires Midway(h, ts, k, i, w, running, usage, current)
    requires current <= Abs(ts[i].time) <= Horizon(h, w)
    requires Tracks(running', ts[..i + 1], w) && Known(running', usage')
    requires forall n ::
               Lookup(usage', n)
               == Lookup(usage, n)
                  + Area(Occ(running, Only(n)) as real, Portion(Abs(ts[i].time) - current, |running|))
    ensures Midway(h, ts, k, i + 1, w, running', usage', Abs(ts[i].time))
  {
    hide Tracks, Integral, Haunted, Occ, Portion, Area;
    var hz, p, x := Horizon(h, w), Points(w, ts[k..i]), Abs(ts[i].time);
    assert ts[k..i + 1] == ts[k..i] + [ts[i]];
    PointsSnoc(w, ts[k..i], ts[i]);
    SliceStep(h, ts, i, running, w, hz, p, "");
    forall n
      ensures Lookup(usage', n) == Integral(ShareFn(Haunted(h, w, hz), n), p + [x])
    {
      SliceStep(h, ts, i, running, w, hz, p, n);
    }
  }

  /** The prefix loop: every stamp up to the window start is taken for a start. */
  method TakePrefix(ts: seq<Stamp>, windowStart: real, ghost usage: map<string, real>)
    returns (k: nat, running: seq<string>, overlap: nat)
    requires ByTime(ts)
    requires forall s :: s in ts ==> s.name in usage
    ensures k <= |ts| && overlap == |running|
    ensures forall j :: 0 <= j < k ==> Abs(ts[j].time) <= windowStart
    ensures forall j :: k <= j < |ts| ==> windowStart < Abs(ts[j].time)
    ensures Tracks(running, ts[..k], windowStart) && Known(running, usage)
  {
    k, running, overlap := 0, [], 0;
    while k < |ts| && Abs(ts[k].time) <= windowStart
      invariant 0 <= k <= |ts| && overlap == |running|
      invariant forall j :: 0 <= j < k ==> Abs(ts[j].time) <= windowStart
      invariant Tracks(running, ts[..k], windowStart) && Known(running, usage)
    {
      TracksPush(running, ts[..k], ts[k], windowStart);
      assert ts[..k + 1] == ts[..k] + [ts[k]];
      overlap := overlap + 1;
      running := running + [ts[k].name];
      k := k + 1;
    }
  }

  /**
   * The sweep.  `ts` is any arrangement of the stamps that sorting may produce; the result is the
   * declarative usage of the history the prefix loop sees.
   */
  method Run(ghost h: seq<Entry>, ts: seq<Stamp>, windowStart: real, zero: map<string, real>)
    returns (usage: map<string, real>)
    requires Proper(h) && Arranged(ts, h)
    requires forall s :: s in ts ==> s.name in zero
    requires forall n :: n in zero ==> zero[n] == 0.0
    ensures usage.Keys == zero.Keys
    ensures forall n :: Lookup(usage, n) == Swept(h, n, windowStart)
  {
    hide Swept, Midway, Tracks, Stamps;
    usage := zero;
    ghost var w, hz := windowStart, Horizon(h, windowStart);
    var k, running, overlap := TakePrefix(ts, windowStart, usage);
    EndsAtHorizon(h, ts, k, w);
    MidwayStart(h, ts, k, w, running, usage);
    var current := windowStart;
    var i := k;
    while i < |ts|
      invariant k <= i <= |ts| && overlap == |running| && usage.Keys == zero.Keys
      invariant Midway(h, ts, k, i, w, running, usage, current)
      invariant forall j :: i <= j < |ts| ==> current <= Abs(ts[j].time)
    {
      assert Abs(ts[i].time) <= Abs(ts[|ts| - 1].time) == hz;
      running, overlap, usage := TakeStamp(h, ts, k, i, windowStart, running, overlap, usage, current);
      current := Abs(ts[i].time);
      i := i + 1;
    }
    MidwayEnd(h, ts, k, w, running, usage, current);
  }
}
