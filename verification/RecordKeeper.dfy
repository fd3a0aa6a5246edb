/**
 * `RecordKeeper`: a deque kept decreasing, so that its front is the maximum of the recent records.
 * Times are in nanoseconds, the age limit in whole milliseconds.
 */
module RecordKeeping {
  datatype Record = Record(time: int, data: real)

  /** Conversion to whole milliseconds, truncating toward zero. */
  function WholeMs(ns: int): int {
    if ns >= 0 then ns / 1_000_000 else -((-ns) / 1_000_000)
  }

  predicate Outdated(r: Record, tp: int, valid: nat) {
    WholeMs(tp - r.time) > valid
  }

  /** More than `valid` whole milliseconds old, counted in nanoseconds. */
  ghost predicate TooOld(r: Record, tp: int, valid: nat) {
    (valid + 1) * 1_000_000 <= tp - r.time
  }

  /** The comparison of truncated milliseconds is one of nanoseconds. */
  lemma {:induction false} OutdatedExactly(r: Record, tp: int, valid: nat)
    ensures Outdated(r, tp, valid) <==> TooOld(r, tp, valid)
  {
    var ns := tp - r.time;
    if ns >= 0 {
      assert ns == 1_000_000 * (ns / 1_000_000) + ns % 1_000_000;
    }
  }

  lemma {:induction false} OutdatedMono(r: Record, q: Record, tp: int, tp': int, valid: nat)
    requires q.time <= r.time && tp <= tp' && Outdated(r, tp, valid)
    ensures Outdated(q, tp', valid)
  {
  }

  // ----- the operations on values

  function PopSmaller(q: seq<Record>, x: real): (r: seq<Record>)
    ensures r <= q
  {
    if q != [] && q[|q| - 1].data < x then PopSmaller(q[..|q| - 1], x) else q
  }

  function DropOld(q: seq<Record>, tp: int, valid: nat): (r: seq<Record>)
    ensures |r| <= |q|
  {
    if q != [] && Outdated(q[0], tp, valid) then DropOld(q[1..], tp, valid) else q
  }

  function Front(q: seq<Record>): real {
    if q == [] then 0.0 else q[0].data
  }

  /** The deque with what a run of operations did to it: everything added since the last clear. */
  datatype Keeper = Keeper(records: seq<Record>, log: seq<Record>, latest: int, adds: nat, pops: nat)

  datatype Op = Add(data: real, tp: int) | Drop(tp: int) | Clear

  function Apply(k: Keeper, op: Op, valid: nat): Keeper {
    match op
    case Add(x, tp) =>
      var rest := PopSmaller(k.records, x);
      Keeper(rest + [Record(tp, x)], k.log + [Record(tp, x)], tp, k.adds + 1, k.pops + |k.records| - |rest|)
    case Drop(tp) =>
      var rest := DropOld(k.records, tp, valid);
      k.(records := rest, latest := tp, pops := k.pops + |k.records| - |rest|)
    case Clear => k.(records := [], log := [])
  }

  /** The maximum of the records that are not too old, straight from the log; 0 if there is none. */
  ghost predicate IsNaiveMax(log: seq<Record>, tp: int, valid: nat, m: real) {
    if exists r :: r in log && !TooOld(r, tp, valid)
    then (exists r :: r in log && !TooOld(r, tp, valid) && r.data == m)
         && forall r :: r in log && !TooOld(r, tp, valid) ==> r.data <= m
    else m == 0.0
  }

  /** The naive maximum is unique, so stating it pins the answer down. */
  lemma {:induction false} NaiveMaxUnique(log: seq<Record>, tp: int, valid: nat, m: real, m': real)
    requires IsNaiveMax(log, tp, valid, m) && IsNaiveMax(log, tp, valid, m')
    ensures m == m'
  {
  }

  // ----- the invariant

  ghost predicate TimesAscend(q: seq<Record>) {
    forall i, j :: 0 <= i < j < |q| ==> q[i].time <= q[j].time
  }

  ghost predicate DataDescend(q: seq<Record>) {
    forall i, j :: 0 <= i < j < |q| ==> q[i].data >= q[j].data
  }

  /** Some kept record is at least as recent and at least as large as `r`. */
  ghost predicate Dominated(r: Record, q: seq<Record>) {
    exists j :: 0 <= j < |q| && r.time <= q[j].time && r.data <= q[j].data
  }

  ghost predicate Represents(k: Keeper, valid: nat) {
    && TimesAscend(k.records) && DataDescend(k.records)
    && (forall r :: r in k.records ==> r in k.log && r.time <= k.latest)
    && (forall r :: r in k.log ==> Dominated(r, k.records) || Outdated(r, k.latest, valid))
    && k.pops + |k.records| <= k.adds
  }

  lemma {:induction false} PoppedAreSmaller(q: seq<Record>, x: real)
    requires DataDescend(q)
    ensures forall i :: |PopSmaller(q, x)| <= i < |q| ==> q[i].data < x
    ensures forall r :: r in PopSmaller(q, x) ==> r.data >= x
  {
    if q != [] && q[|q| - 1].data < x {
      PoppedAreSmaller(q[..|q| - 1], x);
    }
  }

  lemma {:induction false} AddOrdered(q: seq<Record>, x: real, tp: int)
    requires TimesAscend(q) && DataDescend(q) && forall r :: r in q ==> r.time <= tp
    ensures var q' := PopSmaller(q, x) + [Record(tp, x)];
            TimesAscend(q') && DataDescend(q')
            && forall r :: r in q' ==> (r in q || r == Record(tp, x)) && r.time <= tp
  {
    PoppedAreSmaller(q, x);
    var rest := PopSmaller(q, x);
    assert forall i :: 0 <= i < |rest| ==> rest[i] == q[i] && rest[i] in rest && rest[i] in q;
  }

  /** What was dominated stays dominated, if need be by the new record. */
  lemma {:induction false} AddDominates(q: seq<Record>, r: Record, x: real, tp: int)
    requires DataDescend(q) && Dominated(r, q) && forall p :: p in q ==> p.time <= tp
    ensures Dominated(r, PopSmaller(q, x) + [Record(tp, x)])
  {
    var rest := PopSmaller(q, x);
    var q' := rest + [Record(tp, x)];
    PoppedAreSmaller(q, x);
    var j :| 0 <= j < |q| && r.time <= q[j].time && r.data <= q[j].data;
    assert q[j] in q;
    var k := if j < |rest| then j else |rest|;
    assert r.time <= q'[k].time && r.data <= q'[k].data;
  }

  lemma {:induction false} AddKeeps(k: Keeper, x: real, tp: int, valid: nat)
    requires Represents(k, valid) && k.latest <= tp
    ensures Represents(Apply(k, Op.Add(x, tp), valid), valid)
  {
    hide Outdated, PopSmaller;
    var k' := Apply(k, Op.Add(x, tp), valid);
    AddOrdered(k.records, x, tp);
    hide TimesAscend, DataDescend;
    forall r | r in k'.log
      ensures Dominated(r, k'.records) || Outdated(r, tp, valid)
    {
      if r == Record(tp, x) {
        assert k'.records[|k'.records| - 1] == r;
      } else if Dominated(r, k.records) {
        AddDominates(k.records, r, x, tp);
      } else {
        OutdatedMono(r, r, k.latest, tp, valid);
      }
    }
  }

  lemma {:induction false} DroppedAreOld(q: seq<Record>, tp: int, valid: nat)
    requires TimesAscend(q)
    ensures var n := |q| - |DropOld(q, tp, valid)|;
            (forall i :: 0 <= i < n ==> Outdated(q[i], tp, valid))
            && (forall i :: n <= i < |q| ==> !Outdated(q[i], tp, valid))
            && DropOld(q, tp, valid) == q[n..]
  {
    hide Outdated;
    if q != [] && Outdated(q[0], tp, valid) {
      DroppedAreOld(q[1..], tp, valid);
      assert forall i :: 1 <= i < |q| ==> q[i] == q[1..][i - 1];
    } else if q != [] {
      forall i | 0 <= i < |q|
        ensures !Outdated(q[i], tp, valid)
      {
        if Outdated(q[i], tp, valid) {
          OutdatedMono(q[i], q[0], tp, tp, valid);
        }
      }
    }
  }

  lemma {:induction false} DropDominates(q: seq<Record>, r: Record, tp: int, valid: nat)
    requires TimesAscend(q) && Dominated(r, q)
    ensures Dominated(r, DropOld(q, tp, valid)) || Outdated(r, tp, valid)
  {
    hide Outdated;
    var rest := DropOld(q, tp, valid);
    var n := |q| - |rest|;
    DroppedAreOld(q, tp, valid);
    var j :| 0 <= j < |q| && r.time <= q[j].time && r.data <= q[j].data;
    if j < n {
      OutdatedMono(q[j], r, tp, tp, valid);
    } else {
      assert rest[j - n] == q[j];
    }
  }

  lemma {:induction false} DropOrdered(q: seq<Record>, tp: int, valid: nat)
    requires TimesAscend(q) && DataDescend(q)
    ensures var rest := DropOld(q, tp, valid);
            TimesAscend(rest) && DataDescend(rest)
            && forall r :: r in rest ==> r in q && !Outdated(r, tp, valid)
  {
    hide Outdated;
    var rest := DropOld(q, tp, valid);
    DroppedAreOld(q, tp, valid);
    assert forall i :: 0 <= i < |rest| ==> rest[i] == q[|q| - |rest| + i];
  }

  lemma {:induction false} DropKeeps(k: Keeper, tp: int, valid: nat)
    requires Represents(k, valid) && k.latest <= tp
    ensures Represents(Apply(k, Drop(tp), valid), valid)
  {
    hide Outdated, DropOld;
    DropOrdered(k.records, tp, valid);
    hide TimesAscend, DataDescend;
    forall r | r in k.log
      ensures Dominated(r, DropOld(k.records, tp, valid)) || Outdated(r, tp, valid)
    {
      if Dominated(r, k.records) {
        DropDominates(k.records, r, tp, valid);
      } else {
        OutdatedMono(r, r, k.latest, tp, valid);
      }
    }
  }

  /** The front of the deque right after dropping is the naive maximum. */
  lemma {:induction false} FrontIsNaiveMax(k: Keeper, tp: int, valid: nat)
    requires Represents(k, valid) && k.latest <= tp
    ensures IsNaiveMax(k.log, tp, valid, Front(DropOld(k.records, tp, valid)))
  {
    hide Outdated, DropOld, TooOld;
    forall r: Record
      ensures Outdated(r, tp, valid) <==> TooOld(r, tp, valid)
    {
      OutdatedExactly(r, tp, valid);
    }
    var q := DropOld(k.records, tp, valid);
    DropKeeps(k, tp, valid);
    DropOrdered(k.records, tp, valid);
    if q != [] {
      assert q[0] in q;
      FrontIsLargest(k.log, q, tp, valid);
    }
  }

  lemma {:induction false} FrontIsLargest(log: seq<Record>, q: seq<Record>, tp: int, valid: nat)
    requires q != [] && DataDescend(q)
    requires forall r :: r in log ==> Dominated(r, q) || Outdated(r, tp, valid)
    ensures forall r :: r in log && !Outdated(r, tp, valid) ==> r.data <= q[0].data
  {
    hide Outdated;
  }

  // ----- runs

  const START: Keeper := Keeper([], [], 0, 0, 0)

  function After(ops: seq<Op>, valid: nat, begin: int): Keeper {
    if ops == [] then START.(latest := begin)
    else Apply(After(ops[..|ops| - 1], valid, begin), ops[|ops| - 1], valid)
  }

  /** The readings of a nondecreasing clock that starts at `begin`. */
  ghost predicate TimesOk(ops: seq<Op>, valid: nat, begin: int) {
    ops == [] || (TimesOk(ops[..|ops| - 1], valid, begin)
                  && (ops[|ops| - 1].Clear? || After(ops[..|ops| - 1], valid, begin).latest <= ops[|ops| - 1].tp))
  }

  /** What the log is: the records added since the last clear, in order. */
  function Recent(ops: seq<Op>): seq<Record> {
    if ops == [] then []
    else match ops[|ops| - 1]
         case Add(x, tp) => Recent(ops[..|ops| - 1]) + [Record(tp, x)]
         case Drop(_) => Recent(ops[..|ops| - 1])
         case Clear => []
  }

  function Adds(ops: seq<Op>): nat {
    if ops == [] then 0 else Adds(ops[..|ops| - 1]) + (if ops[|ops| - 1].Add? then 1 else 0)
  }

  lemma {:induction false} RunRepresents(ops: seq<Op>, valid: nat, begin: int)
    requires TimesOk(ops, valid, begin)
    ensures var k := After(ops, valid, begin);
            Represents(k, valid) && k.log == Recent(ops) && k.adds == Adds(ops)
  {
    if ops != [] {
      var pre := ops[..|ops| - 1];
      RunRepresents(pre, valid, begin);
      match ops[|ops| - 1]
      case Add(x, tp) => AddKeeps(After(pre, valid, begin), x, tp, valid);
      case Drop(tp) => DropKeeps(After(pre, valid, begin), tp, valid);
      case Clear =>
    }
  }

  /**
   * The deque refines the naive log: after any run, the maximum read right after dropping at `tp`
   * is the maximum of all records since the last clear that are less than `valid` + 1 ms old, or 0.
   */
  lemma {:induction false} KeeperRefinesLog(ops: seq<Op>, valid: nat, begin: int, tp: int)
    requires TimesOk(ops, valid, begin) && After(ops, valid, begin).latest <= tp
    ensures IsNaiveMax(Recent(ops), tp, valid, Front(After(ops + [Drop(tp)], valid, begin).records))
  {
    hide IsNaiveMax, Represents;
    RunRepresents(ops, valid, begin);
    FrontIsNaiveMax(After(ops, valid, begin), tp, valid);
    assert (ops + [Drop(tp)])[..|ops|] == ops;
  }

  /** Amortised cost: over any run, all loops together pop no more often than records were added. */
  lemma {:induction false} PopsAtMostAdds(ops: seq<Op>, valid: nat, begin: int)
    requires TimesOk(ops, valid, begin)
    ensures After(ops, valid, begin).pops <= Adds(ops)
  {
    RunRepresents(ops, valid, begin);
  }

  // ----- the class

  class RecordKeeper {
    const validTime: nat
    var records: seq<Record>
    ghost var log: seq<Record>
    ghost var latest: int
    ghost var adds: nat
    ghost var pops: nat

    ghost function View(): Keeper
      reads this
    {
      Keeper(records, log, latest, adds, pops)
    }

    constructor (validTime: nat, ghost begin: int)
      ensures this.validTime == validTime && View() == START.(latest := begin)
    {
      this.validTime := validTime;
      records, log, latest, adds, pops := [], [], begin, 0, 0;
    }

    method Add(data: real, tp: int)
      modifies this
      ensures View() == Apply(old(View()), Op.Add(data, tp), validTime)
    {
      while records != [] && records[|records| - 1].data < data
        invariant PopSmaller(records, data) == PopSmaller(old(records), data)
        invariant pops + |records| == old(pops) + |old(records)|
        invariant log == old(log) && adds == old(adds)
        decreases |records|
      {
        records := records[..|records| - 1];
        pops := pops + 1;
      }
      records := records + [Record(tp, data)];
      log, latest, adds := log + [Record(tp, data)], tp, adds + 1;
    }

    method DropOutdated(tp: int)
      modifies this
      ensures View() == Apply(old(View()), Drop(tp), validTime)
    {
      hide WholeMs;
      while records != [] && WholeMs(tp - records[0].time) > validTime
        invariant DropOld(records, tp, validTime) == DropOld(old(records), tp, validTime)
        invariant pops + |records| == old(pops) + |old(records)|
        invariant log == old(log) && adds == old(adds)
        decreases |records|
      {
        records := records[1..];
        pops := pops + 1;
      }
      latest := tp;
    }

    method GetMax() returns (m: real)
      ensures m == Front(records)
    {
      if records == [] {
        m := 0.0;
      } else {
        m := records[0].data;
      }
    }

    method Clear()
      modifies this
      ensures View() == Apply(old(View()), Op.Clear, validTime)
    {
      records := [];
      log := [];
    }
  }
}
