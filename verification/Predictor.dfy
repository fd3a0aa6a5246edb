/**
 * `Predictor`: measures periods, merges periods that are close to each other into long ones, and
 * predicts from the recent maxima.  Unset time points are marked by the extreme clock values.
 */
module Prediction {
  import opened Options
  import opened RecordKeeping

  const TIME_MAX: int := 0x7fff_ffff_ffff_ffff
  const TIME_MIN: int := -0x8000_0000_0000_0000

  /** Subtraction of time points in 64 bits. */
  function Sub64(x: int, y: int): int {
    var m := (x - y) % 0x1_0000_0000_0000_0000;
    if m > TIME_MAX then m - 0x1_0000_0000_0000_0000 else m
  }

  /** A duration in milliseconds, cut to whole microseconds. */
  function Ms(ns: int): real {
    (if ns >= 0 then ns / 1000 else -((-ns) / 1000)) as real / 1000.0
  }

  /** The duration in whole microseconds, rounded toward zero. */
  lemma {:induction false} MsExactly(ns: int) returns (k: int)
    ensures Ms(ns) * 1000.0 == k as real
    ensures 0 <= ns ==> Ms(ns) * 1000000.0 <= ns as real < Ms(ns) * 1000000.0 + 1000.0
    ensures Ms(-ns) == -Ms(ns)
  {
    k := if ns >= 0 then ns / 1000 else -((-ns) / 1000);
    assert 0 <= ns ==> k * 1000 <= ns < k * 1000 + 1000;
  }

  predicate Reading(t: int) {
    0 <= t < TIME_MAX
  }

  lemma {:induction false} Sub64Exact(x: int, y: int)
    requires Reading(x) && Reading(y) && y <= x
    ensures Sub64(x, y) == x - y
  {
  }

  lemma {:induction false} MsMono(x: int, y: int)
    requires x <= y
    ensures Ms(x) <= Ms(y)
  {
    hide Sub64;
    var f := (z: int) => if z >= 0 then z / 1000 else -((-z) / 1000);
    assert f(x) <= f(y);
  }

  // ----- the operations on values

  datatype PState = PState(begin: int, longBegin: int, longEnd: int, normal: Keeper, long: Keeper)

  datatype Event =
    | Start(now: int)
    | Stop(now: int)
    | Interrupt
    | Reset
    | PredictUnmerged(now: int)
    | PredictMerged(now: int)

  function Fresh(clock: int): PState {
    PState(TIME_MAX, TIME_MAX, TIME_MIN, START.(latest := clock), START.(latest := clock))
  }

  /** Does a period that starts now open a new long period? */
  predicate StartsAnew(s: PState, now: int, thres: real) {
    s.longBegin == TIME_MAX || Ms(Sub64(now, s.longEnd)) > thres
  }

  function Step(s: PState, e: Event, thres: real, keep: nat): PState {
    match e
    case Start(now) =>
      if s.begin != TIME_MAX then s
      else if StartsAnew(s, now, thres) then s.(begin := now, longBegin := now, longEnd := TIME_MIN)
      else s.(begin := now)
    case Stop(now) =>
      if s.begin == TIME_MAX then s
      else s.(begin := TIME_MAX, longEnd := now,
              normal := Apply(s.normal, Add(Ms(Sub64(now, s.begin)), now), keep),
              long := Apply(s.long, Add(Ms(Sub64(now, s.longBegin)), now), keep))
    case Interrupt => s.(begin := TIME_MAX, longBegin := TIME_MAX, longEnd := TIME_MIN)
    case Reset =>
      PState(TIME_MAX, TIME_MAX, TIME_MIN, Apply(s.normal, Clear, keep), Apply(s.long, Clear, keep))
    case PredictUnmerged(now) => s.(normal := Apply(s.normal, Drop(now), keep))
    case PredictMerged(now) => s.(long := Apply(s.long, Drop(now), keep))
  }

  // ----- the trace specification

  datatype Period = Period(begin: int, end: int)

  /** Periods completed since the last interrupt or reset, the open one, and what was measured. */
  datatype Trace = Trace(done: seq<Period>, open: Option<int>, normal: seq<Record>, long: seq<Record>)

  /** Period `i` follows the one before it closely enough to be merged with it. */
  predicate Linked(done: seq<Period>, i: nat, thres: real)
    requires 0 < i < |done|
  {
    Ms(done[i].begin - done[i - 1].end) <= thres
  }

  /** Where the chain of linked periods that ends with the last one begins. */
  function ChainStart(done: seq<Period>, thres: real): int
    requires done != []
  {
    var n := |done| - 1;
    if n > 0 && Linked(done, n, thres) then ChainStart(done[..n], thres) else done[n].begin
  }

  function Observe(tr: Trace, e: Event, thres: real): Trace {
    match e
    case Start(now) => if tr.open.Some? then tr else tr.(open := Some(now))
    case Stop(now) =>
      if tr.open.None? then tr
      else
        var done := tr.done + [Period(tr.open.value, now)];
        Trace(done, None,
              tr.normal + [Record(now, Ms(now - tr.open.value))],
              tr.long + [Record(now, Ms(now - ChainStart(done, thres)))])
    case Interrupt => tr.(done := [], open := None)
    case Reset => Trace([], None, [], [])
    case PredictUnmerged(_) => tr
    case PredictMerged(_) => tr
  }

  /** The chain is the maximal one: linked throughout, and not linked to anything before it. */
  lemma {:induction false} ChainIsMaximal(done: seq<Period>, thres: real) returns (j: nat)
    requires done != []
    ensures j < |done| && ChainStart(done, thres) == done[j].begin
    ensures forall i :: j < i < |done| ==> Linked(done, i, thres)
    ensures j == 0 || !Linked(done, j, thres)
  {
    hide Ms;
    var n := |done| - 1;
    if n > 0 && Linked(done, n, thres) {
      var pre := done[..n];
      j := ChainIsMaximal(pre, thres);
      forall i | j < i < |done|
        ensures Linked(done, i, thres)
      {
        if i < n {
          assert Linked(pre, i, thres);
        }
      }
      assert j > 0 ==> Linked(done, j, thres) == Linked(pre, j, thres);
    } else {
      j := n;
    }
  }

  // ----- the invariant

  ghost predicate Chronological(done: seq<Period>, clock: int) {
    && (forall i :: 0 <= i < |done| ==> 0 <= done[i].begin <= done[i].end <= clock)
    && (forall i, j :: 0 <= i < j < |done| ==> done[i].end <= done[j].begin)
  }

  ghost predicate OpenOk(tr: Trace, clock: int) {
    tr.open.Some? ==>
      0 <= tr.open.value <= clock && (tr.done != [] ==> tr.done[|tr.done| - 1].end <= tr.open.value)
  }

  /** The periods including the open one, which has no end yet. */
  function WithOpen(tr: Trace): seq<Period> {
    match tr.open
    case None => tr.done
    case Some(b) => tr.done + [Period(b, b)]
  }

  /** The time points of the predictor are those of the trace. */
  ghost predicate MarksMatch(s: PState, tr: Trace, thres: real) {
    && s.begin == (if tr.open.Some? then tr.open.value else TIME_MAX)
    && (WithOpen(tr) == [] ==> s.longBegin == TIME_MAX)
    && (WithOpen(tr) != [] ==> s.longBegin == ChainStart(WithOpen(tr), thres))
    && (tr.open.None? && tr.done != [] ==> s.longEnd == tr.done[|tr.done| - 1].end)
  }

  /** Both keepers got a record at the same times, the merged one at least as large. */
  ghost predicate Paired(normal: seq<Record>, long: seq<Record>) {
    |normal| == |long|
    && forall i :: 0 <= i < |normal| ==> normal[i].time == long[i].time && normal[i].data <= long[i].data
  }

  ghost predicate KeepersMatch(s: PState, tr: Trace, keep: nat, clock: int) {
    && s.normal.log == tr.normal && s.long.log == tr.long
    && Represents(s.normal, keep) && Represents(s.long, keep)
    && s.normal.latest <= clock && s.long.latest <= clock
    && Paired(tr.normal, tr.long)
  }

  ghost predicate Inv(s: PState, tr: Trace, thres: real, keep: nat, clock: int) {
    && Reading(clock) && Chronological(tr.done, clock) && OpenOk(tr, clock)
    && MarksMatch(s, tr, thres) && KeepersMatch(s, tr, keep, clock)
  }

  lemma {:induction false} ChainStartBounds(done: seq<Period>, thres: real, clock: int)
    requires done != [] && Chronological(done, clock)
    ensures 0 <= ChainStart(done, thres) <= done[|done| - 1].begin
  {
    hide Ms;
    var j := ChainIsMaximal(done, thres);
    var n := |done| - 1;
    assert j == n || done[j].end <= done[n].begin;
  }

  /** Where a chain starts does not depend on when its last period ends. */
  lemma {:induction false} ChainStartOpen(done: seq<Period>, b: int, x: int, y: int, thres: real)
    ensures ChainStart(done + [Period(b, x)], thres) == ChainStart(done + [Period(b, y)], thres)
  {
    hide Ms;
    var p, q := done + [Period(b, x)], done + [Period(b, y)];
    assert p[..|done|] == done && q[..|done|] == done;
    assert |done| > 0 ==> Linked(p, |done|, thres) == Linked(q, |done|, thres);
  }

  /** The merge decision is the one the trace asks for; no sentinel takes part in it. */
  lemma {:induction false} StartDecision(s: PState, tr: Trace, thres: real, keep: nat, clock: int, now: int)
    requires Inv(s, tr, thres, keep, clock) && tr.open.None? && clock <= now && Reading(now)
    ensures s.longBegin != TIME_MAX ==> Reading(s.longEnd) && s.longEnd <= now
    ensures StartsAnew(s, now, thres) <==>
            tr.done == [] || Ms(now - tr.done[|tr.done| - 1].end) > thres
  {
    hide Ms, KeepersMatch;
    if tr.done != [] {
      ChainStartBounds(tr.done, thres, clock);
      Sub64Exact(now, s.longEnd);
    }
  }

  lemma {:induction false} StartKeeps(s: PState, tr: Trace, thres: real, keep: nat, clock: int, now: int)
    requires Inv(s, tr, thres, keep, clock) && clock <= now && Reading(now)
    ensures Inv(Step(s, Start(now), thres, keep), Observe(tr, Start(now), thres), thres, keep, now)
  {
    hide Ms, Represents, Sub64;
    if tr.open.None? {
      StartDecision(s, tr, thres, keep, clock, now);
      var tr' := Observe(tr, Start(now), thres);
      var w, n := WithOpen(tr'), |tr.done|;
      assert w[..n] == tr.done;
      assert n > 0 ==> (Linked(w, n, thres) <==> Ms(now - tr.done[n - 1].end) <= thres);
      hide StartsAnew;
      assert MarksMatch(Step(s, Start(now), thres, keep), tr', thres);
    }
  }

  lemma {:induction false} StopMarks(s: PState, tr: Trace, thres: real, clock: int, now: int)
    requires Reading(clock) && Chronological(tr.done, clock) && OpenOk(tr, clock) && MarksMatch(s, tr, thres)
    requires tr.open.Some? && clock <= now && Reading(now)
    ensures var done := tr.done + [Period(tr.open.value, now)];
            Chronological(done, now)
            && s.longBegin == ChainStart(done, thres) && 0 <= s.longBegin <= s.begin == tr.open.value
            && Sub64(now, s.begin) == now - tr.open.value && Sub64(now, s.longBegin) == now - s.longBegin
  {
    hide Ms;
    var b := tr.open.value;
    var done := tr.done + [Period(b, now)];
    ChainStartOpen(tr.done, b, b, now, thres);
    assert Chronological(done, now) by {
      assert forall i :: 0 <= i < |tr.done| ==> tr.done[i].end <= b;
    }
    ChainStartBounds(done, thres, now);
    Sub64Exact(now, b);
    Sub64Exact(now, s.longBegin);
  }

  lemma {:induction false} StopKeeps(s: PState, tr: Trace, thres: real, keep: nat, clock: int, now: int)
    requires Inv(s, tr, thres, keep, clock) && clock <= now && Reading(now)
    ensures Inv(Step(s, Stop(now), thres, keep), Observe(tr, Stop(now), thres), thres, keep, now)
  {
    hide Represents, Sub64, Ms, ChainStart, Apply;
    if tr.open.Some? {
      StopMarks(s, tr, thres, clock, now);
      MsMono(now - s.begin, now - s.longBegin);
      AddKeeps(s.normal, Ms(now - s.begin), now, keep);
      AddKeeps(s.long, Ms(now - s.longBegin), now, keep);
      AddLog(s.normal, Ms(now - s.begin), now, keep);
      AddLog(s.long, Ms(now - s.longBegin), now, keep);
    }
  }

  lemma {:induction false} AddLog(k: Keeper, x: real, now: int, keep: nat)
    ensures Apply(k, Add(x, now), keep).log == k.log + [Record(now, x)]
    ensures Apply(k, Add(x, now), keep).latest == now
  {
  }

  lemma {:induction false} StepKeeps(s: PState, tr: Trace, e: Event, thres: real, keep: nat, clock: int, now: int)
    requires Inv(s, tr, thres, keep, clock) && clock <= now && Reading(now)
    requires e.Interrupt? || e.Reset? || e.now == now
    ensures Inv(Step(s, e, thres, keep), Observe(tr, e, thres), thres, keep, now)
  {
    hide Sub64, Ms, ChainStart, PopSmaller, DropOld, Outdated;
    match e
    case Start(_) => StartKeeps(s, tr, thres, keep, clock, now);
    case Stop(_) => StopKeeps(s, tr, thres, keep, clock, now);
    case Interrupt =>
    case Reset =>
    case PredictUnmerged(_) => DropKeeps(s.normal, now, keep);
    case PredictMerged(_) => DropKeeps(s.long, now, keep);
  }

  // ----- runs

  function RunState(events: seq<Event>, thres: real, keep: nat, begin: int): PState {
    if events == [] then Fresh(begin)
    else Step(RunState(events[..|events| - 1], thres, keep, begin), events[|events| - 1], thres, keep)
  }

  function TraceOf(events: seq<Event>, thres: real): Trace {
    if events == [] then Trace([], None, [], [])
    else Observe(TraceOf(events[..|events| - 1], thres), events[|events| - 1], thres)
  }

  function ClockAfter(events: seq<Event>, begin: int): int {
    if events == [] then begin
    else match events[|events| - 1]
         case Interrupt => ClockAfter(events[..|events| - 1], begin)
         case Reset => ClockAfter(events[..|events| - 1], begin)
         case e => e.now
  }

  /** The events carry the readings of a nondecreasing clock. */
  ghost predicate ClockOk(events: seq<Event>, begin: int) {
    if events == [] then Reading(begin)
    else ClockOk(events[..|events| - 1], begin)
         && ClockAfter(events[..|events| - 1], begin) <= ClockAfter(events, begin)
         && Reading(ClockAfter(events, begin))
  }

  lemma {:induction false} RunKeeps(events: seq<Event>, thres: real, keep: nat, begin: int)
    requires ClockOk(events, begin)
    ensures Inv(RunState(events, thres, keep, begin), TraceOf(events, thres), thres, keep, ClockAfter(events, begin))
  {
    if events != [] {
      hide Inv, Step, Observe;
      var pre := events[..|events| - 1];
      RunKeeps(pre, thres, keep, begin);
      StepKeeps(RunState(pre, thres, keep, begin), TraceOf(pre, thres), events[|events| - 1], thres, keep,
                ClockAfter(pre, begin), ClockAfter(events, begin));
    }
  }

  /**
   * Period merging matches its trace specification, for every sequence of events: the records added
   * to the long keeper are, stop by stop, the times from the start of the maximal chain of linked
   * periods since the last interrupt or reset, and an ongoing period implies an ongoing long one.
   */
  lemma {:induction false} MergingMatchesTrace(events: seq<Event>, thres: real, keep: nat, begin: int)
    requires ClockOk(events, begin)
    ensures var s := RunState(events, thres, keep, begin);
            var tr := TraceOf(events, thres);
            && s.long.log == tr.long && s.normal.log == tr.normal
            && (s.begin != TIME_MAX <==> tr.open.Some?)
            && (s.begin != TIME_MAX ==> s.longBegin != TIME_MAX)
  {
    hide Ms, Represents;
    RunKeeps(events, thres, keep, begin);
    var tr, clock := TraceOf(events, thres), ClockAfter(events, begin);
    if tr.open.Some? {
      OpenChronological(tr, clock);
      ChainStartBounds(WithOpen(tr), thres, clock);
    }
  }

  lemma {:induction false} OpenChronological(tr: Trace, clock: int)
    requires Chronological(tr.done, clock) && OpenOk(tr, clock) && tr.open.Some?
    ensures Chronological(WithOpen(tr), clock)
  {
    var n := |tr.done|;
    assert forall i :: 0 <= i < n ==> tr.done[i].end <= tr.done[n - 1].end || i < n - 1;
    assert forall i :: 0 <= i < n ==> tr.done[i].end <= tr.open.value;
  }

  lemma {:induction false} NotOpen(s: PState, tr: Trace, thres: real, keep: nat, clock: int)
    requires Inv(s, tr, thres, keep, clock) && s.begin == TIME_MAX
    ensures tr.open.None?
  {
    hide Ms, KeepersMatch;
  }

  /** In every reachable state the merge decision rests on real clock readings alone. */
  lemma {:induction false} DecisionIgnoresSentinels(events: seq<Event>, thres: real, keep: nat, begin: int, now: int)
    requires ClockOk(events, begin) && ClockAfter(events, begin) <= now && Reading(now)
    requires RunState(events, thres, keep, begin).begin == TIME_MAX
    ensures var s := RunState(events, thres, keep, begin);
            var tr := TraceOf(events, thres);
            && (s.longBegin != TIME_MAX ==> Reading(s.longEnd) && s.longEnd <= now)
            && (StartsAnew(s, now, thres) <==>
                  tr.done == [] || Ms(now - tr.done[|tr.done| - 1].end) > thres)
  {
    hide Ms, Inv, RunState, TraceOf, ClockOk, ClockAfter, StartsAnew;
    RunKeeps(events, thres, keep, begin);
    NotOpen(RunState(events, thres, keep, begin), TraceOf(events, thres), thres, keep, ClockAfter(events, begin));
    StartDecision(RunState(events, thres, keep, begin), TraceOf(events, thres), thres, keep,
                  ClockAfter(events, begin), now);
  }

  // ----- forgetting

  ghost predicate SameMarks(s: PState, s': PState) {
    s.begin == s'.begin && s.longBegin == s'.longBegin && s.longEnd == s'.longEnd
  }

  /** The keepers differ at most by what they got before. */
  ghost predicate Extends(s: PState, s': PState, normal: seq<Record>, long: seq<Record>) {
    s.normal.log == normal + s'.normal.log && s.long.log == long + s'.long.log
  }

  /**
   * An interrupt forgets the periods but not the records: whatever happens after it, without a reset,
   * is measured as if the predictor were new, and adds to the earlier records.
   */
  lemma {:induction false} InterruptForgets(pre: seq<Event>, post: seq<Event>, thres: real, keep: nat, begin: int)
    requires forall e :: e in post ==> !e.Reset?
    ensures var s, s0 := RunState(pre + [Interrupt] + post, thres, keep, begin), RunState(pre, thres, keep, begin);
            var anew := RunState(post, thres, keep, begin);
            SameMarks(s, anew) && Extends(s, anew, s0.normal.log, s0.long.log)
  {
    hide Ms, Sub64, PopSmaller, DropOld;
    var all := pre + [Interrupt] + post;
    if post == [] {
      assert all[..|all| - 1] == pre && all[|all| - 1] == Interrupt;
    } else {
      var n := |post| - 1;
      assert all[..|all| - 1] == pre + [Interrupt] + post[..n] && all[|all| - 1] == post[n] && post[n] in post;
      assert forall e :: e in post[..n] ==> e in post;
      InterruptForgets(pre, post[..n], thres, keep, begin);
    }
  }

  /** A reset forgets everything: afterwards the predictor predicts as if it were new. */
  lemma {:induction false} ResetForgets(pre: seq<Event>, post: seq<Event>, thres: real, keep: nat, begin: int)
    ensures var s, anew := RunState(pre + [Reset] + post, thres, keep, begin), RunState(post, thres, keep, begin);
            SameMarks(s, anew) && Extends(s, anew, [], [])
            && s.normal.records == anew.normal.records && s.long.records == anew.long.records
  {
    hide Ms, Sub64, PopSmaller, DropOld;
    var all := pre + [Reset] + post;
    if post == [] {
      assert all[..|all| - 1] == pre && all[|all| - 1] == Reset;
    } else {
      var n := |post| - 1;
      assert all[..|all| - 1] == pre + [Reset] + post[..n] && all[|all| - 1] == post[n];
      ResetForgets(pre, post[..n], thres, keep, begin);
    }
  }

  lemma {:induction false} PairedMax(normal: seq<Record>, long: seq<Record>, tp: int, valid: nat, m: real, m': real)
    requires Paired(normal, long) && IsNaiveMax(normal, tp, valid, m) && IsNaiveMax(long, tp, valid, m')
    ensures m <= m'
  {
    forall i | 0 <= i < |normal|
      ensures TooOld(normal[i], tp, valid) == TooOld(long[i], tp, valid)
    {
    }
    hide TooOld;
    if r :| r in normal && !TooOld(r, tp, valid) && r.data == m {
      var i :| 0 <= i < |normal| && normal[i] == r;
      assert long[i] in long;
    }
    if r :| r in long && !TooOld(r, tp, valid) {
      var i :| 0 <= i < |long| && long[i] == r;
      assert normal[i] in normal;
    }
  }

  /**
   * In every reachable state, and at any later instant, the two predictions are the maxima of the
   * recent durations: of the periods themselves, and of the chains they ended.
   */
  lemma {:induction false} PredictionsAreRecentMaxima(
    events: seq<Event>, thres: real, keep: nat, begin: int, now: int)
    requires ClockOk(events, begin) && ClockAfter(events, begin) <= now && Reading(now)
    ensures var s, tr := RunState(events, thres, keep, begin), TraceOf(events, thres);
            && IsNaiveMax(tr.normal, now, keep, Front(Step(s, PredictUnmerged(now), thres, keep).normal.records))
            && IsNaiveMax(tr.long, now, keep, Front(Step(s, PredictMerged(now), thres, keep).long.records))
  {
    hide IsNaiveMax, Represents, Front, DropOld;
    RunKeeps(events, thres, keep, begin);
    var s := RunState(events, thres, keep, begin);
    FrontIsNaiveMax(s.normal, now, keep);
    FrontIsNaiveMax(s.long, now, keep);
  }

  /** In every reachable state, and at any later instant, the merged prediction is the larger one. */
  lemma {:induction false} MergedPredictsMore(events: seq<Event>, thres: real, keep: nat, begin: int, now: int)
    requires ClockOk(events, begin) && ClockAfter(events, begin) <= now && Reading(now)
    ensures var s := RunState(events, thres, keep, begin);
            Front(Step(s, PredictUnmerged(now), thres, keep).normal.records)
            <= Front(Step(s, PredictMerged(now), thres, keep).long.records)
  {
    hide IsNaiveMax, Represents, Front, DropOld;
    RunKeeps(events, thres, keep, begin);
    var s, tr := RunState(events, thres, keep, begin), TraceOf(events, thres);
    FrontIsNaiveMax(s.normal, now, keep);
    FrontIsNaiveMax(s.long, now, keep);
    PairedMax(tr.normal, tr.long, now, keep, Front(DropOld(s.normal.records, now, keep)),
              Front(DropOld(s.long.records, now, keep)));
  }

  // ----- the class

  class Predictor {
    const mergeThres: real
    const normal: RecordKeeper
    const long: RecordKeeper
    var periodBegin: int
    var longPeriodBegin: int
    var longPeriodEnd: int

    ghost predicate Valid() {
      normal != long && normal.validTime == long.validTime
    }

    ghost function View(): PState
      reads this, normal, long
    {
      PState(periodBegin, longPeriodBegin, longPeriodEnd, normal.View(), long.View())
    }

    constructor (thres: real, maxKeep: nat, ghost clock: int)
      ensures Valid() && mergeThres == thres && normal.validTime == maxKeep && View() == Fresh(clock)
      ensures fresh(normal) && fresh(long)
    {
      mergeThres := thres;
      normal := new RecordKeeper(maxKeep, clock);
      long := new RecordKeeper(maxKeep, clock);
      periodBegin, longPeriodBegin, longPeriodEnd := TIME_MAX, TIME_MAX, TIME_MIN;
    }

    predicate OngoingUnmerged()
      reads this
    {
      periodBegin != TIME_MAX
    }

    predicate OngoingMerged()
      reads this
    {
      longPeriodBegin != TIME_MAX
    }

    method RecordStop(now: int)
      requires Valid()
      modifies this, normal, long
      ensures View() == Step(old(View()), Stop(now), mergeThres, normal.validTime)
    {
      if OngoingUnmerged() {
        normal.Add(Ms(Sub64(now, periodBegin)), now);
        longPeriodEnd := now;
        long.Add(Ms(Sub64(longPeriodEnd, longPeriodBegin)), now);
      }
      periodBegin := TIME_MAX;
    }

    method RecordStart(now: int)
      requires Valid()
      modifies this
      ensures View() == Step(old(View()), Start(now), mergeThres, normal.validTime)
    {
      if !OngoingUnmerged() {
        periodBegin := now;
        var intv := Ms(Sub64(periodBegin, longPeriodEnd));
        if !OngoingMerged() || intv > mergeThres {
          longPeriodBegin := periodBegin;
          longPeriodEnd := TIME_MIN;
        }
      }
    }

    method InterruptPeriod()
      requires Valid()
      modifies this
      ensures View() == Step(old(View()), Interrupt, mergeThres, normal.validTime)
    {
      periodBegin, longPeriodBegin, longPeriodEnd := TIME_MAX, TIME_MAX, TIME_MIN;
    }

    method PredictUnmergedAt(now: int) returns (pred: real)
      requires Valid()
      modifies normal
      ensures View() == Step(old(View()), PredictUnmerged(now), mergeThres, normal.validTime)
      ensures pred == Front(View().normal.records)
    {
      normal.DropOutdated(now);
      pred := normal.GetMax();
    }

    method PredictMergedAt(now: int) returns (pred: real)
      requires Valid()
      modifies long
      ensures View() == Step(old(View()), PredictMerged(now), mergeThres, normal.validTime)
      ensures pred == Front(View().long.records)
    {
      long.DropOutdated(now);
      pred := long.GetMax();
    }

    method ResetAll()
      requires Valid()
      modifies this, normal, long
      ensures View() == Step(old(View()), Reset, mergeThres, normal.validTime)
    {
      normal.Clear();
      long.Clear();
      periodBegin, longPeriodBegin, longPeriodEnd := TIME_MAX, TIME_MAX, TIME_MIN;
    }
  }
}
