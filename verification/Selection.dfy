/**
 * Choosing a candidate: eligibility, priority and the quick exit, stated on values.  `h` is the
 * history list after pruning.
 */
module Selection {
  import opened Reals
  import opened UsageModel
  import opened UsageLaws
  import opened Sweep
  import opened SweepLaws
  import opened StdSort
  import opened Priority
  import opened Quota

  /** A pending quota request. */
  datatype Candidate = Candidate(socket: int, name: string, reqId: int, arrived: real)

  /** What a selection depends on besides the candidates: history, settings, clock and window. */
  datatype Scene = Scene(h: seq<Entry>, cfgs: map<string, Config>, now: real, window: real)
  {
    function Start(): real {
      now - window
    }

    /** The part of the window that has elapsed since the scheduler started. */
    function Size(): real {
      if Start() < 0.0 then now else window
    }
  }

  function Part(frac: real, size: real): real {
    frac * size
  }

  ghost predicate KnownClients(sc: Scene, cands: seq<Candidate>) {
    forall c :: c in cands ==> c.name in sc.cfgs
  }

  ghost function ScoreOf(sc: Scene, c: Candidate, i: nat): Scored
    requires c.name in sc.cfgs
  {
    var u := Swept(sc.h, c.name, sc.Start());
    SweptNonnegative(sc.h, c.name, sc.Start());
    Score(Part(sc.cfgs[c.name].minFrac, sc.Size()) - u, Part(sc.cfgs[c.name].maxFrac, sc.Size()) - u,
          u, c.arrived, i)
  }

  lemma {:induction false} SweptNonnegative(h: seq<Entry>, n: string, w: real)
    ensures 0.0 <= Swept(h, n, w)
  {
    HorizonBounds(h, w);
    UsageBounds(Haunted(h, w, Horizon(h, w)), n, w, Horizon(h, w));
  }

  ghost predicate Eligible(sc: Scene, c: Candidate)
    requires c.name in sc.cfgs
  {
    ScoreOf(sc, c, 0).remaining > 0.0
  }

  /** The scores of the eligible ones among the first `k` candidates, in list order. */
  ghost function ValidUpTo(sc: Scene, cands: seq<Candidate>, k: nat): seq<Scored>
    requires k <= |cands| && KnownClients(sc, cands)
  {
    if k == 0 then []
    else ValidUpTo(sc, cands, k - 1)
         + (if Eligible(sc, cands[k - 1]) then [ScoreOf(sc, cands[k - 1], k - 1)] else [])
  }

  ghost function ValidList(sc: Scene, cands: seq<Candidate>): seq<Scored>
    requires KnownClients(sc, cands)
  {
    ValidUpTo(sc, cands, |cands|)
  }

  lemma {:induction false} ValidMembers(sc: Scene, cands: seq<Candidate>, k: nat)
    requires k <= |cands| && KnownClients(sc, cands)
    ensures forall x :: x in ValidUpTo(sc, cands, k) <==>
                        x.index < k && Eligible(sc, cands[x.index]) && x == ScoreOf(sc, cands[x.index], x.index)
  {
    if k > 0 {
      ValidMembers(sc, cands, k - 1);
    }
  }

  // ----- what the scores mean

  /** The limit and the minimum refer to the window, or to the time since the start if that is shorter. */
  lemma {:induction false} ScoresExactly(sc: Scene, c: Candidate, i: nat)
    requires c.name in sc.cfgs && 0.0 <= sc.now && 0.0 < sc.window
    ensures var u, size := Swept(sc.h, c.name, sc.now - sc.window), Min(sc.now, sc.window);
            var x := ScoreOf(sc, c, i);
            x.usage == u && x.missing + u == sc.cfgs[c.name].minFrac * size
            && x.remaining + u == sc.cfgs[c.name].maxFrac * size && x.arrived == c.arrived && x.index == i
  {
    hide Swept;
    assert sc.Size() == Min(sc.now, sc.window);
  }

  /** A client may be selected on the full path exactly while its usage is below its limit. */
  lemma {:induction false} EligibleExactly(sc: Scene, c: Candidate)
    requires c.name in sc.cfgs && 0.0 <= sc.now && 0.0 < sc.window
    ensures Eligible(sc, c) <==>
            Swept(sc.h, c.name, sc.now - sc.window) < sc.cfgs[c.name].maxFrac * Min(sc.now, sc.window)
  {
    hide Swept;
    ScoresExactly(sc, c, 0);
  }

  /** The daemon sleeps exactly when the first client has run and every candidate has used up its limit. */
  lemma {:induction false} MustSleepExactly(sc: Scene, cands: seq<Candidate>)
    requires KnownClients(sc, cands) && cands != [] && 0.0 <= sc.now && 0.0 < sc.window
    ensures MustSleep(sc, cands) <==>
            && (exists e :: e in sc.h && e.name == cands[0].name)
            && (forall c :: c in cands ==>
                  sc.cfgs[c.name].maxFrac * Min(sc.now, sc.window) <= Swept(sc.h, c.name, sc.now - sc.window))
  {
    hide Swept, ScoreOf;
    var v := ValidList(sc, cands);
    ValidMembers(sc, cands, |cands|);
    forall c | c in cands
      ensures Eligible(sc, c) <==>
              Swept(sc.h, c.name, sc.now - sc.window) < sc.cfgs[c.name].maxFrac * Min(sc.now, sc.window)
    {
      EligibleExactly(sc, c);
    }
    hide Eligible;
    if v == [] {
      forall c | c in cands
        ensures !Eligible(sc, c)
      {
        var i :| 0 <= i < |cands| && cands[i] == c;
        ScoresExactly(sc, c, i);
        assert ScoreOf(sc, c, i) !in v;
      }
    } else {
      assert v[0] in v && cands[v[0].index] in cands;
    }
  }

  /**
   * Of two clients under their minimums the one that got the smaller part of its minimum is ahead,
   * and one under its minimum is ahead of one over it.
   */
  lemma {:induction false} StarvedFirst(sc: Scene, c: Candidate, d: Candidate, i: nat, j: nat)
    requires c.name in sc.cfgs && d.name in sc.cfgs && 0.0 <= sc.now && 0.0 < sc.window
    requires ScoreOf(sc, c, i).missing > 0.0 && ScoreOf(sc, d, j).missing != 0.0
    ensures var u, v := Swept(sc.h, c.name, sc.now - sc.window), Swept(sc.h, d.name, sc.now - sc.window);
            Before(ScoreOf(sc, c, i), ScoreOf(sc, d, j)) <==>
            ScoreOf(sc, d, j).missing < 0.0 || u * sc.cfgs[d.name].minFrac < v * sc.cfgs[c.name].minFrac
  {
    hide Swept, ScoreOf;
    var x, y, size := ScoreOf(sc, c, i), ScoreOf(sc, d, j), Min(sc.now, sc.window);
    ScoresExactly(sc, c, i);
    ScoresExactly(sc, d, j);
    if y.missing > 0.0 {
      var p, q := sc.cfgs[c.name].minFrac, sc.cfgs[d.name].minFrac;
      PartOfMinimum(x.missing, x.usage, y.missing, y.usage);
      assert x.missing + x.usage == p * size && y.missing + y.usage == q * size;
      assert size > 0.0;
      CancelSize(x.usage, q, y.usage, p, size);
    }
  }

  lemma {:induction false} PartOfMinimum(m: real, u: real, m': real, u': real)
    requires m > 0.0 && m' > 0.0 && u >= 0.0 && u' >= 0.0
    ensures m / (m + u) > m' / (m' + u') <==> u * (m' + u') < u' * (m + u)
  {
    var a, b := m + u, m' + u';
    var r, r' := m / a, m' / b;
    assert r * a == m && r' * b == m';
    assert u * b - u' * a == m' * a - m * b;
    assert m' * a - m * b == (r' - r) * (a * b) by {
      assert m' * a == (r' * b) * a && m * b == (r * a) * b;
    }
    assert a * b > 0.0;
    SignOfProduct(r' - r, a * b);
  }

  lemma {:induction false} SignOfProduct(x: real, y: real)
    requires y > 0.0
    ensures x * y < 0.0 <==> x < 0.0
  {
    if x < 0.0 {
      assert (-x) * y > 0.0;
    } else {
      assert x * y >= 0.0;
    }
  }

  lemma {:induction false} CancelSize(u: real, q: real, v: real, p: real, size: real)
    requires size > 0.0
    ensures u * (q * size) < v * (p * size) <==> u * q < v * p
  {
    assert u * (q * size) - v * (p * size) == (u * q - v * p) * size;
    SignOfProduct(u * q - v * p, size);
  }

  ghost predicate FrontAbsent(sc: Scene, cands: seq<Candidate>) {
    cands != [] && forall e :: e in sc.h ==> e.name != cands[0].name
  }

  /** Some result of sorting the eligible candidates has candidate `i` in front. */
  ghost predicate FullPick(sc: Scene, cands: seq<Candidate>, i: nat)
    requires KnownClients(sc, cands)
  {
    exists r: seq<Scored> :: SortResult(r, ValidList(sc, cands), Before) && r != [] && r[0].index == i
  }

  /** Candidate `i` may be the one returned in this round. */
  ghost predicate MaySelect(sc: Scene, cands: seq<Candidate>, i: nat)
    requires KnownClients(sc, cands)
  {
    if FrontAbsent(sc, cands) then i == 0 else FullPick(sc, cands, i)
  }

  /** No candidate can be returned in this round. */
  ghost predicate MustSleep(sc: Scene, cands: seq<Candidate>)
    requires KnownClients(sc, cands)
  {
    !FrontAbsent(sc, cands) && ValidList(sc, cands) == []
  }

  ghost predicate SaneFractions(sc: Scene) {
    0.0 <= sc.now && 0.0 < sc.window && forall n :: n in sc.cfgs ==> 0.0 <= sc.cfgs[n].minFrac
  }

  /** No eligible candidate sits exactly at a positive minimum. */
  ghost predicate NoneAtMinimum(sc: Scene, cands: seq<Candidate>)
    requires KnownClients(sc, cands)
  {
    forall c :: c in cands && Eligible(sc, c) ==> ScoreOf(sc, c, 0).missing != 0.0 || ScoreOf(sc, c, 0).usage == 0.0
  }

  /** Then the eligible candidates are ordered, so that sorting them is well defined. */
  lemma {:induction false} EligibleOrdered(sc: Scene, cands: seq<Candidate>)
    requires KnownClients(sc, cands) && SaneFractions(sc) && NoneAtMinimum(sc, cands)
    ensures StrictWeakOrder(ValidList(sc, cands), Before) && Consistent(ValidList(sc, cands))
  {
    hide Swept, Before, Consistent;
    var v := ValidList(sc, cands);
    ValidMembers(sc, cands, |cands|);
    forall x | x in v
      ensures Rankable(x)
    {
      var c := cands[x.index];
      assert c in cands;
      MulMono(sc.Size(), 0.0, sc.cfgs[c.name].minFrac);
    }
    RankableOrdered(v);
    OrderedExactly(v);
  }

  lemma {:induction false} FullPickFirst(sc: Scene, cands: seq<Candidate>, i: nat)
    requires KnownClients(sc, cands) && FullPick(sc, cands, i)
    ensures i < |cands| && Eligible(sc, cands[i])
    ensures StrictWeakOrder(ValidList(sc, cands), Before) ==>
              forall j :: 0 <= j < |cands| && Eligible(sc, cands[j]) ==>
                          !Before(ScoreOf(sc, cands[j], j), ScoreOf(sc, cands[i], i))
  {
    var v := ValidList(sc, cands);
    var r: seq<Scored> :| SortResult(r, v, Before) && r != [] && r[0].index == i;
    ValidMembers(sc, cands, |cands|);
    SameElements(r, v);
    assert r[0] in r;
    if StrictWeakOrder(v, Before) {
      FirstIsBest(r, v);
      forall j | 0 <= j < |cands| && Eligible(sc, cands[j])
        ensures !Before(ScoreOf(sc, cands[j], j), ScoreOf(sc, cands[i], i))
      {
        assert ScoreOf(sc, cands[j], j) in v;
      }
    }
  }

  /**
   * What the full path guarantees about its choice: it is eligible, and if the scores are consistent,
   * no eligible candidate is ahead of it.
   */
  lemma {:induction false} FullPickBest(sc: Scene, cands: seq<Candidate>, i: nat)
    requires KnownClients(sc, cands) && FullPick(sc, cands, i)
    ensures i < |cands| && Eligible(sc, cands[i])
    ensures Consistent(ValidList(sc, cands)) ==>
              forall j :: 0 <= j < |cands| && Eligible(sc, cands[j]) ==>
                          !Before(ScoreOf(sc, cands[j], j), ScoreOf(sc, cands[i], i))
  {
    hide Before, ScoreOf, FullPick, Consistent, StrictWeakOrder;
    FullPickFirst(sc, cands, i);
    OrderedExactly(ValidList(sc, cands));
  }

  /** A selection always exists, or the daemon has to sleep; never both. */
  lemma {:induction false} SelectOrSleep(sc: Scene, cands: seq<Candidate>)
    requires KnownClients(sc, cands) && cands != []
    ensures MustSleep(sc, cands) <==> !exists i: nat :: MaySelect(sc, cands, i)
  {
    var v := ValidList(sc, cands);
    if FrontAbsent(sc, cands) {
      assert MaySelect(sc, cands, 0);
    } else if v == [] {
      assert forall r: seq<Scored> :: multiset(r) == multiset(v) ==> |r| == |multiset(r)| == 0;
    } else {
      var r := SortExists(v, Before);
      assert SortResult(r, v, Before);
      SameElements(r, v);
      assert FullPick(sc, cands, r[0].index);
      assert MaySelect(sc, cands, r[0].index);
    }
  }

  /** A client with no entry has no usage, whatever the sweep does with the others. */
  lemma {:induction false} AbsentUsageZero(h: seq<Entry>, n: string, w: real)
    requires forall e :: e in h ==> e.name != n
    ensures Swept(h, n, w) == 0.0
  {
    PhantomCharged(h, n, w);
  }

  /** Nobody is served before a client that used nothing. */
  lemma {:induction false} NobodyBeforeIdle(x: Scored, f: Scored)
    requires f.usage == 0.0 && 0.0 <= f.missing
    ensures !Before(x, f)
  {
    if x.missing > 0.0 && f.missing > 0.0 {
      RatioAtMostOne(x.missing, x.usage);
      RatioAtMostOne(f.missing, f.usage);
    }
  }

  /**
   * The quick exit refines the full path.  When the front client is absent from the history the full
   * computation gives it usage zero, puts no eligible candidate ahead of it, finds it eligible if
   * and only if its limit is positive, and in that case could have picked it as well.
   */
  lemma {:induction false} QuickExitRefinesFullPath(sc: Scene, cands: seq<Candidate>)
    requires KnownClients(sc, cands) && FrontAbsent(sc, cands) && SaneFractions(sc)
    ensures ScoreOf(sc, cands[0], 0).usage == 0.0
    ensures Eligible(sc, cands[0]) <==> Part(sc.cfgs[cands[0].name].maxFrac, sc.Size()) > 0.0
    ensures forall j :: 0 <= j < |cands| ==> !Before(ScoreOf(sc, cands[j], j), ScoreOf(sc, cands[0], 0))
    ensures FullPick(sc, cands, 0) <==> Part(sc.cfgs[cands[0].name].maxFrac, sc.Size()) > 0.0
  {
    var f := ScoreOf(sc, cands[0], 0);
    AbsentUsageZero(sc.h, cands[0].name, sc.Start());
    assert 0.0 <= Part(sc.cfgs[cands[0].name].minFrac, sc.Size()) by {
      MulMono(sc.Size(), 0.0, sc.cfgs[cands[0].name].minFrac);
    }
    forall j | 0 <= j < |cands|
      ensures !Before(ScoreOf(sc, cands[j], j), f)
    {
      NobodyBeforeIdle(ScoreOf(sc, cands[j], j), f);
    }
    if FullPick(sc, cands, 0) {
      FullPickBest(sc, cands, 0);
    }
    if Eligible(sc, cands[0]) {
      FrontCanComeFirst(sc, cands);
    }
  }

  /** If nobody is ahead of the eligible front candidate, sorting may leave it in front. */
  lemma {:induction false} FrontCanComeFirst(sc: Scene, cands: seq<Candidate>)
    requires KnownClients(sc, cands) && cands != [] && Eligible(sc, cands[0])
    requires forall j :: 0 <= j < |cands| ==> !Before(ScoreOf(sc, cands[j], j), ScoreOf(sc, cands[0], 0))
    ensures FullPick(sc, cands, 0)
  {
    var v, f := ValidList(sc, cands), ScoreOf(sc, cands[0], 0);
    ValidMembers(sc, cands, |cands|);
    var r := CanComeFirst(v, f, Before);
  }

  /**
   * The guarantee the policy exists for: on either path, a client over its minimum is never chosen
   * while an eligible one is under its minimum.  The full path needs consistent scores.
   */
  lemma {:induction false} MinimumFirst(sc: Scene, cands: seq<Candidate>, i: nat, j: nat)
    requires KnownClients(sc, cands) && SaneFractions(sc)
    requires FrontAbsent(sc, cands) || Consistent(ValidList(sc, cands))
    requires MaySelect(sc, cands, i) && i < |cands| && j < |cands| && Eligible(sc, cands[j])
    requires ScoreOf(sc, cands[j], j).missing > 0.0
    ensures ScoreOf(sc, cands[i], i).missing >= 0.0
  {
    if FrontAbsent(sc, cands) {
      AbsentUsageZero(sc.h, cands[0].name, sc.Start());
      MulMono(sc.Size(), 0.0, sc.cfgs[cands[0].name].minFrac);
    } else {
      FullPickBest(sc, cands, i);
    }
  }

  ghost predicate SomeEligible(sc: Scene, cands: seq<Candidate>, under: bool)
    requires KnownClients(sc, cands)
  {
    exists c :: c in cands && Eligible(sc, c)
                && if under then ScoreOf(sc, c, 0).missing > 0.0 else ScoreOf(sc, c, 0).missing < 0.0
  }

  /** Candidate `i`, over its minimum, may be chosen although candidate `j` is under its own. */
  ghost predicate PassedOver(sc: Scene, cands: seq<Candidate>, i: nat, j: nat)
    requires KnownClients(sc, cands)
  {
    && i < |cands| && j < |cands| && MaySelect(sc, cands, i) && Eligible(sc, cands[j])
    && ScoreOf(sc, cands[i], i).missing < 0.0 < ScoreOf(sc, cands[j], j).missing
  }

  /**
   * The exact condition: somebody may be passed over if and only if the full path is taken, the
   * eligible candidates include a client under and a client over its minimum, and some client at its
   * minimum has a usage that does not agree with the order of the others.
   */
  lemma {:induction false} PassedOverExactly(sc: Scene, cands: seq<Candidate>)
    requires KnownClients(sc, cands) && SaneFractions(sc)
    ensures (exists i, j :: PassedOver(sc, cands, i, j)) <==>
            !FrontAbsent(sc, cands) && !Consistent(ValidList(sc, cands))
            && SomeEligible(sc, cands, true) && SomeEligible(sc, cands, false)
  {
    hide Consistent, StrictWeakOrder, Before;
    OrderedExactly(ValidList(sc, cands));
    if i, j :| PassedOver(sc, cands, i, j) {
      PassedOverUnordered(sc, cands, i, j);
    }
    if !FrontAbsent(sc, cands) && !StrictWeakOrder(ValidList(sc, cands), Before)
       && SomeEligible(sc, cands, true) && SomeEligible(sc, cands, false) {
      var c, d :| c in cands && Eligible(sc, c) && ScoreOf(sc, c, 0).missing < 0.0
                  && d in cands && Eligible(sc, d) && ScoreOf(sc, d, 0).missing > 0.0;
      var i :| 0 <= i < |cands| && cands[i] == c;
      var j :| 0 <= j < |cands| && cands[j] == d;
      UnorderedPick(sc, cands, i);
      assert PassedOver(sc, cands, i, j);
    }
  }

  lemma {:induction false} PassedOverUnordered(sc: Scene, cands: seq<Candidate>, i: nat, j: nat)
    requires KnownClients(sc, cands) && SaneFractions(sc) && PassedOver(sc, cands, i, j)
    ensures !FrontAbsent(sc, cands) && !StrictWeakOrder(ValidList(sc, cands), Before)
    ensures SomeEligible(sc, cands, true) && SomeEligible(sc, cands, false)
  {
    hide FullPick, Swept;
    assert cands[i] in cands && cands[j] in cands;
    assert ScoreOf(sc, cands[j], 0).missing > 0.0 > ScoreOf(sc, cands[i], 0).missing;
    if FrontAbsent(sc, cands) {
      AbsentUsageZero(sc.h, cands[0].name, sc.Start());
      MulMono(sc.Size(), 0.0, sc.cfgs[cands[0].name].minFrac);
      assert false;
    }
    FullPickFirst(sc, cands, i);
  }

  /** Without an order, sorting may put any eligible candidate in front. */
  lemma {:induction false} UnorderedPick(sc: Scene, cands: seq<Candidate>, i: nat)
    requires KnownClients(sc, cands) && !StrictWeakOrder(ValidList(sc, cands), Before)
    requires i < |cands| && Eligible(sc, cands[i])
    ensures FullPick(sc, cands, i)
  {
    hide Swept, StrictWeakOrder;
    var f := ScoreOf(sc, cands[i], i);
    ValidMembers(sc, cands, |cands|);
    var r := CanComeFirst(ValidList(sc, cands), f, Before);
  }
}
