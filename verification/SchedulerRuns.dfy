/** Usage over whole runs: the bounded overshoot, and when pruning the history is invisible. */
module SchedulerRuns {
  import opened Reals
  import opened StepIntegral
  import opened UsageModel
  import opened UsageLaws
  import opened Sweep
  import opened SweepLaws
  import opened Quota
  import opened Selection
  import opened SchedulerSpec
  import opened SchedulerInvariant

  // ----- one entry changes

  lemma {:induction false} ActiveMiddle(x: seq<Entry>, e: Entry, y: seq<Entry>, who: Who, t: real)
    ensures Active(x + [e] + y, who, t)
            == Active(x, who, t) + Active(y, who, t) + (if Of(e.name, who) && Running(e, t) then 1 else 0)
  {
    ActiveConcat(x + [e], y, who, t);
    ActiveConcat(x, [e], who, t);
    assert [e][1..] == [];
  }

  /** When an entry stops earlier or another client's entry lasts longer, my share does not grow. */
  lemma {:induction false} ShareNotRaised(x: seq<Entry>, e: Entry, e': Entry, y: seq<Entry>, n: string, t: real)
    requires e'.name == e.name
    requires if n == e.name then Running(e', t) ==> Running(e, t) else Running(e, t) ==> Running(e', t)
    ensures Share(x + [e'] + y, n, t) <= Share(x + [e] + y, n, t)
  {
    var h, h' := x + [e] + y, x + [e'] + y;
    ActiveMiddle(x, e, y, Only(n), t);
    ActiveMiddle(x, e, y, Anyone, t);
    ActiveMiddle(x, e', y, Only(n), t);
    ActiveMiddle(x, e', y, Anyone, t);
    ActiveWithin(h, n, t);
    ActiveWithin(h', n, t);
    var p, w, p', w' := Active(h, Only(n), t), Active(h, Anyone, t), Active(h', Only(n), t), Active(h', Anyone, t);
    RatioMono(p, w - p, p', w' - p');
  }

  lemma {:induction false} ShareOfIdle(h: seq<Entry>, n: string, t: real)
    requires forall e :: e in h && e.name == n ==> !Running(e, t)
    ensures Share(h, n, t) == 0.0
  {
    ClientNotRunning(h, n, t);
  }

  /** The owner of a changed entry gains at most the time by which it was extended. */
  lemma {:induction false} OwnerUsage(x: seq<Entry>, e: Entry, e': Entry, y: seq<Entry>, a: real, b: real)
    requires a <= b && e'.name == e.name && e'.start == e.start
    ensures Usage(x + [e'] + y, e.name, a, b) <= Usage(x + [e] + y, e.name, a, b) + Max(0.0, e'.end - e.end)
  {
    hide Usage;
    var h, h', hi := x + [e] + y, x + [e'] + y, Max(e.end, e'.end);
    forall t | a <= t < b
      ensures Share(h', e.name, t) <= Share(h, e.name, t) + Pulse(Entry("", e.end, hi), t)
    {
      if Running(e', t) && !Running(e, t) {
        ShareBounds(h, e.name, t);
        ShareBounds(h', e.name, t);
      } else {
        ShareNotRaised(x, e, e', y, e.name, t);
      }
    }
    UsageSlack(h', h, e.name, a, b, e.end, hi);
  }

  /** Nobody else gains, provided they were not running where the entry was cut short. */
  lemma {:induction false} OthersUsage(x: seq<Entry>, e: Entry, e': Entry, y: seq<Entry>, n: string, a: real, b: real)
    requires a <= b && e'.name == e.name && e'.start == e.start && n != e.name
    requires e'.end < e.end ==> forall d :: d in x + [e'] + y && d.name == n ==> d.end <= e'.end
    ensures Usage(x + [e'] + y, n, a, b) <= Usage(x + [e] + y, n, a, b)
  {
    hide Usage;
    var h, h' := x + [e] + y, x + [e'] + y;
    forall t | a <= t < b
      ensures Share(h', n, t) <= Share(h, n, t)
    {
      if Running(e, t) && !Running(e', t) {
        ShareOfIdle(h', n, t);
        ShareBounds(h, n, t);
      } else {
        ShareNotRaised(x, e, e', y, n, t);
      }
    }
    UsageMono(h', h, n, a, b);
  }

  /** A new entry charges its owner at most its length and nobody else. */
  lemma {:induction false} AppendUsage(h: seq<Entry>, e: Entry, n: string, a: real, b: real)
    requires a <= b && e.start <= e.end
    ensures Usage(h + [e], n, a, b) <= Usage(h, n, a, b) + (if n == e.name then e.end - e.start else 0.0)
  {
    hide Usage;
    var e0 := e.(end := e.start);
    assert h + [e] == h + [e] + [] && h + [e0] == h + [e0] + [];
    if n == e.name {
      OwnerUsage(h, e0, e, [], a, b);
    } else {
      OthersUsage(h, e0, e, [], n, a, b);
    }
    forall t | a <= t < b
      ensures Share(h + [e0], n, t) == Share(h, n, t)
    {
      ActiveConcat(h, [e0], Only(n), t);
      ActiveConcat(h, [e0], Anyone, t);
      assert [e0][1..] == [];
    }
    UsageEqual(h + [e0], h, n, a, b);
  }

  // ----- bounded overshoot

  /**
   * What a client may have been charged since its latest grant.  The limit is stretched by the
   * other clients' phantoms, which diluted the client's usage when it was selected.
   */
  ghost function Allowance(env: Settings, log: seq<Grant>, n: string): real
    requires forall i :: 0 <= i < |log| ==> log[i].name in env.cfgs
  {
    var i := LastGrant(log, n);
    if i < 0 then 0.0
    else Times(Stretch(log[i].phantoms), Part(env.cfgs[n].maxFrac, env.window)) + log[i].quota + Overuse(log[i])
  }

  ghost predicate WithinAllowance(env: Settings, s: State)
    requires GrantsOk(env, s.clock, s.log)
  {
    forall n, a, b :: s.lastWindow <= a <= b ==> Usage(s.history, n, a, b) <= Allowance(env, s.log, n)
  }

  lemma {:induction false} DropAllowance(env: Settings, log: seq<Grant>, w: real, n: string)
    requires forall i :: 0 <= i < |log| ==> log[i].name in env.cfgs
    ensures forall i :: 0 <= i < |log| ==> MarkDropped(log, w)[i].name in env.cfgs
    ensures Allowance(env, MarkDropped(log, w), n) == Allowance(env, log, n)
  {
    hide Usage;
    LastGrantSameNames(log, MarkDropped(log, w), n);
  }

  lemma {:induction false} PruneAllowance(env: Settings, s: State, now: real)
    requires Inv(env, s) && s.clock <= now && WithinAllowance(env, s)
    ensures Inv(env, AfterPrune(env, s, now)) && WithinAllowance(env, AfterPrune(env, s, now))
  {
    hide Usage, ReturnsMatch, TokensOrdered, ClientOrdered, EndsPast, Live;
    hide DistinctCandidates, SaneSettings, MarkDropped;
    PruneKeeps(env, s, now);
    var s' := AfterPrune(env, s, now);
    forall n, a, b | s'.lastWindow <= a <= b
      ensures Usage(s'.history, n, a, b) <= Allowance(env, s'.log, n)
    {
      PruneInvisible(s.history, now - env.window, n, a, b);
      DropAllowance(env, s.log, now - env.window, n);
    }
  }

  /** The selected client was within its stretched limit in every window from the current one on. */
  lemma {:induction false} SelectedUnderLimit(env: Settings, s: State, now: real, i: nat, a: real, b: real)
    requires Inv(env, s) && s.clock <= now
    requires MaySelect(SceneAt(env, s, now), s.candidates, i) && i < |s.candidates|
    requires now - env.window <= a <= b
    ensures Usage(Kept(s.history, now - env.window), s.candidates[i].name, a, b)
            <= Times(Stretch(PhantomsSeen(SceneAt(env, s, now), s.candidates, s.candidates[i].name)),
                     Part(env.cfgs[s.candidates[i].name].maxFrac, env.window))
  {
    hide Usage, MaySelect, Times, Stretch, Part, FrontAbsent;
    assert s.candidates[i] in s.candidates;
    SceneUnderLimit(SceneAt(env, s, now), s.candidates, i, a, b);
  }

  lemma {:induction false} SceneUnderLimit(sc: Scene, cands: seq<Candidate>, i: nat, a: real, b: real)
    requires KnownClients(sc, cands) && MaySelect(sc, cands, i) && i < |cands|
    requires 0.0 <= sc.now && 0.0 < sc.window && 0.0 <= sc.cfgs[cands[i].name].maxFrac && sc.Start() <= a <= b
    ensures Usage(sc.h, cands[i].name, a, b)
            <= Times(Stretch(PhantomsSeen(sc, cands, cands[i].name)), Part(sc.cfgs[cands[i].name].maxFrac, sc.window))
  {
    hide Usage, Swept, Times, Stretch, Part, OtherPhantoms, FullPick;
    var w, n := sc.Start(), cands[i].name;
    var limit := Part(sc.cfgs[n].maxFrac, sc.window);
    PartMono(sc.cfgs[n].maxFrac, sc.Size(), sc.window);
    if FrontAbsent(sc, cands) {
      ClientIdle(sc.h, n, a, b);
      TimesMono(Stretch(0), 0.0, limit);
    } else {
      FullPickFirst(sc, cands, i);
      UsageAtMostSwept(sc.h, n, w, a, b);
      TimesMono(Stretch(OtherPhantoms(sc.h, n, w)), Swept(sc.h, n, w), limit);
    }
  }

  lemma {:induction false} TimesMono(c: real, x: real, y: real)
    requires x <= y
    ensures c >= 0.0 ==> Times(c, x) <= Times(c, y)
    ensures Times(c, 0.0) == 0.0
  {
    if c >= 0.0 {
      MulMono(c, x, y);
    }
  }

  lemma {:induction false} PartMono(frac: real, x: real, y: real)
    requires 0.0 <= frac && 0.0 <= x <= y
    ensures 0.0 <= Part(frac, x) <= Part(frac, y)
  {
    MulMono(frac, x, y);
    MulMono(frac, 0.0, x);
  }

  lemma {:induction false} GrantAllowance(env: Settings, s: State, st: Step)
    requires Inv(env, s) && st.Select? && Enabled(env, s, st) && WithinAllowance(env, s)
    ensures Inv(env, Apply(env, s, st)) && WithinAllowance(env, Apply(env, s, st))
  {
    hide Usage, MaySelect, MustSleep, ReturnsMatch, TokensOrdered, ClientOrdered, EndsPast, Live,
      DistinctCandidates, SaneSettings, Kept, MarkDropped, NextQuota, PhantomsSeen, Times;
    StepKeeps(env, s, st);
    PruneAllowance(env, s, st.now);
    var p, s' := AfterPrune(env, s, st.now), Apply(env, s, st);
    var n0 := s.candidates[st.choice].name;
    var k := PhantomsSeen(SceneAt(env, s, st.now), s.candidates, n0);
    QuotaPositive(env, p, n0);
    forall n, a, b | s'.lastWindow <= a <= b
      ensures Usage(s'.history, n, a, b) <= Allowance(env, s'.log, n)
    {
      if n == n0 {
        SelectedUnderLimit(env, s, st.now, st.choice, a, b);
      }
      AppendAllowance(env, p, Grant(n0, st.recordTime, GrantedQuota(env, p, n0), NotYet, false, k), n, a, b);
    }
  }

  /** A new grant raises its owner's usage by the quota, and nobody else's. */
  lemma {:induction false} AppendAllowance(env: Settings, p: State, g: Grant, n: string, a: real, b: real)
    requires GrantsOk(env, p.clock, p.log) && g.name in env.cfgs && g.back.NotYet? && 0.0 <= g.quota && a <= b
    requires if n == g.name
             then Usage(p.history, n, a, b) <= Times(Stretch(g.phantoms), Part(env.cfgs[n].maxFrac, env.window))
             else Usage(p.history, n, a, b) <= Allowance(env, p.log, n)
    ensures Usage(p.history + [Recorded(g)], n, a, b) <= Allowance(env, p.log + [g], n)
  {
    hide Usage;
    AppendUsage(p.history, Recorded(g), n, a, b);
    if n == g.name {
      LastGrantIs(p.log + [g], n, |p.log|);
    } else if 0 <= LastGrant(p.log, n) {
      LastGrantIs(p.log + [g], n, LastGrant(p.log, n));
    }
  }

  lemma {:induction false} CloseSplits(log: seq<Grant>, n: string, overuse: real, now: real)
    returns (x: seq<Entry>, e: Entry, y: seq<Entry>)
    requires ClientOrdered(log) && 0 <= LastGrant(log, n)
    requires log[LastGrant(log, n)].back.NotYet? && !log[LastGrant(log, n)].dropped
    ensures e == Recorded(log[LastGrant(log, n)]) && Live(log) == x + [e] + y
    ensures forall d :: d in y ==> d.name != n
    ensures CloseLast(Live(log), n, overuse, now) == x + [e.(end := Min(now, e.end + overuse))] + y
  {
    var i := LastGrant(log, n);
    x, e, y := Live(log[..i]), Recorded(log[i]), Live(log[i + 1..]);
    assert log == log[..i] + [log[i]] + log[i + 1..];
    LiveSplit(log[..i], log[i], log[i + 1..]);
    NoLiveEntry(log[i + 1..], n);
    CloseLastAt(x, e, y, overuse, now);
  }

  /** Cut-short entries belong to the holder, and then everybody else ended before now. */
  lemma {:induction false} OnlyHolderCut(env: Settings, s: State, n: string, now: real, d: Entry)
    requires Inv(env, s) && s.clock <= now && d in s.history && d.name != n
    requires var i := LastGrant(s.log, n); 0 <= i && now < Recorded(s.log[i]).end
    ensures d.end <= now
  {
    LiveMembers(s.log);
    var j :| 0 <= j < |s.log| && !s.log[j].dropped && Recorded(s.log[j]) == d;
    var i := LastGrant(s.log, n);
    assert i == |s.log| - 1;
  }

  lemma {:induction false} RequestAllowance(env: Settings, s: State, st: Step)
    requires Inv(env, s) && st.Request? && st.name in env.cfgs && Enabled(env, s, st) && WithinAllowance(env, s)
    ensures Inv(env, AfterRequest(s, st)) && WithinAllowance(env, AfterRequest(s, st))
  {
    hide Usage, MaySelect, MustSleep;
    RequestKeeps(env, s, st);
    var s', i := AfterRequest(s, st), LastGrant(s.log, st.name);
    forall n, a, b | s'.lastWindow <= a <= b
      ensures Usage(s'.history, n, a, b) <= Allowance(env, s'.log, n)
    {
      LastGrantSameNames(s.log, s'.log, n);
      RequestUsage(env, s, st, n, a, b);
    }
  }

  /** A request raises its sender's usage by at most the reported overuse, and no other usage. */
  lemma {:induction false} RequestUsage(env: Settings, s: State, st: Step, n: string, a: real, b: real)
    requires Inv(env, s) && st.Request? && st.name in env.cfgs && Enabled(env, s, st) && a <= b
    ensures Usage(AfterRequest(s, st).history, n, a, b)
            <= Usage(s.history, n, a, b)
               + (if n == st.name && 0 <= LastGrant(s.log, n) then st.overuse else 0.0)
  {
    hide Usage, MaySelect, MustSleep;
    var i := LastGrant(s.log, st.name);
    if i < 0 {
      NoLiveEntry(s.log, st.name);
      CloseNone(s.history, st.name, st.overuse, st.now);
    } else if s.log[i].dropped {
      NoLiveEntry(s.log, st.name);
      CloseNone(s.history, st.name, st.overuse, st.now);
    } else {
      var x, e, y := CloseSplits(s.log, st.name, st.overuse, st.now);
      var e' := e.(end := Min(st.now, e.end + st.overuse));
      if n == st.name {
        OwnerUsage(x, e, e', y, a, b);
      } else {
        if e'.end < e.end {
          forall d | d in x + [e'] + y && d.name == n
            ensures d.end <= e'.end
          {
            assert d in x + [e] + y;
            OnlyHolderCut(env, s, st.name, st.now, d);
          }
        }
        OthersUsage(x, e, e', y, n, a, b);
      }
    }
  }

  /**
   * What a return does, exactly: the client's entry, which ended with its quota, now ends at the return
   * or with quota and overuse, whichever is earlier; the client remembers that length, the overuse and
   * the burst; and no other entry changes.  Without an entry only overuse and burst are remembered.
   */
  lemma {:induction false} ReturnExactly(env: Settings, s: State, st: Step)
    returns (x: seq<Entry>, y: seq<Entry>, end: real)
    requires Inv(env, s) && st.Request? && st.name in env.cfgs && Enabled(env, s, st)
    ensures var s', i, c := AfterRequest(s, st), LastGrant(s.log, st.name), s.clients[st.name];
            if 0 <= i && !s.log[i].dropped then
              var g := s.log[i];
              && s.history == x + [Entry(st.name, g.start, g.start + g.quota)] + y
              && s'.history == x + [Entry(st.name, g.start, end)] + y
              && end <= st.now && end - g.start <= g.quota + st.overuse
              && (end == st.now || end - g.start == g.quota + st.overuse)
              && s'.clients[st.name] == ClientState(c.quota, st.burst, st.overuse, end - g.start)
              && Recorded(s'.log[i]) == Entry(st.name, g.start, end)
            else
              && s'.history == s.history
              && s'.clients[st.name] == ClientState(c.quota, st.burst, st.overuse, c.latestActualUsage)
  {
    hide MaySelect, MustSleep;
    var i := LastGrant(s.log, st.name);
    OutstandingGrant(s, st.name);
    x, y, end := [], [], 0.0;
    if 0 <= i && !s.log[i].dropped {
      var e;
      x, e, y := CloseSplits(s.log, st.name, st.overuse, st.now);
      end := Min(st.now, e.end + st.overuse);
      ClosedLength(s.log, st.name, x, e, y);
    } else {
      NoLiveEntry(s.log, st.name);
      CloseNone(s.history, st.name, st.overuse, st.now);
      NotInHistory(s.history, st.name);
    }
  }

  lemma {:induction false} NotInHistory(h: seq<Entry>, n: string)
    requires forall e :: e in h ==> e.name != n
    ensures LastIndex(EntryNames(h), n) < 0
  {
  }

  lemma {:induction false} ClosedLength(log: seq<Grant>, n: string, x: seq<Entry>, e: Entry, y: seq<Entry>)
    requires 0 <= LastGrant(log, n) && e.name == n && Live(log) == x + [e] + y && forall d :: d in y ==> d.name != n
    ensures LastIndex(EntryNames(Live(log)), n) == |x|
  {
    var h := x + [e] + y;
    assert h[|x|] == e && forall j :: |x| < j < |h| ==> h[j] in y;
  }

  lemma {:induction false} RunAllowance(env: Settings, s: State, steps: seq<Step>)
    requires Inv(env, s) && WithinAllowance(env, s) && ValidRun(env, s, steps)
    ensures Inv(env, EndState(env, s, steps)) && WithinAllowance(env, EndState(env, s, steps))
    decreases |steps|
  {
    hide Usage, MaySelect, MustSleep;
    if steps != [] {
      StepKeeps(env, s, steps[0]);
      match steps[0] {
        case Request(_, _, name, _, _, _) =>
          if name in env.cfgs {
            RequestAllowance(env, s, steps[0]);
          }
        case Select(_, _, _, _) =>
          GrantAllowance(env, s, steps[0]);
        case Sleep(now) =>
          PruneAllowance(env, s, now);
        case Expire(_) =>
        case Wake(_) =>
      }
      RunAllowance(env, Apply(env, s, steps[0]), steps[1..]);
    }
  }

  /**
   * Bounded overshoot over every run: from a grant until the client's next grant, its usage in any
   * window that is not older than the scheduler's current one (in particular the trailing one) is at
   * most its limit, times 1 plus twice the other clients' phantoms at its selection, plus the quota
   * granted, plus the overuse it reported.  A selection that saw none leaves the plain limit.
   */
  lemma {:induction false} BoundedOvershoot(
    env: Settings, clock: real, steps: seq<Step>, n: string, a: real, b: real)
    requires SaneSettings(env) && 0.0 < clock && ValidRun(env, Initial(env, clock), steps)
    requires n in env.cfgs
    ensures var s := EndState(env, Initial(env, clock), steps);
            s.lastWindow <= s.clock - env.window
            && (s.lastWindow <= a <= b ==>
                  var i, limit := LastGrant(s.log, n), Part(env.cfgs[n].maxFrac, env.window);
                  && (i < 0 ==> Usage(s.history, n, a, b) <= 0.0)
                  && (0 <= i ==> Usage(s.history, n, a, b)
                                 <= Times(Stretch(s.log[i].phantoms), limit) + s.log[i].quota + Overuse(s.log[i]))
                  && (0 <= i && s.log[i].phantoms == 0 ==>
                        Usage(s.history, n, a, b) <= limit + s.log[i].quota + Overuse(s.log[i])))
  {
    hide Usage, MaySelect, MustSleep;
    var s0 := Initial(env, clock);
    InitialInv(env, clock);
    forall m, x, y | s0.lastWindow <= x <= y
      ensures Usage(s0.history, m, x, y) <= Allowance(env, s0.log, m)
    {
      EmptyUsage(m, x, y);
    }
    RunAllowance(env, s0, steps);
    assert Times(Stretch(0), Part(env.cfgs[n].maxFrac, env.window)) == Part(env.cfgs[n].maxFrac, env.window);
  }

  // ----- the computed usages in reachable states

  /**
   * Whenever the daemon selects, the usages it computes never exceed the window size over all clients,
   * also while less than a window has elapsed.  Each is at least the usage in the trailing window
   * divided by 1 plus twice the other clients' phantoms, and equal to it if no recorded end is the
   * window start.
   */
  lemma {:induction false} ComputedUsages(
    env: Settings, clock: real, steps: seq<Step>, now: real, n: string, names: seq<string>)
    requires SaneSettings(env) && 0.0 < clock && ValidRun(env, Initial(env, clock), steps)
    requires var s := EndState(env, Initial(env, clock), steps);
             s.phase.Idle? && s.clock <= now && Distinct(names) && Covers(names, s.history)
    ensures var s := EndState(env, Initial(env, clock), steps);
            var sc := SceneAt(env, s, now);
            && TotalSwept(sc.h, names, sc.Start()) <= sc.Size()
            && Usage(s.history, n, sc.Start(), now)
               <= Times(Stretch(OtherPhantoms(sc.h, n, sc.Start())), Swept(sc.h, n, sc.Start()))
            && ((forall e :: e in s.history ==> e.end != sc.Start()) ==>
                  Swept(sc.h, n, sc.Start()) == Usage(s.history, n, sc.Start(), now))
  {
    hide Usage, Swept, MaySelect, MustSleep, Inv, SceneAt, Times, Stretch, OtherPhantoms;
    InitialInv(env, clock);
    RunKeeps(env, Initial(env, clock), steps);
    ComputedUsagesAt(env, EndState(env, Initial(env, clock), steps), now, n, names);
  }

  lemma {:induction false} ComputedUsagesAt(env: Settings, s: State, now: real, n: string, names: seq<string>)
    requires Inv(env, s) && s.phase.Idle? && s.clock <= now && Distinct(names) && Covers(names, s.history)
    ensures var sc := SceneAt(env, s, now);
            && TotalSwept(sc.h, names, sc.Start()) <= sc.Size()
            && Usage(s.history, n, sc.Start(), now)
               <= Times(Stretch(OtherPhantoms(sc.h, n, sc.Start())), Swept(sc.h, n, sc.Start()))
            && ((forall e :: e in s.history ==> e.end != sc.Start()) ==>
                  Swept(sc.h, n, sc.Start()) == Usage(s.history, n, sc.Start(), now))
  {
    hide Usage, Swept, TotalSwept, Times, Stretch, OtherPhantoms;
    var sc := SceneAt(env, s, now);
    HistoryPast(env, s);
    KeptMembers(s.history, sc.Start());
    SweptWithinWindow(sc.h, names, now, env.window);
    PruneInvisible(s.history, sc.Start(), n, sc.Start(), now);
    UsageAtMostSwept(sc.h, n, sc.Start(), sc.Start(), now);
    if forall e :: e in s.history ==> e.end != sc.Start() {
      HorizonLeast(sc.h, sc.Start(), now);
      assert !HasPhantom(sc.h, sc.Start());
      SweptIsUsage(sc.h, n, sc.Start(), now);
    }
  }

  /** The usage has reached the limit in the window, or in the time since the start if that is shorter. */
  ghost predicate LimitReached(cfg: Config, now: real, window: real, usage: real) {
    cfg.maxFrac * Min(now, window) <= usage
  }

  /**
   * In every run, when no recorded end is the window start, a daemon that is free to select has to
   * sleep if and only if the first candidate's client ran in the trailing window and every candidate's
   * usage in it has reached the limit.
   */
  lemma {:induction false} SleepsExactly(env: Settings, clock: real, steps: seq<Step>, now: real)
    requires SaneSettings(env) && 0.0 < clock && ValidRun(env, Initial(env, clock), steps)
    requires var s := EndState(env, Initial(env, clock), steps);
             s.phase.Idle? && s.clock <= now && s.candidates != []
             && forall e :: e in s.history ==> e.end != now - env.window
    ensures var s, w := EndState(env, Initial(env, clock), steps), now - env.window;
            && CandidatesKnown(env, s)
            && (Enabled(env, s, Step.Sleep(now)) <==>
                  && (exists e :: e in s.history && e.name == s.candidates[0].name && w <= e.end)
                  && (forall c :: c in s.candidates ==>
                        LimitReached(env.cfgs[c.name], now, env.window, Usage(s.history, c.name, w, now))))
  {
    hide Usage, Swept, MaySelect, MustSleep, Inv, SceneAt, LimitReached;
    InitialInv(env, clock);
    RunKeeps(env, Initial(env, clock), steps);
    SleepsExactlyAt(env, EndState(env, Initial(env, clock), steps), now);
  }

  lemma {:induction false} SleepsExactlyAt(env: Settings, s: State, now: real)
    requires Inv(env, s) && s.phase.Idle? && s.clock <= now && s.candidates != []
    requires forall e :: e in s.history ==> e.end != now - env.window
    ensures CandidatesKnown(env, s)
    ensures var w := now - env.window;
            Enabled(env, s, Step.Sleep(now)) <==>
            && (exists e :: e in s.history && e.name == s.candidates[0].name && w <= e.end)
            && (forall c :: c in s.candidates ==>
                  LimitReached(env.cfgs[c.name], now, env.window, Usage(s.history, c.name, w, now)))
  {
    hide Usage, Swept, MustSleep;
    var sc, w := SceneAt(env, s, now), now - env.window;
    assert KnownClients(sc, s.candidates) && 0.0 < now;
    SleepersAtLimit(sc, s.candidates);
    HistoryPast(env, s);
    hide Inv, LimitReached;
    forall c | c in s.candidates
      ensures Swept(sc.h, c.name, w) == Usage(s.history, c.name, w, now)
    {
      SweptTrailing(s.history, c.name, w, now);
    }
    KeptMembers(s.history, w);
    hide Kept;
  }

  lemma {:induction false} SleepersAtLimit(sc: Scene, cands: seq<Candidate>)
    requires KnownClients(sc, cands) && cands != [] && 0.0 <= sc.now && 0.0 < sc.window
    ensures MustSleep(sc, cands) <==>
            && (exists e :: e in sc.h && e.name == cands[0].name)
            && (forall c :: c in cands ==>
                  LimitReached(sc.cfgs[c.name], sc.now, sc.window, Swept(sc.h, c.name, sc.Start())))
  {
    hide Swept, MustSleep;
    MustSleepExactly(sc, cands);
  }

  lemma {:induction false} SweptTrailing(h: seq<Entry>, n: string, w: real, now: real)
    requires w <= now && forall e :: e in h ==> e.end <= now && e.end != w
    ensures Swept(Kept(h, w), n, w) == Usage(h, n, w, now)
  {
    hide Usage, Swept;
    KeptMembers(h, w);
    assert !HasPhantom(Kept(h, w), w);
    HorizonLeast(Kept(h, w), w, now);
    SweptIsUsage(Kept(h, w), n, w, now);
    PruneInvisible(h, w, n, w, now);
  }

  lemma {:induction false} HistoryPast(env: Settings, s: State)
    requires Inv(env, s) && s.phase.Idle?
    ensures Proper(s.history) && forall e :: e in s.history ==> e.end <= s.clock
  {
    InvSafe(env, s);
    hide Inv;
  }

  // ----- pruning is invisible

  /** No entry that left the history list reaches past the window start at which it was dropped. */
  ghost predicate DroppedOld(s: State) {
    forall i :: 0 <= i < |s.log| && s.log[i].dropped ==> Recorded(s.log[i]).end <= s.lastWindow
  }

  lemma {:induction false} LiveActive(log: seq<Grant>, w: real, who: Who, t: real)
    requires forall i :: 0 <= i < |log| && log[i].dropped ==> Recorded(log[i]).end <= w
    requires w <= t
    ensures Active(Live(log), who, t) == Active(FullHistory(log), who, t)
  {
    if log != [] {
      var pre, g := log[..|log| - 1], log[|log| - 1];
      LiveActive(pre, w, who, t);
      ActiveConcat(Live(pre), if g.dropped then [] else [Recorded(g)], who, t);
      ActiveConcat(FullHistory(pre), [Recorded(g)], who, t);
      assert [Recorded(g)][1..] == [];
    }
  }

  /** An entry that was dropped and then extended past the window start is missing from the accounts. */
  lemma {:induction false} LateReportVisible(env: Settings, s: State, i: nat)
    requires Inv(env, s) && i < |s.log| && s.log[i].dropped && s.lastWindow < Recorded(s.log[i]).end
    ensures var e := Recorded(s.log[i]); var a := Max(s.lastWindow, e.start);
            s.lastWindow <= a < e.end
            && Usage(s.history, e.name, a, e.end) == 0.0 && Usage(FullHistory(s.log), e.name, a, e.end) > 0.0
  {
    hide Usage;
    var e := Recorded(s.log[i]);
    var a := Max(s.lastWindow, e.start);
    EndAfterToken(s.log[i]);
    FullHistoryAt(s.log);
    assert FullHistory(s.log)[i] == e;
    RunningThroughout(FullHistory(s.log), e, a, e.end);
    UsageBounds(FullHistory(s.log), e.name, a, e.end);
    LiveElsewhere(env, s, i);
    NeverRunning(s.history, e.name, a, e.end);
  }

  /** The live entries of a client lie entirely after its dropped ones. */
  lemma {:induction false} LiveElsewhere(env: Settings, s: State, i: nat)
    requires Inv(env, s) && i < |s.log| && s.log[i].dropped
    ensures forall d :: d in s.history && d.name == s.log[i].name ==> Recorded(s.log[i]).end <= d.start
  {
    LiveMembers(s.log);
    forall d | d in s.history && d.name == s.log[i].name
      ensures Recorded(s.log[i]).end <= d.start
    {
      var j :| 0 <= j < |s.log| && !s.log[j].dropped && Recorded(s.log[j]) == d;
      assert i < j;
    }
  }

  lemma {:induction false} NeverRunning(h: seq<Entry>, n: string, a: real, b: real)
    requires a <= b && forall e :: e in h && e.name == n ==> b <= e.start
    ensures Usage(h, n, a, b) == 0.0
  {
    hide Usage;
    forall t | a <= t < b
      ensures Share(h, n, t) <= Share([], n, t)
    {
      ShareOfIdle(h, n, t);
    }
    UsageMono(h, [], n, a, b);
    EmptyUsage(n, a, b);
    UsageBounds(h, n, a, b);
  }

  /**
   * Pruning is invisible, now and in every later window, if and only if no dropped entry has been
   * extended past the window start.
   */
  lemma {:induction false} PruningInvisible(env: Settings, s: State)
    requires Inv(env, s)
    ensures DroppedOld(s) <==>
            forall n, a, b :: s.lastWindow <= a <= b ==>
              Usage(s.history, n, a, b) == Usage(FullHistory(s.log), n, a, b)
  {
    hide Usage;
    if DroppedOld(s) {
      forall n, a, b | s.lastWindow <= a <= b
        ensures Usage(s.history, n, a, b) == Usage(FullHistory(s.log), n, a, b)
      {
        forall t | a <= t < b
          ensures Share(s.history, n, t) == Share(FullHistory(s.log), n, t)
        {
          LiveActive(s.log, s.lastWindow, Only(n), t);
          LiveActive(s.log, s.lastWindow, Anyone, t);
        }
        UsageEqual(s.history, FullHistory(s.log), n, a, b);
      }
    } else {
      var i :| 0 <= i < |s.log| && s.log[i].dropped && s.lastWindow < Recorded(s.log[i]).end;
      LateReportVisible(env, s, i);
    }
  }

  /** A request does not revive an entry that was dropped. */
  ghost predicate Timely(s: State, step: Step) {
    step.Request? ==>
      var i := LastGrant(s.log, step.name);
      0 <= i && s.log[i].dropped ==> Min(step.now, Recorded(s.log[i]).end + step.overuse) <= s.lastWindow
  }

  /** On a state where pruning is invisible, exactly the timely steps keep it so. */
  lemma {:induction false} TimelyStep(env: Settings, s: State, step: Step)
    requires Inv(env, s) && Enabled(env, s, step) && DroppedOld(s)
    requires step.Request? ==> step.name in env.cfgs
    ensures DroppedOld(Apply(env, s, step)) <==> Timely(s, step)
  {
    hide LastGrant, LastIndex, EntryNames, CloseLast, Kept, SceneAt, NextQuota;
    if step.Request? {
      var i := LastGrant(s.log, step.name);
      var s' := AfterRequest(s, step);
      assert 0 <= i ==> Recorded(s'.log[i]).end == Min(step.now, Recorded(s.log[i]).end + step.overuse);
    } else if step.Select? || step.Sleep? {
      var p := AfterPrune(env, s, step.now);
      assert forall j :: 0 <= j < |s.log| ==> Recorded(p.log[j]) == Recorded(s.log[j]);
      assert DroppedOld(p);
    }
  }

  ghost predicate TimelyRun(env: Settings, s: State, steps: seq<Step>)
    requires ValidRun(env, s, steps)
    decreases |steps|
  {
    steps == [] || (Timely(s, steps[0]) && TimelyRun(env, Apply(env, s, steps[0]), steps[1..]))
  }

  lemma {:induction false} TimelyRunKeeps(env: Settings, s: State, steps: seq<Step>)
    requires Inv(env, s) && DroppedOld(s) && ValidRun(env, s, steps) && TimelyRun(env, s, steps)
    ensures Inv(env, EndState(env, s, steps)) && DroppedOld(EndState(env, s, steps))
    decreases |steps|
  {
    if steps != [] {
      StepKeeps(env, s, steps[0]);
      if steps[0].Request? ==> steps[0].name in env.cfgs {
        TimelyStep(env, s, steps[0]);
      }
      TimelyRunKeeps(env, Apply(env, s, steps[0]), steps[1..]);
    }
  }

  /** Over every run without late overuse reports, the pruned list accounts like the full history. */
  lemma {:induction false} PruningInvisibleOverRuns(
    env: Settings, clock: real, steps: seq<Step>, n: string, a: real, b: real)
    requires SaneSettings(env) && 0.0 < clock
    requires ValidRun(env, Initial(env, clock), steps) && TimelyRun(env, Initial(env, clock), steps)
    ensures var s := EndState(env, Initial(env, clock), steps);
            s.lastWindow <= a <= b ==> Usage(s.history, n, a, b) == Usage(FullHistory(s.log), n, a, b)
  {
    hide Usage, MaySelect, MustSleep;
    InitialInv(env, clock);
    TimelyRunKeeps(env, Initial(env, clock), steps);
    PruningInvisible(env, EndState(env, Initial(env, clock), steps));
  }
}
