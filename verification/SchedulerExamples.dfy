/**
 * Concrete cases in which the scheduler misses a guarantee: a run that breaks the plain overshoot
 * bound, a run that loses reported overuse, and candidates that the comparator cannot order.
 */
module SchedulerExamples {
  import opened Reals
  import opened StepIntegral
  import opened UsageModel
  import opened UsageLaws
  import opened Sweep
  import opened SweepLaws
  import opened StdSort
  import opened Priority
  import opened Quota
  import opened Selection
  import opened SchedulerSpec
  import opened SchedulerInvariant
  import opened SchedulerRuns

  /**
   * Settings as the scheduler makes them: all clients share the base and the smallest quota, and a
   * client's largest quota is its limit in a whole window.
   */
  predicate Configured(env: Settings, base: real, least: real) {
    forall n :: n in env.cfgs ==>
      var c := env.cfgs[n];
      c.baseQuota == base && c.minQuota == least && c.maxQuota == Part(c.maxFrac, env.window)
  }

  // ----- two clients, a window of 10 ms

  const CFG_A: Config := Config(3.0, 1.0, 10.0, 0.0, 1.0)
  const CFG_C: Config := Config(3.0, 1.0, 2.5, 0.0, 0.25)
  const ENV: Settings := Settings(map["a" := CFG_A, "c" := CFG_C], 10.0)

  const RUN_A: Entry := Entry("a", 1.0, 4.0)
  const RUN_C: Entry := Entry("c", 4.0, 7.0)
  const CLIENT_A: ClientState := ClientState(3.0, 0.0, 0.0, 0.0)
  const CLIENT_C: ClientState := ClientState(3.0, 0.0, 0.0, 0.0)
  const GRANT_A: Grant := Grant("a", 1.0, 3.0, NotYet, false, 0)
  const GRANT_C: Grant := Grant("c", 4.0, 3.0, NotYet, false, 0)

  /** The state with the given lists; `actual` is the latest usage recorded for client "c". */
  function Now(h: seq<Entry>, cands: seq<Candidate>, actual: real, phase: Phase, clock: real, lastWindow: real,
               log: seq<Grant>): State
  {
    State(h, cands, map["a" := CLIENT_A, "c" := CLIENT_C.(latestActualUsage := actual)], phase, clock, lastWindow, log)
  }

  /** A step leads from one state to the next. */
  ghost predicate Leads(env: Settings, s: State, st: Step, s': State) {
    CandidatesKnown(env, s) && Enabled(env, s, st) && Apply(env, s, st) == s'
  }

  /** States that lead from one to the next form a run. */
  lemma {:induction false} Chain(env: Settings, states: seq<State>, steps: seq<Step>)
    requires |states| == |steps| + 1
    requires forall i :: 0 <= i < |steps| ==> Leads(env, states[i], steps[i], states[i + 1])
    ensures ValidRun(env, states[0], steps) && EndState(env, states[0], steps) == states[|steps|]
    decreases |steps|
  {
    if steps != [] {
      hide Enabled, Apply, CandidatesKnown;
      assert Leads(env, states[0], steps[0], states[1]);
      Chain(env, states[1..], steps[1..]);
    }
  }

  lemma {:induction false} EnvConfigured()
    ensures SaneSettings(ENV) && Configured(ENV, 3.0, 1.0)
  {
  }

  // ----- the common beginning: "a" gets the token from 1 to 4 and does not return

  const S0: State := Now([], [], 0.0, Idle, 1.0, -9.0, [])
  const S1: State := Now([], [Candidate(0, "a", 1, 1.0)], 0.0, Idle, 1.0, -9.0, [])
  const S2: State := Now([RUN_A], [], 0.0, Holding("a", 4.0), 1.0, -9.0, [GRANT_A])
  const S3: State := Now([RUN_A], [], 0.0, Idle, 4.0, -9.0, [GRANT_A])

  const ASK_A: Step := Request(1.0, 0, "a", 1, 0.0, 0.0)
  const GIVE_A: Step := Select(1.0, 0, 1.0, 4.0)
  const EXPIRE_A: Step := Expire(4.0)

  lemma {:induction false} Beginning()
    ensures S0 == Initial(ENV, 1.0)
    ensures Leads(ENV, S0, ASK_A, S1) && Leads(ENV, S1, GIVE_A, S2) && Leads(ENV, S2, EXPIRE_A, S3)
  {
    assert Initial(ENV, 1.0).clients == S0.clients;
    assert AfterRequest(S0, ASK_A).clients == S1.clients;
    assert AfterRequest(S0, ASK_A) == S1;
    assert S1.candidates[0] in S1.candidates;
    assert FrontAbsent(SceneAt(ENV, S1, 1.0), S1.candidates);
    assert S1.candidates[..0] + S1.candidates[1..] == [];
    assert S1.clients["a" := CLIENT_A] == S2.clients;
    assert MarkDropped([], -9.0) == [];
    assert Apply(ENV, S1, GIVE_A) == S2;
  }

  // ----- "c" runs from 4 to 7 and is selected again exactly one window after the end of "a"

  const S4: State := Now([RUN_A], [Candidate(1, "c", 1, 4.0)], 0.0, Idle, 4.0, -9.0, [GRANT_A])
  const S5: State := Now([RUN_A, RUN_C], [], 0.0, Holding("c", 7.0), 4.0, -6.0, [GRANT_A, GRANT_C])
  const LOG_6: seq<Grant> := [GRANT_A, GRANT_C.(back := Returned(7.0, 0.0))]
  const BACK_C: Candidate := Candidate(1, "c", 2, 7.0)
  const S6: State := Now([RUN_A, RUN_C], [BACK_C], 3.0, Holding("c", 7.0), 7.0, -6.0, LOG_6)
  const S7: State := Now([RUN_A, RUN_C], [BACK_C], 3.0, Idle, 7.0, -6.0, LOG_6)
  const AGAIN_C: Entry := Entry("c", 14.0, 17.0)
  const S8: State := Now([RUN_A, RUN_C, AGAIN_C], [], 3.0, Holding("c", 17.0), 14.0, 4.0,
                         LOG_6 + [Grant("c", 14.0, 3.0, NotYet, false, 1)])

  const ASK_C: Step := Request(4.0, 1, "c", 1, 0.0, 0.0)
  const GIVE_C: Step := Select(4.0, 0, 4.0, 7.0)
  const RETURN_C: Step := Request(7.0, 1, "c", 2, 0.0, 0.0)
  const WAKE_C: Step := Wake(7.0)
  const GIVE_AGAIN: Step := Select(14.0, 0, 14.0, 17.0)

  lemma {:induction false} FirstTurnOfC()
    ensures Leads(ENV, S3, ASK_C, S4) && Leads(ENV, S4, GIVE_C, S5)
  {
    assert AfterRequest(S3, ASK_C).clients == S4.clients;
    assert AfterRequest(S3, ASK_C) == S4;
    assert S4.candidates[0] in S4.candidates;
    assert [RUN_A][1..] == [] && Kept([RUN_A], -6.0) == [RUN_A] + Kept([], -6.0);
    assert FrontAbsent(SceneAt(ENV, S4, 4.0), S4.candidates);
    assert S4.candidates[..0] + S4.candidates[1..] == [];
    assert S4.clients["c" := CLIENT_C] == S5.clients;
    assert MarkDropped([GRANT_A], -6.0) == [GRANT_A];
    assert Apply(ENV, S4, GIVE_C) == S5;
  }

  lemma {:induction false} ReturnOfC()
    ensures Leads(ENV, S5, RETURN_C, S6) && Leads(ENV, S6, WAKE_C, S7)
  {
    assert LastIndex(EntryNames(S5.history), "c") == 1 && LastGrant(S5.log, "c") == 1;
    assert AfterRequest(S5, RETURN_C).clients == S6.clients;
    assert AfterRequest(S5, RETURN_C) == S6;
    assert BACK_C in S6.candidates;
  }

  const TURNS: seq<Step> := [ASK_A, GIVE_A, EXPIRE_A, ASK_C, GIVE_C, RETURN_C, WAKE_C]

  lemma {:induction false} TurnsChain()
    ensures ValidRun(ENV, Initial(ENV, 1.0), TURNS) && EndState(ENV, Initial(ENV, 1.0), TURNS) == S7
  {
    hide Leads, ValidRun, EndState, Initial, Now;
    Beginning();
    FirstTurnOfC();
    ReturnOfC();
    var states := [S0, S1, S2, S3, S4, S5, S6, S7];
    assert forall i :: 0 <= i < 7 ==> Leads(ENV, states[i], TURNS[i], states[i + 1]);
    Chain(ENV, states, TURNS);
  }

  lemma {:induction false} KeptBoth()
    ensures Kept([RUN_A, RUN_C], 4.0) == [RUN_A, RUN_C] && Horizon([RUN_A, RUN_C], 4.0) == 7.0
    ensures OtherPhantoms([RUN_A, RUN_C], "c", 4.0) == 1
  {
    assert [RUN_A, RUN_C][1..] == [RUN_C] && [RUN_C][1..] == [];
    assert Kept([RUN_C], 4.0) == [RUN_C] + Kept([], 4.0);
    assert Horizon([RUN_C], 4.0) == Max(7.0, Horizon([], 4.0));
    assert OtherPhantoms([RUN_C], "c", 4.0) == OtherPhantoms([], "c", 4.0);
  }

  /** The sweep shares the 3 ms of "c" with the entry of "a" that has ended. */
  lemma {:induction false} DilutedSweep()
    ensures Swept([RUN_A, RUN_C], "c", 4.0) <= 2.0
  {
    hide Usage, Covered;
    var h, names := [RUN_A, RUN_C], ["a", "c"];
    KeptBoth();
    assert h[1..] == [RUN_C] && RUN_A in h;
    SweptConservation(h, names, 4.0);
    assert names[1..] == ["c"] && ["c"][1..] == [];
    assert TotalSwept(h, ["c"], 4.0) == Swept(h, "c", 4.0) + TotalSwept(h, [], 4.0);
    var seen := Haunted(h, 4.0, 7.0);
    assert Haunted([RUN_C], 4.0, 7.0) == [RUN_C] + Haunted([], 4.0, 7.0);
    assert |seen| == 3;
    PhantomMember(h, 4.0, 7.0, RUN_A);
    ChargedThroughout(seen, Entry("a", 4.0, 8.0), 4.0, 7.0);
    assert Area(3.0, 1.0 / 3.0) == 1.0;
  }

  /**
   * What the coincidence costs, in a state that a run reaches: "c" has used 3 ms of the window, more
   * than its limit of 2.5, and is nevertheless the one to be selected.
   */
  lemma {:induction false} MistimedSelection()
    ensures SaneSettings(ENV) && Configured(ENV, 3.0, 1.0)
    ensures ValidRun(ENV, Initial(ENV, 1.0), TURNS) && EndState(ENV, Initial(ENV, 1.0), TURNS) == S7
    ensures CandidatesKnown(ENV, S7)
    ensures var sc := SceneAt(ENV, S7, 14.0);
            Usage(S7.history, "c", 4.0, 14.0) == 3.0 && Part(CFG_C.maxFrac, sc.Size()) == 2.5
            && Eligible(sc, BACK_C) && MaySelect(sc, S7.candidates, 0)
  {
    hide Usage, Swept, ValidRun, EndState, Initial, Configured, SaneSettings;
    EnvConfigured();
    TurnsChain();
    var h := [RUN_A, RUN_C];
    KeptBoth();
    assert h[1..] == [RUN_C] && [RUN_C][1..] == [] && RUN_A in h && RUN_C in h;
    DisjointUsage(h, "c", 4.0, 14.0);
    assert SumClipped([RUN_C], "c", 4.0, 14.0) == Clipped(RUN_C, 4.0, 14.0) + SumClipped([], "c", 4.0, 14.0);
    DilutedSweep();
    var sc := SceneAt(ENV, S7, 14.0);
    assert BACK_C in S7.candidates;
    OnlyCandidate(sc, BACK_C);
  }

  /** A single eligible candidate is picked. */
  lemma {:induction false} OnlyCandidate(sc: Scene, c: Candidate)
    requires c.name in sc.cfgs && Eligible(sc, c)
    ensures FullPick(sc, [c], 0)
  {
    hide Eligible;
    var v := ValidList(sc, [c]);
    ValidMembers(sc, [c], 1);
    assert ScoreOf(sc, c, 0) in v;
    var r := SortExists(v, Before);
    SameElements(r, v);
    assert v[0] in v;
    assert r[0] in r;
  }

  lemma {:induction false} SecondTurnOfC()
    ensures Leads(ENV, S7, GIVE_AGAIN, S8)
  {
    hide MaySelect, ValidRun, EndState;
    KeptBoth();
    MistimedSelection();
    assert RUN_C in SceneAt(ENV, S7, 14.0).h;
    assert S7.candidates[..0] + S7.candidates[1..] == [];
    assert S7.clients["c" := S7.clients["c"]] == S8.clients;
    assert MarkDropped(LOG_6, 4.0) == LOG_6;
    assert Apply(ENV, S7, GIVE_AGAIN) == S8;
  }

  const MISTIMED: seq<Step> := [ASK_A, GIVE_A, EXPIRE_A, ASK_C, GIVE_C, RETURN_C, WAKE_C, GIVE_AGAIN]

  /**
   * The plain overshoot bound fails: in this run client "c" is charged 6 ms in the window from 4 to 17,
   * more than its limit of 2.5 plus its quota of 3, although it reported no overuse.
   */
  lemma {:induction false} OvershootRun()
    ensures SaneSettings(ENV) && Configured(ENV, 3.0, 1.0) && ValidRun(ENV, Initial(ENV, 1.0), MISTIMED)
    ensures var s := EndState(ENV, Initial(ENV, 1.0), MISTIMED);
            var i := LastGrant(s.log, "c");
            0 <= i && s.lastWindow == 4.0 && s.log[i].phantoms == 1
            && Usage(s.history, "c", 4.0, 17.0) == 6.0
            && Part(CFG_C.maxFrac, ENV.window) + s.log[i].quota + Overuse(s.log[i]) == 5.5
  {
    MistimedChain();
    hide ValidRun, EndState, Usage;
    FinalUsage();
    LastGrantIs(S8.log, "c", 2);
  }

  lemma {:induction false} MistimedChain()
    ensures ValidRun(ENV, Initial(ENV, 1.0), MISTIMED) && EndState(ENV, Initial(ENV, 1.0), MISTIMED) == S8
  {
    hide Leads, ValidRun, EndState, Initial, Now;
    Beginning();
    FirstTurnOfC();
    ReturnOfC();
    SecondTurnOfC();
    var states := [S0, S1, S2, S3, S4, S5, S6, S7, S8];
    assert forall i :: 0 <= i < 8 ==> Leads(ENV, states[i], MISTIMED[i], states[i + 1]);
    Chain(ENV, states, MISTIMED);
  }

  lemma {:induction false} FinalUsage()
    ensures Usage(S8.history, "c", 4.0, 17.0) == 6.0
  {
    hide Usage;
    var h := [RUN_A, RUN_C, AGAIN_C];
    assert h[1..] == [RUN_C, AGAIN_C] && [RUN_C, AGAIN_C][1..] == [AGAIN_C] && [AGAIN_C][1..] == [];
    assert forall e :: e in h ==> e == RUN_A || e == RUN_C || e == AGAIN_C;
    DisjointUsage(h, "c", 4.0, 17.0);
    assert SumClipped([AGAIN_C], "c", 4.0, 17.0) == 3.0 + SumClipped([], "c", 4.0, 17.0);
    assert SumClipped([RUN_C, AGAIN_C], "c", 4.0, 17.0) == 3.0 + SumClipped([AGAIN_C], "c", 4.0, 17.0);
  }

  // ----- overuse reported after the entry was pruned

  const T4: State := Now([RUN_A], [Candidate(1, "c", 1, 20.0)], 0.0, Idle, 20.0, -9.0, [GRANT_A])
  const LATE_C: Entry := Entry("c", 20.0, 23.0)
  const LATE_GRANT: Grant := Grant("c", 20.0, 3.0, NotYet, false, 0)
  const T5: State := Now([LATE_C], [], 0.0, Holding("c", 23.0), 20.0, 10.0,
                         [GRANT_A.(dropped := true), LATE_GRANT])

  const LATE_ASK: Step := Request(20.0, 1, "c", 1, 0.0, 0.0)
  const LATE_GIVE: Step := Select(20.0, 0, 20.0, 23.0)
  const LATE_REPORT: Step := Request(21.0, 0, "a", 2, 10.0, 0.0)

  lemma {:induction false} PrunedOnSelection()
    ensures Leads(ENV, S3, LATE_ASK, T4) && Leads(ENV, T4, LATE_GIVE, T5)
  {
    assert AfterRequest(S3, LATE_ASK).clients == T4.clients;
    assert AfterRequest(S3, LATE_ASK) == T4;
    assert T4.candidates[0] in T4.candidates;
    assert [RUN_A][1..] == [] && Kept([RUN_A], 10.0) == Kept([], 10.0);
    assert FrontAbsent(SceneAt(ENV, T4, 20.0), T4.candidates);
    assert T4.candidates[..0] + T4.candidates[1..] == [];
    assert T4.clients["c" := CLIENT_C] == T5.clients;
    assert MarkDropped([GRANT_A], 10.0) == [GRANT_A.(dropped := true)];
    assert Apply(ENV, T4, LATE_GIVE) == T5;
  }

  const LATE: seq<Step> := [ASK_A, GIVE_A, EXPIRE_A, LATE_ASK, LATE_GIVE, LATE_REPORT]

  /**
   * Overuse reported for a pruned entry is lost: after this run the complete history charges "a" for
   * the time up to 14, the history list for none of it, although the window starts at 10.
   */
  lemma {:induction false} LateReportRun()
    ensures SaneSettings(ENV) && Configured(ENV, 3.0, 1.0) && ValidRun(ENV, Initial(ENV, 1.0), LATE)
    ensures var s := EndState(ENV, Initial(ENV, 1.0), LATE);
            s.lastWindow == 10.0 && s.log != [] && Recorded(s.log[0]).end == 14.0 && !DroppedOld(s)
            && Usage(s.history, "a", 10.0, 14.0) == 0.0 && Usage(FullHistory(s.log), "a", 10.0, 14.0) > 0.0
  {
    var t6 := LateChain();
    hide ValidRun, EndState, Usage, Inv;
    InitialInv(ENV, 1.0);
    RunKeeps(ENV, Initial(ENV, 1.0), LATE);
    LateReportVisible(ENV, t6, 0);
  }

  lemma {:induction false} LateChain() returns (t6: State)
    ensures ValidRun(ENV, Initial(ENV, 1.0), LATE) && EndState(ENV, Initial(ENV, 1.0), LATE) == t6
    ensures t6.lastWindow == 10.0 && |t6.log| == 2 && t6.log[0].dropped
    ensures Recorded(t6.log[0]) == Entry("a", 1.0, 14.0)
  {
    hide Leads, ValidRun, EndState, Initial, Now, Recorded;
    Beginning();
    PrunedOnSelection();
    t6 := LateReport();
    var states := [S0, S1, S2, S3, T4, T5, t6];
    assert forall i :: 0 <= i < 6 ==> Leads(ENV, states[i], LATE[i], states[i + 1]);
    Chain(ENV, states, LATE);
  }

  lemma {:induction false} LateReport() returns (t6: State)
    ensures Leads(ENV, T5, LATE_REPORT, t6)
    ensures t6.lastWindow == 10.0 && |t6.log| == 2 && t6.log[0].dropped
    ensures Recorded(t6.log[0]) == Entry("a", 1.0, 14.0)
  {
    LastGrantIs(T5.log, "a", 0);
    t6 := AfterRequest(T5, LATE_REPORT);
  }

  // ----- candidates that cannot be ordered

  /** Minimums of 4, 6 and 1 ms in a window of 12, limits of 12. */
  const MIXED: map<string, Config> := map[
    "x" := Config(3.0, 1.0, 12.0, 4.0 / 12.0, 1.0),
    "y" := Config(3.0, 1.0, 12.0, 6.0 / 12.0, 1.0),
    "z" := Config(3.0, 1.0, 12.0, 1.0 / 12.0, 1.0)]

  const RUNS: seq<Entry> := [Entry("x", 1.0, 5.0), Entry("y", 5.0, 10.0), Entry("z", 10.0, 12.0)]
  const MIX: Scene := Scene(RUNS, MIXED, 13.0, 12.0)
  const WAITERS: seq<Candidate> := [Candidate(0, "x", 2, 12.0), Candidate(1, "y", 2, 12.0), Candidate(2, "z", 2, 12.0)]

  const MIX_ENV: Settings := Settings(MIXED, 12.0)
  const FRESH: ClientState := ClientState(3.0, 0.0, 0.0, 0.0)
  const BACK_X: ClientState := ClientState(3.0, 0.0, 1.0, 4.0)
  const BACK_Y: ClientState := ClientState(3.0, 0.0, 2.0, 5.0)
  const BACK_Z: ClientState := ClientState(3.0, 0.0, 0.0, 2.0)

  function Trio(x: ClientState, y: ClientState, z: ClientState): map<string, ClientState> {
    map["x" := x, "y" := y, "z" := z]
  }

  const TOOK_X: Entry := Entry("x", 1.0, 4.0)
  const TOOK_Y: Entry := Entry("y", 5.0, 8.0)
  const TOOK_Z: Entry := Entry("z", 10.0, 13.0)
  const GAVE_X: Grant := Grant("x", 1.0, 3.0, NotYet, false, 0)
  const GAVE_Y: Grant := Grant("y", 5.0, 3.0, NotYet, false, 0)
  const GAVE_Z: Grant := Grant("z", 10.0, 3.0, NotYet, false, 0)

  // Each client gets its first token.

  const M0: State := State([], [], Trio(FRESH, FRESH, FRESH), Idle, 1.0, -11.0, [])
  const M1: State := M0.(candidates := [Candidate(0, "x", 1, 1.0)])
  const M2: State := M0.(history := [TOOK_X], phase := Holding("x", 4.0), log := [GAVE_X])
  const M3: State := M2.(phase := Idle, clock := 5.0)
  const M4: State := M3.(candidates := [Candidate(1, "y", 1, 5.0)])
  const M5: State := M3.(history := [TOOK_X, TOOK_Y], phase := Holding("y", 8.0), lastWindow := -7.0,
                         log := [GAVE_X, GAVE_Y])
  const M6: State := M5.(phase := Idle, clock := 10.0)
  const M7: State := M6.(candidates := [Candidate(2, "z", 1, 10.0)])
  const M8: State := M6.(history := [TOOK_X, TOOK_Y, TOOK_Z], phase := Holding("z", 13.0), lastWindow := -2.0,
                         log := [GAVE_X, GAVE_Y, GAVE_Z])

  // All come back at 12, "x" and "y" with overuse.

  const M9: State := M8.(history := [RUNS[0], TOOK_Y, TOOK_Z], candidates := WAITERS[..1], clock := 12.0,
                         clients := Trio(BACK_X, FRESH, FRESH),
                         log := [GAVE_X.(back := Returned(12.0, 1.0)), GAVE_Y, GAVE_Z])
  const M10: State := M9.(history := [RUNS[0], RUNS[1], TOOK_Z], candidates := WAITERS[..2],
                          clients := Trio(BACK_X, BACK_Y, FRESH),
                          log := M9.log[1 := GAVE_Y.(back := Returned(12.0, 2.0))])
  const M11: State := M10.(history := RUNS, candidates := WAITERS, clients := Trio(BACK_X, BACK_Y, BACK_Z),
                           log := M10.log[2 := GAVE_Z.(back := Returned(12.0, 0.0))])
  const M12: State := M11.(phase := Idle)

  const TURN_X: seq<Step> := [Request(1.0, 0, "x", 1, 0.0, 0.0), Select(1.0, 0, 1.0, 4.0), Expire(5.0)]
  const TURN_Y: seq<Step> := [Request(5.0, 1, "y", 1, 0.0, 0.0), Select(5.0, 0, 5.0, 8.0), Expire(10.0)]
  const TURN_Z: seq<Step> := [Request(10.0, 2, "z", 1, 0.0, 0.0), Select(10.0, 0, 10.0, 13.0)]
  const RETURNS: seq<Step> := [Request(12.0, 0, "x", 2, 1.0, 0.0), Request(12.0, 1, "y", 2, 2.0, 0.0),
                               Request(12.0, 2, "z", 2, 0.0, 0.0), Wake(12.0)]
  const MEETING: seq<Step> := TURN_X + (TURN_Y + (TURN_Z + RETURNS))

  /** The steps lead from one state to another. */
  ghost predicate Reaches(env: Settings, s: State, steps: seq<Step>, s': State) {
    ValidRun(env, s, steps) && EndState(env, s, steps) == s'
  }

  lemma {:induction false} InTurn(env: Settings, s: State, first: seq<Step>, s': State, rest: seq<Step>, s'': State)
    requires Reaches(env, s, first, s') && Reaches(env, s', rest, s'')
    ensures Reaches(env, s, first + rest, s'')
    decreases |first|
  {
    if first == [] {
      assert first + rest == rest;
    } else {
      hide Enabled, Apply, CandidatesKnown;
      assert (first + rest)[0] == first[0] && (first + rest)[1..] == first[1..] + rest;
      InTurn(env, Apply(env, s, first[0]), first[1..], s', rest, s'');
    }
  }

  /** The first request of a client that has no entry yet. */
  lemma {:induction false} FirstAsk(s: State, st: Step)
    requires st.Request? && st.name in MIXED && st.overuse == 0.0 && st.burst == 0.0 && s.clock <= st.now
    requires s.clients == Trio(FRESH, FRESH, FRESH) && s.candidates == []
    requires (forall e :: e in s.history ==> e.name != st.name) && (forall g :: g in s.log ==> g.name != st.name)
    ensures Leads(MIX_ENV, s, st,
                  s.(candidates := [Candidate(st.socket, st.name, st.reqId, st.now)], clock := st.now))
  {
    var s' := s.(candidates := [Candidate(st.socket, st.name, st.reqId, st.now)], clock := st.now);
    var i, j := LastIndex(EntryNames(s.history), st.name), LastGrant(s.log, st.name);
    assert i < 0 && j < 0;
    assert AfterRequest(s, st).clients == s.clients;
    assert AfterRequest(s, st) == s';
  }

  /** A lone candidate without an entry is given the token at once. */
  lemma {:induction false} FirstGrant(s: State, now: real, deadline: real)
    requires s.clients == Trio(FRESH, FRESH, FRESH) && s.phase.Idle? && s.clock <= now && now + 3.0 <= deadline
    requires |s.candidates| == 1 && s.candidates[0].name in MIXED
    requires forall e :: e in s.history ==> e.name != s.candidates[0].name && now - 12.0 <= e.end
    requires forall i :: 0 <= i < |s.log| ==> now - 12.0 <= Recorded(s.log[i]).end
    ensures var n := s.candidates[0].name;
            Leads(MIX_ENV, s, Select(now, 0, now, deadline),
                  s.(history := s.history + [Entry(n, now, now + 3.0)], candidates := [],
                     phase := Holding(n, deadline), clock := now, lastWindow := now - 12.0,
                     log := s.log + [Grant(n, now, 3.0, NotYet, false, 0)]))
  {
    var n, st := s.candidates[0].name, Select(now, 0, now, deadline);
    assert s.candidates[0] in s.candidates;
    NothingPruned(s.history, now - 12.0);
    assert FrontAbsent(SceneAt(MIX_ENV, s, now), s.candidates);
    assert s.candidates[..0] + s.candidates[1..] == [];
    assert s.clients[n := FRESH] == s.clients;
    assert MarkDropped(s.log, now - 12.0) == s.log;
    hide Recorded;
    assert Apply(MIX_ENV, s, st).history == s.history + [Entry(n, now, now + 3.0)];
  }

  lemma {:induction false} NothingPruned(h: seq<Entry>, w: real)
    requires forall e :: e in h ==> w <= e.end
    ensures Kept(h, w) == h
  {
    if h != [] {
      NothingPruned(h[1..], w);
    }
  }

  lemma {:induction false} TurnOfX()
    ensures M0 == Initial(MIX_ENV, 1.0) && Reaches(MIX_ENV, M0, TURN_X, M3)
  {
    assert Initial(MIX_ENV, 1.0).clients == M0.clients;
    assert Leads(MIX_ENV, M2, TURN_X[2], M3);
    FirstAsk(M0, TURN_X[0]);
    FirstGrant(M1, 1.0, 4.0);
    hide Leads, ValidRun, EndState;
    Chain(MIX_ENV, [M0, M1, M2, M3], TURN_X);
  }

  lemma {:induction false} TurnOfY()
    ensures Reaches(MIX_ENV, M3, TURN_Y, M6)
  {
    assert Leads(MIX_ENV, M5, TURN_Y[2], M6);
    FirstAsk(M3, TURN_Y[0]);
    FirstGrant(M4, 5.0, 8.0);
    hide Leads, ValidRun, EndState;
    Chain(MIX_ENV, [M3, M4, M5, M6], TURN_Y);
  }

  lemma {:induction false} TurnOfZ()
    ensures Reaches(MIX_ENV, M6, TURN_Z, M8)
  {
    FirstAsk(M6, TURN_Z[0]);
    FirstGrant(M7, 10.0, 13.0);
    hide Leads, ValidRun, EndState;
    Chain(MIX_ENV, [M6, M7, M8], TURN_Z);
  }

  /** A return closes the client's only entry. */
  lemma {:induction false} ComeBack(s: State, st: Step, i: nat)
    requires st.Request? && st.name in MIXED && s.clients.Keys == MIXED.Keys && 0.0 <= st.overuse && s.clock <= st.now
    requires forall c :: c in s.candidates ==> c.name in MIXED && c.name != st.name
    requires i < |s.history| == |s.log| && s.history[i].name == s.log[i].name == st.name && s.log[i].start < st.now
    requires forall j :: i < j < |s.log| ==> s.history[j].name != st.name && s.log[j].name != st.name
    ensures var end := Min(st.now, s.history[i].end + st.overuse);
            var c := s.clients[st.name].(burst := st.burst, latestOveruse := st.overuse);
            Leads(MIX_ENV, s, st,
                  s.(history := s.history[i := s.history[i].(end := end)],
                     candidates := s.candidates + [Candidate(st.socket, st.name, st.reqId, st.now)],
                     clients := s.clients[st.name := c.(latestActualUsage := end - s.history[i].start)],
                     clock := st.now,
                     log := s.log[i := s.log[i].(back := Returned(st.now, st.overuse))]))
  {
    assert LastIndex(EntryNames(s.history), st.name) == i && LastGrant(s.log, st.name) == i;
    hide LastIndex, LastGrant;
  }

  lemma {:induction false} ReturnOfX()
    ensures Leads(MIX_ENV, M8, RETURNS[0], M9)
  {
    ComeBack(M8, RETURNS[0], 0);
    hide Leads;
    assert M8.history[0 := RUNS[0]] == M9.history && M8.log[0 := M9.log[0]] == M9.log;
    assert M8.clients["x" := BACK_X] == M9.clients && [] + [WAITERS[0]] == M9.candidates;
  }

  lemma {:induction false} ReturnOfY()
    ensures Leads(MIX_ENV, M9, RETURNS[1], M10)
  {
    ComeBack(M9, RETURNS[1], 1);
    hide Leads;
    assert M9.history[1 := RUNS[1]] == M10.history && M9.clients["y" := BACK_Y] == M10.clients;
    assert M9.candidates + [WAITERS[1]] == M10.candidates;
  }

  lemma {:induction false} ReturnOfZ()
    ensures Leads(MIX_ENV, M10, RETURNS[2], M11)
  {
    ComeBack(M10, RETURNS[2], 2);
    hide Leads;
    assert M10.history[2 := RUNS[2]] == M11.history && M10.clients["z" := BACK_Z] == M11.clients;
    assert M10.candidates + [WAITERS[2]] == M11.candidates;
  }

  lemma {:induction false} HolderWakes()
    ensures Leads(MIX_ENV, M11, RETURNS[3], M12)
  {
    assert WAITERS[2] in M11.candidates;
  }

  lemma {:induction false} AllReturn()
    ensures Reaches(MIX_ENV, M8, RETURNS, M12)
  {
    hide Leads, ValidRun, EndState;
    hide M8, M9, M10, M11, M12;
    ReturnOfX();
    ReturnOfY();
    ReturnOfZ();
    HolderWakes();
    Chain(MIX_ENV, [M8, M9, M10, M11, M12], RETURNS);
  }

  /** A run in which the three clients meet. */
  lemma {:induction false} MeetingRun()
    ensures Reaches(MIX_ENV, Initial(MIX_ENV, 1.0), MEETING, M12)
    ensures M12.phase.Idle? && M12.clock <= 13.0 && SceneAt(MIX_ENV, M12, 13.0) == MIX && M12.candidates == WAITERS
  {
    NothingPruned(RUNS, 1.0);
    hide Reaches;
    TurnOfX();
    TurnOfY();
    TurnOfZ();
    AllReturn();
    InTurn(MIX_ENV, M6, TURN_Z, M8, RETURNS, M12);
    InTurn(MIX_ENV, M3, TURN_Y, M6, TURN_Z + RETURNS, M12);
    InTurn(MIX_ENV, M0, TURN_X, M3, TURN_Y + (TURN_Z + RETURNS), M12);
  }

  lemma {:induction false} MixUsages()
    ensures Swept(RUNS, "x", 1.0) == 4.0 && Swept(RUNS, "y", 1.0) == 5.0 && Swept(RUNS, "z", 1.0) == 2.0
  {
    hide Usage, Swept;
    var y, z := Entry("y", 5.0, 10.0), Entry("z", 10.0, 12.0);
    assert RUNS[1..] == [y, z] && [y, z][1..] == [z] && [z][1..] == [];
    assert forall e :: e in RUNS ==> e == Entry("x", 1.0, 5.0) || e == y || e == z;
    forall n
      ensures Swept(RUNS, n, 1.0) == SumClipped(RUNS, n, 1.0, 12.0)
    {
      HorizonLeast(RUNS, 1.0, 12.0);
      SweptIsUsage(RUNS, n, 1.0, 12.0);
      DisjointUsage(RUNS, n, 1.0, 12.0);
      assert SumClipped([z], n, 1.0, 12.0)
             == (if n == "z" then Clipped(z, 1.0, 12.0) else 0.0) + SumClipped([], n, 1.0, 12.0);
      assert SumClipped([y, z], n, 1.0, 12.0)
             == (if n == "y" then Clipped(y, 1.0, 12.0) else 0.0) + SumClipped([z], n, 1.0, 12.0);
    }
  }

  /** The three scores: "x" is exactly at its minimum, "y" under and "z" over. */
  lemma {:induction false} MixScores()
    ensures KnownClients(MIX, WAITERS)
    ensures forall c :: c in WAITERS ==> Eligible(MIX, c)
    ensures var x, y, z := ScoreOf(MIX, WAITERS[0], 0), ScoreOf(MIX, WAITERS[1], 1), ScoreOf(MIX, WAITERS[2], 2);
            && x.missing == 0.0 && x.usage == 4.0 && y.missing == 1.0 && z.missing == -1.0
            && Before(x, y) && Before(y, z) && Before(z, x)
  {
    hide Swept;
    MixUsages();
  }

  lemma {:induction false} MixPassedOver()
    ensures KnownClients(MIX, WAITERS) && PassedOver(MIX, WAITERS, 2, 1)
    ensures !Consistent(ValidList(MIX, WAITERS)) && !StrictWeakOrder(ValidList(MIX, WAITERS), Before)
  {
    MixScores();
    hide Swept, ScoreOf, Eligible, Before;
    assert WAITERS[0] in WAITERS && WAITERS[1] in WAITERS && WAITERS[2] in WAITERS;
    MixUnordered();
    OrderedExactly(ValidList(MIX, WAITERS));
    UnorderedPick(MIX, WAITERS, 2);
    assert RUNS[0].name == WAITERS[0].name && RUNS[0] in MIX.h;
  }

  /**
   * All three clients are below their limits, "x" sits exactly at its minimum, and the comparator puts
   * "x" before "y", "y" before "z" and "z" before "x".  So "z", over its minimum, may be chosen although
   * "y" is under its own.  The run ends in a state in which the daemon selects from just these.
   */
  lemma {:induction false} UnorderedCandidates()
    ensures SaneSettings(MIX_ENV) && Configured(MIX_ENV, 3.0, 1.0)
    ensures ValidRun(MIX_ENV, Initial(MIX_ENV, 1.0), MEETING)
    ensures var s := EndState(MIX_ENV, Initial(MIX_ENV, 1.0), MEETING);
            s.phase.Idle? && s.clock <= 13.0 && SceneAt(MIX_ENV, s, 13.0) == MIX && s.candidates == WAITERS
    ensures KnownClients(MIX, WAITERS) && forall c :: c in WAITERS ==> Eligible(MIX, c)
    ensures !NoneAtMinimum(MIX, WAITERS) && !Consistent(ValidList(MIX, WAITERS))
    ensures !StrictWeakOrder(ValidList(MIX, WAITERS), Before)
    ensures PassedOver(MIX, WAITERS, 2, 1)
  {
    hide ValidRun, EndState, Initial, SceneAt, M12, Consistent, StrictWeakOrder, PassedOver, NoneAtMinimum, Eligible;
    hide ScoreOf, Before, Swept;
    MixConfigured();
    MeetingRun();
    MixScores();
    MixPassedOver();
    AtMinimum();
  }

  lemma {:induction false} MixConfigured()
    ensures SaneSettings(MIX_ENV) && Configured(MIX_ENV, 3.0, 1.0)
  {
  }

  lemma {:induction false} AtMinimum()
    ensures KnownClients(MIX, WAITERS) && !NoneAtMinimum(MIX, WAITERS)
  {
    MixScores();
    hide Eligible;
    assert WAITERS[0] in WAITERS;
  }

  lemma {:induction false} MixUnordered()
    ensures KnownClients(MIX, WAITERS) && !StrictWeakOrder(ValidList(MIX, WAITERS), Before)
  {
    MixScores();
    hide Swept, Before, Eligible, ScoreOf;
    ValidMembers(MIX, WAITERS, 3);
    var x, y, z := ScoreOf(MIX, WAITERS[0], 0), ScoreOf(MIX, WAITERS[1], 1), ScoreOf(MIX, WAITERS[2], 2);
    var v := ValidList(MIX, WAITERS);
    assert x in v && y in v && z in v;
  }
}
