/** What every step of the scheduler keeps, and token safety over every run. */
module SchedulerInvariant {
  import opened Reals
  import opened UsageModel
  import opened UsageLaws
  import opened Quota
  import opened Selection
  import opened SchedulerSpec

  ghost predicate SaneSettings(env: Settings) {
    0.0 < env.window
    && forall n :: n in env.cfgs ==>
         var c := env.cfgs[n];
         0.0 < c.baseQuota && 0.0 < c.minQuota && 0.0 < c.maxQuota && 0.0 <= c.minFrac && 0.0 <= c.maxFrac
  }

  // ----- the invariant, clause by clause

  ghost predicate GrantOk(env: Settings, clock: real, g: Grant) {
    && g.name in env.cfgs && 0.0 < g.start <= clock && 0.0 < g.quota
    && (g.back.Returned? ==> g.start < g.back.time <= clock && 0.0 <= g.back.overuse)
  }

  ghost predicate GrantsOk(env: Settings, clock: real, log: seq<Grant>) {
    forall i :: 0 <= i < |log| ==> GrantOk(env, clock, log[i])
  }

  /** Tokens are handed out one after the other. */
  ghost predicate TokensOrdered(log: seq<Grant>) {
    forall i, j :: 0 <= i < j < |log| ==> TokenEnd(log[i]) <= log[j].start
  }

  /** A client's earlier grants came back before its later ones began, and are pruned first. */
  ghost predicate ClientOrdered(log: seq<Grant>) {
    forall i, j :: 0 <= i < j < |log| && log[i].name == log[j].name ==>
      log[i].back.Returned? && log[i].back.time <= log[j].start && (log[j].dropped ==> log[i].dropped)
  }

  /** The latest grant of a client has come back exactly when the client is waiting again. */
  ghost predicate ReturnsMatch(log: seq<Grant>, cands: seq<Candidate>) {
    forall n :: var i := LastGrant(log, n); 0 <= i ==> (log[i].back.Returned? <==> Waiting(cands, n))
  }

  ghost predicate DistinctCandidates(cands: seq<Candidate>) {
    forall i, j :: 0 <= i < j < |cands| ==> cands[i].name != cands[j].name
  }

  /** Only the current holder's entry may reach into the future, and not past the deadline. */
  ghost predicate EndsPast(s: State) {
    forall i :: 0 <= i < |s.log| ==>
      Recorded(s.log[i]).end <= s.clock
      || (s.phase.Holding? && i == |s.log| - 1 && s.log[i].name == s.phase.name
          && s.log[i].back.NotYet? && Recorded(s.log[i]).end <= s.phase.deadline)
  }

  ghost predicate Inv(env: Settings, s: State) {
    && SaneSettings(env) && CandidatesKnown(env, s)
    && 0.0 < s.clock && s.lastWindow + env.window <= s.clock
    && GrantsOk(env, s.clock, s.log) && s.history == Live(s.log)
    && TokensOrdered(s.log) && ClientOrdered(s.log)
    && ReturnsMatch(s.log, s.candidates) && DistinctCandidates(s.candidates) && EndsPast(s)
  }

  lemma {:induction false} InitialInv(env: Settings, clock: real)
    requires SaneSettings(env) && 0.0 < clock
    ensures Inv(env, Initial(env, clock))
  {
  }

  // ----- histories and logs

  lemma {:induction false} LiveConcat(a: seq<Grant>, b: seq<Grant>)
    ensures Live(a + b) == Live(a) + Live(b)
  {
    if b == [] {
      assert a + b == a;
    } else {
      assert (a + b)[..|a + b| - 1] == a + b[..|b| - 1];
      LiveConcat(a, b[..|b| - 1]);
    }
  }

  lemma {:induction false} LiveMembers(log: seq<Grant>)
    ensures forall e :: e in Live(log) <==> exists i :: 0 <= i < |log| && !log[i].dropped && Recorded(log[i]) == e
  {
    if log != [] {
      var pre := log[..|log| - 1];
      LiveMembers(pre);
      forall e
        ensures e in Live(log) <==> exists i :: 0 <= i < |log| && !log[i].dropped && Recorded(log[i]) == e
      {
        if e in Live(pre) {
          var i :| 0 <= i < |pre| && !pre[i].dropped && Recorded(pre[i]) == e;
          assert !log[i].dropped && Recorded(log[i]) == e;
        }
        if i :| 0 <= i < |log| && !log[i].dropped && Recorded(log[i]) == e {
          if i < |pre| {
            assert !pre[i].dropped && Recorded(pre[i]) == e;
          }
        }
      }
    }
  }

  lemma {:induction false} KeptConcat(a: seq<Entry>, b: seq<Entry>, w: real)
    ensures Kept(a + b, w) == Kept(a, w) + Kept(b, w)
  {
    if a == [] {
      assert a + b == b;
    } else {
      assert (a + b)[1..] == a[1..] + b;
      KeptConcat(a[1..], b, w);
    }
  }

  lemma {:induction false} DropIsPrune(log: seq<Grant>, w: real)
    ensures Live(MarkDropped(log, w)) == Kept(Live(log), w)
  {
    if log != [] {
      var pre, g := log[..|log| - 1], log[|log| - 1];
      DropIsPrune(pre, w);
      var log' := MarkDropped(log, w);
      assert log'[..|log| - 1] == MarkDropped(pre, w);
      KeptConcat(Live(pre), if g.dropped then [] else [Recorded(g)], w);
      assert Kept([], w) == [];
      assert [Recorded(g)][1..] == [];
    }
  }

  /** Closing rewrites the latest entry of the client and nothing else. */
  lemma {:induction false} CloseLastAt(x: seq<Entry>, e: Entry, y: seq<Entry>, overuse: real, now: real)
    requires forall d :: d in y ==> d.name != e.name
    ensures CloseLast(x + [e] + y, e.name, overuse, now)
            == x + [e.(end := Min(now, e.end + overuse))] + y
  {
    var h := x + [e] + y;
    assert h[|x|] == e;
    assert forall i :: |x| < i < |h| ==> h[i] == y[i - |x| - 1];
    assert LastIndex(EntryNames(h), e.name) == |x|;
  }

  lemma {:induction false} CloseNone(h: seq<Entry>, n: string, overuse: real, now: real)
    requires forall d :: d in h ==> d.name != n
    ensures CloseLast(h, n, overuse, now) == h
  {
  }

  lemma {:induction false} NoLiveEntry(log: seq<Grant>, n: string)
    requires forall i :: 0 <= i < |log| && log[i].name == n ==> log[i].dropped
    ensures forall e :: e in Live(log) ==> e.name != n
  {
    LiveMembers(log);
  }

  /** Closing the latest entry in the list is marking the latest grant as returned. */
  lemma {:induction false} CloseIsReturn(log: seq<Grant>, n: string, overuse: real, now: real)
    requires ClientOrdered(log)
    requires var i := LastGrant(log, n); 0 <= i ==> log[i].back.NotYet?
    ensures Live(MarkReturned(log, n, overuse, now)) == CloseLast(Live(log), n, overuse, now)
  {
    var i := LastGrant(log, n);
    if i < 0 {
      NoLiveEntry(log, n);
      CloseNone(Live(log), n, overuse, now);
    } else {
      assert MarkReturned(log, n, overuse, now)
             == log[..i] + [log[i].(back := Returned(now, overuse))] + log[i + 1..];
      assert log == log[..i] + [log[i]] + log[i + 1..];
      CloseAt(log[..i], log[i], log[i + 1..], overuse, now);
    }
  }

  lemma {:induction false} CloseAt(pre: seq<Grant>, g: Grant, post: seq<Grant>, overuse: real, now: real)
    requires g.back.NotYet?
    requires forall i :: 0 <= i < |post| ==> post[i].name != g.name
    requires g.dropped ==> forall i :: 0 <= i < |pre| && pre[i].name == g.name ==> pre[i].dropped
    ensures Live(pre + [g.(back := Returned(now, overuse))] + post)
            == CloseLast(Live(pre + [g] + post), g.name, overuse, now)
  {
    var g' := g.(back := Returned(now, overuse));
    LiveSplit(pre, g, post);
    LiveSplit(pre, g', post);
    NoLiveEntry(post, g.name);
    if g.dropped {
      NoLiveEntry(pre, g.name);
      CloseNone(Live(pre) + [] + Live(post), g.name, overuse, now);
    } else {
      CloseLastAt(Live(pre), Recorded(g), Live(post), overuse, now);
    }
  }

  lemma {:induction false} LiveSnoc(log: seq<Grant>, g: Grant)
    requires !g.dropped
    ensures Live(log + [g]) == Live(log) + [Recorded(g)]
  {
    assert (log + [g])[..|log|] == log;
  }

  lemma {:induction false} LiveSplit(pre: seq<Grant>, g: Grant, post: seq<Grant>)
    ensures Live(pre + [g] + post) == Live(pre) + (if g.dropped then [] else [Recorded(g)]) + Live(post)
  {
    LiveConcat(pre + [g], post);
    LiveConcat(pre, [g]);
    assert [g][..0] == [];
  }

  // ----- steps keep the invariant

  lemma {:induction false} LastGrantIs(log: seq<Grant>, n: string, i: int)
    requires 0 <= i < |log| && log[i].name == n && forall j :: i < j < |log| ==> log[j].name != n
    ensures LastGrant(log, n) == i
  {
  }

  /** The latest grant of a client is determined by the names in the log. */
  lemma {:induction false} LastGrantSameNames(a: seq<Grant>, b: seq<Grant>, n: string)
    requires |a| == |b| && forall i :: 0 <= i < |a| ==> a[i].name == b[i].name
    ensures LastGrant(a, n) == LastGrant(b, n)
  {
    var i := LastGrant(a, n);
    if 0 <= i {
      LastGrantIs(b, n, i);
    }
  }

  lemma {:induction false} EndAfterToken(g: Grant)
    requires 0.0 < g.quota && (g.back.Returned? ==> g.start < g.back.time && 0.0 <= g.back.overuse)
    ensures g.start < TokenEnd(g) <= Recorded(g).end <= TokenEnd(g) + Overuse(g)
  {
  }

  /** The log clauses after a return of client `n`. */
  lemma {:induction false} ReturnKeepsLog(env: Settings, s: State, n: string, overuse: real, now: real)
    requires GrantsOk(env, s.clock, s.log) && TokensOrdered(s.log) && ClientOrdered(s.log)
    requires s.clock <= now && 0.0 <= overuse
    requires var i := LastGrant(s.log, n); 0 <= i ==> s.log[i].back.NotYet? && s.log[i].start < now
    ensures var log' := MarkReturned(s.log, n, overuse, now);
            GrantsOk(env, now, log') && TokensOrdered(log') && ClientOrdered(log')
  {
    hide LastGrant;
    var i := LastGrant(s.log, n);
    if 0 <= i {
      var g' := s.log[i].(back := Returned(now, overuse));
      assert TokenEnd(g') <= TokenEnd(s.log[i]) && GrantOk(env, now, g');
      hide TokenEnd;
      assert TokensOrdered(s.log[i := g']);
    }
  }

  lemma {:induction false} ReturnMatches(s: State, n: string, overuse: real, now: real, c: Candidate)
    requires ReturnsMatch(s.log, s.candidates) && c.name == n
    ensures ReturnsMatch(MarkReturned(s.log, n, overuse, now), s.candidates + [c])
  {
    var log', cands := MarkReturned(s.log, n, overuse, now), s.candidates + [c];
    assert c in cands && forall d :: d in s.candidates ==> d in cands;
    forall m
      ensures var i := LastGrant(log', m); 0 <= i ==> (log'[i].back.Returned? <==> Waiting(cands, m))
    {
      LastGrantSameNames(s.log, log', m);
    }
  }

  lemma {:induction false} ReturnKeepsEnds(s: State, n: string, overuse: real, now: real, s': State)
    requires EndsPast(s) && s.clock <= now
    requires s'.log == MarkReturned(s.log, n, overuse, now) && s'.clock == now && s'.phase == s.phase
    ensures EndsPast(s')
  {
  }

  lemma {:induction false} OutstandingGrant(s: State, n: string)
    requires ReturnsMatch(s.log, s.candidates) && !Waiting(s.candidates, n)
    ensures var i := LastGrant(s.log, n); 0 <= i ==> s.log[i].back.NotYet?
  {
  }

  lemma {:induction false} RequestKeeps(env: Settings, s: State, st: Step)
    requires Inv(env, s) && st.Request? && Enabled(env, s, st) && st.name in env.cfgs
    ensures Inv(env, AfterRequest(s, st))
  {
    hide ReturnsMatch, TokensOrdered, ClientOrdered, Live, MarkReturned, CloseLast;
    OutstandingGrant(s, st.name);
    CloseIsReturn(s.log, st.name, st.overuse, st.now);
    ReturnKeepsLog(env, s, st.name, st.overuse, st.now);
    ReturnMatches(s, st.name, st.overuse, st.now, Candidate(st.socket, st.name, st.reqId, st.now));
    ReturnKeepsEnds(s, st.name, st.overuse, st.now, AfterRequest(s, st));
  }

  /** The log clauses after pruning. */
  lemma {:induction false} DropKeepsLog(env: Settings, s: State, w: real, now: real)
    requires GrantsOk(env, s.clock, s.log) && TokensOrdered(s.log) && ClientOrdered(s.log) && s.clock <= now
    ensures var log' := MarkDropped(s.log, w);
            GrantsOk(env, now, log') && TokensOrdered(log') && ClientOrdered(log')
  {
    var log' := MarkDropped(s.log, w);
    forall i | 0 <= i < |s.log|
      ensures TokenEnd(log'[i]) == TokenEnd(s.log[i]) && GrantOk(env, now, log'[i])
      ensures log'[i].dropped <==> s.log[i].dropped || Recorded(s.log[i]).end < w
    {
      assert GrantOk(env, s.clock, s.log[i]);
    }
    hide TokenEnd, GrantOk, MarkDropped;
    forall i, j | 0 <= i < j < |s.log| && s.log[i].name == s.log[j].name && log'[j].dropped
      ensures log'[i].dropped
    {
      EndAfterToken(s.log[j]);
    }
  }

  lemma {:induction false} DropMatches(log: seq<Grant>, cands: seq<Candidate>, w: real)
    requires ReturnsMatch(log, cands)
    ensures ReturnsMatch(MarkDropped(log, w), cands)
  {
    var log' := MarkDropped(log, w);
    forall n
      ensures var i := LastGrant(log', n); 0 <= i ==> (log'[i].back.Returned? <==> Waiting(cands, n))
    {
      LastGrantSameNames(log, log', n);
    }
  }

  lemma {:induction false} DropKeepsEnds(s: State, w: real, s': State)
    requires EndsPast(s) && s.clock <= s'.clock && s'.phase == s.phase && s'.log == MarkDropped(s.log, w)
    ensures EndsPast(s')
  {
    forall i | 0 <= i < |s.log|
      ensures Recorded(s'.log[i]) == Recorded(s.log[i])
    {
    }
  }

  lemma {:induction false} PruneKeeps(env: Settings, s: State, now: real)
    requires Inv(env, s) && s.clock <= now
    ensures Inv(env, AfterPrune(env, s, now))
  {
    hide ReturnsMatch, TokensOrdered, ClientOrdered, Live, MarkDropped, Kept;
    var w := now - env.window;
    DropIsPrune(s.log, w);
    DropKeepsLog(env, s, w, now);
    DropMatches(s.log, s.candidates, w);
    DropKeepsEnds(s, w, AfterPrune(env, s, now));
  }

  lemma {:induction false} QuotaPositive(env: Settings, s: State, n: string)
    requires SaneSettings(env) && n in env.cfgs && n in s.clients
    ensures 0.0 < GrantedQuota(env, s, n)
  {
  }

  lemma {:induction false} GrantKeeps(
    env: Settings, s: State, choice: nat, recordTime: real, deadline: real, phantoms: nat)
    requires Inv(env, s) && s.phase.Idle? && choice < |s.candidates| && s.clock <= recordTime
    requires recordTime + GrantedQuota(env, s, s.candidates[choice].name) <= deadline
    ensures Inv(env, AfterGrant(env, s, choice, recordTime, deadline, phantoms))
  {
    hide ReturnsMatch, TokensOrdered, ClientOrdered, DistinctCandidates, EndsPast, Live, NextQuota;
    var n := s.candidates[choice].name;
    var g := Grant(n, recordTime, GrantedQuota(env, s, n), NotYet, false, phantoms);
    QuotaPositive(env, s, n);
    AllReturned(env, s, choice);
    AppendKeepsLog(env, s, g);
    LiveSnoc(s.log, g);
    GrantReturns(s, choice, g);
    GrantKeepsEnds(s, g, AfterGrant(env, s, choice, recordTime, deadline, phantoms), deadline);
  }

  lemma {:induction false} GrantKeepsEnds(s: State, g: Grant, s': State, deadline: real)
    requires EndsPast(s) && s.phase.Idle? && s.clock <= s'.clock && s'.log == s.log + [g]
    requires g.back.NotYet? && Recorded(g).end <= deadline && s'.phase == Holding(g.name, deadline)
    ensures EndsPast(s')
  {
    assert forall i :: 0 <= i < |s.log| ==> s'.log[i] == s.log[i];
  }

  /** Every earlier grant of a waiting client has come back. */
  lemma {:induction false} AllReturned(env: Settings, s: State, choice: nat)
    requires GrantsOk(env, s.clock, s.log) && ClientOrdered(s.log) && ReturnsMatch(s.log, s.candidates)
    requires choice < |s.candidates|
    ensures forall i :: 0 <= i < |s.log| && s.log[i].name == s.candidates[choice].name ==>
              s.log[i].back.Returned? && s.log[i].back.time <= s.clock
  {
    var n := s.candidates[choice].name;
    assert s.candidates[choice] in s.candidates;
    var k := LastGrant(s.log, n);
    forall i | 0 <= i < |s.log| && s.log[i].name == n
      ensures s.log[i].back.Returned? && s.log[i].back.time <= s.clock
    {
      assert i <= k;
    }
  }

  /** The log clauses after a new grant, made when all ends are in the past. */
  lemma {:induction false} AppendKeepsLog(env: Settings, s: State, g: Grant)
    requires GrantsOk(env, s.clock, s.log) && TokensOrdered(s.log) && ClientOrdered(s.log)
    requires s.clock <= g.start && GrantOk(env, g.start, g) && !g.dropped && EndsPast(s) && s.phase.Idle?
    requires forall i :: 0 <= i < |s.log| && s.log[i].name == g.name ==>
               s.log[i].back.Returned? && s.log[i].back.time <= s.clock
    ensures GrantsOk(env, g.start, s.log + [g]) && TokensOrdered(s.log + [g]) && ClientOrdered(s.log + [g])
  {
    forall i | 0 <= i < |s.log|
      ensures TokenEnd(s.log[i]) <= g.start
    {
      EndAfterToken(s.log[i]);
    }
  }

  lemma {:induction false} GrantReturns(s: State, choice: nat, g: Grant)
    requires ReturnsMatch(s.log, s.candidates) && DistinctCandidates(s.candidates)
    requires choice < |s.candidates| && g.name == s.candidates[choice].name && g.back.NotYet?
    ensures ReturnsMatch(s.log + [g], s.candidates[..choice] + s.candidates[choice + 1..])
    ensures DistinctCandidates(s.candidates[..choice] + s.candidates[choice + 1..])
  {
    var cands, log := s.candidates[..choice] + s.candidates[choice + 1..], s.log + [g];
    forall n
      ensures var i := LastGrant(log, n); 0 <= i ==> (log[i].back.Returned? <==> Waiting(cands, n))
    {
      if n == g.name {
        LastGrantIs(log, n, |s.log|);
        assert forall c :: c in cands ==> c.name != n;
      } else {
        var i := LastGrant(s.log, n);
        if 0 <= i {
          LastGrantIs(log, n, i);
        }
        assert Waiting(cands, n) <==> Waiting(s.candidates, n) by {
          if c :| c in s.candidates && c.name == n {
            var k :| 0 <= k < |s.candidates| && s.candidates[k] == c;
            assert if k < choice then cands[k] == c else cands[k - 1] == c;
          }
        }
      }
    }
  }

  /** Every step keeps the invariant. */
  lemma {:induction false} StepKeeps(env: Settings, s: State, step: Step)
    requires Inv(env, s) && Enabled(env, s, step)
    ensures Inv(env, Apply(env, s, step))
  {
    match step
    case Request(_, _, name, _, _, _) =>
      if name in env.cfgs {
        RequestKeeps(env, s, step);
      }
    case Select(now, choice, recordTime, deadline) =>
      PruneKeeps(env, s, now);
      GrantKeeps(env, AfterPrune(env, s, now), choice, recordTime, deadline,
                 PhantomsSeen(SceneAt(env, s, now), s.candidates, s.candidates[choice].name));
    case Sleep(now) =>
      PruneKeeps(env, s, now);
    case Expire(_) =>
    case Wake(_) =>
      var n := s.phase.name;
      if s.log != [] && s.log[|s.log| - 1].name == n {
        LastGrantIs(s.log, n, |s.log| - 1);
      }
  }

  // ----- runs

  ghost predicate ValidRun(env: Settings, s: State, steps: seq<Step>)
    decreases |steps|
  {
    steps == [] || (CandidatesKnown(env, s) && Enabled(env, s, steps[0])
                    && ValidRun(env, Apply(env, s, steps[0]), steps[1..]))
  }

  ghost function EndState(env: Settings, s: State, steps: seq<Step>): State
    requires ValidRun(env, s, steps)
    decreases |steps|
  {
    if steps == [] then s else EndState(env, Apply(env, s, steps[0]), steps[1..])
  }

  lemma {:induction false} RunKeeps(env: Settings, s: State, steps: seq<Step>)
    requires Inv(env, s) && ValidRun(env, s, steps)
    ensures Inv(env, EndState(env, s, steps))
    decreases |steps|
  {
    if steps != [] {
      StepKeeps(env, s, steps[0]);
      RunKeeps(env, Apply(env, s, steps[0]), steps[1..]);
    }
  }

  lemma {:induction false} FullHistoryAt(log: seq<Grant>)
    ensures |FullHistory(log)| == |log|
    ensures forall i :: 0 <= i < |log| ==> FullHistory(log)[i] == Recorded(log[i])
  {
    if log != [] {
      FullHistoryAt(log[..|log| - 1]);
    }
  }

  /**
   * Token safety over every run.  When the daemon is free to select, every end ever recorded is in
   * the past; the periods for which clients held the token are pairwise disjoint and in order; and
   * two recorded entries overlap by no more than the overuse reported for the earlier one, hence
   * not at all if none was reported.
   */
  lemma {:induction false} TokenSafety(env: Settings, clock: real, steps: seq<Step>)
    requires SaneSettings(env) && 0.0 < clock && ValidRun(env, Initial(env, clock), steps)
    ensures var s := EndState(env, Initial(env, clock), steps);
            && (s.phase.Idle? ==> forall e :: e in FullHistory(s.log) ==> e.end <= s.clock)
            && (forall i, j :: 0 <= i < j < |s.log| ==>
                  s.log[i].start < TokenEnd(s.log[i]) <= s.log[j].start)
            && (forall i, j :: 0 <= i < j < |s.log| ==>
                  Recorded(s.log[i]).end - Recorded(s.log[j]).start <= Overuse(s.log[i]))
            && ((forall i :: 0 <= i < |s.log| ==> Overuse(s.log[i]) == 0.0) ==> Disjoint(FullHistory(s.log)))
            && Proper(s.history) && (forall e :: e in s.history ==> e in FullHistory(s.log))
  {
    InitialInv(env, clock);
    RunKeeps(env, Initial(env, clock), steps);
    InvSafe(env, EndState(env, Initial(env, clock), steps));
  }

  lemma {:induction false} InvSafe(env: Settings, s: State)
    requires Inv(env, s)
    ensures s.phase.Idle? ==> forall e :: e in FullHistory(s.log) ==> e.end <= s.clock
    ensures forall i, j :: 0 <= i < j < |s.log| ==> s.log[i].start < TokenEnd(s.log[i]) <= s.log[j].start
    ensures forall i, j :: 0 <= i < j < |s.log| ==>
              Recorded(s.log[i]).end - Recorded(s.log[j]).start <= Overuse(s.log[i])
    ensures (forall i :: 0 <= i < |s.log| ==> Overuse(s.log[i]) == 0.0) ==> Disjoint(FullHistory(s.log))
    ensures Proper(s.history) && forall e :: e in s.history ==> e in FullHistory(s.log)
  {
    var log := s.log;
    FullHistoryAt(log);
    LiveMembers(log);
    forall i | 0 <= i < |log|
      ensures log[i].start < TokenEnd(log[i]) <= Recorded(log[i]).end <= TokenEnd(log[i]) + Overuse(log[i])
      ensures Recorded(log[i]) in FullHistory(log)
    {
      EndAfterToken(log[i]);
      assert FullHistory(log)[i] == Recorded(log[i]);
    }
  }
}
