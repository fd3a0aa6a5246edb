/**
 * The scheduler's code: the global lists, the message handler, a round of `select_candidate` with
 * its loops, the waiting loop around it, and the grant.  Every method is proved against the
 * corresponding step of the state machine.
 */
module SchedulerCode {
  import opened Options
  import opened Reals
  import opened UsageModel
  import opened UsageLaws
  import opened Sweep
  import opened StdSort
  import opened Priority
  import opened Quota
  import opened Selection
  import opened SchedulerSpec

  predicate Earlier(a: Stamp, b: Stamp) {
    Abs(a.time) < Abs(b.time)
  }

  /** Whatever the sort does with ties, its result is an arrangement the sweep accepts. */
  lemma {:induction false} SortedStamps(r: seq<Stamp>, h: seq<Entry>)
    requires SortResult(r, Stamps(h), Earlier)
    ensures Arranged(r, h)
  {
    assert StrictWeakOrder(Stamps(h), Earlier);
    assert forall i, j :: 0 <= i < j < |r| ==> !Earlier(r[j], r[i]);
  }

  lemma {:induction false} StampNamesKnown(r: seq<Stamp>, h: seq<Entry>, usage: map<string, real>)
    requires multiset(r) == multiset(Stamps(h))
    requires forall n :: n in usage <==> exists e :: e in h && e.name == n
    ensures forall s :: s in r ==> s.name in usage
  {
    SameElements(r, Stamps(h));
    StampMembers(h);
  }

  class Scheduler {
    const window: real
    const clients: map<string, ClientInfo>
    var history: seq<Entry>
    var candidates: seq<Candidate>
    ghost var phase: Phase
    ghost var clock: real
    ghost var lastWindow: real
    ghost var log: seq<Grant>

    ghost function Env(): Settings {
      Settings(map n | n in clients :: clients[n].cfg, window)
    }

    ghost predicate Valid()
      reads this
    {
      (forall n :: n in clients ==> clients[n].name == n)
      && (forall c :: c in candidates ==> c.name in clients)
    }

    ghost function Clients(): map<string, ClientState>
      reads clients.Values
    {
      map n | n in clients :: clients[n].View()
    }

    ghost function View(): State
      reads this, clients.Values
    {
      State(history, candidates, Clients(), phase, clock, lastWindow, log)
    }

    constructor (window: real, clients: map<string, ClientInfo>, ghost now: real)
      requires forall n :: n in clients ==> clients[n].name == n
      requires forall n :: n in clients ==>
                 clients[n].View() == ClientState(clients[n].cfg.baseQuota, 0.0, 0.0, 0.0)
      ensures Valid() && this.window == window && this.clients == clients
      ensures View() == Initial(Env(), now)
    {
      this.window, this.clients := window, clients;
      history, candidates := [], [];
      phase, clock, lastWindow, log := Idle, now, now - window, [];
    }

    /** Searches the history backwards for the client's latest entry and closes it. */
    method UpdateReturnTime(client: ClientInfo, overuse: real, now: real)
      modifies this`history, client`latestActualUsage, client`latestOveruse
      ensures history == CloseLast(old(history), client.name, overuse, now)
      ensures client.View() == ReturnedClient(old(client.View()), old(history), client.name, overuse, now)
    {
      var i := |history|;
      while i > 0
        invariant 0 <= i <= |history|
        invariant forall j :: i <= j < |history| ==> history[j].name != client.name
      {
        i := i - 1;
        if history[i].name == client.name {
          assert LastIndex(EntryNames(history), client.name) == i;
          var e := history[i].(end := Min(now, history[i].end + overuse));
          history := history[i := e];
          client.latestActualUsage := e.end - e.start;
          break;
        }
      }
      client.latestOveruse := overuse;
    }

    /** The quota branch of the message handler; unknown clients are ignored. */
    method HandleQuotaRequest(now: real, socket: int, name: string, reqId: int, overuse: real, burst: real)
      requires Valid()
      modifies this, clients.Values
      ensures Valid()
      ensures View() == if name in clients
                        then AfterRequest(old(View()), Request(now, socket, name, reqId, overuse, burst))
                        else old(View()).(clock := now)
    {
      hide CloseLast, MarkReturned, ReturnedClient;
      clock := now;
      if name !in clients {
        return;
      }
      var client := clients[name];
      UpdateReturnTime(client, overuse, now);
      client.SetBurst(burst);
      assert Clients() == old(Clients())[name := client.View()] by {
        assert forall n :: n in clients && n != name ==> clients[n] != client;
      }
      candidates := candidates + [Candidate(socket, name, reqId, now)];
      log := MarkReturned(log, name, overuse, now);
    }

    /** Drops the entries that ended before the window. */
    method Prune(windowStart: real)
      modifies this`history
      ensures history == Kept(old(history), windowStart)
    {
      var kept := [];
      for i := 0 to |history|
        invariant kept + Kept(history[i..], windowStart) == Kept(history, windowStart)
      {
        if !(history[i].end < windowStart) {
          kept := kept + [history[i]];
        }
      }
      history := kept;
    }

    /** Does the client of the first candidate occur in the history? */
    method FrontAppears() returns (found: bool)
      requires candidates != []
      ensures found <==> exists e :: e in history && e.name == candidates[0].name
    {
      for i := 0 to |history|
        invariant forall j :: 0 <= j < i ==> history[j].name != candidates[0].name
      {
        if history[i].name == candidates[0].name {
          return true;
        }
      }
      return false;
    }

    /** Scores the candidates and keeps those below their limit. */
    method CollectValid(usage: map<string, real>, now: real) returns (valid: seq<Scored>)
      requires Valid()
      requires forall n :: Lookup(usage, n) == Swept(history, n, now - window)
      ensures valid == ValidList(Scene(history, Env().cfgs, now, window), candidates)
    {
      hide Swept, Part;
      ghost var sc := Scene(history, Env().cfgs, now, window);
      var size := if now - window < 0.0 then now else window;
      valid := [];
      for i := 0 to |candidates|
        invariant valid == ValidUpTo(sc, candidates, i)
      {
        var c := candidates[i];
        assert c in candidates;
        var u := Lookup(usage, c.name);
        SweptNonnegative(history, c.name, now - window);
        var limit := Part(clients[c.name].cfg.maxFrac, size);
        var require := Part(clients[c.name].cfg.minFrac, size);
        if limit - u > 0.0 {
          valid := valid + [Score(require - u, limit - u, u, c.arrived, i)];
        }
      }
    }

    /** Stamps, sort and sweep: every client's usage in the window. */
    method ComputeUsage(windowStart: real) returns (usage: map<string, real>)
      requires Proper(history)
      ensures forall n :: Lookup(usage, n) == Swept(history, n, windowStart)
    {
      var stamps, zero := CollectStamps(history);
      var sorted := Sort(stamps, Earlier);
      SortedStamps(sorted, history);
      StampNamesKnown(sorted, history, zero);
      usage := Run(history, sorted, windowStart, zero);
    }

    /** The scene of a selection at time `now` when the history list is `h`. */
    ghost function SceneOf(h: seq<Entry>, now: real): Scene {
      Scene(h, Env().cfgs, now, window)
    }

    /** What a round may answer: the place of a candidate it may select, or that it must sleep. */
    ghost predicate Answer(h: seq<Entry>, now: real, cands: seq<Candidate>, choice: Option<nat>)
      requires forall c :: c in cands ==> c.name in clients
    {
      match choice
      case Some(i) => i < |cands| && MaySelect(SceneOf(h, now), cands, i)
      case None => MustSleep(SceneOf(h, now), cands)
    }

    /** The decision of a round, on the pruned history: the quick exit or the full path. */
    method Decide(now: real) returns (choice: Option<nat>)
      requires Valid() && candidates != [] && Proper(history)
      ensures Answer(history, now, candidates, choice)
    {
      ghost var sc := SceneOf(history, now);
      var found := FrontAppears();
      if !found {
        return Some(0);
      }
      var usage := ComputeUsage(now - window);
      var valid := CollectValid(usage, now);
      if |valid| == 0 {
        return None;
      }
      var r := Sort(valid, Before);
      SameElements(r, valid);
      assert FullPick(sc, candidates, r[0].index);
      FullPickBest(sc, candidates, r[0].index);
      return Some(r[0].index);
    }

    /** One round of the selection loop. */
    method SelectRound(now: real) returns (choice: Option<nat>)
      requires Valid() && candidates != [] && Proper(history)
      modifies this`history, this`clock, this`lastWindow, this`log
      ensures Valid() && Proper(history)
      ensures history == Kept(old(history), now - window)
      ensures clock == now && lastWindow == now - window && log == MarkDropped(old(log), now - window)
      ensures Answer(history, now, candidates, choice)
    {
      KeptMembers(history, now - window);
      Prune(now - window);
      clock, lastWindow, log := now, now - window, MarkDropped(log, now - window);
      choice := Decide(now);
    }

    /**
     * Sleeps until the first entry's end is at the window start, which is the last moment at which
     * pruning keeps it, and tries again.
     */
    method SleepAndRetry(t: real, sleepUntil: real -> real) returns (t': real, choice: Option<nat>)
      requires Valid() && candidates != [] && Proper(history)
      requires history != [] && t - window <= history[0].end
      requires forall d :: d < sleepUntil(d)
      modifies this`history, this`clock, this`lastWindow, this`log
      ensures Valid() && Proper(history) && t <= t' && |history| < |old(history)|
      ensures t' == sleepUntil(old(history)[0].end + window)
      ensures history == Kept(old(history), t' - window)
      ensures clock == t' && lastWindow == t' - window && log == MarkDropped(old(log), t' - window)
      ensures Answer(history, t', candidates, choice)
    {
      var deadline := t + (history[0].end - (t - window));
      assert deadline == history[0].end + window;
      t' := sleepUntil(deadline);
      assert deadline < t';
      FirstPruned(history, t' - window);
      choice := SelectRound(t');
    }

    /**
     * The waiting loop.  `sleepUntil` stands for a timed-out wait: it gives the clock reading after
     * a sleep until the deadline, which is past the deadline.  With no new requests the loop ends
     * after at most as many sleeps as there are entries, and never reads an empty list.
     */
    method SelectCandidate(now: real, sleepUntil: real -> real)
      returns (selected: Candidate, sleeps: nat, at: real, ghost i: nat)
      requires Valid() && candidates != [] && Proper(history)
      requires forall d :: d < sleepUntil(d)
      modifies this`history, this`candidates, this`clock, this`lastWindow, this`log
      ensures Valid() && now <= at && sleeps <= |old(history)|
      ensures if sleeps == 0 then at == now else WokenBy(old(history), window, sleepUntil, at)
      ensures history == Kept(old(history), at - window)
      ensures clock == at && lastWindow == at - window && log == MarkDropped(old(log), at - window)
      ensures i < |old(candidates)| && selected == old(candidates)[i]
      ensures candidates == old(candidates)[..i] + old(candidates)[i + 1..]
      ensures MaySelect(SceneOf(history, at), old(candidates), i)
    {
      hide MaySelect, MustSleep, WokenBy;
      ghost var h0, log0 := history, log;
      var t := now;
      sleeps := 0;
      var choice := SelectRound(t);
      KeptLength(h0, now - window);
      while choice.None?
        invariant Valid() && Proper(history) && now <= t && candidates == old(candidates)
        invariant history == Kept(h0, t - window) && log == MarkDropped(log0, t - window)
        invariant clock == t && lastWindow == t - window
        invariant Answer(history, t, candidates, choice)
        invariant sleeps + |history| <= |h0|
        invariant if sleeps == 0 then t == now else WokenBy(h0, window, sleepUntil, t)
        decreases |history|
      {
        SleepersHaveHistory(SceneOf(history, t), candidates);
        FirstKept(h0, t - window);
        ghost var t0, e := t, history[0];
        t, choice := SleepAndRetry(t, sleepUntil);
        KeptWakes(h0, window, sleepUntil, t0, e);
        KeptTwice(h0, t0 - window, t - window);
        DroppedTwice(log0, t0 - window, t - window);
        sleeps := sleeps + 1;
      }
      at, i := t, choice.value;
      selected := candidates[choice.value];
      candidates := candidates[..choice.value] + candidates[choice.value + 1..];
    }

    /** Computes the quota, records the grant and hands the token to the client. */
    method GrantToken(selected: Candidate, recordTime: real, ghost deadline: real, ghost phantoms: nat)
      returns (quota: real)
      requires Valid() && selected.name in clients
      modifies this`history, this`clock, this`phase, this`log, clients[selected.name]
      ensures Valid() && quota == GrantedQuota(Env(), old(View()), selected.name)
      ensures View() == old(View()).(
                          history := old(history) + [Entry(selected.name, recordTime, recordTime + quota)],
                          clients := old(Clients())[selected.name := old(Clients())[selected.name].(quota := quota)],
                          phase := Holding(selected.name, deadline),
                          clock := recordTime,
                          log := old(log) + [Grant(selected.name, recordTime, quota, NotYet, false, phantoms)])
    {
      hide NextQuota;
      quota := clients[selected.name].GetQuota();
      assert Clients() == old(Clients())[selected.name := old(Clients())[selected.name].(quota := quota)] by {
        assert forall n :: n in clients && n != selected.name ==> clients[n] != clients[selected.name];
      }
      history := history + [Entry(selected.name, recordTime, recordTime + quota)];
      phase, clock := Holding(selected.name, deadline), recordTime;
      log := log + [Grant(selected.name, recordTime, quota, NotYet, false, phantoms)];
    }

    /**
     * A whole turn of the daemon: select, compute the quota, record, hand over.  It is a `Select`
     * step of the state machine.  `readClock` gives a later reading of the clock.
     */
    method ScheduleOnce(now: real, sleepUntil: real -> real, readClock: real -> real)
      returns (selected: Candidate, quota: real, at: real, ghost i: nat, ghost deadline: real)
      requires Valid() && candidates != [] && Proper(history) && phase.Idle? && clock <= now
      requires forall d :: d < sleepUntil(d)
      requires forall d :: d <= readClock(d)
      modifies this, clients.Values
      ensures Valid() && now <= at && i < |old(candidates)| && selected == old(candidates)[i]
      ensures quota == GrantedQuota(Env(), old(View()), selected.name)
      ensures deadline == readClock(readClock(at)) + quota
      ensures CandidatesKnown(Env(), old(View()))
      ensures Enabled(Env(), old(View()), Select(at, i, readClock(at), deadline))
      ensures View() == Apply(Env(), old(View()), Select(at, i, readClock(at), deadline))
    {
      hide MaySelect;
      ghost var env, s0 := Env(), View();
      var sleeps;
      selected, sleeps, at, i := SelectCandidate(now, sleepUntil);
      assert Clients() == s0.clients;
      assert View() == AfterPrune(env, s0, at).(candidates := s0.candidates[..i] + s0.candidates[i + 1..]);
      var t := readClock(at);
      deadline := readClock(t) + GrantedQuota(env, s0, selected.name);
      quota := GrantToken(selected, t, deadline, PhantomsSeen(SceneAt(env, s0, at), s0.candidates, selected.name));
    }

    /** The check the waiting daemon makes on every wake-up: is the holder asking again? */
    method HolderIsBack(name: string) returns (back: bool)
      ensures back <==> Waiting(candidates, name)
    {
      for i := 0 to |candidates|
        invariant forall j :: 0 <= j < i ==> candidates[j].name != name
      {
        if candidates[i].name == name {
          return true;
        }
      }
      return false;
    }
  }

  lemma {:induction false} FirstKept(h: seq<Entry>, w: real)
    requires Kept(h, w) != []
    ensures w <= Kept(h, w)[0].end
  {
    if h[0].end < w {
      FirstKept(h[1..], w);
    }
  }

  /** The sleep lasted until some entry of `h` was about to leave the window. */
  ghost predicate WokenBy(h: seq<Entry>, window: real, sleepUntil: real -> real, at: real) {
    exists e :: e in h && at == sleepUntil(e.end + window)
  }

  lemma {:induction false} KeptWakes(h: seq<Entry>, window: real, sleepUntil: real -> real, t: real, e: Entry)
    requires e in Kept(h, t - window)
    ensures WokenBy(h, window, sleepUntil, sleepUntil(e.end + window))
  {
    KeptMembers(h, t - window);
  }

  /** The first entry is kept exactly until one window after its end, so no shorter sleep would drop it. */
  lemma {:induction false} FirstLeaves(h: seq<Entry>, window: real, t: real)
    requires h != []
    ensures Kept(h, t - window) == [h[0]] + Kept(h[1..], t - window) <==> t <= h[0].end + window
    ensures h[0].end + window < t ==> Kept(h, t - window) == Kept(h[1..], t - window)
  {
    if h[0].end < t - window {
      assert |Kept(h, t - window)| == |Kept(h[1..], t - window)|;
    }
  }

  lemma {:induction false} SleepersHaveHistory(sc: Scene, cands: seq<Candidate>)
    requires KnownClients(sc, cands) && cands != [] && MustSleep(sc, cands)
    ensures sc.h != []
  {
  }

  lemma {:induction false} KeptLength(h: seq<Entry>, w: real)
    ensures |Kept(h, w)| <= |h|
  {
    if h != [] {
      KeptLength(h[1..], w);
    }
  }

  lemma {:induction false} FirstPruned(h: seq<Entry>, w: real)
    requires h != [] && h[0].end < w
    ensures |Kept(h, w)| < |h|
  {
    KeptLength(h[1..], w);
  }

  lemma {:induction false} KeptTwice(h: seq<Entry>, w: real, w': real)
    requires w <= w'
    ensures Kept(Kept(h, w), w') == Kept(h, w')
  {
    if h != [] {
      KeptTwice(h[1..], w, w');
      assert w <= h[0].end ==> ([h[0]] + Kept(h[1..], w))[1..] == Kept(h[1..], w);
    }
  }

  lemma {:induction false} DroppedTwice(log: seq<Grant>, w: real, w': real)
    requires w <= w'
    ensures MarkDropped(MarkDropped(log, w), w') == MarkDropped(log, w')
  {
  }
}
