/**
 * Pod managers and scheduler together: a request that arrives is a request step of the scheduler,
 * and a selection answers the chosen candidate's request with the quota it records.  Pod `p` is the
 * client `names[p]`.
 */
module EndToEnd {
  import Net = RequestProtocol
  import opened Selection
  import opened SchedulerSpec
  import Sched = SchedulerInvariant

  /** `answers[k]` is the request that the scheduler's grant number `k` answers. */
  datatype World = World(net: Net.System, sched: State, answers: seq<Net.Queued>)

  datatype Event =
    | PodEvent(step: Net.Step)
    | Arrive(p: nat, now: real, overuse: real, burst: real)
    | Grant(now: real, choice: nat, recordTime: real, deadline: real)
    | DaemonEvent(tick: Step)

  function Start(env: Settings, names: seq<string>, clock: real): World {
    World(Net.System(seq(|names|, _ => Net.FRESH_POD), []), Initial(env, clock), [])
  }

  /** The scheduler's part of an event. */
  function RequestOf(w: World, names: seq<string>, e: Event): Step
    requires e.Arrive? && e.p < |names| && e.p < |w.net.pods| && w.net.pods[e.p].toScheduler != []
  {
    Request(e.now, e.p, names[e.p], w.net.pods[e.p].toScheduler[0], e.overuse, e.burst)
  }

  function SelectOf(e: Event): Step
    requires e.Grant?
  {
    Select(e.now, e.choice, e.recordTime, e.deadline)
  }

  /** The pod managers' part of a selection: the quota is the one the scheduler computes. */
  function AnswerOf(env: Settings, w: World, e: Event): Net.Step
    requires e.Grant? && e.choice < |w.sched.candidates|
    requires w.sched.candidates[e.choice].name in env.cfgs && w.sched.candidates[e.choice].name in w.sched.clients
  {
    Net.GrantStep(e.choice, GrantedQuota(env, w.sched, w.sched.candidates[e.choice].name))
  }

  ghost predicate Possible(env: Settings, names: seq<string>, w: World, e: Event) {
    CandidatesKnown(env, w.sched) &&
    match e
    case PodEvent(step) => Net.Enabled(w.net, step) && !step.ArriveStep? && !step.GrantStep?
    case Arrive(p, _, _, _) =>
      p < |names| && Net.Enabled(w.net, Net.ArriveStep(p)) && Enabled(env, w.sched, RequestOf(w, names, e))
    case Grant(_, choice, _, _) =>
      Enabled(env, w.sched, SelectOf(e)) && Net.Enabled(w.net, AnswerOf(env, w, e))
    case DaemonEvent(tick) => Enabled(env, w.sched, tick) && !tick.Request? && !tick.Select?
  }

  ghost function After(env: Settings, names: seq<string>, w: World, e: Event): World
    requires Possible(env, names, w, e)
  {
    match e
    case PodEvent(step) => w.(net := Net.Next(w.net, step))
    case Arrive(p, _, _, _) =>
      w.(net := Net.Next(w.net, Net.ArriveStep(p)), sched := Apply(env, w.sched, RequestOf(w, names, e)))
    case Grant(_, choice, _, _) =>
      World(Net.Next(w.net, AnswerOf(env, w, e)), Apply(env, w.sched, SelectOf(e)),
            w.answers + [w.net.candidates[choice]])
    case DaemonEvent(tick) => w.(sched := Apply(env, w.sched, tick))
  }

  // ----- what connects the two sides

  /** Both sides have the same requests waiting, in the same order. */
  ghost predicate SameCandidates(names: seq<string>, w: World) {
    && |w.net.candidates| == |w.sched.candidates|
    && forall i :: 0 <= i < |w.net.candidates| ==>
         var q, c := w.net.candidates[i], w.sched.candidates[i];
         q.socket < |names| && c.socket == q.socket && c.reqId == q.id && c.name == names[q.socket]
  }

  /** Grant number `k` was made to request `q`, under its pod's name and with the quota it is answered with. */
  ghost predicate Answers(names: seq<string>, pods: seq<Net.Pod>, q: Net.Queued, g: SchedulerSpec.Grant) {
    && q.socket < |names| && q.socket < |pods| && g.name == names[q.socket]
    && q.id in pods[q.socket].granted && pods[q.socket].granted[q.id] == g.quota
  }

  ghost predicate GrantsAnswer(names: seq<string>, w: World) {
    && |w.answers| == |w.sched.log|
    && (forall k :: 0 <= k < |w.answers| ==> Answers(names, w.net.pods, w.answers[k], w.sched.log[k]))
    && (forall j, k :: 0 <= j < k < |w.answers| ==> w.answers[j] != w.answers[k])
    && (forall p, id :: 0 <= p < |w.net.pods| && id in w.net.pods[p].granted ==> Net.Queued(p, id) in w.answers)
  }

  ghost predicate Inv(env: Settings, names: seq<string>, w: World) {
    && Net.Inv(w.net) && Sched.Inv(env, w.sched) && |w.net.pods| == |names|
    && (forall n :: n in names ==> n in env.cfgs)
    && SameCandidates(names, w) && GrantsAnswer(names, w)
  }

  lemma {:induction false} StartInv(env: Settings, names: seq<string>, clock: real)
    requires Sched.SaneSettings(env) && 0.0 < clock && forall n :: n in names ==> n in env.cfgs
    ensures Inv(env, names, Start(env, names, clock))
  {
    Net.InitialInv(|names|);
    Sched.InitialInv(env, clock);
  }

  /** What pod `p` was granted after a step. */
  function Told(s: Net.System, step: Net.Step, p: nat): map<nat, real>
    requires Net.Enabled(s, step) && p < |s.pods|
  {
    if step.GrantStep? && s.candidates[step.i].socket == p
    then s.pods[p].granted[s.candidates[step.i].id := step.quota] else s.pods[p].granted
  }

  lemma {:induction false} NetAfter(s: Net.System, step: Net.Step)
    requires Net.Enabled(s, step)
    ensures |Net.Next(s, step).pods| == |s.pods|
    ensures forall p :: 0 <= p < |s.pods| ==> Net.Next(s, step).pods[p].granted == Told(s, step, p)
    ensures !step.ArriveStep? && !step.GrantStep? ==> Net.Next(s, step).candidates == s.candidates
  {
  }

  /** A step of the scheduler renames no grant and changes no quota, and a selection adds one grant. */
  lemma {:induction false} LogAfter(env: Settings, s: State, step: Step)
    requires CandidatesKnown(env, s) && Enabled(env, s, step)
    ensures var s' := Apply(env, s, step);
            && |s'.log| == |s.log| + (if step.Select? then 1 else 0)
            && (forall k :: 0 <= k < |s.log| ==> s'.log[k].name == s.log[k].name && s'.log[k].quota == s.log[k].quota)
            && (!step.Request? && !step.Select? ==> s'.candidates == s.candidates)
  {
    hide MaySelect, MustSleep, PhantomsSeen, SceneAt, GrantedQuota;
  }

  lemma {:induction false} AnswersKept(names: seq<string>, w: World, w': World)
    requires GrantsAnswer(names, w) && w'.answers == w.answers
    requires |w'.net.pods| == |w.net.pods| && |w'.sched.log| == |w.sched.log|
    requires forall p :: 0 <= p < |w.net.pods| ==> w'.net.pods[p].granted == w.net.pods[p].granted
    requires forall k :: 0 <= k < |w.sched.log| ==>
               w'.sched.log[k].name == w.sched.log[k].name && w'.sched.log[k].quota == w.sched.log[k].quota
    ensures GrantsAnswer(names, w')
  {
    forall k | 0 <= k < |w'.answers|
      ensures Answers(names, w'.net.pods, w'.answers[k], w'.sched.log[k])
    {
      assert Answers(names, w.net.pods, w.answers[k], w.sched.log[k]);
    }
  }

  lemma {:induction false} PodEventKeeps(env: Settings, names: seq<string>, w: World, e: Event)
    requires Inv(env, names, w) && Possible(env, names, w, e) && e.PodEvent?
    ensures Inv(env, names, After(env, names, w, e))
  {
    hide Net.Inv, Sched.Inv, Net.Enabled, Net.Next, GrantsAnswer, CandidatesKnown;
    Net.StepKeeps(w.net, e.step);
    NetAfter(w.net, e.step);
    AnswersKept(names, w, After(env, names, w, e));
  }

  lemma {:induction false} DaemonEventKeeps(env: Settings, names: seq<string>, w: World, e: Event)
    requires Inv(env, names, w) && Possible(env, names, w, e) && e.DaemonEvent?
    ensures Inv(env, names, After(env, names, w, e))
  {
    hide Net.Inv, Sched.Inv, Enabled, Apply, GrantsAnswer;
    Sched.StepKeeps(env, w.sched, e.tick);
    LogAfter(env, w.sched, e.tick);
    AnswersKept(names, w, After(env, names, w, e));
  }

  lemma {:induction false} ArriveKeeps(env: Settings, names: seq<string>, w: World, e: Event)
    requires Inv(env, names, w) && Possible(env, names, w, e) && e.Arrive?
    ensures Inv(env, names, After(env, names, w, e))
  {
    hide Net.Inv, Sched.Inv, Enabled, GrantsAnswer, CandidatesKnown;
    var w', r, step := After(env, names, w, e), RequestOf(w, names, e), Net.ArriveStep(e.p);
    Net.StepKeeps(w.net, step);
    Sched.StepKeeps(env, w.sched, r);
    LogAfter(env, w.sched, r);
    NetAfter(w.net, step);
    AnswersKept(names, w, w');
    assert names[e.p] in names;
  }

  lemma {:induction false} GrantKeeps(env: Settings, names: seq<string>, w: World, e: Event)
    requires Inv(env, names, w) && Possible(env, names, w, e) && e.Grant?
    ensures Inv(env, names, After(env, names, w, e))
  {
    hide Net.Inv, Sched.Inv, MaySelect, GrantsAnswer, PhantomsSeen, SceneAt;
    var w' := After(env, names, w, e);
    Net.StepKeeps(w.net, AnswerOf(env, w, e));
    Sched.StepKeeps(env, w.sched, SelectOf(e));
    LogAfter(env, w.sched, SelectOf(e));
    Net.GrantIsFirst(w.net, e.choice);
    NetAfter(w.net, AnswerOf(env, w, e));
    assert SameCandidates(names, w');
    AnswerAdded(names, w, w', w.net.candidates[e.choice],
                GrantedQuota(env, w.sched, w.sched.candidates[e.choice].name));
  }

  lemma {:induction false} AnswerAdded(names: seq<string>, w: World, w': World, q: Net.Queued, quota: real)
    requires GrantsAnswer(names, w) && w'.answers == w.answers + [q]
    requires q.socket < |names| && q.socket < |w.net.pods| && q.id !in w.net.pods[q.socket].granted
    requires |w'.net.pods| == |w.net.pods| && |w'.sched.log| == |w.sched.log| + 1
    requires forall p :: 0 <= p < |w.net.pods| ==>
               w'.net.pods[p].granted
               == if p == q.socket then w.net.pods[p].granted[q.id := quota] else w.net.pods[p].granted
    requires forall k :: 0 <= k < |w.sched.log| ==>
               w'.sched.log[k].name == w.sched.log[k].name && w'.sched.log[k].quota == w.sched.log[k].quota
    requires var g := w'.sched.log[|w.sched.log|]; g.name == names[q.socket] && g.quota == quota
    ensures GrantsAnswer(names, w')
  {
    forall k | 0 <= k < |w'.answers|
      ensures Answers(names, w'.net.pods, w'.answers[k], w'.sched.log[k])
      ensures k < |w.answers| ==> w'.answers[k] != q
    {
      if k < |w.answers| {
        assert Answers(names, w.net.pods, w.answers[k], w.sched.log[k]);
      }
    }
  }

  lemma {:induction false} EventKeeps(env: Settings, names: seq<string>, w: World, e: Event)
    requires Inv(env, names, w) && Possible(env, names, w, e)
    ensures Inv(env, names, After(env, names, w, e))
  {
    match e
    case PodEvent(_) => PodEventKeeps(env, names, w, e);
    case Arrive(_, _, _, _) => ArriveKeeps(env, names, w, e);
    case Grant(_, _, _, _) => GrantKeeps(env, names, w, e);
    case DaemonEvent(_) => DaemonEventKeeps(env, names, w, e);
  }

  // ----- runs

  ghost predicate ValidRun(env: Settings, names: seq<string>, w: World, events: seq<Event>)
    decreases |events|
  {
    events == []
    || (Possible(env, names, w, events[0]) && ValidRun(env, names, After(env, names, w, events[0]), events[1..]))
  }

  ghost function EndState(env: Settings, names: seq<string>, w: World, events: seq<Event>): World
    requires ValidRun(env, names, w, events)
    decreases |events|
  {
    if events == [] then w else EndState(env, names, After(env, names, w, events[0]), events[1..])
  }

  lemma {:induction false} RunKeeps(env: Settings, names: seq<string>, w: World, events: seq<Event>)
    requires Inv(env, names, w) && ValidRun(env, names, w, events)
    ensures Inv(env, names, EndState(env, names, w, events))
    decreases |events|
  {
    if events != [] {
      hide Inv, Possible, After;
      EventKeeps(env, names, w, events[0]);
      RunKeeps(env, names, After(env, names, w, events[0]), events[1..]);
    }
  }

  /** Request `id` of pod `p` is the one that grant `k` answers, with the grant's own quota. */
  ghost predicate PickedUp(names: seq<string>, w: World, p: nat, id: nat, k: int) {
    && p < |names| && p < |w.net.pods| && 0 <= k < |w.sched.log| && |w.answers| == |w.sched.log|
    && id in w.net.pods[p].taken && id in w.net.pods[p].issuer && id in w.net.pods[p].taker
    && w.answers[k] == Net.Queued(p, id) && w.sched.log[k].name == names[p]
    && w.net.pods[p].taken[id] == w.sched.log[k].quota
    && w.net.pods[p].taker[id] == w.net.pods[p].issuer[id]
  }

  /** Different requests are answered by different grants, whose tokens do not overlap. */
  ghost predicate Apart(w: World, p: nat, id: nat, k: int, p': nat, id': nat, k': int) {
    && 0 <= k < |w.sched.log| && 0 <= k' < |w.sched.log|
    && (k == k' <==> p == p' && id == id')
    && (k < k' ==> w.sched.log[k].start < TokenEnd(w.sched.log[k]) <= w.sched.log[k'].start)
  }

  /**
   * From hook to scheduler and back, in every run.  Whatever a thread picks up is the quota that the
   * scheduler recorded for exactly one grant to the thread's client, and the thread is the one that
   * asked; no grant is picked up twice, and the tokens of two answers picked up anywhere never overlap.
   */
  lemma {:induction false} AnswersAreGrants(env: Settings, names: seq<string>, clock: real, events: seq<Event>)
    requires Sched.SaneSettings(env) && 0.0 < clock && forall n :: n in names ==> n in env.cfgs
    requires ValidRun(env, names, Start(env, names, clock), events)
    ensures var w := EndState(env, names, Start(env, names, clock), events);
            && |w.net.pods| == |names|
            && (forall p, id :: 0 <= p < |names| && id in w.net.pods[p].taken ==>
                  exists k :: PickedUp(names, w, p, id, k))
            && (forall p, id, p', id', k, k' :: PickedUp(names, w, p, id, k) && PickedUp(names, w, p', id', k') ==>
                  Apart(w, p, id, k, p', id', k'))
  {
    hide Possible, After;
    StartInv(env, names, clock);
    RunKeeps(env, names, Start(env, names, clock), events);
    var w := EndState(env, names, Start(env, names, clock), events);
    forall p, id | 0 <= p < |names| && id in w.net.pods[p].taken
      ensures exists k :: PickedUp(names, w, p, id, k)
    {
      TakenAnswers(names, w, p, id);
    }
    hide PickedUp, Inv, Start, EndState, ValidRun;
    forall p, id, p', id', k, k' | PickedUp(names, w, p, id, k) && PickedUp(names, w, p', id', k')
      ensures Apart(w, p, id, k, p', id', k')
    {
      PickedUpOnce(env, names, w, p, id, k, p', id', k');
    }
  }

  lemma {:induction false} PickedUpOnce(
    env: Settings, names: seq<string>, w: World, p: nat, id: nat, k: int, p': nat, id': nat, k': int)
    requires Inv(env, names, w) && PickedUp(names, w, p, id, k) && PickedUp(names, w, p', id', k')
    ensures Apart(w, p, id, k, p', id', k')
  {
    hide Net.Inv, SameCandidates;
    Sched.InvSafe(env, w.sched);
    hide Sched.Inv;
  }

  lemma {:induction false} TakenAnswers(names: seq<string>, w: World, p: nat, id: nat)
    requires Net.Inv(w.net) && GrantsAnswer(names, w) && p < |names| == |w.net.pods| && id in w.net.pods[p].taken
    ensures exists k :: PickedUp(names, w, p, id, k)
  {
    assert Net.Faithful(w.net.pods[p]) && Net.Owned(w.net.pods[p]);
    assert Net.Queued(p, id) in w.answers;
    var k :| 0 <= k < |w.answers| && w.answers[k] == Net.Queued(p, id);
    assert Answers(names, w.net.pods, w.answers[k], w.sched.log[k]);
    assert PickedUp(names, w, p, id, k);
  }
}
