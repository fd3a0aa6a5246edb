/**
 * Quota requests between the pod managers and the scheduler: a hook thread queues a request, the
 * sender thread forwards it, the scheduler keeps it as a candidate and answers it, the receiver
 * thread stores the answer under its id, and the hook thread picks it up.  Ids are local to a pod
 * manager; the scheduler tells pods apart by socket.
 */
module RequestProtocol {
  import opened Options

  datatype Reply = Reply(id: nat, quota: real)

  /** The memory limit request at start-up takes id 0. */
  const FIRST_ID: nat := 1

  /**
   * One pod manager with its two channels.  `issuer`, `granted`, `taken` and `taker` remember who
   * issued each request, what was granted for it, what was picked up, and by whom.
   */
  datatype Pod = Pod(
    nextId: nat,
    queue: seq<nat>,
    toScheduler: seq<nat>,
    fromScheduler: seq<Reply>,
    responses: map<nat, real>,
    waiting: map<int, nat>,
    issuer: map<nat, int>,
    granted: map<nat, real>,
    taken: map<nat, real>,
    taker: map<nat, int>)

  /** A request that waits at the scheduler. */
  datatype Queued = Queued(socket: nat, id: nat)

  datatype System = System(pods: seq<Pod>, candidates: seq<Queued>)

  const FRESH_POD: Pod := Pod(FIRST_ID, [], [], [], map[], map[], map[], map[], map[], map[])

  // ----- what each thread does to its pod

  function Issue(pod: Pod, thread: int): Pod {
    pod.(nextId := pod.nextId + 1,
         queue := pod.queue + [pod.nextId],
         waiting := pod.waiting[thread := pod.nextId],
         issuer := pod.issuer[pod.nextId := thread])
  }

  function Send(pod: Pod): Pod {
    if pod.queue == [] then pod
    else pod.(queue := pod.queue[1..], toScheduler := pod.toScheduler + [pod.queue[0]])
  }

  /** Inserting into the response map does not overwrite. */
  function Receive(pod: Pod): Pod
    requires pod.fromScheduler != []
  {
    var r := pod.fromScheduler[0];
    pod.(fromScheduler := pod.fromScheduler[1..],
         responses := if r.id in pod.responses then pod.responses else pod.responses[r.id := r.quota])
  }

  function Take(pod: Pod, thread: int): Pod
    requires thread in pod.waiting && pod.waiting[thread] in pod.responses
  {
    var id := pod.waiting[thread];
    pod.(responses := pod.responses - {id},
         waiting := pod.waiting - {thread},
         taken := pod.taken[id := pod.responses[id]],
         taker := pod.taker[id := thread])
  }

  // ----- steps of the whole system

  datatype Step =
    | IssueStep(p: nat, thread: int)
    | SendStep(p: nat)
    | ArriveStep(p: nat)
    | GrantStep(i: nat, quota: real)
    | ReceiveStep(p: nat)
    | TakeStep(p: nat, thread: int)

  predicate Enabled(s: System, step: Step) {
    match step
    case IssueStep(p, thread) => p < |s.pods| && thread !in s.pods[p].waiting
    case SendStep(p) => p < |s.pods|
    case ArriveStep(p) => p < |s.pods| && s.pods[p].toScheduler != []
    case GrantStep(i, _) => i < |s.candidates| && s.candidates[i].socket < |s.pods|
    case ReceiveStep(p) => p < |s.pods| && s.pods[p].fromScheduler != []
    case TakeStep(p, thread) =>
      p < |s.pods| && thread in s.pods[p].waiting && s.pods[p].waiting[thread] in s.pods[p].responses
  }

  function Next(s: System, step: Step): System
    requires Enabled(s, step)
  {
    match step
    case IssueStep(p, thread) => s.(pods := s.pods[p := Issue(s.pods[p], thread)])
    case SendStep(p) => s.(pods := s.pods[p := Send(s.pods[p])])
    case ArriveStep(p) =>
      var pod := s.pods[p];
      System(s.pods[p := pod.(toScheduler := pod.toScheduler[1..])],
             s.candidates + [Queued(p, pod.toScheduler[0])])
    case GrantStep(i, quota) =>
      var c := s.candidates[i];
      var pod := s.pods[c.socket];
      System(s.pods[c.socket := pod.(fromScheduler := pod.fromScheduler + [Reply(c.id, quota)],
                                     granted := pod.granted[c.id := quota])],
             s.candidates[..i] + s.candidates[i + 1..])
    case ReceiveStep(p) => s.(pods := s.pods[p := Receive(s.pods[p])])
    case TakeStep(p, thread) => s.(pods := s.pods[p := Take(s.pods[p], thread)])
  }

  // ----- where a request is

  function Ids(rs: seq<Reply>): seq<nat> {
    if rs == [] then [] else [rs[0].id] + Ids(rs[1..])
  }

  function One(b: bool): nat {
    if b then 1 else 0
  }

  /** In how many of its possible places an unanswered request is. */
  ghost function Pending(pod: Pod, cands: seq<Queued>, p: nat, id: nat): nat {
    multiset(pod.queue)[id] + multiset(pod.toScheduler)[id] + multiset(cands)[Queued(p, id)]
  }

  /** In how many of its possible places an answer is. */
  ghost function Answered(pod: Pod, id: nat): nat {
    multiset(Ids(pod.fromScheduler))[id] + One(id in pod.responses) + One(id in pod.taken)
  }

  predicate Issued(pod: Pod, id: nat) {
    FIRST_ID <= id < pod.nextId
  }

  // ----- the invariant

  /** Every issued request is in exactly one place, and every other id is nowhere. */
  ghost predicate Placed(pod: Pod, cands: seq<Queued>, p: nat) {
    forall id :: Pending(pod, cands, p, id) + Answered(pod, id) == One(Issued(pod, id))
  }

  /** Answers are what the scheduler granted. */
  ghost predicate Faithful(pod: Pod) {
    && (forall id :: id in pod.granted <==> Answered(pod, id) >= 1)
    && (forall r :: r in pod.fromScheduler ==> r.id in pod.granted && pod.granted[r.id] == r.quota)
    && (forall id :: id in pod.responses ==> id in pod.granted && pod.responses[id] == pod.granted[id])
    && (forall id :: id in pod.taken ==> id in pod.granted && pod.taken[id] == pod.granted[id])
  }

  /** A thread waits exactly for the requests it issued and has not picked up. */
  ghost predicate Owned(pod: Pod) {
    && FIRST_ID <= pod.nextId
    && (forall id :: id in pod.issuer <==> Issued(pod, id))
    && (forall t :: t in pod.waiting ==>
          Issued(pod, pod.waiting[t]) && pod.issuer[pod.waiting[t]] == t && pod.waiting[t] !in pod.taken)
    && (forall id :: Issued(pod, id) && id !in pod.taken ==>
          pod.issuer[id] in pod.waiting && pod.waiting[pod.issuer[id]] == id)
    && (forall id :: id in pod.taken ==> Issued(pod, id) && id in pod.taker && pod.taker[id] == pod.issuer[id])
  }

  ghost predicate Inv(s: System) {
    && (forall p :: 0 <= p < |s.pods| ==>
          Placed(s.pods[p], s.candidates, p) && Faithful(s.pods[p]) && Owned(s.pods[p]))
    && (forall c :: c in s.candidates ==> c.socket < |s.pods|)
  }

  lemma {:induction false} InitialInv(n: nat)
    ensures Inv(System(seq(n, _ => FRESH_POD), []))
  {
  }

  lemma {:induction false} IdsConcat(a: seq<Reply>, b: seq<Reply>)
    ensures Ids(a + b) == Ids(a) + Ids(b)
  {
    if a == [] {
      assert a + b == b;
    } else {
      assert (a + b)[1..] == a[1..] + b;
      IdsConcat(a[1..], b);
    }
  }

  lemma {:induction false} IdsMember(rs: seq<Reply>, r: Reply)
    requires r in rs
    ensures multiset(Ids(rs))[r.id] >= 1
  {
    if rs[0] != r {
      IdsMember(rs[1..], r);
    }
  }

  lemma {:induction false} HeadTail<T>(q: seq<T>, x: T)
    requires q != []
    ensures multiset(q)[x] == multiset(q[1..])[x] + One(x == q[0])
  {
    assert q == [q[0]] + q[1..];
  }

  lemma {:induction false} Snoc<T>(q: seq<T>, y: T, x: T)
    ensures multiset(q + [y])[x] == multiset(q)[x] + One(x == y)
  {
  }

  lemma {:induction false} RemoveAt<T>(q: seq<T>, i: nat, x: T)
    requires i < |q|
    ensures multiset(q)[x] == multiset(q[..i] + q[i + 1..])[x] + One(x == q[i])
  {
    assert q == q[..i] + [q[i]] + q[i + 1..];
  }

  /** Ownership concerns the hook threads' bookkeeping only. */
  lemma {:induction false} OwnedSame(pod: Pod, pod': Pod)
    requires Owned(pod) && pod'.nextId == pod.nextId && pod'.waiting == pod.waiting && pod'.issuer == pod.issuer
    requires pod'.taken == pod.taken && pod'.taker == pod.taker
    ensures Owned(pod')
  {
  }

  // ----- hook threads

  lemma {:induction false} IssueCounts(pod: Pod, cands: seq<Queued>, p: nat, thread: int, id: nat)
    ensures Answered(Issue(pod, thread), id) == Answered(pod, id)
    ensures Pending(Issue(pod, thread), cands, p, id) == Pending(pod, cands, p, id) + One(id == pod.nextId)
  {
    Snoc(pod.queue, pod.nextId, id);
  }

  lemma {:induction false} IssueKeeps(pod: Pod, cands: seq<Queued>, p: nat, thread: int)
    requires Placed(pod, cands, p) && Faithful(pod) && Owned(pod) && thread !in pod.waiting
    ensures Placed(Issue(pod, thread), cands, p) && Faithful(Issue(pod, thread)) && Owned(Issue(pod, thread))
  {
    hide Pending, Answered;
    var pod' := Issue(pod, thread);
    assert Pending(pod, cands, p, pod.nextId) + Answered(pod, pod.nextId) == 0;
    forall id
      ensures Answered(pod', id) == Answered(pod, id)
      ensures Pending(pod', cands, p, id) + Answered(pod', id) == One(Issued(pod', id))
    {
      IssueCounts(pod, cands, p, thread, id);
      assert Pending(pod, cands, p, id) + Answered(pod, id) == One(Issued(pod, id));
    }
    TakenAnswered(pod, pod.nextId);
    IssueOwned(pod, thread);
    hide Owned;
  }

  lemma {:induction false} IssueOwned(pod: Pod, thread: int)
    requires Owned(pod) && thread !in pod.waiting && pod.nextId !in pod.taken
    ensures Owned(Issue(pod, thread))
  {
  }

  lemma {:induction false} TakenAnswered(pod: Pod, id: nat)
    ensures id in pod.taken ==> Answered(pod, id) >= 1
    ensures id in pod.responses ==> Answered(pod, id) >= 1
  {
  }

  lemma {:induction false} TakeCounts(pod: Pod, cands: seq<Queued>, p: nat, thread: int, id: nat)
    requires thread in pod.waiting && pod.waiting[thread] in pod.responses && pod.waiting[thread] !in pod.taken
    ensures Answered(Take(pod, thread), id) == Answered(pod, id)
    ensures Pending(Take(pod, thread), cands, p, id) == Pending(pod, cands, p, id)
  {
  }

  lemma {:induction false} TakeKeeps(pod: Pod, cands: seq<Queued>, p: nat, thread: int)
    requires Placed(pod, cands, p) && Faithful(pod) && Owned(pod)
    requires thread in pod.waiting && pod.waiting[thread] in pod.responses
    ensures Placed(Take(pod, thread), cands, p) && Faithful(Take(pod, thread)) && Owned(Take(pod, thread))
  {
    hide Pending, Answered, Owned;
    TakeIsFirst(pod, thread);
    forall id
      ensures Answered(Take(pod, thread), id) == Answered(pod, id)
      ensures Pending(Take(pod, thread), cands, p, id) == Pending(pod, cands, p, id)
    {
      TakeCounts(pod, cands, p, thread, id);
    }
    TakeOwned(pod, thread);
    PlacedSame(pod, Take(pod, thread), cands, p);
    hide Placed;
  }

  lemma {:induction false} TakeOwned(pod: Pod, thread: int)
    requires Owned(pod) && thread in pod.waiting && pod.waiting[thread] in pod.responses
    ensures Owned(Take(pod, thread))
  {
  }

  // ----- sender and receiver threads

  lemma {:induction false} SendCounts(pod: Pod, cands: seq<Queued>, p: nat, id: nat)
    ensures Answered(Send(pod), id) == Answered(pod, id)
    ensures Pending(Send(pod), cands, p, id) == Pending(pod, cands, p, id)
  {
    if pod.queue != [] {
      HeadTail(pod.queue, id);
      Snoc(pod.toScheduler, pod.queue[0], id);
    }
  }

  lemma {:induction false} PlacedSame(pod: Pod, pod': Pod, cands: seq<Queued>, p: nat)
    requires Placed(pod, cands, p) && pod'.nextId == pod.nextId
    requires forall id :: Answered(pod', id) == Answered(pod, id)
    requires forall id :: Pending(pod', cands, p, id) == Pending(pod, cands, p, id)
    ensures Placed(pod', cands, p)
  {
    hide Pending, Answered;
  }

  lemma {:induction false} FaithfulSame(pod: Pod, pod': Pod)
    requires Faithful(pod) && pod'.granted == pod.granted && pod'.fromScheduler == pod.fromScheduler
    requires pod'.responses == pod.responses && pod'.taken == pod.taken
    requires forall id :: Answered(pod', id) == Answered(pod, id)
    ensures Faithful(pod')
  {
    hide Answered;
  }

  lemma {:induction false} SendKeeps(pod: Pod, cands: seq<Queued>, p: nat)
    requires Placed(pod, cands, p) && Faithful(pod) && Owned(pod)
    ensures Placed(Send(pod), cands, p) && Faithful(Send(pod)) && Owned(Send(pod))
  {
    hide Pending, Answered, Owned, Placed, Faithful;
    forall id
      ensures Answered(Send(pod), id) == Answered(pod, id)
      ensures Pending(Send(pod), cands, p, id) == Pending(pod, cands, p, id)
    {
      SendCounts(pod, cands, p, id);
    }
    PlacedSame(pod, Send(pod), cands, p);
    FaithfulSame(pod, Send(pod));
    OwnedSame(pod, Send(pod));
  }

  lemma {:induction false} ReceiveCounts(pod: Pod, cands: seq<Queued>, p: nat, id: nat)
    requires pod.fromScheduler != [] && pod.fromScheduler[0].id !in pod.responses
    ensures Answered(Receive(pod), id) == Answered(pod, id)
    ensures Pending(Receive(pod), cands, p, id) == Pending(pod, cands, p, id)
  {
    HeadTail(Ids(pod.fromScheduler), id);
    assert Ids(pod.fromScheduler)[1..] == Ids(pod.fromScheduler[1..]);
  }

  /** An answer on its way is not in the response map yet, so inserting it loses nothing. */
  lemma {:induction false} ReplyIsNew(pod: Pod, cands: seq<Queued>, p: nat)
    requires Placed(pod, cands, p) && pod.fromScheduler != []
    ensures pod.fromScheduler[0].id !in pod.responses
  {
    var r := pod.fromScheduler[0];
    IdsMember(pod.fromScheduler, r);
    assert Pending(pod, cands, p, r.id) + Answered(pod, r.id) == One(Issued(pod, r.id));
  }

  lemma {:induction false} ReceiveKeeps(pod: Pod, cands: seq<Queued>, p: nat)
    requires Placed(pod, cands, p) && Faithful(pod) && Owned(pod) && pod.fromScheduler != []
    ensures Placed(Receive(pod), cands, p) && Faithful(Receive(pod)) && Owned(Receive(pod))
  {
    hide Pending, Answered, Owned;
    ReplyIsNew(pod, cands, p);
    assert pod.fromScheduler[0] in pod.fromScheduler;
    assert forall r :: r in pod.fromScheduler[1..] ==> r in pod.fromScheduler;
    forall id
      ensures Answered(Receive(pod), id) == Answered(pod, id)
      ensures Pending(Receive(pod), cands, p, id) == Pending(pod, cands, p, id)
    {
      ReceiveCounts(pod, cands, p, id);
    }
    OwnedSame(pod, Receive(pod));
    PlacedSame(pod, Receive(pod), cands, p);
    hide Placed;
  }

  // ----- the scheduler

  lemma {:induction false} ArriveCounts(s: System, p: nat, q: nat, id: nat)
    requires p < |s.pods| && q < |s.pods| && s.pods[p].toScheduler != []
    ensures var s' := Next(s, ArriveStep(p));
            Answered(s'.pods[q], id) == Answered(s.pods[q], id)
            && Pending(s'.pods[q], s'.candidates, q, id) == Pending(s.pods[q], s.candidates, q, id)
  {
    HeadTail(s.pods[p].toScheduler, id);
    Snoc(s.candidates, Queued(p, s.pods[p].toScheduler[0]), Queued(q, id));
  }

  lemma {:induction false} ArriveKeeps(s: System, p: nat)
    requires Inv(s) && p < |s.pods| && s.pods[p].toScheduler != []
    ensures Inv(Next(s, ArriveStep(p)))
  {
    hide Placed, Faithful, Owned;
    var s' := Next(s, ArriveStep(p));
    forall q | 0 <= q < |s.pods|
      ensures Placed(s'.pods[q], s'.candidates, q) && Faithful(s'.pods[q]) && Owned(s'.pods[q])
    {
      ArriveKeepsPod(s, p, q);
    }
  }

  lemma {:induction false} ArriveKeepsPod(s: System, p: nat, q: nat)
    requires p < |s.pods| && q < |s.pods| && s.pods[p].toScheduler != []
    requires Placed(s.pods[q], s.candidates, q) && Faithful(s.pods[q]) && Owned(s.pods[q])
    ensures var s' := Next(s, ArriveStep(p));
            Placed(s'.pods[q], s'.candidates, q) && Faithful(s'.pods[q]) && Owned(s'.pods[q])
  {
    hide Pending, Answered;
    var s' := Next(s, ArriveStep(p));
    OwnedSame(s.pods[q], s'.pods[q]);
    hide Owned;
    forall id
      ensures Answered(s'.pods[q], id) == Answered(s.pods[q], id)
      ensures Pending(s'.pods[q], s'.candidates, q, id) == Pending(s.pods[q], s.candidates, q, id)
    {
      ArriveCounts(s, p, q, id);
    }
  }

  /** A candidate's request has not been granted before. */
  lemma {:induction false} GrantIsFirst(s: System, i: nat)
    requires Inv(s) && i < |s.candidates|
    ensures var c := s.candidates[i];
            c.socket < |s.pods| && c.id !in s.pods[c.socket].granted && Issued(s.pods[c.socket], c.id)
  {
    var c := s.candidates[i];
    assert c in s.candidates && c in multiset(s.candidates);
    var pod := s.pods[c.socket];
    assert Placed(pod, s.candidates, c.socket) && Faithful(pod);
    assert Pending(pod, s.candidates, c.socket, c.id) + Answered(pod, c.id) == One(Issued(pod, c.id));
  }

  lemma {:induction false} GrantCounts(s: System, i: nat, quota: real, q: nat, id: nat)
    requires i < |s.candidates| && s.candidates[i].socket < |s.pods| && q < |s.pods|
    ensures var s' := Next(s, GrantStep(i, quota));
            var here := One(s.candidates[i] == Queued(q, id));
            Answered(s'.pods[q], id) == Answered(s.pods[q], id) + here
            && Pending(s'.pods[q], s'.candidates, q, id) + here == Pending(s.pods[q], s.candidates, q, id)
  {
    var c := s.candidates[i];
    RemoveAt(s.candidates, i, Queued(q, id));
    var rs := s.pods[c.socket].fromScheduler;
    IdsConcat(rs, [Reply(c.id, quota)]);
    assert Ids([Reply(c.id, quota)]) == [c.id];
    Snoc(Ids(rs), c.id, id);
  }

  lemma {:induction false} GrantKeeps(s: System, i: nat, quota: real)
    requires Inv(s) && i < |s.candidates| && s.candidates[i].socket < |s.pods|
    ensures Inv(Next(s, GrantStep(i, quota)))
  {
    hide Pending, Answered;
    var s' := Next(s, GrantStep(i, quota));
    GrantIsFirst(s, i);
    assert forall d :: d in s'.candidates ==> d in s.candidates;
    forall q | 0 <= q < |s.pods|
      ensures Placed(s'.pods[q], s'.candidates, q) && Faithful(s'.pods[q]) && Owned(s'.pods[q])
    {
      GrantKeepsPod(s, i, quota, q);
    }
  }

  lemma {:induction false} GrantKeepsPod(s: System, i: nat, quota: real, q: nat)
    requires i < |s.candidates| && s.candidates[i].socket < |s.pods| && q < |s.pods|
    requires Placed(s.pods[q], s.candidates, q) && Faithful(s.pods[q]) && Owned(s.pods[q])
    requires s.candidates[i].id !in s.pods[s.candidates[i].socket].granted
    ensures var s' := Next(s, GrantStep(i, quota));
            Placed(s'.pods[q], s'.candidates, q) && Faithful(s'.pods[q]) && Owned(s'.pods[q])
  {
    hide Pending, Answered;
    var s', c := Next(s, GrantStep(i, quota)), s.candidates[i];
    OwnedSame(s.pods[q], s'.pods[q]);
    hide Owned;
    forall id
      ensures Answered(s'.pods[q], id) == Answered(s.pods[q], id) + One(c == Queued(q, id))
      ensures Pending(s'.pods[q], s'.candidates, q, id) + One(c == Queued(q, id))
              == Pending(s.pods[q], s.candidates, q, id)
    {
      GrantCounts(s, i, quota, q, id);
    }
    assert Placed(s'.pods[q], s'.candidates, q);
    if q == c.socket {
      GrantFaithful(s.pods[q], s'.pods[q], c.id, quota);
    }
  }

  lemma {:induction false} GrantFaithful(pod: Pod, pod': Pod, id0: nat, quota: real)
    requires Faithful(pod) && id0 !in pod.granted
    requires pod' == pod.(fromScheduler := pod.fromScheduler + [Reply(id0, quota)],
                          granted := pod.granted[id0 := quota])
    requires forall id :: Answered(pod', id) == Answered(pod, id) + One(id == id0)
    ensures Faithful(pod')
  {
    hide Answered;
    assert forall r :: r in pod'.fromScheduler ==> r in pod.fromScheduler || r == Reply(id0, quota);
  }

  lemma {:induction false} StepKeeps(s: System, step: Step)
    requires Inv(s) && Enabled(s, step)
    ensures Inv(Next(s, step))
  {
    hide Placed, Faithful, Owned;
    match step
    case IssueStep(p, thread) => IssueKeeps(s.pods[p], s.candidates, p, thread);
    case SendStep(p) => SendKeeps(s.pods[p], s.candidates, p);
    case ArriveStep(p) => ArriveKeeps(s, p);
    case GrantStep(i, quota) => GrantKeeps(s, i, quota);
    case ReceiveStep(p) => ReceiveKeeps(s.pods[p], s.candidates, p);
    case TakeStep(p, thread) => TakeKeeps(s.pods[p], s.candidates, p, thread);
  }

  // ----- runs

  ghost predicate ValidRun(s: System, steps: seq<Step>)
    decreases |steps|
  {
    steps == [] || (Enabled(s, steps[0]) && ValidRun(Next(s, steps[0]), steps[1..]))
  }

  ghost function EndState(s: System, steps: seq<Step>): System
    requires ValidRun(s, steps)
    decreases |steps|
  {
    if steps == [] then s else EndState(Next(s, steps[0]), steps[1..])
  }

  lemma {:induction false} RunKeeps(s: System, steps: seq<Step>)
    requires Inv(s) && ValidRun(s, steps)
    ensures Inv(EndState(s, steps))
    decreases |steps|
  {
    if steps != [] {
      hide Inv, Enabled, Next;
      StepKeeps(s, steps[0]);
      RunKeeps(Next(s, steps[0]), steps[1..]);
    }
  }

  /** How often request `id` of pod `p` was granted, or its answer picked up, in a run. */
  ghost function Grants(s: System, steps: seq<Step>, p: nat, id: nat): nat
    requires ValidRun(s, steps)
    decreases |steps|
  {
    if steps == [] then 0
    else One(steps[0].GrantStep? && s.candidates[steps[0].i] == Queued(p, id))
         + Grants(Next(s, steps[0]), steps[1..], p, id)
  }

  ghost function Takes(s: System, steps: seq<Step>, p: nat, id: nat): nat
    requires ValidRun(s, steps)
    decreases |steps|
  {
    if steps == [] then 0
    else One(steps[0].TakeStep? && steps[0].p == p && s.pods[p].waiting[steps[0].thread] == id)
         + Takes(Next(s, steps[0]), steps[1..], p, id)
  }

  lemma {:induction false} CountsInRun(s: System, steps: seq<Step>, p: nat, id: nat)
    requires Inv(s) && ValidRun(s, steps) && p < |s.pods|
    ensures |EndState(s, steps).pods| == |s.pods|
    ensures One(id in s.pods[p].granted) + Grants(s, steps, p, id) == One(id in EndState(s, steps).pods[p].granted)
    ensures One(id in s.pods[p].taken) + Takes(s, steps, p, id) == One(id in EndState(s, steps).pods[p].taken)
    decreases |steps|
  {
    if steps != [] {
      StepKeeps(s, steps[0]);
      CountsInStep(s, steps[0], p, id);
      CountsInRun(Next(s, steps[0]), steps[1..], p, id);
    }
  }

  lemma {:induction false} CountsInStep(s: System, step: Step, p: nat, id: nat)
    requires Inv(s) && Enabled(s, step) && p < |s.pods|
    ensures var s' := Next(s, step);
            && |s'.pods| == |s.pods|
            && One(id in s.pods[p].granted) + One(step.GrantStep? && s.candidates[step.i] == Queued(p, id))
               == One(id in s'.pods[p].granted)
            && One(id in s.pods[p].taken)
               + One(step.TakeStep? && step.p == p && s.pods[p].waiting[step.thread] == id)
               == One(id in s'.pods[p].taken)
  {
    hide Placed, Faithful, Owned;
    if step.GrantStep? {
      GrantIsFirst(s, step.i);
    } else if step.TakeStep? {
      TakeIsFirst(s.pods[step.p], step.thread);
    }
  }

  lemma {:induction false} TakeIsFirst(pod: Pod, thread: int)
    requires Owned(pod) && thread in pod.waiting
    ensures pod.waiting[thread] !in pod.taken
  {
  }

  // ----- the order of requests

  /** The ids of a pod's requests at the scheduler, in list order. */
  function IdsOf(cands: seq<Queued>, p: nat): seq<nat> {
    if cands == [] then [] else IdOf(cands[0], p) + IdsOf(cands[1..], p)
  }

  function IdOf(c: Queued, p: nat): seq<nat> {
    if c.socket == p then [c.id] else []
  }

  /** A pod's unanswered requests, the one furthest on its way first. */
  function Line(s: System, p: nat): seq<nat>
    requires p < |s.pods|
  {
    IdsOf(s.candidates, p) + s.pods[p].toScheduler + s.pods[p].queue
  }

  ghost predicate Ascending(q: seq<nat>) {
    forall i, j :: 0 <= i < j < |q| ==> q[i] < q[j]
  }

  /** Requests stand in line in the order in which they were issued. */
  ghost predicate InOrder(s: System, p: nat)
    requires p < |s.pods|
  {
    Ascending(Line(s, p)) && forall id :: id in Line(s, p) ==> id < s.pods[p].nextId
  }

  lemma {:induction false} IdsOfConcat(a: seq<Queued>, b: seq<Queued>, p: nat)
    ensures IdsOf(a + b, p) == IdsOf(a, p) + IdsOf(b, p)
  {
    if a == [] {
      assert a + b == b;
    } else {
      hide IdOf;
      assert (a + b)[0] == a[0] && (a + b)[1..] == a[1..] + b;
      IdsOfConcat(a[1..], b, p);
      var head, x, y := IdOf(a[0], p), IdsOf(a[1..], p), IdsOf(b, p);
      assert head + (x + y) == (head + x) + y;
    }
  }

  lemma {:induction false} IdsOfOne(c: Queued, p: nat)
    ensures IdsOf([c], p) == IdOf(c, p)
  {
    assert [c][1..] == [] && IdsOf([], p) == [];
  }

  lemma {:induction false} SendLine(s: System, p: nat, q: nat)
    requires p < |s.pods| && q < |s.pods|
    ensures Line(Next(s, SendStep(q)), p) == Line(s, p)
  {
    hide IdsOf;
    var pod := s.pods[p];
    if q == p && pod.queue != [] {
      assert pod.queue == [pod.queue[0]] + pod.queue[1..];
    }
  }

  lemma {:induction false} ArriveLine(s: System, p: nat, q: nat)
    requires p < |s.pods| && q < |s.pods| && s.pods[q].toScheduler != []
    ensures Line(Next(s, ArriveStep(q)), p) == Line(s, p)
  {
    var pod, c := s.pods[p], Queued(q, s.pods[q].toScheduler[0]);
    IdsOfConcat(s.candidates, [c], p);
    IdsOfOne(c, p);
    hide IdsOf;
    if q == p {
      var x, sent, z := IdsOf(s.candidates, p), pod.toScheduler, pod.queue;
      assert sent == [sent[0]] + sent[1..];
      assert (x + [sent[0]]) + sent[1..] + z == x + sent + z;
    } else {
      assert IdsOf(s.candidates, p) + [] == IdsOf(s.candidates, p);
    }
  }

  lemma {:induction false} IdsOfRemoved(cands: seq<Queued>, i: nat, p: nat) returns (x: seq<nat>, y: seq<nat>)
    requires i < |cands|
    ensures IdsOf(cands, p) == x + IdOf(cands[i], p) + y && IdsOf(cands[..i] + cands[i + 1..], p) == x + y
  {
    hide IdOf;
    var before, c, behind := cands[..i], cands[i], cands[i + 1..];
    assert cands == before + ([c] + behind);
    IdsOfConcat(before, [c] + behind, p);
    IdsOfConcat([c], behind, p);
    IdsOfConcat(before, behind, p);
    IdsOfOne(c, p);
    hide IdsOf;
    x, y := IdsOf(before, p), IdsOf(behind, p);
  }

  lemma {:induction false} GrantLine(s: System, p: nat, i: nat, quota: real) returns (x: seq<nat>, y: seq<nat>)
    requires p < |s.pods| && Enabled(s, GrantStep(i, quota))
    ensures var line, line' := Line(s, p), Line(Next(s, GrantStep(i, quota)), p);
            if s.candidates[i].socket == p
            then line == x + [s.candidates[i].id] + y && line' == x + y
            else line' == line
  {
    hide IdsOf;
    var s', z := Next(s, GrantStep(i, quota)), s.pods[p].toScheduler + s.pods[p].queue;
    var c := s.candidates[i];
    var front, back := IdsOfRemoved(s.candidates, i, p);
    x, y := front, back + z;
    assert s'.pods[p].toScheduler == s.pods[p].toScheduler && s'.pods[p].queue == s.pods[p].queue;
    Regroup(front + IdOf(c, p) + back, s.pods[p].toScheduler, s.pods[p].queue);
    Regroup(front + back, s.pods[p].toScheduler, s.pods[p].queue);
    assert Line(s, p) == (front + IdOf(c, p) + back) + z && Line(s', p) == (front + back) + z;
    hide Next, Line;
    if c.socket != p {
      assert front + [] + back == front + back;
    }
  }

  lemma {:induction false} Regroup(x: seq<nat>, y: seq<nat>, z: seq<nat>)
    ensures x + y + z == x + (y + z)
  {
  }

  /**
   * How a step changes a pod's line: a new request joins at its end, a granted one leaves it, and
   * everything else, in particular sending and arriving, leaves it as it is.
   */
  lemma {:induction false} LineAfter(s: System, step: Step, p: nat) returns (x: seq<nat>, y: seq<nat>)
    requires Enabled(s, step) && p < |s.pods|
    ensures p < |Next(s, step).pods| == |s.pods|
    ensures var line, line' := Line(s, p), Line(Next(s, step), p);
            match step
            case IssueStep(q, _) => line' == if q == p then line + [s.pods[p].nextId] else line
            case GrantStep(i, _) =>
              if s.candidates[i].socket == p
              then line == x + [s.candidates[i].id] + y && line' == x + y
              else line' == line
            case _ => line' == line
  {
    hide IdsOf;
    x, y := [], [];
    match step
    case IssueStep(q, _) =>
    case SendStep(q) => SendLine(s, p, q);
    case ArriveStep(q) => ArriveLine(s, p, q);
    case GrantStep(i, quota) => x, y := GrantLine(s, p, i, quota);
    case ReceiveStep(q) =>
    case TakeStep(q, _) =>
  }

  lemma {:induction false} StepKeepsOrder(s: System, step: Step, p: nat)
    requires Enabled(s, step) && p < |s.pods| && InOrder(s, p)
    ensures p < |Next(s, step).pods| && InOrder(Next(s, step), p)
  {
    hide Line;
    var x, y := LineAfter(s, step, p);
    var line, line' := Line(s, p), Line(Next(s, step), p);
    NextIds(s, step, p);
    hide Next;
    if step.GrantStep? && s.candidates[step.i].socket == p {
      assert forall id :: id in x + y ==> id in line;
      assert forall i :: 0 <= i < |x + y| ==> (x + y)[i] == line[if i < |x| then i else i + 1];
    } else if step.IssueStep? && step.p == p {
      assert forall i :: 0 <= i < |line| ==> line'[i] == line[i] && line[i] in line;
    }
  }

  lemma {:induction false} NextIds(s: System, step: Step, p: nat)
    requires Enabled(s, step) && p < |s.pods|
    ensures p < |Next(s, step).pods|
    ensures Next(s, step).pods[p].nextId == s.pods[p].nextId + One(step.IssueStep? && step.p == p)
  {
  }

  lemma {:induction false} RunKeepsOrder(s: System, steps: seq<Step>, p: nat)
    requires ValidRun(s, steps) && p < |s.pods| && InOrder(s, p)
    ensures p < |EndState(s, steps).pods| && InOrder(EndState(s, steps), p)
    decreases |steps|
  {
    if steps != [] {
      hide Enabled, Next, InOrder;
      StepKeepsOrder(s, steps[0], p);
      RunKeepsOrder(Next(s, steps[0]), steps[1..], p);
    }
  }

  /** How many requests pod `p` issued in a run. */
  function Issues(steps: seq<Step>, p: nat): nat {
    if steps == [] then 0 else One(steps[0].IssueStep? && steps[0].p == p) + Issues(steps[1..], p)
  }

  lemma {:induction false} IdsCount(s: System, steps: seq<Step>, p: nat)
    requires ValidRun(s, steps) && p < |s.pods|
    ensures p < |EndState(s, steps).pods| && EndState(s, steps).pods[p].nextId == s.pods[p].nextId + Issues(steps, p)
    decreases |steps|
  {
    if steps != [] {
      NextIds(s, steps[0], p);
      hide Enabled, Next;
      IdsCount(Next(s, steps[0]), steps[1..], p);
    }
  }

  /**
   * In every run, the requests of a pod are numbered from 1 on, and the unanswered ones stand in the
   * order in which they were issued: first those at the scheduler in list order, then those on their
   * way, then those in the queue.
   */
  lemma {:induction false} RequestsInOrder(n: nat, steps: seq<Step>, p: nat)
    requires ValidRun(System(seq(n, _ => FRESH_POD), []), steps) && p < n
    ensures var s := EndState(System(seq(n, _ => FRESH_POD), []), steps);
            p < |s.pods| && Ascending(IdsOf(s.candidates, p) + s.pods[p].toScheduler + s.pods[p].queue)
            && s.pods[p].nextId == 1 + Issues(steps, p)
  {
    IdsCount(System(seq(n, _ => FRESH_POD), []), steps, p);
    RunKeepsOrder(System(seq(n, _ => FRESH_POD), []), steps, p);
  }

  /**
   * Request conservation over every run, with any number of pods and threads.  An issued request is
   * in exactly one of the request queue, the channel to the scheduler, the candidates, the channel
   * back, the response map or the answers picked up, and an id that was not issued is in none; it
   * is granted at most once and picked up at most once, by the thread that issued it, and what that
   * thread gets is what the scheduler granted.
   */
  lemma {:induction false} RequestsConserved(n: nat, steps: seq<Step>, p: nat, id: nat)
    requires ValidRun(System(seq(n, _ => FRESH_POD), []), steps) && p < n
    ensures var s0 := System(seq(n, _ => FRESH_POD), []);
            var s := EndState(s0, steps);
            && p < |s.pods|
            && Pending(s.pods[p], s.candidates, p, id) + Answered(s.pods[p], id) == One(Issued(s.pods[p], id))
            && Grants(s0, steps, p, id) <= 1 && Takes(s0, steps, p, id) <= 1
            && Takes(s0, steps, p, id) == One(id in s.pods[p].taken)
            && (id in s.pods[p].taken ==>
                  id in s.pods[p].issuer && id in s.pods[p].taker && id in s.pods[p].granted
                  && s.pods[p].taker[id] == s.pods[p].issuer[id]
                  && s.pods[p].taken[id] == s.pods[p].granted[id])
  {
    var s0 := System(seq(n, _ => FRESH_POD), []);
    InitialInv(n);
    RunKeeps(s0, steps);
    CountsInRun(s0, steps, p, id);
    var s := EndState(s0, steps);
    assert Placed(s.pods[p], s.candidates, p) && Faithful(s.pods[p]) && Owned(s.pods[p]);
  }

  // ----- the pod manager's code

  class PodManager {
    var nextId: nat
    var requestQueue: seq<nat>
    var responseMap: map<nat, real>
    var toScheduler: seq<nat>
    var fromScheduler: seq<Reply>
    ghost var waiting: map<int, nat>
    ghost var issuer: map<nat, int>
    ghost var granted: map<nat, real>
    ghost var taken: map<nat, real>
    ghost var taker: map<nat, int>

    ghost function View(): Pod
      reads this
    {
      Pod(nextId, requestQueue, toScheduler, fromScheduler, responseMap, waiting, issuer, granted, taken, taker)
    }

    constructor ()
      ensures View() == FRESH_POD
    {
      nextId, requestQueue, responseMap, toScheduler, fromScheduler := FIRST_ID, [], map[], [], [];
      waiting, issuer, granted, taken, taker := map[], map[], map[], map[], map[];
    }

    /** A hook thread places a quota request and gets its id. */
    method PlaceRequest(ghost thread: int) returns (id: nat)
      modifies this
      ensures id == old(nextId) && View() == Issue(old(View()), thread)
    {
      id := nextId;
      nextId := nextId + 1;
      requestQueue := requestQueue + [id];
      waiting, issuer := waiting[thread := id], issuer[id := thread];
    }

    /** The sender thread forwards the oldest request, if there is one. */
    method ForwardOne()
      modifies this
      ensures View() == Send(old(View()))
    {
      if requestQueue != [] {
        toScheduler := toScheduler + [requestQueue[0]];
        requestQueue := requestQueue[1..];
      }
    }

    /** The receiver thread stores one answer. */
    method StoreOne()
      requires fromScheduler != []
      modifies this
      ensures View() == Receive(old(View()))
    {
      var r := fromScheduler[0];
      fromScheduler := fromScheduler[1..];
      if r.id !in responseMap {
        responseMap := responseMap[r.id := r.quota];
      }
    }

    /** A waiting hook thread looks for its answer and removes it. */
    method TryTake(ghost thread: int, id: nat) returns (quota: Option<real>)
      requires thread in waiting && waiting[thread] == id
      modifies this
      ensures if id in old(responseMap)
              then quota == Some(old(responseMap)[id]) && View() == Take(old(View()), thread)
              else quota == None && View() == old(View())
    {
      if id in responseMap {
        quota := Some(responseMap[id]);
        taken, taker := taken[id := responseMap[id]], taker[id := thread];
        responseMap := responseMap - {id};
        waiting := waiting - {thread};
      } else {
        quota := None;
      }
    }
  }
}
