/**
 * The scheduler as a state machine.  A step is one handler or one round of the daemon; `log`
 * remembers every grant ever made, so that statements about whole runs can be made.
 */
module SchedulerSpec {
  import opened Reals
  import opened UsageModel
  import opened UsageLaws
  import opened SweepLaws
  import opened Quota
  import opened Selection

  datatype Settings = Settings(cfgs: map<string, Config>, window: real)

  /** Whether, when and with which overuse the holder asked again. */
  datatype Return = NotYet | Returned(time: real, overuse: real)

  /**
   * One grant; `dropped` once its entry was pruned from the history list.  `phantoms` counts the
   * other clients' entries that the sweep took for running ones, although they had ended, when it was
   * selected.
   */
  datatype Grant = Grant(name: string, start: real, quota: real, back: Return, dropped: bool, phantoms: nat)

  /** The entry that the scheduler's bookkeeping holds for a grant. */
  function Recorded(g: Grant): Entry {
    Entry(g.name, g.start,
          match g.back
          case NotYet => g.start + g.quota
          case Returned(t, o) => Min(t, g.start + g.quota + o))
  }

  /** When the token stopped being with the holder: at the end of the quota, or at its return. */
  function TokenEnd(g: Grant): real {
    match g.back
    case NotYet => g.start + g.quota
    case Returned(t, _) => Min(t, g.start + g.quota)
  }

  function Overuse(g: Grant): real {
    match g.back
    case NotYet => 0.0
    case Returned(_, o) => o
  }

  /** The complete history, as the debugging build keeps it. */
  function FullHistory(log: seq<Grant>): seq<Entry> {
    if log == [] then [] else FullHistory(log[..|log| - 1]) + [Recorded(log[|log| - 1])]
  }

  /** The entries still in the history list. */
  function Live(log: seq<Grant>): seq<Entry> {
    if log == [] then []
    else Live(log[..|log| - 1]) + (if log[|log| - 1].dropped then [] else [Recorded(log[|log| - 1])])
  }

  /** The daemon is free to select, or waits for the holder until the deadline. */
  datatype Phase = Idle | Holding(name: string, deadline: real)

  datatype State = State(
    history: seq<Entry>,
    candidates: seq<Candidate>,
    clients: map<string, ClientState>,
    phase: Phase,
    clock: real,
    lastWindow: real,
    log: seq<Grant>)

  function Initial(env: Settings, clock: real): State {
    State([], [], map n | n in env.cfgs :: ClientState(env.cfgs[n].baseQuota, 0.0, 0.0, 0.0),
          Idle, clock, clock - env.window, [])
  }

  // ----- the pieces of a step

  /** Where a name occurs last, or -1. */
  function LastIndex(names: seq<string>, n: string): (i: int)
    ensures -1 <= i < |names|
    ensures 0 <= i ==> names[i] == n
    ensures forall j :: i < j < |names| ==> names[j] != n
  {
    if names == [] then -1
    else if names[|names| - 1] == n then |names| - 1
    else LastIndex(names[..|names| - 1], n)
  }

  function EntryNames(h: seq<Entry>): (names: seq<string>)
    ensures |names| == |h| && forall i :: 0 <= i < |h| ==> names[i] == h[i].name
  {
    seq(|h|, i requires 0 <= i < |h| => h[i].name)
  }

  /** `update_return_time`: closes the latest entry of the client. */
  function CloseLast(h: seq<Entry>, n: string, overuse: real, now: real): seq<Entry> {
    var i := LastIndex(EntryNames(h), n);
    if i < 0 then h else h[i := h[i].(end := Min(now, h[i].end + overuse))]
  }

  function LastGrant(log: seq<Grant>, n: string): (i: int)
    ensures -1 <= i < |log|
    ensures 0 <= i ==> log[i].name == n
    ensures forall j :: i < j < |log| ==> log[j].name != n
  {
    var names := seq(|log|, i requires 0 <= i < |log| => log[i].name);
    assert forall j :: 0 <= j < |log| ==> names[j] == log[j].name;
    LastIndex(names, n)
  }

  function MarkReturned(log: seq<Grant>, n: string, overuse: real, now: real): seq<Grant> {
    var i := LastGrant(log, n);
    if i < 0 then log else log[i := log[i].(back := Returned(now, overuse))]
  }

  /** Every grant whose entry ended before `w` leaves the history list. */
  function MarkDropped(log: seq<Grant>, w: real): seq<Grant> {
    seq(|log|, i requires 0 <= i < |log| =>
      if Recorded(log[i]).end < w then log[i].(dropped := true) else log[i])
  }

  predicate Waiting(cands: seq<Candidate>, n: string) {
    exists c :: c in cands && c.name == n
  }

  function ReturnedClient(c: ClientState, h: seq<Entry>, n: string, overuse: real, now: real): ClientState {
    var i := LastIndex(EntryNames(h), n);
    c.(latestOveruse := overuse,
       latestActualUsage := if i < 0 then c.latestActualUsage else Min(now, h[i].end + overuse) - h[i].start)
  }

  // ----- steps

  datatype Step =
    | Request(now: real, socket: int, name: string, reqId: int, overuse: real, burst: real)
    | Select(now: real, choice: nat, recordTime: real, deadline: real)
    | Sleep(now: real)
    | Expire(now: real)
    | Wake(now: real)

  ghost function SceneAt(env: Settings, s: State, now: real): Scene {
    Scene(Kept(s.history, now - env.window), env.cfgs, now, env.window)
  }

  ghost predicate CandidatesKnown(env: Settings, s: State) {
    s.clients.Keys == env.cfgs.Keys && forall c :: c in s.candidates ==> c.name in env.cfgs
  }

  /**
   * When a step may happen.  A request assumes what the protocol promises of clients: one
   * outstanding request per name, a nonnegative overuse, and a return strictly after its grant.
   */
  ghost predicate Enabled(env: Settings, s: State, step: Step)
    requires CandidatesKnown(env, s)
  {
    s.clock <= step.now &&
    match step
    case Request(now, _, name, _, overuse, _) =>
      name in env.cfgs ==>
        !Waiting(s.candidates, name) && 0.0 <= overuse
        && (var i := LastGrant(s.log, name); 0 <= i ==> s.log[i].start < now)
    case Select(now, choice, recordTime, deadline) =>
      s.phase.Idle? && choice < |s.candidates|
      && MaySelect(SceneAt(env, s, now), s.candidates, choice)
      && now <= recordTime
      && recordTime + GrantedQuota(env, s, s.candidates[choice].name) <= deadline
    case Sleep(now) =>
      s.phase.Idle? && s.candidates != [] && MustSleep(SceneAt(env, s, now), s.candidates)
    case Expire(now) => s.phase.Holding? && s.phase.deadline <= now
    case Wake(_) => s.phase.Holding? && Waiting(s.candidates, s.phase.name)
  }

  /** How many phantoms dilute the usage of client `n` in a selection; the quick exit does not sweep at all. */
  ghost function PhantomsSeen(sc: Scene, cands: seq<Candidate>, n: string): nat {
    if FrontAbsent(sc, cands) then 0 else OtherPhantoms(sc.h, n, sc.Start())
  }

  /** None exactly on the quick exit, or when no other client's kept entry ended at the window start. */
  lemma {:induction false} NoPhantomsSeen(env: Settings, s: State, now: real, n: string)
    ensures PhantomsSeen(SceneAt(env, s, now), s.candidates, n) == 0 <==>
            || FrontAbsent(SceneAt(env, s, now), s.candidates)
            || forall e :: e in s.history && e.name != n ==> e.end != now - env.window
  {
    hide FrontAbsent;
    OtherPhantomsCount(SceneAt(env, s, now).h, n, now - env.window);
    KeptMembers(s.history, now - env.window);
  }

  function GrantedQuota(env: Settings, s: State, n: string): real
    requires n in env.cfgs && n in s.clients
  {
    NextQuota(env.cfgs[n], s.clients[n].burst, s.clients[n].quota)
  }

  function AfterRequest(s: State, st: Step): State
    requires st.Request? && st.name in s.clients
  {
    s.(history := CloseLast(s.history, st.name, st.overuse, st.now),
       clients := s.clients[st.name := ReturnedClient(s.clients[st.name], s.history, st.name, st.overuse, st.now)
                                       .(burst := st.burst)],
       candidates := s.candidates + [Candidate(st.socket, st.name, st.reqId, st.now)],
       clock := st.now,
       log := MarkReturned(s.log, st.name, st.overuse, st.now))
  }

  function AfterPrune(env: Settings, s: State, now: real): State {
    s.(history := Kept(s.history, now - env.window),
       clock := now,
       lastWindow := now - env.window,
       log := MarkDropped(s.log, now - env.window))
  }

  /** Takes the chosen candidate off the list, computes its quota and records the grant. */
  function AfterGrant(env: Settings, s: State, choice: nat, recordTime: real, deadline: real, phantoms: nat): State
    requires choice < |s.candidates|
    requires s.candidates[choice].name in env.cfgs && s.candidates[choice].name in s.clients
  {
    var n := s.candidates[choice].name;
    var q := GrantedQuota(env, s, n);
    s.(history := s.history + [Entry(n, recordTime, recordTime + q)],
       candidates := s.candidates[..choice] + s.candidates[choice + 1..],
       clients := s.clients[n := s.clients[n].(quota := q)],
       phase := Holding(n, deadline),
       clock := recordTime,
       log := s.log + [Grant(n, recordTime, q, NotYet, false, phantoms)])
  }

  /** The state after a step; requests of unknown clients are ignored. */
  ghost function Apply(env: Settings, s: State, step: Step): State
    requires CandidatesKnown(env, s) && Enabled(env, s, step)
  {
    match step
    case Request(now, _, name, _, _, _) =>
      if name in env.cfgs then AfterRequest(s, step) else s.(clock := now)
    case Select(now, choice, recordTime, deadline) =>
      AfterGrant(env, AfterPrune(env, s, now), choice, recordTime, deadline,
                 PhantomsSeen(SceneAt(env, s, now), s.candidates, s.candidates[choice].name))
    case Sleep(now) => AfterPrune(env, s, now)
    case Expire(now) => s.(clock := now, phase := Idle)
    case Wake(now) => s.(clock := now, phase := Idle)
  }
}
