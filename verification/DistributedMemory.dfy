/**
 * The pod manager and its hooks together.  An allocation is counted by the pod before the hook
 * counts it, a free is taken off by the hook before the pod takes it off; in between the bytes are
 * in flight on the connection that the call opened.
 */
module DistributedMemory {
  import opened Options
  import opened MapTotals
  import opened MemoryAccounting

  /** A hook's local accounting; `freeing` is set while the allocation lock is held by a free. */
  datatype Hook = Hook(allocs: map<int, nat>, used: nat, freeing: Option<int>)

  datatype Call =
    | AllocAsked(ptr: int, size: nat)
    | AllocGranted(ptr: int, size: nat)
    | AllocDenied
    | FreeAsked(ptr: int, size: nat)
    | FreeServed(ptr: int, size: nat)
    | Finished

  /** A connection: the process behind it, the pod's entry for it and the call it carries. */
  datatype Conn = Conn(proc: int, entry: nat, call: Call)

  datatype System = System(limit: nat, used: nat, conns: map<int, Conn>, hooks: map<int, Hook>)

  // ----- what the hooks do

  /** After the pod accepted: `cuMemAlloc_posthook` books the allocation. */
  function Book(h: Hook, ptr: int, size: nat): Hook {
    h.(allocs := h.allocs[ptr := size], used := Plus(h.used, size))
  }

  /** `cuMemFree_prehook` before the pod is told: the bytes come off the local total. */
  function StartFree(h: Hook, ptr: int): Hook
    requires ptr in h.allocs
  {
    h.(used := Minus(h.used, h.allocs[ptr]), freeing := Some(ptr))
  }

  /** `cuMemFree_prehook` after the pod answered: the pointer is forgotten. */
  function EndFree(h: Hook, ptr: int): Hook {
    h.(allocs := h.allocs - {ptr}, freeing := None)
  }

  // ----- steps

  datatype Step =
    | Spawn(proc: int)
    | AskAlloc(proc: int, sock: int, ptr: int, size: nat)
    | ServeAlloc(sock: int)
    | BookAlloc(sock: int)
    | AskFree(proc: int, sock: int, ptr: int)
    | ServeFree(sock: int)
    | FinishFree(sock: int)
    | Exit(proc: int)

  /** The call announces a pointer that the hook has not booked yet. */
  predicate Allocating(c: Conn) {
    c.call.AllocAsked? || c.call.AllocGranted?
  }

  /**
   * When a step may happen.  Assumed of the environment: a new allocation has a pointer that is
   * neither booked nor about to be booked, and a size is a 64-bit number.
   */
  ghost predicate Enabled(s: System, step: Step) {
    match step
    case Spawn(proc) => proc !in s.hooks
    case AskAlloc(proc, sock, ptr, size) =>
      proc in s.hooks && sock !in s.conns && size < U64 && ptr !in s.hooks[proc].allocs
      && forall k :: k in s.conns && s.conns[k].proc == proc && Allocating(s.conns[k]) ==> s.conns[k].call.ptr != ptr
    case ServeAlloc(sock) => sock in s.conns && s.conns[sock].call.AllocAsked?
    case BookAlloc(sock) =>
      sock in s.conns && (s.conns[sock].call.AllocDenied?
                          || (s.conns[sock].call.AllocGranted? && s.conns[sock].proc in s.hooks
                              && s.hooks[s.conns[sock].proc].freeing.None?))
    case AskFree(proc, sock, ptr) =>
      proc in s.hooks && sock !in s.conns && s.hooks[proc].freeing.None? && ptr in s.hooks[proc].allocs
    case ServeFree(sock) => sock in s.conns && s.conns[sock].call.FreeAsked?
    case FinishFree(sock) => sock in s.conns && s.conns[sock].call.FreeServed? && s.conns[sock].proc in s.hooks
    case Exit(proc) => proc in s.hooks
  }

  /** The only step that can go wrong: the sum of an allocation wraps around. */
  ghost predicate Fits(s: System, step: Step)
    requires Enabled(s, step)
  {
    step.ServeAlloc? ==> s.used + s.conns[step.sock].call.size < U64
  }

  ghost function OfProc(conns: map<int, Conn>, proc: int): set<int> {
    set k | k in conns && conns[k].proc == proc
  }

  ghost function Next(s: System, step: Step): System
    requires Enabled(s, step)
  {
    match step
    case Spawn(proc) => s.(hooks := s.hooks[proc := Hook(map[], 0, None)])
    case AskAlloc(proc, sock, ptr, size) =>
      s.(conns := s.conns[sock := Conn(proc, 0, AllocAsked(ptr, size))])
    case ServeAlloc(sock) =>
      var c := s.conns[sock];
      var r := Serve(s.used, s.limit, c.entry, c.call.size, true);
      s.(used := r.used,
         conns := s.conns[sock := Conn(c.proc, r.entry,
                                       if r.ok then AllocGranted(c.call.ptr, c.call.size) else AllocDenied)])
    case BookAlloc(sock) =>
      var c := s.conns[sock];
      var s' := s.(conns := s.conns[sock := c.(call := Finished)]);
      if c.call.AllocDenied? then s'
      else s'.(hooks := s.hooks[c.proc := Book(s.hooks[c.proc], c.call.ptr, c.call.size)])
    case AskFree(proc, sock, ptr) =>
      s.(conns := s.conns[sock := Conn(proc, 0, FreeAsked(ptr, s.hooks[proc].allocs[ptr]))],
         hooks := s.hooks[proc := StartFree(s.hooks[proc], ptr)])
    case ServeFree(sock) =>
      var c := s.conns[sock];
      var r := Serve(s.used, s.limit, c.entry, c.call.size, false);
      s.(used := r.used, conns := s.conns[sock := Conn(c.proc, r.entry, FreeServed(c.call.ptr, c.call.size))])
    case FinishFree(sock) =>
      var c := s.conns[sock];
      s.(conns := s.conns[sock := c.(call := Finished)],
         hooks := s.hooks[c.proc := EndFree(s.hooks[c.proc], c.call.ptr)])
    case Exit(proc) =>
      s.(used := Minus(s.used, Total(s.conns, EntryFor(proc))),
         conns := s.conns - OfProc(s.conns, proc),
         hooks := s.hooks - {proc})
  }

  // ----- what is summed

  function InFlight(call: Call): nat {
    match call
    case AllocGranted(_, size) => size
    case FreeAsked(_, size) => size
    case _ => 0
  }

  ghost function Flying(): Conn -> int {
    (c: Conn) => InFlight(c.call)
  }

  ghost function FlyingFor(proc: int): Conn -> int {
    (c: Conn) => if c.proc == proc then InFlight(c.call) else 0
  }

  ghost function FlyingExcept(proc: int): Conn -> int {
    (c: Conn) => if c.proc == proc then 0 else InFlight(c.call)
  }

  ghost function EntryFor(proc: int): Conn -> int {
    (c: Conn) => if c.proc == proc then c.entry else 0
  }

  ghost function HookUsed(): Hook -> int {
    (h: Hook) => h.used
  }

  // ----- the invariant

  /** The pod's total is what the hooks count plus what is in flight, and within the limit. */
  ghost predicate Balanced(s: System) {
    s.limit < U64 && s.used <= s.limit
    && s.used == Total(s.hooks, HookUsed()) + Total(s.conns, Flying())
  }

  /** The entries of a process add up to its share of the total, modulo 2 to the 64. */
  ghost predicate EntriesMatch(s: System) {
    forall p :: p in s.hooks ==>
      Congruent(Total(s.conns, EntryFor(p)), s.hooks[p].used + Total(s.conns, FlyingFor(p)))
  }

  /** A hook's total is the sum of its allocations, except the one being freed. */
  ghost predicate HookOk(h: Hook) {
    match h.freeing
    case None => h.used == Total(h.allocs, Id())
    case Some(ptr) => ptr in h.allocs && h.used == Total(h.allocs, Id()) - h.allocs[ptr]
  }

  predicate Freeing(c: Conn) {
    c.call.FreeAsked? || c.call.FreeServed?
  }

  /** A process has at most one free under way, of the pointer its hook is freeing. */
  ghost predicate FreesOk(s: System) {
    && (forall k :: k in s.conns ==> s.conns[k].proc in s.hooks)
    && (forall k :: k in s.conns && Freeing(s.conns[k]) ==>
          s.hooks[s.conns[k].proc].freeing == Some(s.conns[k].call.ptr))
    && (forall j, k :: (j in s.conns && k in s.conns && Freeing(s.conns[j]) && Freeing(s.conns[k])
                        && s.conns[j].proc == s.conns[k].proc) ==> j == k)
  }

  /** The pointers to be booked are new and distinct, and sizes are 64-bit numbers. */
  ghost predicate AllocsOk(s: System) {
    && (forall k :: k in s.conns && Allocating(s.conns[k]) && s.conns[k].proc in s.hooks ==>
          s.conns[k].call.ptr !in s.hooks[s.conns[k].proc].allocs)
    && (forall j, k :: (j in s.conns && k in s.conns && Allocating(s.conns[j]) && Allocating(s.conns[k])
                        && s.conns[j].proc == s.conns[k].proc && s.conns[j].call.ptr == s.conns[k].call.ptr) ==> j == k)
    && (forall k :: k in s.conns && s.conns[k].call.AllocAsked? ==> s.conns[k].call.size < U64)
  }

  ghost predicate CallsOk(s: System) {
    FreesOk(s) && AllocsOk(s)
  }

  ghost predicate HooksOk(s: System) {
    forall p :: p in s.hooks ==> HookOk(s.hooks[p])
  }

  ghost predicate Inv(s: System) {
    Balanced(s) && EntriesMatch(s) && HooksOk(s) && CallsOk(s)
  }

  lemma {:induction false} InitialInv(limit: nat)
    requires limit < U64
    ensures Inv(System(limit, 0, map[], map[]))
  {
  }

  // ----- the totals under a change of one connection and one hook

  /** Moving the call of one connection and the total of its hook by matching amounts. */
  lemma {:induction false} MoveKeeps(s: System, sock: int, c: Conn, used: nat, hook: Hook, s': System, dEntry: int)
    requires Balanced(s) && EntriesMatch(s) && c.proc in s.hooks
    requires sock in s.conns ==> s.conns[sock].proc == c.proc
    requires s' == System(s.limit, used, s.conns[sock := c], s.hooks[c.proc := hook])
    requires var before := if sock in s.conns then s.conns[sock] else Conn(c.proc, 0, Finished);
             && Congruent(c.entry, before.entry + dEntry)
             && hook.used + InFlight(c.call) - s.hooks[c.proc].used - InFlight(before.call) == dEntry
             && used == s.used + dEntry && used <= s.limit
    ensures Balanced(s') && EntriesMatch(s')
  {
    hide Total, Congruent;
    TotalUpdate(s.conns, Flying(), sock, c);
    TotalUpdate(s.hooks, HookUsed(), c.proc, hook);
    forall p | p in s'.hooks
      ensures Congruent(Total(s'.conns, EntryFor(p)), s'.hooks[p].used + Total(s'.conns, FlyingFor(p)))
    {
      TotalUpdate(s.conns, EntryFor(p), sock, c);
      TotalUpdate(s.conns, FlyingFor(p), sock, c);
      if p == c.proc {
        var e: int := if sock in s.conns then s.conns[sock].entry else 0;
        EntryShift(Total(s.conns, EntryFor(p)), e, dEntry, c.entry);
        CongruentSelf(s.hooks[p].used + Total(s.conns, FlyingFor(p)) + dEntry);
        CongruentSum(Total(s.conns, EntryFor(p)), s.hooks[p].used + Total(s.conns, FlyingFor(p)), dEntry,
                     Total(s'.conns, EntryFor(p)), s'.hooks[p].used + Total(s'.conns, FlyingFor(p)));
      }
    }
  }

  lemma {:induction false} CongruentSelf(x: int)
    ensures Congruent(x, x)
  {
  }

  /** A hook's total and the bytes in flight on one connection fit in the pod's total. */
  lemma {:induction false} WithinUsed(s: System, p: int, k: int)
    requires Balanced(s) && p in s.hooks && k in s.conns
    ensures s.hooks[p].used + InFlight(s.conns[k].call) <= s.used
  {
    TotalAtLeast(s.hooks, HookUsed(), p);
    TotalAtLeast(s.conns, Flying(), k);
  }

  lemma {:induction false} HookWithinUsed(s: System, p: int)
    requires Balanced(s) && p in s.hooks
    ensures s.hooks[p].used <= s.used
  {
    TotalAtLeast(s.hooks, HookUsed(), p);
    TotalNonnegative(s.conns, Flying());
  }

  lemma {:induction false} WrapExact(x: int)
    requires 0 <= x < U64
    ensures x % U64 == x
  {
  }

  // ----- allocations

  lemma {:induction false} AskAllocKeeps(s: System, proc: int, sock: int, ptr: int, size: nat)
    requires Inv(s) && Enabled(s, AskAlloc(proc, sock, ptr, size))
    ensures Inv(Next(s, AskAlloc(proc, sock, ptr, size)))
  {
    hide Total, HookOk;
    var s' := Next(s, AskAlloc(proc, sock, ptr, size));
    var c := s'.conns[sock];
    assert s.hooks[proc := s.hooks[proc]] == s.hooks;
    CongruentSelf(0);
    MoveKeeps(s, sock, c, s.used, s.hooks[proc], s', 0);
    hide Balanced, EntriesMatch;
  }

  lemma {:induction false} ServeAllocKeeps(s: System, sock: int)
    requires Inv(s) && Enabled(s, ServeAlloc(sock)) && Fits(s, ServeAlloc(sock))
    ensures Inv(Next(s, ServeAlloc(sock)))
  {
    hide Total, HookOk, Congruent;
    var s', c := Next(s, ServeAlloc(sock)), s.conns[sock];
    WrapExact(s.used + c.call.size);
    assert s.hooks[c.proc := s.hooks[c.proc]] == s.hooks;
    var size: int := c.call.size;
    var d := if s'.conns[sock].call.AllocDenied? then 0 else size;
    WrapCongruent(c.entry + size);
    CongruentSelf(c.entry);
    MoveKeeps(s, sock, s'.conns[sock], s'.used, s.hooks[c.proc], s', d);
    hide Balanced, EntriesMatch;
    assert CallsOk(s');
  }

  lemma {:induction false} BookAllocKeeps(s: System, sock: int)
    requires Inv(s) && Enabled(s, BookAlloc(sock))
    ensures Inv(Next(s, BookAlloc(sock)))
  {
    hide Total, Congruent;
    var s', c := Next(s, BookAlloc(sock)), s.conns[sock];
    var h := s.hooks[c.proc];
    CongruentSelf(c.entry);
    if c.call.AllocDenied? {
      assert s.hooks[c.proc := h] == s.hooks;
      MoveKeeps(s, sock, s'.conns[sock], s.used, h, s', 0);
    } else {
      WithinUsed(s, c.proc, sock);
      WrapExact(h.used + c.call.size);
      assert Allocating(c);
      TotalUpdate(h.allocs, Id(), c.call.ptr, c.call.size);
      MoveKeeps(s, sock, s'.conns[sock], s.used, s'.hooks[c.proc], s', 0);
    }
    hide Balanced, EntriesMatch;
    assert HooksOk(s');
    hide HooksOk, HookOk;
    BookCalls(s, sock);
  }

  lemma {:induction false} BookCalls(s: System, sock: int)
    requires CallsOk(s) && Enabled(s, BookAlloc(sock))
    ensures CallsOk(Next(s, BookAlloc(sock)))
  {
    hide Plus;
    assert FreesOk(Next(s, BookAlloc(sock)));
    hide FreesOk;
    if s.conns[sock].call.AllocGranted? {
      assert Allocating(s.conns[sock]);
    }
  }

  // ----- frees

  lemma {:induction false} AskFreeKeeps(s: System, proc: int, sock: int, ptr: int)
    requires Inv(s) && Enabled(s, AskFree(proc, sock, ptr))
    ensures Inv(Next(s, AskFree(proc, sock, ptr)))
  {
    hide Total, Congruent;
    var s', h := Next(s, AskFree(proc, sock, ptr)), s.hooks[proc];
    TotalAtLeast(h.allocs, Id(), ptr);
    HookWithinUsed(s, proc);
    WrapExact(h.used - h.allocs[ptr]);
    CongruentSelf(0);
    MoveKeeps(s, sock, s'.conns[sock], s.used, s'.hooks[proc], s', 0);
    hide Balanced, EntriesMatch;
    assert HooksOk(s');
    hide HooksOk, HookOk;
    assert CallsOk(s');
  }

  lemma {:induction false} ServeFreeKeeps(s: System, sock: int)
    requires Inv(s) && Enabled(s, ServeFree(sock))
    ensures Inv(Next(s, ServeFree(sock)))
  {
    hide Total, HookOk, Congruent;
    var s', c := Next(s, ServeFree(sock)), s.conns[sock];
    var size: int := c.call.size;
    WithinUsed(s, c.proc, sock);
    WrapExact(s.used - size);
    WrapCongruent(c.entry - size);
    assert s.hooks[c.proc := s.hooks[c.proc]] == s.hooks;
    MoveKeeps(s, sock, s'.conns[sock], s'.used, s.hooks[c.proc], s', -size);
    hide Balanced, EntriesMatch;
    assert CallsOk(s');
  }

  lemma {:induction false} FinishFreeKeeps(s: System, sock: int)
    requires Inv(s) && Enabled(s, FinishFree(sock))
    ensures Inv(Next(s, FinishFree(sock)))
  {
    hide Total, Congruent;
    var s', c := Next(s, FinishFree(sock)), s.conns[sock];
    var h := s.hooks[c.proc];
    assert Freeing(c);
    TotalRemove(h.allocs, Id(), c.call.ptr);
    CongruentSelf(c.entry);
    MoveKeeps(s, sock, s'.conns[sock], s.used, s'.hooks[c.proc], s', 0);
    hide Balanced, EntriesMatch;
    assert HooksOk(s');
    hide HooksOk, HookOk;
    assert CallsOk(s');
  }

  // ----- processes

  lemma {:induction false} SpawnKeeps(s: System, proc: int)
    requires Inv(s) && Enabled(s, Spawn(proc))
    ensures Inv(Next(s, Spawn(proc)))
  {
    hide Total, Congruent;
    var s' := Next(s, Spawn(proc));
    TotalUpdate(s.hooks, HookUsed(), proc, s'.hooks[proc]);
    forall k | k in s.conns
      ensures EntryFor(proc)(s.conns[k]) == 0 && FlyingFor(proc)(s.conns[k]) == 0
    {
      assert s.conns[k].proc in s.hooks;
    }
    TotalZero(s.conns, EntryFor(proc));
    TotalZero(s.conns, FlyingFor(proc));
    TotalZero<int, nat>(map[], Id());
    CongruentSelf(0);
  }

  lemma {:induction false} ExitEntries(s: System, proc: int)
    requires EntriesMatch(s) && proc in s.hooks
    ensures EntriesMatch(Next(s, Exit(proc)))
  {
    hide Total, Congruent;
    var s' := Next(s, Exit(proc));
    forall p | p in s'.hooks
      ensures Congruent(Total(s'.conns, EntryFor(p)), s'.hooks[p].used + Total(s'.conns, FlyingFor(p)))
    {
      TotalDrop(s.conns, EntryFor(p), OfProc(s.conns, proc));
      TotalDrop(s.conns, FlyingFor(p), OfProc(s.conns, proc));
    }
  }

  /** When a process ends, closing its connections returns exactly what it held. */
  lemma {:induction false} ExitBalanced(s: System, proc: int)
    requires Balanced(s) && EntriesMatch(s) && proc in s.hooks
    ensures Balanced(Next(s, Exit(proc)))
  {
    hide Total;
    var s', gone := Next(s, Exit(proc)), OfProc(s.conns, proc);
    TotalRemove(s.hooks, HookUsed(), proc);
    TotalAdd(s.conns, FlyingFor(proc), FlyingExcept(proc), Flying());
    TotalDrop(s.conns, FlyingExcept(proc), gone);
    TotalAgree(s'.conns, FlyingExcept(proc), Flying());
    TotalNonnegative(s'.hooks, HookUsed());
    TotalNonnegative(s'.conns, Flying());
    TotalNonnegative(s.conns, FlyingFor(proc));
    var rest := Total(s'.hooks, HookUsed()) + Total(s'.conns, Flying());
    var held := s.hooks[proc].used + Total(s.conns, FlyingFor(proc));
    var entries := Total(s.conns, EntryFor(proc));
    assert s.used == rest + held;
    ReturnsExactly(s.used, entries, held, rest);
  }

  lemma {:induction false} ReturnsExactly(used: int, entries: int, held: int, rest: int)
    requires Congruent(entries, held) && used == rest + held && 0 <= rest < U64
    ensures Minus(used, entries) == rest
  {
    var k := (entries - held) / U64;
    assert used - entries == rest + U64 * (-k);
  }

  lemma {:induction false} ExitKeeps(s: System, proc: int)
    requires Inv(s) && Enabled(s, Exit(proc))
    ensures Inv(Next(s, Exit(proc)))
  {
    ExitBalanced(s, proc);
    ExitEntries(s, proc);
    hide Balanced, EntriesMatch, HookOk, Minus, Total;
  }

  /** An allocation that wraps the sum is accepted, and the pod's total is then too small. */
  lemma {:induction false} WrapUnbalances(s: System, sock: int)
    requires Inv(s) && Enabled(s, ServeAlloc(sock)) && !Fits(s, ServeAlloc(sock))
    ensures !Balanced(Next(s, ServeAlloc(sock)))
  {
    hide Total, HookOk, Congruent;
    var s', c := Next(s, ServeAlloc(sock)), s.conns[sock];
    var sum: int := s.used + c.call.size;
    WrapExact(sum - U64);
    SameRemainder(sum - U64, 1);
    TotalUpdate(s.conns, Flying(), sock, s'.conns[sock]);
  }

  /** Every step keeps the accounts, except exactly an allocation whose sum wraps around. */
  lemma {:induction false} StepKeeps(s: System, step: Step)
    requires Inv(s) && Enabled(s, step)
    ensures Inv(Next(s, step)) <==> Fits(s, step)
    ensures Balanced(Next(s, step)) <==> Fits(s, step)
  {
    if Fits(s, step) {
      FittingStepKeeps(s, step);
    } else {
      WrapUnbalances(s, step.sock);
    }
    hide Next, Enabled, Fits, Balanced;
  }

  lemma {:induction false} FittingStepKeeps(s: System, step: Step)
    requires Inv(s) && Enabled(s, step) && Fits(s, step)
    ensures Inv(Next(s, step))
  {
    hide Inv, Next, Enabled, Fits;
    match step
    case Spawn(proc) => SpawnKeeps(s, proc);
    case AskAlloc(proc, sock, ptr, size) => AskAllocKeeps(s, proc, sock, ptr, size);
    case ServeAlloc(sock) => ServeAllocKeeps(s, sock);
    case BookAlloc(sock) => BookAllocKeeps(s, sock);
    case AskFree(proc, sock, ptr) => AskFreeKeeps(s, proc, sock, ptr);
    case ServeFree(sock) => ServeFreeKeeps(s, sock);
    case FinishFree(sock) => FinishFreeKeeps(s, sock);
    case Exit(proc) => ExitKeeps(s, proc);
  }

  // ----- runs

  ghost predicate ValidRun(s: System, steps: seq<Step>)
    decreases |steps|
  {
    steps == [] || (Enabled(s, steps[0]) && ValidRun(Next(s, steps[0]), steps[1..]))
  }

  ghost function EndState(s: System, steps: seq<Step>): System
    requires ValidRun(s, steps)
    decreases |steps|
  {
    if steps == [] then s else EndState(Next(s, steps[0]), steps[1..])
  }

  /** No allocation of the run wraps the sum. */
  ghost predicate NeverWraps(s: System, steps: seq<Step>)
    requires ValidRun(s, steps)
    decreases |steps|
  {
    steps == [] || (Fits(s, steps[0]) && NeverWraps(Next(s, steps[0]), steps[1..]))
  }

  /** In every state of the run the total is exact and within the limit. */
  ghost predicate AlwaysBalanced(s: System, steps: seq<Step>)
    requires ValidRun(s, steps)
    decreases |steps|
  {
    Balanced(s) && (steps == [] || AlwaysBalanced(Next(s, steps[0]), steps[1..]))
  }

  lemma {:induction false} RunKeeps(s: System, steps: seq<Step>)
    requires Inv(s) && ValidRun(s, steps)
    ensures AlwaysBalanced(s, steps) <==> NeverWraps(s, steps)
    ensures NeverWraps(s, steps) ==> Inv(EndState(s, steps))
    decreases |steps|
  {
    if steps != [] {
      StepKeeps(s, steps[0]);
      hide Next, Enabled, Fits;
      if Inv(Next(s, steps[0])) {
        RunKeeps(Next(s, steps[0]), steps[1..]);
      }
    }
  }

  /**
   * Distributed accounting over every run.  In every state the pod's total is exactly what the hooks
   * count plus what is in flight, and within the limit, if and only if no allocation of the run wraps
   * the sum.  Then every hook's total is the sum of its live allocations, except the one being freed,
   * and the entries of each process add up to its share modulo 2 to the 64, although single entries
   * may have wrapped.
   */
  lemma {:induction false} MemoryAccounted(limit: nat, steps: seq<Step>)
    requires limit < U64 && ValidRun(System(limit, 0, map[], map[]), steps)
    ensures AlwaysBalanced(System(limit, 0, map[], map[]), steps) <==> NeverWraps(System(limit, 0, map[], map[]), steps)
    ensures NeverWraps(System(limit, 0, map[], map[]), steps) ==>
              var s := EndState(System(limit, 0, map[], map[]), steps);
              && s.used <= s.limit
              && s.used == Total(s.hooks, HookUsed()) + Total(s.conns, Flying())
              && (forall p :: p in s.hooks ==> HookOk(s.hooks[p]))
              && (forall p :: p in s.hooks ==>
                    Congruent(Total(s.conns, EntryFor(p)), s.hooks[p].used + Total(s.conns, FlyingFor(p))))
  {
    hide Total, Congruent, HookOk;
    InitialInv(limit);
    RunKeeps(System(limit, 0, map[], map[]), steps);
  }

  lemma {:induction false} Unroll(s: System, steps: seq<Step>, s': System)
    requires steps != [] && Enabled(s, steps[0]) && Next(s, steps[0]) == s' && ValidRun(s', steps[1..])
    ensures ValidRun(s, steps) && EndState(s, steps) == EndState(s', steps[1..])
    ensures NeverWraps(s, steps) <==> Fits(s, steps[0]) && NeverWraps(s', steps[1..])
  {
    hide Enabled, Next, Fits;
  }

  /** The largest size that can be asked for. */
  const LARGEST: nat := 0xffff_ffff_ffff_ffff

  /**
   * A concrete failure: with a limit of 10 bytes and one byte in use, a request for 2 to the 64 minus
   * one bytes is granted, and the pod then counts no byte at all.
   */
  lemma {:induction false} WrappingRun()
    ensures var s0 := System(10, 0, map[], map[]);
            var steps := [Spawn(1), AskAlloc(1, 1, 100, 1), ServeAlloc(1), AskAlloc(1, 2, 200, LARGEST), ServeAlloc(2)];
            ValidRun(s0, steps) && !NeverWraps(s0, steps)
            && var s := EndState(s0, steps);
               s.used == 0 && 2 in s.conns && s.conns[2].call == AllocGranted(200, LARGEST)
  {
    var s0 := System(10, 0, map[], map[]);
    var s1 := s0.(hooks := map[1 := Hook(map[], 0, None)]);
    var s2 := s1.(conns := map[1 := Conn(1, 0, AllocAsked(100, 1))]);
    var s3 := s1.(used := 1, conns := map[1 := Conn(1, 1, AllocGranted(100, 1))]);
    var s4 := s3.(conns := s3.conns[2 := Conn(1, 0, AllocAsked(200, LARGEST))]);
    var s5 := s3.(used := 0, conns := s3.conns[2 := Conn(1, LARGEST, AllocGranted(200, LARGEST))]);
    var steps := [Spawn(1), AskAlloc(1, 1, 100, 1), ServeAlloc(1), AskAlloc(1, 2, 200, LARGEST), ServeAlloc(2)];
    assert Enabled(s0, steps[0]) && Next(s0, steps[0]) == s1;
    assert Enabled(s1, steps[1]) && Next(s1, steps[1]) == s2;
    assert Enabled(s2, steps[2]) && Next(s2, steps[2]) == s3;
    assert Enabled(s3, steps[3]) && Next(s3, steps[3]) == s4;
    assert Enabled(s4, steps[4]) && Next(s4, steps[4]) == s5 && !Fits(s4, steps[4]);
    hide Enabled, Next, Fits;
    Unroll(s4, steps[4..], s5);
    Unroll(s3, steps[3..], s4);
    Unroll(s2, steps[2..], s3);
    Unroll(s1, steps[1..], s2);
    Unroll(s0, steps, s1);
  }

  // ----- the system's steps as operations of the pod manager

  ghost function Entries(conns: map<int, Conn>): map<int, nat> {
    map k | k in conns :: conns[k].entry
  }

  /** What the pod manager holds. */
  ghost function PodView(s: System): PodMem {
    PodMem(s.used, s.limit, Entries(s.conns))
  }

  function Disconnects(socks: seq<int>): seq<PodOp> {
    seq(|socks|, i requires 0 <= i < |socks| => Disconnect(socks[i]))
  }

  ghost predicate Distinct(socks: seq<int>) {
    forall i, j :: 0 <= i < j < |socks| ==> socks[i] != socks[j]
  }

  /** The connections of the process, in some order. */
  ghost predicate Lists(socks: seq<int>, conns: map<int, Conn>, proc: int) {
    Distinct(socks) && forall k :: k in socks <==> k in conns && conns[k].proc == proc
  }

  /** What the pod manager does in a step; `socks` is the order in which an exit closes connections. */
  ghost function PodOps(s: System, step: Step, socks: seq<int>): seq<PodOp>
    requires Enabled(s, step)
  {
    match step
    case AskAlloc(_, sock, _, _) => [Connect(sock)]
    case AskFree(_, sock, _) => [Connect(sock)]
    case ServeAlloc(sock) => [Update(sock, s.conns[sock].call.size, true)]
    case ServeFree(sock) => [Update(sock, s.conns[sock].call.size, false)]
    case Exit(_) => Disconnects(socks)
    case _ => []
  }

  lemma {:induction false} OnePodOp(m: PodMem, op: PodOp)
    ensures PodRun(m, [op]) == PodStep(m, op)
  {
    assert [op][..0] == [] && PodRun(m, []) == m;
  }

  lemma {:induction false} MinusTwice(x: int, a: int, b: int)
    ensures Minus(Minus(x, a), b) == Minus(x, a + b)
  {
    var q := (x - a) / U64;
    assert (x - a) % U64 - b == (x - a - b) + U64 * (-q);
    SameRemainder(x - a - b, -q);
  }

  lemma {:induction false} SameRemainder(x: int, k: int)
    ensures (x + U64 * k) % U64 == x % U64
  {
    var r, q := x % U64, x / U64;
    assert x + U64 * k == U64 * (q + k) + r;
  }

  /** The entries left after the given connections were closed. */
  ghost function Without(entries: map<int, nat>, socks: seq<int>): map<int, nat> {
    entries - (set k | k in socks)
  }

  lemma {:induction false} WithoutLast(entries: map<int, nat>, socks: seq<int>)
    requires socks != [] && Distinct(socks) && socks[|socks| - 1] in entries
    ensures var n := |socks| - 1;
            && Distinct(socks[..n]) && socks[n] in Without(entries, socks[..n])
            && Without(entries, socks[..n])[socks[n]] == entries[socks[n]]
            && Without(entries, socks) == Without(entries, socks[..n]) - {socks[n]}
  {
    var n := |socks| - 1;
    assert forall x :: x in socks <==> x in socks[..n] || x == socks[n];
  }

  lemma {:induction false} DisconnectAll(m: PodMem, socks: seq<int>)
    requires m.used < U64 && Distinct(socks) && forall k :: k in socks ==> k in m.entries
    ensures PodRun(m, Disconnects(socks))
            == PodMem(Minus(m.used, Total(m.entries, Id()) - Total(Without(m.entries, socks), Id())), m.limit,
                      Without(m.entries, socks))
  {
    hide Total;
    if socks == [] {
      assert Without(m.entries, socks) == m.entries;
      WrapExact(m.used);
    } else {
      var n := |socks| - 1;
      var k, pre := socks[n], socks[..n];
      assert k in socks;
      WithoutLast(m.entries, socks);
      DisconnectAll(m, pre);
      assert Disconnects(socks)[..n] == Disconnects(pre) && Disconnects(socks)[n] == Disconnect(k);
      hide Minus, Without, Disconnects, Distinct;
      var kept := Without(m.entries, pre);
      TotalRemove(kept, Id(), k);
      MinusTwice(m.used, Total(m.entries, Id()) - Total(kept, Id()), kept[k]);
    }
  }

  ghost function EntryExcept(proc: int): Conn -> int {
    (c: Conn) => if c.proc == proc then 0 else c.entry
  }

  ghost function EntryValue(): Conn -> int {
    (c: Conn) => c.entry
  }

  /** The entries that go with a process. */
  lemma {:induction false} EntriesOfProc(conns: map<int, Conn>, proc: int)
    ensures Total(Entries(conns), Id()) - Total(Entries(conns - OfProc(conns, proc)), Id())
            == Total(conns, EntryFor(proc))
  {
    hide Total;
    var rest := conns - OfProc(conns, proc);
    TotalMapped(conns, EntryValue(), Entries(conns), Id());
    TotalMapped(rest, EntryExcept(proc), Entries(rest), Id());
    TotalAdd(conns, EntryFor(proc), EntryExcept(proc), EntryValue());
    TotalDrop(conns, EntryExcept(proc), OfProc(conns, proc));
  }

  /**
   * The exit step is closing the process's connections one by one, in any order, each by the pod
   * manager's own disconnect.
   */
  lemma {:induction false} ExitInAnyOrder(s: System, proc: int, socks: seq<int>)
    requires Enabled(s, Exit(proc)) && s.used < U64 && Lists(socks, s.conns, proc)
    ensures PodView(Next(s, Exit(proc))) == PodRun(PodView(s), Disconnects(socks))
  {
    hide Total, Minus;
    DisconnectAll(PodView(s), socks);
    EntriesOfProc(s.conns, proc);
    var closed := set k | k in socks;
    assert forall k :: k in closed <==> k in socks;
    assert forall k :: k in socks <==> k in OfProc(s.conns, proc);
    assert closed == OfProc(s.conns, proc);
    assert Entries(s.conns) - OfProc(s.conns, proc) == Entries(s.conns - OfProc(s.conns, proc));
  }

  /** Every step does to the pod manager what its own operations do, and nothing else. */
  lemma {:induction false} StepIsPodRun(s: System, step: Step, socks: seq<int>)
    requires Enabled(s, step) && s.used < U64 && (step.Exit? ==> Lists(socks, s.conns, step.proc))
    ensures PodView(Next(s, step)) == PodRun(PodView(s), PodOps(s, step, socks))
  {
    hide Total, Plus, Minus;
    var m, m', ops := PodView(s), PodView(Next(s, step)), PodOps(s, step, socks);
    if step.Exit? {
      ExitInAnyOrder(s, step.proc, socks);
    } else if ops == [] {
      assert m'.entries == m.entries;
    } else {
      OnePodOp(m, ops[0]);
      assert m'.entries == PodStep(m, ops[0]).entries;
    }
  }

  lemma {:induction false} SomeOrder(left: set<int>) returns (socks: seq<int>)
    ensures Distinct(socks) && forall k :: k in socks <==> k in left
    decreases |left|
  {
    socks := [];
    if k :| k in left {
      var rest := SomeOrder(left - {k});
      socks := rest + [k];
    }
  }

  /** In every run, also when a sum wraps, the pod manager went through a run of its own operations. */
  lemma {:induction false} RunIsPodRun(s: System, steps: seq<Step>) returns (ops: seq<PodOp>)
    requires s.used < U64 && ValidRun(s, steps)
    ensures PodView(EndState(s, steps)) == PodRun(PodView(s), ops)
    decreases |steps|
  {
    if steps == [] {
      ops := [];
    } else {
      var socks := [];
      if steps[0].Exit? {
        socks := SomeOrder(OfProc(s.conns, steps[0].proc));
      }
      StepIsPodRun(s, steps[0], socks);
      UsedFits(s, steps[0]);
      hide Enabled, Next, PodOps;
      var rest := RunIsPodRun(Next(s, steps[0]), steps[1..]);
      ops := PodOps(s, steps[0], socks) + rest;
      PodRunConcat(PodView(s), PodOps(s, steps[0], socks), rest);
    }
  }

  lemma {:induction false} UsedFits(s: System, step: Step)
    requires s.used < U64 && Enabled(s, step)
    ensures Next(s, step).used < U64
  {
  }

  /** So in every run the pod's total is the sum of its entries modulo 2 to the 64. */
  lemma {:induction false} AlwaysCongruent(limit: nat, steps: seq<Step>)
    requires ValidRun(System(limit, 0, map[], map[]), steps)
    ensures var s := EndState(System(limit, 0, map[], map[]), steps);
            Congruent(s.used, Total(Entries(s.conns), Id()))
  {
    var s0 := System(limit, 0, map[], map[]);
    var ops := RunIsPodRun(s0, steps);
    assert PodView(s0) == PodMem(0, limit, map[]);
    PodTotalsBalanced(limit, ops);
  }

  // ----- the hook's code

  /** The hook library's per-device accounts. */
  class HookMemory {
    const allocationMap: array<map<int, nat>>
    const memUsed: array<nat>

    constructor (devices: nat)
      ensures allocationMap.Length == devices && memUsed.Length == devices
      ensures fresh(allocationMap) && fresh(memUsed)
      ensures forall d :: 0 <= d < devices ==> allocationMap[d] == map[] && memUsed[d] == 0
    {
      allocationMap := new map<int, nat>[devices](_ => map[]);
      memUsed := new nat[devices](_ => 0);
    }

    ghost function Account(device: nat, freeing: Option<int>): Hook
      requires device < allocationMap.Length && device < memUsed.Length
      reads allocationMap, memUsed
    {
      Hook(allocationMap[device], memUsed[device], freeing)
    }

    /** The free hook up to the message to the pod: the size to report, or nothing for an unknown pointer. */
    method BeginFree(device: nat, ptr: int) returns (size: Option<nat>)
      requires device < allocationMap.Length && device < memUsed.Length
      modifies memUsed
      ensures if ptr in old(allocationMap[device])
              then size == Some(old(allocationMap[device])[ptr])
                   && Account(device, Some(ptr)) == StartFree(old(Account(device, None)), ptr)
              else size == None && Account(device, None) == old(Account(device, None))
      ensures forall d: nat :: d != device && d < memUsed.Length ==> memUsed[d] == old(memUsed[d])
    {
      if ptr in allocationMap[device] {
        size := Some(allocationMap[device][ptr]);
        memUsed[device] := Minus(memUsed[device], allocationMap[device][ptr]);
      } else {
        size := None;
      }
    }

    /** The free hook after the pod answered. */
    method CompleteFree(device: nat, ptr: int)
      requires device < allocationMap.Length && device < memUsed.Length
      modifies allocationMap
      ensures Account(device, None) == EndFree(old(Account(device, Some(ptr))), ptr)
      ensures forall d: nat :: d != device && d < allocationMap.Length ==> allocationMap[d] == old(allocationMap[d])
    {
      allocationMap[device] := allocationMap[device] - {ptr};
    }

    /** The allocation hook with the pod's verdict. */
    method CompleteAlloc(device: nat, ptr: int, size: nat, accepted: bool) returns (ok: bool)
      requires device < allocationMap.Length && device < memUsed.Length
      modifies allocationMap, memUsed
      ensures ok == accepted
      ensures Account(device, None)
              == if accepted then Book(old(Account(device, None)), ptr, size) else old(Account(device, None))
      ensures forall d: nat :: d != device && d < allocationMap.Length ==> allocationMap[d] == old(allocationMap[d])
      ensures forall d: nat :: d != device && d < memUsed.Length ==> memUsed[d] == old(memUsed[d])
    {
      ok := accepted;
      if accepted {
        allocationMap[device] := allocationMap[device][ptr := size];
        memUsed[device] := Plus(memUsed[device], size);
      }
    }
  }
}
