/**
 * GPU memory accounting.  The pod manager keeps one total and one entry per connection, all in
 * 64-bit unsigned arithmetic; every hook keeps its own total and allocation map.  A hook opens a
 * new connection for every call, so a single entry may wrap around.
 */
module MemoryAccounting {
  import opened MapTotals

  const U64: int := 0x1_0000_0000_0000_0000

  /** Unsigned 64-bit addition and subtraction. */
  function Plus(x: int, y: int): (r: nat)
    ensures r < U64
  {
    (x + y) % U64
  }

  function Minus(x: int, y: int): (r: nat)
    ensures r < U64
  {
    (x - y) % U64
  }

  ghost predicate Congruent(x: int, y: int) {
    (x - y) % U64 == 0
  }

  lemma {:induction false} CongruentSum(x: int, y: int, d: int, x': int, y': int)
    requires Congruent(x, y) && Congruent(x', x + d) && Congruent(y', y + d)
    ensures Congruent(x', y')
  {
    var a, b, c := (x - y) / U64, (x' - (x + d)) / U64, (y' - (y + d)) / U64;
    assert x' - y' == U64 * (a + b - c);
  }

  lemma {:induction false} WrapCongruent(x: int)
    ensures Congruent(x % U64, x)
  {
    assert x % U64 - x == U64 * (-(x / U64));
  }

  // ----- the pod manager

  datatype Served = Served(ok: bool, used: nat, entry: nat)

  /** `hook_update_memory_usage` for a connection whose entry is `entry`. */
  function Serve(used: nat, limit: nat, entry: nat, size: nat, allocate: bool): Served {
    if allocate then
      if Plus(used, size) > limit then Served(false, used, entry)
      else Served(true, Plus(used, size), Plus(entry, size))
    else Served(true, Minus(used, size), Minus(entry, size))
  }

  /**
   * The verdict on an allocation is the right one if and only if the new total fits in 64 bits;
   * an allocation that makes it wrap around is always accepted.
   */
  lemma {:induction false} VerdictExact(used: nat, limit: nat, entry: nat, size: nat)
    requires used <= limit < U64 && size < U64
    ensures (Serve(used, limit, entry, size, true).ok <==> used + size <= limit) <==> used + size < U64
    ensures used + size >= U64 ==> Serve(used, limit, entry, size, true).ok
  {
  }

  datatype PodMem = PodMem(used: nat, limit: nat, entries: map<int, nat>)

  datatype PodOp =
    | Connect(sock: int)
    | Update(sock: int, size: nat, allocate: bool)
    | Disconnect(sock: int)

  /** Reading an absent entry yields zero, as a map's subscript does. */
  function EntryOf(entries: map<int, nat>, sock: int): nat {
    if sock in entries then entries[sock] else 0
  }

  function PodStep(m: PodMem, op: PodOp): PodMem {
    match op
    case Connect(sock) => if sock in m.entries then m else m.(entries := m.entries[sock := 0])
    case Update(sock, size, allocate) =>
      var r := Serve(m.used, m.limit, EntryOf(m.entries, sock), size, allocate);
      if r.ok then m.(used := r.used, entries := m.entries[sock := r.entry]) else m
    case Disconnect(sock) =>
      m.(used := Minus(m.used, EntryOf(m.entries, sock)), entries := m.entries - {sock})
  }

  ghost function Id(): nat -> int {
    (x: nat) => x
  }

  /**
   * A disconnect forgets the connection's entry and no other, and gives its bytes back: if the total
   * was the sum of the entries, it is the sum of the remaining ones.
   */
  lemma {:induction false} DisconnectExactly(m: PodMem, sock: int)
    requires m.used < U64
    ensures var m' := PodStep(m, Disconnect(sock));
            && m'.limit == m.limit && m'.entries.Keys == m.entries.Keys - {sock}
            && (forall k :: k in m'.entries ==> m'.entries[k] == m.entries[k])
            && (m.used == Total(m.entries, Id()) ==>
                  m'.used == Total(m'.entries, Id()) && m'.used + EntryOf(m.entries, sock) == m.used)
  {
    hide Total;
    if sock in m.entries {
      TotalRemove(m.entries, Id(), sock);
      TotalNonnegative(m.entries - {sock}, Id());
    } else {
      assert m.entries - {sock} == m.entries;
    }
  }

  lemma {:induction false} PodStepBalanced(m: PodMem, op: PodOp)
    requires Congruent(m.used, Total(m.entries, Id()))
    ensures Congruent(PodStep(m, op).used, Total(PodStep(m, op).entries, Id()))
  {
    hide Total;
    var m' := PodStep(m, op);
    match op
    case Connect(sock) => TotalUpdate(m.entries, Id(), sock, 0);
    case Update(sock, size, allocate) =>
      var r := Serve(m.used, m.limit, EntryOf(m.entries, sock), size, allocate);
      if r.ok {
        TotalUpdate(m.entries, Id(), sock, r.entry);
        var e: int, n: int := EntryOf(m.entries, sock), size;
        var d := if allocate then n else -n;
        WrapCongruent(m.used + d);
        WrapCongruent(e + d);
        hide Congruent;
        EntryShift(Total(m.entries, Id()), e, d, r.entry);
        CongruentSum(m.used, Total(m.entries, Id()), d, r.used, Total(m'.entries, Id()));
      }
    case Disconnect(sock) =>
      var e: int := EntryOf(m.entries, sock);
      if sock in m.entries {
        TotalRemove(m.entries, Id(), sock);
      } else {
        assert m.entries - {sock} == m.entries;
      }
      WrapCongruent(m.used - e);
      CongruentSum(m.used, Total(m.entries, Id()), -e, m'.used, Total(m'.entries, Id()));
  }

  lemma {:induction false} EntryShift(total: int, e: int, d: int, e': int)
    requires Congruent(e', e + d)
    ensures Congruent(total - e + e', total + d)
  {
    assert total - e + e' - (total + d) == e' - (e + d);
  }

  function PodRun(m: PodMem, ops: seq<PodOp>): PodMem {
    if ops == [] then m else PodStep(PodRun(m, ops[..|ops| - 1]), ops[|ops| - 1])
  }

  lemma {:induction false} PodRunConcat(m: PodMem, a: seq<PodOp>, b: seq<PodOp>)
    ensures PodRun(m, a + b) == PodRun(PodRun(m, a), b)
  {
    if b == [] {
      assert a + b == a;
    } else {
      var n := |b| - 1;
      assert (a + b)[..|a + b| - 1] == a + b[..n];
      PodRunConcat(m, a, b[..n]);
    }
  }

  /**
   * For every sequence of connects, updates and disconnects, with any sizes and in any order, the
   * pod's total equals the sum of the entries modulo 2 to the 64.
   */
  lemma {:induction false} PodTotalsBalanced(limit: nat, ops: seq<PodOp>)
    ensures var m := PodRun(PodMem(0, limit, map[]), ops);
            Congruent(m.used, Total(m.entries, Id()))
  {
    if ops != [] {
      hide Congruent, PodStep, Total;
      PodTotalsBalanced(limit, ops[..|ops| - 1]);
      PodStepBalanced(PodRun(PodMem(0, limit, map[]), ops[..|ops| - 1]), ops[|ops| - 1]);
    }
  }

  class PodMemory {
    const limit: nat
    var used: nat
    var allocationMap: map<int, nat>

    ghost function View(): PodMem
      reads this
    {
      PodMem(used, limit, allocationMap)
    }

    constructor (limit: nat)
      ensures this.limit == limit && View() == PodMem(0, limit, map[])
    {
      this.limit := limit;
      used, allocationMap := 0, map[];
    }

    method Accept(sock: int)
      modifies this
      ensures View() == PodStep(old(View()), Connect(sock))
    {
      if sock !in allocationMap {
        allocationMap := allocationMap[sock := 0];
      }
    }

    method UpdateMemoryUsage(size: nat, allocate: bool, sock: int) returns (ok: bool)
      modifies this
      ensures ok == Serve(old(used), limit, EntryOf(old(allocationMap), sock), size, allocate).ok
      ensures View() == PodStep(old(View()), Update(sock, size, allocate))
    {
      ok := true;
      if allocate {
        if Plus(used, size) > limit {
          ok := false;
        } else {
          used := Plus(used, size);
          allocationMap := allocationMap[sock := Plus(EntryOf(allocationMap, sock), size)];
        }
      } else {
        used := Minus(used, size);
        allocationMap := allocationMap[sock := Minus(EntryOf(allocationMap, sock), size)];
      }
    }

    method Close(sock: int)
      modifies this
      ensures View() == PodStep(old(View()), Disconnect(sock))
    {
      used := Minus(used, EntryOf(allocationMap, sock));
      allocationMap := allocationMap - {sock};
    }
  }
}
