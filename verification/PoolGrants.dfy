/**
  The machine of the trampolines gets its blocks from the pool: blocks 1 to 64 are those of the
  pool's buffer, in order, and a block from aligned_alloc is named by its address. Whatever a run
  gets and gives back, the machine grants the block that get_stack returns.
 */
module PoolGrants {
  import opened Trampolines
  import opened StackPool

  /** Where block b of the machine starts. */
  function BlockAt(buffer: nat, b: nat): nat
  {
    if 1 <= b <= 64 then buffer + (b - 1) * 8192 else b
  }

  /** The machine has in use what the pool has handed out and not taken back. */
  ghost predicate Same(buffer: nat, live: set<nat>, heap: set<nat>, m: Machine)
  {
    && MAIN_BLOCK in m.live
    && (forall b: nat :: 1 <= b <= 64 ==> (b in m.live <==> BlockAt(buffer, b) in live))
    && (forall b: nat :: b > 64 ==> (b in m.live <==> b in live && b in heap))
    && (forall b: nat :: b in m.heap <==> b in heap)
  }

  ghost predicate Tied(pool: Pool, m: Machine)
    reads pool
  {
    pool.Valid() && Same(pool.buffer, pool.live, pool.heap, m)
  }

  lemma TiedAtStart(pool: Pool)
    requires pool.Valid() && pool.live == {} && pool.heap == {}
    ensures Tied(pool, BOOT)
  {
  }

  /** Exactly: the lowest of blocks 1 to 64 that is free, or, when all are in use, memory that was never
      handed out. */
  lemma GrantedExactly(m: Machine, b: nat)
    ensures Granted(m, b) <==>
            if forall i: nat :: 1 <= i <= 64 ==> i in m.live then b > 64 && b !in m.heap && b !in m.live
            else 1 <= b <= 64 && b !in m.live && forall i: nat :: 1 <= i < b ==> i in m.live
  {
    hide LowestFree;
    if 1 <= b <= 64 && b !in m.live && forall i: nat :: 1 <= i < b ==> i in m.live {
      LowestAt(m.live, b);
    }
  }

  /** The block that get_stack hands out, when aligned_alloc would return aligned. */
  function Grant(m: Machine, aligned: nat): nat
  {
    if LowestFree(m.live, 1) <= 64 then LowestFree(m.live, 1) else aligned
  }

  /** The machine with that block in use. */
  function Taken(m: Machine, b: nat): Machine
  {
    m.(live := m.live + {b}, heap := HeapWith(m.heap, b))
  }

  lemma StartOf(buffer: nat, b: nat)
    requires 1 <= b <= 64
    ensures BlockAt(buffer, b) == Start(buffer, b - 1)
  {
  }

  lemma SameAt(buffer: nat, live: set<nat>, heap: set<nat>, m: Machine, b: nat)
    requires Same(buffer, live, heap, m) && 1 <= b <= 64
    ensures b in m.live <==> Start(buffer, b - 1) in live
  {
    StartOf(buffer, b);
    hide BlockAt, Start;
  }

  lemma LowestStart(buffer: nat, live: set<nat>, heap: set<nat>, m: Machine)
    requires Same(buffer, live, heap, m)
    ensures LowestFree(m.live, 1) <= 64 ==>
              var i := LowestFree(m.live, 1) - 1;
              i < BLOCKS && Start(buffer, i) !in live && BlockAt(buffer, i + 1) == Start(buffer, i)
    ensures forall i: nat :: i < BLOCKS && Start(buffer, i) !in live ==> LowestFree(m.live, 1) <= i + 1
  {
    hide Same, BlockAt, Start, LowestFree;
    if LowestFree(m.live, 1) <= 64 {
      StartOf(buffer, LowestFree(m.live, 1));
      SameAt(buffer, live, heap, m, LowestFree(m.live, 1));
    }
    forall i: nat | i < BLOCKS && Start(buffer, i) !in live
      ensures LowestFree(m.live, 1) <= i + 1
    {
      SameAt(buffer, live, heap, m, i + 1);
    }
  }

  /** What get_stack says of the block that it returns leaves only one. */
  lemma GrantedAddress(buffer: nat, live: set<nat>, heap: set<nat>, m: Machine, aligned: nat, a: nat)
    requires Same(buffer, live, heap, m) && a !in live && aligned > 64
    requires forall i: nat | i < BLOCKS && Start(buffer, i) !in live :: a <= Start(buffer, i)
    requires if exists i: nat | i < BLOCKS :: Start(buffer, i) !in live
             then exists i: nat | i < BLOCKS :: a == Start(buffer, i) else a == aligned
    ensures a == BlockAt(buffer, Grant(m, aligned))
    ensures (exists i: nat | i < BLOCKS :: Start(buffer, i) !in live) <==> LowestFree(m.live, 1) <= 64
  {
    hide LowestFree, Same;
    LowestStart(buffer, live, heap, m);
    if i: nat :| i < BLOCKS && Start(buffer, i) !in live {
      var j: nat :| j < BLOCKS && a == Start(buffer, j);
      assert Start(buffer, LowestFree(m.live, 1) - 1) !in live;
    }
  }

  lemma TakenSame(buffer: nat, live: set<nat>, heap: set<nat>, m: Machine, aligned: nat, a: nat)
    requires Same(buffer, live, heap, m) && aligned > 64 && aligned !in heap
    requires forall i: nat :: i < 64 ==> aligned != Start(buffer, i)
    requires forall b: nat :: b in heap ==> forall i: nat :: i < 64 ==> b != Start(buffer, i)
    requires a == BlockAt(buffer, Grant(m, aligned))
    ensures Same(buffer, live + {a}, if LowestFree(m.live, 1) <= 64 then heap else heap + {a},
                 Taken(m, Grant(m, aligned)))
    ensures Granted(m, Grant(m, aligned))
  {
    hide LowestFree;
    forall b: nat | 1 <= b <= 64
      ensures BlockAt(buffer, b) == Start(buffer, b - 1)
    {
    }
    assert forall b: nat, c: nat :: 1 <= b <= 64 && 1 <= c <= 64 && b != c ==> BlockAt(buffer, b) != BlockAt(buffer, c);
  }

  /** get_stack, when the machine takes a new stack. */
  method Get(pool: Pool, aligned: nat, ghost m: Machine) returns (bottom: nat)
    requires Tied(pool, m) && pool.CanAllocate(aligned)
    modifies pool
    ensures bottom == BlockAt(pool.buffer, Grant(m, aligned)) + 8192 && Granted(m, Grant(m, aligned))
    ensures Tied(pool, Taken(m, Grant(m, aligned)))
  {
    hide Same, LowestFree, Granted, Taken, Grant, BlockAt;
    ghost var live, heap := pool.live, pool.heap;
    HeapOutside(pool, aligned);
    ghost var a;
    bottom, a := pool.GetStack(aligned);
    GrantedAddress(pool.buffer, live, heap, m, aligned, a);
    TakenSame(pool.buffer, live, heap, m, aligned, a);
  }

  lemma HeapOutside(pool: Pool, aligned: nat)
    requires pool.Valid() && pool.CanAllocate(aligned)
    ensures aligned > 64 && aligned !in pool.heap && forall i: nat :: i < 64 ==> aligned != Start(pool.buffer, i)
    ensures forall b: nat :: b in pool.heap ==> b > 64 && forall i: nat :: i < 64 ==> b != Start(pool.buffer, i)
  {
  }

  // ----- giving back -----

  /** sp is the stack pointer of a stack at a that is neither empty nor full. */
  predicate Inside(sp: nat, a: nat)
  {
    a < sp < a + 8192
  }

  lemma LiveAt(pool: Pool, m: Machine, b: nat)
    requires Tied(pool, m) && b in m.live && b != MAIN_BLOCK
    ensures BlockAt(pool.buffer, b) in pool.live && b == Block(pool.buffer, BlockAt(pool.buffer, b))
  {
    if b <= 64 {
      StartOf(pool.buffer, b);
    } else {
      HeapIsOutside(pool, b);
    }
  }

  /** The number of the block at a. */
  function Block(buffer: nat, a: nat): nat
  {
    if buffer <= a < buffer + 64 * 8192 then (a - buffer) / 8192 + 1 else a
  }

  lemma HeapIsOutside(pool: Pool, b: nat)
    requires pool.Valid() && b in pool.heap
    ensures b > 64 && !(pool.buffer <= b < pool.buffer + 64 * 8192)
    ensures forall i: nat :: i < 64 ==> b != Start(pool.buffer, i)
  {
    assert pool.HeapBlock(b);
  }

  lemma InsideRecoverable(pool: Pool, sp: nat, a: nat)
    requires pool.Valid() && a in pool.live && Inside(sp, a)
    ensures Recoverable(pool.buffer, sp, a) && PointsInto(sp, a) && 0 < a && a % SIZE == 0
  {
    pool.WholeBlock(a);
    if a in pool.heap {
      assert pool.HeapBlock(a);
    }
  }

  lemma ReleasedSame(buffer: nat, live: set<nat>, heap: set<nat>, m: Machine, b: nat)
    requires Same(buffer, live, heap, m) && b in m.live && b != MAIN_BLOCK
    requires forall c: nat :: c in m.live && c != MAIN_BLOCK ==> c == Block(buffer, BlockAt(buffer, c))
    ensures Same(buffer, live - {BlockAt(buffer, b)}, heap, m.(live := m.live - {b}))
  {
    hide Block;
    var live', m' := live - {BlockAt(buffer, b)}, m.(live := m.live - {b});
    forall c: nat | 1 <= c <= 64
      ensures c in m'.live <==> BlockAt(buffer, c) in live'
    {
      assert c in m.live <==> BlockAt(buffer, c) in live;
      hide BlockAt;
    }
    forall c: nat | c > 64
      ensures c in m'.live <==> c in live' && c in heap
    {
      assert BlockAt(buffer, c) == c;
    }
  }

  lemma AllLiveAt(pool: Pool, m: Machine)
    requires Tied(pool, m)
    ensures forall c: nat :: c in m.live && c != MAIN_BLOCK ==> c == Block(pool.buffer, BlockAt(pool.buffer, c))
  {
    hide Block, BlockAt, Tied;
    forall c: nat | c in m.live && c != MAIN_BLOCK
      ensures c == Block(pool.buffer, BlockAt(pool.buffer, c))
    {
      LiveAt(pool, m, c);
    }
  }

  /** free_stack, when a body returns on the stack b. */
  method GiveBack(pool: Pool, sp: nat, b: nat, ghost m: Machine)
    requires Tied(pool, m) && b in m.live && b != MAIN_BLOCK && Inside(sp, BlockAt(pool.buffer, b))
    modifies pool
    ensures Tied(pool, m.(live := m.live - {b}))
  {
    hide Same, Block, BlockAt;
    LiveAt(pool, m, b);
    AllLiveAt(pool, m);
    ReleasedSame(pool.buffer, pool.live, pool.heap, m, b);
    ghost var a := BlockAt(pool.buffer, b);
    InsideRecoverable(pool, sp, a);
    pool.FreeStack(sp, a);
  }

  /** free_stack_on_abort, when control leaves one stack for another; main's own stack is a block of
      its own. */
  method GiveBackOnAbort(pool: Pool, current: nat, target: nat, from: Sp, to: Sp, ghost mainAt: nat, ghost m: Machine)
    requires Tied(pool, m) && from.block in m.live && to.block in m.live
    requires 0 < mainAt && mainAt % 8192 == 0 && mainAt !in pool.live
    requires from.block != MAIN_BLOCK ==> Inside(current, BlockAt(pool.buffer, from.block))
    requires Inside(target, if to.block == MAIN_BLOCK then mainAt else BlockAt(pool.buffer, to.block))
    modifies pool
    ensures Tied(pool, m.(live := FreeOnAbort(m.live, from, to)))
  {
    hide Same, Block, BlockAt;
    ghost var a := BlockAt(pool.buffer, from.block);
    ghost var b := if to.block == MAIN_BLOCK then mainAt else BlockAt(pool.buffer, to.block);
    AllLiveAt(pool, m);
    if to.block != MAIN_BLOCK {
      LiveAt(pool, m, to.block);
      InsideRecoverable(pool, target, b);
    }
    if from.block != MAIN_BLOCK {
      LiveAt(pool, m, from.block);
      InsideRecoverable(pool, current, a);
      ReleasedSame(pool.buffer, pool.live, pool.heap, m, from.block);
    }
    pool.FreeStackOnAbort(current, target, from.block == MAIN_BLOCK, a, b);
    assert m.(live := m.live) == m;
  }

  // ----- runs -----

  /** get_stack, when aligned_alloc would return aligned; free_stack of the stack b. */
  datatype Request = Alloc(aligned: nat) | Free(sp: nat, b: nat)

  function Served(m: Machine, r: Request): Machine
  {
    match r
    case Alloc(aligned) => Taken(m, Grant(m, aligned))
    case Free(_, b) => m.(live := m.live - {b})
  }

  /** aligned_alloc returns whole blocks that are not in use; stacks in use are freed. */
  ghost predicate Legal(buffer: nat, size: nat, m: Machine, requests: seq<Request>)
    decreases |requests|
  {
    requests == [] ||
    ((match requests[0]
      case Alloc(aligned) => Allocatable(buffer, size, m, aligned)
      case Free(sp, b) => b in m.live && b != MAIN_BLOCK && Inside(sp, BlockAt(buffer, b)))
     && Legal(buffer, size, Served(m, requests[0]), requests[1..]))
  }

  ghost predicate Allocatable(buffer: nat, size: nat, m: Machine, aligned: nat)
  {
    && 0 < aligned && aligned % 8192 == 0 && aligned + 8192 <= size
    && (aligned + 8192 <= buffer || buffer + 64 * 8192 <= aligned) && forall b :: b in m.heap ==> Apart(aligned, b)
  }

  /** What get_stack returns along the run: the ends of the blocks that the machine is granted. */
  function Bottoms(buffer: nat, m: Machine, requests: seq<Request>): seq<nat>
    decreases |requests|
  {
    if requests == [] then [] else
    (match requests[0]
     case Alloc(aligned) => [BlockAt(buffer, Grant(m, aligned)) + 8192]
     case Free(_, _) => [])
    + Bottoms(buffer, Served(m, requests[0]), requests[1..])
  }

  function ServedAll(m: Machine, requests: seq<Request>): Machine
    decreases |requests|
  {
    if requests == [] then m else ServedAll(Served(m, requests[0]), requests[1..])
  }

  /** Through any run of get and free on a new pool, the machine is granted what get_stack returns. */
  method Serve(pool: Pool, requests: seq<Request>) returns (bottoms: seq<nat>)
    requires pool.Valid() && pool.live == {} && pool.heap == {}
    requires Legal(pool.buffer, pool.mem.Length, BOOT, requests)
    modifies pool
    ensures bottoms == Bottoms(pool.buffer, BOOT, requests) && Tied(pool, ServedAll(BOOT, requests))
  {
    hide Tied, Served, BlockAt, Inside, Allocatable;
    TiedAtStart(pool);
    bottoms := [];
    ghost var m := BOOT;
    for i := 0 to |requests|
      invariant Tied(pool, m) && Legal(pool.buffer, pool.mem.Length, m, requests[i..])
      invariant bottoms + Bottoms(pool.buffer, m, requests[i..]) == Bottoms(pool.buffer, BOOT, requests)
      invariant ServedAll(m, requests[i..]) == ServedAll(BOOT, requests)
    {
      assert requests[i..][0] == requests[i] && requests[i..][1..] == requests[i + 1..];
      match requests[i] {
        case Alloc(aligned) =>
          MayAllocate(pool, m, aligned);
          var bottom := Get(pool, aligned, m);
          bottoms := bottoms + [bottom];
        case Free(sp, b) =>
          GiveBack(pool, sp, b, m);
      }
      ServedIs(m, requests[i]);
      m := Served(m, requests[i]);
    }
  }

  lemma ServedIs(m: Machine, r: Request)
    ensures Served(m, r) == if r.Alloc? then Taken(m, Grant(m, r.aligned)) else m.(live := m.live - {r.b})
  {
  }

  lemma MayAllocate(pool: Pool, m: Machine, aligned: nat)
    requires Tied(pool, m) && Allocatable(pool.buffer, pool.mem.Length, m, aligned)
    ensures pool.CanAllocate(aligned)
  {
    hide BlockAt;
  }

  /** 65 requests in a row on a new pool: 64 blocks of 8192 bytes, one after the other, and the last
      from aligned_alloc. */
  method InARow(pool: Pool, aligned: nat) returns (bottoms: seq<nat>)
    requires pool.Valid() && pool.live == {} && pool.heap == {} && pool.CanAllocate(aligned)
    modifies pool
    ensures pool.Valid() && |bottoms| == 65 && (forall i :: 0 <= i < 64 ==> bottoms[i] == pool.buffer + (i + 1) * 8192)
    ensures bottoms[64] == aligned + 8192 && pool.heap == {aligned}
  {
    bottoms := [];
    for i := 0 to 64
      invariant pool.Valid() && pool.heap == {} && pool.CanAllocate(aligned) && |bottoms| == i
      invariant forall j: nat :: j < 64 ==> (Start(pool.buffer, j) in pool.live <==> j < i)
      invariant forall j :: 0 <= j < i ==> bottoms[j] == pool.buffer + (j + 1) * 8192
    {
      assert Start(pool.buffer, i) !in pool.live;
      var bottom;
      ghost var a;
      bottom, a := pool.GetStack(aligned);
      ghost var j: nat :| j < 64 && a == Start(pool.buffer, j);
      bottoms := bottoms + [bottom];
    }
    var bottom;
    ghost var a;
    bottom, a := pool.GetStack(aligned);
    bottoms := bottoms + [bottom];
  }
}
