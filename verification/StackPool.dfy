/**
  The stack pool with preallocated blocks (src/stacktrek/stack_pool.h, without USE_GSTACK).
  Addresses count bytes; block i of the pool starts at buffer + i * SIZE. A stack grows down,
  so its stack pointer lies anywhere from the start of its block to just past its end.
 */
module StackPool {
  const SIZE := 8192
  const BLOCKS := 64

  /** Division as C has it: towards zero. */
  function CDiv(a: int, b: int): int
    requires b > 0
  {
    if a < 0 then -(-a / b) else a / b
  }

  function Start(buffer: nat, i: nat): nat
  {
    buffer + i * SIZE
  }

  /** sp may be the stack pointer of the block that starts at a. */
  predicate PointsInto(sp: nat, a: nat)
  {
    a <= sp <= a + SIZE
  }

  // ----- free_stack -----

  predicate InBuffer(buffer: nat, sp: nat)
  {
    buffer <= sp < buffer + SIZE * BLOCKS
  }

  function IndexOf(buffer: nat, sp: nat): (i: nat)
    requires InBuffer(buffer, sp)
    ensures i < BLOCKS
  {
    CDiv(sp - 1 - buffer, SIZE)
  }

  /** The bitmap after free_stack(sp); a set bit is a free block. */
  function Freed(bits: seq<bool>, buffer: nat, sp: nat): seq<bool>
    requires |bits| == BLOCKS
  {
    if InBuffer(buffer, sp) then bits[IndexOf(buffer, sp) := true] else bits
  }

  /** What freeing the block at a should do. */
  function Released(bits: seq<bool>, buffer: nat, a: nat): seq<bool>
    requires |bits| == BLOCKS
  {
    if exists i: nat | i < BLOCKS :: a == Start(buffer, i) then
      var i: nat :| i < BLOCKS && a == Start(buffer, i);
      bits[i := true]
    else bits
  }

  /** A stack pointer for which free_stack knows the block: not at its very top in a full stack,
      unless that is the first block; not just past the last block. For a block from
      aligned_alloc: not where the pool starts. */
  predicate Recoverable(buffer: nat, sp: nat, a: nat)
  {
    if buffer <= a < buffer + SIZE * BLOCKS then (sp > a || a == buffer) && sp < buffer + SIZE * BLOCKS
    else sp != buffer
  }

  /** Blocks are whole: in the pool, or outside of it. */
  predicate IsBlock(buffer: nat, a: nat)
  {
    (exists i: nat | i < BLOCKS :: a == Start(buffer, i)) || a + SIZE <= buffer || buffer + SIZE * BLOCKS <= a
  }

  lemma StartUnique(buffer: nat, i: nat, j: nat)
    ensures Start(buffer, i) == Start(buffer, j) <==> i == j
  {
  }

  lemma ReleasedAt(bits: seq<bool>, buffer: nat, i: nat)
    requires |bits| == BLOCKS && i < BLOCKS
    ensures Released(bits, buffer, Start(buffer, i)) == bits[i := true]
  {
    var a := Start(buffer, i);
    assert exists j: nat | j < BLOCKS :: a == Start(buffer, j);
    var j: nat :| j < BLOCKS && a == Start(buffer, j) && Released(bits, buffer, a) == bits[j := true];
    StartUnique(buffer, i, j);
  }

  lemma IndexInside(buffer: nat, i: nat, sp: nat)
    requires i < BLOCKS && PointsInto(sp, Start(buffer, i)) && InBuffer(buffer, sp)
    ensures IndexOf(buffer, sp) == if sp == Start(buffer, i) && i > 0 then i - 1 else i
  {
  }

  /** Exactly: free_stack frees the block that sp belongs to, and nothing else, if and only if sp
      is recoverable. */
  lemma FreeExact(bits: seq<bool>, buffer: nat, sp: nat, a: nat)
    requires |bits| == BLOCKS && IsBlock(buffer, a) && PointsInto(sp, a)
    requires forall i: nat | i < BLOCKS :: a == Start(buffer, i) ==> !bits[i]
    ensures Freed(bits, buffer, sp) == Released(bits, buffer, a) <==>
              Recoverable(buffer, sp, a) || (sp == buffer && bits[0])
  {
    if i: nat :| i < BLOCKS && a == Start(buffer, i) {
      ReleasedAt(bits, buffer, i);
      if InBuffer(buffer, sp) {
        IndexInside(buffer, i, sp);
      }
      assert bits[i := true][i] != bits[i];
      assert i > 0 ==> bits[i := true][i] != bits[i - 1 := true][i];
    } else {
      assert Released(bits, buffer, a) == bits;
      if sp == buffer {
        assert IndexOf(buffer, sp) == 0;
      }
    }
  }

  // ----- get_stack -----

  /** ffsll, as a position: the lowest set bit, or 64. */
  function FirstFree(bits: seq<bool>, i: nat): (k: nat)
    requires i <= |bits|
    ensures i <= k <= |bits| && (k < |bits| ==> bits[k]) && forall j :: i <= j < k ==> !bits[j]
    decreases |bits| - i
  {
    if i == |bits| || bits[i] then i else FirstFree(bits, i + 1)
  }

  /** free_stack_on_abort's test for two stack pointers in one block. */
  predicate SameBlock(sp: nat, target: nat)
  {
    CDiv(sp - 1, SIZE) == CDiv(target - 1, SIZE)
  }

  /** The block that the test takes sp for: of a full stack, the one before. */
  function TakenFor(sp: nat, a: nat): int
  {
    if sp == a then a - SIZE else a
  }

  lemma TakenForRight(sp: nat, a: nat)
    requires 0 < a && a % SIZE == 0 && PointsInto(sp, a)
    ensures TakenFor(sp, a) == SIZE * CDiv(sp - 1, SIZE)
  {
    var i := a / SIZE;
    assert a == SIZE * i;
    if sp > a {
      assert (sp - 1) / SIZE == i;
    } else {
      assert (sp - 1) / SIZE == i - 1;
    }
  }

  /** One of the two stack pointers is at the very top of a full stack, and the other is in the same
      block but lower, or in the block before and not at its top. */
  predicate Confused(sp: nat, a: nat, target: nat, b: nat)
  {
    || (sp == a && target != b && (a == b || b + SIZE == a))
    || (target == b && sp != a && (a == b || a + SIZE == b))
  }

  /** Exactly: the test tells whether two stack pointers are in one block if and only if they are
      not confused. */
  lemma SameBlockExact(sp: nat, target: nat, a: nat, b: nat)
    requires 0 < a && 0 < b && a % SIZE == 0 && b % SIZE == 0 && PointsInto(sp, a) && PointsInto(target, b)
    ensures (SameBlock(sp, target) <==> a == b) <==> !Confused(sp, a, target, b)
  {
    TakenForRight(sp, a);
    TakenForRight(target, b);
  }

  /** dup_stack copies from sp to what it takes for the end of the block. */
  function CopyLength(sp: nat): (n: nat)
    ensures 0 < n <= SIZE
  {
    SIZE - sp % SIZE
  }

  /** Exactly: the bytes copied are those in use if and only if the stack is not empty. */
  lemma CopyExact(sp: nat, a: nat)
    requires a % SIZE == 0 && PointsInto(sp, a)
    ensures sp + CopyLength(sp) == a + SIZE <==> sp < a + SIZE
  {
    var i := a / SIZE;
    assert a == SIZE * i;
    if sp < a + SIZE {
      assert sp % SIZE == sp - a;
    }
  }

  /** Between blocks of the pool and of aligned_alloc. */
  predicate Apart(a: nat, b: nat)
  {
    a + SIZE <= b || b + SIZE <= a
  }

  class Pool {
    const buffer: nat
    const mem: array<bv8>
    var bitmap: seq<bool>
    /** Blocks handed out and not freed; every block that aligned_alloc ever returned. */
    ghost var live: set<nat>
    ghost var heap: set<nat>

    ghost predicate Valid()
      reads this
    {
      && |bitmap| == BLOCKS && buffer % SIZE == 0 && 0 < buffer && buffer + SIZE * BLOCKS <= mem.Length
      && (forall i: nat | i < BLOCKS :: bitmap[i] <==> Start(buffer, i) !in live)
      && (forall a :: a in live ==> a in heap || exists i: nat | i < BLOCKS :: a == Start(buffer, i))
      && (forall a :: a in heap ==> HeapBlock(a))
      && (forall a, b :: a in heap && b in heap && a != b ==> Apart(a, b))
    }

    ghost predicate HeapBlock(a: nat)
    {
      0 < a && a % SIZE == 0 && a + SIZE <= mem.Length && (a + SIZE <= buffer || buffer + SIZE * BLOCKS <= a)
    }

    constructor (buffer: nat, mem: array<bv8>)
      requires buffer % SIZE == 0 && 0 < buffer && buffer + SIZE * BLOCKS <= mem.Length
      ensures Valid() && this.buffer == buffer && this.mem == mem && live == {}
    {
      this.buffer, this.mem := buffer, mem;
      bitmap := seq(BLOCKS, _ => true);
      live, heap := {}, {};
    }

    /** aligned is what aligned_alloc would return: whole, and apart from what is allocated. */
    ghost predicate CanAllocate(aligned: nat)
      reads this
    {
      HeapBlock(aligned) && forall a :: a in heap ==> Apart(aligned, a)
    }

    /** Gives the end of a block that nobody holds: the lowest free one of the pool, if any. */
    method GetStack(aligned: nat) returns (bottom: nat, ghost a: nat)
      requires Valid() && CanAllocate(aligned)
      modifies this
      ensures Valid() && bottom == a + SIZE <= mem.Length && a !in old(live) && live == old(live) + {a}
      ensures a % SIZE == 0 && forall b :: b in old(live) ==> Apart(a, b)
      ensures forall i: nat | i < BLOCKS && Start(buffer, i) !in old(live) :: a <= Start(buffer, i)
      ensures if exists i: nat | i < BLOCKS :: Start(buffer, i) !in old(live)
              then heap == old(heap) && exists i: nat | i < BLOCKS :: a == Start(buffer, i)
              else a == aligned && heap == old(heap) + {a}
    {
      var index := FirstFree(bitmap, 0);
      if index == BLOCKS {
        live, heap := live + {aligned}, heap + {aligned};
        return aligned + SIZE, aligned;
      }
      bitmap := bitmap[index := false];
      a := Start(buffer, index);
      live := live + {a};
      bottom := buffer + index * SIZE + SIZE;
    }

    /** The block that free_stack(sp) lets go of, when sp is that of block a. */
    ghost function LetGo(sp: nat, a: nat): set<nat>
    {
      if InBuffer(buffer, sp) then {Start(buffer, IndexOf(buffer, sp))}
      else if exists i: nat | i < BLOCKS :: a == Start(buffer, i) then {}
      else {a}
    }

    lemma LetsGoOfOwn(sp: nat, a: nat)
      requires Valid() && a in live && PointsInto(sp, a) && Recoverable(buffer, sp, a)
      ensures LetGo(sp, a) == {a}
    {
      if i: nat :| i < BLOCKS && a == Start(buffer, i) {
        IndexInside(buffer, i, sp);
      }
    }

    /** Frees the block that sp is taken for, which is its own if sp is recoverable. */
    method FreeStack(sp: nat, ghost a: nat)
      requires Valid() && a in live && PointsInto(sp, a)
      modifies this
      ensures Valid() && heap == old(heap) && live == old(live) - LetGo(sp, a)
      ensures Recoverable(buffer, sp, a) ==> live == old(live) - {a}
    {
      if Recoverable(buffer, sp, a) {
        LetsGoOfOwn(sp, a);
      }
      if InBuffer(buffer, sp) {
        bitmap := bitmap[IndexOf(buffer, sp) := true];
      }
      live := live - LetGo(sp, a);
    }

    /** RAISE_ABORT leaves the stack of current, in block a, for that of target, in block b. */
    method FreeStackOnAbort(current: nat, target: nat, onMain: bool, ghost a: nat, ghost b: nat)
      requires Valid() && (!onMain ==> a in live && PointsInto(current, a)) && 0 < b && b % SIZE == 0
      requires PointsInto(target, b)
      modifies this
      ensures Valid() && heap == old(heap)
      ensures live == if onMain || SameBlock(current, target) then old(live) else old(live) - LetGo(current, a)
      ensures !onMain && Recoverable(buffer, current, a) && !Confused(current, a, target, b) ==>
                live == if a == b then old(live) else old(live) - {a}
    {
      if onMain {
        return;
      }
      WholeBlock(a);
      SameBlockExact(current, target, a, b);
      if SameBlock(current, target) {
        return;
      }
      FreeStack(current, a);
    }

    ghost predicate IsWhole(a: nat)
    {
      0 < a && a % SIZE == 0 && a + SIZE <= mem.Length
    }

    lemma WholeBlock(a: nat)
      requires Valid() && a in live
      ensures IsWhole(a)
    {
    }

    /** The copy has the same offset in its block, and the bytes in use; nothing else has changed. */
    method DupStack(sp: nat, aligned: nat, ghost a: nat) returns (copy: nat, ghost b: nat)
      requires Valid() && CanAllocate(aligned) && a in live && a <= sp < a + SIZE
      modifies this, mem
      ensures Valid() && b !in old(live) && live == old(live) + {b} && Apart(a, b)
      ensures copy - b == sp - a && b <= copy && b + SIZE <= mem.Length
      ensures mem[copy..b + SIZE] == old(mem[sp..a + SIZE])
      ensures forall k :: 0 <= k < mem.Length && !(copy <= k < b + SIZE) ==> mem[k] == old(mem[k])
    {
      WholeBlock(a);
      var bottom;
      bottom, b := GetStack(aligned);
      CopyExact(sp, a);
      var count := CopyLength(sp);
      copy := bottom - count;
      forall k | 0 <= k < count {
        mem[copy + k] := mem[sp + k];
      }
    }
  }
}
