/**
  The pool of growable stacks (src/stacktrek/stack_pool.h with USE_GSTACK). Blocks of 8 MiB are
  aligned; the stack takes all but the last 64 KiB, where the block's descriptor lies, so that
  every stack pointer, of an empty stack too, is within its block.
 */
module GrowingPool {
  const BLOCK := 8388608
  const STACK := BLOCK - 65536
  const CACHE_MAX := 16

  predicate IsBlock(a: int)
  {
    0 < a && a % BLOCK == 0
  }

  /** Where free_stack finds the descriptor. */
  function Descriptor(sp: nat): nat
  {
    sp / BLOCK * BLOCK + STACK
  }

  /** From every stack pointer, of a full and of an empty stack alike. */
  lemma DescriptorRight(sp: nat, a: nat)
    requires IsBlock(a) && a <= sp <= a + STACK
    ensures Descriptor(sp) == a + STACK && sp + (STACK - sp % BLOCK) == a + STACK
    ensures a % 0x80_0000 == 0 && Descriptor(sp) == a + 0x7F_0000
  {
    var i := a / BLOCK;
    assert a == BLOCK * i && sp / BLOCK == i;
  }

  /** The test of free_stack_on_abort is right for every stack pointer, of full and of empty stacks. */
  lemma SameBlockRight(current: nat, target: nat, a: nat)
    requires IsBlock(a) && a <= current <= a + STACK
    ensures current / BLOCK == target / BLOCK <==> a <= target < a + BLOCK
  {
    var i, j := a / BLOCK, target / BLOCK;
    assert a == BLOCK * i && current / BLOCK == i;
    assert BLOCK * j <= target < BLOCK * j + BLOCK;
  }

  predicate Distinct(s: seq<nat>)
  {
    forall i, j :: 0 <= i < j < |s| ==> s[i] != s[j]
  }

  class Pool {
    const mem: array<bv8>
    /** Descriptors, the last one freed first. */
    var cache: seq<nat>
    var cacheSize: nat
    /** Descriptors of the stacks handed out; descriptors of all blocks that are mapped. */
    ghost var live: set<nat>
    ghost var mapped: set<nat>

    ghost predicate Valid()
      reads this
    {
      && cacheSize == |cache| <= CACHE_MAX && Distinct(cache)
      && (forall d :: d in mapped <==> d in cache || d in live)
      && (forall d :: d in cache ==> d !in live)
      && (forall d :: d in mapped ==> IsBlock(d - STACK) && d <= mem.Length)
    }

    constructor (mem: array<bv8>)
      ensures Valid() && this.mem == mem && live == {} && cache == []
    {
      this.mem := mem;
      cache, cacheSize := [], 0;
      live, mapped := {}, {};
    }

    /** Allotted is what mp_gstack_alloc would return. */
    method GetStack(allotted: nat) returns (bottom: nat)
      requires Valid() && allotted !in mapped && IsBlock(allotted - STACK) && allotted <= mem.Length
      modifies this
      ensures Valid() && bottom !in old(live) && live == old(live) + {bottom} && IsBlock(bottom - STACK)
      ensures bottom <= mem.Length
      ensures if old(cache) == [] then bottom == allotted && cache == []
              else bottom == old(cache[0]) && cache == old(cache[1..])
    {
      if cache != [] {
        bottom := cache[0];
        cache := cache[1..];
        cacheSize := cacheSize - 1;
        live := live + {bottom};
        assert old(cache) == [bottom] + cache;
        return;
      }
      live, mapped := live + {allotted}, mapped + {allotted};
      return allotted;
    }

    /** The block of sp is kept for the next request, or unmapped when the cache is full. */
    method FreeStack(sp: nat, ghost a: nat)
      requires Valid() && IsBlock(a) && a + STACK in live && a <= sp <= a + STACK
      modifies this
      ensures Valid() && live == old(live) - {a + STACK}
      ensures if old(|cache|) < 16 then cache == [a + STACK] + old(cache) && mapped == old(mapped)
              else cache == old(cache) && mapped == old(mapped) - {a + STACK}
    {
      DescriptorRight(sp, a);
      var d := Descriptor(sp);
      live := live - {d};
      if cacheSize < CACHE_MAX {
        cache := [d] + cache;
        cacheSize := cacheSize + 1;
        return;
      }
      mapped := mapped - {d};
    }

    /** RAISE_ABORT leaves the stack of current, in block a. No stack pointer is mistaken. */
    method FreeStackOnAbort(current: nat, target: nat, onMain: bool, ghost a: nat)
      requires Valid() && (!onMain ==> IsBlock(a) && a + STACK in live && a <= current <= a + STACK)
      modifies this
      ensures Valid() && live == if onMain || a <= target < a + BLOCK then old(live) else old(live) - {a + STACK}
    {
      if onMain {
        return;
      }
      SameBlockRight(current, target, a);
      if current / BLOCK == target / BLOCK {
        return;
      }
      FreeStack(current, a);
    }

    method DupStack(sp: nat, allotted: nat, ghost a: nat) returns (copy: nat, ghost b: nat)
      requires Valid() && allotted !in mapped && IsBlock(allotted - STACK) && allotted <= mem.Length
      requires IsBlock(a) && a + STACK in live && a <= sp <= a + STACK
      modifies this, mem
      ensures Valid() && IsBlock(b) && b + STACK !in old(live) && live == old(live) + {b + STACK} && b != a
      ensures copy - b == sp - a && b <= copy <= b + STACK <= mem.Length
      ensures mem[copy..b + STACK] == old(mem[sp..a + STACK])
      ensures forall k :: 0 <= k < mem.Length && !(copy <= k < b + STACK) ==> mem[k] == old(mem[k])
    {
      DescriptorRight(sp, a);
      var bottom := GetStack(allotted);
      b := bottom - STACK;
      var count := STACK - sp % BLOCK;
      copy := bottom - count;
      BlocksApart(a, b);
      forall k | 0 <= k < count {
        mem[copy + k] := mem[sp + k];
      }
    }
  }

  lemma BlocksApart(a: nat, b: nat)
    requires IsBlock(a) && IsBlock(b) && a != b
    ensures a + BLOCK <= b || b + BLOCK <= a
  {
    var i, j := a / BLOCK, b / BLOCK;
    assert a == BLOCK * i && b == BLOCK * j;
  }
}
