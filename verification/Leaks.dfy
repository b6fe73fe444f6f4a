/**
  Stacks that stay allocated with no way to reach them: those between the two ends of a long abort,
  those of a resumption that nobody uses, and those that free_stack does not give back.
 */
module Leaks {
  import opened Options
  import opened Continuations
  import opened Trampolines
  import opened Switching
  import opened NewStacks
  import opened Refinement

  /** Every abort of the run goes to a handler on the stack that it leaves or on the one below. */
  ghost predicate ShortAborts(p: Pile, acts: seq<Action>)
    requires AbleAll(p, acts)
    decreases |acts|
  {
    acts == [] ||
    (ShortAborts(Act(p, acts[0]), acts[1..]) &&
     (acts[0].Abort? ==> acts[0].i == 0 || (acts[0].i == 1 && Holds(p.chain[1], acts[0].h))))
  }

  predicate NoneForgotten(acts: seq<Action>)
  {
    forall a :: a in acts ==> !a.Forget?
  }

  ghost predicate Filled(p: Pile)
  {
    forall k :: k in p.ks ==> p.ks[k].segs != []
  }

  lemma FilledOnce(p: Pile, a: Action)
    requires Able(p, a) && Filled(p)
    ensures Filled(Act(p, a))
  {
    hide InUse;
  }

  lemma LosesOnce(p: Pile, a: Action)
    requires Able(p, a) && Filled(p)
    ensures LostBy(p, a) == 0 <==> !a.Forget? && (a.Abort? ==> a.i == 0 || (a.i == 1 && Holds(p.chain[1], a.h)))
  {
    hide Holds, AtHome;
  }

  lemma {:induction false} LosesNothing(p: Pile, acts: seq<Action>)
    requires AbleAll(p, acts) && Filled(p)
    ensures LostByAll(p, acts) == 0 <==> ShortAborts(p, acts) && NoneForgotten(acts)
    decreases |acts|
  {
    hide Act, Able, Holds, Filled, LostBy;
    if acts != [] {
      FilledOnce(p, acts[0]);
      LosesOnce(p, acts[0]);
      LosesNothing(Act(p, acts[0]), acts[1..]);
      assert acts == [acts[0]] + acts[1..];
    }
  }

  // ----- stacks that do not come from the pool -----

  /** The stacks that the action hands to free_stack. */
  function FreedBy(m: Machine, a: Action): set<nat>
  {
    if Do(m, a).Some? then m.live - Do(m, a).value.live else {}
  }

  /** Each of them is one of the pool. */
  predicate FreesPoolOnly(m: Machine, acts: seq<Action>)
    decreases |acts|
  {
    acts != [] ==> (forall b :: b in FreedBy(m, acts[0]) ==> b <= 64) && (Do(m, acts[0]).Some? ==>
          FreesPoolOnly(Do(m, acts[0]).value, acts[1..]))
  }

  predicate HeapApart(m: Machine)
  {
    (forall b :: b in m.heap ==> b > POOL) && (forall b :: b in m.live && b > POOL ==> b in m.heap)
  }

  /** Allocated, and handed to free_stack already. */
  function Adrift(m: Machine): set<nat>
  {
    m.heap - m.live
  }

  lemma AdriftOnce(m: Machine, a: Action)
    requires HeapApart(m) && FromPool(m, a) && Do(m, a).Some?
    ensures var m' := Do(m, a).value;
            HeapApart(m') && m.heap <= m'.heap && Adrift(m') == Adrift(m) + FreedBy(m, a) * m.heap
  {
    hide Words, SavedSp, Target, LowestFree;
  }

  lemma FreedInPool(m: Machine, freed: set<nat>)
    requires HeapApart(m) && freed <= m.live
    ensures (forall b :: b in freed ==> b <= POOL) <==> freed * m.heap == {}
  {
    forall b | b in freed
      ensures b in freed * m.heap <==> b > POOL
    {
    }
    assert freed * m.heap == {} <==> forall b :: b in freed ==> b !in freed * m.heap;
  }

  lemma FreedInLive(m: Machine, a: Action)
    ensures FreedBy(m, a) <= m.live
  {
    hide Do;
  }

  lemma {:induction false} AdriftExact(m: Machine, acts: seq<Action>)
    requires HeapApart(m) && AllFromPool(m, acts) && DoAll(m, acts).Some?
    ensures var m' := DoAll(m, acts).value;
            HeapApart(m') && m.heap <= m'.heap && (Adrift(m') == {} <==> Adrift(m) == {} && FreesPoolOnly(m, acts))
    decreases |acts|
  {
    hide Do, FromPool;
    if acts != [] {
      AdriftOnce(m, acts[0]);
      AdriftExact(Do(m, acts[0]).value, acts[1..]);
      hide AllFromPool, DoAll;
      FreedInLive(m, acts[0]);
      FreedInPool(m, FreedBy(m, acts[0]));
    }
  }

  /** Control can still come to block b: from the current stack down to main, or through a resumption. */
  ghost predicate Reached(g: Ground, b: nat)
  {
    b in g.cb || exists k :: k in g.kb && b in g.kb[k]
  }

  lemma ReachedExact(m: Machine, p: Pile, g: Ground)
    requires Implements(m, p, g) && HeapApart(m)
    ensures (forall b :: b in m.live + m.heap ==> Reached(g, b)) <==> g.lost == {} && Adrift(m) == {}
    ensures forall b :: b in g.lost ==> b in m.live && !Reached(g, b)
    ensures forall b :: Reached(g, b) ==> b in m.live
  {
    Shape(m, p, g);
    forall b: nat
      ensures b in m.live <==> Reached(g, b) || b in g.lost
      ensures b in g.lost ==> !Reached(g, b)
    {
      EachStackOnce(m, p, g, b);
    }
    hide Implements, Reached;
    if b :| b in g.lost {
      assert b in m.live + m.heap;
    } else if b :| b in Adrift(m) {
      assert b in m.live + m.heap;
    }
  }

  /** Exactly: at the end of a run every allocated stack can still be reached if and only if each
      abort crossed at most one stack, no resumption was forgotten, and free_stack was given stacks
      of the pool only. */
  lemma LeakExact(acts: seq<Action>) returns (g: Ground)
    requires AbleAll(START, acts) && AllFromPool(BOOT, acts)
    ensures DoAll(BOOT, acts).Some? && Implements(DoAll(BOOT, acts).value, ActAll(START, acts), g)
    ensures var m := DoAll(BOOT, acts).value;
            (forall b :: b in m.live + m.heap ==> Reached(g, b)) <==>
            ShortAborts(START, acts) && NoneForgotten(acts) && FreesPoolOnly(BOOT, acts)
  {
    hide Implements, ShortAborts, NoneForgotten, FreesPoolOnly, AbleAll, ActAll, LostByAll, DoAll, AllFromPool, Reached;
    g := RunFromStart(acts);
    LosesNothing(START, acts);
    AdriftExact(BOOT, acts);
    ReachedExact(DoAll(BOOT, acts).value, ActAll(START, acts), g);
  }

  // ----- whole programs -----

  /** At most 64 stacks besides main are in use at any time of the run. */
  predicate AtMost64(m: Machine, acts: seq<Action>)
    decreases |acts|
  {
    |m.live| <= 65 && (acts != [] && Do(m, acts[0]).Some? ==> AtMost64(Do(m, acts[0]).value, acts[1..]))
  }

  /** 0 to n - 1. */
  function Below(n: nat): (s: set<nat>)
    ensures |s| == n && forall b: nat :: b in s <==> b < n
  {
    if n == 0 then {} else Below(n - 1) + {n - 1}
  }

  lemma Subset(s: set<nat>, t: set<nat>)
    requires s <= t
    ensures |s| <= |t|
    decreases t
  {
    if b :| b in s {
      Subset(s - {b}, t - {b});
    }
  }

  lemma PoolCount(m: Machine)
    requires HeapApart(m) && m.heap == {}
    ensures |m.live| <= POOL + 1
  {
    Subset(m.live, Below(POOL + 1));
  }

  lemma CrowdedCount(live: set<nat>, b: nat)
    requires MAIN_BLOCK in live && b !in live && LowestFree(live, 1) > POOL
    ensures |live + {b}| > POOL + 1
  {
    hide LowestFree, Below;
    var s := Below(POOL + 1);
    forall j: nat | j < POOL + 1
      ensures j in live
    {
      assert j == MAIN_BLOCK || 1 <= j < LowestFree(live, 1);
    }
    Subset(s, live);
  }

  /** The heap is asked only when all of the pool is in use. */
  lemma HeapCount(m: Machine, a: Action)
    requires MAIN_BLOCK in m.live && FromPool(m, a) && Do(m, a).Some? && Do(m, a).value.heap != m.heap
    ensures |Do(m, a).value.live| > POOL + 1
  {
    hide Words, SavedSp, Target, LowestFree;
    assert a.Enter? || a.Throw?;
    assert Do(m, a).value.live == m.live + {a.b};
    CrowdedCount(m.live, a.b);
  }

  lemma {:induction false} HeapExact(m: Machine, p: Pile, g: Ground, acts: seq<Action>)
    requires Implements(m, p, g) && AbleAll(p, acts) && AllFromPool(m, acts) && HeapApart(m) && m.heap == {}
    ensures DoAll(m, acts).Some? && (DoAll(m, acts).value.heap == {} <==> AtMost64(m, acts))
    decreases |acts|
  {
    hide Implements, Able, Act, Do, FromPool;
    PoolCount(m);
    if acts != [] {
      var g1 := SimAct(m, p, g, acts[0]);
      var m1, p1 := Do(m, acts[0]).value, Act(p, acts[0]);
      AdriftOnce(m, acts[0]);
      if m1.heap == {} {
        HeapExact(m1, p1, g1, acts[1..]);
      } else {
        MainLive(m, p, g);
        HeapCount(m, acts[0]);
        var g2 := SimRun(m1, p1, g1, acts[1..]);
        AdriftExact(m1, acts[1..]);
      }
    }
  }

  /** The program is over: control is on main, and no resumption is left. */
  ghost predicate Complete(p: Pile)
  {
    |p.chain| == 1 && p.ks == map[]
  }

  lemma CompleteLive(m: Machine, p: Pile, g: Ground)
    requires Implements(m, p, g) && Complete(p)
    ensures m.live == {MAIN_BLOCK} + g.lost && MAIN_BLOCK !in g.lost && g.cb == [MAIN_BLOCK]
  {
    Shape(m, p, g);
    assert Linked(p, g);
    hide Implements, Linked;
    forall b: nat
      ensures b in m.live <==> b == MAIN_BLOCK || b in g.lost
    {
      EachStackOnce(m, p, g, b);
    }
    EachStackOnce(m, p, g, MAIN_BLOCK);
  }

  /** What a whole program leaves allocated. */
  lemma LeftAllocated(acts: seq<Action>)
    requires AbleAll(START, acts) && AllFromPool(BOOT, acts) && Complete(ActAll(START, acts))
    ensures DoAll(BOOT, acts).Some?
    ensures var m := DoAll(BOOT, acts).value;
            m.live + m.heap == {MAIN_BLOCK} <==> ShortAborts(START, acts) && NoneForgotten(acts) && m.heap == {}
  {
    hide Implements, ShortAborts, NoneForgotten, AbleAll, ActAll, LostByAll, DoAll, AllFromPool, Complete;
    var g := RunFromStart(acts);
    LosesNothing(START, acts);
    AdriftExact(BOOT, acts);
    CompleteLive(DoAll(BOOT, acts).value, ActAll(START, acts), g);
  }

  /** Exactly: a whole program gives back every stack if and only if each abort crosses at most one
      stack, no resumption is forgotten, and at most 64 stacks are in use at a time. */
  lemma CompleteExact(acts: seq<Action>)
    requires AbleAll(START, acts) && AllFromPool(BOOT, acts) && Complete(ActAll(START, acts))
    ensures DoAll(BOOT, acts).Some?
    ensures var m := DoAll(BOOT, acts).value;
            m.live + m.heap == {MAIN_BLOCK} <==> ShortAborts(START, acts) && NoneForgotten(acts) && AtMost64(BOOT, acts)
  {
    hide Implements, ShortAborts, NoneForgotten, AbleAll, ActAll, DoAll, AllFromPool, Complete;
    LeftAllocated(acts);
    StartImplements();
    HeapExact(BOOT, START, START_GROUND, acts);
  }

  // ----- how each condition fails -----

  /** An abort past a stack: the stack in between is left over. */
  lemma AbortLeaks()
    ensures var acts := [Enter(1, 1), Enter(2, 2), Abort(1, 1)];
            && AbleAll(START, acts) && AllFromPool(BOOT, acts) && Complete(ActAll(START, acts))
            && NoneForgotten(acts) && AtMost64(BOOT, acts) && DoAll(BOOT, acts).Some?
                && DoAll(BOOT, acts).value.live == {MAIN_BLOCK, 1}
  {
    LowestAt({0}, 1);
    LowestAt({0, 1}, 2);
    hide LowestFree;
    var p2 := Act(Act(START, Enter(1, 1)), Enter(2, 2));
    assert p2.chain[0].h == 2 && p2.chain[1].h == 1 && |p2.chain| == 3;
    var m1 := Do(BOOT, Enter(1, 1)).value;
    var m2 := Do(m1, Enter(2, 2)).value;
    assert m1.live == {0, 1} && m2.live == {0, 1, 2} && m2.sp.block == 2 && m2.exchanger[1] == Sp(0, 0);
  }

  /** A resumption that is never used: its stack is left over. */
  lemma ForgetLeaks()
    ensures var acts := [Enter(1, 1), Raise(1, 0, 7, true), Forget(7)];
            && AbleAll(START, acts) && AllFromPool(BOOT, acts) && Complete(ActAll(START, acts))
            && ShortAborts(START, acts) && AtMost64(BOOT, acts) && DoAll(BOOT, acts).Some?
                && DoAll(BOOT, acts).value.live == {MAIN_BLOCK, 1}
  {
    LowestAt({0}, 1);
    hide LowestFree;
    var p1 := Act(START, Enter(1, 1));
    assert p1.chain[0].h == 1 && |p1.chain| == 2;
    var m1 := Do(BOOT, Enter(1, 1)).value;
    assert m1.live == {0, 1};
  }

  /** Handlers i to n, each within the body of the one before. */
  function Enters(i: nat, n: nat): seq<Action>
    decreases n + 1 - i
  {
    if i > n then [] else [Enter(i, i)] + Enters(i + 1, n)
  }

  function Returns(n: nat): seq<Action>
  {
    if n == 0 then [] else [Return] + Returns(n - 1)
  }

  /** n empty segments above main. */
  ghost predicate Piled(p: Pile, n: nat)
  {
    |p.chain| == n + 1 && p.ks == map[] && (forall i :: 0 <= i <= n ==> p.chain[i].frames == []) && forall h ::
          h in p.names ==> h <= n
  }

  lemma {:induction false} EntersAble(p: Pile, i: nat, n: nat)
    requires 1 <= i <= n + 1 && Piled(p, i - 1)
    ensures AbleAll(p, Enters(i, n)) && Piled(ActAll(p, Enters(i, n)), n)
    decreases n + 1 - i
  {
    if i <= n {
      var p1 := Act(p, Enter(i, i));
      assert Able(p, Enter(i, i)) && Piled(p1, i);
      hide Able, Act, Piled;
      assert Enters(i, n)[0] == Enter(i, i) && Enters(i, n)[1..] == Enters(i + 1, n);
      EntersAble(p1, i + 1, n);
    }
  }

  lemma {:induction false} ReturnsAble(p: Pile, n: nat)
    requires |p.chain| == n + 1 && p.ks == map[] && forall i :: 0 <= i <= n ==> p.chain[i].frames == []
    ensures AbleAll(p, Returns(n)) && Complete(ActAll(p, Returns(n)))
    decreases n
  {
    if n > 0 {
      var p1 := Act(p, Return);
      assert Able(p, Return);
      assert Returns(n)[0] == Return && Returns(n)[1..] == Returns(n - 1);
      ReturnsAble(p1, n - 1);
    }
  }

  /** Blocks 0 to n are in use, those after 64 from the heap. */
  ghost predicate Ranked(m: Machine, n: nat)
  {
    (forall b: nat :: b in m.live <==> b <= n) && forall b: nat :: b in m.heap <==> POOL < b <= n
  }

  lemma NextGranted(m: Machine, i: nat)
    requires 1 <= i && Ranked(m, i - 1)
    ensures FromPool(m, Enter(i, i)) && Do(m, Enter(i, i)).Some? && Ranked(Do(m, Enter(i, i)).value, i)
  {
    if i <= POOL {
      LowestAt(m.live, i);
    }
    hide LowestFree;
    assert i > POOL ==> forall j :: 1 <= j <= POOL ==> j in m.live;
  }

  lemma {:induction false} EntersGranted(m: Machine, i: nat, n: nat)
    requires 1 <= i <= n + 1 && Ranked(m, i - 1)
    ensures AllFromPool(m, Enters(i, n)) && DoAll(m, Enters(i, n)).Some? && Ranked(DoAll(m, Enters(i, n)).value, n)
    decreases n + 1 - i
  {
    hide Do, FromPool, Ranked;
    if i <= n {
      NextGranted(m, i);
      assert Enters(i, n)[0] == Enter(i, i) && Enters(i, n)[1..] == Enters(i + 1, n);
      EntersGranted(Do(m, Enter(i, i)).value, i + 1, n);
    }
  }

  lemma {:induction false} ReturnsGranted(m: Machine, n: nat)
    ensures AllFromPool(m, Returns(n)) && (DoAll(m, Returns(n)).Some? ==> DoAll(m, Returns(n)).value.heap == m.heap)
    decreases n
  {
    hide Words;
    if n > 0 {
      assert Returns(n)[0] == Return && Returns(n)[1..] == Returns(n - 1);
      if DoReturn(m).Some? {
        ReturnsGranted(DoReturn(m).value, n - 1);
      }
    }
  }

  lemma {:induction false} NoAborts(p: Pile, acts: seq<Action>)
    requires AbleAll(p, acts) && forall a :: a in acts ==> a.Enter? || a.Return?
    ensures ShortAborts(p, acts) && NoneForgotten(acts)
    decreases |acts|
  {
    hide Act, Able;
    if acts != [] {
      assert acts[0] in acts && forall a :: a in acts[1..] ==> a in acts;
      NoAborts(Act(p, acts[0]), acts[1..]);
    }
  }

  lemma {:induction false} OnlyEnters(i: nat, n: nat)
    ensures forall a :: a in Enters(i, n) ==> a.Enter?
    decreases n + 1 - i
  {
    if i <= n {
      OnlyEnters(i + 1, n);
    }
  }

  lemma {:induction false} OnlyReturns(n: nat)
    ensures forall a :: a in Returns(n) ==> a.Return?
  {
    if n > 0 {
      OnlyReturns(n - 1);
    }
  }

  /** n handlers inside each other, whose bodies all return: nothing is left over if and only if
      there are at most 64. */
  lemma NestedLeak(n: nat)
    ensures var acts := Enters(1, n) + Returns(n);
            && AbleAll(START, acts) && AllFromPool(BOOT, acts) && Complete(ActAll(START, acts))
            && ShortAborts(START, acts) && NoneForgotten(acts) && DoAll(BOOT, acts).Some?
            && var m := DoAll(BOOT, acts).value; m.live + m.heap == {MAIN_BLOCK} <==> n <= 64
  {
    var acts := Enters(1, n) + Returns(n);
    EntersAble(START, 1, n);
    EntersGranted(BOOT, 1, n);
    var m1, p1 := DoAll(BOOT, Enters(1, n)).value, ActAll(START, Enters(1, n));
    ReturnsAble(p1, n);
    ReturnsGranted(m1, n);
    assert m1.heap == {} <==> n <= POOL by {
      if n > POOL {
        assert n in m1.heap;
      }
    }
    hide AbleAll, ActAll, AllFromPool, DoAll, Complete, ShortAborts, NoneForgotten, Piled, Ranked;
    JoinRuns(BOOT, START, Enters(1, n), Returns(n));
    OnlyEnters(1, n);
    OnlyReturns(n);
    hide Enters, Returns;
    NoAborts(START, acts);
    LeftAllocated(acts);
  }
}
