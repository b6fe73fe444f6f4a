/**
  Whole runs: the trampolines do what handlers mean, and what they cost.
 */
module Refinement {
  import opened Options
  import opened Continuations
  import opened Trampolines
  import opened Switching
  import opened NewStacks
  import opened Exchanges
  import opened Dropping

  /** How many stacks an action loses: an abort frees the stack that it leaves, but not those
      between that one and its target; a resumption that is forgotten takes its stacks along. */
  ghost function LostBy(p: Pile, a: Action): nat
    requires Able(p, a)
  {
    match a
    case Abort(h, i) => if !Holds(p.chain[i], h) then i else if i > 0 then i - 1 else 0
    case Forget(k) => |p.ks[k].segs|
    case _ => 0
  }

  ghost function LostByAll(p: Pile, acts: seq<Action>): nat
    requires AbleAll(p, acts)
    decreases |acts|
  {
    if acts == [] then 0 else LostBy(p, acts[0]) + LostByAll(Act(p, acts[0]), acts[1..])
  }

  lemma SimAbort(m: Machine, p: Pile, g: Ground, h: nat, i: nat) returns (g': Ground)
    requires Implements(m, p, g) && Able(p, Abort(h, i))
    ensures DoAbort(m, h).Some? && Implements(DoAbort(m, h).value, Aborted(p, h, i), g')
    ensures |g'.lost| == |g.lost| + LostBy(p, Abort(h, i))
  {
    hide Implements, DoAbort, Holds, AtHome;
    if !Holds(p.chain[i], h) {
      g' := SimAbortGeneral(m, p, g, h, i);
    } else if i == 0 {
      g' := SimAbortHere(m, p, g, h);
    } else {
      g' := SimAbortBelow(m, p, g, h, i);
    }
  }

  /** One action: the machine runs and stands for the next pile. */
  lemma SimAct(m: Machine, p: Pile, g: Ground, a: Action) returns (g': Ground)
    requires Implements(m, p, g) && Able(p, a) && FromPool(m, a)
    ensures Do(m, a).Some? && Implements(Do(m, a).value, Act(p, a), g')
    ensures |g'.lost| == |g.lost| + LostBy(p, a)
  {
    hide Implements, Spliceable, LowestFree;
    match a {
      case Push(v) => g' := SimPush(m, p, g, v);
      case Pop => g' := SimPop(m, p, g);
      case Poke(d, v) => g' := SimPoke(m, p, g, d, v);
      case Enter(h, b) => g' := SimEnter(m, p, g, h, b);
      case Return => g' := SimReturn(m, p, g);
      case Install(h) => g' := SimInstall(m, p, g, h);
      case Raise(h, i, k, single) => g' := SimRaise(m, p, g, h, i, k, single);
      case Abort(h, i) => g' := SimAbort(m, p, g, h, i);
      case Throw(k, b) => g' := SimThrow(m, p, g, k, b);
      case FinalThrow(k) => g' := SimFinalThrow(m, p, g, k);
      case Forget(k) => g' := SimForget(m, p, g, k);
    }
  }

  /** Any run of a program keeps to the meaning of its handlers. */
  lemma {:induction false} SimRun(m: Machine, p: Pile, g: Ground, acts: seq<Action>) returns (g': Ground)
    requires Implements(m, p, g) && AbleAll(p, acts) && AllFromPool(m, acts)
    ensures DoAll(m, acts).Some? && Implements(DoAll(m, acts).value, ActAll(p, acts), g')
    ensures |g'.lost| == |g.lost| + LostByAll(p, acts)
    decreases |acts|
  {
    hide Implements, Able, Act, Do, FromPool, LostBy;
    g' := g;
    if acts != [] {
      var g1 := SimAct(m, p, g, acts[0]);
      g' := SimRun(Do(m, acts[0]).value, Act(p, acts[0]), g1, acts[1..]);
    }
  }

  /** A run that goes on after a run. */
  lemma {:induction false} JoinRuns(m: Machine, p: Pile, first: seq<Action>, next: seq<Action>)
    requires AbleAll(p, first) && AbleAll(ActAll(p, first), next)
    requires AllFromPool(m, first) && DoAll(m, first).Some? && AllFromPool(DoAll(m, first).value, next)
    ensures AbleAll(p, first + next) && ActAll(p, first + next) == ActAll(ActAll(p, first), next)
    ensures AllFromPool(m, first + next) && DoAll(m, first + next) == DoAll(DoAll(m, first).value, next)
    decreases |first|
  {
    hide Able, Act, Do, FromPool;
    if first == [] {
      assert first + next == next;
    } else {
      assert (first + next)[0] == first[0] && (first + next)[1..] == first[1..] + next;
      JoinRuns(Do(m, first[0]).value, Act(p, first[0]), first[1..], next);
    }
  }

  // ----- what the relation says about the machine -----

  /** Every stack in use is on the chain from the current stack down to the main stack, or in
      exactly one resumption, or was lost. */
  lemma EachStackOnce(m: Machine, p: Pile, g: Ground, b: nat)
    requires Implements(m, p, g)
    ensures b in m.live <==> b in g.cb || b in g.lost || exists k :: k in p.ks && b in g.kb[k]
    ensures b in g.cb ==> b !in g.lost && forall k :: k in p.ks ==> b !in g.kb[k]
    ensures forall k, k' :: k in p.ks && k' in p.ks && b in g.kb[k] && b in g.kb[k'] ==> k == k' && b !in g.lost
  {
    hide Implements, OneTag, Tagged;
    Shape(m, p, g);
    WhereIs(m, p, g, b);
    TagDecides(g, b);
  }

  lemma WhereIs(m: Machine, p: Pile, g: Ground, b: nat)
    requires Implements(m, p, g)
    ensures OneTag(g, b) && (b in m.live <==> b in g.tag || b in g.lost) && !(b in g.tag && b in g.lost)
  {
    assert OneTag(g, b) && g.tag.Keys == g.seg.Keys by {
      hide Placed, NoDup, Linked, Unshared, Stored, Exchanged, Headers, AllResumable, Current;
    }
    assert m.live == g.seg.Keys + g.lost && g.seg.Keys !! g.lost by {
      hide Placed, OnePlace, Stores, Linked, Unshared, Exchanged, Headers, AllResumable, Current;
    }
    hide Implements;
  }

  lemma TagDecides(g: Ground, b: nat)
    requires OneTag(g, b)
    ensures b in g.tag <==> b in g.cb || exists k :: k in g.kb && b in g.kb[k]
    ensures b in g.cb ==> forall k :: k in g.kb ==> b !in g.kb[k]
    ensures forall k, k' :: k in g.kb && k' in g.kb && b in g.kb[k] && b in g.kb[k'] ==> k == k'
  {
  }

  /** From the start: at the end of any run the words in use in the current stack are those of
      the top segment, and the run has lost exactly the stacks that its aborts passed over and those
      of the resumptions that it forgot. */
  lemma RunFromStart(acts: seq<Action>) returns (g: Ground)
    requires AbleAll(START, acts) && AllFromPool(BOOT, acts)
    ensures DoAll(BOOT, acts).Some?
    ensures var m, p := DoAll(BOOT, acts).value, ActAll(START, acts);
            && Implements(m, p, g) && p.chain != [] && Words(m) == Some(Content(m.stubs, p.chain[0]))
            && |g.lost| == LostByAll(START, acts)
  {
    StartImplements();
    hide Implements;
    g := SimRun(BOOT, START, START_GROUND, acts);
    CurrentWords(DoAll(BOOT, acts).value, ActAll(START, acts), g);
  }

  // ----- stubs -----

  lemma DoStubs(m: Machine, a: Action)
    requires Do(m, a).Some?
    ensures a.Enter? || a.Install? || Do(m, a).value.stubs == m.stubs
    ensures a.Enter? ==> Do(m, a).value.stubs == m.stubs[a.h := General(a.b)]
    ensures a.Install? ==> Do(m, a).value.stubs == m.stubs[a.h := InFrame(m.sp)]
  {
    hide Words, SavedSp, Target;
  }

  /** Stubs are never changed. */
  lemma StubsGrow(m: Machine, p: Pile, g: Ground, a: Action)
    requires Implements(m, p, g) && Able(p, a) && Do(m, a).Some?
    ensures forall h :: h in m.stubs ==> h in Do(m, a).value.stubs && Do(m, a).value.stubs[h] == m.stubs[h]
  {
    hide Implements, Spliceable, Holds, AtHome, Do;
    StubsNamed(m, p, g);
    DoStubs(m, a);
  }

  lemma {:induction false} StubsGrowAll(m: Machine, p: Pile, g: Ground, acts: seq<Action>)
    requires Implements(m, p, g) && AbleAll(p, acts) && AllFromPool(m, acts)
    ensures DoAll(m, acts).Some?
    ensures forall h :: h in m.stubs ==> h in DoAll(m, acts).value.stubs && DoAll(m, acts).value.stubs[h] == m.stubs[h]
    decreases |acts|
  {
    hide Implements, Able, Act, Do, FromPool;
    if acts != [] {
      var g1 := SimAct(m, p, g, acts[0]);
      StubsGrow(m, p, g, acts[0]);
      StubsGrowAll(Do(m, acts[0]).value, Act(p, acts[0]), g1, acts[1..]);
    }
  }

  lemma CurrentStubbed(m: Machine, p: Pile, g: Ground)
    requires Implements(m, p, g)
    ensures p.chain != [] && (p.chain[0].h == MAIN || p.chain[0].h in m.stubs)
  {
    hide Implements;
    CurrentWords(m, p, g);
  }

  // ----- stacks that control is not on -----

  /** No action of the run is done on stack b. */
  predicate Avoids(m: Machine, acts: seq<Action>, b: nat)
    decreases |acts|
  {
    acts != [] ==> m.sp.block != b && (Do(m, acts[0]).Some? ==> Avoids(Do(m, acts[0]).value, acts[1..], b))
  }

  lemma StoppedKeptOnce(m: Machine, a: Action, b: nat)
    requires Do(m, a).Some? && m.sp.block != b && b in m.live && b in m.mem
    ensures var m' := Do(m, a).value; b in m'.live && b in m'.mem && m'.mem[b] == m.mem[b]
  {
    hide SavedSp, Target;
  }

  /** What runs elsewhere, whether it keeps to the meaning of handlers or not, neither frees a stack
      nor changes a word of it. */
  lemma {:induction false} StoppedKept(m: Machine, acts: seq<Action>, b: nat)
    requires DoAll(m, acts).Some? && Avoids(m, acts, b) && b in m.live && b in m.mem
    ensures var m' := DoAll(m, acts).value; b in m'.live && b in m'.mem && m'.mem[b] == m.mem[b]
    decreases |acts|
  {
    hide Do;
    if acts != [] {
      StoppedKeptOnce(m, acts[0], b);
      StoppedKept(Do(m, acts[0]).value, acts[1..], b);
    }
  }

  /** No other raise takes the resumption for its own. */
  predicate CapturedOnce(acts: seq<Action>, k: nat)
  {
    forall a :: a in acts ==> !(a.Raise? && a.k == k)
  }

  lemma ResKeptOnce(m: Machine, a: Action, k: nat)
    requires Do(m, a).Some? && k in m.res && !(a.Raise? && a.k == k)
    ensures k in Do(m, a).value.res && Do(m, a).value.res[k] == m.res[k]
  {
    hide SavedSp, Target, Words;
  }

  lemma {:induction false} ResKept(m: Machine, acts: seq<Action>, k: nat)
    requires DoAll(m, acts).Some? && k in m.res && CapturedOnce(acts, k)
    ensures k in DoAll(m, acts).value.res && DoAll(m, acts).value.res[k] == m.res[k]
    decreases |acts|
  {
    hide Do;
    if acts != [] {
      assert acts[0] in acts && forall a :: a in acts[1..] ==> a in acts;
      ResKeptOnce(m, acts[0], k);
      ResKept(Do(m, acts[0]).value, acts[1..], k);
    }
  }

  /** Multi-shot independence. A resumption is captured on its handler's own stack; whatever runs
      after that, copies and copies started by copies included, as long as it runs on other stacks,
      a copy starts with the words that were captured. */
  lemma CopiesStartFresh(m: Machine, h: nat, k: nat, acts: seq<Action>, b: nat)
    requires DoRaise(m, h, k, false).Some? && Words(m).Some? && m.sp.block in m.live
    requires var m1 := DoRaise(m, h, k, false).value;
             DoAll(m1, acts).Some? && Avoids(m1, acts, m.sp.block) && CapturedOnce(acts, k)
                 && b !in DoAll(m1, acts).value.live
    ensures var m2 := DoAll(DoRaise(m, h, k, false).value, acts).value;
            DoThrow(m2, k, b).Some? && Words(DoThrow(m2, k, b).value) == Words(m)
  {
    hide Avoids, CapturedOnce, DoAll;
    StoppedKept(DoRaise(m, h, k, false).value, acts, m.sp.block);
    ResKept(DoRaise(m, h, k, false).value, acts, k);
    assert Words(m).value == m.mem[m.sp.block][..m.sp.height][..m.sp.height];
  }

  // ----- captured stacks -----

  /** Resumption k is not used up. */
  predicate Kept(acts: seq<Action>, k: nat)
  {
    FinalThrow(k) !in acts && Forget(k) !in acts
  }

  lemma HeldKeptOnce(p: Pile, a: Action, k: nat)
    requires Able(p, a) && a != FinalThrow(k) && a != Forget(k) && k in p.ks
    ensures k in Act(p, a).ks && Act(p, a).ks[k] == p.ks[k] && !(a.Raise? && a.k == k)
  {
    hide InUse;
  }

  /** Each block of a resumption is the one that its segment names, and control is elsewhere. */
  lemma HeldAt(m: Machine, p: Pile, g: Ground, k: nat, i: nat)
    requires Implements(m, p, g) && k in p.ks && i < |p.ks[k].segs|
    ensures k in g.kb && |g.kb[k]| == |p.ks[k].segs|
    ensures g.kb[k][i] == p.ks[k].segs[i].at && p.ks[k].segs[i].at != m.sp.block && p.ks[k].segs[i].at in m.live
    ensures Stores(m, p.ks[k].segs[i], p.ks[k].segs[i].at)
  {
    assert Placed(p, g) && Stored(m, g) && Current(m, p, g) && OnePlace(g);
    assert Hold(g.seg, g.kb[k], p.ks[k].segs) && Stores(m, g.seg[g.kb[k][i]], g.kb[k][i]);
    hide Implements, Placed, Hold, NoDup;
    HeldOffChain(g, k);
    assert g.kb[k][i] in g.kb[k] && g.cb[0] in g.cb;
  }

  /** Control never comes to a stack of a resumption that is not used up. */
  lemma {:induction false} HeldNeverRuns(m: Machine, p: Pile, g: Ground, acts: seq<Action>, k: nat, i: nat)
    requires Implements(m, p, g) && AbleAll(p, acts) && AllFromPool(m, acts) && Kept(acts, k) && k in p.ks
    requires i < |p.ks[k].segs|
    ensures Avoids(m, acts, p.ks[k].segs[i].at) && CapturedOnce(acts, k)
    ensures k in ActAll(p, acts).ks && ActAll(p, acts).ks[k] == p.ks[k]
    decreases |acts|
  {
    hide Implements, Able, Act, Do, FromPool;
    if acts != [] {
      assert acts[0] in acts && forall a :: a in acts[1..] ==> a in acts;
      var g1 := SimAct(m, p, g, acts[0]);
      HeldKeptOnce(p, acts[0], k);
      HeldAt(m, p, g, k, i);
      HeldNeverRuns(Do(m, acts[0]).value, Act(p, acts[0]), g1, acts[1..], k, i);
    }
  }

  /** The saved stack pointer of k and every word of its stacks are those of m. */
  ghost predicate SameCaptured(m: Machine, m': Machine, held: Held, k: nat)
  {
    && SavedSp(m', k) == SavedSp(m, k)
    && forall i :: 0 <= i < |held.segs| ==>
         var b := held.segs[i].at; b in m'.live && b in m.mem && b in m'.mem && m'.mem[b] == m.mem[b]
  }

  lemma SavedAt(m: Machine, p: Pile, g: Ground, k: nat)
    requires Implements(m, p, g) && k in p.ks
    ensures p.ks[k].segs != [] && SavedSp(m, k) == Some(Sp(p.ks[k].segs[0].at, Height(p.ks[k].segs[0])))
  {
    hide Implements, SavedSp, Height, Stores;
    SavedTop(m, p, g, k);
    HeldAt(m, p, g, k, 0);
  }

  /** Whatever runs, the runtime keeps the stacks of a resumption as they were captured until the
      resumption itself is used up. */
  lemma CapturedKept(m: Machine, p: Pile, g: Ground, acts: seq<Action>, k: nat)
    requires Implements(m, p, g) && AbleAll(p, acts) && AllFromPool(m, acts) && Kept(acts, k) && k in p.ks
    ensures DoAll(m, acts).Some? && SameCaptured(m, DoAll(m, acts).value, p.ks[k], k)
  {
    hide Implements, AbleAll, AllFromPool, ActAll, DoAll, Kept, SavedSp, Height, Avoids, CapturedOnce;
    var g' := SimRun(m, p, g, acts);
    var m' := DoAll(m, acts).value;
    SavedAt(m, p, g, k);
    HeldNeverRuns(m, p, g, acts, k, 0);
    SavedAt(m', ActAll(p, acts), g', k);
    forall i | 0 <= i < |p.ks[k].segs|
      ensures var b := p.ks[k].segs[i].at; b in m'.live && b in m.mem && b in m'.mem && m'.mem[b] == m.mem[b]
    {
      HeldNeverRuns(m, p, g, acts, k, i);
      HeldAt(m, p, g, k, i);
      StoppedKept(m, acts, p.ks[k].segs[i].at);
    }
  }
}
