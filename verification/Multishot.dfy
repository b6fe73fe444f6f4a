/**
  Coming back from resumptions, and when resuming again goes wrong.
 */
module Multishot {
  import opened Options
  import opened Continuations
  import opened Trampolines
  import opened Switching
  import opened NewStacks
  import opened Exchanges
  import opened Dropping
  import opened Refinement

  // ----- return to the resumer -----

  /** All through the run more than n segments are on the pile. */
  ghost predicate Above(p: Pile, n: nat, acts: seq<Action>)
    requires AbleAll(p, acts)
    decreases |acts|
  {
    |p.chain| > n && (acts != [] ==> Above(Act(p, acts[0]), n, acts[1..]))
  }

  /** The n lowest segments. */
  function Lower(p: Pile, n: nat): seq<Seg>
    requires n <= |p.chain|
  {
    p.chain[|p.chain| - n..]
  }

  lemma LowerKeptOnce(p: Pile, a: Action, n: nat)
    requires Able(p, a) && |p.chain| > n && |Act(p, a).chain| > n
    ensures Lower(Act(p, a), n) == Lower(p, n)
  {
    hide InUse;
  }

  lemma {:induction false} LowerKept(p: Pile, acts: seq<Action>, n: nat)
    requires AbleAll(p, acts) && Above(p, n, acts)
    ensures |ActAll(p, acts).chain| > n && Lower(ActAll(p, acts), n) == Lower(p, n)
    decreases |acts|
  {
    hide Act, Able, Lower;
    if acts != [] {
      LowerKept(Act(p, acts[0]), acts[1..], n);
      assert |Act(p, acts[0]).chain| > n;
      LowerKeptOnce(p, acts[0], n);
    }
  }

  /** Actions that put segments on top of the pile. */
  predicate Starts(a: Action)
  {
    a.Enter? || a.Throw? || a.FinalThrow?
  }

  lemma StartLower(p: Pile, a: Action)
    requires Able(p, a) && Starts(a)
    ensures |Act(p, a).chain| > |p.chain| && Lower(Act(p, a), |p.chain|) == p.chain
  {
    hide InUse;
  }

  lemma ReturnLower(p: Pile, n: nat)
    requires Able(p, Return) && |p.chain| == n + 1
    ensures Act(p, Return).chain == Lower(p, n)
  {
  }

  /** What is entered or resumed here returns here: whatever it did in between, raises and further
      resumptions included, the words of this stack are then as they were. */
  lemma ReturnsToResumer(m: Machine, p: Pile, g: Ground, a: Action, acts: seq<Action>)
    requires Implements(m, p, g) && Able(p, a) && Starts(a) && FromPool(m, a) && Do(m, a).Some?
    requires AbleAll(Act(p, a), acts + [Return]) && AllFromPool(Do(m, a).value, acts + [Return])
    requires AbleAll(Act(p, a), acts) && Above(Act(p, a), |p.chain|, acts)
    requires |ActAll(Act(p, a), acts).chain| == |p.chain| + 1
    ensures var m1 := Do(m, a).value;
            DoAll(m1, acts + [Return]).Some? && Words(DoAll(m1, acts + [Return]).value) == Words(m) && Words(m).Some?
  {
    hide Implements, Words, AllFromPool, DoAll, ActAll, Able, Do, Act;
    var m1, p1 := Do(m, a).value, Act(p, a);
    var g1 := SimAct(m, p, g, a);
    CurrentWords(m, p, g);
    CurrentStubbed(m, p, g);
    StubsGrow(m, p, g, a);
    hide Lower;
    ReturnedPile(p, a, acts);
    hide AbleAll, Above;
    StubsGrowAll(m1, p1, g1, acts + [Return]);
    var g2 := SimRun(m1, p1, g1, acts + [Return]);
    var m2 := DoAll(m1, acts + [Return]).value;
    CurrentWords(m2, ActAll(p1, acts + [Return]), g2);
    assert Content(m2.stubs, p.chain[0]) == Content(m.stubs, p.chain[0]);
  }

  lemma ReturnedPile(p: Pile, a: Action, acts: seq<Action>)
    requires Able(p, a) && Starts(a) && AbleAll(Act(p, a), acts + [Return])
    requires AbleAll(Act(p, a), acts) && Above(Act(p, a), |p.chain|, acts)
    requires |ActAll(Act(p, a), acts).chain| == |p.chain| + 1
    ensures ActAll(Act(p, a), acts + [Return]).chain == p.chain
  {
    var p1 := Act(p, a);
    hide Act, Able, Lower, Above;
    StartLower(p, a);
    LowerKept(p1, acts, |p.chain|);
    ActAllLast(p1, acts, Return);
    ReturnLower(ActAll(p1, acts), |p.chain|);
  }

  lemma {:induction false} ActAllLast(p: Pile, acts: seq<Action>, a: Action)
    requires AbleAll(p, acts) && AbleAll(p, acts + [a])
    ensures Able(ActAll(p, acts), a) && ActAll(p, acts + [a]) == Act(ActAll(p, acts), a)
    decreases |acts|
  {
    hide Able, Act;
    if acts == [] {
      assert [] + [a] == [a] && [a][1..] == [];
    } else {
      assert (acts + [a])[0] == acts[0] && (acts + [a])[1..] == acts[1..] + [a];
      ActAllLast(Act(p, acts[0]), acts[1..], a);
    }
  }

  /** A raise and the resumption of what it captured cancel out, to the last word. */
  lemma RaiseThenResume(m: Machine, h: nat, k: nat, single: bool)
    requires DoRaise(m, h, k, single).Some?
    ensures DoFinalThrow(DoRaise(m, h, k, single).value, k).Some?
    ensures var m' := DoFinalThrow(DoRaise(m, h, k, single).value, k).value; m'.(res := m.res) == m
  {
    var x := m.stubs[h].header;
    var m' := DoFinalThrow(DoRaise(m, h, k, single).value, k).value;
    assert m'.exchanger == m.exchanger;
  }

  // ----- when a copy may be started -----

  /** The resumption of one block, ready to be copied but for what may depend on its exchanger. */
  ghost predicate Copyable(p: Pile, k: nat)
  {
    k in p.ks && !p.ks[k].single && |p.ks[k].segs| == 1 && p.ks[k].segs[0].h in p.alive
  }

  /** Two links through one exchanger: no ground can explain the pile. */
  lemma SharedExchanger(m: Machine, p: Pile, g: Ground, m': Machine, k: nat, b: nat, g': Ground)
    requires Implements(m, p, g) && Copyable(p, k) && InUse(p, p.ks[k].segs[0].h)
    ensures !Implements(m', Thrown(p, k, b), g')
  {
    var h, p' := p.ks[k].segs[0].h, Thrown(p, k, b);
    if Implements(m', p', g') {
      hide Implements, InUse;
      Shape(m', p', g');
      MainBelow(m, p, g);
      HandlerBlock(m', p', g', 0);
      var c := g'.cb[0];
      var d := OtherUse(m', p', g', p, k, b, h);
      LinksApart(m', p', g', c, d);
      assert false;
    }
  }

  lemma MainBelow(m: Machine, p: Pile, g: Ground)
    requires Implements(m, p, g)
    ensures p.chain != []
  {
    hide Implements;
    Shape(m, p, g);
  }

  lemma LinksApart(m: Machine, p: Pile, g: Ground, c: nat, d: nat)
    requires Implements(m, p, g) && c in g.next && d in g.next && c in g.seg && d in g.seg && g.seg[c].h == g.seg[d].h
    ensures c == d
  {
    hide Placed, OnePlace, Linked, Stored, Exchanged, Headers, AllResumable, Current;
  }

  lemma ChainUse(p: Pile, g: Ground, i: nat)
    requires Placed(p, g) && Linked(p, g) && NoDup(g.cb) && 0 < i < |p.chain| - 1
    ensures |g.cb| == |p.chain| && g.cb[i] in g.next && g.cb[i] in g.seg && g.seg[g.cb[i]] == p.chain[i]
    ensures g.cb[i] != g.cb[0]
  {
    hide NextOk, LastNext;
  }

  lemma HeldUse(p: Pile, g: Ground, k: nat, i: nat)
    requires Placed(p, g) && Linked(p, g) && OnePlace(g) && k in p.ks && i < |p.ks[k].segs|
    requires (i + 1 < |p.ks[k].segs| || p.ks[k].single)
    ensures k in g.kb && |g.kb[k]| == |p.ks[k].segs| && g.cb != []
    ensures g.kb[k][i] in g.next && g.kb[k][i] in g.seg && g.seg[g.kb[k][i]] == p.ks[k].segs[i] && g.kb[k][i] != g.cb[0]
  {
    assert Path(g.next, g.kb[k]) && LastNext(p.ks[k].single, g, g.kb[k]) && Hold(g.seg, g.kb[k], p.ks[k].segs);
    hide Placed, Linked, NextOk, NoDup;
    assert g.kb[k][i] in g.kb[k] && g.cb[0] in g.cb && OneTag(g, g.kb[k][i]);
  }

  /** The use that was there before is a link from another block than the copy's. */
  lemma OtherUse(m': Machine, p': Pile, g': Ground, p: Pile, k: nat, b: nat, h: nat) returns (d: nat)
    requires Implements(m', p', g') && k in p.ks && p.ks[k].segs != [] && p' == Thrown(p, k, b) && p.chain != []
    requires InUse(p, h)
    ensures d in g'.next && d in g'.seg && g'.seg[d].h == h && g'.cb != [] && d != g'.cb[0]
  {
    hide Placed, Linked, Unshared, Stored, Exchanged, Headers, AllResumable, Current, NoDup, OneTag;
    assert OnePlace(g') && NoDup(g'.cb);
    hide OnePlace;
    if i :| 0 <= i < |p.chain| - 1 && p.chain[i].h == h {
      assert p'.chain[i + 1] == p.chain[i];
      ChainUse(p', g', i + 1);
      d := g'.cb[i + 1];
    } else {
      var k', i :| k' in p.ks && 0 <= i < |p.ks[k'].segs| && p.ks[k'].segs[i].h == h
          && (i + 1 < |p.ks[k'].segs| || p.ks[k'].single);
      HeldUse(p', g', k', i);
      d := g'.kb[k'][i];
    }
  }

  /** Exactly: THROW does what resuming means if and only if nothing else depends on the exchanger
      that the copies share. */
  lemma ThrowExact(m: Machine, p: Pile, g: Ground, k: nat, b: nat)
    requires Implements(m, p, g) && Copyable(p, k) && b !in m.live
    ensures DoThrow(m, k, b).Some?
    ensures (exists g' :: Implements(DoThrow(m, k, b).value, Thrown(p, k, b), g')) <==> !InUse(p, p.ks[k].segs[0].h)
  {
    hide Implements, InUse, DoThrow;
    ThrowDefined(m, p, g, k, b);
    if InUse(p, p.ks[k].segs[0].h) {
      forall g' | Implements(DoThrow(m, k, b).value, Thrown(p, k, b), g')
        ensures false
      {
        SharedExchanger(m, p, g, DoThrow(m, k, b).value, k, b, g');
      }
    } else {
      var g' := SimThrow(m, p, g, k, b);
    }
  }

  lemma ThrowDefined(m: Machine, p: Pile, g: Ground, k: nat, b: nat)
    requires Implements(m, p, g) && Copyable(p, k) && b !in m.live
    ensures DoThrow(m, k, b).Some?
  {
    hide Implements;
    HeldOne(m, p, g, k);
  }

  // ----- what goes wrong otherwise -----

  /** A segment gives up its n words and its body returns. */
  function Unwind(n: nat): seq<Action>
  {
    if n == 0 then [Return] else [Pop] + Unwind(n - 1)
  }

  lemma {:induction false} UnwindDo(m: Machine, b: nat, x: nat, n: nat)
    requires m.sp == Sp(b, LINK_WORDS + n) && b in m.mem && LINK_WORDS + n <= |m.mem[b]| && m.mem[b][0] == x
    requires x in m.exchanger
    ensures DoAll(m, Unwind(n)) == Some(m.(live := m.live - {b}, sp := m.exchanger[x]))
    decreases n
  {
    if n == 0 {
      assert Do(m, Return) == Some(m.(live := m.live - {b}, sp := m.exchanger[x]));
      assert Unwind(0)[1..] == [];
    } else {
      assert Do(m, Pop) == Some(m.(sp := Sp(b, LINK_WORDS + n - 1)));
      assert Unwind(n)[0] == Pop && Unwind(n)[1..] == Unwind(n - 1);
      UnwindDo(m.(sp := Sp(b, LINK_WORDS + n - 1)), b, x, n - 1);
    }
  }

  lemma FirstWord(m: Machine, s: Seg, b: nat)
    requires Stores(m, s, b) && s.h != MAIN
    ensures b in m.mem && Height(s) == LINK_WORDS + |s.frames| <= |m.mem[b]| && m.mem[b][0] == Header(m.stubs, s.h)
  {
    assert Content(m.stubs, s)[0] == m.mem[b][..Height(s)][0];
  }

  lemma ReentrantRun(m: Machine, k: nat, b: nat, from: nat, x: nat, n: nat, n0: nat)
    requires k in m.res && m.res[k] == Multi(Sp(from, LINK_WORDS + n), x) && b !in m.live && m.sp.block in m.live
    requires from in m.mem && LINK_WORDS + n <= |m.mem[from]| && m.mem[from][0] == x
    requires m.sp.height == LINK_WORDS + n0 && m.sp.block in m.mem && m.sp.height <= |m.mem[m.sp.block]|
    requires m.mem[m.sp.block][0] == x
    ensures DoThrow(m, k, b).Some?
    ensures var m1 := DoThrow(m, k, b).value;
            && DoAll(m1, Unwind(n)).Some?
            && var m2 := DoAll(m1, Unwind(n)).value;
               m2.sp == m.sp && DoAll(m2, Unwind(n0)).Some?
               && var m3 := DoAll(m2, Unwind(n0)).value; m3.sp == m.sp && m.sp.block !in m3.live
  {
    var m1 := DoThrow(m, k, b).value;
    UnwindDo(m1, b, x, n);
    UnwindDo(m1.(live := m1.live - {b}, sp := m.sp), m.sp.block, x, n0);
  }

  /** A resumption that is started again by one of its own copies: the exchanger now leads to that
      copy. When both have returned, control is in the copy's own stack, which has been freed,
      instead of where the handler's caller is waiting. */
  lemma ReentrantThrow(m: Machine, p: Pile, g: Ground, k: nat, b: nat)
    requires Implements(m, p, g) && Copyable(p, k) && b !in m.live && |p.chain| > 1 && p.chain[0].h == p.ks[k].segs[0].h
    ensures DoThrow(m, k, b).Some?
    ensures var m1 := DoThrow(m, k, b).value;
            && DoAll(m1, Unwind(|p.ks[k].segs[0].frames|)).Some?
            && var m2 := DoAll(m1, Unwind(|p.ks[k].segs[0].frames|)).value;
               m2.sp == m.sp && DoAll(m2, Unwind(|p.chain[0].frames|)).Some?
               && var m3 := DoAll(m2, Unwind(|p.chain[0].frames|)).value; m3.sp == m.sp && m.sp.block !in m3.live
    ensures Target(m, p.chain[0].h).Some? && Target(m, p.chain[0].h).value != m.sp
  {
    var s, top := p.ks[k].segs[0], p.chain[0];
    hide Implements, Stores, Height, Header, DoThrow, DoAll, Unwind;
    HeldOne(m, p, g, k);
    HandlerBlock(m, p, g, 0);
    CurrentWords(m, p, g);
    BlockOf(m, p, g, 1);
    CurrentLive(m, p, g);
    FirstWord(m, s, g.kb[k][0]);
    FirstWord(m, top, g.cb[0]);
    ReentrantRun(m, k, b, g.kb[k][0], Header(m.stubs, s.h), |s.frames|, |top.frames|);
  }

  lemma CurrentLive(m: Machine, p: Pile, g: Ground)
    requires Implements(m, p, g)
    ensures m.sp.block in m.live
  {
    hide OnePlace, Linked, Unshared, Exchanged, Headers, AllResumable, Stores;
  }

  // ----- abort handlers in copied frames -----

  /** An abort handler's frame is copied with its stack, but its exchanger still leads to the stack
      that it was installed in: an abort in the copy of an original leaves the copy for it. */
  lemma CopiedAbortHandler(m: Machine, p: Pile, g: Ground, k: nat, b: nat, h: nat)
    requires Implements(m, p, g) && Copyable(p, k) && b !in m.live && AtHome(p.ks[k].segs[0], h)
    ensures DoThrow(m, k, b).Some? && SavedSp(m, k).Some?
    ensures var m1 := DoThrow(m, k, b).value;
            m1.sp.block == b && DoAbort(m1, h).Some? && DoAbort(m1, h).value.sp.block == SavedSp(m, k).value.block != b
  {
    hide Implements;
    HeldOne(m, p, g, k);
    HeldLive(m, p, g, k);
  }

  lemma HeldLive(m: Machine, p: Pile, g: Ground, k: nat)
    requires Implements(m, p, g) && k in p.ks && p.ks[k].segs != []
    ensures k in g.kb && g.kb[k] != [] && g.kb[k][0] in m.live
  {
    assert Hold(g.seg, g.kb[k], p.ks[k].segs);
    hide OnePlace, Linked, Unshared, Exchanged, Headers, AllResumable, Stores, Current;
  }

  lemma AbortTarget(m: Machine, p: Pile, g: Ground, h: nat, i: nat)
    requires Implements(m, p, g) && i < |p.chain| && Holds(p.chain[i], h)
    ensures DoAbort(m, h).Some? && DoAbort(m, h).value.sp.block == p.chain[i].marks[h].at
  {
    hide Implements;
    InFrameTarget(m, p, g, h, i);
  }

  lemma CurrentAt(m: Machine, p: Pile, g: Ground)
    requires Implements(m, p, g)
    ensures p.chain != [] && m.sp.block == p.chain[0].at
  {
    hide Implements, Height;
    CurrentWords(m, p, g);
  }

  /** Exactly: an abort to a handler in a frame cuts back the stack that the frame is in if and only
      if that is the stack that the handler was installed in. */
  lemma AbortExact(m: Machine, p: Pile, g: Ground, h: nat, i: nat)
    requires Implements(m, p, g) && i < |p.chain| && Holds(p.chain[i], h)
    ensures DoAbort(m, h).Some?
    ensures (exists g' :: Implements(DoAbort(m, h).value, Aborted(p, h, i), g')) <==> AtHome(p.chain[i], h)
  {
    hide Implements, DoAbort;
    AbortTarget(m, p, g, h, i);
    if AtHome(p.chain[i], h) {
      var g' := SimAbort(m, p, g, h, i);
    } else {
      forall g' | Implements(DoAbort(m, h).value, Aborted(p, h, i), g')
        ensures false
      {
        CurrentAt(DoAbort(m, h).value, Aborted(p, h, i), g');
      }
    }
  }

  /** A frame that was not copied since its handler was installed is in the stack of that time. */
  ghost predicate UncopiedAtHome(s: Seg)
  {
    forall h :: h in s.marks && !s.marks[h].copied ==> AtHome(s, h)
  }

  ghost predicate AllUncopiedAtHome(p: Pile)
  {
    && (forall i :: 0 <= i < |p.chain| ==> UncopiedAtHome(p.chain[i]))
    && (forall k, i :: k in p.ks && 0 <= i < |p.ks[k].segs| ==> UncopiedAtHome(p.ks[k].segs[i]))
  }

  lemma UncopiedSame(s: Seg, t: Seg)
    requires UncopiedAtHome(s) && t.at == s.at && t.marks == s.marks
    ensures UncopiedAtHome(t)
  {
  }

  lemma UncopiedNew(s: Seg, h: nat, b: nat)
    ensures UncopiedAtHome(Seg(h, true, b, [], map[])) && UncopiedAtHome(Copy(s, b))
    ensures UncopiedAtHome(s) ==> UncopiedAtHome(Marked(s, h))
  {
  }

  lemma UncopiedTop(p: Pile, t: Seg)
    requires AllUncopiedAtHome(p) && p.chain != [] && UncopiedAtHome(t)
    ensures AllUncopiedAtHome(SetTop(p, t))
  {
    hide UncopiedAtHome;
  }

  lemma UncopiedAbort(p: Pile, h: nat, i: nat)
    requires AllUncopiedAtHome(p) && i < |p.chain| && (Holds(p.chain[i], h) || i + 1 < |p.chain|)
    ensures AllUncopiedAtHome(Aborted(p, h, i))
  {
    hide UncopiedAtHome;
    if Holds(p.chain[i], h) {
      var t := Cut(p.chain[i], p.chain[i].marks[h].height);
      UncopiedSame(p.chain[i], t);
      UncopiedTop(if i == 0 then p else Left(p, i), t);
    }
  }

  lemma UncopiedOnce(p: Pile, a: Action)
    requires Able(p, a) && AllUncopiedAtHome(p)
    ensures AllUncopiedAtHome(Act(p, a))
  {
    hide InUse, UncopiedAtHome, Copy, Marked;
    var s := p.chain[0];
    match a {
      case Push(v) => UncopiedSame(s, Pushed(s, v));
      case Pop => UncopiedSame(s, Cut(s, |s.frames| - 1));
      case Poke(d, v) => UncopiedSame(s, Poked(s, d, v));
      case Enter(h, b) => UncopiedNew(s, h, b);
      case Install(h) => UncopiedNew(s, h, 0);
      case Throw(k, b) => UncopiedNew(p.ks[k].segs[0], 0, b);
      case Abort(h, i) => UncopiedAbort(p, h, i);
      case _ =>
    }
  }

  lemma {:induction false} UncopiedAlways(p: Pile, acts: seq<Action>)
    requires AbleAll(p, acts) && AllUncopiedAtHome(p)
    ensures AllUncopiedAtHome(ActAll(p, acts))
    decreases |acts|
  {
    hide Able, Act, AllUncopiedAtHome;
    if acts != [] {
      UncopiedOnce(p, acts[0]);
      UncopiedAlways(Act(p, acts[0]), acts[1..]);
    }
  }

  lemma UncopiedHome(p: Pile, h: nat, i: nat)
    requires AllUncopiedAtHome(p) && i < |p.chain| && Holds(p.chain[i], h) && !p.chain[i].marks[h].copied
    ensures AtHome(p.chain[i], h)
  {
    assert UncopiedAtHome(p.chain[i]);
  }

  /** In every run an abort does what it means if the frame of its handler was not copied since the
      handler was installed. */
  lemma UncopiedAbortRight(acts: seq<Action>, h: nat, i: nat)
    requires AbleAll(START, acts) && AllFromPool(BOOT, acts)
    requires var p := ActAll(START, acts); i < |p.chain| && Holds(p.chain[i], h) && !p.chain[i].marks[h].copied
    ensures var p := ActAll(START, acts);
            && DoAll(BOOT, acts).Some? && DoAbort(DoAll(BOOT, acts).value, h).Some?
            && exists g' :: Implements(DoAbort(DoAll(BOOT, acts).value, h).value, Aborted(p, h, i), g')
  {
    hide Implements, DoAbort, DoAll, ActAll, AbleAll, AllFromPool;
    var g := RunFromStart(acts);
    UncopiedAlways(START, acts);
    UncopiedHome(ActAll(START, acts), h, i);
    AbortExact(DoAll(BOOT, acts).value, ActAll(START, acts), g, h, i);
  }

  /** A run in which a copy of a copy lands where the first copy was, and that one had installed
      abort handler 5. */
  const CAPTURED := Seg(1, true, 1, [], map[])
  const COPY_WITH_HANDLER := Seg(1, false, 2, [], map[5 := Mark(0, 2, false)])
  const ITS_COPY := Seg(1, false, 3, [], map[5 := Mark(0, 2, true)])
  const COPY_BACK := Seg(1, false, 2, [], map[5 := Mark(0, 2, true)])
  const LOWEST := Seg(MAIN, false, MAIN_STACK, [], map[])

  const FIRST_HALF := [Enter(1, 1), Raise(1, 0, 10, false), Throw(10, 2), Install(5), Raise(1, 0, 11, false)]
  const SECOND_HALF := [Throw(11, 3), Raise(1, 0, 12, false), FinalThrow(11), Return, Throw(12, 2)]

  function AtMain(ks: map<nat, Held>, names: set<nat>): Pile
  {
    Pile([LOWEST], ks, names, {1})
  }

  function Above1(s: Seg, ks: map<nat, Held>, names: set<nat>): Pile
  {
    Pile([s, LOWEST], ks, names, {1})
  }

  /** Every resumption is one segment of handler 1. */
  predicate Ones(ks: map<nat, Held>)
  {
    forall k :: k in ks ==> !ks[k].single && |ks[k].segs| == 1 && ks[k].segs[0].h == 1
  }

  lemma Throws(s: Seg, ks: map<nat, Held>, names: set<nat>, k: nat, b: nat)
    requires Ones(ks) && k in ks && ks[k] == Held([s], false)
    ensures Able(AtMain(ks, names), Throw(k, b)) && Act(AtMain(ks, names), Throw(k, b)) == Above1(Copy(s, b), ks, names)
    ensures Able(AtMain(ks, names), FinalThrow(k))
    ensures Act(AtMain(ks, names), FinalThrow(k)) == Above1(s, ks - {k}, names) && Ones(ks - {k})
  {
    assert !InUse(AtMain(ks, names), 1);
  }

  lemma Raises(s: Seg, ks: map<nat, Held>, names: set<nat>, k: nat)
    requires Ones(ks) && k !in ks && s.h == 1
    ensures Able(Above1(s, ks, names), Raise(1, 0, k, false))
    ensures Act(Above1(s, ks, names), Raise(1, 0, k, false)) == AtMain(ks[k := Held([s], false)], names)
    ensures Ones(ks[k := Held([s], false)])
  {
    assert Above1(s, ks, names).chain[..1] == [s] && Above1(s, ks, names).chain[1..] == [LOWEST];
  }

  lemma Begins()
    ensures Able(START, Enter(1, 1)) && Act(START, Enter(1, 1)) == Above1(CAPTURED, map[], {MAIN, 1})
  {
  }

  lemma InstallsInCopy(ks: map<nat, Held>)
    ensures var p := Above1(Copy(CAPTURED, 2), ks, {MAIN, 1});
            Able(p, Install(5)) && Act(p, Install(5)) == Above1(COPY_WITH_HANDLER, ks, {MAIN, 1, 5})
  {
  }

  lemma RecycledFirst()
    ensures AbleAll(START, FIRST_HALF)
    ensures ActAll(START, FIRST_HALF) ==
            AtMain(map[][10 := Held([CAPTURED], false)][11 := Held([COPY_WITH_HANDLER], false)], {MAIN, 1, 5})
  {
    hide Able, Act, AtMain, Above1, Copy;
    var k10 := map[][10 := Held([CAPTURED], false)];
    Begins();
    Raises(CAPTURED, map[], {MAIN, 1}, 10);
    Throws(CAPTURED, k10, {MAIN, 1}, 10, 2);
    InstallsInCopy(k10);
    Raises(COPY_WITH_HANDLER, k10, {MAIN, 1, 5}, 11);
  }

  lemma Ends(s: Seg, ks: map<nat, Held>, names: set<nat>)
    requires s.frames == [] && !s.own
    ensures Able(Above1(s, ks, names), Return) && Act(Above1(s, ks, names), Return) == AtMain(ks, names)
  {
  }

  lemma RecycledThen(ks: map<nat, Held>, names: set<nat>)
    requires Ones(ks) && ks.Keys == {10, 11} && ks[11] == Held([COPY_WITH_HANDLER], false)
    ensures AbleAll(AtMain(ks, names), SECOND_HALF)
    ensures ActAll(AtMain(ks, names), SECOND_HALF).chain == [COPY_BACK, LOWEST]
  {
    hide Able, Act, AtMain;
    var k12 := ks[12 := Held([ITS_COPY], false)];
    var k13 := k12 - {11};
    assert Copy(COPY_WITH_HANDLER, 3) == ITS_COPY && Copy(ITS_COPY, 2) == COPY_BACK;
    Ends(COPY_WITH_HANDLER, k13, names);
    Throws(COPY_WITH_HANDLER, ks, names, 11, 3);
    Raises(ITS_COPY, ks, names, 12);
    Throws(COPY_WITH_HANDLER, k12, names, 11, 0);
    Throws(ITS_COPY, k13, names, 12, 2);
  }

  lemma RecycledBlocksFirst() returns (m: Machine)
    ensures AllFromPool(BOOT, FIRST_HALF) && DoAll(BOOT, FIRST_HALF) == Some(m)
    ensures m.live == {0, 1, 2} && m.sp == Sp(0, 0) && 1 in m.exchanger && m.exchanger[1] == Sp(2, 2)
    ensures 11 in m.res && m.res[11] == Multi(Sp(2, 2), 1) && 1 in m.stubs && m.stubs[1] == General(1) && 2 in m.mem
    ensures m.mem[2] == [1, 1]
  {
    LowestAt({0}, 1);
    LowestAt({0, 1}, 2);
    hide LowestFree;
    var m1 := Do(BOOT, Enter(1, 1)).value;
    var m2 := Do(m1, Raise(1, 0, 10, false)).value;
    assert m2.sp == Sp(0, 0) && m2.live == {0, 1} && m2.mem[1] == [1, 1] && m2.res[10] == Multi(Sp(1, 2), 1);
    var m3 := Do(m2, Throw(10, 2)).value;
    assert m3.exchanger[1] == Sp(0, 0) && m3.mem[2] == [1, 1][..2] == [1, 1];
    var m4 := Do(m3, Install(5)).value;
    m := Do(m4, Raise(1, 0, 11, false)).value;
  }

  lemma RecycledBlocksThen(m: Machine)
    requires m.live == {0, 1, 2} && m.sp == Sp(0, 0) && 1 in m.exchanger && m.exchanger[1] == Sp(2, 2)
    requires 11 in m.res && m.res[11] == Multi(Sp(2, 2), 1) && 1 in m.stubs && m.stubs[1] == General(1) && 2 in m.mem
    requires m.mem[2] == [1, 1]
    ensures AllFromPool(m, SECOND_HALF)
  {
    LowestAt({0, 1, 2}, 3);
    LowestAt({0, 1, 3}, 2);
    hide LowestFree;
    var m6 := Do(m, Throw(11, 3)).value;
    assert m6.exchanger[1] == Sp(0, 0) && m6.mem[3] == [1, 1][..2] == [1, 1] && m6.sp == Sp(3, 2);
    var m7 := Do(m6, Raise(1, 0, 12, false)).value;
    assert m7.sp == Sp(0, 0) && m7.res[12] == Multi(Sp(3, 2), 1) && m7.res[11] == Multi(Sp(2, 2), 1);
    var m8 := Do(m7, FinalThrow(11)).value;
    assert m8.sp == Sp(2, 2) && m8.mem[2] == [1, 1] && m8.exchanger[1] == Sp(0, 0) && m8.live == {0, 1, 2, 3};
    assert Words(m8) == Some([1, 1][..2]);
    var m9 := Do(m8, Return).value;
    assert m9.live == {0, 1, 3};
  }

  /** The converse fails: a copy that lands in the block where the handler was installed, which was
      freed in the meantime, is at home there. */
  lemma RecycledCopy()
    ensures var acts := FIRST_HALF + SECOND_HALF;
            && AbleAll(START, acts) && AllFromPool(BOOT, acts)
            && var p := ActAll(START, acts);
               |p.chain| == 2 && Holds(p.chain[0], 5) && p.chain[0].marks[5].copied && AtHome(p.chain[0], 5)
  {
    hide AbleAll, ActAll, AllFromPool, DoAll;
    RecycledFirst();
    RecycledThen(ActAll(START, FIRST_HALF).ks, {MAIN, 1, 5});
    var m := RecycledBlocksFirst();
    RecycledBlocksThen(m);
    JoinRuns(BOOT, START, FIRST_HALF, SECOND_HALF);
  }
}
