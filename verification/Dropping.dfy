/** Leaving segments for good: the return of a handled body, and RAISE_ABORT. */
module Dropping {
  import opened Options
  import opened Continuations
  import opened Trampolines
  import opened Switching
  import opened NewStacks
  import opened Exchanges

  function Members(bs: seq<nat>): set<nat>
  {
    set b | b in bs
  }

  /** The pile loses its n top blocks. The first is freed, the others are lost. */
  function Dropped(g: Ground, n: nat): Ground
    requires 0 < n < |g.cb|
  {
    var gone := Members(g.cb[..n]);
    Ground(g.seg - gone, g.tag - gone, g.next - gone, g.cb[n..], g.kb, g.lost + Members(g.cb[1..n]))
  }

  lemma HoldLess(seg: map<nat, Seg>, bs: seq<nat>, segs: seq<Seg>, gone: set<nat>)
    requires Hold(seg, bs, segs) && forall b :: b in bs ==> b !in gone
    ensures Hold(seg - gone, bs, segs)
  {
  }

  lemma DroppedPlaced(p: Pile, g: Ground, p': Pile, n: nat)
    requires Placed(p, g) && OnePlace(g) && 0 < n < |p.chain| && p'.chain == p.chain[n..] && p'.ks == p.ks
    ensures Placed(p', Dropped(g, n))
  {
    var gone := Members(g.cb[..n]);
    assert |g.cb| == |p.chain|;
    HoldSlice(g.seg, g.cb, p.chain, n, |p.chain|);
    assert g.cb[n..|g.cb|] == g.cb[n..] && p.chain[n..|p.chain|] == p.chain[n..];
    SplitMembers(g.cb, n);
    HoldLess(g.seg, g.cb[n..], p.chain[n..], gone);
    forall k | k in p.ks
      ensures Hold(g.seg - gone, g.kb[k], p.ks[k].segs)
    {
      HeldOffChain(g, k);
      HoldLess(g.seg, g.kb[k], p.ks[k].segs, gone);
    }
  }

  lemma DroppedOnePlace(g: Ground, n: nat)
    requires OnePlace(g) && 0 < n < |g.cb|
    ensures OnePlace(Dropped(g, n))
  {
    SplitMembers(g.cb, n);
    hide NoDup;
    var g' := Dropped(g, n);
    forall b: nat
      ensures OneTag(g', b)
    {
      assert OneTag(g, b);
    }
  }

  lemma PathLess(next: map<nat, nat>, bs: seq<nat>, gone: set<nat>)
    requires Path(next, bs) && forall b :: b in bs ==> b !in gone
    ensures Path(next - gone, bs)
  {
  }

  lemma DroppedPaths(p: Pile, g: Ground, n: nat)
    requires Linked(p, g) && OnePlace(g) && 0 < n < |g.cb|
    ensures var g' := Dropped(g, n);
            && Path(g'.next, g'.cb) && g'.cb[|g'.cb| - 1] == MAIN_BLOCK && MAIN_BLOCK !in g'.next
            && forall k' :: k' in g'.kb && k' in p.ks && g'.kb[k'] != [] ==>
                 Path(g'.next, g'.kb[k']) && LastNext(p.ks[k'].single, g', g'.kb[k'])
  {
    var g' := Dropped(g, n);
    var gone := Members(g.cb[..n]);
    PathSlice(g.next, g.cb, n, |g.cb|);
    assert g.cb[n..|g.cb|] == g.cb[n..];
    SplitMembers(g.cb, n);
    PathLess(g.next, g.cb[n..], gone);
    forall k' | k' in g'.kb && k' in p.ks && g'.kb[k'] != []
      ensures Path(g'.next, g'.kb[k']) && LastNext(p.ks[k'].single, g', g'.kb[k'])
    {
      HeldOffChain(g, k');
      PathLess(g.next, g.kb[k'], gone);
      assert g.kb[k'][|g.kb[k']| - 1] in g.kb[k'];
    }
  }

  lemma DroppedNext(p: Pile, g: Ground, n: nat, c: nat)
    requires Linked(p, g) && OnePlace(g) && 0 < n < |g.cb| && c in Dropped(g, n).next
    ensures NextOk(Dropped(g, n), c)
  {
    SplitMembers(g.cb, n);
    assert NextOk(g, c) && OneTag(g, c) && OneTag(g, g.next[c]) && OneTag(g, g.cb[n]) && g.cb[n] in g.cb;
    if c in g.cb {
      assert c in g.cb[n..];
      var j :| n <= j < |g.cb| && g.cb[j] == c;
      assert g.next[c] == g.cb[j + 1] && g.cb[n..][j + 1 - n] == g.cb[j + 1];
    }
  }

  lemma DroppedLinked(p: Pile, g: Ground, p': Pile, n: nat)
    requires Linked(p, g) && OnePlace(g) && 0 < n < |g.cb| && p'.ks == p.ks
    ensures Linked(p', Dropped(g, n))
  {
    DroppedPaths(p, g, n);
    hide Linked, OnePlace, Path, LastNext, NextOk;
    var g' := Dropped(g, n);
    forall c | c in g'.next
      ensures NextOk(g', c)
    {
      DroppedNext(p, g, n, c);
    }
    UnfoldLinked(p', g');
  }

  /** The header that is freed with the top block serves no remaining link. */
  lemma DroppedUnshared(p: Pile, g: Ground, p': Pile, n: nat)
    requires Placed(p, g) && Linked(p, g) && OnePlace(g) && Unshared(p, g) && 0 < n < |p.chain|
    requires p'.alive == Freed(p.alive, p.chain[0])
    ensures Unshared(p', Dropped(g, n))
  {
    var g', top := Dropped(g, n), g.cb[0];
    assert top in g.cb[..n] && top in g.next && top in g.seg && g.seg[top] == p.chain[0];
    hide Placed, Linked, OnePlace;
  }

  ghost predicate Drops(m: Machine, m': Machine, p: Pile, p': Pile, n: nat)
  {
    && 0 < n < |p.chain| && p' == Left(p, n)
    && m'.mem == m.mem && m'.exchanger == m.exchanger && m'.stubs == m.stubs && m'.res == m.res
        && m'.live == m.live - {m.sp.block}
  }

  lemma DroppedStored(m: Machine, p: Pile, g: Ground, m': Machine, p': Pile, n: nat)
    requires Placed(p, g) && NoDup(g.cb) && Stored(m, g) && Current(m, p, g) && Drops(m, m', p, p', n)
    ensures Stored(m', Dropped(g, n))
  {
    var g' := Dropped(g, n);
    assert g.cb[..n] == [g.cb[0]] + g.cb[1..n];
    assert forall b :: b in g.cb ==> b in g.seg;
    forall b | b in g'.seg
      ensures Stores(m', g'.seg[b], b)
    {
      assert Stores(m, g.seg[b], b);
    }
    hide Stores, Placed;
    assert g.cb[0] !in g.cb[1..n];
    assert m'.live == g'.seg.Keys + g'.lost;
  }

  lemma DroppedHeaders(m: Machine, p: Pile, g: Ground, m': Machine, p': Pile, n: nat)
    requires Placed(p, g) && Headers(m, p, g) && Current(m, p, g) && Drops(m, m', p, p', n)
    ensures Headers(m', p', Dropped(g, n))
  {
    assert g.cb[0] in g.seg && g.seg[g.cb[0]] == p.chain[0];
    hide Placed;
    forall h | h in p'.alive
      ensures Header(m.stubs, h) != g.cb[0]
    {
    }
  }

  lemma DroppedExchanged(m: Machine, p: Pile, g: Ground, m': Machine, p': Pile, n: nat)
    requires Exchanged(m, g) && |g.cb| == |p.chain| && Drops(m, m', p, p', n)
    ensures Exchanged(m', Dropped(g, n))
  {
  }

  lemma DroppedResumable(m: Machine, p: Pile, g: Ground, m': Machine, p': Pile, n: nat)
    requires AllResumable(m, p, g) && |g.cb| == |p.chain| && Drops(m, m', p, p', n)
    ensures AllResumable(m', p', Dropped(g, n))
  {
    forall k | k in p.ks && k in g.kb
      ensures Resumable(m', k, p.ks[k], g.kb[k])
    {
      assert Resumable(m, k, p.ks[k], g.kb[k]);
    }
  }

  lemma SimDrop(m: Machine, p: Pile, g: Ground, m': Machine, p': Pile, n: nat)
    requires Implements(m, p, g) && Drops(m, m', p, p', n) && |g.cb| == |p.chain|
    requires m'.sp == Sp(g.cb[n], Height(p.chain[n]))
    ensures Implements(m', p', Dropped(g, n))
  {
    assert OnePlace(g) && NoDup(g.cb);
    assert Current(m', p', Dropped(g, n)) by {
      hide Implements, OnePlace, Height;
    }
    hide Placed, OnePlace, Linked, Unshared, Stored, Exchanged, Headers, AllResumable, Current, Dropped, NoDup;
    DroppedPlaced(p, g, p', n);
    DroppedOnePlace(g, n);
    DroppedLinked(p, g, p', n);
    DroppedUnshared(p, g, p', n);
    DroppedStored(m, p, g, m', p', n);
    DroppedHeaders(m, p, g, m', p', n);
    DroppedExchanged(m, p, g, m', p', n);
    DroppedResumable(m, p, g, m', p', n);
  }

  lemma {:induction false} MembersCount(bs: seq<nat>)
    requires NoDup(bs)
    ensures |Members(bs)| == |bs|
  {
    if bs != [] {
      var n := |bs| - 1;
      SplitMembers(bs, n);
      MembersCount(bs[..n]);
      assert bs[n] in bs[n..] && Members(bs) == Members(bs[..n]) + {bs[n]};
    }
  }

  lemma BetweenBlocks(p: Pile, seg: map<nat, Seg>, cb: seq<nat>, lost: set<nat>, n: nat)
    requires Hold(seg, cb, p.chain) && NoDup(cb) && seg.Keys !! lost && 0 < n < |cb|
    ensures NoDup(cb[1..n]) && Members(cb[1..n]) !! lost
  {
    forall b | b in cb[1..n]
      ensures b !in lost
    {
      var i :| 0 <= i < n - 1 && cb[1..n][i] == b;
      assert cb[i + 1] in seg;
    }
  }

  lemma DroppedLost(m: Machine, p: Pile, g: Ground, n: nat)
    requires Implements(m, p, g) && 0 < n < |g.cb|
    ensures |Dropped(g, n).lost| == |g.lost| + n - 1
  {
    assert Placed(p, g) && OnePlace(g) && Stored(m, g);
    hide Implements, NoDup, Hold, Stores, OneTag;
    BetweenBlocks(p, g.seg, g.cb, g.lost, n);
    MembersCount(g.cb[1..n]);
  }

  /** Where a segment of the pile is. */
  lemma BlockOf(m: Machine, p: Pile, g: Ground, i: nat)
    requires Implements(m, p, g) && i < |p.chain|
    ensures |g.cb| == |p.chain| && g.cb[i] in g.seg && g.seg[g.cb[i]] == p.chain[i] && Stores(m, p.chain[i], g.cb[i])
    ensures i > 0 ==> g.cb[i] != g.cb[0] && g.cb[0] != MAIN_BLOCK
  {
    assert Stores(m, g.seg[g.cb[i]], g.cb[i]);
    if i > 0 {
      assert g.cb[0] in g.next;
    }
    hide Unshared, Exchanged, Headers, AllResumable;
  }

  lemma ReturnRuns(m: Machine, s: Seg, b: nat)
    requires m.sp == Sp(b, Height(s)) && Stores(m, s, b) && s.frames == [] && s.h != MAIN
    requires Header(m.stubs, s.h) in m.exchanger
    ensures DoReturn(m) == Some(m.(live := m.live - {b}, sp := m.exchanger[Header(m.stubs, s.h)]))
  {
    hide Header;
    assert Words(m).value == Content(m.stubs, s) == [Header(m.stubs, s.h), Header(m.stubs, s.h)];
  }

  /** The return of a body: its stack is freed and control goes to whoever entered or resumed it. */
  lemma SimReturn(m: Machine, p: Pile, g: Ground) returns (g': Ground)
    requires Implements(m, p, g) && |p.chain| > 1 && p.chain[0].frames == []
    ensures DoReturn(m).Some? && Implements(DoReturn(m).value, Left(p, 1), g') && |g'.lost| == |g.lost|
  {
    hide Implements, Stores, Header, Height;
    CurrentWords(m, p, g);
    HandlerBlock(m, p, g, 0);
    HeaderOf(m.stubs, p.chain[0].h);
    ReturnRuns(m, p.chain[0], g.cb[0]);
    g' := Dropped(g, 1);
    DroppedLost(m, p, g, 1);
    hide DoReturn, Dropped;
    SimDrop(m, p, g, DoReturn(m).value, Left(p, 1), 1);
  }

  /** RAISE_ABORT to a general handler. */
  lemma SimAbortGeneral(m: Machine, p: Pile, g: Ground, h: nat, i: nat) returns (g': Ground)
    requires Implements(m, p, g) && i + 1 < |p.chain| && p.chain[i].h == h
    ensures DoAbort(m, h).Some? && Implements(DoAbort(m, h).value, Left(p, i + 1), g') && |g'.lost| == |g.lost| + i
  {
    hide Implements, Stores, Height;
    CurrentWords(m, p, g);
    HandlerBlock(m, p, g, i);
    BlockOf(m, p, g, i + 1);
    g' := Dropped(g, i + 1);
    DroppedLost(m, p, g, i + 1);
    hide Dropped;
    SimDrop(m, p, g, DoAbort(m, h).value, Left(p, i + 1), i + 1);
  }

  lemma InFrameTarget(m: Machine, p: Pile, g: Ground, h: nat, i: nat)
    requires Implements(m, p, g) && i < |p.chain| && h in p.chain[i].marks
    ensures |g.cb| == |p.chain| && g.cb[i] == p.chain[i].at
    ensures Target(m, h) == Some(Sp(p.chain[i].marks[h].at, Base(p.chain[i]) + p.chain[i].marks[h].height))
  {
    hide Implements;
    BlockOf(m, p, g, i);
  }

  lemma CutHeight(s: Seg, n: nat)
    requires n <= |s.frames|
    ensures Height(Cut(s, n)) == Base(s) + n
  {
  }

  /** RAISE_ABORT to an abort handler in a frame of the current stack. */
  lemma SimAbortHere(m: Machine, p: Pile, g: Ground, h: nat) returns (g': Ground)
    requires Implements(m, p, g) && p.chain != [] && Holds(p.chain[0], h) && AtHome(p.chain[0], h)
    ensures DoAbort(m, h).Some? && g'.lost == g.lost
    ensures Implements(DoAbort(m, h).value, SetTop(p, Cut(p.chain[0], p.chain[0].marks[h].height)), g')
  {
    hide Implements, Stores, Target, Base, SetTop, Cut, Height;
    CurrentWords(m, p, g);
    InFrameTarget(m, p, g, h, 0);
    CutHeight(p.chain[0], p.chain[0].marks[h].height);
    g' := SimCut(m, p, g, p.chain[0].marks[h].height);
  }

  /** RAISE_ABORT to an abort handler in a frame further down: the stacks in between are dropped,
      then the frame's segment is cut back. */
  lemma SimAbortBelow(m: Machine, p: Pile, g: Ground, h: nat, i: nat) returns (g': Ground)
    requires Implements(m, p, g) && 0 < i < |p.chain| && Holds(p.chain[i], h) && AtHome(p.chain[i], h)
    ensures DoAbort(m, h).Some? && |g'.lost| == |g.lost| + i - 1
    ensures Implements(DoAbort(m, h).value, SetTop(Left(p, i), Cut(p.chain[i], p.chain[i].marks[h].height)), g')
  {
    hide Implements, Stores, Target, Base, SetTop, Cut, Height;
    CurrentWords(m, p, g);
    BlockOf(m, p, g, i);
    InFrameTarget(m, p, g, h, i);
    CutHeight(p.chain[i], p.chain[i].marks[h].height);
    DroppedLost(m, p, g, i);
    hide Dropped;
    var m1 := m.(live := m.live - {m.sp.block}, sp := Sp(g.cb[i], Height(p.chain[i])));
    SimDrop(m, p, g, m1, Left(p, i), i);
    g' := SimCut(m1, Left(p, i), Dropped(g, i), p.chain[i].marks[h].height);
  }

  // ----- a resumption that is never used again -----

  /** The stacks of resumption k are out of reach, and stay allocated. */
  function Abandoned(g: Ground, k: nat): Ground
    requires k in g.kb
  {
    var gone := Members(g.kb[k]);
    Ground(g.seg - gone, g.tag - gone, g.next - gone, g.cb, g.kb - {k}, g.lost + gone)
  }

  lemma AbandonedPlaced(p: Pile, g: Ground, k: nat)
    requires Placed(p, g) && OnePlace(g) && k in p.ks
    ensures Placed(Forgotten(p, k), Abandoned(g, k))
  {
    HeldOffChain(g, k);
    var gone := Members(g.kb[k]);
    HoldLess(g.seg, g.cb, p.chain, gone);
    forall k' | k' in p.ks && k' != k
      ensures Hold(g.seg - gone, g.kb[k'], p.ks[k'].segs)
    {
      HoldLess(g.seg, g.kb[k'], p.ks[k'].segs, gone);
    }
  }

  lemma AbandonedOnePlace(g: Ground, k: nat)
    requires OnePlace(g) && k in g.kb
    ensures OnePlace(Abandoned(g, k))
  {
    hide NoDup;
    var g' := Abandoned(g, k);
    forall b: nat
      ensures OneTag(g', b)
    {
      assert OneTag(g, b);
    }
  }

  lemma AbandonedLinked(p: Pile, g: Ground, k: nat)
    requires Linked(p, g) && OnePlace(g) && k in g.kb
    ensures Linked(Forgotten(p, k), Abandoned(g, k))
  {
    var g', gone := Abandoned(g, k), Members(g.kb[k]);
    HeldOffChain(g, k);
    PathLess(g.next, g.cb, gone);
    forall k' | k' in g'.kb && k' in Forgotten(p, k).ks && g'.kb[k'] != []
      ensures Path(g'.next, g'.kb[k']) && LastNext(p.ks[k'].single, g', g'.kb[k'])
    {
      assert Path(g.next, g.kb[k']) && LastNext(p.ks[k'].single, g, g.kb[k']);
      PathLess(g.next, g.kb[k'], gone);
      assert g.kb[k'][|g.kb[k']| - 1] in g.kb[k'];
    }
    hide Path, LastNext;
    forall c | c in g'.next
      ensures NextOk(g', c)
    {
      assert NextOk(g, c) && OneTag(g, c) && OneTag(g, g.next[c]);
    }
  }

  lemma AbandonedRest(m: Machine, p: Pile, g: Ground, k: nat)
    requires Placed(p, g) && Stored(m, g) && Exchanged(m, g) && Headers(m, p, g) && AllResumable(m, p, g)
    requires Current(m, p, g) && Unshared(p, g)
    requires k in p.ks && k in g.kb
    ensures var p', g' := Forgotten(p, k), Abandoned(g, k);
            Stored(m, g') && Exchanged(m, g') && Headers(m, p', g') && AllResumable(m, p', g') && Current(m, p', g')
                && Unshared(p', g')
  {
    hide Stores, Resumable;
    var gone := Members(g.kb[k]);
    forall b | b in gone
      ensures b in g.seg
    {
      assert Hold(g.seg, g.kb[k], p.ks[k].segs);
      var i :| 0 <= i < |g.kb[k]| && g.kb[k][i] == b;
    }
    assert m.live == Abandoned(g, k).seg.Keys + Abandoned(g, k).lost;
  }

  /** The blocks of a resumption were not lost before. */
  lemma HeldNotLost(m: Machine, p: Pile, g: Ground, k: nat)
    requires Placed(p, g) && Stored(m, g) && k in p.ks && k in g.kb
    ensures Members(g.kb[k]) !! g.lost && |g.kb[k]| == |p.ks[k].segs|
  {
    hide Stores;
    assert Hold(g.seg, g.kb[k], p.ks[k].segs);
    hide Placed;
    forall b | b in g.kb[k]
      ensures b !in g.lost
    {
      var i :| 0 <= i < |g.kb[k]| && g.kb[k][i] == b;
      assert g.kb[k][i] in g.seg;
    }
  }

  lemma AbandonedLost(m: Machine, p: Pile, g: Ground, k: nat)
    requires Implements(m, p, g) && k in p.ks
    ensures k in g.kb && |Abandoned(g, k).lost| == |g.lost| + |p.ks[k].segs|
  {
    Shape(m, p, g);
    assert OnePlace(g) && NoDup(g.kb[k]);
    assert Placed(p, g) && Stored(m, g);
    hide Implements, NoDup, Placed, Stored, OnePlace;
    HeldNotLost(m, p, g, k);
    MembersCount(g.kb[k]);
  }

  /** The program forgets a resumption: nothing happens in the runtime. */
  lemma SimForget(m: Machine, p: Pile, g: Ground, k: nat) returns (g': Ground)
    requires Implements(m, p, g) && k in p.ks
    ensures Implements(m, Forgotten(p, k), g') && |g'.lost| == |g.lost| + |p.ks[k].segs|
  {
    hide Stored, Headers, Linked, OnePlace, Placed, Exchanged, AllResumable, Current, Unshared;
    Shape(m, p, g);
    g' := Abandoned(g, k);
    AbandonedPlaced(p, g, k);
    AbandonedOnePlace(g, k);
    AbandonedLinked(p, g, k);
    AbandonedRest(m, p, g, k);
    AbandonedLost(m, p, g, k);
  }
}
