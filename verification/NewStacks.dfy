/** A new block on top of the pile: ENTER and THROW. */
module NewStacks {
  import opened Options
  import opened Continuations
  import opened Trampolines
  import opened Switching

  function Added(g: Ground, b: nat, s: Seg): Ground
    requires g.cb != []
  {
    g.(seg := g.seg[b := s], tag := g.tag[b := OnChain], next := g.next[b := g.cb[0]], cb := [b] + g.cb)
  }

  /** Segment s is put into the new block b, and its exchanger takes the current stack pointer. */
  ghost predicate Adds(m: Machine, m': Machine, p: Pile, p': Pile, b: nat, s: Seg)
  {
    && b !in m.live && m'.live == m.live + {b} && m'.sp == Sp(b, Height(s)) && Stores(m', s, b)
    && m'.exchanger == m.exchanger[Header(m'.stubs, s.h) := m.sp] && m'.res == m.res
    && (forall c :: c in m.mem && c != b ==> c in m'.mem && m'.mem[c] == m.mem[c])
    && (forall h :: h in m.stubs ==> h in m'.stubs && m'.stubs[h] == m.stubs[h])
    && s.h != MAIN && p'.chain == [s] + p.chain && p'.ks == p.ks && s.h in p'.alive && p.alive <= p'.alive
  }

  lemma HoldKept(seg: map<nat, Seg>, bs: seq<nat>, segs: seq<Seg>, b: nat, s: Seg)
    requires Hold(seg, bs, segs) && b !in seg
    ensures Hold(seg[b := s], bs, segs) && b !in bs
  {
    assert forall i :: 0 <= i < |bs| ==> bs[i] != b;
  }

  lemma HoldAdd(seg: map<nat, Seg>, bs: seq<nat>, segs: seq<Seg>, b: nat, s: Seg)
    requires Hold(seg, bs, segs) && b !in seg
    ensures Hold(seg[b := s], [b] + bs, [s] + segs)
  {
    forall i | 0 < i < |[b] + bs|
      ensures ([b] + bs)[i] == bs[i - 1] && ([s] + segs)[i] == segs[i - 1]
    {
    }
  }

  lemma AddPlaced(p: Pile, g: Ground, p': Pile, b: nat, s: Seg)
    requires Placed(p, g) && b !in g.seg && p'.chain == [s] + p.chain && p'.ks == p.ks
    ensures Placed(p', Added(g, b, s)) && b !in g.cb && forall k :: k in g.kb ==> b !in g.kb[k]
  {
    hide Hold;
    assert g.cb != [] by { HoldKept(g.seg, g.cb, p.chain, b, s); }
    HoldAdd(g.seg, g.cb, p.chain, b, s);
    HoldKept(g.seg, g.cb, p.chain, b, s);
    forall k | k in p.ks
      ensures Hold(g.seg[b := s], g.kb[k], p.ks[k].segs) && b !in g.kb[k]
    {
      HoldKept(g.seg, g.kb[k], p.ks[k].segs, b, s);
    }
  }

  lemma AddOnePlace(g: Ground, b: nat, s: Seg)
    requires OnePlace(g) && g.cb != [] && b !in g.seg && b !in g.cb && forall k :: k in g.kb ==> b !in g.kb[k]
    ensures OnePlace(Added(g, b, s))
  {
    var g' := Added(g, b, s);
    NoDupAdd(g.cb, b);
    hide NoDup;
    forall c: nat
      ensures OneTag(g', c)
    {
      assert OneTag(g, c);
    }
  }

  lemma NoDupAdd(bs: seq<nat>, b: nat)
    requires NoDup(bs) && b !in bs
    ensures NoDup([b] + bs)
  {
    forall i, j | 0 <= i < j < |[b] + bs|
      ensures ([b] + bs)[i] != ([b] + bs)[j]
    {
      assert ([b] + bs)[j] == bs[j - 1] && (i > 0 ==> ([b] + bs)[i] == bs[i - 1]);
    }
  }

  lemma PathKept(next: map<nat, nat>, bs: seq<nat>, b: nat, c: nat)
    requires Path(next, bs) && b !in bs
    ensures Path(next[b := c], bs)
  {
  }

  lemma PathAdd(next: map<nat, nat>, bs: seq<nat>, b: nat)
    requires Path(next, bs) && b !in bs && bs != []
    ensures Path(next[b := bs[0]], [b] + bs)
  {
    forall i | 0 < i < |[b] + bs|
      ensures ([b] + bs)[i] == bs[i - 1]
    {
    }
  }

  lemma AddLinked(p: Pile, g: Ground, p': Pile, b: nat, s: Seg)
    requires Linked(p, g) && g.tag.Keys == g.seg.Keys && g.cb != [] && b !in g.cb && forall k :: k in g.kb ==>
               b !in g.kb[k]
    requires b !in g.seg && b != MAIN_BLOCK && p'.ks == p.ks && g.cb[0] in g.tag && g.tag[g.cb[0]] == OnChain
    ensures Linked(p', Added(g, b, s))
  {
    var g' := Added(g, b, s);
    PathAdd(g.next, g.cb, b);
    forall k | k in g.kb && k in p.ks && g.kb[k] != []
      ensures Path(g'.next, g.kb[k]) && LastNext(p.ks[k].single, g', g.kb[k])
    {
      PathKept(g.next, g.kb[k], b, g.cb[0]);
      assert g.kb[k][|g.kb[k]| - 1] in g.kb[k];
    }
    hide Path, LastNext;
    forall c | c in g'.next
      ensures NextOk(g', c)
    {
      if c != b {
        assert NextOk(g, c);
      }
    }
  }

  lemma AddUnshared(p: Pile, g: Ground, p': Pile, b: nat, s: Seg)
    requires Unshared(p, g) && g.cb != [] && b !in g.seg && s.h in p'.alive && p.alive <= p'.alive
    requires forall c :: c in g.next && c in g.seg ==> g.seg[c].h != s.h
    ensures Unshared(p', Added(g, b, s))
  {
  }

  lemma AddStored(m: Machine, g: Ground, m': Machine, p: Pile, p': Pile, b: nat, s: Seg)
    requires Stored(m, g) && g.cb != [] && Adds(m, m', p, p', b, s)
    ensures Stored(m', Added(g, b, s))
  {
    forall c | c in g.seg
      ensures c != b && Stores(m', g.seg[c], c)
    {
      assert Stores(m, g.seg[c], c);
    }
  }

  /** A link from block c, seen on its own. */
  lemma LinkEnds(m: Machine, p: Pile, g: Ground, c: nat)
    requires Linked(p, g) && g.tag.Keys == g.seg.Keys && Stored(m, g) && Unshared(p, g) && c in g.next
    ensures c in g.seg && g.next[c] in g.seg && g.next[c] != g.cb[0] && c != MAIN_BLOCK && g.tag[c] == g.tag[g.next[c]]
    ensures g.seg[c].h in m.stubs && g.seg[c].h in p.alive
  {
    hide Path, LastNext;
    assert NextOk(g, c);
    assert Stores(m, g.seg[c], c);
  }

  /** The links use exchangers other than that of s. */
  lemma AddApart(m: Machine, g: Ground, m': Machine, p: Pile, p': Pile, b: nat, s: Seg, c: nat)
    requires g.tag.Keys == g.seg.Keys && Stored(m, g) && Linked(p, g) && Unshared(p, g) && c in g.next
    requires Adds(m, m', p, p', b, s) && Headers(m', p', Added(g, b, s))
    requires c in g.seg ==> g.seg[c].h != s.h
    ensures c in g.seg && g.next[c] in g.seg && c != b && g.next[c] != b
    ensures Header(m'.stubs, g.seg[c].h) == Header(m.stubs, g.seg[c].h) != Header(m'.stubs, s.h)
  {
    assert m.live == g.seg.Keys + g.lost && g.seg.Keys <= m.live;
    LinkEnds(m, p, g, c);
    hide Stores, Linked, Unshared, Stored;
  }

  lemma AddExchanged(m: Machine, g: Ground, m': Machine, p: Pile, p': Pile, b: nat, s: Seg)
    requires Placed(p, g) && OnePlace(g) && Stored(m, g) && Exchanged(m, g) && Linked(p, g) && Unshared(p, g)
    requires Current(m, p, g)
    requires Adds(m, m', p, p', b, s) && Headers(m', p', Added(g, b, s)) && b !in g.seg
    requires forall c :: c in g.next && c in g.seg ==> g.seg[c].h != s.h
    ensures Exchanged(m', Added(g, b, s))
  {
    assert g.cb[0] in g.seg && g.seg[g.cb[0]] == p.chain[0] && g.tag.Keys == g.seg.Keys;
    hide OnePlace, Placed, Exchanged, Stored, Linked, Unshared, Headers, Stores, Adds;
    forall c | c in g.next
      ensures c in g.seg && g.next[c] in g.seg && c != b && g.next[c] != b
      ensures Header(m'.stubs, g.seg[c].h) == Header(m.stubs, g.seg[c].h) != Header(m'.stubs, s.h)
    {
      AddApart(m, g, m', p, p', b, s, c);
    }
    AddExchangedAt(m, g, m', p, p', b, s);
  }

  lemma AddExchangedAt(m: Machine, g: Ground, m': Machine, p: Pile, p': Pile, b: nat, s: Seg)
    requires Exchanged(m, g) && Adds(m, m', p, p', b, s) && b !in g.seg
    requires g.cb != [] && g.cb[0] in g.seg && m.sp == Sp(g.cb[0], Height(g.seg[g.cb[0]]))
    requires forall c :: c in g.next ==>
               c in g.seg && g.next[c] in g.seg && c != b && g.next[c] != b
               && Header(m'.stubs, g.seg[c].h) == Header(m.stubs, g.seg[c].h) != Header(m'.stubs, s.h)
    ensures Exchanged(m', Added(g, b, s))
  {
    hide Stores, Header, Height;
  }

  lemma AddResumable(m: Machine, g: Ground, m': Machine, p: Pile, p': Pile, b: nat, s: Seg)
    requires Placed(p, g) && Stored(m, g) && AllResumable(m, p, g) && g.cb != [] && Adds(m, m', p, p', b, s)
    ensures AllResumable(m', p', Added(g, b, s))
  {
    forall k | k in p.ks
      ensures Resumable(m', k, p.ks[k], g.kb[k])
    {
      assert Resumable(m, k, p.ks[k], g.kb[k]);
      HeldStored(m, p, g, k);
    }
  }

  lemma NewBlock(m: Machine, p: Pile, g: Ground, b: nat)
    requires Implements(m, p, g) && b !in m.live
    ensures b !in g.seg && b != MAIN_BLOCK && g.tag.Keys == g.seg.Keys && g.cb != [] && g.cb[0] in g.tag
    ensures g.tag[g.cb[0]] == OnChain
  {
    hide Unshared, Exchanged, Headers, AllResumable, Current, Stores, NextOk, LastNext, Path;
    assert g.cb[|g.cb| - 1] in g.seg;
    assert g.cb[0] in g.cb && OneTag(g, g.cb[0]);
  }

  lemma AddCurrent(m: Machine, m': Machine, p: Pile, p': Pile, g: Ground, b: nat, s: Seg)
    requires Adds(m, m', p, p', b, s) && g.cb != []
    ensures Current(m', p', Added(g, b, s))
  {
    hide Stores, Header, Height;
  }

  lemma SimAdd(m: Machine, p: Pile, g: Ground, m': Machine, p': Pile, b: nat, s: Seg)
    requires Implements(m, p, g) && Adds(m, m', p, p', b, s) && Headers(m', p', Added(g, b, s))
    requires forall c :: c in g.next && c in g.seg ==> g.seg[c].h != s.h
    ensures Implements(m', p', Added(g, b, s))
  {
    hide Placed, OnePlace, Linked, Unshared, Stored, Exchanged, Headers, AllResumable, Current;
    NewBlock(m, p, g, b);
    AddCurrent(m, m', p, p', g, b, s);
    AddPlaced(p, g, p', b, s);
    AddOnePlace(g, b, s);
    AddLinked(p, g, p', b, s);
    AddUnshared(p, g, p', b, s);
    AddStored(m, g, m', p, p', b, s);
    AddExchanged(m, g, m', p, p', b, s);
    AddResumable(m, g, m', p, p', b, s);
  }

  lemma EnterHeaders(m: Machine, p: Pile, g: Ground, h: nat, b: nat)
    requires Headers(m, p, g) && Stored(m, g) && g.cb != [] && b !in m.live && h !in p.names && p.chain != []
    ensures Headers(DoEnter(m, h, b).value, Entered(p, h, b), Added(g, b, Seg(h, true, b, [], map[])))
  {
    var m', p', g' := DoEnter(m, h, b).value, Entered(p, h, b), Added(g, b, Seg(h, true, b, [], map[]));
    assert h !in p.alive && h != MAIN;
    assert m.live == g.seg.Keys + g.lost && g.seg.Keys <= m.live;
    hide Stored;
    assert forall h' :: h' in p.alive ==> h' != h && Header(m'.stubs, h') == Header(m.stubs, h') != b;
    assert Header(m'.stubs, h) == b;
  }

  lemma EnterAdds(m: Machine, p: Pile, h: nat, b: nat)
    requires h !in m.stubs && h != MAIN && b !in m.live && b != MAIN_BLOCK
    ensures Adds(m, DoEnter(m, h, b).value, p, Entered(p, h, b), b, Seg(h, true, b, [], map[]))
  {
  }

  /** ENTER. */
  lemma SimEnter(m: Machine, p: Pile, g: Ground, h: nat, b: nat) returns (g': Ground)
    requires Implements(m, p, g) && h !in p.names && b !in m.live
    ensures DoEnter(m, h, b).Some? && Implements(DoEnter(m, h, b).value, Entered(p, h, b), g') && g'.lost == g.lost
  {
    StubsNamed(m, p, g);
    MainLive(m, p, g);
    var s := Seg(h, true, b, [], map[]);
    g' := Added(g, b, s);
    EnterHeaders(m, p, g, h, b);
    EnterAdds(m, p, h, b);
    assert forall c :: c in g.next && c in g.seg ==> g.seg[c].h != s.h by {
      hide Placed, OnePlace, Stored, Exchanged, Headers, AllResumable, Current;
      forall c | c in g.next && c in g.seg
        ensures g.seg[c].h in m.stubs
      {
        LinkInStubs(m, p, g, c);
      }
    }
    hide Implements, Headers, Adds;
    SimAdd(m, p, g, DoEnter(m, h, b).value, Entered(p, h, b), b, s);
  }

  lemma MainLive(m: Machine, p: Pile, g: Ground)
    requires Implements(m, p, g)
    ensures MAIN_BLOCK in m.live && g.cb != []
  {
    hide OnePlace, Unshared, Exchanged, Headers, AllResumable, Current;
    assert g.cb[|g.cb| - 1] in g.seg;
  }

  lemma LinkInStubs(m: Machine, p: Pile, g: Ground, c: nat)
    requires Implements(m, p, g) && c in g.next
    ensures c in g.seg && g.seg[c].h in m.stubs
  {
    assert g.tag.Keys == g.seg.Keys;
    hide Placed, OnePlace, Exchanged, Headers, AllResumable, Current;
    LinkEnds(m, p, g, c);
  }

  /** The links are those of the handlers in use. */
  lemma LinkIsUse(m: Machine, p: Pile, g: Ground, c: nat)
    requires Implements(m, p, g) && c in g.next
    ensures c in g.seg && InUse(p, g.seg[c].h)
  {
    LinkInStubs(m, p, g, c);
    assert Placed(p, g) && Linked(p, g);
    hide Unshared, Stored, Exchanged, Headers, AllResumable, Current, InUse, Placed, Linked, NoDup;
    assert c in g.tag && OneTag(g, c);
    hide Implements, OnePlace;
    if g.tag[c] == OnChain {
      ChainLinkIsUse(p, g, c);
    } else {
      HeldLinkIsUse(p, g, g.tag[c].k, c);
    }
  }

  lemma ChainLinkIsUse(p: Pile, g: Ground, c: nat)
    requires Placed(p, g) && Linked(p, g) && c in g.next && c in g.cb
    ensures c in g.seg && InUse(p, g.seg[c].h)
  {
    hide Path, NextOk, LastNext;
    var i :| 0 <= i < |g.cb| && g.cb[i] == c;
    assert p.chain[i].h == g.seg[c].h && i < |p.chain| - 1;
  }

  lemma HeldLinkIsUse(p: Pile, g: Ground, k: nat, c: nat)
    requires Placed(p, g) && Linked(p, g) && c in g.next && k in g.kb && c in g.kb[k]
    ensures c in g.seg && InUse(p, g.seg[c].h)
  {
    hide Path, NextOk;
    assert Hold(g.seg, g.kb[k], p.ks[k].segs) && LastNext(p.ks[k].single, g, g.kb[k]);
    hide Placed, Linked;
    var i :| 0 <= i < |g.kb[k]| && g.kb[k][i] == c;
    assert p.ks[k].segs[i].h == g.seg[c].h;
  }

  /** And every handler in use is that of a link. */
  lemma UseIsLink(p: Pile, g: Ground, h: nat) returns (c: nat)
    requires Placed(p, g) && Linked(p, g) && InUse(p, h)
    ensures c in g.next && c in g.seg && g.seg[c].h == h
  {
    if i :| 0 <= i < |p.chain| - 1 && p.chain[i].h == h {
      hide NextOk, LastNext;
      c := g.cb[i];
    } else {
      var k, i :| k in p.ks && 0 <= i < |p.ks[k].segs| && p.ks[k].segs[i].h == h
          && (i + 1 < |p.ks[k].segs| || p.ks[k].single);
      hide InUse, NextOk;
      c := g.kb[k][i];
      assert Path(g.next, g.kb[k]) && LastNext(p.ks[k].single, g, g.kb[k]) && Hold(g.seg, g.kb[k], p.ks[k].segs);
    }
  }

  /** The segment that a resumption of one block holds, and where. */
  lemma HeldOne(m: Machine, p: Pile, g: Ground, k: nat)
    requires Implements(m, p, g) && k in p.ks && |p.ks[k].segs| == 1 && !p.ks[k].single
    ensures k in g.kb && |g.kb[k]| == 1 && g.kb[k][0] in g.seg && g.seg[g.kb[k][0]] == p.ks[k].segs[0]
    ensures p.ks[k].segs[0].h != MAIN
    ensures var s := p.ks[k].segs[0];
            k in m.res && m.res[k] == Multi(Sp(g.kb[k][0], Height(s)), Header(m.stubs, s.h)) && Stores(m, s, g.kb[k][0])
  {
    hide OnePlace, Linked, Unshared, Exchanged, Headers, Current, Stores;
    assert Resumable(m, k, p.ks[k], g.kb[k]);
  }

  lemma ThrowAdds(m: Machine, p: Pile, k: nat, b: nat, from: nat)
    requires k in p.ks && p.ks[k].segs != [] && b !in m.live && b != MAIN_BLOCK
    requires var s := p.ks[k].segs[0];
             && s.h != MAIN && s.h in p.alive && k in m.res
                 && m.res[k] == Multi(Sp(from, Height(s)), Header(m.stubs, s.h))
             && Stores(m, s, from)
    ensures DoThrow(m, k, b).Some? && DoThrow(m, k, b).value.stubs == m.stubs
    ensures Adds(m, DoThrow(m, k, b).value, p, Thrown(p, k, b), b, Copy(p.ks[k].segs[0], b))
  {
  }

  lemma ThrowHeaders(m: Machine, p: Pile, g: Ground, m': Machine, p': Pile, b: nat, s: Seg)
    requires Headers(m, p, g) && Stored(m, g) && g.cb != [] && b !in m.live
    requires m'.stubs == m.stubs && m'.live == m.live + {b} && p'.names == p.names && p'.alive == p.alive
    ensures Headers(m', p', Added(g, b, s))
  {
  }

  /** A copy is added: only the words of the block and the exchanger have changed. */
  lemma SimCopy(m: Machine, p: Pile, g: Ground, m': Machine, p': Pile, b: nat, s: Seg)
    requires Implements(m, p, g) && Adds(m, m', p, p', b, s) && g.cb != []
    requires m'.stubs == m.stubs && p'.names == p.names && p'.alive == p.alive && !InUse(p, s.h)
    ensures Implements(m', p', Added(g, b, s))
  {
    assert b !in m.live && m'.live == m.live + {b};
    assert Headers(m, p, g) && Stored(m, g);
    hide Implements, Adds, InUse, Headers, Stored;
    forall c | c in g.next && c in g.seg
      ensures g.seg[c].h != s.h
    {
      LinkIsUse(m, p, g, c);
    }
    ThrowHeaders(m, p, g, m', p', b, s);
    SimAdd(m, p, g, m', p', b, s);
  }

  /** THROW, when nothing else depends on the exchanger. */
  lemma SimThrow(m: Machine, p: Pile, g: Ground, k: nat, b: nat) returns (g': Ground)
    requires Implements(m, p, g) && Spliceable(p, k) && !p.ks[k].single && |p.ks[k].segs| == 1 && b !in m.live
    ensures DoThrow(m, k, b).Some? && Implements(DoThrow(m, k, b).value, Thrown(p, k, b), g') && g'.lost == g.lost
  {
    var s := p.ks[k].segs[0];
    assert !InUse(p, s.h) && s.h in p.alive;
    hide Implements, Stores, Adds, InUse, DoThrow, Spliceable, Height, Header;
    MainLive(m, p, g);
    HeldOne(m, p, g, k);
    ThrowAdds(m, p, k, b, g.kb[k][0]);
    g' := Added(g, b, Copy(s, b));
    SimCopy(m, p, g, DoThrow(m, k, b).value, Thrown(p, k, b), b, Copy(s, b));
  }
}
