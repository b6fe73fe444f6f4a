/** Cutting the pile at a handler and splicing a resumption back in: RAISE, RAISE_M, FINAL_THROW. */
module Exchanges {
  import opened Options
  import opened Continuations
  import opened Trampolines
  import opened Switching
  import opened NewStacks

  lemma HoldSlice(seg: map<nat, Seg>, bs: seq<nat>, segs: seq<Seg>, i: nat, j: nat)
    requires Hold(seg, bs, segs) && i < j <= |bs|
    ensures Hold(seg, bs[i..j], segs[i..j])
  {
  }

  lemma PathSlice(next: map<nat, nat>, bs: seq<nat>, i: nat, j: nat)
    requires Path(next, bs) && i <= j <= |bs|
    ensures Path(next, bs[i..j])
  {
    forall n | 0 <= n < |bs[i..j]| - 1
      ensures bs[i..j][n] in next && next[bs[i..j][n]] == bs[i..j][n + 1]
    {
      assert bs[i..j][n] == bs[i + n] && bs[i..j][n + 1] == bs[i + n + 1];
    }
  }

  /** Only the exchanger of block t changes; it takes the current stack pointer. */
  lemma ExchangedBut(m: Machine, m': Machine, p: Pile, g: Ground, g': Ground, t: nat)
    requires Exchanged(m, g) && Headers(m, p, g) && Current(m, p, g) && Placed(p, g)
    requires t in g.seg && g.seg[t].h in p.alive && g'.seg == g.seg && m'.stubs == m.stubs
    requires m'.exchanger == m.exchanger[Header(m.stubs, g.seg[t].h) := m.sp]
    requires t in g'.next ==> g'.next[t] == g.cb[0]
    requires forall c :: c in g'.next && c != t ==> c in g.next && g'.next[c] == g.next[c]
    requires forall c :: c in g.next && c != t ==> c in g.seg && g.seg[c].h != g.seg[t].h && g.seg[c].h in p.alive
    ensures Exchanged(m', g')
  {
    assert g.cb[0] in g.seg && g.seg[g.cb[0]] == p.chain[0];
    hide Placed;
    forall c | c in g.next && c != t
      ensures Header(m.stubs, g.seg[c].h) != Header(m.stubs, g.seg[t].h)
    {
    }
    hide Headers, Header;
  }

  function Upper(g: Ground, i: nat): seq<nat>
    requires i < |g.cb|
  {
    g.cb[..i + 1]
  }

  function Captured(g: Ground, i: nat, k: nat, single: bool): Ground
    requires i + 1 < |g.cb|
  {
    Ground(g.seg, map c | c in g.tag :: if c in Upper(g, i) then In(k) else g.tag[c],
           if single then g.next[g.cb[i] := g.cb[0]] else g.next - {g.cb[i]}, g.cb[i + 1..], g.kb[k := Upper(g, i)],
               g.lost)
  }

  lemma CapturedPlaced(p: Pile, g: Ground, p': Pile, i: nat, k: nat, single: bool)
    requires Placed(p, g) && i + 1 < |p.chain| && k !in p.ks
    requires p'.chain == p.chain[i + 1..] && p'.ks == p.ks[k := Held(p.chain[..i + 1], single)]
    ensures Placed(p', Captured(g, i, k, single))
  {
    assert |g.cb| == |p.chain|;
    HoldSlice(g.seg, g.cb, p.chain, 0, i + 1);
    HoldSlice(g.seg, g.cb, p.chain, i + 1, |p.chain|);
    hide Hold;
    assert g.cb[i + 1..|g.cb|] == g.cb[i + 1..] && p.chain[i + 1..|p.chain|] == p.chain[i + 1..];
    assert g.cb[0..i + 1] == Upper(g, i) && p.chain[0..i + 1] == p.chain[..i + 1];
  }

  lemma SplitMembers(bs: seq<nat>, i: nat)
    requires NoDup(bs) && i <= |bs|
    ensures NoDup(bs[..i]) && NoDup(bs[i..])
    ensures forall c :: c in bs <==> c in bs[..i] || c in bs[i..]
    ensures forall c :: c in bs[..i] ==> c !in bs[i..]
  {
    assert bs == bs[..i] + bs[i..];
  }

  lemma CapturedOnePlace(g: Ground, i: nat, k: nat, single: bool)
    requires OnePlace(g) && i + 1 < |g.cb| && k !in g.kb
    ensures OnePlace(Captured(g, i, k, single))
  {
    SplitMembers(g.cb, i + 1);
    hide NoDup;
    var g' := Captured(g, i, k, single);
    assert g'.tag.Keys == g.tag.Keys;
    forall b: nat
      ensures OneTag(g', b)
    {
      assert OneTag(g, b);
    }
  }

  lemma CapturedPaths(p: Pile, g: Ground, p': Pile, i: nat, k: nat, single: bool)
    requires Linked(p, g) && NoDup(g.cb) && i + 1 < |g.cb| && g.kb.Keys == p.ks.Keys && k !in p.ks
    requires forall k', b :: k' in g.kb && b in g.kb[k'] ==> b !in g.cb
    requires p'.ks.Keys == p.ks.Keys + {k} && p'.ks[k].single == single && forall k' :: k' in p.ks ==>
               p'.ks[k'] == p.ks[k']
    ensures var g' := Captured(g, i, k, single);
            && Path(g'.next, g'.cb) && g'.cb[|g'.cb| - 1] == MAIN_BLOCK && MAIN_BLOCK !in g'.next
            && forall k' :: k' in g'.kb && k' in p'.ks && g'.kb[k'] != [] ==>
                 Path(g'.next, g'.kb[k']) && LastNext(p'.ks[k'].single, g', g'.kb[k'])
  {
    var g', t := Captured(g, i, k, single), g.cb[i];
    PathSlice(g.next, g.cb, 0, i + 1);
    PathSlice(g.next, g.cb, i + 1, |g.cb|);
    assert g.cb[i + 1..|g.cb|] == g.cb[i + 1..] && g.cb[0..i + 1] == Upper(g, i);
    forall k' | k' in g.kb && g.kb[k'] != []
      ensures Path(g'.next, g'.kb[k']) && LastNext(p'.ks[k'].single, g', g'.kb[k'])
    {
      assert Path(g.next, g.kb[k']) && LastNext(p.ks[k'].single, g, g.kb[k']);
      assert t in g.cb && t !in g.kb[k'];
      assert forall j :: 0 <= j < |g.kb[k']| ==> g.kb[k'][j] in g.kb[k'];
    }
  }

  lemma CapturedNext(p: Pile, g: Ground, i: nat, k: nat, single: bool, c: nat)
    requires Linked(p, g) && OnePlace(g) && i + 1 < |g.cb| && k !in g.kb
    requires c in Captured(g, i, k, single).next
    ensures NextOk(Captured(g, i, k, single), c)
  {
    var g' := Captured(g, i, k, single);
    if c == g.cb[i] {
      assert g.cb[0] in Upper(g, i) && g.cb[i] in Upper(g, i);
      assert OneTag(g, c) && OneTag(g, g.cb[0]);
    } else {
      assert NextOk(g, c) && OneTag(g, c);
      if c in g.cb {
        var j :| 0 <= j < |g.cb| && g.cb[j] == c;
        assert g.next[c] == g.cb[j + 1];
        SplitMembers(g.cb, i + 1);
        if j < i {
          assert Upper(g, i)[j] == c && Upper(g, i)[j + 1] == g.next[c];
        } else {
          assert g.cb[i + 1..][j - i - 1] == c && g.cb[i + 1..][j - i] == g.next[c];
        }
      } else {
        assert OneTag(g, g.next[c]) && OneTag(g, g.cb[i + 1]);
      }
    }
  }

  lemma CapturedLinked(p: Pile, g: Ground, p': Pile, i: nat, k: nat, single: bool)
    requires Linked(p, g) && OnePlace(g) && i + 1 < |g.cb| && g.kb.Keys == p.ks.Keys && k !in p.ks
    requires p'.ks.Keys == p.ks.Keys + {k} && p'.ks[k].single == single && forall k' :: k' in p.ks ==>
               p'.ks[k'] == p.ks[k']
    ensures Linked(p', Captured(g, i, k, single))
  {
    forall k', b | k' in g.kb && b in g.kb[k']
      ensures b !in g.cb
    {
      assert OneTag(g, b);
    }
    CapturedPaths(p, g, p', i, k, single);
    hide Linked, OnePlace, Path, LastNext, NextOk;
    var g' := Captured(g, i, k, single);
    forall c | c in g'.next
      ensures NextOk(g', c)
    {
      CapturedNext(p, g, i, k, single, c);
    }
    UnfoldLinked(p', g');
  }

  lemma UnfoldLinked(p: Pile, g: Ground)
    requires Path(g.next, g.cb) && g.cb != [] && g.cb[|g.cb| - 1] == MAIN_BLOCK && MAIN_BLOCK !in g.next
    requires forall k :: k in g.kb && k in p.ks && g.kb[k] != [] ==>
               Path(g.next, g.kb[k]) && LastNext(p.ks[k].single, g, g.kb[k])
    requires forall b :: b in g.next ==> NextOk(g, b)
    ensures Linked(p, g)
  {
    hide Path, LastNext, NextOk;
  }

  /** The block of the handler, as its raise finds it. */
  lemma HandlerBlock(m: Machine, p: Pile, g: Ground, i: nat)
    requires Implements(m, p, g) && i + 1 < |p.chain|
    ensures |g.cb| == |p.chain| && g.cb[i] in g.seg && g.seg[g.cb[i]] == p.chain[i] && g.cb[i] in g.next
    ensures g.cb[i + 1] in g.seg && g.seg[g.cb[i + 1]] == p.chain[i + 1] && p.chain[i].h in p.alive
    ensures p.chain[i].h != MAIN
    ensures p.chain[i].h in m.stubs && m.stubs[p.chain[i].h].General?
    ensures var x := m.stubs[p.chain[i].h].header;
            x in m.exchanger && m.exchanger[x] == Sp(g.cb[i + 1], Height(p.chain[i + 1]))
  {
    assert g.cb[i] in g.next && g.next[g.cb[i]] == g.cb[i + 1];
    assert g.tag.Keys == g.seg.Keys;
    assert Stores(m, g.seg[g.cb[i]], g.cb[i]);
    hide OnePlace, Headers, AllResumable, Current;
    LinkEnds(m, p, g, g.cb[i]);
  }

  lemma CapturedResumable(m: Machine, p: Pile, g: Ground, m': Machine, p': Pile, i: nat, k: nat, single: bool)
    requires Placed(p, g) && AllResumable(m, p, g) && Current(m, p, g) && i + 1 < |p.chain| && k !in p.ks
    requires p.chain[i].h != MAIN
    requires m'.stubs == m.stubs && p'.ks == p.ks[k := Held(p.chain[..i + 1], single)]
    requires var x := Header(m.stubs, p.chain[i].h); m'.res == m.res[k := if single then Single(x) else Multi(m.sp, x)]
    ensures AllResumable(m', p', Captured(g, i, k, single))
  {
    var g' := Captured(g, i, k, single);
    assert Resumable(m', k, p'.ks[k], g'.kb[k]);
    forall k' | k' in p.ks
      ensures Resumable(m', k', p'.ks[k'], g'.kb[k'])
    {
      assert Resumable(m, k', p.ks[k'], g.kb[k']);
    }
  }

  lemma CapturedExchanged(m: Machine, p: Pile, g: Ground, m': Machine, i: nat, k: nat, single: bool)
    requires Placed(p, g) && g.tag.Keys == g.seg.Keys && Linked(p, g) && Unshared(p, g) && Stored(m, g)
    requires Exchanged(m, g) && Headers(m, p, g) && Current(m, p, g)
    requires i + 1 < |p.chain| && g.cb[i] in g.next && g.cb[i] in g.seg && g.seg[g.cb[i]] == p.chain[i]
    requires p.chain[i].h in p.alive
    requires m'.stubs == m.stubs && m'.exchanger == m.exchanger[Header(m.stubs, p.chain[i].h) := m.sp]
    ensures Exchanged(m', Captured(g, i, k, single))
  {
    var g' := Captured(g, i, k, single);
    forall c | c in g.next && c != g.cb[i]
      ensures c in g.seg && g.seg[c].h != p.chain[i].h && g.seg[c].h in p.alive
    {
      LinkEnds(m, p, g, c);
    }
    assert |g.cb| == |p.chain|;
    hide Placed, Linked, Unshared, Stored, Exchanged, Headers, Current;
    ExchangedBut(m, m', p, g, g', g.cb[i]);
  }

  /** An exchange leaves the blocks, what they hold and the headers alone. */
  ghost predicate SameStacks(m: Machine, m': Machine, p: Pile, p': Pile, g: Ground, g': Ground)
  {
    && m'.mem == m.mem && m'.live == m.live && m'.stubs == m.stubs && p'.names == p.names && p'.alive == p.alive
    && g'.seg == g.seg && g'.lost == g.lost
  }

  lemma StacksKept(m: Machine, m': Machine, p: Pile, p': Pile, g: Ground, g': Ground)
    requires Stored(m, g) && Headers(m, p, g) && SameStacks(m, m', p, p', g, g')
    ensures Stored(m', g') && Headers(m', p', g')
  {
    assert forall b :: b in g.seg ==> Stores(m, g.seg[b], b) ==> Stores(m', g.seg[b], b);
  }

  lemma RaiseRuns(m: Machine, p: Pile, g: Ground, h: nat, i: nat, k: nat, single: bool)
    requires Implements(m, p, g) && i + 1 < |p.chain| && p.chain[i].h == h
    ensures DoRaise(m, h, k, single).Some?
    ensures var m', p', g' := DoRaise(m, h, k, single).value, Raised(p, i, k, single), Captured(g, i, k, single);
            SameStacks(m, m', p, p', g, g') && Current(m', p', g')
  {
    hide Implements, Height;
    HandlerBlock(m, p, g, i);
    assert Captured(g, i, k, single).cb[0] == g.cb[i + 1];
  }

  /** RAISE and RAISE_M: the pile above the handler becomes the resumption. */
  lemma SimRaise(m: Machine, p: Pile, g: Ground, h: nat, i: nat, k: nat, single: bool) returns (g': Ground)
    requires Implements(m, p, g) && i + 1 < |p.chain| && p.chain[i].h == h && k !in p.ks
    ensures DoRaise(m, h, k, single).Some?
    ensures Implements(DoRaise(m, h, k, single).value, Raised(p, i, k, single), g') && g'.lost == g.lost
  {
    hide Implements, SameStacks, Current;
    HandlerBlock(m, p, g, i);
    RaiseRuns(m, p, g, h, i, k, single);
    g' := Captured(g, i, k, single);
    HeaderOf(m.stubs, h);
    hide Captured, Header;
    CapturedAll(m, p, g, DoRaise(m, h, k, single).value, Raised(p, i, k, single), g', i, k, single);
  }

  lemma HeaderOf(stubs: map<nat, Stub>, h: nat)
    requires h in stubs && stubs[h].General?
    ensures Header(stubs, h) == stubs[h].header
  {
  }

  lemma CapturedUnshared(p: Pile, g: Ground, p': Pile, i: nat, k: nat, single: bool)
    requires Unshared(p, g) && i + 1 < |g.cb| && g.cb[i] in g.next && p'.alive == p.alive
    ensures Unshared(p', Captured(g, i, k, single))
  {
  }

  lemma CapturedAll(m: Machine, p: Pile, g: Ground, m': Machine, p': Pile, g': Ground, i: nat, k: nat, single: bool)
    requires Implements(m, p, g) && i + 1 < |p.chain| && |g.cb| == |p.chain| && g' == Captured(g, i, k, single)
    requires Current(m', p', g')
    requires g.cb[i] in g.next && g.cb[i] in g.seg && g.seg[g.cb[i]] == p.chain[i] && p.chain[i].h in p.alive
    requires p.chain[i].h != MAIN
    requires k !in p.ks && p'.chain == p.chain[i + 1..] && p'.ks == p.ks[k := Held(p.chain[..i + 1], single)]
    requires SameStacks(m, m', p, p', g, g') && m'.exchanger == m.exchanger[Header(m.stubs, p.chain[i].h) := m.sp]
    requires var x := Header(m.stubs, p.chain[i].h); m'.res == m.res[k := if single then Single(x) else Multi(m.sp, x)]
    ensures Implements(m', p', g')
  {
    hide Stored, Headers, Linked, OnePlace, Placed, Exchanged, AllResumable, Current, Unshared, Captured, Header;
    Shape(m, p, g);
    StacksKept(m, m', p, p', g, g');
    CapturedPlaced(p, g, p', i, k, single);
    CapturedOnePlace(g, i, k, single);
    CapturedLinked(p, g, p', i, k, single);
    CapturedUnshared(p, g, p', i, k, single);
    CapturedExchanged(m, p, g, m', i, k, single);
    CapturedResumable(m, p, g, m', p', i, k, single);
  }

  function Spliced(g: Ground, k: nat): Ground
    requires k in g.kb && g.kb[k] != [] && g.cb != []
  {
    var bs := g.kb[k];
    Ground(g.seg, map c | c in g.tag :: if c in bs then OnChain else g.tag[c], g.next[bs[|bs| - 1] := g.cb[0]],
                                        bs + g.cb, g.kb - {k}, g.lost)
  }

  lemma HoldJoin(seg: map<nat, Seg>, bs: seq<nat>, segs: seq<Seg>, cs: seq<nat>, ts: seq<Seg>)
    requires Hold(seg, bs, segs) && Hold(seg, cs, ts)
    ensures Hold(seg, bs + cs, segs + ts)
  {
  }

  lemma SplicedPlaced(p: Pile, g: Ground, p': Pile, k: nat)
    requires Placed(p, g) && k in p.ks && g.kb[k] != [] && g.cb != []
    requires p'.chain == p.ks[k].segs + p.chain && p'.ks == p.ks - {k}
    ensures Placed(p', Spliced(g, k))
  {
    HoldJoin(g.seg, g.kb[k], p.ks[k].segs, g.cb, p.chain);
    hide Hold;
  }

  lemma NoDupJoin(bs: seq<nat>, cs: seq<nat>)
    requires NoDup(bs) && NoDup(cs) && forall b :: b in bs ==> b !in cs
    ensures NoDup(bs + cs)
  {
    forall i, j | 0 <= i < j < |bs + cs|
      ensures (bs + cs)[i] != (bs + cs)[j]
    {
      if i < |bs| <= j {
        assert (bs + cs)[i] in bs && (bs + cs)[j] in cs;
      }
    }
  }

  lemma HeldOffChain(g: Ground, k: nat)
    requires OnePlace(g) && k in g.kb
    ensures forall b :: b in g.kb[k] ==> b !in g.cb && forall k' :: k' in g.kb && k' != k ==> b !in g.kb[k']
  {
    hide NoDup;
    forall b | b in g.kb[k]
      ensures b !in g.cb && forall k' :: k' in g.kb && k' != k ==> b !in g.kb[k']
    {
      assert OneTag(g, b);
    }
  }

  lemma SplicedOnePlace(g: Ground, k: nat)
    requires OnePlace(g) && k in g.kb && g.kb[k] != [] && g.cb != []
    ensures OnePlace(Spliced(g, k))
  {
    HeldOffChain(g, k);
    NoDupJoin(g.kb[k], g.cb);
    hide NoDup;
    var g' := Spliced(g, k);
    assert g'.tag.Keys == g.tag.Keys;
    forall b: nat
      ensures OneTag(g', b)
    {
      assert OneTag(g, b);
    }
  }

  lemma PathJoin(next: map<nat, nat>, bs: seq<nat>, cs: seq<nat>)
    requires bs != [] && cs != [] && NoDup(bs) && forall b :: b in bs ==> b !in cs
    requires Path(next, bs) && Path(next, cs)
    ensures Path(next[bs[|bs| - 1] := cs[0]], bs + cs)
  {
    var last := bs[|bs| - 1];
    forall i | 0 <= i < |bs + cs| - 1
      ensures (bs + cs)[i] in next[last := cs[0]] && next[last := cs[0]][(bs + cs)[i]] == (bs + cs)[i + 1]
    {
      assert last in bs;
      if i >= |bs| {
        assert (bs + cs)[i] == cs[i - |bs|] && (bs + cs)[i + 1] == cs[i - |bs| + 1] && cs[i - |bs|] in cs;
      }
    }
  }

  lemma SplicedPaths(p: Pile, g: Ground, k: nat)
    requires Linked(p, g) && OnePlace(g) && k in g.kb && k in p.ks && g.kb[k] != []
    ensures var g' := Spliced(g, k);
            && Path(g'.next, g'.cb) && g'.cb[|g'.cb| - 1] == MAIN_BLOCK && MAIN_BLOCK !in g'.next
            && forall k' :: k' in g'.kb && k' in p.ks && g'.kb[k'] != [] ==>
                 Path(g'.next, g'.kb[k']) && LastNext(p.ks[k'].single, g', g'.kb[k'])
  {
    var g' := Spliced(g, k);
    var last := g.kb[k][|g.kb[k]| - 1];
    HeldOffChain(g, k);
    assert Path(g.next, g.kb[k]);
    PathJoin(g.next, g.kb[k], g.cb);
    assert last in g.kb[k] && g.cb[|g.cb| - 1] in g.cb;
    forall k' | k' in g'.kb && k' in p.ks && g'.kb[k'] != []
      ensures Path(g'.next, g'.kb[k']) && LastNext(p.ks[k'].single, g', g'.kb[k'])
    {
      assert Path(g.next, g.kb[k']) && LastNext(p.ks[k'].single, g, g.kb[k']);
      assert last !in g.kb[k'];
      PathKept(g.next, g.kb[k'], last, g.cb[0]);
      assert forall j :: 0 <= j < |g.kb[k']| ==> g.kb[k'][j] in g.kb[k'];
    }
  }

  /** Inside a resumption nothing points at its top, except from its last block. */
  lemma SplicedNext(p: Pile, g: Ground, k: nat, c: nat)
    requires Linked(p, g) && OnePlace(g) && k in g.kb && k in p.ks && g.kb[k] != [] && c in Spliced(g, k).next
    ensures NextOk(Spliced(g, k), c)
  {
    var g', bs := Spliced(g, k), g.kb[k];
    HeldOffChain(g, k);
    assert bs[0] in bs && OneTag(g, bs[0]) && OneTag(g, g.cb[0]) && g.cb[0] in g.cb;
    if c == bs[|bs| - 1] {
      assert c in bs && OneTag(g, c);
    } else {
      assert NextOk(g, c) && OneTag(g, c) && OneTag(g, g.next[c]);
      if c in bs {
        var j :| 0 <= j < |bs| && bs[j] == c;
        assert Path(g.next, bs) && g.next[c] == bs[j + 1] != bs[0];
      }
    }
  }

  lemma SplicedLinked(p: Pile, g: Ground, p': Pile, k: nat)
    requires Linked(p, g) && OnePlace(g) && k in g.kb && k in p.ks && g.kb[k] != [] && p'.ks == p.ks - {k}
    ensures Linked(p', Spliced(g, k))
  {
    SplicedPaths(p, g, k);
    hide Linked, OnePlace, Path, LastNext, NextOk;
    var g' := Spliced(g, k);
    forall c | c in g'.next
      ensures NextOk(g', c)
    {
      SplicedNext(p, g, k, c);
    }
    UnfoldLinked(p', g');
  }

  /** The handler that holds a resumption together: allocated, and no other link uses it. */
  lemma HeldHandler(m: Machine, p: Pile, g: Ground, k: nat)
    requires Implements(m, p, g) && Spliceable(p, k)
    ensures k in g.kb && |g.kb[k]| == |p.ks[k].segs| > 0
    ensures var t := g.kb[k][|g.kb[k]| - 1];
            && t in g.seg && g.seg[t] == Last(p.ks[k].segs) && g.seg[t].h in p.alive
            && forall c :: c in g.next && c != t ==> c in g.seg && g.seg[c].h != g.seg[t].h && g.seg[c].h in p.alive
  {
    Shape(m, p, g);
    var t := g.kb[k][|g.kb[k]| - 1];
    assert Hold(g.seg, g.kb[k], p.ks[k].segs) && Placed(p, g) && Unshared(p, g);
    assert p.ks[k].single ==> t in g.next by {
      hide Placed, OnePlace, Unshared, Stored, Exchanged, Headers, AllResumable, Current;
    }
    hide Implements, Placed;
    forall c | c in g.next && c != t
      ensures c in g.seg && g.seg[c].h != g.seg[t].h && g.seg[c].h in p.alive
    {
      LinkIsUse(m, p, g, c);
    }
  }

  lemma SplicedUnshared(p: Pile, g: Ground, p': Pile, k: nat, t: nat)
    requires Unshared(p, g) && k in g.kb && g.kb[k] != [] && g.cb != [] && t == g.kb[k][|g.kb[k]| - 1]
    requires p'.alive == p.alive
    requires t in g.seg && g.seg[t].h in p.alive && forall c :: c in g.next && c != t ==>
               c in g.seg && g.seg[c].h != g.seg[t].h
    ensures Unshared(p', Spliced(g, k))
  {
  }

  lemma SplicedResumable(m: Machine, p: Pile, g: Ground, m': Machine, p': Pile, k: nat)
    requires AllResumable(m, p, g) && k in g.kb && g.kb[k] != [] && g.cb != []
    requires m'.stubs == m.stubs && m'.res == m.res && p'.ks == p.ks - {k}
    ensures AllResumable(m', p', Spliced(g, k))
  {
    forall k' | k' in p'.ks && k' in g.kb
      ensures Resumable(m', k', p'.ks[k'], g.kb[k'])
    {
      assert Resumable(m, k', p.ks[k'], g.kb[k']);
    }
  }

  /** The saved stack pointer is that of the top of the resumption. */
  lemma SavedTop(m: Machine, p: Pile, g: Ground, k: nat)
    requires Implements(m, p, g) && k in p.ks
    ensures k in g.kb && |g.kb[k]| == |p.ks[k].segs| > 0 && k in m.res
    ensures m.res[k].header == Header(m.stubs, Last(p.ks[k].segs).h)
    ensures SavedSp(m, k) == Some(Sp(g.kb[k][0], Height(p.ks[k].segs[0])))
  {
    Shape(m, p, g);
    assert Resumable(m, k, p.ks[k], g.kb[k]) && Hold(g.seg, g.kb[k], p.ks[k].segs);
    if p.ks[k].single {
      var t := g.kb[k][|g.kb[k]| - 1];
      assert LastNext(true, g, g.kb[k]) && g.seg[t] == Last(p.ks[k].segs);
      hide Placed, OnePlace, Linked, Unshared, Stored, Headers, AllResumable, Current;
      assert Exchanged(m, g);
    }
  }

  lemma FinalThrowRuns(m: Machine, p: Pile, g: Ground, k: nat)
    requires Implements(m, p, g) && k in p.ks
    ensures DoFinalThrow(m, k).Some? && k in g.kb && p.ks[k].segs != [] && g.kb[k] != [] && g.cb != []
    ensures var m', p', g' := DoFinalThrow(m, k).value, Resumed(p, k), Spliced(g, k);
            && SameStacks(m, m', p, p', g, g') && Current(m', p', g') && m'.res == m.res && g'.lost == g.lost
            && m'.exchanger == m.exchanger[Header(m.stubs, Last(p.ks[k].segs).h) := m.sp]
  {
    hide Implements, Height, Header, SavedSp;
    Shape(m, p, g);
    SavedTop(m, p, g, k);
    assert Spliced(g, k).cb[0] == g.kb[k][0] && (p.ks[k].segs + p.chain)[0] == p.ks[k].segs[0];
  }

  lemma SplicedAll(m: Machine, p: Pile, g: Ground, m': Machine, p': Pile, g': Ground, k: nat)
    requires Implements(m, p, g) && Spliceable(p, k) && k in g.kb && g.kb[k] != [] && g.cb != [] && g' == Spliced(g, k)
    requires Current(m', p', g')
    requires p'.chain == p.ks[k].segs + p.chain && p'.ks == p.ks - {k} && SameStacks(m, m', p, p', g, g')
    requires m'.res == m.res
    requires m'.exchanger == m.exchanger[Header(m.stubs, Last(p.ks[k].segs).h) := m.sp]
    ensures Implements(m', p', g')
  {
    hide Stored, Headers, Linked, OnePlace, Placed, Exchanged, AllResumable, Current, Unshared, Header;
    Shape(m, p, g);
    HeldHandler(m, p, g, k);
    hide Spliceable;
    var t := g.kb[k][|g.kb[k]| - 1];
    StacksKept(m, m', p, p', g, g');
    SplicedPlaced(p, g, p', k);
    SplicedOnePlace(g, k);
    SplicedLinked(p, g, p', k);
    SplicedUnshared(p, g, p', k, t);
    ExchangedBut(m, m', p, g, g', t);
    SplicedResumable(m, p, g, m', p', k);
  }

  /** FINAL_THROW: the resumption goes back on top of the pile. */
  lemma SimFinalThrow(m: Machine, p: Pile, g: Ground, k: nat) returns (g': Ground)
    requires Implements(m, p, g) && Spliceable(p, k)
    ensures DoFinalThrow(m, k).Some?
    ensures Implements(DoFinalThrow(m, k).value, Resumed(p, k), g') && g'.lost == g.lost
  {
    hide Implements, SameStacks, Current, Spliced, InUse, DoFinalThrow;
    FinalThrowRuns(m, p, g, k);
    g' := Spliced(g, k);
    SplicedAll(m, p, g, DoFinalThrow(m, k).value, Resumed(p, k), g', k);
  }
}
