/**
  When the trampolines implement the handlers: every block in use is in exactly one place, and
  every exchanger that is still needed holds the stack pointer to continue with.
 */
module Switching {
  import opened Options
  import opened Continuations
  import opened Trampolines

  datatype Tag = OnChain | In(k: nat)

  /** Where everything is. Blocks cb carry the segments of the pile, kb those of each resumption;
      seg says which segment a block holds. Next leads from a block to the one that its exchanger
      points to. Lost blocks were dropped, by an abort or with a resumption, without being freed. */
  datatype Ground = Ground(seg: map<nat, Seg>, tag: map<nat, Tag>, next: map<nat, nat>, cb: seq<nat>, kb: map<nat,
                           seq<nat>>, lost: set<nat>)

  function Base(s: Seg): nat
  {
    if s.h == MAIN then 0 else LINK_WORDS
  }

  function Height(s: Seg): nat
  {
    Base(s) + |s.frames|
  }

  /** The block of handler h's header. */
  function Header(stubs: map<nat, Stub>, h: nat): nat
  {
    if h in stubs && stubs[h].General? then stubs[h].header else 0
  }

  function Content(stubs: map<nat, Stub>, s: Seg): seq<nat>
  {
    (if s.h == MAIN then [] else [Header(stubs, s.h), Header(stubs, s.h)]) + s.frames
  }

  /** The blocks bs hold the segments. */
  ghost predicate Hold(seg: map<nat, Seg>, bs: seq<nat>, segs: seq<Seg>)
  {
    |bs| == |segs| > 0 && forall i :: 0 <= i < |bs| ==> bs[i] in seg && seg[bs[i]] == segs[i]
  }

  ghost predicate Placed(p: Pile, g: Ground)
  {
    && Hold(g.seg, g.cb, p.chain)
    && g.kb.Keys == p.ks.Keys
    && (forall k :: k in p.ks ==> Hold(g.seg, g.kb[k], p.ks[k].segs))
  }

  ghost predicate NoDup(bs: seq<nat>)
  {
    forall i, j :: 0 <= i < j < |bs| ==> bs[i] != bs[j]
  }

  ghost predicate Tagged(g: Ground, b: nat, t: Tag)
  {
    b in g.tag && g.tag[b] == t
  }

  /** Block b is on the chain or in one resumption, as its tag says, or is not in use. */
  ghost predicate OneTag(g: Ground, b: nat)
  {
    && (b in g.cb <==> Tagged(g, b, OnChain))
    && (forall k :: k in g.kb ==> (b in g.kb[k] <==> Tagged(g, b, In(k))))
    && (b in g.tag && g.tag[b].In? ==> g.tag[b].k in g.kb)
  }

  /** Each block in use is in one place, once. */
  ghost predicate OnePlace(g: Ground)
  {
    && g.tag.Keys == g.seg.Keys
    && NoDup(g.cb) && (forall k :: k in g.kb ==> NoDup(g.kb[k]))
    && forall b: nat :: OneTag(g, b)
  }

  /** From each block of the path to the one below. */
  ghost predicate Path(next: map<nat, nat>, bs: seq<nat>)
  {
    forall i :: 0 <= i < |bs| - 1 ==> bs[i] in next && next[bs[i]] == bs[i + 1]
  }

  /** The pile is a chain down to main; a resumption for one use is a ring, any other a chain. */
  ghost predicate Linked(p: Pile, g: Ground)
  {
    && Path(g.next, g.cb) && g.cb != [] && g.cb[|g.cb| - 1] == MAIN_BLOCK && MAIN_BLOCK !in g.next
    && (forall k :: k in g.kb && k in p.ks && g.kb[k] != [] ==>
          Path(g.next, g.kb[k]) && LastNext(p.ks[k].single, g, g.kb[k]))
    && (forall b :: b in g.next ==> NextOk(g, b))
  }

  ghost predicate LastNext(single: bool, g: Ground, bs: seq<nat>)
    requires bs != []
  {
    var last := bs[|bs| - 1];
    if single then last in g.next && g.next[last] == bs[0] else last !in g.next
  }

  ghost predicate NextOk(g: Ground, b: nat)
    requires b in g.next
  {
    b in g.tag && g.next[b] in g.tag && g.tag[b] == g.tag[g.next[b]] && (g.cb != [] ==> g.next[b] != g.cb[0])
  }

  /** A handler's exchanger serves one link at a time, and its header is allocated. */
  ghost predicate Unshared(p: Pile, g: Ground)
  {
    && (forall b, c :: b in g.next && c in g.next && b in g.seg && c in g.seg && g.seg[b].h == g.seg[c].h ==> b == c)
    && (forall b :: b in g.next && b in g.seg ==> g.seg[b].h in p.alive)
  }

  ghost predicate Stores(m: Machine, s: Seg, b: nat)
  {
    && b in m.mem && Height(s) <= |m.mem[b]| && m.mem[b][..Height(s)] == Content(m.stubs, s)
    && (s.h == MAIN <==> b == MAIN_BLOCK)
    && (s.h != MAIN ==> s.h in m.stubs && m.stubs[s.h].General?)
    && (s.own ==> s.h != MAIN && Header(m.stubs, s.h) == b) && s.at == b
    && (forall h :: h in s.marks ==>
          h in m.stubs && m.stubs[h] == InFrame(Sp(s.marks[h].at, Base(s) + s.marks[h].height)))
  }

  ghost predicate Stored(m: Machine, g: Ground)
  {
    && (forall b :: b in g.seg ==> Stores(m, g.seg[b], b))
    && m.live == g.seg.Keys + g.lost && g.seg.Keys !! g.lost
  }

  ghost predicate Exchanged(m: Machine, g: Ground)
  {
    forall b :: b in g.next && b in g.seg && g.next[b] in g.seg ==>
      var x := Header(m.stubs, g.seg[b].h);
      x in m.exchanger && m.exchanger[x] == Sp(g.next[b], Height(g.seg[g.next[b]]))
  }

  /** Every allocated header belongs to one handler, and lies in that handler's own segment. */
  ghost predicate Headers(m: Machine, p: Pile, g: Ground)
  {
    && p.names == m.stubs.Keys + {MAIN} && MAIN !in m.stubs
    && (forall h :: h in p.alive ==> h in m.stubs && m.stubs[h].General? && m.stubs[h].header in m.live)
    && (forall h, h' :: h in p.alive && h' in p.alive && Header(m.stubs, h) == Header(m.stubs, h') ==> h == h')
    && (forall b, h :: b in g.seg && h in p.alive && Header(m.stubs, h) == b ==> g.seg[b].own && g.seg[b].h == h)
  }

  ghost predicate Resumable(m: Machine, k: nat, held: Held, bs: seq<nat>)
  {
    held.segs != [] && |bs| == |held.segs| && Last(held.segs).h != MAIN &&
    k in m.res &&
    var x := Header(m.stubs, Last(held.segs).h);
    m.res[k] == if held.single then Single(x) else Multi(Sp(bs[0], Height(held.segs[0])), x)
  }

  ghost predicate AllResumable(m: Machine, p: Pile, g: Ground)
  {
    forall k :: k in p.ks && k in g.kb ==> Resumable(m, k, p.ks[k], g.kb[k])
  }

  ghost predicate Current(m: Machine, p: Pile, g: Ground)
  {
    p.chain != [] && g.cb != [] && m.sp == Sp(g.cb[0], Height(p.chain[0]))
  }

  /** The machine is in a state that stands for the pile. */
  ghost predicate Implements(m: Machine, p: Pile, g: Ground)
  {
    Placed(p, g) && OnePlace(g) && Linked(p, g) && Unshared(p, g) && Stored(m, g) && Exchanged(m, g)
        && Headers(m, p, g) &&
    AllResumable(m, p, g) && Current(m, p, g)
  }

  const START_GROUND := Ground(map[MAIN_BLOCK := Seg(MAIN, false, MAIN_STACK, [], map[])], map[MAIN_BLOCK := OnChain],
                               map[], [MAIN_BLOCK], map[], {})

  lemma StartImplements()
    ensures Implements(BOOT, START, START_GROUND)
  {
  }

  // ----- what runs within one segment -----

  /** What a change of the current block's words leaves alone. */
  ghost predicate TopOnly(m: Machine, m': Machine, s: Seg)
  {
    && m'.live == m.live && m'.exchanger == m.exchanger && m'.res == m.res
    && (forall b :: b in m.mem && b != m.sp.block ==> b in m'.mem && m'.mem[b] == m.mem[b])
    && (forall h :: h in m.stubs ==> h in m'.stubs && m'.stubs[h] == m.stubs[h])
    && m'.sp == Sp(m.sp.block, Height(s)) && Stores(m', s, m.sp.block)
  }

  lemma TopPlaced(p: Pile, g: Ground, p': Pile, s: Seg)
    requires Placed(p, g) && OnePlace(g)
    requires p'.chain == p.chain[0 := s] && p'.ks == p.ks
    ensures Placed(p', g.(seg := g.seg[g.cb[0] := s])) && OnePlace(g.(seg := g.seg[g.cb[0] := s]))
  {
    var b, g' := g.cb[0], g.(seg := g.seg[g.cb[0] := s]);
    assert b in g.cb && OneTag(g, b);
    assert forall k, i :: k in g.kb && 0 <= i < |g.kb[k]| ==> g.kb[k][i] != b;
    forall c: nat
      ensures OneTag(g', c)
    {
      assert OneTag(g, c);
    }
  }

  lemma TopStored(m: Machine, g: Ground, m': Machine, s: Seg)
    requires Stored(m, g) && g.cb != [] && g.cb[0] in g.seg && m.sp.block == g.cb[0] && TopOnly(m, m', s)
    ensures Stored(m', g.(seg := g.seg[g.cb[0] := s]))
  {
    forall b | b in g.seg && b != g.cb[0]
      ensures Stores(m', g.seg[b], b)
    {
      assert Stores(m, g.seg[b], b);
    }
  }

  lemma TopExchanged(m: Machine, p: Pile, g: Ground, m': Machine, s: Seg)
    requires Stored(m, g) && Exchanged(m, g) && Linked(p, g) && OnePlace(g)
    requires g.cb != [] && g.cb[0] in g.seg && m.sp.block == g.cb[0] && TopOnly(m, m', s) && s.h == g.seg[g.cb[0]].h
    ensures Exchanged(m', g.(seg := g.seg[g.cb[0] := s]))
  {
    forall b | b in g.next
      ensures b in g.seg && g.next[b] in g.seg && g.next[b] != g.cb[0] && b != MAIN_BLOCK
    {
      assert NextOk(g, b);
    }
    forall b | b in g.next
      ensures Header(m'.stubs, g.seg[b].h) == Header(m.stubs, g.seg[b].h)
    {
      assert Stores(m, g.seg[b], b);
    }
  }

  lemma TopHeaders(m: Machine, p: Pile, g: Ground, m': Machine, p': Pile, s: Seg)
    requires Headers(m, p, g) && g.cb != [] && g.cb[0] in g.seg
    requires p'.alive == p.alive && m'.live == m.live && p'.names == m'.stubs.Keys + {MAIN} && MAIN !in m'.stubs
    requires forall h :: h in m.stubs ==> h in m'.stubs && m'.stubs[h] == m.stubs[h]
    requires s.h == g.seg[g.cb[0]].h && s.own == g.seg[g.cb[0]].own
    ensures Headers(m', p', g.(seg := g.seg[g.cb[0] := s]))
  {
    assert forall h :: h in p.alive ==> Header(m'.stubs, h) == Header(m.stubs, h);
  }

  lemma HeldStored(m: Machine, p: Pile, g: Ground, k: nat)
    requires Placed(p, g) && Stored(m, g) && k in p.ks
    ensures p.ks[k].segs != [] && |g.kb[k]| == |p.ks[k].segs| && Stores(m, Last(p.ks[k].segs), g.kb[k][|g.kb[k]| - 1])
  {
    hide Stores;
    assert g.kb[k][|g.kb[k]| - 1] in g.seg;
  }

  lemma TopResumable(m: Machine, p: Pile, g: Ground, m': Machine, p': Pile, s: Seg)
    requires Placed(p, g) && Stored(m, g) && AllResumable(m, p, g) && TopOnly(m, m', s) && p'.ks == p.ks
    ensures AllResumable(m', p', g.(seg := g.seg[g.cb[0] := s]))
  {
    forall k | k in p.ks
      ensures Resumable(m', k, p.ks[k], g.kb[k])
    {
      assert Resumable(m, k, p.ks[k], g.kb[k]);
      HeldStored(m, p, g, k);
    }
  }

  lemma TopLinked(p: Pile, g: Ground, p': Pile, s: Seg)
    requires Placed(p, g) && Linked(p, g) && Unshared(p, g) && p'.ks == p.ks && p'.alive == p.alive
    requires s.h == p.chain[0].h
    ensures Linked(p', g.(seg := g.seg[g.cb[0] := s])) && Unshared(p', g.(seg := g.seg[g.cb[0] := s]))
  {
    hide Path;
    var g' := g.(seg := g.seg[g.cb[0] := s]);
    assert forall b :: b in g'.seg ==> b in g.seg && g'.seg[b].h == g.seg[b].h;
    forall b | b in g.next
      ensures NextOk(g', b)
    {
      assert NextOk(g, b);
    }
  }

  /** The top segment becomes s; nothing points at the current block, so nothing else changes. */
  lemma SimTop(m: Machine, p: Pile, g: Ground, m': Machine, p': Pile, s: Seg) returns (g': Ground)
    requires Implements(m, p, g) && TopOnly(m, m', s)
    requires p'.chain == p.chain[0 := s] && p'.ks == p.ks && p'.alive == p.alive
    requires s.h == p.chain[0].h && s.own == p.chain[0].own
    requires p'.names == m'.stubs.Keys + {MAIN} && MAIN !in m'.stubs
    ensures Implements(m', p', g') && g'.lost == g.lost
  {
    hide Path, OnePlace, Unshared, Stored, Exchanged, Headers, AllResumable, NextOk, LastNext;
    var b := g.cb[0];
    g' := g.(seg := g.seg[b := s]);
    assert b in g.seg && g.seg[b] == p.chain[0];
    hide Placed, Linked, Hold;
    TopPlaced(p, g, p', s);
    TopStored(m, g, m', s);
    TopExchanged(m, p, g, m', s);
    TopHeaders(m, p, g, m', p', s);
    TopResumable(m, p, g, m', p', s);
    TopLinked(p, g, p', s);
  }

  /** The words in use in the current block are those of the top segment. */
  lemma CurrentWords(m: Machine, p: Pile, g: Ground)
    requires Implements(m, p, g)
    ensures p.chain != [] && g.cb != [] && g.cb[0] in g.seg && g.seg[g.cb[0]] == p.chain[0]
    ensures m.sp == Sp(g.cb[0], Height(p.chain[0]))
    ensures Stores(m, p.chain[0], g.cb[0])
    ensures Words(m) == Some(Content(m.stubs, p.chain[0]))
  {
    hide OnePlace, Linked, Unshared, Exchanged, Headers, AllResumable, Content;
  }

  lemma StubsNamed(m: Machine, p: Pile, g: Ground)
    requires Implements(m, p, g)
    ensures p.names == m.stubs.Keys + {MAIN} && MAIN !in m.stubs
  {
    hide Placed, OnePlace, Linked, Unshared, Stored, Exchanged, AllResumable;
  }

  /** The current stack of m holds segment s. */
  ghost predicate Runs(m: Machine, s: Seg)
  {
    m.sp.height == Height(s) && Stores(m, s, m.sp.block)
  }

  lemma PushTop(m: Machine, s: Seg, v: nat)
    requires Runs(m, s)
    ensures DoPush(m, v).Some? && TopOnly(m, DoPush(m, v).value, Pushed(s, v)) && DoPush(m, v).value.stubs == m.stubs
  {
    assert Words(m).value == Content(m.stubs, s);
    assert Content(m.stubs, Pushed(s, v)) == Content(m.stubs, s) + [v];
  }

  /** A segment that is cut back still has its words. */
  lemma CutStores(m: Machine, s: Seg, b: nat, n: nat)
    requires Stores(m, s, b) && n <= |s.frames|
    ensures Stores(m, Cut(s, n), b)
  {
    var t := Cut(s, n);
    assert Content(m.stubs, t) == Content(m.stubs, s)[..Height(t)];
    assert m.mem[b][..Height(t)] == m.mem[b][..Height(s)][..Height(t)];
  }

  lemma PopTop(m: Machine, s: Seg)
    requires Runs(m, s) && s.frames != []
    ensures DoPop(m).Some? && TopOnly(m, DoPop(m).value, Cut(s, |s.frames| - 1)) && DoPop(m).value.stubs == m.stubs
  {
    CutStores(m, s, m.sp.block, |s.frames| - 1);
  }

  lemma PokeTop(m: Machine, s: Seg, d: nat, v: nat)
    requires Runs(m, s) && d < |s.frames|
    ensures DoPoke(m, d, v).Some? && TopOnly(m, DoPoke(m, d, v).value, Poked(s, d, v))
    ensures DoPoke(m, d, v).value.stubs == m.stubs
  {
    assert Content(m.stubs, Poked(s, d, v)) == Content(m.stubs, s)[Height(s) - 1 - d := v];
  }

  lemma InstallTop(m: Machine, s: Seg, h: nat)
    requires Runs(m, s) && h !in m.stubs && h != MAIN
    ensures TopOnly(m, DoInstall(m, h).value, Marked(s, h)) && DoInstall(m, h).value.stubs.Keys == m.stubs.Keys + {h}
  {
  }

  /** The top segment of the pile becomes s. */
  lemma SimSetTop(m: Machine, p: Pile, g: Ground, m': Machine, s: Seg) returns (g': Ground)
    requires Implements(m, p, g) && TopOnly(m, m', s) && p.chain != [] && s.h == p.chain[0].h && s.own == p.chain[0].own
    requires m'.stubs == m.stubs
    ensures Implements(m', SetTop(p, s), g') && g'.lost == g.lost
  {
    hide Implements, TopOnly;
    StubsNamed(m, p, g);
    g' := SimTop(m, p, g, m', SetTop(p, s), s);
  }

  lemma TopRuns(m: Machine, p: Pile, g: Ground)
    requires Implements(m, p, g)
    ensures p.chain != [] && Runs(m, p.chain[0])
  {
    hide Implements, Stores;
    CurrentWords(m, p, g);
  }

  lemma SimPush(m: Machine, p: Pile, g: Ground, v: nat) returns (g': Ground)
    requires Implements(m, p, g) && p.chain != []
    ensures DoPush(m, v).Some? && Implements(DoPush(m, v).value, SetTop(p, Pushed(p.chain[0], v)), g')
    ensures g'.lost == g.lost
  {
    hide Implements, Runs, TopOnly, DoPush;
    TopRuns(m, p, g);
    PushTop(m, p.chain[0], v);
    g' := SimSetTop(m, p, g, DoPush(m, v).value, Pushed(p.chain[0], v));
  }

  lemma SimPop(m: Machine, p: Pile, g: Ground) returns (g': Ground)
    requires Implements(m, p, g) && p.chain != [] && p.chain[0].frames != []
    ensures DoPop(m).Some? && g'.lost == g.lost
    ensures Implements(DoPop(m).value, SetTop(p, Cut(p.chain[0], |p.chain[0].frames| - 1)), g')
  {
    hide Implements, Runs, TopOnly, DoPop;
    TopRuns(m, p, g);
    PopTop(m, p.chain[0]);
    g' := SimSetTop(m, p, g, DoPop(m).value, Cut(p.chain[0], |p.chain[0].frames| - 1));
  }

  lemma SimPoke(m: Machine, p: Pile, g: Ground, d: nat, v: nat) returns (g': Ground)
    requires Implements(m, p, g) && p.chain != [] && d < |p.chain[0].frames|
    ensures DoPoke(m, d, v).Some? && Implements(DoPoke(m, d, v).value, SetTop(p, Poked(p.chain[0], d, v)), g')
    ensures g'.lost == g.lost
  {
    hide Implements, Runs, TopOnly, DoPoke;
    TopRuns(m, p, g);
    PokeTop(m, p.chain[0], d, v);
    g' := SimSetTop(m, p, g, DoPoke(m, d, v).value, Poked(p.chain[0], d, v));
  }

  lemma SimInstall(m: Machine, p: Pile, g: Ground, h: nat) returns (g': Ground)
    requires Implements(m, p, g) && p.chain != [] && h !in p.names
    ensures DoInstall(m, h).Some? && Implements(DoInstall(m, h).value, Installed(p, h), g') && g'.lost == g.lost
  {
    hide Implements, Runs, TopOnly;
    TopRuns(m, p, g);
    StubsNamed(m, p, g);
    InstallTop(m, p.chain[0], h);
    g' := SimTop(m, p, g, DoInstall(m, h).value, Installed(p, h), Marked(p.chain[0], h));
  }

  /** The current segment is cut back. */
  lemma SimCut(m: Machine, p: Pile, g: Ground, n: nat) returns (g': Ground)
    requires Implements(m, p, g) && p.chain != [] && n <= |p.chain[0].frames|
    ensures var s := Cut(p.chain[0], n);
            Implements(m.(sp := Sp(m.sp.block, Height(s))), SetTop(p, s), g') && g'.lost == g.lost
  {
    var s := Cut(p.chain[0], n);
    hide Implements, Stores;
    TopRuns(m, p, g);
    CutStores(m, p.chain[0], m.sp.block, n);
    var m' := m.(sp := Sp(m.sp.block, Height(s)));
    assert TopOnly(m, m', s) by { CutTop(m, s); }
    hide TopOnly, Runs, Cut;
    g' := SimSetTop(m, p, g, m', s);
  }

  lemma CutTop(m: Machine, s: Seg)
    requires Stores(m, s, m.sp.block)
    ensures TopOnly(m, m.(sp := Sp(m.sp.block, Height(s))), s)
  {
  }

  lemma Shape(m: Machine, p: Pile, g: Ground)
    requires Implements(m, p, g)
    ensures g.tag.Keys == g.seg.Keys && g.kb.Keys == p.ks.Keys && |g.cb| == |p.chain| > 0
  {
    hide Linked, Unshared, Stored, Exchanged, Headers, AllResumable, Current;
  }
}
