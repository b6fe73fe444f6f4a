/**
  How the store relation survives what the machine does to stacks: pushing and popping on
  the running segment, adding and dropping segments, cutting the chain into a ring when
  an operation is raised, and splicing a ring back when it is resumed.
 */
module LayoutSteps {
  import opened Options
  import opened Salt
  import opened Assembler
  import opened Layout
  import L = Lexa

  function Last(segs: seq<Seg>): Seg
    requires segs != []
  {
    segs[|segs| - 1]
  }

  /** b is a block of no segment, running or captured. */
  predicate OffChain(segs: seq<Seg>, rings: Rings, b: nat)
  {
    (forall i :: 0 <= i < |segs| ==> segs[i].blk != b) &&
    (forall r :: r in rings ==> forall i :: 0 <= i < |rings[r]| ==> rings[r][i].blk != b)
  }

  lemma ChainFrame(c: Image, labs: seq<Word>, M: seq<Block>, M': seq<Block>, segs: seq<Seg>, x0: Word, cur: seq<Word>)
    requires ChainMem(c, labs, M, segs, x0, cur) && |M| <= |M'|
    requires forall i :: 0 <= i < |segs| && segs[i].blk < |M| ==> M'[segs[i].blk] == M[segs[i].blk]
    ensures ChainMem(c, labs, M', segs, x0, cur)
  {
  }

  lemma OwnedFrame(objs: seq<L.Obj>, objs': seq<L.Obj>, segs: seq<Seg>)
    requires Owned(objs, segs) && |objs| <= |objs'|
    requires forall i :: 0 <= i < |objs| && objs[i].Segment? ==> objs'[i].Segment?
    ensures Owned(objs', segs)
  {
  }

  lemma RingGrow(c: Image, labs: seq<Word>, objs: seq<L.Obj>, M: seq<Block>, ring: seq<Seg>, o: L.Obj, blk: Block)
    requires RingOk(c, labs, objs, M, ring) && |objs| == |M|
    ensures RingOk(c, labs, objs + [o], M + [blk], ring)
  {
    ChainFrame(c, labs, M, M + [blk], ring, TopAddr(ring[|ring| - 1]), []);
    OwnedFrame(objs, objs + [o], ring);
  }

  /** Objects keep their blocks when memory changes at a stack block outside all rings. */
  lemma HeapFrame(c: Image, labs: seq<Word>, objs: seq<L.Obj>, M: seq<Block>, rings: Rings, b: nat, ws: seq<Word>)
    requires HeapOk(c, labs, objs, M, rings) && b < |M| && objs[b].Segment?
    requires forall r :: r in rings ==> forall i :: 0 <= i < |rings[r]| ==> rings[r][i].blk != b
    ensures HeapOk(c, labs, objs, M[b := Stk(ws)], rings)
  {
    var M' := M[b := Stk(ws)];
    forall r | 0 <= r < |objs|
      ensures ObjOk(c, labs, objs, M', rings, r)
    {
      assert ObjOk(c, labs, objs, M, rings, r);
      if objs[r].Captured? {
        ChainFrame(c, labs, M, M', rings[r], TopAddr(rings[r][|rings[r]| - 1]), []);
      }
    }
  }

  lemma RingsOff(rings: Rings, segs: seq<Seg>, j: nat)
    requires RingsApart(rings, segs) && j < |segs|
    ensures forall r :: r in rings ==> forall i :: 0 <= i < |rings[r]| ==> rings[r][i].blk != segs[j].blk
  {
    forall r | r in rings
      ensures forall i :: 0 <= i < |rings[r]| ==> rings[r][i].blk != segs[j].blk
    {
      assert Apart(rings[r], segs);
    }
  }

  lemma ApartPrefix(rings: Rings, segs: seq<Seg>, segs': seq<Seg>)
    requires RingsApart(rings, segs) && |segs'| <= |segs|
    requires forall i :: 0 <= i < |segs'| ==> segs'[i].blk == segs[i].blk
    ensures RingsApart(rings, segs')
  {
    forall r | r in rings
      ensures Apart(rings[r], segs')
    {
      assert Apart(rings[r], segs);
    }
  }

  /** Everything above segment j is dropped and segment j itself becomes seg, with cur' on top. */
  lemma CutAbove(c: Image, labs: seq<Word>, objs: seq<L.Obj>, M: seq<Block>, segs: seq<Seg>, rings: Rings,
                 cur: seq<Word>,
                 j: nat, seg: Seg, cur': seq<Word>)
    requires World(c, labs, objs, M, segs, rings, cur)
    requires j < |segs| && seg.blk == segs[j].blk && seg.base == segs[j].base && SegOk(c, labs, seg)
    ensures World(c, labs, objs, M[seg.blk := Stk(SegWords(c, labs, seg, Exch(segs, j, Int(0))) + cur')],
                  segs[..j] + [seg], rings, cur')
  {
    var M' := M[seg.blk := Stk(SegWords(c, labs, seg, Exch(segs, j, Int(0))) + cur')];
    var segs' := segs[..j] + [seg];
    assert objs[seg.blk].Segment? && |objs| == |M| && seg.blk < |M|;
    hide HeapOk, ChainMem, SegWords, Exch, SegsOk, SegOk, AllNew, Distinct, Owned, RingsCaptured, RingsApart;
    RingsOff(rings, segs, j);
    HeapFrame(c, labs, objs, M, rings, seg.blk, SegWords(c, labs, seg, Exch(segs, j, Int(0))) + cur');
    ApartPrefix(rings, segs, segs');
    CutChain(c, labs, M, M', segs, cur, j, seg, cur');
    CutShape(c, labs, objs, segs, j, seg);
  }

  lemma CutShape(c: Image, labs: seq<Word>, objs: seq<L.Obj>, segs: seq<Seg>, j: nat, seg: Seg)
    requires SegsOk(c, labs, segs) && segs[0].base.MainBase? && segs[0].blk == 0 && AllNew(segs[1..])
    requires Distinct(segs) && Owned(objs, segs)
    requires j < |segs| && seg.blk == segs[j].blk && seg.base == segs[j].base && SegOk(c, labs, seg)
    ensures SegsOk(c, labs, segs[..j] + [seg])
    ensures (segs[..j] + [seg])[0].base.MainBase? && (segs[..j] + [seg])[0].blk == 0 && AllNew((segs[..j] + [seg])[1..])
    ensures Distinct(segs[..j] + [seg]) && Owned(objs, segs[..j] + [seg])
  {
    var segs' := segs[..j] + [seg];
    forall i | 0 <= i < |segs'[1..]|
      ensures segs'[1..][i].base.NewBase?
    {
      assert segs[1..][i].base.NewBase?;
    }
  }

  lemma CutChain(c: Image, labs: seq<Word>, M: seq<Block>, M': seq<Block>, segs: seq<Seg>, cur: seq<Word>, j: nat,
                 seg: Seg, cur': seq<Word>)
    requires ChainMem(c, labs, M, segs, Int(0), cur) && Distinct(segs)
    requires j < |segs| && seg.blk == segs[j].blk && seg.blk < |M|
    requires M' == M[seg.blk := Stk(SegWords(c, labs, seg, Exch(segs, j, Int(0))) + cur')]
    ensures ChainMem(c, labs, M', segs[..j] + [seg], Int(0), cur')
  {
    hide SegWords, TopAddr;
    var segs' := segs[..j] + [seg];
    forall i | 0 <= i < |segs'|
      ensures segs'[i].blk < |M'| && M'[segs'[i].blk] == Stk(BlockWords(c, labs, segs', i, Int(0), cur'))
    {
      assert segs[i].blk < |M| && M[segs[i].blk] == Stk(BlockWords(c, labs, segs, i, Int(0), cur));
      assert Exch(segs', i, Int(0)) == Exch(segs, i, Int(0));
    }
  }

  /** The running segment changes: a frame is pushed or popped, or words on top of it are. */
  lemma ReplaceTop(c: Image, labs: seq<Word>, objs: seq<L.Obj>, M: seq<Block>, segs: seq<Seg>, rings: Rings,
                   cur: seq<Word>,
                   seg: Seg, cur': seq<Word>)
    requires World(c, labs, objs, M, segs, rings, cur)
    requires seg.blk == Last(segs).blk && seg.base == Last(segs).base && SegOk(c, labs, seg)
    ensures World(c, labs, objs, M[seg.blk := Stk(SegWords(c, labs, seg, Exch(segs, |segs| - 1, Int(0))) + cur')],
                  segs[..|segs| - 1] + [seg], rings, cur')
  {
    CutAbove(c, labs, objs, M, segs, rings, cur, |segs| - 1, seg, cur');
  }

  /** A stack block outside every segment may hold anything. */
  lemma ChangeOffChain(c: Image, labs: seq<Word>, objs: seq<L.Obj>, M: seq<Block>, segs: seq<Seg>, rings: Rings,
                       cur: seq<Word>,
                       b: nat, ws: seq<Word>)
    requires World(c, labs, objs, M, segs, rings, cur)
    requires b < |M| && objs[b].Segment? && OffChain(segs, rings, b)
    ensures World(c, labs, objs, M[b := Stk(ws)], segs, rings, cur)
  {
    HeapFrame(c, labs, objs, M, rings, b, ws);
    ChainFrame(c, labs, M, M[b := Stk(ws)], segs, Int(0), cur);
  }

  // ----- new objects -----

  lemma HeapGrow(c: Image, labs: seq<Word>, objs: seq<L.Obj>, M: seq<Block>, rings: Rings, o: L.Obj, blk: Block)
    requires HeapOk(c, labs, objs, M, rings)
    requires ObjOk(c, labs, objs + [o], M + [blk], rings, |objs|)
    ensures HeapOk(c, labs, objs + [o], M + [blk], rings)
  {
    hide ObjOk;
    var objs', M' := objs + [o], M + [blk];
    forall r | 0 <= r < |objs'|
      ensures ObjOk(c, labs, objs', M', rings, r)
    {
      if r < |objs| {
        ObjGrow(c, labs, objs, M, rings, o, blk, r);
      }
    }
  }

  lemma ObjGrow(c: Image, labs: seq<Word>, objs: seq<L.Obj>, M: seq<Block>, rings: Rings, o: L.Obj, blk: Block, r: nat)
    requires |objs| == |M| && r < |objs| && ObjOk(c, labs, objs, M, rings, r)
    ensures ObjOk(c, labs, objs + [o], M + [blk], rings, r)
  {
    if objs[r].Captured? {
      RingGrow(c, labs, objs, M, rings[r], o, blk);
    }
  }

  lemma AddObject(c: Image, labs: seq<Word>, objs: seq<L.Obj>, M: seq<Block>, segs: seq<Seg>, rings: Rings,
                  cur: seq<Word>,
                  o: L.Obj, blk: Block)
    requires World(c, labs, objs, M, segs, rings, cur)
    requires (o.Record? && blk == Arr(Words(c, labs, o.vs)) && ValsOk(c, labs, o.vs)) || (o.Segment? && blk.Stk?)
    ensures World(c, labs, objs + [o], M + [blk], segs, rings, cur)
  {
    HeapGrow(c, labs, objs, M, rings, o, blk);
    ChainFrame(c, labs, M, M + [blk], segs, Int(0), cur);
    OwnedFrame(objs, objs + [o], segs);
  }

  /** Record r gets a new content. */
  lemma UpdateRecord(c: Image, labs: seq<Word>, objs: seq<L.Obj>, M: seq<Block>, segs: seq<Seg>, rings: Rings,
                     cur: seq<Word>,
                     r: nat, vs: seq<L.Val>)
    requires World(c, labs, objs, M, segs, rings, cur)
    requires r < |objs| && objs[r].Record? && ValsOk(c, labs, vs)
    ensures World(c, labs, objs[r := L.Record(vs)], M[r := Arr(Words(c, labs, vs))], segs, rings, cur)
  {
    HeapUpdate(c, labs, objs, M, rings, r, L.Record(vs), Arr(Words(c, labs, vs)));
    ChainFrame(c, labs, M, M[r := Arr(Words(c, labs, vs))], segs, Int(0), cur);
    OwnedFrame(objs, objs[r := L.Record(vs)], segs);
  }

  lemma HeapUpdate(c: Image, labs: seq<Word>, objs: seq<L.Obj>, M: seq<Block>, rings: Rings, r: nat, o: L.Obj,
                   blk: Block)
    requires HeapOk(c, labs, objs, M, rings) && r < |objs| && !objs[r].Segment?
    requires (o.Spent? && blk == Arr([Int(-71)]))
             || (o.Record? && blk == Arr(Words(c, labs, o.vs)) && ValsOk(c, labs, o.vs))
    ensures HeapOk(c, labs, objs[r := o], M[r := blk], rings)
  {
    var objs', M' := objs[r := o], M[r := blk];
    forall q | 0 <= q < |objs'|
      ensures ObjOk(c, labs, objs', M', rings, q)
    {
      assert ObjOk(c, labs, objs, M, rings, q);
      if q != r && objs[q].Captured? {
        ChainFrame(c, labs, M, M', rings[q], TopAddr(rings[q][|rings[q]| - 1]), []);
        OwnedFrame(objs, objs', rings[q]);
      }
    }
  }

  // ----- segments -----

  /** A fresh stack becomes the running segment; what ran before keeps all its words. */
  lemma PushSeg(c: Image, labs: seq<Word>, objs: seq<L.Obj>, M: seq<Block>, segs: seq<Seg>, rings: Rings, seg: Seg)
    requires World(c, labs, objs, M, segs, rings, [])
    requires seg.blk == |M| && seg.base.NewBase? && SegOk(c, labs, seg)
    ensures World(c, labs, objs + [L.Segment], M + [Stk(SegWords(c, labs, seg, TopAddr(Last(segs))))], segs + [seg],
                  rings, [])
  {
    var blk := Stk(SegWords(c, labs, seg, TopAddr(Last(segs))));
    AddObject(c, labs, objs, M, segs, rings, [], L.Segment, blk);
    PushedMem(c, labs, M + [blk], segs, seg);
    PushedShape(c, labs, objs, segs, seg);
    PushedApart(c, labs, objs, M, rings, segs, seg);
  }

  lemma PushedMem(c: Image, labs: seq<Word>, M: seq<Block>, segs: seq<Seg>, seg: Seg)
    requires segs != [] && ChainMem(c, labs, M, segs, Int(0), [])
    requires seg.blk < |M| && M[seg.blk] == Stk(SegWords(c, labs, seg, TopAddr(Last(segs))))
    ensures ChainMem(c, labs, M, segs + [seg], Int(0), [])
  {
    hide SegWords, TopAddr;
    var segs' := segs + [seg];
    forall i | 0 <= i < |segs'|
      ensures segs'[i].blk < |M| && M[segs'[i].blk] == Stk(BlockWords(c, labs, segs', i, Int(0), []))
    {
      if i < |segs| {
        assert M[segs[i].blk] == Stk(BlockWords(c, labs, segs, i, Int(0), []));
        assert Exch(segs', i, Int(0)) == Exch(segs, i, Int(0));
      } else {
        assert SegWords(c, labs, seg, TopAddr(Last(segs))) + [] == SegWords(c, labs, seg, TopAddr(Last(segs)));
      }
    }
  }

  lemma PushedShape(c: Image, labs: seq<Word>, objs: seq<L.Obj>, segs: seq<Seg>, seg: Seg)
    requires SegsOk(c, labs, segs) && AllNew(segs[1..]) && Distinct(segs) && Owned(objs, segs)
    requires SegOk(c, labs, seg) && seg.base.NewBase? && seg.blk == |objs|
    ensures SegsOk(c, labs, segs + [seg]) && AllNew((segs + [seg])[1..])
    ensures Distinct(segs + [seg]) && Owned(objs + [L.Segment], segs + [seg])
  {
    assert (segs + [seg])[1..] == segs[1..] + [seg];
  }

  lemma PushedApart(c: Image, labs: seq<Word>, objs: seq<L.Obj>, M: seq<Block>, rings: Rings, segs: seq<Seg>, seg: Seg)
    requires HeapOk(c, labs, objs, M, rings) && RingsApart(rings, segs) && RingsCaptured(rings, objs)
    requires seg.blk == |objs|
    ensures RingsApart(rings, segs + [seg])
  {
    forall r | r in rings
      ensures Apart(rings[r], segs + [seg])
    {
      assert Apart(rings[r], segs);
      assert ObjOk(c, labs, objs, M, rings, r);
    }
  }

  lemma DropTop(c: Image, labs: seq<Word>, objs: seq<L.Obj>, M: seq<Block>, segs: seq<Seg>, rings: Rings,
                cur: seq<Word>, j: nat)
    requires World(c, labs, objs, M, segs, rings, cur) && 0 < j < |segs|
    ensures World(c, labs, objs, M, segs[..j], rings, [])
    ensures forall i :: j <= i < |segs| ==> OffChain(segs[..j], rings, segs[i].blk)
  {
    hide HeapOk, RingsCaptured, SegOk, SegWords, AllNew;
    assert M[segs[j - 1].blk] == Stk(BlockWords(c, labs, segs, j - 1, Int(0), cur));
    var ws := SegWords(c, labs, segs[j - 1], Exch(segs, j - 1, Int(0)));
    assert ws + [] == ws;
    assert M[segs[j - 1].blk := Stk(ws)] == M;
    CutAbove(c, labs, objs, M, segs, rings, cur, j - 1, segs[j - 1], []);
    assert segs[..j - 1] + [segs[j - 1]] == segs[..j];
    forall i | j <= i < |segs|
      ensures OffChain(segs[..j], rings, segs[i].blk)
    {
      RingsOff(rings, segs, i);
    }
  }

  /** The segment of a handler whose body has returned is dropped with its block. */
  lemma PopSeg(c: Image, labs: seq<Word>, objs: seq<L.Obj>, M: seq<Block>, segs: seq<Seg>, rings: Rings, ws: seq<Word>)
    requires World(c, labs, objs, M, segs, rings, []) && |segs| > 1
    ensures World(c, labs, objs, M[Last(segs).blk := Stk(ws)], segs[..|segs| - 1], rings, [])
  {
    DropTop(c, labs, objs, M, segs, rings, [], |segs| - 1);
    ChangeOffChain(c, labs, objs, M, segs[..|segs| - 1], rings, [], Last(segs).blk, ws);
  }

  // ----- raise: a suffix of the chain becomes a ring -----

  function SetExch(M: seq<Block>, b: nat, x: Word): (M': seq<Block>)
    requires b < |M| && |M[b].ws| > 3
    ensures |M'| == |M|
  {
    M[b := M[b].(ws := M[b].ws[3 := x])]
  }

  lemma CloseRing(c: Image, labs: seq<Word>, objs: seq<L.Obj>, M: seq<Block>, segs: seq<Seg>, rings: Rings, j: nat)
    requires World(c, labs, objs, M, segs, rings, []) && 0 < j < |segs|
    ensures segs[j].blk < |M| && M[segs[j].blk].Stk? && |M[segs[j].blk].ws| > 3
    ensures RingOk(c, labs, objs, SetExch(M, segs[j].blk, TopAddr(Last(segs))), segs[j..])
    ensures World(c, labs, objs, SetExch(M, segs[j].blk, TopAddr(Last(segs))), segs[..j], rings, [])
    ensures Apart(segs[j..], segs[..j])
  {
    hide HeapOk, RingsCaptured, SegOk, SegWords, ChainMem, BlockWords;
    var b, x := segs[j].blk, TopAddr(Last(segs));
    assert segs[1..][j - 1].base.NewBase?;
    ClosedMem(c, labs, M, segs, j);
    DropTop(c, labs, objs, M, segs, rings, [], j);
    ClosedShape(c, labs, objs, segs, j);
    hide World, RingOk;
    ChangeOffChain(c, labs, objs, M, segs[..j], rings, [], b, M[b].ws[3 := x]);
    ClosedRing(c, labs, objs, SetExch(M, b, x), segs, j);
  }

  lemma ClosedRing(c: Image, labs: seq<Word>, objs: seq<L.Obj>, M: seq<Block>, segs: seq<Seg>, j: nat)
    requires 0 < j < |segs| && ChainMem(c, labs, M, segs[j..], TopAddr(Last(segs)), [])
    requires SegsOk(c, labs, segs[j..]) && AllNew(segs[j..]) && Distinct(segs[j..]) && Owned(objs, segs[j..])
    ensures RingOk(c, labs, objs, M, segs[j..])
  {
    hide SegsOk, AllNew, Distinct, Owned, ChainMem;
  }

  lemma ClosedShape(c: Image, labs: seq<Word>, objs: seq<L.Obj>, segs: seq<Seg>, j: nat)
    requires SegsOk(c, labs, segs) && AllNew(segs[1..]) && Distinct(segs) && Owned(objs, segs) && 0 < j < |segs|
    ensures SegsOk(c, labs, segs[j..]) && AllNew(segs[j..]) && Distinct(segs[j..]) && Owned(objs, segs[j..])
    ensures Apart(segs[j..], segs[..j])
  {
    hide SegOk;
    assert segs[j..] == segs[1..][j - 1..];
  }

  lemma ClosedMem(c: Image, labs: seq<Word>, M: seq<Block>, segs: seq<Seg>, j: nat)
    requires ChainMem(c, labs, M, segs, Int(0), []) && Distinct(segs) && 0 < j < |segs| && segs[j].base.NewBase?
    ensures segs[j].blk < |M| && M[segs[j].blk].Stk? && |M[segs[j].blk].ws| > 3
    ensures ChainMem(c, labs, SetExch(M, segs[j].blk, TopAddr(Last(segs))), segs[j..], TopAddr(Last(segs)), [])
  {
    hide TopAddr;
    var b, x := segs[j].blk, TopAddr(Last(segs));
    assert M[b] == Stk(BlockWords(c, labs, segs, j, Int(0), []));
    var M', ring := SetExch(M, b, x), segs[j..];
    forall i | 0 <= i < |ring|
      ensures ring[i].blk < |M'| && M'[ring[i].blk] == Stk(BlockWords(c, labs, ring, i, x, []))
    {
      assert M[segs[j + i].blk] == Stk(BlockWords(c, labs, segs, j + i, Int(0), []));
      if i == 0 {
        ExchangeWord(c, labs, segs[j], TopAddr(segs[j - 1]), x);
        assert SegWords(c, labs, segs[j], TopAddr(segs[j - 1])) + [] == SegWords(c, labs, segs[j],
            TopAddr(segs[j - 1]));
        assert SegWords(c, labs, segs[j], x) + [] == SegWords(c, labs, segs[j], x);
      } else {
        assert Exch(ring, i, x) == Exch(segs, j + i, Int(0));
      }
    }
  }

  /** Word 3 of a handler's segment is its exchanger, and nothing else depends on it. */
  lemma ExchangeWord(c: Image, labs: seq<Word>, seg: Seg, x: Word, y: Word)
    requires seg.base.NewBase?
    ensures SegWords(c, labs, seg, x)[3] == x
    ensures SegWords(c, labs, seg, x)[3 := y] == SegWords(c, labs, seg, y)
  {
  }

  /** The ring becomes a resumption object. */
  lemma Capture(c: Image, labs: seq<Word>, objs: seq<L.Obj>, M: seq<Block>, segs: seq<Seg>, rings: Rings,
                ring: seq<Seg>)
    requires ring != []
    requires World(c, labs, objs, M, segs, rings, []) && RingOk(c, labs, objs, M, ring) && Apart(ring, segs)
    requires forall r :: r in rings ==> Apart(rings[r], ring)
    ensures World(c, labs, objs + [L.Captured(Strip(ring))], M + [Arr([Addr(ring[0].blk, -4)])], segs,
                  rings[|objs| := ring], [])
  {
    hide ObjOk, RingOk, SegsOk;
    var o, blk := L.Captured(Strip(ring)), Arr([Addr(ring[0].blk, -4)]);
    HeapMoreRings(c, labs, objs, M, rings, |objs|, ring);
    CapturedObj(c, labs, objs, M, rings[|objs| := ring], ring);
    HeapGrow(c, labs, objs, M, rings[|objs| := ring], o, blk);
    ChainFrame(c, labs, M, M + [blk], segs, Int(0), []);
    OwnedFrame(objs, objs + [o], segs);
    CapturedApart(rings, segs, |objs|, ring);
  }

  lemma CapturedObj(c: Image, labs: seq<Word>, objs: seq<L.Obj>, M: seq<Block>, rings: Rings, ring: seq<Seg>)
    requires |objs| == |M| && RingOk(c, labs, objs, M, ring)
    requires |objs| in rings && rings[|objs|] == ring
    ensures ObjOk(c, labs, objs + [L.Captured(Strip(ring))], M + [Arr([Addr(ring[0].blk, -4)])], rings, |objs|)
  {
    RingGrow(c, labs, objs, M, ring, L.Captured(Strip(ring)), Arr([Addr(ring[0].blk, -4)]));
  }

  lemma CapturedApart(rings: Rings, segs: seq<Seg>, r: nat, ring: seq<Seg>)
    requires RingsApart(rings, segs) && Apart(ring, segs) && r !in rings
    requires forall q :: q in rings ==> Apart(rings[q], ring)
    ensures RingsApart(rings[r := ring], segs)
  {
    var rings': Rings := rings[r := ring];
    forall p, q | p in rings' && q in rings' && p != q
      ensures Apart(rings'[p], rings'[q])
    {
      if q == r {
        assert Apart(rings[p], ring);
      } else if p == r {
        assert Apart(rings[q], ring);
      }
    }
  }

  lemma HeapMoreRings(c: Image, labs: seq<Word>, objs: seq<L.Obj>, M: seq<Block>, rings: Rings, r: nat, ring: seq<Seg>)
    requires HeapOk(c, labs, objs, M, rings) && r !in rings
    ensures HeapOk(c, labs, objs, M, rings[r := ring])
  {
    var rings': Rings := rings[r := ring];
    forall q | 0 <= q < |objs|
      ensures ObjOk(c, labs, objs, M, rings', q)
    {
      assert ObjOk(c, labs, objs, M, rings, q);
    }
  }

  // ----- resume: the ring is opened and spliced onto the chain -----

  lemma Splice(c: Image, labs: seq<Word>, objs: seq<L.Obj>, M: seq<Block>, segs: seq<Seg>, rings: Rings, r: nat)
    requires World(c, labs, objs, M, segs, rings, []) && r < |objs| && objs[r].Captured?
    ensures r in rings && rings[r] != [] && r < |M| && rings[r][0].blk < |M|
    ensures |M[r := Arr([Int(-71)])][rings[r][0].blk].ws| > 3
    ensures World(c, labs, objs[r := L.Spent], SetExch(M[r := Arr([Int(-71)])], rings[r][0].blk, TopAddr(Last(segs))),
                  segs + rings[r], rings - {r}, [])
  {
    assert segs != [] && |M| == |objs|;
    hide ObjOk, SegsOk, RingOk, ChainMem, HeapOk, Distinct, TopAddr, AllNew;
    var ring := SplicedRing(c, labs, objs, M, rings, r);
    var x, M1 := TopAddr(Last(segs)), M[r := Arr([Int(-71)])];
    assert M1[ring[0].blk] == M[ring[0].blk];
    var ws := M[ring[0].blk].ws[3 := x];
    assert Apart(ring, segs);
    SplicedHeap(c, labs, objs, M, segs, rings, r, ws);
    SplicedUntouched(objs, M, segs, ring, r, Arr([Int(-71)]), Stk(ws));
    SplicedMem(c, labs, M, M1[ring[0].blk := Stk(ws)], segs, ring);
    SplicedOwned(objs, segs, ring, rings, r);
    SplicedShape(c, labs, objs[r := L.Spent], segs, ring);
    SplicedApart(rings, segs, r);
  }

  lemma SplicedOwned(objs: seq<L.Obj>, segs: seq<Seg>, ring: seq<Seg>, rings: Rings, r: nat)
    requires Owned(objs, segs) && Owned(objs, ring) && RingsCaptured(rings, objs) && r < |objs| && objs[r].Captured?
    ensures Owned(objs[r := L.Spent], segs) && Owned(objs[r := L.Spent], ring)
    ensures RingsCaptured(rings - {r}, objs[r := L.Spent])
  {
    OwnedFrame(objs, objs[r := L.Spent], segs);
    OwnedFrame(objs, objs[r := L.Spent], ring);
  }

  lemma SplicedRing(c: Image, labs: seq<Word>, objs: seq<L.Obj>, M: seq<Block>, rings: Rings, r: nat)
    returns (ring: seq<Seg>)
    requires HeapOk(c, labs, objs, M, rings) && r < |objs| && objs[r].Captured?
    ensures r in rings && ring == rings[r] && ring != [] && SegsOk(c, labs, ring) && AllNew(ring) && Distinct(ring)
    ensures Owned(objs, ring)
    ensures ChainMem(c, labs, M, ring, TopAddr(Last(ring)), [])
    ensures ring[0].blk < |M| && ring[0].blk != r && M[ring[0].blk].Stk? && |M[ring[0].blk].ws| > 3
  {
    hide SegOk;
    assert ObjOk(c, labs, objs, M, rings, r);
    ring := rings[r];
    assert M[ring[0].blk] == Stk(BlockWords(c, labs, ring, 0, TopAddr(Last(ring)), []));
  }

  lemma SplicedUntouched(objs: seq<L.Obj>, M: seq<Block>, segs: seq<Seg>, ring: seq<Seg>, r: nat, blk: Block,
                         blk': Block)
    requires |M| == |objs| && r < |objs| && objs[r].Captured? && Owned(objs, segs) && Owned(objs, ring)
    requires Apart(ring, segs) && Distinct(ring) && ring != []
    ensures var M' := M[r := blk][ring[0].blk := blk'];
            |M'| == |M| &&
            (forall i :: 0 <= i < |segs| && segs[i].blk < |M| ==> M'[segs[i].blk] == M[segs[i].blk]) &&
            (forall i :: 0 < i < |ring| && ring[i].blk < |M| ==> M'[ring[i].blk] == M[ring[i].blk])
  {
  }

  /** The poisoned resumption and the opened ring leave all other objects alone. */
  lemma SplicedHeap(c: Image, labs: seq<Word>, objs: seq<L.Obj>, M: seq<Block>, segs: seq<Seg>, rings: Rings, r: nat,
                    ws: seq<Word>)
    requires HeapOk(c, labs, objs, M, rings) && RingsApart(rings, segs) && r < |objs| && objs[r].Captured? && r in rings
    requires rings[r] != [] && rings[r][0].blk < |objs| && objs[rings[r][0].blk].Segment?
    ensures HeapOk(c, labs, objs[r := L.Spent], M[r := Arr([Int(-71)])][rings[r][0].blk := Stk(ws)], rings - {r})
  {
    hide ObjOk;
    var b := rings[r][0].blk;
    var rings1: Rings := rings - {r};
    HeapUpdate(c, labs, objs, M, rings, r, L.Spent, Arr([Int(-71)]));
    HeapFewerRings(c, labs, objs[r := L.Spent], M[r := Arr([Int(-71)])], rings, r);
    forall q | q in rings1
      ensures forall i :: 0 <= i < |rings1[q]| ==> rings1[q][i].blk != b
    {
      assert Apart(rings[q], rings[r]);
    }
    HeapFrame(c, labs, objs[r := L.Spent], M[r := Arr([Int(-71)])], rings1, b, ws);
  }

  lemma HeapFewerRings(c: Image, labs: seq<Word>, objs: seq<L.Obj>, M: seq<Block>, rings: Rings, r: nat)
    requires HeapOk(c, labs, objs, M, rings) && r < |objs| && !objs[r].Captured?
    ensures HeapOk(c, labs, objs, M, rings - {r})
  {
    forall q | 0 <= q < |objs|
      ensures ObjOk(c, labs, objs, M, rings - {r}, q)
    {
      assert ObjOk(c, labs, objs, M, rings, q);
    }
  }

  lemma SplicedApart(rings: Rings, segs: seq<Seg>, r: nat)
    requires RingsApart(rings, segs) && r in rings
    ensures RingsApart(rings - {r}, segs + rings[r])
  {
    forall q | q in rings - {r}
      ensures Apart((rings - {r})[q], segs + rings[r])
    {
      assert Apart(rings[q], segs) && Apart(rings[q], rings[r]);
    }
  }

  lemma SplicedShape(c: Image, labs: seq<Word>, objs: seq<L.Obj>, segs: seq<Seg>, ring: seq<Seg>)
    requires SegsOk(c, labs, segs) && segs[0].base.MainBase? && segs[0].blk == 0 && AllNew(segs[1..])
    requires SegsOk(c, labs, ring) && AllNew(ring) && Distinct(segs) && Distinct(ring) && Apart(ring, segs)
    requires Owned(objs, segs) && Owned(objs, ring)
    ensures SegsOk(c, labs, segs + ring) && AllNew((segs + ring)[1..]) && Distinct(segs + ring)
    ensures Owned(objs, segs + ring)
  {
    assert (segs + ring)[1..] == segs[1..] + ring;
  }

  lemma SplicedMem(c: Image, labs: seq<Word>, M: seq<Block>, M': seq<Block>, segs: seq<Seg>, ring: seq<Seg>)
    requires segs != [] && ring != [] && AllNew(ring) && Distinct(ring) && Apart(ring, segs)
    requires ChainMem(c, labs, M, segs, Int(0), []) && ChainMem(c, labs, M, ring, TopAddr(Last(ring)), [])
    requires |M'| == |M|
    requires forall i :: 0 <= i < |segs| && segs[i].blk < |M| ==> M'[segs[i].blk] == M[segs[i].blk]
    requires forall i :: 0 < i < |ring| && ring[i].blk < |M| ==> M'[ring[i].blk] == M[ring[i].blk]
    requires ring[0].blk < |M| && |M[ring[0].blk].ws| > 3
    requires M'[ring[0].blk] == M[ring[0].blk].(ws := M[ring[0].blk].ws[3 := TopAddr(Last(segs))])
    ensures ChainMem(c, labs, M', segs + ring, Int(0), [])
  {
    hide SegWords, TopAddr, BlockWords;
    var all := segs + ring;
    forall i | 0 <= i < |all|
      ensures all[i].blk < |M'| && M'[all[i].blk] == Stk(BlockWords(c, labs, all, i, Int(0), []))
    {
      if i < |segs| {
        LowerBlock(c, labs, segs, ring, i);
      } else {
        SplicedBlock(c, labs, M, M', segs, ring, i - |segs|);
      }
    }
  }

  lemma LowerBlock(c: Image, labs: seq<Word>, segs: seq<Seg>, ring: seq<Seg>, i: nat)
    requires i < |segs|
    ensures BlockWords(c, labs, segs + ring, i, Int(0), []) == BlockWords(c, labs, segs, i, Int(0), [])
  {
    assert Exch(segs + ring, i, Int(0)) == Exch(segs, i, Int(0));
  }

  lemma SplicedBlock(c: Image, labs: seq<Word>, M: seq<Block>, M': seq<Block>, segs: seq<Seg>, ring: seq<Seg>, k: nat)
    requires segs != [] && k < |ring| && ring[0].base.NewBase? && |M'| == |M|
    requires ring[k].blk < |M| && M[ring[k].blk] == Stk(BlockWords(c, labs, ring, k, TopAddr(Last(ring)), []))
    requires k > 0 ==> M'[ring[k].blk] == M[ring[k].blk]
    requires k == 0 ==> |M[ring[0].blk].ws| > 3
                        && M'[ring[0].blk] == M[ring[0].blk].(ws := M[ring[0].blk].ws[3 := TopAddr(Last(segs))])
    ensures M'[ring[k].blk] == Stk(BlockWords(c, labs, segs + ring, |segs| + k, Int(0), []))
  {
    var x := TopAddr(Last(ring));
    if k == 0 {
      ExchangeWord(c, labs, ring[0], x, TopAddr(Last(segs)));
      assert SegWords(c, labs, ring[0], x) + [] == SegWords(c, labs, ring[0], x);
      assert SegWords(c, labs, ring[0], TopAddr(Last(segs))) + [] == SegWords(c, labs, ring[0], TopAddr(Last(segs)));
    } else {
      assert Exch(segs + ring, |segs| + k, Int(0)) == Exch(ring, k, x);
    }
  }
}
