/** Simulation of calls, handler installation, the three kinds of raise, and resume. */
module Handlers {
  import opened Options
  import opened Salt
  import opened SaltRules
  import opened Translate
  import opened Assembler
  import opened Linking
  import opened Layout
  import opened LayoutSteps
  import opened Matching
  import opened Activations
  import opened Statements
  import opened ReturnSteps
  import L = Lexa

  // ----- where a handler instance lies -----

  /** Handler frame i of the continuation is a header in segment j: the segment's own when
      f is None, else the one of frame f on it. */
  ghost predicate LiesAt(segs: seq<Seg>, i: nat, j: nat, f: Option<nat>)
  {
    var k := Strip(segs);
    i < |k| && j < |segs| &&
    match f
    case None =>
      segs[j].base.NewBase? && [k[i]] == StripBase(segs[j].base) &&
      k[..i] == Strip(segs[..j]) && k[i..] == Strip(segs[j..])
    case Some(f) =>
      f < |segs[j].fs| && segs[j].fs[f].MSame? && [k[i]] == StripFrame(segs[j].fs[f]) &&
      k[..i] == Strip(segs[..j]) + StripSeg(segs[j].(fs := segs[j].fs[..f]))
  }

  lemma {:induction false} LocateInFs(fs: seq<MFrame>, i: nat) returns (f: nat)
    requires i < |StripFs(fs)| && !StripFs(fs)[i].LetK?
    ensures f < |fs| && fs[f].MSame? && [StripFs(fs)[i]] == StripFrame(fs[f]) && StripFs(fs)[..i] == StripFs(fs[..f])
  {
    var front, last := fs[..|fs| - 1], fs[|fs| - 1];
    if i < |StripFs(front)| {
      f := LocateInFs(front, i);
      assert front[..f] == fs[..f];
    } else {
      f := |fs| - 1;
    }
  }

  lemma LocateInSeg(seg: Seg, i: nat) returns (f: Option<nat>)
    requires i < |StripSeg(seg)| && !StripSeg(seg)[i].LetK?
    ensures f.None? ==> i == 0 && seg.base.NewBase? && [StripSeg(seg)[i]] == StripBase(seg.base)
    ensures f.Some? ==> f.value < |seg.fs| && seg.fs[f.value].MSame?
                        && [StripSeg(seg)[i]] == StripFrame(seg.fs[f.value]) &&
                        StripSeg(seg)[..i] == StripSeg(seg.(fs := seg.fs[..f.value]))
  {
    var n := |StripBase(seg.base)|;
    if i < n {
      f := None;
    } else {
      var f' := LocateInFs(seg.fs, i - n);
      assert StripSeg(seg)[..i] == StripBase(seg.base) + StripFs(seg.fs)[..i - n];
      f := Some(f');
    }
  }

  lemma {:induction false} Locate(segs: seq<Seg>, i: nat) returns (j: nat, f: Option<nat>)
    requires i < |Strip(segs)| && !Strip(segs)[i].LetK?
    ensures LiesAt(segs, i, j, f)
  {
    hide StripSeg, LiesAt;
    var front, last := segs[..|segs| - 1], segs[|segs| - 1];
    assert front + [last] == segs;
    if i < |Strip(front)| {
      j, f := Locate(front, i);
      LiesLower(front, last, i, j, f);
    } else {
      j := |segs| - 1;
      f := LocateInSeg(last, i - |Strip(front)|);
      LiesTop(front, last, i, f);
    }
  }

  lemma LiesTop(front: seq<Seg>, last: Seg, i: nat, f: Option<nat>)
    requires |Strip(front)| <= i < |Strip(front)| + |StripSeg(last)|
    requires var i' := i - |Strip(front)|;
             (f.None? ==> i' == 0 && last.base.NewBase? && [StripSeg(last)[i']] == StripBase(last.base)) &&
             (f.Some? ==> f.value < |last.fs| && last.fs[f.value].MSame?
                          && [StripSeg(last)[i']] == StripFrame(last.fs[f.value]) &&
                          StripSeg(last)[..i'] == StripSeg(last.(fs := last.fs[..f.value])))
    ensures LiesAt(front + [last], i, |front|, f)
  {
    StripSnoc(front, last);
    assert (front + [last])[|front|..] == [last] && (front + [last])[..|front|] == front;
    assert [] + [last] == [last];
    StripSnoc([], last);
    hide StripSeg, Strip, StripBase, StripFrame;
    SplitTail(Strip(front), StripSeg(last), i);
  }

  lemma SplitTail<T>(a: seq<T>, b: seq<T>, i: nat)
    requires |a| <= i < |a| + |b|
    ensures (a + b)[i] == b[i - |a|] && (a + b)[..i] == a + b[..i - |a|] && (a + b)[i..] == b[i - |a|..]
    ensures i == |a| ==> (a + b)[..i] == a && (a + b)[i..] == [] + b
  {
  }

  lemma LiesLower(front: seq<Seg>, last: Seg, i: nat, j: nat, f: Option<nat>)
    requires LiesAt(front, i, j, f)
    ensures LiesAt(front + [last], i, j, f)
  {
    hide StripSeg, StripBase, StripFrame;
    StripSnoc(front, last);
    assert (front + [last])[..j] == front[..j];
    assert (front + [last])[j..] == front[j..] + [last];
    StripSnoc(front[j..], last);
    hide Strip;
    SplitAtIndex(Strip(front), StripSeg(last), i);
  }

  lemma SplitAtIndex<T>(a: seq<T>, b: seq<T>, i: nat)
    requires i < |a|
    ensures (a + b)[i] == a[i] && (a + b)[..i] == a[..i] && (a + b)[i..] == a[i..] + b
  {
  }

  // ----- what a header holds -----

  /** The header of an instance of operation op with environment e stands at address a. */
  ghost predicate HeaderAt(c: Image, labs: seq<Word>, M: seq<Block>, a: Word, op: string, e: L.Val)
  {
    && a.Addr? && ValOk(c, labs, e)
    && ReadMem(M, a.b, a.o + 3) == Some(Code(FunAddr(c, op)))
    && ReadMem(M, a.b, a.o + 2) == Some(W(c, labs, e))
  }

  lemma {:induction false} FrameIn(c: Image, labs: seq<Word>, blk: nat, below: nat, fs: seq<MFrame>, f: nat)
    requires f < |fs| && FsOk(c, labs, blk, below, fs)
    ensures FrameOk(c, labs, blk, below + FsLen(fs[..f]), fs[f])
    ensures FsLen(fs[..f]) + FrameLen(fs[f]) <= FsLen(fs)
    ensures FsWords(c, labs, fs)[FsLen(fs[..f])..FsLen(fs[..f]) + FrameLen(fs[f])] == FrameWords(c, labs, fs[f])
    decreases |fs|
  {
    hide FrameOk, FrameWords;
    var front := fs[..|fs| - 1];
    if f < |front| {
      FrameIn(c, labs, blk, below, front, f);
      assert front[..f] == fs[..f];
    }
  }

  lemma HeaderInFrame(c: Image, labs: seq<Word>, M: seq<Block>, seg: Seg, x: Word, cur: seq<Word>, f: nat)
    requires SegOk(c, labs, seg) && seg.blk < |M| && M[seg.blk] == Stk(SegWords(c, labs, seg, x) + cur)
    requires f < |seg.fs| && seg.fs[f].MSame?
    ensures seg.fs[f].h < |labs|
    ensures ValOk(c, labs, seg.fs[f].e) && HeaderAt(c, labs, M, labs[seg.fs[f].h], seg.fs[f].op, seg.fs[f].e)
    ensures labs[seg.fs[f].h] == Addr(seg.blk, 0 - (SegLen(seg.(fs := seg.fs[..f])) + 4))
    ensures SegOk(c, labs, seg.(fs := seg.fs[..f])) && SegLen(seg.(fs := seg.fs[..f])) + 4 <= SegLen(seg)
    ensures SegWords(c, labs, seg.(fs := seg.fs[..f]), x) == SegWords(c, labs, seg,
                                                                      x)[..SegLen(seg.(fs := seg.fs[..f]))]
  {
    hide FsOk, FsWords, FsLen, BaseWords, SegWords, SegOk;
    var n := SegLen(seg.(fs := seg.fs[..f]));
    LowSeg(c, labs, seg, x, f);
    ReadHeader(M, seg.blk, n, SegWords(c, labs, seg, x), cur, FrameWords(c, labs, seg.fs[f]));
  }

  /** The part of a segment below frame f. */
  lemma LowSeg(c: Image, labs: seq<Word>, seg: Seg, x: Word, f: nat)
    requires SegOk(c, labs, seg) && f < |seg.fs|
    ensures var low := seg.(fs := seg.fs[..f]);
            SegOk(c, labs, low) && SegLen(low) + FrameLen(seg.fs[f]) <= SegLen(seg) &&
            FrameOk(c, labs, seg.blk, SegLen(low), seg.fs[f]) &&
            SegWords(c, labs, seg, x)[SegLen(low)..SegLen(low) + FrameLen(seg.fs[f])] ==
            FrameWords(c, labs, seg.fs[f]) &&
            SegWords(c, labs, low, x) == SegWords(c, labs, seg, x)[..SegLen(low)]
  {
    hide FrameOk, FrameWords, FrameLen;
    FrameIn(c, labs, seg.blk, BaseLen(seg.base), seg.fs, f);
    FsPrefix(c, labs, seg.blk, BaseLen(seg.base), seg.fs, f);
    hide FsOk, FsWords, FsLen, SegWords;
    HeaderSlice(c, labs, seg, x, f);
  }

  lemma ReadHeader(M: seq<Block>, b: nat, n: nat, ws: seq<Word>, cur: seq<Word>, header: seq<Word>)
    requires b < |M| && M[b] == Stk(ws + cur) && |header| == 5 && n + 5 <= |ws| && ws[n..n + 5] == header
    ensures ReadMem(M, b, 0 - (n + 4) + 3) == Some(header[0])
    ensures ReadMem(M, b, 0 - (n + 4) + 2) == Some(header[1])
  {
    assert ws[n..n + 5][0] == ws[n] && ws[n..n + 5][1] == ws[n + 1];
  }

  lemma HeaderSlice(c: Image, labs: seq<Word>, seg: Seg, x: Word, f: nat)
    requires f < |seg.fs|
    requires FsLen(seg.fs[..f]) + FrameLen(seg.fs[f]) <= FsLen(seg.fs)
    requires FsWords(c, labs, seg.fs)[FsLen(seg.fs[..f])..FsLen(seg.fs[..f]) + FrameLen(seg.fs[f])] == FrameWords(c,
             labs, seg.fs[f])
    requires FsWords(c, labs, seg.fs[..f]) == FsWords(c, labs, seg.fs)[..FsLen(seg.fs[..f])]
    ensures var n := SegLen(seg.(fs := seg.fs[..f]));
            SegWords(c, labs, seg, x)[n..n + FrameLen(seg.fs[f])] == FrameWords(c, labs, seg.fs[f]) &&
            SegWords(c, labs, seg.(fs := seg.fs[..f]), x) == SegWords(c, labs, seg, x)[..n]
  {
    hide FsWords, FsLen, FrameWords, BaseWords;
  }

  lemma HeaderInBase(c: Image, labs: seq<Word>, M: seq<Block>, seg: Seg, x: Word, cur: seq<Word>)
    requires SegOk(c, labs, seg) && seg.blk < |M| && M[seg.blk] == Stk(SegWords(c, labs, seg, x) + cur)
    requires seg.base.NewBase?
    ensures seg.base.h < |labs| && labs[seg.base.h] == Addr(seg.blk, -4)
    ensures ValOk(c, labs, seg.base.e) && HeaderAt(c, labs, M, labs[seg.base.h], seg.base.op, seg.base.e)
    ensures ReadMem(M, seg.blk, -4) == Some(x)
  {
    hide FsWords, FsOk;
  }

  lemma SegMem(c: Image, s0: State, k: seq<L.Frame>, objs: seq<L.Obj>, nh: nat, m: Salted, cur: seq<Word>, j: nat)
    returns (above: seq<Word>)
    requires StoreMatches(c, s0, k, objs, nh, m, cur) && j < |m.segs|
    ensures m.segs[j].blk < |m.M| && SegOk(c, m.labs, m.segs[j]) && SegCode(c, m.segs[j])
    ensures m.M[m.segs[j].blk] == Stk(SegWords(c, m.labs, m.segs[j], Exch(m.segs, j, Int(0))) + above)
    ensures j == |m.segs| - 1 ==> above == cur
    ensures j < |m.segs| - 1 ==> above == []
    ensures j > 0 <==> m.segs[j].base.NewBase?
  {
    hide SegOk, SegWords, SegCode, HeapOk, RingsApart, RingsCaptured, RingsCode, At;
    assert m.M[m.segs[j].blk] == Stk(BlockWords(c, m.labs, m.segs, j, Int(0), cur));
    above := if j == |m.segs| - 1 then cur else [];
    if j > 0 {
      assert m.segs[1..][j - 1].base.NewBase?;
    }
  }

  /** The label of any handler instance in the continuation leads to its header. */
  lemma HeaderOf(c: Image, s0: State, k: seq<L.Frame>, objs: seq<L.Obj>, nh: nat, m: Salted, cur: seq<Word>, i: nat)
    requires StoreMatches(c, s0, k, objs, nh, m, cur) && i < |k| && !k[i].LetK?
    ensures k[i].h < |m.labs| && HeaderAt(c, m.labs, m.M, m.labs[k[i].h], k[i].op, k[i].e)
    ensures ValOk(c, m.labs, k[i].e) && User(k[i].op) in c.lm
  {
    hide World, SegWords, SegsCode, RingsCode, At, SegOk;
    var j, f := Locate(m.segs, i);
    var above := SegMem(c, s0, k, objs, nh, m, cur, j);
    match f
    case None => HeaderInBase(c, m.labs, m.M, m.segs[j], Exch(m.segs, j, Int(0)), above);
    case Some(f) => HeaderInFrame(c, m.labs, m.M, m.segs[j], Exch(m.segs, j, Int(0)), above, f);
                    assert FrameCode(c, m.segs[j].fs[f]);
  }
}
