/** Simulation of a returned value meeting the topmost frame. */
module ReturnSteps {
  import opened Options
  import opened Salt
  import opened SaltRules
  import opened Translate
  import opened Assembler
  import opened Linking
  import opened Layout
  import opened LayoutSteps
  import opened Matching
  import opened Activations
  import L = Lexa

  /** The running segment without its topmost frame. */
  function Popped(segs: seq<Seg>): (segs': seq<Seg>)
    requires segs != [] && Last(segs).fs != []
    ensures |segs'| == |segs| && Last(segs').blk == Last(segs).blk
    ensures WithFrame(segs', Last(segs).fs[|Last(segs).fs| - 1]) == segs
  {
    var top := Last(segs);
    var segs' := segs[..|segs| - 1] + [top.(fs := top.fs[..|top.fs| - 1])];
    assert top.fs[..|top.fs| - 1] + [top.fs[|top.fs| - 1]] == top.fs;
    segs'
  }

  lemma PoppedWords(c: Image, s0: State, k: seq<L.Frame>, objs: seq<L.Obj>, nh: nat, m: Salted) returns (ws: seq<Word>)
    requires m.segs != [] && Last(m.segs).fs != [] && StoreMatches(c, s0, k, objs, nh, m, [])
    ensures ws == SegWords(c, m.labs, Last(Popped(m.segs)), Exch(m.segs, |m.segs| - 1, Int(0)))
    ensures m.M[Last(m.segs).blk] == Stk(ws + FrameWords(c, m.labs, TopFrame(m.segs)))
    ensures SegOk(c, m.labs, Last(Popped(m.segs)))
    ensures FrameOk(c, m.labs, Last(m.segs).blk, SegLen(Last(Popped(m.segs))), TopFrame(m.segs))
  {
    hide World, SegsCode, RingsCode, Run, At;
    TopWords(c, s0, k, objs, nh, m, []);
    var top, top', f := Last(m.segs), Last(Popped(m.segs)), TopFrame(m.segs);
    var x := Exch(m.segs, |m.segs| - 1, Int(0));
    ws := SegWords(c, m.labs, top', x);
    assert top == top'.(fs := top'.fs + [f]);
    FsSnoc(c, m.labs, top.blk, BaseLen(top.base), top'.fs, f);
    SegSnoc(c, m.labs, top', f, x);
    assert SegWords(c, m.labs, top, x) + [] == SegWords(c, m.labs, top, x);
  }

  /** The frame leaves the layout; cur' are the words of it that are still on the stack. */
  lemma PopFrame(c: Image, s0: State, k: seq<L.Frame>, objs: seq<L.Obj>, nh: nat, m: Salted, cur': seq<Word>)
    requires m.segs != [] && Last(m.segs).fs != [] && StoreMatches(c, s0, k, objs, nh, m, [])
    ensures World(c, m.labs, objs,
                  m.M[Last(m.segs).blk := Stk(SegWords(c, m.labs, Last(Popped(m.segs)),
                                                       Exch(m.segs, |m.segs| - 1, Int(0))) + cur')],
                  Popped(m.segs), m.rings, cur')
    ensures SegsCode(c, Popped(m.segs)) && k == Strip(Popped(m.segs)) + StripFrame(TopFrame(m.segs))
    ensures FrameCode(c, TopFrame(m.segs))
  {
    var ws := PoppedWords(c, s0, k, objs, nh, m);
    StripWithFrame(Popped(m.segs), TopFrame(m.segs));
    PoppedCode(c, m.segs);
    hide World, SegWords, SegOk, SegsCode, FrameCode;
    ReplaceTop(c, m.labs, objs, m.M, m.segs, m.rings, [], Last(Popped(m.segs)), cur');
  }

  lemma PoppedCode(c: Image, segs: seq<Seg>)
    requires segs != [] && Last(segs).fs != [] && SegsCode(c, segs)
    ensures SegsCode(c, Popped(segs)) && FrameCode(c, TopFrame(segs))
  {
    hide FrameCode, BaseCode;
    assert SegCode(c, Last(segs));
    forall i | 0 <= i < |segs|
      ensures SegCode(c, Popped(segs)[i])
    {
      assert SegCode(c, segs[i]);
    }
  }

  /** A return consumes the return address on top of the running stack. */
  lemma ReturnInto(c: Image, s0: State, k: seq<L.Frame>, objs: seq<L.Obj>, nh: nat, m: Salted, v: L.Val,
                   below: seq<Word>, ret: int)
    requires m.segs != [] && Returns(c, s0, k, objs, nh, m, v)
    requires m.M[Last(m.segs).blk] == Stk(below + [Code(ret)])
    ensures At(c.im, s0, m.n + 1, m.R, m.M[Last(m.segs).blk := Stk(below)], ret, Last(m.segs).blk)
  {
    hide World, Run;
    DoReturnTo(c.im, s0, m.n, m.R, m.M, m.pc, Last(m.segs).blk, ret);
    assert (below + [Code(ret)])[..|below|] == below;
  }

  lemma SkipTramp(c: Image, s0: State, k: seq<L.Frame>, objs: seq<L.Obj>, nh: nat, m: Salted, v: L.Val)
    returns (m': Salted)
    requires m.segs != [] && Returns(c, s0, k, objs, nh, m, v)
    requires Last(m.segs).fs != [] && TopFrame(m.segs).MTramp?
    ensures m'.n > m.n && m'.segs == Popped(m.segs) && m'.labs == m.labs && m'.rings == m.rings
    ensures Returns(c, s0, k, objs, nh, m', v)
  {
    hide World, Run, SegWords, SegsCode, RingsCode, StmtAt, SegOk, FrameOk;
    var ws := PoppedWords(c, s0, k, objs, nh, m);
    PopFrame(c, s0, k, objs, nh, m, []);
    ReturnInto(c, s0, k, objs, nh, m, v, ws, TopFrame(m.segs).ret);
    assert ws + [] == ws;
    m' := m.(n := m.n + 1, M := m.M[Last(m.segs).blk := Stk(ws)], segs := Popped(m.segs), pc := TopFrame(m.segs).ret);
  }

  /** Trampolines have gone from the running segment, and nothing else. */
  ghost predicate TrampsGone(m: Salted, m': Salted)
  {
    && m'.labs == m.labs && m'.rings == m.rings && m.segs != [] && m'.segs != []
    && |Last(m'.segs).fs| <= |Last(m.segs).fs| && m'.segs == CutAt(m.segs, |m.segs| - 1, |Last(m'.segs).fs|)
    && forall i :: |Last(m'.segs).fs| <= i < |Last(m.segs).fs| ==> Last(m.segs).fs[i].MTramp?
  }

  lemma NoneGone(m: Salted)
    requires m.segs != []
    ensures TrampsGone(m, m)
  {
    var fs := Last(m.segs).fs;
    assert fs[..|fs|] == fs && m.segs == m.segs[..|m.segs| - 1] + [Last(m.segs)];
  }

  lemma TrampGone(m: Salted, m1: Salted, m': Salted)
    requires m.segs != [] && Last(m.segs).fs != [] && TopFrame(m.segs).MTramp?
    requires m1.segs == Popped(m.segs) && m1.labs == m.labs && m1.rings == m.rings && TrampsGone(m1, m')
    ensures TrampsGone(m, m')
  {
    var fs, n := Last(m.segs).fs, |Last(m'.segs).fs|;
    assert fs[..|fs| - 1][..n] == fs[..n];
    forall i | n <= i < |fs|
      ensures fs[i].MTramp?
    {
      assert i < |fs| - 1 ==> Last(m1.segs).fs[i].MTramp?;
    }
  }

  /** Return addresses of finished operation clauses are returned through. */
  lemma {:induction false} SkipTramps(c: Image, s0: State, k: seq<L.Frame>, objs: seq<L.Obj>, nh: nat, m: Salted,
                                      v: L.Val) returns (m': Salted)
    requires m.segs != [] && Returns(c, s0, k, objs, nh, m, v)
    ensures m'.n >= m.n && m'.segs != [] && Returns(c, s0, k, objs, nh, m', v)
    ensures Last(m'.segs).fs == [] || !TopFrame(m'.segs).MTramp?
    ensures TrampsGone(m, m')
    decreases |Last(m.segs).fs|
  {
    hide Returns;
    if Last(m.segs).fs != [] && TopFrame(m.segs).MTramp? {
      var m1 := SkipTramp(c, s0, k, objs, nh, m, v);
      m' := SkipTramps(c, s0, k, objs, nh, m1, v);
      TrampGone(m, m1, m');
    } else {
      m' := m;
      NoneGone(m);
    }
  }

  lemma ReturnToLet(c: Image, s0: State, k: seq<L.Frame>, objs: seq<L.Obj>, nh: nat, m: Salted, v: L.Val)
    returns (m': Salted)
    requires m.segs != [] && Returns(c, s0, k, objs, nh, m, v)
    requires Last(m.segs).fs != [] && TopFrame(m.segs).MLet?
    ensures k != [] && k[|k| - 1] == StripFrame(TopFrame(m.segs))[0]
    ensures m'.n > m.n && m'.segs == Popped(m.segs) && m'.labs == m.labs && m'.rings == m.rings
    ensures var f := TopFrame(m.segs); Evaluates(c, s0, k[..|k| - 1], objs, nh, m', f.t, [(f.x, v)] + f.env)
  {
    hide World, Run, SegWords, SegsCode, RingsCode, StmtAt, SegOk, EnvOk, Strip, Popped;
    var f := TopFrame(m.segs);
    var ws := PoppedWords(c, s0, k, objs, nh, m);
    var words := EnvWords(c, m.labs, f.env);
    PopFrame(c, s0, k, objs, nh, m, words);
    assert k[..|k| - 1] == Strip(Popped(m.segs));
    Associate(ws, words, [Code(f.ret)]);
    ReturnInto(c, s0, k, objs, nh, m, v, ws + words, f.ret);
    var m1 := m.(n := m.n + 1, M := m.M[Last(m.segs).blk := Stk(ws + words)], segs := Popped(m.segs), pc := f.ret);
    m' := FinishBind(c, s0, k[..|k| - 1], objs, nh, m1, f.env, 1, f.x, v, f.t);
  }

  lemma ReturnThroughSame(c: Image, s0: State, k: seq<L.Frame>, objs: seq<L.Obj>, nh: nat, m: Salted, v: L.Val)
    returns (m': Salted)
    requires m.segs != [] && Returns(c, s0, k, objs, nh, m, v)
    requires Last(m.segs).fs != [] && TopFrame(m.segs).MSame?
    ensures k != [] && k[|k| - 1] == StripFrame(TopFrame(m.segs))[0]
    ensures m'.n > m.n && m'.segs == Popped(m.segs) && m'.labs == m.labs && m'.rings == m.rings
    ensures Returns(c, s0, k[..|k| - 1], objs, nh, m', v)
  {
    hide World, Run, SegWords, SegsCode, RingsCode, StmtAt, SegOk, FrameOk;
    var f, b := TopFrame(m.segs), Last(m.segs).blk;
    var ws := PoppedWords(c, s0, k, objs, nh, m);
    PopFrame(c, s0, k, objs, nh, m, []);
    assert k[..|k| - 1] == Strip(Popped(m.segs));
    var M' := LeaveSame(c, s0, k, objs, nh, m, v, f, ws);
    assert ws + [] == ws;
    m' := m.(n := m.n + 2, M := M', segs := Popped(m.segs), pc := f.ret + 1);
  }

  /** return; sfree 4, through a header on the same stack. */
  lemma LeaveSame(c: Image, s0: State, k: seq<L.Frame>, objs: seq<L.Obj>, nh: nat, m: Salted, v: L.Val, f: MFrame,
                  ws: seq<Word>)
    returns (M': seq<Block>)
    requires m.segs != [] && Returns(c, s0, k, objs, nh, m, v)
    requires f.MSame? && FrameCode(c, f) && m.M[Last(m.segs).blk] == Stk(ws + FrameWords(c, m.labs, f))
    ensures M' == m.M[Last(m.segs).blk := Stk(ws)]
    ensures At(c.im, s0, m.n + 2, m.R, M', f.ret + 1, Last(m.segs).blk)
  {
    hide World, Run, SegWords, SegsCode, RingsCode;
    var b := Last(m.segs).blk;
    var header := FrameWords(c, m.labs, f)[..4];
    assert ws + FrameWords(c, m.labs, f) == (ws + header) + [Code(f.ret)];
    ReturnInto(c, s0, k, objs, nh, m, v, ws + header, f.ret);
    var M1 := m.M[b := Stk(ws + header)];
    DoSfreeTop(c.im, s0, m.n + 1, m.R, M1, f.ret, b, 4);
    assert (ws + header)[..|ws|] == ws;
    M' := m.M[b := Stk(ws)];
    assert M1[b := Stk(ws)] == M';
  }

  /** The body of a handle+ returns: its stack is emptied and control moves to the stack
      that the exchanger names, whichever one resumed it last. */
  lemma ReturnThroughNew(c: Image, s0: State, k: seq<L.Frame>, objs: seq<L.Obj>, nh: nat, m: Salted, v: L.Val)
    returns (m': Salted)
    requires m.segs != [] && Returns(c, s0, k, objs, nh, m, v)
    requires Last(m.segs).fs == [] && Last(m.segs).base.NewBase?
    ensures k != [] && k[|k| - 1] == StripBase(Last(m.segs).base)[0]
    ensures |m.segs| > 1 && m'.n > m.n && m'.segs == m.segs[..|m.segs| - 1] && m'.labs == m.labs && m'.rings == m.rings
    ensures Returns(c, s0, k[..|k| - 1], objs, nh, m', v)
  {
    hide World, Run, SegWords, SegsCode, RingsCode, SegOk, StmtAt;
    var base, b, lower := Last(m.segs).base, Last(m.segs).blk, m.segs[..|m.segs| - 1];
    var parent, header := NewOnTop(c, s0, k, objs, nh, m);
    var M1 := m.M[b := Stk([])];
    var R := LeaveStack(c, s0, k, objs, nh, m, v, header, base.ret, TopAddr(parent));
    DoMovSp(c.im, s0, m.n + 3, R, M1, base.ret + 2, b, 2, parent.blk, SegLen(parent));
    assert M1[parent.blk].ws[..SegLen(parent)] == M1[parent.blk].ws;
    assert M1[parent.blk := Stk(M1[parent.blk].ws)] == M1;
    m' := m.(n := m.n + 4, R := R, M := M1, segs := lower, pc := base.ret + 3);
  }

  lemma NewOnTop(c: Image, s0: State, k: seq<L.Frame>, objs: seq<L.Obj>, nh: nat, m: Salted)
    returns (parent: Seg, header: seq<Word>)
    requires m.segs != [] && StoreMatches(c, s0, k, objs, nh, m, [])
    requires Last(m.segs).fs == [] && Last(m.segs).base.NewBase?
    ensures |m.segs| > 1 && parent == Last(m.segs[..|m.segs| - 1])
    ensures k != [] && k[|k| - 1] == StripBase(Last(m.segs).base)[0] && k[..|k| - 1] == Strip(m.segs[..|m.segs| - 1])
    ensures |header| == 4 && header[3] == TopAddr(parent)
    ensures m.M[Last(m.segs).blk] == Stk(header + [Code(Last(m.segs).base.ret)])
    ensures IsStack(m.M, parent.blk) && parent.blk != Last(m.segs).blk && |m.M[parent.blk].ws| == SegLen(parent)
    ensures World(c, m.labs, objs, m.M[Last(m.segs).blk := Stk([])], m.segs[..|m.segs| - 1], m.rings, [])
    ensures SegsCode(c, m.segs[..|m.segs| - 1]) && BaseCode(c, Last(m.segs).base)
  {
    hide World, RingsCode, At, Run, TopAddr, SegLen;
    parent, header := ParentOf(c, s0, k, objs, nh, m);
    LowerCode(c, m.segs, |m.segs| - 1);
    assert SegCode(c, Last(m.segs));
    hide SegsCode;
    PopSeg(c, m.labs, objs, m.M, m.segs, m.rings, []);
    StripLast(m.segs);
  }

  lemma BareSeg(c: Image, labs: seq<Word>, seg: Seg, x: Word)
    requires seg.fs == []
    ensures SegWords(c, labs, seg, x) + [] == BaseWords(c, labs, seg.base, x)
  {
  }

  lemma StripLast(segs: seq<Seg>)
    requires segs != [] && Last(segs).fs == []
    ensures Strip(segs) == Strip(segs[..|segs| - 1]) + StripBase(Last(segs).base)
  {
  }

  lemma ParentOf(c: Image, s0: State, k: seq<L.Frame>, objs: seq<L.Obj>, nh: nat, m: Salted)
    returns (parent: Seg, header: seq<Word>)
    requires m.segs != [] && StoreMatches(c, s0, k, objs, nh, m, [])
    requires Last(m.segs).fs == [] && Last(m.segs).base.NewBase?
    ensures |m.segs| > 1 && parent == Last(m.segs[..|m.segs| - 1])
    ensures |header| == 4 && header[3] == TopAddr(parent)
    ensures m.M[Last(m.segs).blk] == Stk(header + [Code(Last(m.segs).base.ret)])
    ensures IsStack(m.M, parent.blk) && parent.blk != Last(m.segs).blk && |m.M[parent.blk].ws| == SegLen(parent)
  {
    hide HeapOk, RingsApart, RingsCaptured, SegsCode, RingsCode, At, FsWords, FsOk, BaseOk, SegOk;
    var n := |m.segs| - 1;
    assert n > 0;
    parent := m.segs[n - 1];
    assert m.M[parent.blk] == Stk(BlockWords(c, m.labs, m.segs, n - 1, Int(0), []));
    TopWords(c, s0, k, objs, nh, m, []);
    BareSeg(c, m.labs, Last(m.segs), TopAddr(parent));
    hide SegWords;
    header := BaseWords(c, m.labs, Last(m.segs).base, TopAddr(parent))[..4];
    assert parent.blk != Last(m.segs).blk;
  }

  lemma LowerCode(c: Image, segs: seq<Seg>, j: nat)
    requires SegsCode(c, segs) && j <= |segs|
    ensures SegsCode(c, segs[..j]) && SegsCode(c, segs[j..])
  {
    hide SegCode;
  }

  /** return; pop; sfree 3, at the bottom of a handler's stack. */
  lemma LeaveStack(c: Image, s0: State, k: seq<L.Frame>, objs: seq<L.Obj>, nh: nat, m: Salted, v: L.Val,
                   header: seq<Word>, ret: int, x: Word) returns (R: seq<Word>)
    requires m.segs != [] && Returns(c, s0, k, objs, nh, m, v)
    requires |header| == 4 && header[3] == x && m.M[Last(m.segs).blk] == Stk(header + [Code(ret)])
    requires 0 <= ret && ret + 1 < |c.im| && c.im[ret] == Pop(R2) && c.im[ret + 1] == Sfree(3)
    ensures At(c.im, s0, m.n + 3, R, m.M[Last(m.segs).blk := Stk([])], ret + 2, Last(m.segs).blk)
    ensures R == m.R[2 := x] && R[1] == m.R[1]
  {
    hide World, Run, SegsCode, RingsCode;
    var b := Last(m.segs).blk;
    ReturnInto(c, s0, k, objs, nh, m, v, header, ret);
    var M1 := m.M[b := Stk(header)];
    DoPopReg(c.im, s0, m.n + 1, m.R, M1, ret, b, 2);
    var M2 := m.M[b := Stk(header[..3])];
    assert M1[b := Stk(header[..3])] == M2;
    R := m.R[2 := x];
    DoSfreeTop(c.im, s0, m.n + 2, R, M2, ret + 1, b, 3);
    assert header[..3][..0] == [];
    assert M2[b := Stk([])] == m.M[b := Stk([])];
  }

  /** The main stack holds nothing but the address that its body returns to. */
  lemma MainStack(c: Image, s0: State, k: seq<L.Frame>, objs: seq<L.Obj>, nh: nat, m: Salted, v: L.Val)
    requires m.segs != [] && Returns(c, s0, k, objs, nh, m, v)
    requires Last(m.segs).fs == [] && Last(m.segs).base.MainBase?
    ensures k == [] && |m.segs| == 1 && Last(m.segs).blk == 0 && SegCode(c, Last(m.segs))
    ensures 0 < |m.M| && m.M[0] == Stk([] + [Code(Last(m.segs).base.ret)])
    ensures HeapOk(c, m.labs, objs, m.M[0 := Stk([W(c, m.labs, v)])], m.rings)
  {
    MainIsOnly(c, s0, k, objs, nh, m);
    TopWords(c, s0, k, objs, nh, m, []);
    assert SegCode(c, Last(m.segs));
    MainHeap(c, m.labs, objs, m.M, m.segs, m.rings, [W(c, m.labs, v)]);
    assert m.M[0].ws == [] + [Code(Last(m.segs).base.ret)];
    hide World, SegsCode, RingsCode, HeapOk;
  }

  lemma ReturnFromMain(c: Image, s0: State, k: seq<L.Frame>, objs: seq<L.Obj>, nh: nat, m: Salted, v: L.Val)
    returns (m': Salted)
    requires m.segs != [] && Returns(c, s0, k, objs, nh, m, v)
    requires Last(m.segs).fs == [] && Last(m.segs).base.MainBase?
    ensures k == [] && m'.n > m.n && m'.segs != [] && Halted(c, s0, objs, m', v)
  {
    hide World, SegsCode, RingsCode, HeapOk, Run, SegWords, SegOk, Strip, W;
    var ret := Last(m.segs).base.ret;
    MainStack(c, s0, k, objs, nh, m, v);
    ReturnInto(c, s0, k, objs, nh, m, v, [], ret);
    var M1 := m.M[0 := Stk([])];
    DoPushOperand(c.im, s0, m.n + 1, m.R, M1, ret, 0, From(R1));
    var M2 := m.M[0 := Stk([W(c, m.labs, v)])];
    assert [] + [m.R[1]] == [W(c, m.labs, v)];
    assert M1[0 := Stk([W(c, m.labs, v)])] == M2;
    DoHalt(c.im, s0, m.n + 2, m.R, M2, ret + 1, 0);
    m' := m.(n := m.n + 3, M := M2, pc := ret + 2);
  }

  lemma MainIsOnly(c: Image, s0: State, k: seq<L.Frame>, objs: seq<L.Obj>, nh: nat, m: Salted)
    requires m.segs != [] && StoreMatches(c, s0, k, objs, nh, m, [])
    requires Last(m.segs).fs == [] && Last(m.segs).base.MainBase?
    ensures |m.segs| == 1 && k == [] && Last(m.segs).blk == 0
  {
    if |m.segs| > 1 {
      assert false;
    } else {
      assert m.segs == [] + [m.segs[0]];
      StripSnoc([], m.segs[0]);
    }
  }

  lemma MainHeap(c: Image, labs: seq<Word>, objs: seq<L.Obj>, M: seq<Block>, segs: seq<Seg>, rings: Rings,
                 ws: seq<Word>)
    requires World(c, labs, objs, M, segs, rings, [])
    ensures HeapOk(c, labs, objs, M[Last(segs).blk := Stk(ws)], rings)
  {
    RingsOff(rings, segs, |segs| - 1);
    HeapFrame(c, labs, objs, M, rings, Last(segs).blk, ws);
  }

  /** A frame goes, after trampolines on top of it. */
  lemma FrameGone(m: Salted, m1: Salted, m': Salted) returns (mv: Move)
    requires TrampsGone(m, m1) && Last(m1.segs).fs != [] && !TopFrame(m1.segs).MTramp?
    requires m'.segs == Popped(m1.segs) && m'.labs == m1.labs && m'.rings == m1.rings
    ensures mv.CutBack? && Moved(mv, m, m')
  {
    var fs, n := Last(m.segs).fs, |Last(m1.segs).fs| - 1;
    assert fs[..n + 1][..n] == fs[..n];
    mv := CutBack(|m.segs| - 1, n);
  }

  /** What the machine does with a value that is returned to continuation k. */
  lemma ReturnOn(c: Image, s0: State, k: seq<L.Frame>, objs: seq<L.Obj>, nh: nat, m: Salted, v: L.Val)
    returns (m': Salted, mv: Move)
    requires m.segs != [] && Returns(c, s0, k, objs, nh, m, v)
    ensures m'.n > m.n && m'.segs != [] && (k != [] ==> Moved(mv, m, m') && (mv.CutBack? || mv.Left?))
    ensures k == [] ==> Halted(c, s0, objs, m', v)
    ensures k != [] && k[|k| - 1].LetK? ==>
              var f := k[|k| - 1]; Evaluates(c, s0, k[..|k| - 1], objs, nh, m', f.t, [(f.x, v)] + f.env)
    ensures k != [] && !k[|k| - 1].LetK? ==> Returns(c, s0, k[..|k| - 1], objs, nh, m', v)
  {
    hide Returns, Evaluates, Halted, Popped, Moved;
    var m1 := SkipTramps(c, s0, k, objs, nh, m, v);
    mv := Left;
    if Last(m1.segs).fs == [] {
      if Last(m1.segs).base.MainBase? {
        m' := ReturnFromMain(c, s0, k, objs, nh, m1, v);
      } else {
        m' := ReturnThroughNew(c, s0, k, objs, nh, m1, v);
        StackGone(m, m1, m');
      }
    } else if TopFrame(m1.segs).MLet? {
      m' := ReturnToLet(c, s0, k, objs, nh, m1, v);
      mv := FrameGone(m, m1, m');
    } else {
      m' := ReturnThroughSame(c, s0, k, objs, nh, m1, v);
      mv := FrameGone(m, m1, m');
    }
  }

  lemma StackGone(m: Salted, m1: Salted, m': Salted)
    requires TrampsGone(m, m1) && |m1.segs| > 1 && m'.segs == m1.segs[..|m1.segs| - 1] && m'.labs == m1.labs
    requires m'.rings == m1.rings
    ensures Moved(Left, m, m')
  {
  }

  /** One return step of the source machine. */
  lemma SimReturn(c: Image, s0: State, s: L.Config, m: Salted) returns (m': Salted, mv: Move)
    requires s.ctl.Re? && Matches(c, s0, s, m)
    ensures m'.n > m.n && Matches(c, s0, L.StepReturn(s, s.ctl.v), m')
    ensures s.k != [] ==> Moved(mv, m, m') && (mv.CutBack? || mv.Left?)
  {
    hide Returns, Evaluates, Halted, Moved;
    m', mv := ReturnOn(c, s0, s.k, s.objs, s.nh, m, s.ctl.v);
  }
}
