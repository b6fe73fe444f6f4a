/** Simulation of raise, which captures a resumption, and of resume, which uses it up. */
module Resumptions {
  import opened Options
  import opened Salt
  import opened SaltRules
  import opened Translate
  import opened Assembler
  import opened Linking
  import opened Layout
  import opened LayoutSteps
  import opened Matching
  import opened Activations
  import opened Statements
  import opened ReturnSteps
  import opened Handlers
  import opened HandlerSteps
  import opened FirstOrder
  import opened Installs
  import L = Lexa

  // ----- raise -----

  ghost predicate RaiseCodeAt(im: seq<Instr>, a: int)
  {
    0 <= a && a + 9 <= |im| &&
    im[a] == Load(R4, R1, Some(0)) && im[a + 1] == Store(SP, R1, 0) && im[a + 2] == Mov(SP, From(R4)) &&
    im[a + 3] == Load(R5, R1, Some(3)) && im[a + 4] == Malloc(R3, 1) && im[a + 5] == Store(R1, R3, 0) &&
    im[a + 6] == Load(R1, R1, Some(2)) && im[a + 7] == Call(From(R5)) && im[a + 8] == Return
  }

  lemma RaiseBlock(c: Image, a: int)
    requires CodeIs(c, a, RAISE_CODE)
    ensures RaiseCodeAt(c.im, a)
  {
    assert ReplaceLabel(c.lm, RAISE_CODE[0]) == Some(c.im[a + 0])
        && ReplaceLabel(c.lm, RAISE_CODE[1]) == Some(c.im[a + 1]);
    assert ReplaceLabel(c.lm, RAISE_CODE[2]) == Some(c.im[a + 2])
        && ReplaceLabel(c.lm, RAISE_CODE[3]) == Some(c.im[a + 3]);
    assert ReplaceLabel(c.lm, RAISE_CODE[4]) == Some(c.im[a + 4])
        && ReplaceLabel(c.lm, RAISE_CODE[5]) == Some(c.im[a + 5]);
    assert ReplaceLabel(c.lm, RAISE_CODE[6]) == Some(c.im[a + 6])
        && ReplaceLabel(c.lm, RAISE_CODE[7]) == Some(c.im[a + 7]);
    assert ReplaceLabel(c.lm, RAISE_CODE[8]) == Some(c.im[a + 8]);
  }

  /** The first half: the exchanger and sp change places, so that the handler's parent runs. */
  lemma SwapOut(c: Image, s0: State, m: Salted, a: int, h: nat, parent: nat, len: nat)
    requires m.segs != [] && RaiseCodeAt(c.im, a) && At(c.im, s0, m.n, m.R, m.M, m.pc, Last(m.segs).blk) && m.pc == a
    requires m.R[1] == Addr(h, -4) && IsStack(m.M, h) && |m.M[h].ws| > 3 && m.M[h].ws[3] == Addr(parent, 0 - len)
    requires IsStack(m.M, parent) && parent != h && |m.M[parent].ws| == len
    requires Addr(Last(m.segs).blk, 0 - |m.M[Last(m.segs).blk].ws|) == TopAddr(Last(m.segs))
    ensures At(c.im, s0, m.n + 3, m.R[4 := Addr(parent, 0 - len)], SetExch(m.M, h, TopAddr(Last(m.segs))), a + 3,
               parent)
  {
    hide Run, TopAddr;
    var x, b := TopAddr(Last(m.segs)), Last(m.segs).blk;
    DoLoadMem(c.im, s0, m.n, m.R, m.M, a, b, 4, 1, 0);
    var R, M1 := m.R[4 := Addr(parent, 0 - len)], SetExch(m.M, h, x);
    DoStoreMem(c.im, s0, m.n + 1, R, m.M, a + 1, b, SP, 1, 0);
    DoMovSp(c.im, s0, m.n + 2, R, M1, a + 2, b, 4, parent, len);
    assert M1[parent].ws[..len] == M1[parent].ws;
    assert M1[parent := Stk(M1[parent].ws)] == M1;
  }

  /** The second half: the resumption object is made and the operation is called. */
  lemma CallOperation(c: Image, s0: State, n: nat, R: seq<Word>, M: seq<Block>, a: int, b: nat, labs: seq<Word>,
                      op: string, e: L.Val)
    returns (R': seq<Word>)
    requires RaiseCodeAt(c.im, a) && At(c.im, s0, n, R, M, a + 3, b) && HeaderAt(c, labs, M, R[1], op, e)
    ensures At(c.im, s0, n + 5, R', (M + [Arr([R[1]])])[b := Stk(M[b].ws + [Code(a + 8)])], FunAddr(c, op), b)
    ensures |R'| == REGISTERS && R'[1] == W(c, labs, e) && R'[2] == R[2] && R'[3] == Addr(|M|, 0)
  {
    hide Run;
    DoLoadMem(c.im, s0, n, R, M, a + 3, b, 5, 1, 3);
    var Ra := R[5 := Code(FunAddr(c, op))];
    DoMallocReg(c.im, s0, n + 1, Ra, M, a + 4, b, 3, 1);
    var Rb, Mb, Mc := Ra[3 := Addr(|M|, 0)], M + [Arr(Zeros(1))], M + [Arr([R[1]])];
    assert Zeros(1)[0 := R[1]] == [R[1]];
    assert Mb[|M| := Arr([R[1]])] == Mc;
    DoStoreMem(c.im, s0, n + 2, Rb, Mb, a + 5, b, R1, 3, 0);
    assert ReadMem(Mc, R[1].b, R[1].o + 2) == ReadMem(M, R[1].b, R[1].o + 2);
    DoLoadMem(c.im, s0, n + 3, Rb, Mc, a + 6, b, 1, 1, 2);
    R' := Rb[1 := W(c, labs, e)];
    DoCallTo(c.im, s0, n + 4, R', Mc, a + 7, b, From(R5), FunAddr(c, op));
  }

  /** Handler frame i of kind + : its segment, the one below it, and the exchanger between them. */
  lemma NewHandlerAt(c: Image, s0: State, k: seq<L.Frame>, objs: seq<L.Obj>, nh: nat, m: Salted, i: nat)
    returns (j: nat)
    requires m.segs != [] && StoreMatches(c, s0, k, objs, nh, m, []) && i < |k| && k[i].NewK?
    ensures 0 < j < |m.segs| && Strip(m.segs[..j]) == k[..i] && Strip(m.segs[j..]) == k[i..]
    ensures k[i].h < |m.labs| && m.labs[k[i].h] == Addr(m.segs[j].blk, -4)
    ensures HeaderAt(c, m.labs, m.M, Addr(m.segs[j].blk, -4), k[i].op, k[i].e) && ValOk(c, m.labs, k[i].e)
    ensures User(k[i].op) in c.lm
    ensures IsStack(m.M, m.segs[j].blk) && |m.M[m.segs[j].blk].ws| > 3
    ensures m.M[m.segs[j].blk].ws[3] == TopAddr(m.segs[j - 1])
    ensures IsStack(m.M, m.segs[j - 1].blk) && m.segs[j - 1].blk != m.segs[j].blk
    ensures |m.M[m.segs[j - 1].blk].ws| == SegLen(m.segs[j - 1])
  {
    hide World, SegsCode, RingsCode, At, SegOk, HeaderAt, Strip, SegWords, Addresses;
    var f;
    j, f := Locate(m.segs, i);
    var above := SegMem(c, s0, k, objs, nh, m, [], j);
    var below := SegMem(c, s0, k, objs, nh, m, [], j - 1);
    HeaderInBase(c, m.labs, m.M, m.segs[j], Exch(m.segs, j, Int(0)), above);
    ExchangeWord(c, m.labs, m.segs[j], TopAddr(m.segs[j - 1]), Int(0));
    assert SegCode(c, m.segs[j]);
    DifferentBlocks(c, m.labs, objs, m.M, m.segs, m.rings, j);
  }

  lemma DifferentBlocks(c: Image, labs: seq<Word>, objs: seq<L.Obj>, M: seq<Block>, segs: seq<Seg>, rings: Rings,
                        j: nat)
    requires World(c, labs, objs, M, segs, rings, []) && 0 < j < |segs|
    ensures segs[j - 1].blk != segs[j].blk
  {
  }

  /** The suffix of the chain from the handler up closes into a ring and becomes an object. */
  lemma RingCaptured(c: Image, labs: seq<Word>, objs: seq<L.Obj>, M: seq<Block>, segs: seq<Seg>, rings: Rings, j: nat)
    requires World(c, labs, objs, M, segs, rings, []) && 0 < j < |segs|
    ensures segs[j].blk < |M| && |M[segs[j].blk].ws| > 3 && |M| == |objs|
    ensures World(c, labs, objs + [L.Captured(Strip(segs[j..]))],
                  SetExch(M, segs[j].blk, TopAddr(Last(segs))) + [Arr([Addr(segs[j].blk, -4)])],
                  segs[..j], rings[|objs| := segs[j..]], [])
  {
    CloseRing(c, labs, objs, M, segs, rings, j);
    forall r | r in rings
      ensures Apart(rings[r], segs[j..])
    {
      assert Apart(rings[r], segs);
    }
    hide World, RingOk;
    Capture(c, labs, objs, SetExch(M, segs[j].blk, TopAddr(Last(segs))), segs[..j], rings, segs[j..]);
    SameSizes(c, labs, objs, M, segs, rings, []);
  }

  /** The return address of the operation is a trampoline on the handler's parent stack. */
  lemma PushTramp(c: Image, labs: seq<Word>, objs: seq<L.Obj>, M: seq<Block>, segs: seq<Seg>, rings: Rings, ret: int)
    requires World(c, labs, objs, M, segs, rings, []) && segs != []
    ensures IsStack(M, Last(segs).blk)
    ensures World(c, labs, objs, M[Last(segs).blk := Stk(M[Last(segs).blk].ws + [Code(ret)])],
                  WithFrame(segs, MTramp(ret)), rings, [])
  {
    TopBlock(c, labs, objs, M, segs, rings);
    hide World, SegWords;
    PushFrame(c, labs, objs, M, segs, rings, [], MTramp(ret));
  }

  lemma TopBlock(c: Image, labs: seq<Word>, objs: seq<L.Obj>, M: seq<Block>, segs: seq<Seg>, rings: Rings)
    requires World(c, labs, objs, M, segs, rings, []) && segs != []
    ensures Last(segs).blk < |M|
    ensures M[Last(segs).blk] == Stk(SegWords(c, labs, Last(segs), Exch(segs, |segs| - 1, Int(0))))
  {
    assert M[Last(segs).blk] == Stk(BlockWords(c, labs, segs, |segs| - 1, Int(0), []));
    hide SegWords;
    var ws := SegWords(c, labs, Last(segs), Exch(segs, |segs| - 1, Int(0)));
    assert ws + [] == ws;
  }

  lemma RaiseTo(c: Image, s0: State, k: seq<L.Frame>, objs: seq<L.Obj>, nh: nat, m: Salted, i: nat)
    returns (m': Salted, j: nat)
    requires m.segs != [] && StoreMatches(c, s0, k, objs, nh, m, []) && i < |k| && k[i].NewK? && RaiseCodeAt(c.im, m.pc)
    requires k[i].h < |m.labs| ==> |m.R| == REGISTERS && m.R[1] == m.labs[k[i].h]
    ensures m'.n > m.n && m'.labs == m.labs && m'.segs != []
    ensures StoreMatches(c, s0, k[..i], objs + [L.Captured(k[i..])], nh, m', [])
    ensures 0 < j < |m.segs| && Strip(m.segs[..j]) == k[..i] && Strip(m.segs[j..]) == k[i..]
    ensures m'.segs == WithFrame(m.segs[..j], MTramp(m.pc + 8)) && m'.rings == m.rings[|objs| := m.segs[j..]]
    ensures ValOk(c, m.labs, k[i].e) && User(k[i].op) in c.lm
    ensures m'.pc == FunAddr(c, k[i].op) && |m'.R| == REGISTERS
    ensures m'.R[1] == W(c, m.labs, k[i].e) && m'.R[2] == m.R[2] && m'.R[3] == W(c, m.labs, L.ContV(|objs|))
  {
    hide World, SegsCode, RingsCode, Run, SegWords, HeaderAt, RaiseCodeAt, StmtAt, FunAddr, SetExch, Strip;
    j := NewHandlerAt(c, s0, k, objs, nh, m, i);
    var b, parent := m.segs[j].blk, m.segs[j - 1];
    TopLen(c, s0, k, objs, nh, m);
    var R := RaiseRun(c, s0, m, b, parent, k[i].op, k[i].e);
    var M' := SetExch(m.M, b, TopAddr(Last(m.segs))) + [Arr([Addr(b, -4)])];
    m' := Salted(m.labs, WithFrame(m.segs[..j], MTramp(m.pc + 8)), m.rings[|objs| := m.segs[j..]], m.n + 8, R,
                 M'[parent.blk := Stk(M'[parent.blk].ws + [Code(m.pc + 8)])], FunAddr(c, k[i].op));
    RaisedLayout(c, k, objs, m, i, j);
  }

  lemma RaiseRun(c: Image, s0: State, m: Salted, b: nat, parent: Seg, op: string, e: L.Val) returns (R: seq<Word>)
    requires m.segs != [] && RaiseCodeAt(c.im, m.pc) && At(c.im, s0, m.n, m.R, m.M, m.pc, Last(m.segs).blk)
    requires m.R[1] == Addr(b, -4) && IsStack(m.M, b) && |m.M[b].ws| > 3 && m.M[b].ws[3] == TopAddr(parent)
    requires IsStack(m.M, parent.blk) && parent.blk != b && |m.M[parent.blk].ws| == SegLen(parent)
    requires Addr(Last(m.segs).blk, 0 - |m.M[Last(m.segs).blk].ws|) == TopAddr(Last(m.segs))
    requires HeaderAt(c, m.labs, m.M, Addr(b, -4), op, e)
    ensures var M' := SetExch(m.M, b, TopAddr(Last(m.segs))) + [Arr([Addr(b, -4)])];
            At(c.im, s0, m.n + 8, R, M'[parent.blk := Stk(M'[parent.blk].ws + [Code(m.pc + 8)])], FunAddr(c, op),
               parent.blk)
    ensures |R| == REGISTERS && R[1] == W(c, m.labs, e) && R[2] == m.R[2] && R[3] == Addr(|m.M|, 0)
  {
    hide Run, HeaderAt, RaiseCodeAt;
    SwapOut(c, s0, m, m.pc, b, parent.blk, SegLen(parent));
    HeaderKept(c, m.labs, m.M, b, TopAddr(Last(m.segs)), op, e);
    R := CallOperation(c, s0, m.n + 3, m.R[4 := TopAddr(parent)], SetExch(m.M, b, TopAddr(Last(m.segs))), m.pc,
                       parent.blk, m.labs, op, e);
  }

  lemma RaisedLayout(c: Image, k: seq<L.Frame>, objs: seq<L.Obj>, m: Salted, i: nat, j: nat)
    requires World(c, m.labs, objs, m.M, m.segs, m.rings, []) && 0 < j < |m.segs| && RaiseCodeAt(c.im, m.pc)
    requires i < |k| && Strip(m.segs[..j]) == k[..i] && Strip(m.segs[j..]) == k[i..]
    requires SegsCode(c, m.segs) && RingsCode(c, m.rings)
    ensures m.segs[j].blk < |m.M| && |m.M[m.segs[j].blk].ws| > 3 && |m.M| == |objs|
    ensures var M' := SetExch(m.M, m.segs[j].blk, TopAddr(Last(m.segs))) + [Arr([Addr(m.segs[j].blk, -4)])];
            IsStack(M', m.segs[j - 1].blk) &&
            World(c, m.labs, objs + [L.Captured(k[i..])],
                  M'[m.segs[j - 1].blk := Stk(M'[m.segs[j - 1].blk].ws + [Code(m.pc + 8)])],
                  WithFrame(m.segs[..j], MTramp(m.pc + 8)), m.rings[|objs| := m.segs[j..]], [])
    ensures Strip(WithFrame(m.segs[..j], MTramp(m.pc + 8))) == k[..i]
    ensures SegsCode(c, WithFrame(m.segs[..j], MTramp(m.pc + 8))) && RingsCode(c, m.rings[|objs| := m.segs[j..]])
  {
    hide World, SegsCode, RingsCode, SegWords, RaiseCodeAt;
    RingCaptured(c, m.labs, objs, m.M, m.segs, m.rings, j);
    var M' := SetExch(m.M, m.segs[j].blk, TopAddr(Last(m.segs))) + [Arr([Addr(m.segs[j].blk, -4)])];
    PushTramp(c, m.labs, objs + [L.Captured(k[i..])], M', m.segs[..j], m.rings[|objs| := m.segs[j..]], m.pc + 8);
    CapturedCode(c, m.segs, m.rings, j, |objs|);
    TrampCode(c, m.pc);
    CodeWithFrame(c, m.segs[..j], MTramp(m.pc + 8));
    StripWithFrame(m.segs[..j], MTramp(m.pc + 8));
  }

  lemma TrampCode(c: Image, a: int)
    requires RaiseCodeAt(c.im, a)
    ensures FrameCode(c, MTramp(a + 8))
  {
  }

  lemma CapturedCode(c: Image, segs: seq<Seg>, rings: Rings, j: nat, r: nat)
    requires SegsCode(c, segs) && RingsCode(c, rings) && j <= |segs|
    ensures SegsCode(c, segs[..j]) && RingsCode(c, rings[r := segs[j..]])
  {
    hide SegsCode;
    LowerCode(c, segs, j);
  }

  lemma HeaderKept(c: Image, labs: seq<Word>, M: seq<Block>, b: nat, x: Word, op: string, e: L.Val)
    requires IsStack(M, b) && |M[b].ws| > 3 && HeaderAt(c, labs, M, Addr(b, -4), op, e)
    ensures HeaderAt(c, labs, SetExch(M, b, x), Addr(b, -4), op, e)
  {
  }

  /** Control gets to the operation, below the handler, with the new resumption. */
  lemma RaiseArrives(c: Image, s0: State, s: L.Config, m: Salted, x: string, lab: L.Value, arg: L.Value, t: L.Stmt,
                     env: L.Env, i: nat)
    returns (m': Salted, mv: Move)
    requires m.segs != [] && Evaluates(c, s0, s.k, s.objs, s.nh, m, L.Let(x, L.Raise(lab, arg), t), env)
    requires HandlerPosition(s, env, lab) == Some(i) && L.EvalV(env, arg).Some? && i < |s.k| && s.k[i].NewK?
    ensures StoreMatches(c, s0, s.k[..i], s.objs + [L.Captured(s.k[i..] + [L.LetK(x, t, env)])], s.nh, m', [])
    ensures Arrived(c, m', s.k[i].op, [s.k[i].e, L.EvalV(env, arg).value, L.ContV(|s.objs|)])
    ensures m'.n > m.n && m'.segs != [] && mv.Taken? && mv.r == |s.objs| && Moved(mv, m, m')
    ensures Strip(WithFrame(m.segs, mv.f)[..mv.j]) == s.k[..i]
  {
    hide StmtAt, World, SegsCode, RingsCode, Run, EnvOk, SegWords, HeaderAt, CodeIs, At, RaiseCodeAt, Moved, WithFrame,
        Strip;
    var l1 := LetCodeIs(c, m.pc, Names(env), x, L.Raise(lab, arg), t);
    var m1 := LoadPair(c, s0, s.k, s.objs, s.nh, m, env, lab, arg, Before(Names(env), L.Raise(lab, arg), l1));
    RaiseBlock(c, c.lm[l1]);
    var m2 := RaiseCall(c, s0, s.k, s.objs, s.nh, m.pc, m1, x, lab, arg, t, env, l1);
    var k1 := s.k + [L.LetK(x, t, env)];
    var j;
    m', j := RaiseTo(c, s0, k1, s.objs, s.nh, m2, i);
    mv := Taken(MLet(x, t, env, m.pc + 3), j, MTramp(m2.pc + 8), |s.objs|);
    assert k1[..i] == s.k[..i] && k1[i..] == s.k[i..] + [L.LetK(x, t, env)];
    RaiseMoves(m, m2, m', mv);
  }

  lemma SimRaise(c: Image, p: L.Program, s0: State, s: L.Config, m: Salted, x: string, lab: L.Value, arg: L.Value,
                 t: L.Stmt, env: L.Env)
    returns (m': Salted, mv: Move)
    requires ProgramAt(c, p)
    requires m.segs != [] && Evaluates(c, s0, s.k, s.objs, s.nh, m, L.Let(x, L.Raise(lab, arg), t), env)
    requires L.StepRaise(p, s, x, t, env, lab, arg).Some?
    ensures m'.n > m.n && Matches(c, s0, L.StepRaise(p, s, x, t, env, lab, arg).value, m')
    ensures mv.Taken? && mv.r == |s.objs| && Moved(mv, m, m')
    ensures Strip(WithFrame(m.segs, mv.f)[..mv.j]) == s.k[..L.FindHandler(s.k, L.EvalV(env, lab).value.h).value]
  {
    hide Evaluates, StoreMatches, ProgramAt, Arrived, L.Enter, WithFrame, Strip;
    var i := HandlerPosition(s, env, lab).value;
    var m1;
    m1, mv := RaiseArrives(c, s0, s, m, x, lab, arg, t, env, i);
    var args := [s.k[i].e, L.EvalV(env, arg).value, L.ContV(|s.objs|)];
    m' := EnterFun(c, p, s0, s.k[..i], s.objs + [L.Captured(s.k[i..] + [L.LetK(x, t, env)])], s.nh, m1, s.k[i].op, args,
                   L.Enter(p, s.k[i].op, args).value);
    MoveOn(mv, m, m1, m');
  }

  lemma RaiseMoves(m: Salted, m2: Salted, m': Salted, mv: Move)
    requires m.segs != [] && mv.Taken? && mv.f.MLet? && mv.tramp.MTramp? && m2.segs == WithFrame(m.segs, mv.f)
    requires 0 < mv.j < |m2.segs|
    requires m2.labs == m.labs == m'.labs && m2.rings == m.rings
    requires m'.segs == WithFrame(m2.segs[..mv.j], mv.tramp) && m'.rings == m.rings[mv.r := m2.segs[mv.j..]]
    ensures Moved(mv, m, m')
  {
  }

  lemma RaiseCall(c: Image, s0: State, k: seq<L.Frame>, objs: seq<L.Obj>, nh: nat, a: int, m: Salted,
                  x: string, lab: L.Value, arg: L.Value, t: L.Stmt, env: L.Env, l1: Name) returns (m': Salted)
    requires CodeIs(c, a, Before(Names(env), L.Raise(lab, arg), l1)) && m.pc == a + 2 && l1 in c.lm
    requires StmtAt(c, a + |Before(Names(env), L.Raise(lab, arg), l1)|, [x] + Names(env), t)
    requires m.segs != [] && StoreMatches(c, s0, k, objs, nh, m, EnvWords(c, m.labs, env)) && EnvOk(c, m.labs, env)
    ensures m'.n > m.n && m'.labs == m.labs && m'.segs != []
    ensures StoreMatches(c, s0, k + [L.LetK(x, t, env)], objs, nh, m', [])
    ensures m'.rings == m.rings && m'.segs == WithFrame(m.segs, MLet(x, t, env, a + 3))
    ensures m'.pc == c.lm[l1] && m'.R == m.R
  {
    hide StmtAt, World, SegsCode, RingsCode, EnvOk, CodeIs, At;
    RaiseCallCode(c, a, Names(env), lab, arg, l1);
    m' := CallFrame(c, s0, k, objs, nh, m, x, t, env, Const(Code(c.lm[l1])), c.lm[l1]);
  }

  lemma RaiseCallCode(c: Image, a: int, names: seq<string>, lab: L.Value, arg: L.Value, l1: Name)
    requires CodeIs(c, a, Before(names, L.Raise(lab, arg), l1)) && l1 in c.lm
    ensures 0 <= a && a + 3 < |c.im| && c.im[a + 2] == Call(Const(Code(c.lm[l1]))) && c.im[a + 3] == Push(From(R1))
  {
    var code := Before(names, L.Raise(lab, arg), l1);
    assert ReplaceLabel(c.lm, code[2]) == Some(c.im[a + 2]);
    assert ReplaceLabel(c.lm, code[3]) == Some(c.im[a + 3]);
  }

  // ----- resume -----

  ghost predicate ResumeCodeAt(im: seq<Instr>, a: int)
  {
    0 <= a && a + 8 <= |im| &&
    im[a] == Load(R3, R1, Some(0)) && im[a + 1] == Mov(R10, Const(Int(-71))) && im[a + 2] == Store(R10, R1, 0) &&
    im[a + 3] == Load(R4, R3, Some(0)) && im[a + 4] == Store(SP, R3, 0) && im[a + 5] == Mov(R1, From(R2)) &&
    im[a + 6] == Mov(SP, From(R4)) && im[a + 7] == Return
  }

  lemma ResumeBlock(c: Image, a: int)
    requires CodeIs(c, a, RESUME_CODE)
    ensures ResumeCodeAt(c.im, a)
  {
    assert ReplaceLabel(c.lm, RESUME_CODE[0]) == Some(c.im[a + 0])
        && ReplaceLabel(c.lm, RESUME_CODE[1]) == Some(c.im[a + 1]);
    assert ReplaceLabel(c.lm, RESUME_CODE[2]) == Some(c.im[a + 2])
        && ReplaceLabel(c.lm, RESUME_CODE[3]) == Some(c.im[a + 3]);
    assert ReplaceLabel(c.lm, RESUME_CODE[4]) == Some(c.im[a + 4])
        && ReplaceLabel(c.lm, RESUME_CODE[5]) == Some(c.im[a + 5]);
    assert ReplaceLabel(c.lm, RESUME_CODE[6]) == Some(c.im[a + 6])
        && ReplaceLabel(c.lm, RESUME_CODE[7]) == Some(c.im[a + 7]);
  }

  /** The resumption is poisoned, exchanger and sp change places, and the captured top runs. */
  lemma SwapIn(c: Image, s0: State, m: Salted, a: int, r: nat, h: nat, top: nat, len: nat) returns (R': seq<Word>)
    requires m.segs != [] && ResumeCodeAt(c.im, a) && At(c.im, s0, m.n, m.R, m.M, m.pc, Last(m.segs).blk) && m.pc == a
    requires m.R[1] == Addr(r, 0) && r < |m.M| && m.M[r] == Arr([Addr(h, -4)])
    requires IsStack(m.M, h) && |m.M[h].ws| > 3 && m.M[h].ws[3] == Addr(top, 0 - len)
    requires IsStack(m.M, top) && |m.M[top].ws| == len
    requires Addr(Last(m.segs).blk, 0 - |m.M[Last(m.segs).blk].ws|) == TopAddr(Last(m.segs))
    ensures At(c.im, s0, m.n + 7, R', SetExch(m.M[r := Arr([Int(-71)])], h, TopAddr(Last(m.segs))), a + 7, top)
    ensures R'[1] == m.R[2]
  {
    hide Run, TopAddr;
    var x, b := TopAddr(Last(m.segs)), Last(m.segs).blk;
    DoLoadMem(c.im, s0, m.n, m.R, m.M, a, b, 3, 1, 0);
    var Ra := m.R[3 := Addr(h, -4)];
    DoMovReg(c.im, s0, m.n + 1, Ra, m.M, a + 1, b, 10, Const(Int(-71)));
    var Rb, M1 := Ra[10 := Int(-71)], m.M[r := Arr([Int(-71)])];
    assert [Addr(h, -4)][0 := Int(-71)] == [Int(-71)];
    DoStoreMem(c.im, s0, m.n + 2, Rb, m.M, a + 2, b, R10, 1, 0);
    assert M1[b] == m.M[b] && M1[h] == m.M[h];
    R' := SwapInTail(c, s0, m.n + 3, Rb, M1, a, b, h, top, len, x);
  }

  lemma SwapInTail(c: Image, s0: State, n: nat, R: seq<Word>, M: seq<Block>, a: int, b: nat, h: nat, top: nat, len: nat,
                   x: Word) returns (R': seq<Word>)
    requires ResumeCodeAt(c.im, a) && At(c.im, s0, n, R, M, a + 3, b) && R[3] == Addr(h, -4)
    requires IsStack(M, h) && |M[h].ws| > 3 && M[h].ws[3] == Addr(top, 0 - len) && IsStack(M, top) && |M[top].ws| == len
    requires x == Addr(b, 0 - |M[b].ws|)
    ensures At(c.im, s0, n + 4, R', SetExch(M, h, x), a + 7, top) && R'[1] == R[2]
  {
    hide Run;
    DoLoadMem(c.im, s0, n, R, M, a + 3, b, 4, 3, 0);
    var Ra, M1 := R[4 := Addr(top, 0 - len)], SetExch(M, h, x);
    DoStoreMem(c.im, s0, n + 1, Ra, M, a + 4, b, SP, 3, 0);
    DoMovReg(c.im, s0, n + 2, Ra, M1, a + 5, b, 1, From(R2));
    R' := Ra[1 := R[2]];
    DoMovSp(c.im, s0, n + 3, R', M1, a + 6, b, 4, top, len);
    assert M1[top].ws[..len] == M1[top].ws;
    assert M1[top := Stk(M1[top].ws)] == M1;
  }

  lemma RingAt(c: Image, labs: seq<Word>, objs: seq<L.Obj>, M: seq<Block>, segs: seq<Seg>, rings: Rings, r: nat)
    returns (ring: seq<Seg>)
    requires World(c, labs, objs, M, segs, rings, []) && r < |objs| && objs[r].Captured?
    ensures r in rings && ring == rings[r] && ring != [] && Strip(ring) == objs[r].k
    ensures r < |M| && M[r] == Arr([Addr(ring[0].blk, -4)])
    ensures IsStack(M, ring[0].blk) && |M[ring[0].blk].ws| > 3 && M[ring[0].blk].ws[3] == TopAddr(Last(ring))
    ensures IsStack(M, Last(ring).blk) && |M[Last(ring).blk].ws| == SegLen(Last(ring))
  {
    hide RingsApart, RingsCaptured, Distinct, Owned, SegOk;
    assert ObjOk(c, labs, objs, M, rings, r);
    ring := rings[r];
    assert M[ring[0].blk] == Stk(BlockWords(c, labs, ring, 0, TopAddr(Last(ring)), []));
    assert M[Last(ring).blk] == Stk(BlockWords(c, labs, ring, |ring| - 1, TopAddr(Last(ring)), []));
    ExchangeWord(c, labs, ring[0], TopAddr(Last(ring)), Int(0));
  }

  lemma ResumeTo(c: Image, s0: State, k: seq<L.Frame>, objs: seq<L.Obj>, nh: nat, m: Salted, r: nat, v: L.Val)
    returns (m': Salted)
    requires m.segs != [] && StoreMatches(c, s0, k, objs, nh, m, []) && ResumeCodeAt(c.im, m.pc)
    requires r < |objs| && objs[r].Captured? && |m.R| == REGISTERS && m.R[1] == Addr(r, 0)
    requires ValOk(c, m.labs, v) && m.R[2] == W(c, m.labs, v)
    ensures m'.n == m.n + 7 && m'.segs != [] && Returns(c, s0, k + objs[r].k, objs[r := L.Spent], nh, m', v)
    ensures r in m.rings && m'.labs == m.labs && m'.segs == m.segs + m.rings[r] && m'.rings == m.rings - {r}
    ensures Strip(m.rings[r]) == objs[r].k
  {
    hide World, SegsCode, RingsCode, Run, SegWords, StmtAt;
    var ring := RingAt(c, m.labs, objs, m.M, m.segs, m.rings, r);
    TopLen(c, s0, k, objs, nh, m);
    var R := SwapIn(c, s0, m, m.pc, r, ring[0].blk, Last(ring).blk, SegLen(Last(ring)));
    Splice(c, m.labs, objs, m.M, m.segs, m.rings, r);
    StripConcat(m.segs, ring);
    SplicedCode(c, m.segs, m.rings, r);
    m' := Salted(m.labs, m.segs + ring, m.rings - {r}, m.n + 7, R,
                 SetExch(m.M[r := Arr([Int(-71)])], ring[0].blk, TopAddr(Last(m.segs))), m.pc + 7);
    assert Last(m.segs + ring) == Last(ring);
  }

  lemma SplicedCode(c: Image, segs: seq<Seg>, rings: Rings, r: nat)
    requires SegsCode(c, segs) && RingsCode(c, rings) && r in rings
    ensures SegsCode(c, segs + rings[r]) && RingsCode(c, rings - {r})
  {
    hide SegCode;
  }

  lemma SimResume(c: Image, s0: State, s: L.Config, m: Salted, x: string, kv: L.Value, arg: L.Value, t: L.Stmt,
                  env: L.Env) returns (m': Salted)
    requires m.segs != [] && Evaluates(c, s0, s.k, s.objs, s.nh, m, L.Let(x, L.Resume(kv, arg), t), env)
    requires L.StepResume(s, x, t, env, kv, arg).Some?
    ensures m'.n == m.n + 11 && Matches(c, s0, L.StepResume(s, x, t, env, kv, arg).value, m')
    ensures Moved(Rejoined(MLet(x, t, env, m.pc + 4), L.EvalV(env, kv).value.loc), m, m')
  {
    hide StmtAt, World, SegsCode, RingsCode, Run, EnvOk, SegWords, CodeIs, At, ResumeCodeAt, Moved, WithFrame, Strip;
    var r, v := L.EvalV(env, kv).value.loc, L.EvalV(env, arg).value;
    var l1 := LetCodeIs(c, m.pc, Names(env), x, L.Resume(kv, arg), t);
    var m1 := LoadPair(c, s0, s.k, s.objs, s.nh, m, env, kv, arg, Before(Names(env), L.Resume(kv, arg), l1));
    ResumeBlock(c, c.lm[l1]);
    var m2 := ResumeCall(c, s0, s.k, s.objs, s.nh, m.pc, m1, x, kv, arg, t, env, l1);
    m' := ResumeTo(c, s0, s.k + [L.LetK(x, t, env)], s.objs, s.nh, m2, r, v);
    ResumeMoves(m, m2, m', MLet(x, t, env, m.pc + 4), r);
  }

  lemma ResumeMoves(m: Salted, m2: Salted, m': Salted, f: MFrame, r: nat)
    requires m.segs != [] && f.MLet? && r in m.rings && m2.segs == WithFrame(m.segs, f) && m2.labs == m.labs == m'.labs
    requires m2.rings == m.rings
    requires m'.segs == m2.segs + m.rings[r] && m'.rings == m.rings - {r}
    ensures Moved(Rejoined(f, r), m, m')
  {
  }

  lemma ResumeCall(c: Image, s0: State, k: seq<L.Frame>, objs: seq<L.Obj>, nh: nat, a: int, m: Salted,
                   x: string, kv: L.Value, arg: L.Value, t: L.Stmt, env: L.Env, l1: Name) returns (m': Salted)
    requires CodeIs(c, a, Before(Names(env), L.Resume(kv, arg), l1)) && m.pc == a + 2 && l1 in c.lm
    requires StmtAt(c, a + |Before(Names(env), L.Resume(kv, arg), l1)|, [x] + Names(env), t)
    requires m.segs != [] && StoreMatches(c, s0, k, objs, nh, m, EnvWords(c, m.labs, env)) && EnvOk(c, m.labs, env)
    ensures m'.n == m.n + 2 && m'.labs == m.labs && m'.segs != []
    ensures StoreMatches(c, s0, k + [L.LetK(x, t, env)], objs, nh, m', [])
    ensures m'.rings == m.rings && m'.segs == WithFrame(m.segs, MLet(x, t, env, a + 4))
    ensures m'.pc == c.lm[l1] && m'.R == m.R
  {
    hide StmtAt, World, SegsCode, RingsCode, Run, EnvOk, SegWords;
    var code := Before(Names(env), L.Resume(kv, arg), l1);
    assert ReplaceLabel(c.lm, code[2]) == Some(c.im[a + 2]);
    assert ReplaceLabel(c.lm, code[3]) == Some(c.im[a + 3]);
    assert ReplaceLabel(c.lm, code[4]) == Some(c.im[a + 4]);
    DoDump(c.im, s0, m.n, m.R, m.M, m.pc, Last(m.segs).blk);
    var m1 := m.(n := m.n + 1, pc := m.pc + 1);
    Advance(c, s0, k, objs, nh, m, m1, EnvWords(c, m.labs, env));
    m' := CallFrame(c, s0, k, objs, nh, m1, x, t, env, Const(Code(c.lm[l1])), c.lm[l1]);
  }
}
