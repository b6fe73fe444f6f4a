/** Simulation of the two ways to install a handler. */
module Installs {
  import opened Options
  import opened Salt
  import opened SaltRules
  import opened Translate
  import opened Assembler
  import opened Linking
  import opened Layout
  import opened LayoutSteps
  import opened Matching
  import opened Activations
  import opened Statements
  import L = Lexa

  /** The shared prefix: kind, environment, operation and body in registers 4, 3, 2, 1, then the call. */
  lemma InstallPrefix(c: Image, s0: State, k: seq<L.Frame>, objs: seq<L.Obj>, nh: nat, m: Salted, x: string, t: L.Stmt,
                      env: L.Env,
                      body: string, kind: L.Kind, op: string, under: L.Value, l1: Name) returns (m': Salted)
    requires m.segs != [] && StoreMatches(c, s0, k, objs, nh, m, EnvWords(c, m.labs, env)) && EnvOk(c, m.labs, env)
    requires CodeIs(c, m.pc, InstallCode(Names(env), body, kind, op, under, l1)) && l1 in c.lm
    requires StmtAt(c, m.pc + 6, [x] + Names(env), t) && L.EvalV(env, under).Some?
    ensures m'.n > m.n && m'.labs == m.labs && m'.segs != []
    ensures StoreMatches(c, s0, k + [L.LetK(x, t, env)], objs, nh, m', [])
    ensures m'.rings == m.rings && m'.segs == WithFrame(m.segs, MLet(x, t, env, m.pc + 5))
    ensures m'.pc == c.lm[l1] && User(body) in c.lm && User(op) in c.lm && ValOk(c, m.labs, L.EvalV(env, under).value)
    ensures |m'.R| == REGISTERS && m'.R[1] == Code(FunAddr(c, body)) && m'.R[2] == Code(FunAddr(c, op))
    ensures m'.R[3] == W(c, m.labs, L.EvalV(env, under).value) && m'.R[4] == Int(KindWord(kind))
  {
    hide StmtAt, World, SegsCode, RingsCode, Run, EnvOk, SegWords, InstallCode, CodeIs, SegOk, WithFrame, W, FunAddr;
    var b := Last(m.segs).blk;
    InstallCodeAt(c, m.pc, Names(env), body, kind, op, under, l1);
    DoMovReg(c.im, s0, m.n, m.R, m.M, m.pc, b, 4, Const(Int(KindWord(kind))));
    var m1 := m.(n := m.n + 1, R := m.R[4 := Int(KindWord(kind))], pc := m.pc + 1);
    Advance(c, s0, k, objs, nh, m, m1, EnvWords(c, m.labs, env));
    var m2 := LoadValue(c, s0, k, objs, nh, m1, env, under, 3);
    m' := InstallCall(c, s0, k, objs, nh, m2, x, t, env, body, op, l1);
  }

  lemma InstallCodeAt(c: Image, a: int, names: seq<string>, body: string, kind: L.Kind, op: string, under: L.Value,
                      l1: Name)
    requires CodeIs(c, a, InstallCode(names, body, kind, op, under, l1)) && l1 in c.lm
    ensures 0 <= a && a + 5 < |c.im| && User(op) in c.lm && User(body) in c.lm
    ensures c.im[a] == Mov(R4, Const(Int(KindWord(kind)))) && c.im[a + 1] == CompileValue(names, under, 3)[0]
    ensures c.im[a + 2] == Mov(R2, Const(Code(FunAddr(c, op)))) && c.im[a + 3] == Mov(R1, Const(Code(FunAddr(c, body))))
    ensures c.im[a + 4] == Call(Const(Code(c.lm[l1]))) && c.im[a + 5] == Push(From(R1))
  {
    var code := InstallCode(names, body, kind, op, under, l1);
    assert ReplaceLabel(c.lm, code[0]) == Some(c.im[a + 0]);
    assert ReplaceLabel(c.lm, code[1]) == Some(c.im[a + 1]);
    assert ReplaceLabel(c.lm, code[2]) == Some(c.im[a + 2]);
    assert ReplaceLabel(c.lm, code[3]) == Some(c.im[a + 3]);
    assert ReplaceLabel(c.lm, code[4]) == Some(c.im[a + 4]);
    assert ReplaceLabel(c.lm, code[5]) == Some(c.im[a + 5]);
  }

  lemma InstallCall(c: Image, s0: State, k: seq<L.Frame>, objs: seq<L.Obj>, nh: nat, m: Salted, x: string, t: L.Stmt,
                    env: L.Env,
                    body: string, op: string, l1: Name) returns (m': Salted)
    requires m.segs != [] && StoreMatches(c, s0, k, objs, nh, m, EnvWords(c, m.labs, env)) && EnvOk(c, m.labs, env)
    requires User(op) in c.lm && User(body) in c.lm && l1 in c.lm
    requires 0 <= m.pc && m.pc + 3 < |c.im| && |m.R| == REGISTERS
    requires c.im[m.pc] == Mov(R2, Const(Code(FunAddr(c, op))))
    requires c.im[m.pc + 1] == Mov(R1, Const(Code(FunAddr(c, body))))
    requires c.im[m.pc + 2] == Call(Const(Code(c.lm[l1]))) && c.im[m.pc + 3] == Push(From(R1))
    requires StmtAt(c, m.pc + 4, [x] + Names(env), t)
    ensures m'.n > m.n && m'.labs == m.labs && m'.segs != []
    ensures StoreMatches(c, s0, k + [L.LetK(x, t, env)], objs, nh, m', [])
    ensures m'.rings == m.rings && m'.segs == WithFrame(m.segs, MLet(x, t, env, m.pc + 3))
    ensures m'.R == m.R[2 := Code(FunAddr(c, op))][1 := Code(FunAddr(c, body))] && m'.pc == c.lm[l1]
  {
    hide StmtAt, World, SegsCode, RingsCode, Run, EnvOk, SegWords;
    var b := Last(m.segs).blk;
    DoMovReg(c.im, s0, m.n, m.R, m.M, m.pc, b, 2, Const(Code(FunAddr(c, op))));
    var R' := m.R[2 := Code(FunAddr(c, op))];
    DoMovReg(c.im, s0, m.n + 1, R', m.M, m.pc + 1, b, 1, Const(Code(FunAddr(c, body))));
    var m1 := m.(n := m.n + 2, R := R'[1 := Code(FunAddr(c, body))], pc := m.pc + 2);
    Advance(c, s0, k, objs, nh, m, m1, EnvWords(c, m.labs, env));
    m' := CallFrame(c, s0, k, objs, nh, m1, x, t, env, Const(Code(c.lm[l1])), c.lm[l1]);
  }

  /** The tail of both entries: body to $6, header to $2, environment to $1, call. */
  lemma EntryTail(c: Image, s0: State, n: nat, R: seq<Word>, M: seq<Block>, a: int, b: nat, target: int)
    returns (R': seq<Word>)
    requires At(c.im, s0, n, R, M, a, b) && 0 <= a && a + 3 < |c.im| && R[1] == Code(target)
    requires c.im[a] == Mov(R6, From(R1)) && c.im[a + 1] == Mov(R2, From(SP)) && c.im[a + 2] == Mov(R1, From(R3))
    requires c.im[a + 3] == Call(From(R6))
    ensures At(c.im, s0, n + 4, R', M[b := Stk(M[b].ws + [Code(a + 4)])], target, b)
    ensures R'[1] == R[3] && R'[2] == Addr(b, 0 - |M[b].ws|)
  {
    hide Run;
    DoMovReg(c.im, s0, n, R, M, a, b, 6, From(R1));
    var Ra := R[6 := R[1]];
    DoMovReg(c.im, s0, n + 1, Ra, M, a + 1, b, 2, From(SP));
    var Rb := Ra[2 := Addr(b, 0 - |M[b].ws|)];
    DoMovReg(c.im, s0, n + 2, Rb, M, a + 2, b, 1, From(R3));
    R' := Rb[1 := R[3]];
    DoCallTo(c.im, s0, n + 3, R', M, a + 3, b, From(R6), target);
  }

  /** Four words are pushed: the header of a handler. */
  lemma PushHeader(c: Image, s0: State, n: nat, R: seq<Word>, M: seq<Block>, a: int, b: nat, o: Operand, x: Word)
    requires At(c.im, s0, n, R, M, a, b) && 0 <= a && a + 3 < |c.im|
    requires c.im[a] == Push(From(R2)) && c.im[a + 1] == Push(From(R3)) && c.im[a + 2] == Push(From(R4))
    requires c.im[a + 3] == Push(o)
    requires o != From(SP) && OperandWord(R, M, b, o) == Some(x)
    ensures At(c.im, s0, n + 4, R, M[b := Stk(M[b].ws + [R[2], R[3], R[4], x])], a + 4, b)
  {
    hide Run;
    var ws := M[b].ws;
    DoPushOperand(c.im, s0, n, R, M, a, b, From(R2));
    var M1 := M[b := Stk(ws + [R[2]])];
    DoPushOperand(c.im, s0, n + 1, R, M1, a + 1, b, From(R3));
    var M2 := M[b := Stk(ws + [R[2], R[3]])];
    assert ws + [R[2]] + [R[3]] == ws + [R[2], R[3]];
    assert M1[b := Stk(ws + [R[2], R[3]])] == M2;
    DoPushOperand(c.im, s0, n + 2, R, M2, a + 2, b, From(R4));
    var M3 := M[b := Stk(ws + [R[2], R[3], R[4]])];
    assert ws + [R[2], R[3]] + [R[4]] == ws + [R[2], R[3], R[4]];
    assert M2[b := Stk(ws + [R[2], R[3], R[4]])] == M3;
    DoPushOperand(c.im, s0, n + 3, R, M3, a + 3, b, o);
    assert ws + [R[2], R[3], R[4]] + [x] == ws + [R[2], R[3], R[4], x];
    assert M3[b := Stk(ws + [R[2], R[3], R[4], x])] == M[b := Stk(ws + [R[2], R[3], R[4], x])];
  }

  // ----- handle= -----

  lemma SameCode(c: Image, a: int)
    requires CodeIs(c, a, ENTER_SAME)
    ensures 0 <= a && a + 10 <= |c.im|
    ensures c.im[a] == Push(From(R2)) && c.im[a + 1] == Push(From(R3)) && c.im[a + 2] == Push(From(R4))
    ensures c.im[a + 3] == Push(Const(Int(-70)))
    ensures c.im[a + 4] == Mov(R6, From(R1)) && c.im[a + 5] == Mov(R2, From(SP)) && c.im[a + 6] == Mov(R1, From(R3))
    ensures c.im[a + 7] == Call(From(R6))
    ensures c.im[a + 8] == Sfree(4) && c.im[a + 9] == Return
  {
    assert forall i :: 0 <= i < |ENTER_SAME| ==> ReplaceLabel(c.lm, ENTER_SAME[i]) == Some(c.im[a + i]);
    assert ReplaceLabel(c.lm, ENTER_SAME[0]) == Some(c.im[a + 0]);
    assert ReplaceLabel(c.lm, ENTER_SAME[1]) == Some(c.im[a + 1])
        && ReplaceLabel(c.lm, ENTER_SAME[2]) == Some(c.im[a + 2]);
    assert ReplaceLabel(c.lm, ENTER_SAME[3]) == Some(c.im[a + 3])
        && ReplaceLabel(c.lm, ENTER_SAME[4]) == Some(c.im[a + 4]);
    assert ReplaceLabel(c.lm, ENTER_SAME[5]) == Some(c.im[a + 5])
        && ReplaceLabel(c.lm, ENTER_SAME[6]) == Some(c.im[a + 6]);
    assert ReplaceLabel(c.lm, ENTER_SAME[7]) == Some(c.im[a + 7])
        && ReplaceLabel(c.lm, ENTER_SAME[8]) == Some(c.im[a + 8]);
    assert ReplaceLabel(c.lm, ENTER_SAME[9]) == Some(c.im[a + 9]);
  }

  /** The header is pushed on the running stack; its address is the new label. */
  lemma EnterSameStack(c: Image, s0: State, k: seq<L.Frame>, objs: seq<L.Obj>, nh: nat, m: Salted, op: string, e: L.Val,
                       kind: int, target: int)
    returns (m': Salted)
    requires m.segs != [] && StoreMatches(c, s0, k, objs, nh, m, []) && CodeIs(c, m.pc, ENTER_SAME)
    requires User(op) in c.lm && ValOk(c, m.labs, e)
    requires |m.R| == REGISTERS && m.R[1] == Code(target) && m.R[2] == Code(FunAddr(c, op)) && m.R[3] == W(c, m.labs, e)
    requires m.R[4] == Int(kind)
    ensures m'.n > m.n && |m'.labs| == nh + 1 && m'.segs != []
    ensures StoreMatches(c, s0, k + [L.SameK(nh, op, e)], objs, nh + 1, m', [])
    ensures m.labs <= m'.labs && m'.rings == m.rings && m'.segs == WithFrame(m.segs, MSame(nh, op, e, kind, m.pc + 8))
    ensures m'.pc == target && ValOk(c, m'.labs, e)
    ensures |m'.R| == REGISTERS && m'.R[1] == W(c, m'.labs, e) && m'.R[2] == W(c, m'.labs, L.LabV(nh))
  {
    hide World, SegsCode, RingsCode, Run, SegWords, StmtAt, CodeIs, Strip, FsWords, FrameWords, BaseWords;
    var top, b, a := Last(m.segs), Last(m.segs).blk, m.pc;
    TopWords(c, s0, k, objs, nh, m, []);
    SameCode(c, a);
    var ws := m.M[b].ws;
    PushHeader(c, s0, m.n, m.R, m.M, a, b, Const(Int(-70)), Int(-70));
    var header := [m.R[2], m.R[3], m.R[4], Int(-70)];
    var M1 := m.M[b := Stk(ws + header)];
    var R := EntryTail(c, s0, m.n + 4, m.R, M1, a + 4, b, target);
    var M2 := m.M[b := Stk(ws + header + [Code(a + 8)])];
    assert M1[b := Stk(ws + header + [Code(a + 8)])] == M2;
    var f := MSame(nh, op, e, kind, a + 8);
    var lab := Addr(b, 0 - (|ws| + 4));
    m' := Salted(m.labs + [lab], WithFrame(m.segs, f), m.rings, m.n + 8, R, M2, target);
    SameFrame(c, m, objs, nh, f, lab, ws);
    StripWithFrame(m.segs, f);
    CodeWithFrame(c, m.segs, f);
    ValExtend(c, m.labs, lab, e);
  }

  lemma SameFrame(c: Image, m: Salted, objs: seq<L.Obj>, nh: nat, f: MFrame, lab: Word, ws: seq<Word>)
    requires m.segs != [] && World(c, m.labs, objs, m.M, m.segs, m.rings, []) && |m.labs| == nh
    requires Last(m.segs).blk < |m.M| && m.M[Last(m.segs).blk] == Stk(ws)
    requires ws == SegWords(c, m.labs, Last(m.segs), Exch(m.segs, |m.segs| - 1, Int(0))) + []
    requires f.MSame? && f.h == nh && ValOk(c, m.labs, f.e) && lab == Addr(Last(m.segs).blk, 0 - (|ws| + 4))
    ensures World(c, m.labs + [lab], objs,
                  m.M[Last(m.segs).blk := Stk(ws + [Code(FunAddr(c, f.op)), W(c, m.labs, f.e), Int(f.kind),
                                                    Int(-70)] + [Code(f.ret)])],
                  WithFrame(m.segs, f), m.rings, [])
  {
    hide World, SegWords;
    var top, x := Last(m.segs), Exch(m.segs, |m.segs| - 1, Int(0));
    WorldExtend(c, m.labs, lab, objs, m.M, m.segs, m.rings, []);
    ValExtend(c, m.labs, lab, f.e);
    TopOk(c, m.labs, objs, m.M, m.segs, m.rings, []);
    SegExtend(c, m.labs, lab, top, x);
    PushFrame(c, m.labs + [lab], objs, m.M, m.segs, m.rings, [], f);
    assert ws + [Code(FunAddr(c, f.op)), W(c, m.labs, f.e), Int(f.kind), Int(-70)] + [Code(f.ret)] ==
           SegWords(c, m.labs, top, x) + FrameWords(c, m.labs + [lab], f);
  }

  lemma TopOk(c: Image, labs: seq<Word>, objs: seq<L.Obj>, M: seq<Block>, segs: seq<Seg>, rings: Rings, cur: seq<Word>)
    requires World(c, labs, objs, M, segs, rings, cur)
    ensures segs != [] && SegOk(c, labs, Last(segs))
  {
  }

  lemma SegTop(c: Image, labs: seq<Word>, seg: Seg, x: Word)
    requires seg.fs != [] && seg.fs[|seg.fs| - 1].MSame?
    ensures |SegWords(c, labs, seg, x)| >= 5
    ensures SegWords(c, labs, seg, x)[|SegWords(c, labs, seg, x)| - 3] == Int(seg.fs[|seg.fs| - 1].kind)
  {
    hide BaseWords, W, FunAddr, EnvWords;
    var base, front := BaseWords(c, labs, seg.base, x), FsWords(c, labs, seg.fs[..|seg.fs| - 1]);
    var top := FrameWords(c, labs, seg.fs[|seg.fs| - 1]);
    assert FsWords(c, labs, seg.fs) == front + top && |top| == 5;
    assert (base + (front + top))[|base| + |front| + 2] == top[2];
  }

  /** The third word of the header on top of a stack. */
  lemma SameHeader(c: Image, s0: State, k: seq<L.Frame>, objs: seq<L.Obj>, nh: nat, m: Salted, kind: int)
    requires m.segs != [] && StoreMatches(c, s0, k, objs, nh, m, []) && Last(m.segs).fs != []
    requires TopFrame(m.segs).MSame? && TopFrame(m.segs).kind == kind
    ensures var ws := m.M[Last(m.segs).blk].ws; |ws| >= 5 && ws[|ws| - 3] == Int(kind)
  {
    hide StoreMatches, SegWords, Exch;
    TopWords(c, s0, k, objs, nh, m, []);
    SegTop(c, m.labs, Last(m.segs), Exch(m.segs, |m.segs| - 1, Int(0)));
  }

  lemma NewHeader(c: Image, s0: State, k: seq<L.Frame>, objs: seq<L.Obj>, nh: nat, m: Salted)
    requires m.segs != [] && StoreMatches(c, s0, k, objs, nh, m, []) && Last(m.segs).fs == []
    requires Last(m.segs).base.NewBase?
    ensures var ws := m.M[Last(m.segs).blk].ws; |ws| == 5 && ws[2] == Int(0)
  {
    hide StoreMatches, Exch, W, FunAddr;
    TopWords(c, s0, k, objs, nh, m, []);
  }

  /** Control gets to the body, with the environment and the label of the new header. */
  lemma HandleSameTo(c: Image, s0: State, s: L.Config, m: Salted, x: string, body: string, kind: L.Kind, op: string,
                     under: L.Value,
                     t: L.Stmt, env: L.Env) returns (m': Salted, mv: Move)
    requires m.segs != []
    requires Evaluates(c, s0, s.k, s.objs, s.nh, m, L.Let(x, L.HandleSame(body, kind, op, under), t), env)
    requires L.EvalV(env, under).Some?
    ensures var e := L.EvalV(env, under).value;
            && StoreMatches(c, s0, s.k + [L.LetK(x, t, env), L.SameK(s.nh, op, e)], s.objs, s.nh + 1, m', [])
            && Arrived(c, m', body, [e, L.LabV(s.nh)])
    ensures m'.n > m.n && m'.segs != [] && mv.Installed? && Moved(mv, m, m')
    ensures var ws := m'.M[Last(m'.segs).blk].ws;
            |ws| >= 5 && ws[|ws| - 3] == Int(match kind case General => 0 case Abort => 1 case Tail => 2)
  {
    hide StmtAt, World, SegsCode, RingsCode, Run, EnvOk, SegWords, CodeIs, At;
    var e := L.EvalV(env, under).value;
    var l1 := LetCodeIs(c, m.pc, Names(env), x, L.HandleSame(body, kind, op, under), t);
    var m1 := InstallPrefix(c, s0, s.k, s.objs, s.nh, m, x, t, env, body, kind, op, under, l1);
    var k1 := s.k + [L.LetK(x, t, env)];
    m' := EnterSameStack(c, s0, k1, s.objs, s.nh, m1, op, e, KindWord(kind), FunAddr(c, body));
    mv := Installed(MLet(x, t, env, m.pc + 5), MSame(s.nh, op, e, KindWord(kind), m1.pc + 8));
    assert k1 + [L.SameK(s.nh, op, e)] == s.k + [L.LetK(x, t, env), L.SameK(s.nh, op, e)];
    SameHeader(c, s0, k1 + [L.SameK(s.nh, op, e)], s.objs, s.nh + 1, m', KindWord(kind));
  }

  lemma SimHandleSame(c: Image, p: L.Program, s0: State, s: L.Config, m: Salted, x: string, body: string, kind: L.Kind,
                      op: string, under: L.Value,
                      t: L.Stmt, env: L.Env) returns (m': Salted, mv: Move)
    requires ProgramAt(c, p)
    requires m.segs != []
    requires Evaluates(c, s0, s.k, s.objs, s.nh, m, L.Let(x, L.HandleSame(body, kind, op, under), t), env)
    requires L.StepHandleSame(p, s, x, t, env, body, op, under).Some?
    ensures m'.n > m.n && Matches(c, s0, L.StepHandleSame(p, s, x, t, env, body, op, under).value, m')
    ensures mv.Installed? && Moved(mv, m, m')
  {
    hide Evaluates, StoreMatches, ProgramAt, Arrived, L.Enter;
    var m1;
    m1, mv := HandleSameTo(c, s0, s, m, x, body, kind, op, under, t, env);
    var e := L.EvalV(env, under).value;
    m' := EnterFun(c, p, s0, s.k + [L.LetK(x, t, env), L.SameK(s.nh, op, e)], s.objs, s.nh + 1, m1, body,
                   [e, L.LabV(s.nh)],
                   L.Enter(p, body, [e, L.LabV(s.nh)]).value);
  }

  // ----- handle+ -----

  ghost predicate NewCodeAt(im: seq<Instr>, a: int)
  {
    0 <= a && a + 14 <= |im| &&
    im[a] == Mov(R5, From(SP)) && im[a + 1] == Mkstk(SP) &&
    im[a + 2] == Push(From(R2)) && im[a + 3] == Push(From(R3)) && im[a + 4] == Push(From(R4))
        && im[a + 5] == Push(From(R5)) &&
    im[a + 6] == Mov(R6, From(R1)) && im[a + 7] == Mov(R2, From(SP)) && im[a + 8] == Mov(R1, From(R3))
        && im[a + 9] == Call(From(R6)) &&
    im[a + 10] == Pop(R2) && im[a + 11] == Sfree(3) && im[a + 12] == Mov(SP, From(R2)) && im[a + 13] == Return
  }

  lemma NewCode(c: Image, a: int)
    requires CodeIs(c, a, ENTER_NEW)
    ensures NewCodeAt(c.im, a)
  {
    assert ReplaceLabel(c.lm, ENTER_NEW[0]) == Some(c.im[a + 0])
        && ReplaceLabel(c.lm, ENTER_NEW[1]) == Some(c.im[a + 1]);
    assert ReplaceLabel(c.lm, ENTER_NEW[2]) == Some(c.im[a + 2])
        && ReplaceLabel(c.lm, ENTER_NEW[3]) == Some(c.im[a + 3]);
    assert ReplaceLabel(c.lm, ENTER_NEW[4]) == Some(c.im[a + 4])
        && ReplaceLabel(c.lm, ENTER_NEW[5]) == Some(c.im[a + 5]);
    assert ReplaceLabel(c.lm, ENTER_NEW[6]) == Some(c.im[a + 6])
        && ReplaceLabel(c.lm, ENTER_NEW[7]) == Some(c.im[a + 7]);
    assert ReplaceLabel(c.lm, ENTER_NEW[8]) == Some(c.im[a + 8])
        && ReplaceLabel(c.lm, ENTER_NEW[9]) == Some(c.im[a + 9]);
    assert ReplaceLabel(c.lm, ENTER_NEW[10]) == Some(c.im[a + 10])
        && ReplaceLabel(c.lm, ENTER_NEW[11]) == Some(c.im[a + 11]);
    assert ReplaceLabel(c.lm, ENTER_NEW[12]) == Some(c.im[a + 12])
        && ReplaceLabel(c.lm, ENTER_NEW[13]) == Some(c.im[a + 13]);
  }

  /** The header starts a fresh stack; its exchanger is the stack pointer that was running. */
  lemma EnterNewStack(c: Image, s0: State, k: seq<L.Frame>, objs: seq<L.Obj>, nh: nat, m: Salted, op: string, e: L.Val,
                      target: int)
    returns (m': Salted)
    requires m.segs != [] && StoreMatches(c, s0, k, objs, nh, m, []) && CodeIs(c, m.pc, ENTER_NEW)
    requires User(op) in c.lm && ValOk(c, m.labs, e)
    requires |m.R| == REGISTERS && m.R[1] == Code(target) && m.R[2] == Code(FunAddr(c, op)) && m.R[3] == W(c, m.labs, e)
    requires m.R[4] == Int(0)
    ensures m'.n > m.n && |m'.labs| == nh + 1 && m'.segs != []
    ensures m.labs <= m'.labs && m'.rings == m.rings
    ensures m'.segs == m.segs + [Seg(|m.M|, NewBase(nh, op, e, m.pc + 10), [])]
    ensures StoreMatches(c, s0, k + [L.NewK(nh, op, e)], objs + [L.Segment], nh + 1, m', [])
    ensures m'.pc == target && ValOk(c, m'.labs, e)
    ensures |m'.R| == REGISTERS && m'.R[1] == W(c, m'.labs, e) && m'.R[2] == W(c, m'.labs, L.LabV(nh))
  {
    hide World, SegsCode, RingsCode, Run, SegWords, StmtAt, SegOk, CodeIs, NewCodeAt, Strip, FunAddr;
    var a := m.pc;
    TopLen(c, s0, k, objs, nh, m);
    NewCode(c, a);
    var n, R := NewStackCode(c, s0, m, a, target);
    var seg := Seg(|m.M|, NewBase(nh, op, e, a + 10), []);
    var lab := Addr(|m.M|, -4);
    m' := Salted(m.labs + [lab], m.segs + [seg], m.rings, n, R,
                 m.M + [Stk([m.R[2], m.R[3], m.R[4], TopAddr(Last(m.segs)), Code(a + 10)])], target);
    NewSeg(c, m, objs, nh, seg, lab);
    StripSnoc(m.segs, seg);
    CodeWithSeg(c, m.segs, seg);
    ValExtend(c, m.labs, lab, e);
  }

  lemma TopLen(c: Image, s0: State, k: seq<L.Frame>, objs: seq<L.Obj>, nh: nat, m: Salted)
    requires m.segs != [] && StoreMatches(c, s0, k, objs, nh, m, [])
    ensures IsStack(m.M, Last(m.segs).blk) && |m.M[Last(m.segs).blk].ws| == SegLen(Last(m.segs))
    ensures Addr(Last(m.segs).blk, 0 - |m.M[Last(m.segs).blk].ws|) == TopAddr(Last(m.segs))
  {
    hide World, SegsCode, RingsCode, SegWords, SegOk;
    TopWords(c, s0, k, objs, nh, m, []);
  }

  lemma CodeWithSeg(c: Image, segs: seq<Seg>, seg: Seg)
    requires SegsCode(c, segs) && SegCode(c, seg)
    ensures SegsCode(c, segs + [seg])
  {
    hide SegCode;
  }

  lemma NewStackCode(c: Image, s0: State, m: Salted, a: int, target: int) returns (n: nat, R: seq<Word>)
    requires m.segs != [] && At(c.im, s0, m.n, m.R, m.M, m.pc, Last(m.segs).blk) && m.pc == a && NewCodeAt(c.im, a)
    requires Addr(Last(m.segs).blk, 0 - |m.M[Last(m.segs).blk].ws|) == TopAddr(Last(m.segs)) && m.R[1] == Code(target)
    ensures n > m.n
    ensures At(c.im, s0, n, R, m.M + [Stk([m.R[2], m.R[3], m.R[4], TopAddr(Last(m.segs)), Code(a + 10)])], target,
               |m.M|)
    ensures R[1] == m.R[3] && R[2] == Addr(|m.M|, -4)
  {
    hide Run, TopAddr;
    DoMovReg(c.im, s0, m.n, m.R, m.M, a, Last(m.segs).blk, 5, From(SP));
    var x := TopAddr(Last(m.segs));
    var Ra := m.R[5 := x];
    DoMkstkSp(c.im, s0, m.n + 1, Ra, m.M, a + 1, Last(m.segs).blk);
    R := FillNewStack(c, s0, m.n + 2, Ra, m.M, a, target, x);
    n := m.n + 10;
  }

  lemma FillNewStack(c: Image, s0: State, n: nat, R: seq<Word>, M: seq<Block>, a: int, target: int, x: Word)
    returns (R': seq<Word>)
    requires NewCodeAt(c.im, a) && At(c.im, s0, n, R, M + [Stk([])], a + 2, |M|) && R[1] == Code(target) && R[5] == x
    ensures At(c.im, s0, n + 8, R', M + [Stk([R[2], R[3], R[4], x, Code(a + 10)])], target, |M|)
    ensures R'[1] == R[3] && R'[2] == Addr(|M|, -4)
  {
    hide Run;
    var M0, header := M + [Stk([])], [R[2], R[3], R[4], x];
    PushHeader(c, s0, n, R, M0, a + 2, |M|, From(R5), x);
    assert [] + header == header;
    assert M0[|M| := Stk(header)] == M + [Stk(header)];
    R' := EntryTail(c, s0, n + 4, R, M + [Stk(header)], a + 6, |M|, target);
    assert header + [Code(a + 10)] == [R[2], R[3], R[4], x, Code(a + 10)];
    assert (M + [Stk(header)])[|M| := Stk(header + [Code(a + 10)])] == M + [Stk(header + [Code(a + 10)])];
  }

  lemma NewSeg(c: Image, m: Salted, objs: seq<L.Obj>, nh: nat, seg: Seg, lab: Word)
    requires m.segs != [] && World(c, m.labs, objs, m.M, m.segs, m.rings, []) && |m.labs| == nh
    requires seg.base.NewBase? && seg.base.h == nh && ValOk(c, m.labs, seg.base.e) && seg.fs == []
    requires seg.blk == |m.M| && lab == Addr(|m.M|, -4)
    ensures World(c, m.labs + [lab], objs + [L.Segment],
                  m.M + [Stk([Code(FunAddr(c, seg.base.op)), W(c, m.labs, seg.base.e), Int(0), TopAddr(Last(m.segs)),
                              Code(seg.base.ret)])],
                  m.segs + [seg], m.rings, [])
  {
    WorldExtend(c, m.labs, lab, objs, m.M, m.segs, m.rings, []);
    ValExtend(c, m.labs, lab, seg.base.e);
    PushSeg(c, m.labs + [lab], objs, m.M, m.segs, m.rings, seg);
    hide World;
    assert SegWords(c, m.labs + [lab], seg, TopAddr(Last(m.segs))) ==
           [Code(FunAddr(c, seg.base.op)), W(c, m.labs, seg.base.e), Int(0), TopAddr(Last(m.segs)), Code(seg.base.ret)];
  }

  /** Control gets to the body on the new stack. */
  lemma HandleNewTo(c: Image, s0: State, s: L.Config, m: Salted, x: string, body: string, kind: L.Kind, op: string,
                    under: L.Value,
                    t: L.Stmt, env: L.Env) returns (m': Salted, mv: Move)
    requires m.segs != []
    requires Evaluates(c, s0, s.k, s.objs, s.nh, m, L.Let(x, L.HandleNew(body, kind, op, under), t), env)
    requires L.EvalV(env, under).Some?
    ensures var e := L.EvalV(env, under).value;
            && StoreMatches(c, s0, s.k + [L.LetK(x, t, env), L.NewK(s.nh, op, e)], s.objs + [L.Segment], s.nh + 1, m',
                            [])
            && Arrived(c, m', body, [e, L.LabV(s.nh)])
    ensures m'.n > m.n && m'.segs != [] && mv.NewStack? && Moved(mv, m, m')
    ensures var ws := m'.M[Last(m'.segs).blk].ws; |ws| == 5 && ws[2] == Int(0)
  {
    hide StmtAt, World, SegsCode, RingsCode, Run, EnvOk, SegWords, CodeIs, At, SegOk;
    var e := L.EvalV(env, under).value;
    var l1 := LetCodeIs(c, m.pc, Names(env), x, L.HandleNew(body, kind, op, under), t);
    var m1 := InstallPrefix(c, s0, s.k, s.objs, s.nh, m, x, t, env, body, kind, op, under, l1);
    var k1 := s.k + [L.LetK(x, t, env)];
    m' := EnterNewStack(c, s0, k1, s.objs, s.nh, m1, op, e, FunAddr(c, body));
    mv := NewStack(MLet(x, t, env, m.pc + 5), Seg(|m1.M|, NewBase(s.nh, op, e, m1.pc + 10), []));
    assert k1 + [L.NewK(s.nh, op, e)] == s.k + [L.LetK(x, t, env), L.NewK(s.nh, op, e)];
    NewHeader(c, s0, k1 + [L.NewK(s.nh, op, e)], s.objs + [L.Segment], s.nh + 1, m');
  }

  lemma SimHandleNew(c: Image, p: L.Program, s0: State, s: L.Config, m: Salted, x: string, body: string, kind: L.Kind,
                     op: string, under: L.Value,
                     t: L.Stmt, env: L.Env) returns (m': Salted, mv: Move)
    requires ProgramAt(c, p)
    requires m.segs != []
    requires Evaluates(c, s0, s.k, s.objs, s.nh, m, L.Let(x, L.HandleNew(body, kind, op, under), t), env)
    requires L.StepHandleNew(p, s, x, t, env, body, op, under).Some?
    ensures m'.n > m.n && Matches(c, s0, L.StepHandleNew(p, s, x, t, env, body, op, under).value, m')
    ensures mv.NewStack? && Moved(mv, m, m')
  {
    hide Evaluates, StoreMatches, ProgramAt, Arrived, L.Enter;
    var m1;
    m1, mv := HandleNewTo(c, s0, s, m, x, body, kind, op, under, t, env);
    var e := L.EvalV(env, under).value;
    m' := EnterFun(c, p, s0, s.k + [L.LetK(x, t, env), L.NewK(s.nh, op, e)], s.objs + [L.Segment], s.nh + 1, m1, body,
                   [e, L.LabV(s.nh)],
                   L.Enter(p, body, [e, L.LabV(s.nh)]).value);
  }
}
