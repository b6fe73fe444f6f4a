/** Simulation of raises that run the clause on top of the raise, and of raises that abort. */
module HandlerSteps {
  import opened Options
  import opened Salt
  import opened SaltRules
  import opened Translate
  import opened Assembler
  import opened Linking
  import opened Layout
  import opened LayoutSteps
  import opened Matching
  import opened Activations
  import opened Statements
  import opened ReturnSteps
  import opened Handlers
  import opened FirstOrder
  import L = Lexa

  // ----- tailraise -----

  lemma HeaderLoads(c: Image, s0: State, n: nat, R: seq<Word>, M: seq<Block>, pc: int, b: nat, labs: seq<Word>, a: Word,
                    op: string, e: L.Val)
    requires At(c.im, s0, n, R, M, pc, b) && 0 <= pc && pc + 1 < |c.im| && R[1] == a && HeaderAt(c, labs, M, a, op, e)
    requires c.im[pc] == Load(R3, R1, Some(3)) && c.im[pc + 1] == Load(R1, R1, Some(2))
    ensures At(c.im, s0, n + 2, R[3 := Code(FunAddr(c, op))][1 := W(c, labs, e)], M, pc + 2, b)
  {
    hide Run;
    DoLoadMem(c.im, s0, n, R, M, pc, b, 3, 1, 3);
    DoLoadMem(c.im, s0, n + 1, R[3 := Code(FunAddr(c, op))], M, pc + 1, b, 1, 1, 2);
  }

  /** The argument goes to register 2, the label or resumption to register 1. */
  lemma LoadPair(c: Image, s0: State, k: seq<L.Frame>, objs: seq<L.Obj>, nh: nat, m: Salted, env: L.Env, lab: L.Value,
                 arg: L.Value, code: seq<Instr>)
    returns (m': Salted)
    requires m.segs != [] && StoreMatches(c, s0, k, objs, nh, m, EnvWords(c, m.labs, env)) && EnvOk(c, m.labs, env)
    requires L.EvalV(env, lab).Some? && L.EvalV(env, arg).Some?
    requires CodeIs(c, m.pc, code) && |code| > 2
    requires code[0] == CompileValue(Names(env), arg, 2)[0] && code[1] == CompileValue(Names(env), lab, 1)[0]
    ensures m' == m.(n := m.n + 2, R := m'.R, pc := m.pc + 2) && |m'.R| == REGISTERS
    ensures m'.R[1] == W(c, m.labs, L.EvalV(env, lab).value) && m'.R[2] == W(c, m.labs, L.EvalV(env, arg).value)
    ensures StoreMatches(c, s0, k, objs, nh, m', EnvWords(c, m.labs, env))
    ensures ValOk(c, m.labs, L.EvalV(env, lab).value) && ValOk(c, m.labs, L.EvalV(env, arg).value)
  {
    hide World, SegsCode, RingsCode, Run, EnvOk, At;
    assert ReplaceLabel(c.lm, code[0]) == Some(c.im[m.pc + 0]);
    assert ReplaceLabel(c.lm, code[1]) == Some(c.im[m.pc + 1]);
    var m1 := LoadValue(c, s0, k, objs, nh, m, env, arg, 2);
    m' := LoadValue(c, s0, k, objs, nh, m1, env, lab, 1);
  }

  /** Control gets to the operation, with the handler's environment and the argument. */
  lemma TailRaiseTo(c: Image, s0: State, s: L.Config, m: Salted, x: string, lab: L.Value, arg: L.Value, t: L.Stmt,
                    env: L.Env, i: nat)
    returns (m': Salted)
    requires m.segs != [] && Evaluates(c, s0, s.k, s.objs, s.nh, m, L.Let(x, L.TailRaise(lab, arg), t), env)
    requires HandlerPosition(s, env, lab) == Some(i) && L.EvalV(env, arg).Some?
    ensures i < |s.k| && !s.k[i].LetK? && m'.n > m.n && m'.segs != []
    ensures StoreMatches(c, s0, s.k + [L.LetK(x, t, env)], s.objs, s.nh, m', [])
    ensures Arrived(c, m', s.k[i].op, [s.k[i].e, L.EvalV(env, arg).value])
    ensures Moved(Called(MLet(x, t, env, m.pc + 5)), m, m')
  {
    hide StmtAt, World, SegsCode, RingsCode, Run, EnvOk, SegWords, HeaderAt, CodeIs, At;
    var op, e := s.k[i].op, s.k[i].e;
    var l1 := LetCodeIs(c, m.pc, Names(env), x, L.TailRaise(lab, arg), t);
    var m1 := LoadPair(c, s0, s.k, s.objs, s.nh, m, env, lab, arg, Before(Names(env), L.TailRaise(lab, arg), l1));
    HeaderOf(c, s0, s.k, s.objs, s.nh, m1, EnvWords(c, m.labs, env), i);
    m' := TailRaiseCall(c, s0, s.k, s.objs, s.nh, m.pc, m1, x, lab, arg, t, env, l1, op, e);
  }

  lemma SimTailRaise(c: Image, p: L.Program, s0: State, s: L.Config, m: Salted, x: string, lab: L.Value, arg: L.Value,
                     t: L.Stmt, env: L.Env)
    returns (m': Salted)
    requires ProgramAt(c, p)
    requires m.segs != [] && Evaluates(c, s0, s.k, s.objs, s.nh, m, L.Let(x, L.TailRaise(lab, arg), t), env)
    requires L.StepTailRaise(p, s, x, t, env, lab, arg).Some?
    ensures m'.n > m.n && Matches(c, s0, L.StepTailRaise(p, s, x, t, env, lab, arg).value, m')
    ensures Moved(Called(MLet(x, t, env, m.pc + 5)), m, m')
  {
    hide Evaluates, StoreMatches, ProgramAt, Arrived, L.Enter;
    var i := HandlerPosition(s, env, lab).value;
    var m1 := TailRaiseTo(c, s0, s, m, x, lab, arg, t, env, i);
    var args := [s.k[i].e, L.EvalV(env, arg).value];
    m' := EnterFun(c, p, s0, s.k + [L.LetK(x, t, env)], s.objs, s.nh, m1, s.k[i].op, args,
                   L.Enter(p, s.k[i].op, args).value);
  }

  lemma TailRaiseCall(c: Image, s0: State, k: seq<L.Frame>, objs: seq<L.Obj>, nh: nat, a: int, m: Salted,
                      x: string, lab: L.Value, arg: L.Value, t: L.Stmt, env: L.Env, l1: Name, op: string, e: L.Val)
                        returns (m': Salted)
    requires CodeIs(c, a, Before(Names(env), L.TailRaise(lab, arg), l1)) && m.pc == a + 2
    requires StmtAt(c, a + |Before(Names(env), L.TailRaise(lab, arg), l1)|, [x] + Names(env), t)
    requires m.segs != [] && StoreMatches(c, s0, k, objs, nh, m, EnvWords(c, m.labs, env)) && EnvOk(c, m.labs, env)
    requires |m.R| == REGISTERS && HeaderAt(c, m.labs, m.M, m.R[1], op, e)
    ensures m'.n > m.n && m'.labs == m.labs && m'.segs != []
    ensures StoreMatches(c, s0, k + [L.LetK(x, t, env)], objs, nh, m', [])
    ensures m'.rings == m.rings && m'.segs == WithFrame(m.segs, MLet(x, t, env, a + 5))
    ensures m'.pc == FunAddr(c, op) && |m'.R| == REGISTERS && m'.R[1] == W(c, m.labs, e) && m'.R[2] == m.R[2]
  {
    hide StmtAt, World, SegsCode, RingsCode, Run, EnvOk, SegWords;
    var code := Before(Names(env), L.TailRaise(lab, arg), l1);
    assert ReplaceLabel(c.lm, code[2]) == Some(c.im[a + 2]);
    assert ReplaceLabel(c.lm, code[3]) == Some(c.im[a + 3]);
    assert ReplaceLabel(c.lm, code[4]) == Some(c.im[a + 4]);
    assert ReplaceLabel(c.lm, code[5]) == Some(c.im[a + 5]);
    HeaderLoads(c, s0, m.n, m.R, m.M, m.pc, Last(m.segs).blk, m.labs, m.R[1], op, e);
    var m1 := m.(n := m.n + 2, R := m.R[3 := Code(FunAddr(c, op))][1 := W(c, m.labs, e)], pc := m.pc + 2);
    Advance(c, s0, k, objs, nh, m, m1, EnvWords(c, m.labs, env));
    m' := CallFrame(c, s0, k, objs, nh, m1, x, t, env, From(R3), FunAddr(c, op));
  }

  // ----- abortraise -----

  /** Control gets to the operation, with the frames below the handler. */
  lemma AbortRaiseTo(c: Image, s0: State, s: L.Config, m: Salted, x: string, lab: L.Value, arg: L.Value, t: L.Stmt,
                     env: L.Env, i: nat)
    returns (m': Salted, j: nat, n: nat)
    requires m.segs != [] && Evaluates(c, s0, s.k, s.objs, s.nh, m, L.Let(x, L.AbortRaise(lab, arg), t), env)
    requires HandlerPosition(s, env, lab) == Some(i) && L.EvalV(env, arg).Some? && i < |s.k| && s.k[i].SameK?
    ensures m'.n > m.n && m'.segs != [] && StoreMatches(c, s0, s.k[..i], s.objs, s.nh, m', [])
    ensures Arrived(c, m', s.k[i].op, [s.k[i].e, L.EvalV(env, arg).value]) && Moved(CutBack(j, n), m, m')
  {
    hide StmtAt, World, SegsCode, RingsCode, Run, EnvOk, SegWords, HeaderAt, CodeIs, At, L.FindHandler, L.EvalV, Strip;
    var l1 := LetCodeIs(c, m.pc, Names(env), x, L.AbortRaise(lab, arg), t);
    var m1 := LoadPair(c, s0, s.k, s.objs, s.nh, m, env, lab, arg, Before(Names(env), L.AbortRaise(lab, arg), l1));
    m', j, n := AbortTo(c, s0, s.k, s.objs, s.nh, m.pc, m1, lab, arg, env, l1, i);
  }

  lemma SimAbortRaise(c: Image, p: L.Program, s0: State, s: L.Config, m: Salted, x: string, lab: L.Value, arg: L.Value,
                      t: L.Stmt, env: L.Env)
    returns (m': Salted, mv: Move)
    requires ProgramAt(c, p)
    requires m.segs != [] && Evaluates(c, s0, s.k, s.objs, s.nh, m, L.Let(x, L.AbortRaise(lab, arg), t), env)
    requires L.StepAbortRaise(p, s, env, lab, arg).Some?
    ensures m'.n > m.n && Matches(c, s0, L.StepAbortRaise(p, s, env, lab, arg).value, m')
    ensures mv.CutBack? && Moved(mv, m, m')
  {
    hide Evaluates, StoreMatches, ProgramAt, Arrived, L.Enter;
    var i := HandlerPosition(s, env, lab).value;
    var m1, j, n := AbortRaiseTo(c, s0, s, m, x, lab, arg, t, env, i);
    mv := CutBack(j, n);
    var args := [s.k[i].e, L.EvalV(env, arg).value];
    m' := EnterFun(c, p, s0, s.k[..i], s.objs, s.nh, m1, s.k[i].op, args, L.Enter(p, s.k[i].op, args).value);
  }

  /** However many frames, handlers and stacks lie in between, sp ends up right below the
      header of the handler, on the stack that it lies on. */
  lemma AbortRuns(c: Image, s0: State, k: seq<L.Frame>, objs: seq<L.Obj>, nh: nat, a: int, m: Salted,
                  lab: L.Value, arg: L.Value, env: L.Env, l1: Name, i: nat)
                    returns (j: nat, n: nat, steps: nat, R: seq<Word>)
    requires CodeIs(c, a, Before(Names(env), L.AbortRaise(lab, arg), l1)) && m.pc == a + 2
    requires m.segs != [] && StoreMatches(c, s0, k, objs, nh, m, EnvWords(c, m.labs, env))
    requires i < |k| && k[i].SameK?
    requires k[i].h < |m.labs| ==> |m.R| == REGISTERS && m.R[1] == m.labs[k[i].h]
    ensures LiesAt(m.segs, i, j, Some(n)) && j < |m.segs| && n < |m.segs[j].fs| && m.segs[j].fs[n].MSame?
    ensures StripFrame(m.segs[j].fs[n]) == [k[i]]
    ensures var b, low := m.segs[j].blk, m.segs[j].(fs := m.segs[j].fs[..n]);
            && SegOk(c, m.labs, low) && IsStack(m.M, b) && SegLen(low) <= |m.M[b].ws|
            && m.M[b].ws[..SegLen(low)] == SegWords(c, m.labs, low, Exch(m.segs, j, Int(0)))
            && steps > m.n && At(c.im, s0, steps, R, m.M[b := Stk(m.M[b].ws[..SegLen(low)])], FunAddr(c, k[i].op), b)
    ensures ValOk(c, m.labs, k[i].e) && User(k[i].op) in c.lm
    ensures |R| == REGISTERS && R[1] == W(c, m.labs, k[i].e) && R[2] == m.R[2]
  {
    hide World, SegsCode, RingsCode, Run, SegWords, CodeIs, At, HeaderAt, SegOk, Strip, L.EvalV, SegLen, EnvWords;
    var f;
    j, f := Locate(m.segs, i);
    n := f.value;
    var above := SegMem(c, s0, k, objs, nh, m, EnvWords(c, m.labs, env), j);
    var seg, x := m.segs[j], Exch(m.segs, j, Int(0));
    HeaderInFrame(c, m.labs, m.M, seg, x, above, n);
    FrameCodeOf(c, m.segs, j, n);
    hide FrameCode;
    var low := seg.(fs := seg.fs[..n]);
    steps, R := AbortCode(c, s0, m, a, lab, arg, env, l1, seg.blk, SegLen(low), seg.fs[n].op, seg.fs[n].e);
  }

  /** The layout is cut back to the frames below the header; nothing below has changed. */
  lemma AbortTo(c: Image, s0: State, k: seq<L.Frame>, objs: seq<L.Obj>, nh: nat, a: int, m: Salted,
                lab: L.Value, arg: L.Value, env: L.Env, l1: Name, i: nat) returns (m': Salted, j: nat, n: nat)
    requires CodeIs(c, a, Before(Names(env), L.AbortRaise(lab, arg), l1)) && m.pc == a + 2
    requires m.segs != [] && StoreMatches(c, s0, k, objs, nh, m, EnvWords(c, m.labs, env))
    requires i < |k| && k[i].SameK?
    requires k[i].h < |m.labs| ==> |m.R| == REGISTERS && m.R[1] == m.labs[k[i].h]
    ensures m'.n > m.n && m'.labs == m.labs && m'.segs != [] && StoreMatches(c, s0, k[..i], objs, nh, m', [])
    ensures j < |m.segs| && n < |m.segs[j].fs| && m.segs[j].fs[n].MSame? && StripFrame(m.segs[j].fs[n]) == [k[i]]
    ensures m'.segs == CutAt(m.segs, j, n) && m'.rings == m.rings && IsStack(m.M, m.segs[j].blk)
    ensures SegLen(Last(m'.segs)) <= |m.M[m.segs[j].blk].ws|
    ensures m'.M == m.M[m.segs[j].blk := Stk(m.M[m.segs[j].blk].ws[..SegLen(Last(m'.segs))])]
    ensures ValOk(c, m.labs, k[i].e) && User(k[i].op) in c.lm
    ensures m'.pc == FunAddr(c, k[i].op) && |m'.R| == REGISTERS && m'.R[1] == W(c, m.labs, k[i].e) && m'.R[2] == m.R[2]
  {
    hide World, SegsCode, RingsCode, Run, SegWords, CodeIs, At, SegOk, Strip, L.EvalV, SegLen, EnvWords;
    var steps, R;
    j, n, steps, R := AbortRuns(c, s0, k, objs, nh, a, m, lab, arg, env, l1, i);
    var low, b := m.segs[j].(fs := m.segs[j].fs[..n]), m.segs[j].blk;
    var ws := m.M[b].ws[..SegLen(low)];
    m' := m.(n := steps, R := R, M := m.M[b := Stk(ws)], segs := CutAt(m.segs, j, n), pc := FunAddr(c, k[i].op));
    CutAbove(c, m.labs, objs, m.M, m.segs, m.rings, EnvWords(c, m.labs, env), j, low, []);
    assert ws + [] == ws;
    StripSnoc(m.segs[..j], low);
    LowCode(c, m.segs, j, n);
  }

  lemma FrameCodeOf(c: Image, segs: seq<Seg>, j: nat, n: nat)
    requires SegsCode(c, segs) && j < |segs| && n < |segs[j].fs| && segs[j].fs[n].MSame?
    ensures User(segs[j].fs[n].op) in c.lm
  {
    assert SegCode(c, segs[j]) && FrameCode(c, segs[j].fs[n]);
  }

  lemma LowCode(c: Image, segs: seq<Seg>, j: nat, f: nat)
    requires SegsCode(c, segs) && j < |segs| && f <= |segs[j].fs|
    ensures SegsCode(c, segs[..j] + [segs[j].(fs := segs[j].fs[..f])])
  {
    hide FrameCode, BaseCode;
    assert SegCode(c, segs[j]);
  }

  lemma AbortCode(c: Image, s0: State, m: Salted, a: int, lab: L.Value, arg: L.Value, env: L.Env, l1: Name,
                  b: nat, len: nat, op: string, e: L.Val) returns (n: nat, R: seq<Word>)
    requires CodeIs(c, a, Before(Names(env), L.AbortRaise(lab, arg), l1)) && m.pc == a + 2 && m.segs != []
    requires At(c.im, s0, m.n, m.R, m.M, m.pc, Last(m.segs).blk)
    requires IsStack(m.M, b) && len + 4 <= |m.M[b].ws| && m.R[1] == Addr(b, 0 - (len + 4))
    requires HeaderAt(c, m.labs, m.M, m.R[1], op, e)
    ensures n > m.n && At(c.im, s0, n, R, m.M[b := Stk(m.M[b].ws[..len])], FunAddr(c, op), b)
    ensures |R| == REGISTERS && R[1] == W(c, m.labs, e) && R[2] == m.R[2]
  {
    hide Run, FunAddr, W;
    var code := Before(Names(env), L.AbortRaise(lab, arg), l1);
    assert ReplaceLabel(c.lm, code[2]) == Some(c.im[a + 2]);
    assert ReplaceLabel(c.lm, code[3]) == Some(c.im[a + 3]);
    assert ReplaceLabel(c.lm, code[4]) == Some(c.im[a + 4]);
    assert ReplaceLabel(c.lm, code[5]) == Some(c.im[a + 5]);
    assert ReplaceLabel(c.lm, code[6]) == Some(c.im[a + 6]);
    assert ReplaceLabel(c.lm, code[7]) == Some(c.im[a + 7]);
    assert ReplaceLabel(c.lm, code[8]) == Some(c.im[a + 8]);
    DoDump(c.im, s0, m.n, m.R, m.M, a + 2, Last(m.segs).blk);
    DoLoadMem(c.im, s0, m.n + 1, m.R, m.M, a + 3, Last(m.segs).blk, 3, 1, 3);
    var R1 := m.R[3 := Code(FunAddr(c, op))];
    DoMovSp(c.im, s0, m.n + 2, R1, m.M, a + 4, Last(m.segs).blk, 1, b, len + 4);
    var M1 := m.M[b := Stk(m.M[b].ws[..len + 4])];
    assert ReadMem(M1, b, 0 - (len + 4) + 2) == ReadMem(m.M, b, 0 - (len + 4) + 2);
    DoLoadMem(c.im, s0, m.n + 3, R1, M1, a + 5, b, 1, 1, 2);
    R := R1[1 := W(c, m.labs, e)];
    DoDump(c.im, s0, m.n + 4, R, M1, a + 6, b);
    DoSfreeTop(c.im, s0, m.n + 5, R, M1, a + 7, b, 4);
    var M2 := m.M[b := Stk(m.M[b].ws[..len])];
    assert m.M[b].ws[..len + 4][..len] == m.M[b].ws[..len];
    assert M1[b := Stk(m.M[b].ws[..len])] == M2;
    DoJmpTo(c.im, s0, m.n + 6, R, M2, a + 8, b, From(R3), FunAddr(c, op));
    n := m.n + 7;
  }
}
