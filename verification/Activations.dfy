/** Calling into a function, leaving it, and returning through frames. */
module Activations {
  import opened Options
  import opened Salt
  import opened SaltRules
  import opened Translate
  import opened Assembler
  import opened Linking
  import opened Layout
  import opened LayoutSteps
  import opened Matching
  import L = Lexa

  /** The running segment with one more frame. */
  function WithFrame(segs: seq<Seg>, f: MFrame): (segs': seq<Seg>)
    requires segs != []
    ensures |segs'| == |segs|
  {
    var top := Last(segs);
    segs[..|segs| - 1] + [top.(fs := top.fs + [f])]
  }

  function TopFrame(segs: seq<Seg>): MFrame
    requires segs != [] && Last(segs).fs != []
  {
    Last(segs).fs[|Last(segs).fs| - 1]
  }

  /** The layout cut back to the first n frames of segment j. */
  function CutAt(segs: seq<Seg>, j: nat, n: nat): (segs': seq<Seg>)
    requires j < |segs| && n <= |segs[j].fs|
    ensures |segs'| == j + 1
  {
    segs[..j] + [segs[j].(fs := segs[j].fs[..n])]
  }

  /** What one step does to the frames on the stacks. */
  datatype Move =
    | Stay
    | Called(f: MFrame)                                  // a call from a let
    | Installed(f: MFrame, g: MFrame)                    // a handler on the running stack
    | NewStack(f: MFrame, seg: Seg)                    // a handler on its own stack
    | CutBack(j: nat, n: nat)                          // a return to a frame, an abort
    | Left                                            // the return of a handler's own stack
    | Taken(f: MFrame, j: nat, tramp: MFrame, r: nat) // a raise
    | Rejoined(f: MFrame, r: nat)                        // a resume

  /** Every frame but those named stays where it is. A call, an installation, a raise and a resume
      first push the let that waits for them; a cut is at a let or at a handler. */
  ghost predicate Moved(mv: Move, m: Salted, m': Salted)
  {
    && m.segs != [] && m'.segs != [] && m.labs <= m'.labs
    && match mv
       case Stay => SameLayout(m, m')
       case Called(f) => m'.rings == m.rings && f.MLet? && m'.segs == WithFrame(m.segs, f)
       case Installed(f, g) => m'.rings == m.rings && f.MLet? && g.MSame?
           && m'.segs == WithFrame(WithFrame(m.segs, f), g)
       case NewStack(f, seg) => m'.rings == m.rings && f.MLet? && seg.fs == [] && seg.base.NewBase?
           && m'.segs == WithFrame(m.segs, f) + [seg]
       case CutBack(j, n) =>
         m'.rings == m.rings && j < |m.segs| && n < |m.segs[j].fs| && !m.segs[j].fs[n].MTramp?
             && m'.segs == CutAt(m.segs, j, n)
       case Left => m'.rings == m.rings && |m.segs| > 1 && m'.segs == m.segs[..|m.segs| - 1]
       case Taken(f, j, tramp, r) =>
         var raising := WithFrame(m.segs, f);
         f.MLet? && tramp.MTramp? && 0 < j < |m.segs| && m'.segs == WithFrame(raising[..j], tramp)
             && m'.rings == m.rings[r := raising[j..]]
       case Rejoined(f, r) =>
         f.MLet? && r in m.rings && m'.segs == WithFrame(m.segs, f) + m.rings[r] && m'.rings == m.rings - {r}
  }

  /** Entering a function moves no frame. */
  lemma MoveOn(mv: Move, m: Salted, m1: Salted, m': Salted)
    requires Moved(mv, m, m1) && SameLayout(m1, m')
    ensures Moved(mv, m, m')
  {
  }

  lemma StripWithFrame(segs: seq<Seg>, f: MFrame)
    requires segs != []
    ensures Strip(WithFrame(segs, f)) == Strip(segs) + StripFrame(f)
  {
    var top, lower := Last(segs), segs[..|segs| - 1];
    assert (top.fs + [f])[..|top.fs + [f]| - 1] == top.fs;
    StripSnoc(lower, top.(fs := top.fs + [f]));
    assert segs == lower + [top];
    Associate(StripBase(top.base), StripFs(top.fs), StripFrame(f));
    Associate(Strip(lower), StripSeg(top), StripFrame(f));
  }

  lemma CodeWithFrame(c: Image, segs: seq<Seg>, f: MFrame)
    requires segs != [] && SegsCode(c, segs) && FrameCode(c, f)
    ensures SegsCode(c, WithFrame(segs, f))
  {
    hide FrameCode, BaseCode;
    var segs' := WithFrame(segs, f);
    forall i | 0 <= i < |segs'|
      ensures SegCode(c, segs'[i])
    {
      assert SegCode(c, segs[i]);
    }
  }

  /** Once its words stand on the running stack, a frame belongs to the layout. */
  lemma PushFrame(c: Image, labs: seq<Word>, objs: seq<L.Obj>, M: seq<Block>, segs: seq<Seg>, rings: Rings,
                  cur: seq<Word>, f: MFrame)
    requires World(c, labs, objs, M, segs, rings, cur)
    requires FrameOk(c, labs, Last(segs).blk, SegLen(Last(segs)), f)
    ensures IsStack(M, Last(segs).blk)
    ensures World(c, labs, objs,
                  M[Last(segs).blk := Stk(SegWords(c, labs, Last(segs), Exch(segs, |segs| - 1, Int(0))) +
                                          FrameWords(c, labs, f))],
                  WithFrame(segs, f), rings, [])
  {
    var top, x := Last(segs), Exch(segs, |segs| - 1, Int(0));
    assert M[top.blk] == Stk(BlockWords(c, labs, segs, |segs| - 1, Int(0), cur)) && SegOk(c, labs, top);
    hide World, SegOk, SegWords;
    SegSnoc(c, labs, top, f, x);
    ReplaceTop(c, labs, objs, M, segs, rings, cur, top.(fs := top.fs + [f]), []);
    assert SegWords(c, labs, top, x) + FrameWords(c, labs, f) + [] == SegWords(c, labs, top, x) + FrameWords(c, labs,
        f);
  }

  lemma SegSnoc(c: Image, labs: seq<Word>, seg: Seg, f: MFrame, x: Word)
    requires SegOk(c, labs, seg) && FrameOk(c, labs, seg.blk, SegLen(seg), f)
    ensures SegOk(c, labs, seg.(fs := seg.fs + [f]))
    ensures SegWords(c, labs, seg.(fs := seg.fs + [f]), x) == SegWords(c, labs, seg, x) + FrameWords(c, labs, f)
    ensures SegLen(seg.(fs := seg.fs + [f])) == SegLen(seg) + FrameLen(f)
  {
    FsSnoc(c, labs, seg.blk, BaseLen(seg.base), seg.fs, f);
    Associate(BaseWords(c, labs, seg.base, x), FsWords(c, labs, seg.fs), FrameWords(c, labs, f));
  }

  /** A call from a let pushes the frame that waits for the result. */
  lemma CallFrame(c: Image, s0: State, k: seq<L.Frame>, objs: seq<L.Obj>, nh: nat, m: Salted,
                  x: string, t: L.Stmt, env: L.Env, o: Operand, target: int) returns (m': Salted)
    requires m.segs != [] && StoreMatches(c, s0, k, objs, nh, m, EnvWords(c, m.labs, env)) && EnvOk(c, m.labs, env)
    requires 0 <= m.pc && m.pc + 1 < |c.im| && c.im[m.pc] == Call(o) && c.im[m.pc + 1] == Push(From(R1))
    requires StmtAt(c, m.pc + 2, [x] + Names(env), t)
    requires o != From(SP) && OperandWord(m.R, m.M, Last(m.segs).blk, o) == Some(Code(target))
    ensures m' == m.(n := m.n + 1, M := m'.M, segs := WithFrame(m.segs, MLet(x, t, env, m.pc + 1)), pc := target)
    ensures m'.segs != [] && StoreMatches(c, s0, k + [L.LetK(x, t, env)], objs, nh, m', [])
    ensures Last(m'.segs).blk == Last(m.segs).blk && |m'.M| == |m.M|
  {
    hide StmtAt, SegsCode, RingsCode, World, EnvOk, Run, SegWords, FsOk, Strip, OperandWord, EnvWords, Exch;
    var f := MLet(x, t, env, m.pc + 1);
    var top := Last(m.segs);
    TopWords(c, s0, k, objs, nh, m, EnvWords(c, m.labs, env));
    DoCallTo(c.im, s0, m.n, m.R, m.M, m.pc, top.blk, o, target);
    PushFrame(c, m.labs, objs, m.M, m.segs, m.rings, EnvWords(c, m.labs, env), f);
    Associate(SegWords(c, m.labs, top, Exch(m.segs, |m.segs| - 1, Int(0))), EnvWords(c, m.labs, env), [Code(m.pc + 1)]);
    StripWithFrame(m.segs, f);
    CodeWithFrame(c, m.segs, f);
    m' := m.(n := m.n + 1, M := m.M[top.blk := Stk(m.M[top.blk].ws + [Code(m.pc + 1)])], segs := WithFrame(m.segs, f),
             pc := target);
  }

  // ----- entering a function -----

  /** The words that the first i pushes of an n-parameter function leave. */
  function Pushed(R: seq<Word>, n: nat, i: nat): (ws: seq<Word>)
    requires i <= n < |R|
    ensures |ws| == i && forall j :: 0 <= j < i ==> ws[j] == R[n - j]
  {
    seq(i, j requires 0 <= j < i => R[n - j])
  }

  lemma {:induction false} PushLoop(c: Image, s0: State, n: nat, R: seq<Word>, M: seq<Block>, a: int, b: nat,
                                    params: nat, i: nat)
    requires i <= params < REGISTERS && At(c.im, s0, n, R, M, a, b)
    requires 0 <= a && a + params <= |c.im| && forall j :: 0 <= j < params ==> ParamPush(c.im, a, params, j)
    ensures At(c.im, s0, n + i, R, M[b := Stk(M[b].ws + Pushed(R, params, i))], a + i, b)
    decreases i
  {
    hide Run;
    if i == 0 {
      assert M[b].ws + Pushed(R, params, 0) == M[b].ws;
      assert M[b := M[b]] == M;
    } else {
      PushLoop(c, s0, n, R, M, a, b, params, i - 1);
      var M1 := M[b := Stk(M[b].ws + Pushed(R, params, i - 1))];
      assert ParamPush(c.im, a, params, i - 1);
      DoPushOperand(c.im, s0, n + i - 1, R, M1, a + i - 1, b, From(Reg(params - (i - 1))));
      assert M[b].ws + Pushed(R, params, i) == M1[b].ws + [R[params - (i - 1)]];
      assert M1[b := Stk(M[b].ws + Pushed(R, params, i))] == M[b := Stk(M[b].ws + Pushed(R, params, i))];
    }
  }

  lemma BindWords(c: Image, labs: seq<Word>, params: seq<string>, args: seq<L.Val>, R: seq<Word>)
    requires |params| == |args| < |R|
    requires forall i :: 0 <= i < |args| ==> R[1 + i] == W(c, labs, args[i])
    ensures EnvWords(c, labs, L.Bind(params, args)) == Pushed(R, |params|, |params|)
    ensures Names(L.Bind(params, args)) == params
    ensures ValsOk(c, labs, args) ==> EnvOk(c, labs, L.Bind(params, args))
  {
    var ws := EnvWords(c, labs, L.Bind(params, args));
    forall j | 0 <= j < |ws|
      ensures ws[j] == R[|params| - j]
    {
      assert R[1 + (|args| - 1 - j)] == W(c, labs, args[|args| - 1 - j]);
    }
  }

  /** Control is at function f, with its arguments in registers 1, 2, ... */
  ghost predicate Arrived(c: Image, m: Salted, f: string, args: seq<L.Val>)
  {
    && User(f) in c.lm && m.pc == c.lm[User(f)] && ValsOk(c, m.labs, args) && |args| < |m.R| == REGISTERS
    && forall i :: 0 <= i < |args| ==> m.R[1 + i] == W(c, m.labs, args[i])
  }

  /** The parameters are pushed, and the body runs. */
  lemma EnterFun(c: Image, p: L.Program, s0: State, k: seq<L.Frame>, objs: seq<L.Obj>, nh: nat, m: Salted,
                 f: string, args: seq<L.Val>, ctl: L.Ctl) returns (m': Salted)
    requires ProgramAt(c, p) && L.Enter(p, f, args) == Some(ctl) && Arrived(c, m, f, args)
    requires m.segs != [] && StoreMatches(c, s0, k, objs, nh, m, [])
    ensures SameLayout(m, m') && m'.n >= m.n && m'.segs != [] && ctl.Ev?
    ensures Evaluates(c, s0, k, objs, nh, m', ctl.s, ctl.env)
  {
    hide SegsCode, RingsCode, World, Run, StmtAt, SegWords, FsOk;
    var d := L.FindFun(p, f).value;
    var top := Last(m.segs);
    var params := |d.params|;
    assert FunAt(c, d);
    TopWords(c, s0, k, objs, nh, m, []);
    PushLoop(c, s0, m.n, m.R, m.M, m.pc, top.blk, params, params);
    BindWords(c, m.labs, d.params, args, m.R);
    var ws := SegWords(c, m.labs, top, Exch(m.segs, |m.segs| - 1, Int(0)));
    assert ws + [] == ws;
    ReplaceTop(c, m.labs, objs, m.M, m.segs, m.rings, [], top, Pushed(m.R, params, params));
    assert m.segs[..|m.segs| - 1] + [top] == m.segs;
    m' := m.(n := m.n + params, M := m.M[top.blk := Stk(m.M[top.blk].ws + Pushed(m.R, params, params))],
             pc := m.pc + params);
  }

  // ----- leaving a function -----

  lemma {:induction false} FollowJumps(c: Image, s0: State, n: nat, R: seq<Word>, M: seq<Block>, a: int, b: nat,
                                       size: nat, jumps: nat)
    returns (n': nat, a': int)
    requires At(c.im, s0, n, R, M, a, b) && Leaves(c.im, a, size, jumps)
    ensures n' >= n && At(c.im, s0, n', R, M, a', b) && Leaves(c.im, a', size, 0)
    decreases jumps
  {
    hide Run;
    if jumps == 0 {
      n', a' := n, a;
    } else {
      DoJmpTo(c.im, s0, n, R, M, a, b, c.im[a].o, c.im[a].o.w.target);
      n', a' := FollowJumps(c, s0, n + 1, R, M, c.im[a].o.w.target, b, size, jumps - 1);
    }
  }

  /** A final value is loaded, the environment is freed, and a return is next. */
  lemma LeaveFun(c: Image, s0: State, k: seq<L.Frame>, objs: seq<L.Obj>, nh: nat, m: Salted, v: L.Value, env: L.Env)
    returns (m': Salted)
    requires m.segs != [] && Evaluates(c, s0, k, objs, nh, m, L.Ret(v), env) && L.EvalV(env, v).Some?
    ensures SameLayout(m, m') && m'.n > m.n && m'.segs != [] && Returns(c, s0, k, objs, nh, m', L.EvalV(env, v).value)
  {
    hide SegsCode, RingsCode, World, Run, SegWords, FsOk;
    var jumps := RetPieces(c, m.pc, Names(env), v);
    var top, w := Last(m.segs), L.EvalV(env, v).value;
    var ws := SegWords(c, m.labs, top, Exch(m.segs, |m.segs| - 1, Int(0)));
    TopWords(c, s0, k, objs, nh, m, EnvWords(c, m.labs, env));
    ExecValue(c, s0, m.n, m.R, m.M, m.pc, top.blk, m.labs, env, ws, v, 1);
    LookupOk(c, m.labs, env, v);
    var R := m.R[1 := W(c, m.labs, w)];
    var n, a := FollowJumps(c, s0, m.n + 1, R, m.M, m.pc + 1, top.blk, |env|, jumps);
    DoSfreeTop(c.im, s0, n, R, m.M, a, top.blk, |env|);
    assert (ws + EnvWords(c, m.labs, env))[..|ws|] == ws;
    DropCur(c, m.labs, objs, m.M, m.segs, m.rings, EnvWords(c, m.labs, env));
    m' := m.(n := n + 1, R := R, M := m.M[top.blk := Stk(ws)], pc := a + 1);
  }

  lemma RetPieces(c: Image, a: int, names: seq<string>, v: L.Value) returns (jumps: nat)
    requires StmtAt(c, a, names, L.Ret(v))
    ensures 0 <= a < |c.im| && c.im[a] == CompileValue(names, v, 1)[0]
    ensures Leaves(c.im, a + 1, |names|, jumps)
  {
    var next: nat;
    next, jumps :| StmtAtWith(c, a, names, L.Ret(v), next, jumps);
    var code := CompileValue(names, v, 1);
    CodeAtPlain(c, a, code);
    assert ReplaceLabel(c.lm, code[0]) == Some(c.im[a + 0]);
  }

  lemma DropCur(c: Image, labs: seq<Word>, objs: seq<L.Obj>, M: seq<Block>, segs: seq<Seg>, rings: Rings,
                cur: seq<Word>)
    requires World(c, labs, objs, M, segs, rings, cur)
    ensures IsStack(M, Last(segs).blk)
    ensures World(c, labs, objs,
                  M[Last(segs).blk := Stk(SegWords(c, labs, Last(segs), Exch(segs, |segs| - 1, Int(0))))], segs, rings,
                      [])
  {
    hide HeapOk, RingsApart, RingsCaptured, SegOk, SegWords;
    var top, x := Last(segs), Exch(segs, |segs| - 1, Int(0));
    assert M[top.blk] == Stk(BlockWords(c, labs, segs, |segs| - 1, Int(0), cur)) && SegOk(c, labs, top);
    hide World;
    ReplaceTop(c, labs, objs, M, segs, rings, cur, top, []);
    assert segs[..|segs| - 1] + [top] == segs;
    assert SegWords(c, labs, top, x) + [] == SegWords(c, labs, top, x);
  }
}
