/**
  Compilation preserves meaning. Every step of the source machine is matched by one or
  more steps of the assembled program, so a program that never goes wrong halts exactly
  when its source run ends, with the same answer on the stack and the same records.
 */
module CompilerCorrect {
  import opened Options
  import opened Salt
  import opened SaltRules
  import opened Translate
  import opened Assembler
  import opened Linking
  import opened Layout
  import opened LayoutSteps
  import opened Matching
  import opened Activations
  import opened ReturnSteps
  import opened Statements
  import opened HandlerSteps
  import opened Installs
  import opened Resumptions
  import opened FirstOrder
  import L = Lexa

  // ----- one step -----

  lemma SimLet(c: Image, p: L.Program, s0: State, s: L.Config, m: Salted, x: string, rhs: L.Rhs, t: L.Stmt, env: L.Env)
    returns (m': Salted, mv: Move)
    requires ProgramAt(c, p)
    requires m.segs != [] && Evaluates(c, s0, s.k, s.objs, s.nh, m, L.Let(x, rhs, t), env)
    requires L.StepLet(p, s, x, rhs, t, env).Some? && !rhs.Exits? && !rhs.CallFn?
    ensures m'.n > m.n && Matches(c, s0, L.StepLet(p, s, x, rhs, t, env).value, m') && Moved(mv, m, m')
    ensures MoveFits(s, rhs, env, m, mv)
  {
    hide Evaluates, Returns, Halted, ProgramAt;
    mv := Stay;
    match rhs
    case Plus(v1, v2) => m' := SimPlus(c, s0, s, m, x, v1, v2, t, env);
    case NewRef(vs) => m' := SimNewRef(c, s0, s, m, x, vs, t, env);
    case Select(v, i) => m' := SimSelect(c, s0, s, m, x, v, i, t, env);
    case Update(a, i, v) => m' := SimUpdate(c, s0, s, m, x, a, i, v, t, env);
    case HandleNew(body, kind, op, under) => m', mv := SimHandleNew(c, p, s0, s, m, x, body, kind, op, under, t, env);
    case HandleSame(body, kind, op, under) => m', mv := SimHandleSame(c, p, s0, s, m, x, body, kind, op, under, t, env);
    case Raise(lab, arg) => m', mv := SimRaise(c, p, s0, s, m, x, lab, arg, t, env);
    case TailRaise(lab, arg) =>
      m' := SimTailRaise(c, p, s0, s, m, x, lab, arg, t, env);
      mv := Called(MLet(x, t, env, m.pc + 5));
    case AbortRaise(lab, arg) => m', mv := SimAbortRaise(c, p, s0, s, m, x, lab, arg, t, env);
    case Resume(k, arg) =>
      m' := SimResume(c, s0, s, m, x, k, arg, t, env);
      mv := Rejoined(MLet(x, t, env, m.pc + 4), L.EvalV(env, k).value.loc);
    case Atom(v) => m' := SimAtom(c, s0, s, m, x, v, t, env);
  }

  /** The move that a right-hand side makes. A raise cuts right below its handler. */
  ghost predicate MoveFits(s: L.Config, rhs: L.Rhs, env: L.Env, m: Salted, mv: Move)
  {
    match rhs
    case TailRaise(_, _) => mv.Called?
    case HandleNew(_, _, _, _) => mv.NewStack?
    case HandleSame(_, _, _, _) => mv.Installed?
    case AbortRaise(_, _) => mv.CutBack?
    case Raise(lab, _) =>
      && mv.Taken? && mv.r == |s.objs| && m.segs != [] && 0 < mv.j < |m.segs| && L.EvalV(env, lab).Some?
          && L.EvalV(env, lab).value.LabV?
      && L.FindHandler(s.k, L.EvalV(env, lab).value.h).Some?
      && Strip(WithFrame(m.segs, mv.f)[..mv.j]) == s.k[..L.FindHandler(s.k, L.EvalV(env, lab).value.h).value]
    case Resume(k, _) => mv.Rejoined? && L.EvalV(env, k).Some? && L.EvalV(env, k).value.ContV?
        && mv.r == L.EvalV(env, k).value.loc
    case _ => mv.Stay?
  }

  /** No code stands for a let of exits. */
  lemma NoExits(c: Image, s0: State, s: L.Config, m: Salted, x: string, rhs: L.Rhs, t: L.Stmt, env: L.Env)
    requires m.segs != [] && Evaluates(c, s0, s.k, s.objs, s.nh, m, L.Let(x, rhs, t), env)
    ensures !rhs.Exits?
  {
    hide StoreMatches, EnvOk, StmtAt;
    var l1 := LetCodeIs(c, m.pc, Names(env), x, rhs, t);
  }

  /** Without function values no call is made. */
  lemma NoCalls(p: L.Program, s: L.Config, x: string, rhs: L.Rhs, t: L.Stmt, env: L.Env)
    requires Plain(s) && s.ctl == L.Ev(L.Let(x, rhs, t), env) && L.StepLet(p, s, x, rhs, t, env).Some?
    ensures !rhs.CallFn?
  {
    if rhs.CallFn? {
      PlainValue(env, rhs.f);
    }
  }

  /** A source step is matched by at least one machine step. */
  lemma SimStep(c: Image, p: L.Program, s0: State, s: L.Config, m: Salted) returns (m': Salted, mv: Move)
    requires ProgramAt(c, p) && Plain(s)
    requires Matches(c, s0, s, m) && L.Step(p, s).Some?
    ensures m'.n > m.n && Matches(c, s0, L.Step(p, s).value, m')
    ensures !L.Step(p, s).value.ctl.Fin? ==> Moved(mv, m, m') && StepFits(s, m, mv)
  {
    hide Evaluates, Returns, Halted, ProgramAt, Moved, MoveFits;
    mv := Stay;
    match s.ctl
    case Ev(Let(x, rhs, t), env) =>
      NoExits(c, s0, s, m, x, rhs, t, env);
      NoCalls(p, s, x, rhs, t, env);
      m', mv := SimLet(c, p, s0, s, m, x, rhs, t, env);
    case Ev(Ret(v), env) =>
      m' := LeaveFun(c, s0, s.k, s.objs, s.nh, m, v, env);
      StaysPut(m, m');
    case Re(v) => m', mv := SimReturn(c, s0, s, m);
  }

  lemma StaysPut(m: Salted, m': Salted)
    requires SameLayout(m, m') && m.segs != []
    ensures Moved(Stay, m, m')
  {
  }

  ghost predicate StepFits(s: L.Config, m: Salted, mv: Move)
  {
    match s.ctl
    case Ev(Let(_, rhs, _), env) => MoveFits(s, rhs, env, m, mv)
    case Ev(Ret(_), _) => mv.Stay?
    case _ => mv.CutBack? || mv.Left?
  }

  // ----- the start -----

  lemma {:induction false} FollowSkips(c: Image, n: nat, R: seq<Word>, M: seq<Block>, a: int, root: int, jumps: nat)
    returns (n': nat)
    requires At(c.im, Boot(), n, R, M, a, 0) && Skips(c, a, root, jumps)
    ensures n' >= n && At(c.im, Boot(), n', R, M, root, 0)
    decreases jumps
  {
    hide Run;
    if jumps == 0 {
      n' := n;
    } else {
      DoJmpTo(c.im, Boot(), n, R, M, a, 0, c.im[a].o, c.im[a].o.w.target);
      n' := FollowSkips(c, n + 1, R, M, c.im[a].o.w.target, root, jumps - 1);
    }
  }

  lemma MainWorld(c: Image, ret: int)
    ensures World(c, [], [L.Segment], [Stk([Code(ret)])], [Seg(0, MainBase(ret), [])], map[], [])
  {
    var segs := [Seg(0, MainBase(ret), [])];
    assert BlockWords(c, [], segs, 0, Int(0), []) == [Code(ret)];
  }

  lemma SimStart(c: Image, p: L.Program, root: int, jumps: nat) returns (m: Salted)
    requires ProgramAt(c, p) && RootAt(c, root) && Skips(c, 0, root, jumps) && L.Start(p).Some?
    ensures Matches(c, Boot(), L.Start(p).value, m)
  {
    hide ProgramAt, Run, World;
    assert At(c.im, Boot(), 0, Zeros(REGISTERS), [Stk([])], 0, 0) by { BootAt(c); }
    var n := FollowSkips(c, 0, Zeros(REGISTERS), [Stk([])], 0, root, jumps);
    assert c.im[root] == c.im[root..][0] && c.im[root + 1] == c.im[root..][1] && c.im[root + 2] == c.im[root..][2];
    DoCallTo(c.im, Boot(), n, Zeros(REGISTERS), [Stk([])], root, 0, Const(Code(c.lm[User("main")])),
             c.lm[User("main")]);
    var M := [Stk([Code(root + 1)])];
    assert [] + [Code(root + 1)] == [Code(root + 1)];
    assert [Stk([])][0 := Stk([Code(root + 1)])] == M;
    MainWorld(c, root + 1);
    var segs := [Seg(0, MainBase(root + 1), [])];
    assert Strip(segs) == [] by { assert segs == [] + [segs[0]]; StripSnoc([], segs[0]); }
    var m0 := Salted([], segs, map[], n + 1, Zeros(REGISTERS), M, c.lm[User("main")]);
    m := EnterFun(c, p, Boot(), [], [L.Segment], 0, m0, "main", [], L.Start(p).value.ctl);
  }

  lemma BootAt(c: Image)
    ensures At(c.im, Boot(), 0, Zeros(REGISTERS), [Stk([])], 0, 0)
  {
  }

  // ----- whole runs -----

  /** The program compiles, and every name that it mentions is defined. */
  ghost predicate Assembles(p: L.Program, im: seq<Instr>)
  {
    CompileProgram(p).Some? && Assemble(CompileProgram(p).value) == Some(im)
  }

  /** The functions that a program can get at once it is assembled. */
  function Linkable(p: L.Program): L.Program
  {
    Without(p, RESERVED)
  }

  lemma Linked(p: L.Program, im: seq<Instr>) returns (c: Image, root: int, jumps: nat)
    requires Assembles(p, im)
    ensures c.im == im && ProgramAt(c, Linkable(p)) && RootAt(c, root) && Skips(c, 0, root, jumps)
    ensures User(RESERVED) in c.lm && c.lm[User(RESERVED)] == -1
  {
    assert User(RESERVED) in Table(CompileFuns(p, 0)) && Table(CompileFuns(p, 0))[User(RESERVED)] == -1;
    hide CodeAt, FunAt, Table, Assemble, CompileFuns;
    var code := CompileFuns(p, 0);
    FunsUnique(p, 0);
    AssembledCodeAt(code, im);
    c := Image(im, Table(code));
    root, jumps := SkipsAt(c, 0, p, 0, code);
    forall f: string | L.FindFun(Linkable(p), f).Some?
      ensures L.FindFun(Linkable(p), f).value.name == f && FunAt(c, L.FindFun(Linkable(p), f).value)
    {
      WithoutFinds(p, RESERVED, f);
      assert [] + code == code;
      assert Size([]) == 0;
      FunsAt(c, [], p, 0, code, f);
    }
  }

  /** The configuration after n source steps is matched by the machine after n or more steps. */
  lemma {:induction false} SimRun(c: Image, p: L.Program, root: int, jumps: nat, n: nat) returns (m: Salted)
    requires ProgramAt(c, p) && RootAt(c, root) && Skips(c, 0, root, jumps) && L.Run(p, n).Some?
    ensures m.n >= n && Matches(c, Boot(), L.Run(p, n).value, m)
  {
    hide Matches, ProgramAt, RootAt, Skips, Plain;
    if n == 0 {
      m := SimStart(c, p, root, jumps);
    } else {
      m := SimRun(c, p, root, jumps, n - 1);
      NoFunctionValues(p, n - 1);
      var mv;
      m, mv := SimStep(c, p, Boot(), L.Run(p, n - 1).value, m);
    }
  }

  /** The machine shows answer v and the records of objs: v is all there is on stack 0, record r
      is block r of memory, field by field; integers stand for themselves. */
  ghost predicate Shows(c: Image, labs: seq<Word>, s: State, v: L.Val, objs: seq<L.Obj>)
  {
    && s.halted && s.sp == Addr(0, -1) && s.M != [] && s.M[0] == Stk([W(c, labs, v)])
    && |s.M| == |objs| && forall r :: 0 <= r < |objs| && objs[r].Record? ==> s.M[r] == Arr(Words(c, labs, objs[r].vs))
  }

  lemma HaltedShows(c: Image, objs: seq<L.Obj>, m: Salted, v: L.Val)
    requires m.segs != [] && Halted(c, Boot(), objs, m, v)
    ensures Run(c.im, Boot(), m.n).Some? && Shows(c, m.labs, Run(c.im, Boot(), m.n).value, v, objs)
  {
    hide Run;
    var ws := m.M[Last(m.segs).blk].ws;
    forall r | 0 <= r < |objs| && objs[r].Record?
      ensures m.M[r] == Arr(Words(c, m.labs, objs[r].vs))
    {
      assert ObjOk(c, m.labs, objs, m.M, m.rings, r);
    }
  }

  // ----- the reserved name -----

  /** The machine stops with an exception. */
  ghost predicate FaultsAt(im: seq<Instr>, n: nat)
  {
    Run(im, Boot(), n).None?
  }

  /** As long as the function with the reserved name is not entered, the run is matched. */
  lemma SimUntil(p: L.Program, im: seq<Instr>, n: nat) returns (c: Image, m: Salted)
    requires Assembles(p, im) && L.Run(p, n).Some? && NeverEnters(p, n, RESERVED)
    ensures c.im == im && m.n >= n && Matches(c, Boot(), L.Run(p, n).value, m)
    ensures ProgramAt(c, Linkable(p)) && User(RESERVED) in c.lm && c.lm[User(RESERVED)] == -1
  {
    hide Matches, ProgramAt, RootAt, Skips, L.Run, Assembles;
    var root, jumps;
    c, root, jumps := Linked(p, im);
    WithoutRuns(p, n, RESERVED);
    m := SimRun(c, Linkable(p), root, jumps, n);
  }

  lemma NowhereFaults(c: Image, k: seq<L.Frame>, objs: seq<L.Obj>, nh: nat, m: Salted, args: seq<L.Val>)
    requires m.segs != [] && StoreMatches(c, Boot(), k, objs, nh, m, []) && Arrived(c, m, RESERVED, args)
    requires c.lm[User(RESERVED)] == -1
    ensures FaultsAt(c.im, m.n + 1)
  {
    hide World, SegsCode, RingsCode, Exec;
    assert Run(c.im, Boot(), m.n + 1) == Step(c.im, Run(c.im, Boot(), m.n).value);
  }

  /** The step that enters it leads nowhere. */
  lemma EnteringFaults(c: Image, p: L.Program, s: L.Config, m: Salted) returns (steps: nat)
    requires Matches(c, Boot(), s, m) && Enters(p, s, RESERVED) && User(RESERVED) in c.lm && c.lm[User(RESERVED)] == -1
    ensures FaultsAt(c.im, steps)
  {
    hide Evaluates, StoreMatches, Arrived, Moved, FaultsAt, L.Enter;
    var m1, mv;
    match s.ctl
    case Ev(Let(x, HandleNew(body, kind, op, under), t), env) =>
      m1, mv := HandleNewTo(c, Boot(), s, m, x, body, kind, op, under, t, env);
      var e := L.EvalV(env, under).value;
      NowhereFaults(c, s.k + [L.LetK(x, t, env), L.NewK(s.nh, op, e)], s.objs + [L.Segment], s.nh + 1, m1,
                    [e, L.LabV(s.nh)]);
      steps := m1.n + 1;
    case Ev(Let(x, HandleSame(body, kind, op, under), t), env) =>
      m1, mv := HandleSameTo(c, Boot(), s, m, x, body, kind, op, under, t, env);
      var e := L.EvalV(env, under).value;
      NowhereFaults(c, s.k + [L.LetK(x, t, env), L.SameK(s.nh, op, e)], s.objs, s.nh + 1, m1, [e, L.LabV(s.nh)]);
      steps := m1.n + 1;
    case Ev(Let(x, Raise(lab, arg), t), env) =>
      var i := HandlerPosition(s, env, lab).value;
      m1, mv := RaiseArrives(c, Boot(), s, m, x, lab, arg, t, env, i);
      NowhereFaults(c, s.k[..i], s.objs + [L.Captured(s.k[i..] + [L.LetK(x, t, env)])], s.nh, m1,
                    [s.k[i].e, L.EvalV(env, arg).value, L.ContV(|s.objs|)]);
      steps := m1.n + 1;
    case Ev(Let(x, TailRaise(lab, arg), t), env) =>
      var i := HandlerPosition(s, env, lab).value;
      m1 := TailRaiseTo(c, Boot(), s, m, x, lab, arg, t, env, i);
      NowhereFaults(c, s.k + [L.LetK(x, t, env)], s.objs, s.nh, m1, [s.k[i].e, L.EvalV(env, arg).value]);
      steps := m1.n + 1;
    case Ev(Let(x, AbortRaise(lab, arg), t), env) =>
      var i := HandlerPosition(s, env, lab).value;
      var j, n;
      m1, j, n := AbortRaiseTo(c, Boot(), s, m, x, lab, arg, t, env, i);
      NowhereFaults(c, s.k[..i], s.objs, s.nh, m1, [s.k[i].e, L.EvalV(env, arg).value]);
      steps := m1.n + 1;
  }

  /** The first step of a run that enters it. */
  lemma {:induction false} FirstEntry(p: L.Program, n: nat) returns (i: nat)
    requires !NeverEnters(p, n, RESERVED)
    ensures i < n && L.Run(p, i).Some? && Enters(p, L.Run(p, i).value, RESERVED) && NeverEnters(p, i, RESERVED)
    decreases n
  {
    hide L.Run, Enters;
    var j: nat :| j < n && L.Run(p, j).Some? && Enters(p, L.Run(p, j).value, RESERVED);
    if NeverEnters(p, j, RESERVED) {
      i := j;
    } else {
      i := FirstEntry(p, j);
    }
  }

  /** A run that enters the function with the reserved name makes the machine fault. */
  lemma ReservedFaults(p: L.Program, im: seq<Instr>, n: nat) returns (steps: nat)
    requires Assembles(p, im) && !NeverEnters(p, n, RESERVED)
    ensures FaultsAt(im, steps)
  {
    hide Assembles, NeverEnters, L.Run, Enters, Matches, FaultsAt;
    var i := FirstEntry(p, n);
    var c, m := SimUntil(p, im, i);
    steps := EnteringFaults(c, p, L.Run(p, i).value, m);
  }

  // ----- answers and termination -----

  /** Every source run that ends, and never enters it, is reproduced by the assembled program. */
  lemma AnswersPreserved(p: L.Program, im: seq<Instr>, n: nat) returns (c: Image, labs: seq<Word>, steps: nat)
    requires Assembles(p, im) && L.Run(p, n).Some? && L.IsAnswer(L.Run(p, n).value) && NeverEnters(p, n, RESERVED)
    ensures c.im == im && Run(im, Boot(), steps).Some?
    ensures Shows(c, labs, Run(im, Boot(), steps).value, L.Run(p, n).value.ctl.v, L.Run(p, n).value.objs)
  {
    hide Halted, Shows, ProgramAt, L.Run, NeverEnters, Assembles;
    var m;
    c, m := SimUntil(p, im, n);
    HaltedShows(c, L.Run(p, n).value.objs, m, L.Run(p, n).value.ctl.v);
    labs, steps := m.labs, m.n;
  }

  /** A source configuration that is not an answer is matched by a machine that still runs. */
  lemma NotYetHalted(p: L.Program, im: seq<Instr>, n: nat)
    requires Assembles(p, im) && L.Run(p, n).Some? && !L.IsAnswer(L.Run(p, n).value) && NeverEnters(p, n, RESERVED)
    ensures Run(im, Boot(), n).Some? && !Run(im, Boot(), n).value.halted
  {
    hide ProgramAt, World, StmtAt, SegsCode, RingsCode, L.Run, NeverEnters, Assembles;
    var c, m := SimUntil(p, im, n);
    RunPrefix(im, Boot(), n, m.n);
  }

  /** A program is safe when no reachable configuration has gone wrong. */
  ghost predicate Safe(p: L.Program)
  {
    forall n: nat :: L.Run(p, n).Some? || exists k: nat :: k < n && L.Run(p, k).Some? && L.IsAnswer(L.Run(p, k).value)
  }

  ghost predicate Ends(p: L.Program)
  {
    exists n: nat :: L.Run(p, n).Some? && L.IsAnswer(L.Run(p, n).value)
  }

  ghost predicate Halts(im: seq<Instr>)
  {
    exists n: nat :: Run(im, Boot(), n).Some? && Run(im, Boot(), n).value.halted
  }

  ghost predicate NeverFaults(im: seq<Instr>)
  {
    forall n: nat :: !FaultsAt(im, n)
  }

  /** The run never enters the function with the reserved name. */
  ghost predicate AvoidsReserved(p: L.Program)
  {
    forall n: nat :: NeverEnters(p, n, RESERVED)
  }

  /** A safe program that avoids the reserved name halts if and only if its source run ends. */
  lemma HaltsExactly(p: L.Program, im: seq<Instr>)
    requires Assembles(p, im) && Safe(p) && AvoidsReserved(p)
    ensures NeverFaults(im) && (Halts(im) <==> Ends(p))
  {
    hide Assembles, NeverEnters;
    if Ends(p) {
      var n: nat :| L.Run(p, n).Some? && L.IsAnswer(L.Run(p, n).value);
      var c, labs, steps := AnswersPreserved(p, im, n);
      HaltedForEver(im, steps);
    } else {
      forall n: nat
        ensures Run(im, Boot(), n).Some? && !Run(im, Boot(), n).value.halted
      {
        NotYetHalted(p, im, n);
      }
    }
  }

  /** Exactly: the machine does what a safe program means, never faulting and halting if and only if
      the source run ends, if and only if the run never enters a function with the reserved name. */
  lemma SameTermination(p: L.Program, im: seq<Instr>)
    requires Assembles(p, im) && Safe(p)
    ensures NeverFaults(im) && (Halts(im) <==> Ends(p)) <==> AvoidsReserved(p)
    ensures NeverFaults(im) <==> AvoidsReserved(p)
  {
    hide Assembles, Safe, NeverEnters, FaultsAt, Halts, Ends;
    if AvoidsReserved(p) {
      HaltsExactly(p, im);
    } else {
      var n: nat :| !NeverEnters(p, n, RESERVED);
      var steps := ReservedFaults(p, im, n);
    }
  }

  lemma HaltedForEver(im: seq<Instr>, steps: nat)
    requires Run(im, Boot(), steps).Some? && Run(im, Boot(), steps).value.halted
    ensures NeverFaults(im)
  {
    forall n: nat
      ensures Run(im, Boot(), n).Some?
    {
      if n <= steps {
        RunPrefix(im, Boot(), n, steps);
      } else {
        RunHalted(im, Boot(), steps, n);
      }
    }
  }
}
