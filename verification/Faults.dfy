/**
  Programs that the machine rejects at run time: a second resume of the same resumption,
  and every use of the call form. A function's name is compiled as a variable, so no
  program ever holds a function value, and a call jumps nowhere.
 */
module Faults {
  import opened Options
  import opened Salt
  import opened SaltRules
  import opened Translate
  import opened Assembler
  import opened Linking
  import opened Layout
  import opened LayoutSteps
  import opened Matching
  import opened Activations
  import opened Statements
  import opened HandlerSteps
  import opened Installs
  import opened Resumptions
  import opened CompilerCorrect
  import opened FirstOrder
  import opened Mentions
  import L = Lexa

  // ----- a function named sp -----

  /** A handler whose body is a function named sp. */
  const SP_BODY := [
    L.Fun("main", [], L.Let("x", L.HandleSame("sp", L.Tail, "op", L.Num(0)), L.Ret(L.Sym("x")))),
    L.Fun("op", ["e", "a"], L.Ret(L.Sym("a"))),
    L.Fun("sp", ["e", "h"], L.Ret(L.Num(1)))]

  lemma SpNames()
    ensures "main" != "op" && "main" != "sp" && "op" != "sp" && RESERVED == "sp"
  {
    assert "op"[0] == 'o' && "sp"[0] == 's';
  }

  lemma SpBodyFound()
    ensures L.FindFun(SP_BODY, "main") == Some(SP_BODY[0]) && L.FindFun(SP_BODY, "op") == Some(SP_BODY[1])
    ensures L.FindFun(SP_BODY, RESERVED) == Some(SP_BODY[2])
  {
    SpNames();
    FoundInThree(SP_BODY);
  }

  lemma SpBodyAssembles()
    ensures CompileProgram(SP_BODY).Some? && Assemble(CompileProgram(SP_BODY).value).Some?
  {
    SpNames();
    hide Assemble;
    ThreeAssemble(SP_BODY);
  }

  /** It compiles and assembles, its source run comes to an answer, and the machine faults. */
  lemma SpBodyFaults() returns (im: seq<Instr>, steps: nat)
    ensures Assembles(SP_BODY, im) && Ends(SP_BODY) && FaultsAt(im, steps)
  {
    SpBodyAssembles();
    im := Assemble(CompileProgram(SP_BODY).value).value;
    SpBodyRuns();
    hide Assemble, CompileProgram;
    steps := ReservedFaults(SP_BODY, im, 1);
  }

  lemma SpBodyRuns()
    ensures !NeverEnters(SP_BODY, 1, RESERVED) && Ends(SP_BODY)
  {
    var p := SP_BODY;
    SpBodyFound();
    hide L.FindFun;
    var s0 := L.Config(L.Ev(p[0].body, []), [], [L.Segment], 0);
    assert L.Bind(p[0].params, []) == [];
    assert L.Run(p, 0) == Some(s0);
    var env := [("e", L.IntV(0)), ("h", L.LabV(0))];
    assert L.Bind(["e", "h"], [L.IntV(0), L.LabV(0)]) == env;
    var k := [] + [L.LetK("x", L.Ret(L.Sym("x")), []), L.SameK(0, "op", L.IntV(0))];
    var s1 := L.Config(L.Ev(p[2].body, env), k, [L.Segment], 1);
    assert L.Step(p, s0) == Some(s1) && L.Run(p, 1) == Some(s1);
    assert Enters(p, L.Run(p, 0).value, RESERVED);
    var s2 := s1.(ctl := L.Re(L.IntV(1)));
    assert L.Run(p, 2) == Some(s2);
    assert k[..1] == [L.LetK("x", L.Ret(L.Sym("x")), [])] && k[..1][..0] == [];
    assert L.Run(p, 3) == Some(s2.(k := k[..1]));
    var bound := [("x", L.IntV(1))] + [];
    assert L.Run(p, 4) == Some(s2.(ctl := L.Ev(L.Ret(L.Sym("x")), bound), k := []));
    assert L.Run(p, 5) == Some(s2.(k := []));
    assert L.Run(p, 6) == Some(s2.(ctl := L.Fin(L.IntV(1)), k := []));
  }

  // ----- a resumption is good for one resume -----

  lemma SpentCell(c: Image, labs: seq<Word>, objs: seq<L.Obj>, M: seq<Block>, segs: seq<Seg>, rings: Rings,
                  cur: seq<Word>, r: nat)
    requires World(c, labs, objs, M, segs, rings, cur) && r < |objs| && objs[r].Spent?
    ensures r < |M| && M[r] == Arr([Int(-71)])
  {
    assert ObjOk(c, labs, objs, M, rings, r);
  }

  lemma PoisonedResume(c: Image, n: nat, R: seq<Word>, M: seq<Block>, a: int, b: nat, r: nat)
    requires ResumeCodeAt(c.im, a) && At(c.im, Boot(), n, R, M, a, b)
    requires R[1] == Addr(r, 0) && r < |M| && M[r] == Arr([Int(-71)])
    ensures FaultsAt(c.im, n + 4)
  {
    hide Run;
    DoLoadMem(c.im, Boot(), n, R, M, a, b, 3, 1, 0);
    var Ra := R[3 := Int(-71)];
    DoMovReg(c.im, Boot(), n + 1, Ra, M, a + 1, b, 10, Const(Int(-71)));
    var Rb := Ra[10 := Int(-71)];
    DoStoreMem(c.im, Boot(), n + 2, Rb, M, a + 2, b, R10, 1, 0);
    LoadFromInt(c.im, n + 3, Rb, WriteMem(M, r, 0, Int(-71)).value, a + 3, b, 4, 3);
  }

  lemma LoadFromInt(im: seq<Instr>, n: nat, R: seq<Word>, M: seq<Block>, pc: int, b: nat, r: nat, rs: nat)
    requires At(im, Boot(), n, R, M, pc, b) && 0 <= pc < |im| && im[pc] == Load(Reg(r), Reg(rs), Some(0))
    requires rs < REGISTERS && R[rs].Int?
    ensures FaultsAt(im, n + 1)
  {
  }

  /** Wherever a run meets a resume of a spent resumption, the machine faults. */
  lemma SecondResumeFaults(p: L.Program, im: seq<Instr>, n: nat, x: string, kv: L.Value, arg: L.Value, t: L.Stmt,
                           env: L.Env, r: nat)
    returns (steps: nat)
    requires Assembles(p, im) && L.Run(p, n).Some? && L.Run(p, n).value.ctl == L.Ev(L.Let(x, L.Resume(kv, arg), t), env)
    requires L.EvalV(env, kv) == Some(L.ContV(r)) && L.EvalV(env, arg).Some?
    requires r < |L.Run(p, n).value.objs| && L.Run(p, n).value.objs[r].Spent?
    ensures FaultsAt(im, steps)
  {
    hide ProgramAt, World, StmtAt, SegsCode, RingsCode, EnvOk, At, FaultsAt, Run, Assembles, NeverEnters;
    if NeverEnters(p, n, RESERVED) {
      var s := L.Run(p, n).value;
      var c, m := SimUntil(p, im, n);
      steps := SpentResume(c, s.k, s.objs, s.nh, m, x, kv, arg, t, env, r);
    } else {
      steps := ReservedFaults(p, im, n);
    }
  }

  lemma SpentResume(c: Image, k: seq<L.Frame>, objs: seq<L.Obj>, nh: nat, m: Salted, x: string, kv: L.Value,
                    arg: L.Value, t: L.Stmt, env: L.Env, r: nat)
    returns (steps: nat)
    requires m.segs != [] && Evaluates(c, Boot(), k, objs, nh, m, L.Let(x, L.Resume(kv, arg), t), env)
    requires L.EvalV(env, kv) == Some(L.ContV(r)) && L.EvalV(env, arg).Some? && r < |objs| && objs[r].Spent?
    ensures FaultsAt(c.im, steps) && steps == m.n + 8
  {
    hide World, StmtAt, SegsCode, RingsCode, EnvOk, CodeIs, At, ResumeCodeAt, FaultsAt, Run;
    var l1 := LetCodeIs(c, m.pc, Names(env), x, L.Resume(kv, arg), t);
    var m1 := LoadPair(c, Boot(), k, objs, nh, m, env, kv, arg, Before(Names(env), L.Resume(kv, arg), l1));
    ResumeBlock(c, c.lm[l1]);
    var m2 := ResumeCall(c, Boot(), k, objs, nh, m.pc, m1, x, kv, arg, t, env, l1);
    SpentCell(c, m2.labs, objs, m2.M, m2.segs, m2.rings, [], r);
    PoisonedResume(c, m2.n, m2.R, m2.M, m2.pc, Last(m2.segs).blk, r);
    steps := m2.n + 4;
  }

  // ----- every call faults -----

  /** Argument i goes to register 1 + i; register 0 keeps the function. */
  lemma {:induction false} LoadArgs(c: Image, s0: State, n: nat, R: seq<Word>, M: seq<Block>, a: int, b: nat,
                                    labs: seq<Word>, env: L.Env, below: seq<Word>, args: seq<L.Value>)
                                      returns (R': seq<Word>)
    requires IsStack(M, b) && M[b].ws == below + EnvWords(c, labs, env) && |args| < 32
    requires At(c.im, s0, n, R, M, a, b)
    requires CodeIs(c, a, CompileArgs(Names(env), args)) && L.EvalVs(env, args).Some?
    ensures |CompileArgs(Names(env), args)| == |args|
    ensures At(c.im, s0, n + |args|, R', M, a + |args|, b) && R'[0] == R[0]
    ensures forall i :: 0 <= i < |args| ==> R'[1 + i] == W(c, labs, L.EvalVs(env, args).value[i])
    decreases |args|
  {
    hide Run;
    ArgsPlain(Names(env), args);
    if args == [] {
      R' := R;
    } else {
      var args', v := args[..|args| - 1], args[|args| - 1];
      ArgsPlain(Names(env), args');
      CodeIsSplit(c, a, CompileArgs(Names(env), args'), CompileValue(Names(env), v, |args|));
      var R1 := LoadArgs(c, s0, n, R, M, a, b, labs, env, below, args');
      assert ReplaceLabel(c.lm, CompileValue(Names(env), v, |args|)[0]) == Some(c.im[a + |args'| + 0]);
      ExecValue(c, s0, n + |args'|, R1, M, a + |args'|, b, labs, env, below, v, |args|);
      R' := R1[|args| := W(c, labs, L.EvalV(env, v).value)];
    }
  }

  lemma CallCode(c: Image, a: int, names: seq<string>, f: L.Value, args: seq<L.Value>, l1: Name)
    requires CodeIs(c, a, Before(names, L.CallFn(f, args), l1))
    ensures 0 <= a && a + 1 + |args| < |c.im| && c.im[a] == CompileValue(names, f, 0)[0]
    ensures CodeIs(c, a + 1, CompileArgs(names, args)) && c.im[a + 1 + |args|] == Call(From(R0))
    ensures a + 2 + |args| < |c.im| && c.im[a + 2 + |args|] == Push(From(R1))
    ensures |Before(names, L.CallFn(f, args), l1)| == |args| + 3
  {
    hide CompileArgs, IndexOf;
    ArgsPlain(names, args);
    CodeIsSplit(c, a, CompileValue(names, f, 0) + CompileArgs(names, args), [Call(From(R0)), Push(From(R1))]);
    CodeIsSplit(c, a, CompileValue(names, f, 0), CompileArgs(names, args));
    assert ReplaceLabel(c.lm, CompileValue(names, f, 0)[0]) == Some(c.im[a + 0]);
    assert ReplaceLabel(c.lm, [Call(From(R0)), Push(From(R1))][0]) == Some(c.im[a + 1 + |args| + 0]);
    assert ReplaceLabel(c.lm, [Call(From(R0)), Push(From(R1))][1]) == Some(c.im[a + 1 + |args| + 1]);
  }

  lemma UnboundFaults(c: Image, n: nat, R: seq<Word>, M: seq<Block>, pc: int, b: nat, env: L.Env, v: L.Value, r: nat)
    requires At(c.im, Boot(), n, R, M, pc, b) && 0 <= pc < |c.im|
    requires c.im[pc] == CompileValue(Names(env), v, r)[0] && L.EvalV(env, v).None?
    ensures FaultsAt(c.im, n + 1)
  {
    IndexOfLookup(env, v.name);
  }

  lemma JumpFaults(c: Image, n: nat, R: seq<Word>, M: seq<Block>, pc: int, b: nat)
    requires At(c.im, Boot(), n, R, M, pc, b) && 0 <= pc < |c.im| && c.im[pc] == Call(From(R0)) && !R[0].Code?
    ensures FaultsAt(c.im, n + 2)
  {
    assert Run(c.im, Boot(), n + 1) == Step(c.im, Run(c.im, Boot(), n).value);
    assert Run(c.im, Boot(), n + 1).value.pc == R[0];
  }

  /** There is no register for a 32nd argument. */
  lemma NoRegisterFaults(c: Image, n: nat, R: seq<Word>, M: seq<Block>, pc: int, b: nat, env: L.Env, v: L.Value, r: nat)
    requires At(c.im, Boot(), n, R, M, pc, b) && 0 <= pc < |c.im|
    requires c.im[pc] == CompileValue(Names(env), v, r)[0] && r >= 32
    ensures FaultsAt(c.im, n + 1)
  {
    hide ReadMem;
    assert Run(c.im, Boot(), n + 1) == Step(c.im, Run(c.im, Boot(), n).value);
  }

  lemma {:induction false} ArgsFault(c: Image, n: nat, R: seq<Word>, M: seq<Block>, a: int, b: nat,
                                     labs: seq<Word>, env: L.Env, below: seq<Word>, args: seq<L.Value>)
                                       returns (steps: nat)
    requires IsStack(M, b) && M[b].ws == below + EnvWords(c, labs, env)
    requires At(c.im, Boot(), n, R, M, a, b)
    requires CodeIs(c, a, CompileArgs(Names(env), args)) && (L.EvalVs(env, args).None? || |args| >= 32)
    ensures FaultsAt(c.im, steps)
    decreases |args|
  {
    hide Run, FaultsAt;
    var args', v := args[..|args| - 1], args[|args| - 1];
    ArgsPlain(Names(env), args');
    CodeIsSplit(c, a, CompileArgs(Names(env), args'), CompileValue(Names(env), v, |args|));
    if L.EvalVs(env, args').None? || |args'| >= 32 {
      steps := ArgsFault(c, n, R, M, a, b, labs, env, below, args');
    } else {
      var R1 := LoadArgs(c, Boot(), n, R, M, a, b, labs, env, below, args');
      assert ReplaceLabel(c.lm, CompileValue(Names(env), v, |args|)[0]) == Some(c.im[a + |args'| + 0]);
      if |args| >= 32 {
        NoRegisterFaults(c, n + |args'|, R1, M, a + |args'|, b, env, v, |args|);
      } else {
        UnboundFaults(c, n + |args'|, R1, M, a + |args'|, b, env, v, |args|);
      }
      steps := n + |args'| + 1;
    }
  }

  /** Whatever its operand, a call that a run reaches makes the machine fault. */
  lemma CallsFault(p: L.Program, im: seq<Instr>, n: nat, x: string, f: L.Value, args: seq<L.Value>, t: L.Stmt,
                   env: L.Env) returns (steps: nat)
    requires Assembles(p, im) && L.Run(p, n).Some? && L.Run(p, n).value.ctl == L.Ev(L.Let(x, L.CallFn(f, args), t), env)
    ensures FaultsAt(im, steps)
  {
    hide ProgramAt, World, StmtAt, SegsCode, RingsCode, EnvOk, FaultsAt, Run, Assembles, NeverEnters;
    NoFunctionValues(p, n);
    if NeverEnters(p, n, RESERVED) {
      var s := L.Run(p, n).value;
      var c, m := SimUntil(p, im, n);
      steps := CallSiteFaults(c, s.k, s.objs, s.nh, m, x, f, args, t, env);
    } else {
      steps := ReservedFaults(p, im, n);
    }
  }

  lemma CallSiteFaults(c: Image, k: seq<L.Frame>, objs: seq<L.Obj>, nh: nat, m: Salted, x: string, f: L.Value,
                       args: seq<L.Value>, t: L.Stmt, env: L.Env)
    returns (steps: nat)
    requires m.segs != [] && Evaluates(c, Boot(), k, objs, nh, m, L.Let(x, L.CallFn(f, args), t), env)
    requires PlainEnv(env)
    ensures FaultsAt(c.im, steps)
  {
    hide World, StmtAt, SegsCode, RingsCode, EnvOk, CodeIs, SegWords, FaultsAt, Run, PlainEnv;
    var l1 := LetCodeIs(c, m.pc, Names(env), x, L.CallFn(f, args), t);
    CallCode(c, m.pc, Names(env), f, args, l1);
    if L.EvalV(env, f).None? {
      UnboundFaults(c, m.n, m.R, m.M, m.pc, Last(m.segs).blk, env, f, 0);
      steps := m.n + 1;
    } else {
      var m1 := LoadValue(c, Boot(), k, objs, nh, m, env, f, 0);
      PlainValue(env, f);
      steps := CallFaults(c, k, objs, nh, m1, env, f, args);
    }
  }

  lemma CallFaults(c: Image, k: seq<L.Frame>, objs: seq<L.Obj>, nh: nat, m: Salted, env: L.Env, f: L.Value,
                   args: seq<L.Value>) returns (steps: nat)
    requires m.segs != [] && StoreMatches(c, Boot(), k, objs, nh, m, EnvWords(c, m.labs, env))
    requires L.EvalV(env, f).Some? && !L.EvalV(env, f).value.FunV? && ValOk(c, m.labs, L.EvalV(env, f).value)
    requires |m.R| == REGISTERS && m.R[0] == W(c, m.labs, L.EvalV(env, f).value)
    requires CodeIs(c, m.pc, CompileArgs(Names(env), args)) && m.pc + |args| < |c.im|
    requires c.im[m.pc + |args|] == Call(From(R0))
    ensures FaultsAt(c.im, steps)
  {
    hide World, StmtAt, SegsCode, RingsCode, EnvOk, SegWords, FaultsAt, Run;
    TopWords(c, Boot(), k, objs, nh, m, EnvWords(c, m.labs, env));
    var below, b := SegWords(c, m.labs, Last(m.segs), Exch(m.segs, |m.segs| - 1, Int(0))), Last(m.segs).blk;
    if L.EvalVs(env, args).None? || |args| >= 32 {
      steps := ArgsFault(c, m.n, m.R, m.M, m.pc, b, m.labs, env, below, args);
    } else {
      var R := LoadArgs(c, Boot(), m.n, m.R, m.M, m.pc, b, m.labs, env, below, args);
      JumpFaults(c, m.n + |args|, R, m.M, m.pc + |args|, b);
      steps := m.n + |args| + 2;
    }
  }
}
