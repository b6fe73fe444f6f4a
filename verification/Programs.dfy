/**
  The three programs of src/formal_translation/programs.rkt: a tail, an abortive and a general handler.
  Each assembles, and the machine halts with the answer that the file gives for it.
 */
module Programs {
  import opened Options
  import opened Salt
  import opened Translate
  import opened Assembler
  import opened Linking
  import opened Layout
  import opened CompilerCorrect
  import opened FirstOrder
  import opened Mentions
  import L = Lexa

  const ASK := L.Fun("ask", ["env", "_"], L.Let("val", L.Select(L.Sym("env"), 0), L.Ret(L.Sym("val"))))

  function AskMain(kind: L.Kind): L.Fun
  {
    L.Fun("main", [], L.Let("s", L.NewRef([L.Num(42)]),
                            L.Let("x", L.HandleSame("body", kind, "ask", L.Sym("s")), L.Ret(L.Sym("x")))))
  }

  const PROGRAM1 := [
    L.Fun("body", ["env", "askL"], L.Let("val", L.TailRaise(L.Sym("askL"), L.Num(0)), L.Ret(L.Num(43)))),
    ASK, AskMain(L.Tail)]

  const PROGRAM2 := [
    L.Fun("body", ["env", "askL"], L.Let("val", L.AbortRaise(L.Sym("askL"), L.Num(0)), L.Ret(L.Num(43)))),
    ASK, AskMain(L.Abort)]

  const PROGRAM3 := [
    L.Fun("body", ["env", "incL"],
          L.Let("_", L.Raise(L.Sym("incL"), L.Num(0)),
                L.Let("val", L.Select(L.Sym("env"), 0),
                      L.Let("newval", L.Plus(L.Sym("val"), L.Num(1)),
                            L.Let("_", L.Update(L.Sym("env"), 0, L.Sym("newval")), L.Ret(L.Num(0))))))),
    L.Fun("inc", ["env", "_", "k"], L.Let("_", L.Resume(L.Sym("k"), L.Num(0)), L.Ret(L.Num(0)))),
    L.Fun("main", [],
          L.Let("s", L.NewRef([L.Num(42)]),
                L.Let("_", L.HandleNew("body", L.General, "inc", L.Sym("s")),
                      L.Let("val", L.Select(L.Sym("s"), 0), L.Ret(L.Sym("val"))))))]

  // ----- they assemble -----

  lemma Names()
    ensures "body" != "ask" && "body" != "inc" && "body" != "main" && "ask" != "main" && "inc" != "main"
    ensures "body" != RESERVED && "ask" != RESERVED && "inc" != RESERVED && "main" != RESERVED
  {
    assert "body"[0] == 'b' && "main"[0] == 'm';
  }

  lemma Program1Assembles()
    ensures CompileProgram(PROGRAM1).Some? && Assemble(CompileProgram(PROGRAM1).value).Some?
  {
    Names();
    hide Assemble;
    ThreeAssemble(PROGRAM1);
  }

  lemma Program2Assembles()
    ensures CompileProgram(PROGRAM2).Some? && Assemble(CompileProgram(PROGRAM2).value).Some?
  {
    Names();
    hide Assemble;
    ThreeAssemble(PROGRAM2);
  }

  lemma Program3Assembles()
    ensures CompileProgram(PROGRAM3).Some? && Assemble(CompileProgram(PROGRAM3).value).Some?
  {
    Names();
    hide Assemble;
    ThreeAssemble(PROGRAM3);
  }

  /** Without a function named sp there is none to enter. */
  lemma NoneToEnter(p: L.Program, n: nat)
    requires L.FindFun(p, RESERVED).None?
    ensures NeverEnters(p, n, RESERVED)
  {
    hide L.FindFun, L.Run;
  }

  // ----- source runs -----

  lemma Look(x: string, w: L.Val, env: L.Env)
    ensures L.Lookup([(x, w)] + env, x) == Some(w)
    ensures forall y :: y != x ==> L.Lookup([(x, w)] + env, y) == L.Lookup(env, y)
  {
    assert ([(x, w)] + env)[1..] == env;
  }

  lemma OneStep(p: L.Program, n: nat, c: L.Config, c': L.Config)
    requires L.Run(p, n) == Some(c) && L.Step(p, c) == Some(c')
    ensures L.Run(p, n + 1) == Some(c')
  {
    hide L.Step;
  }

  lemma Args(x: string, y: string, a: L.Val, b: L.Val)
    ensures L.Bind([x, y], [a, b]) == [(x, a), (y, b)]
    ensures x != y ==> L.Lookup([(x, a), (y, b)], y) == Some(b)
  {
    assert [(x, a), (y, b)][1..] == [(y, b)];
  }

  // ----- the programs with ask -----

  const S: L.Env := [("s", L.RefV(1))]
  const STORE := [L.Segment, L.Record([L.IntV(42)])]
  const ASKED: L.Env := [("env", L.RefV(1)), ("askL", L.LabV(0))]
  const WAITS := L.LetK("x", L.Ret(L.Sym("x")), S)
  const HANDLES := L.SameK(0, "ask", L.RefV(1))

  predicate Asks(p: L.Program, kind: L.Kind)
  {
    L.FindFun(p, "main") == Some(AskMain(kind)) && L.FindFun(p, "ask") == Some(ASK) && L.FindFun(p, "body").Some?
    && L.FindFun(p, "body").value.params == ["env", "askL"]
  }

  lemma AskStarts(p: L.Program, kind: L.Kind)
    requires Asks(p, kind)
    ensures L.Run(p, 2) == Some(L.Config(L.Ev(L.FindFun(p, "body").value.body, ASKED), [WAITS, HANDLES], STORE, 1))
  {
    hide L.FindFun;
    var body := L.Let("x", L.HandleSame("body", kind, "ask", L.Sym("s")), L.Ret(L.Sym("x")));
    var c0 := L.Config(L.Ev(AskMain(kind).body, []), [], [L.Segment], 0);
    assert L.Bind([], []) == [];
    assert L.Run(p, 0) == Some(c0);
    assert [L.Num(42)][..0] == [] && [] + [L.IntV(42)] == [L.IntV(42)];
    assert L.EvalVs([], [L.Num(42)]) == Some([L.IntV(42)]);
    assert [("s", L.RefV(1))] + [] == S && [L.Segment] + [L.Record([L.IntV(42)])] == STORE;
    var c1 := L.Config(L.Ev(body, S), [], STORE, 0);
    OneStep(p, 0, c0, c1);
    Look("s", L.RefV(1), []);
    Args("env", "askL", L.RefV(1), L.LabV(0));
    assert [] + [WAITS, HANDLES] == [WAITS, HANDLES];
    OneStep(p, 1, c1, L.Config(L.Ev(L.FindFun(p, "body").value.body, ASKED), [WAITS, HANDLES], STORE, 1));
  }

  /** The operation answers with the field. */
  lemma AskRuns(p: L.Program, n: nat, k: seq<L.Frame>)
    requires L.Run(p, n) == Some(L.Config(L.Ev(ASK.body, [("env", L.RefV(1)), ("_", L.IntV(0))]), k, STORE, 1))
    ensures L.Run(p, n + 2) == Some(L.Config(L.Re(L.IntV(42)), k, STORE, 1))
  {
    hide L.Run;
    var env := [("env", L.RefV(1)), ("_", L.IntV(0))];
    var c1 := L.Config(L.Ev(L.Ret(L.Sym("val")), [("val", L.IntV(42))] + env), k, STORE, 1);
    OneStep(p, n, L.Run(p, n).value, c1);
    Look("val", L.IntV(42), env);
    OneStep(p, n + 1, c1, c1.(ctl := L.Re(L.IntV(42))));
  }

  lemma AskEnds(p: L.Program, n: nat, v: L.Val)
    requires L.Run(p, n) == Some(L.Config(L.Re(v), [WAITS], STORE, 1))
    ensures L.Run(p, n + 3) == Some(L.Config(L.Fin(v), [], STORE, 1))
  {
    hide L.Run;
    var c1 := L.Config(L.Ev(L.Ret(L.Sym("x")), [("x", v)] + S), [], STORE, 1);
    OneStep(p, n, L.Run(p, n).value, c1);
    Look("x", v, S);
    OneStep(p, n + 1, c1, c1.(ctl := L.Re(v)));
    OneStep(p, n + 2, c1.(ctl := L.Re(v)), c1.(ctl := L.Fin(v)));
  }

  lemma AskPrograms()
    ensures Asks(PROGRAM1, L.Tail) && L.FindFun(PROGRAM1, "body") == Some(PROGRAM1[0])
    ensures Asks(PROGRAM2, L.Abort) && L.FindFun(PROGRAM2, "body") == Some(PROGRAM2[0])
    ensures L.FindFun(PROGRAM1, RESERVED).None? && L.FindFun(PROGRAM2, RESERVED).None?
  {
    Names();
    FoundInThree(PROGRAM1);
    FoundInThree(PROGRAM2);
    hide L.FindFun, Mentioned, AllNamed;
  }

  lemma HandlerFound()
    ensures L.FindHandler([WAITS, HANDLES], 0) == Some(1)
  {
  }

  /** The tail handler answers 42 to the raise, and the body goes on to 43. */
  lemma Program1Runs()
    ensures L.Run(PROGRAM1, 11) == Some(L.Config(L.Fin(L.IntV(43)), [], STORE, 1))
  {
    var p := PROGRAM1;
    AskPrograms();
    AskStarts(p, L.Tail);
    hide L.Run, L.FindFun;
    var c2 := L.Config(L.Ev(p[0].body, ASKED), [WAITS, HANDLES], STORE, 1);
    HandlerFound();
    Args("env", "askL", L.RefV(1), L.LabV(0));
    Args("env", "_", L.RefV(1), L.IntV(0));
    var back := L.LetK("val", L.Ret(L.Num(43)), ASKED);
    var k := [WAITS, HANDLES] + [back];
    OneStep(p, 2, c2, L.Config(L.Ev(ASK.body, [("env", L.RefV(1)), ("_", L.IntV(0))]), k, STORE, 1));
    AskRuns(p, 3, k);
    assert k[..2] == [WAITS, HANDLES] && [WAITS, HANDLES][..1] == [WAITS];
    var c6 := L.Config(L.Ev(L.Ret(L.Num(43)), [("val", L.IntV(42))] + ASKED), [WAITS, HANDLES], STORE, 1);
    OneStep(p, 5, L.Config(L.Re(L.IntV(42)), k, STORE, 1), c6);
    OneStep(p, 6, c6, c6.(ctl := L.Re(L.IntV(43))));
    OneStep(p, 7, c6.(ctl := L.Re(L.IntV(43))), L.Config(L.Re(L.IntV(43)), [WAITS], STORE, 1));
    AskEnds(p, 8, L.IntV(43));
  }

  /** The abortive handler's answer, 42, is that of the whole handler. */
  lemma Program2Runs()
    ensures L.Run(PROGRAM2, 8) == Some(L.Config(L.Fin(L.IntV(42)), [], STORE, 1))
  {
    var p := PROGRAM2;
    AskPrograms();
    AskStarts(p, L.Abort);
    hide L.Run, L.FindFun;
    var c2 := L.Config(L.Ev(p[0].body, ASKED), [WAITS, HANDLES], STORE, 1);
    HandlerFound();
    Args("env", "askL", L.RefV(1), L.LabV(0));
    Args("env", "_", L.RefV(1), L.IntV(0));
    assert [WAITS, HANDLES][..1] == [WAITS];
    OneStep(p, 2, c2, L.Config(L.Ev(ASK.body, [("env", L.RefV(1)), ("_", L.IntV(0))]), [WAITS], STORE, 1));
    AskRuns(p, 3, [WAITS]);
    AskEnds(p, 5, L.IntV(42));
  }

  // ----- the program with inc -----

  const INC := PROGRAM3[1]
  const INC_BODY: L.Env := [("env", L.RefV(1)), ("incL", L.LabV(0))]
  const INC_ENV: L.Env := [("env", L.RefV(1)), ("_", L.IntV(0)), ("k", L.ContV(3))]
  const INC_REST := PROGRAM3[0].body.t
  const MAIN_WAITS := L.LetK("_", PROGRAM3[2].body.t.t, S)
  const INC_HANDLES := L.NewK(0, "inc", L.RefV(1))
  const INC_WAITS := L.LetK("_", L.Ret(L.Num(0)), INC_ENV)
  const CAPTURED := [INC_HANDLES, L.LetK("_", INC_REST, INC_BODY)]

  function Store3(field: int, o: seq<L.Obj>): seq<L.Obj>
  {
    [L.Segment, L.Record([L.IntV(field)]), L.Segment] + o
  }

  lemma Program3Finds()
    ensures L.FindFun(PROGRAM3, "main") == Some(PROGRAM3[2]) && L.FindFun(PROGRAM3, "inc") == Some(INC)
    ensures L.FindFun(PROGRAM3, "body") == Some(PROGRAM3[0]) && L.FindFun(PROGRAM3, RESERVED).None?
  {
    Names();
    FoundInThree(PROGRAM3);
    hide L.FindFun, Mentioned, AllNamed;
  }

  lemma IncStarts()
    ensures L.Run(PROGRAM3, 2) ==
            Some(L.Config(L.Ev(PROGRAM3[0].body, INC_BODY), [MAIN_WAITS, INC_HANDLES], Store3(42, []), 1))
  {
    var p := PROGRAM3;
    Program3Finds();
    hide L.FindFun;
    var c0 := L.Config(L.Ev(p[2].body, []), [], [L.Segment], 0);
    assert L.Bind([], []) == [];
    assert L.Run(p, 0) == Some(c0);
    assert [L.Num(42)][..0] == [] && [] + [L.IntV(42)] == [L.IntV(42)];
    assert L.EvalVs([], [L.Num(42)]) == Some([L.IntV(42)]);
    assert [("s", L.RefV(1))] + [] == S && [L.Segment] + [L.Record([L.IntV(42)])] == STORE;
    var c1 := L.Config(L.Ev(p[2].body.t, S), [], STORE, 0);
    OneStep(p, 0, c0, c1);
    Look("s", L.RefV(1), []);
    Args("env", "incL", L.RefV(1), L.LabV(0));
    assert [] + [MAIN_WAITS, INC_HANDLES] == [MAIN_WAITS, INC_HANDLES] && STORE + [L.Segment] == Store3(42, []);
    OneStep(p, 1, c1, L.Config(L.Ev(p[0].body, INC_BODY), [MAIN_WAITS, INC_HANDLES], Store3(42, []), 1));
  }

  lemma IncEnv()
    ensures L.Bind(["env", "_", "k"], [L.RefV(1), L.IntV(0), L.ContV(3)]) == INC_ENV
    ensures L.Lookup(INC_ENV, "k") == Some(L.ContV(3))
  {
    assert "_"[0] == '_' && "k"[0] == 'k';
    assert INC_ENV[1..] == [("_", L.IntV(0)), ("k", L.ContV(3))] && INC_ENV[1..][1..] == [("k", L.ContV(3))];
    assert L.Lookup(INC_ENV[1..][1..], "k") == Some(L.ContV(3));
  }

  /** The raise captures the body, the clause resumes it. */
  lemma IncResumes()
    ensures L.Run(PROGRAM3, 5) ==
            Some(L.Config(L.Ev(INC_REST, [("_", L.IntV(0))] + INC_BODY), [MAIN_WAITS, INC_WAITS, INC_HANDLES],
                          Store3(42, [L.Spent]), 1))
  {
    var p := PROGRAM3;
    Program3Finds();
    IncStarts();
    hide L.Run, L.FindFun;
    var k2 := [MAIN_WAITS, INC_HANDLES];
    var c2 := L.Config(L.Ev(p[0].body, INC_BODY), k2, Store3(42, []), 1);
    Args("env", "incL", L.RefV(1), L.LabV(0));
    IncEnv();
    assert L.FindHandler(k2, 0) == Some(1) && k2[..1] == [MAIN_WAITS];
    assert k2[1..] + [L.LetK("_", INC_REST, INC_BODY)] == CAPTURED;
    assert Store3(42, []) + [L.Captured(CAPTURED)] == Store3(42, [L.Captured(CAPTURED)]);
    var c3 := L.Config(L.Ev(INC.body, INC_ENV), [MAIN_WAITS], Store3(42, [L.Captured(CAPTURED)]), 1);
    OneStep(p, 2, c2, c3);
    var k4 := [MAIN_WAITS, INC_WAITS, INC_HANDLES, L.LetK("_", INC_REST, INC_BODY)];
    assert [MAIN_WAITS] + [INC_WAITS] + CAPTURED == k4;
    assert c3.objs[3 := L.Spent] == Store3(42, [L.Spent]);
    var c4 := L.Config(L.Re(L.IntV(0)), k4, Store3(42, [L.Spent]), 1);
    OneStep(p, 3, c3, c4);
    assert k4[..3] == [MAIN_WAITS, INC_WAITS, INC_HANDLES];
    OneStep(p, 4, c4, c4.(ctl := L.Ev(INC_REST, [("_", L.IntV(0))] + INC_BODY), k := k4[..3]));
  }

  /** The rest of the body adds one to the field. */
  lemma IncCounts(k: seq<L.Frame>)
    requires L.Run(PROGRAM3, 5) ==
             Some(L.Config(L.Ev(INC_REST, [("_", L.IntV(0))] + INC_BODY), k, Store3(42, [L.Spent]), 1))
    ensures L.Run(PROGRAM3, 9) == Some(L.Config(L.Re(L.IntV(0)), k, Store3(43, [L.Spent]), 1))
  {
    var p := PROGRAM3;
    hide L.Run;
    var e5 := [("_", L.IntV(0))] + INC_BODY;
    var c5 := L.Config(L.Ev(INC_REST, e5), k, Store3(42, [L.Spent]), 1);
    Look("_", L.IntV(0), INC_BODY);
    assert L.Lookup(e5, "env") == Some(L.RefV(1));
    var e6 := [("val", L.IntV(42))] + e5;
    var c6 := c5.(ctl := L.Ev(INC_REST.t, e6));
    OneStep(p, 5, c5, c6);
    Look("val", L.IntV(42), e5);
    var e7 := [("newval", L.IntV(43))] + e6;
    var c7 := c5.(ctl := L.Ev(INC_REST.t.t, e7));
    OneStep(p, 6, c6, c7);
    Look("newval", L.IntV(43), e6);
    assert "val"[0] == 'v' && "env"[0] == 'e';
    assert L.Lookup(e7, "env") == Some(L.RefV(1));
    assert [L.IntV(42)][0 := L.IntV(43)] == [L.IntV(43)];
    assert Store3(42, [L.Spent])[1 := L.Record([L.IntV(43)])] == Store3(43, [L.Spent]);
    var c8 := L.Config(L.Ev(L.Ret(L.Num(0)), [("_", L.IntV(43))] + e7), k, Store3(43, [L.Spent]), 1);
    OneStep(p, 7, c7, c8);
    OneStep(p, 8, c8, c8.(ctl := L.Re(L.IntV(0))));
  }

  lemma IncReturns()
    requires L.Run(PROGRAM3, 9) ==
             Some(L.Config(L.Re(L.IntV(0)), [MAIN_WAITS, INC_WAITS, INC_HANDLES], Store3(43, [L.Spent]), 1))
    ensures L.Run(PROGRAM3, 16) == Some(L.Config(L.Fin(L.IntV(43)), [], Store3(43, [L.Spent]), 1))
  {
    var p := PROGRAM3;
    hide L.Run;
    var k := [MAIN_WAITS, INC_WAITS, INC_HANDLES];
    assert k[..2] == [MAIN_WAITS, INC_WAITS] && k[..2][..1] == [MAIN_WAITS] && [MAIN_WAITS][..0] == [];
    var c9 := L.Config(L.Re(L.IntV(0)), k, Store3(43, [L.Spent]), 1);
    OneStep(p, 9, c9, c9.(k := [MAIN_WAITS, INC_WAITS]));
    var c11 := c9.(ctl := L.Ev(L.Ret(L.Num(0)), [("_", L.IntV(0))] + INC_ENV), k := [MAIN_WAITS]);
    OneStep(p, 10, c9.(k := [MAIN_WAITS, INC_WAITS]), c11);
    OneStep(p, 11, c11, c9.(k := [MAIN_WAITS]));
    var e13 := [("_", L.IntV(0))] + S;
    var c13 := c9.(ctl := L.Ev(MAIN_WAITS.t, e13), k := []);
    OneStep(p, 12, c9.(k := [MAIN_WAITS]), c13);
    assert "_"[0] == '_' && "s"[0] == 's';
    Look("_", L.IntV(0), S);
    var c14 := c13.(ctl := L.Ev(L.Ret(L.Sym("val")), [("val", L.IntV(43))] + e13));
    OneStep(p, 13, c13, c14);
    Look("val", L.IntV(43), e13);
    OneStep(p, 14, c14, c14.(ctl := L.Re(L.IntV(43))));
    OneStep(p, 15, c14.(ctl := L.Re(L.IntV(43))), c14.(ctl := L.Fin(L.IntV(43))));
  }

  /** The general handler's clause resumes once; then main selects 43. */
  lemma Program3Runs()
    ensures L.Run(PROGRAM3, 16) == Some(L.Config(L.Fin(L.IntV(43)), [], Store3(43, [L.Spent]), 1))
  {
    hide L.Run;
    IncResumes();
    IncCounts([MAIN_WAITS, INC_WAITS, INC_HANDLES]);
    IncReturns();
  }

  // ----- what the machine shows -----

  /** The assembled program halts with an integer alone on its main stack, and field as that of the
      record that main made. */
  ghost predicate AnswersWith(p: L.Program, answer: int, field: int)
  {
    exists im, n :: Assembles(p, im) && Run(im, Boot(), n).Some? &&
                    ShowsInt(Run(im, Boot(), n).value, answer, field)
  }

  predicate ShowsInt(s: State, answer: int, field: int)
  {
    s.halted && |s.M| > 1 && s.M[0] == Stk([Int(answer)]) && s.M[1] == Arr([Int(field)])
  }

  lemma Preserved(p: L.Program, n: nat, answer: int, field: int)
    requires CompileProgram(p).Some? && Assemble(CompileProgram(p).value).Some? && L.FindFun(p, RESERVED).None?
    requires L.Run(p, n).Some? && L.Run(p, n).value.ctl == L.Fin(L.IntV(answer))
    requires |L.Run(p, n).value.objs| > 1 && L.Run(p, n).value.objs[1] == L.Record([L.IntV(field)])
    ensures AnswersWith(p, answer, field)
  {
    hide Assemble, CompileProgram, L.Run, L.FindFun, Run, NeverEnters;
    var im := Assemble(CompileProgram(p).value).value;
    NoneToEnter(p, n);
    var c, labs, steps := AnswersPreserved(p, im, n);
    assert ShowsInt(Run(im, Boot(), steps).value, answer, field);
  }

  /** Program 1 halts with 43, program 2 with 42 and program 3 with 43, on the machine. */
  lemma ProgramsAnswer()
    ensures AnswersWith(PROGRAM1, 43, 42) && AnswersWith(PROGRAM2, 42, 42) && AnswersWith(PROGRAM3, 43, 43)
  {
    Program1Assembles();
    Program2Assembles();
    Program3Assembles();
    AskPrograms();
    Program3Finds();
    Program1Runs();
    Program2Runs();
    Program3Runs();
    hide Assemble, CompileProgram, L.Run, L.FindFun, Run, AnswersWith;
    Preserved(PROGRAM1, 11, 43, 42);
    Preserved(PROGRAM2, 8, 42, 42);
    Preserved(PROGRAM3, 16, 43, 43);
  }
}
