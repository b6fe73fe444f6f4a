/**
  When a program goes on. The source machine has a step exactly under conditions that speak of
  bindings, definitions, handlers and fields; and where a program reads or writes a field, it has
  one exactly if the assembled program gets past the memory access.
 */
module Progress {
  import opened Options
  import opened Salt
  import opened SaltRules
  import opened Translate
  import opened Assembler
  import opened Linking
  import opened Layout
  import opened LayoutSteps
  import opened Matching
  import opened Activations
  import opened Statements
  import opened HandlerSteps
  import opened Resumptions
  import opened CompilerCorrect
  import opened FirstOrder
  import opened Pointers
  import opened Faults
  import L = Lexa

  // ----- names, functions, handlers -----

  /** v denotes w: a number itself, a name what its newest binding says. */
  ghost predicate Is(env: L.Env, v: L.Value, w: L.Val)
  {
    match v
    case Num(n) => w == L.IntV(n)
    case Sym(x) => exists j :: 0 <= j < |env| && env[j] == (x, w) && forall i :: 0 <= i < j ==> env[i].0 != x
  }

  predicate Bound(env: L.Env, v: L.Value)
  {
    v.Num? || exists j :: 0 <= j < |env| && env[j].0 == v.name
  }

  predicate AllBound(env: L.Env, vs: seq<L.Value>)
  {
    forall i :: 0 <= i < |vs| ==> Bound(env, vs[i])
  }

  /** The last function called f takes n arguments. */
  ghost predicate Defined(p: L.Program, f: string, n: nat)
  {
    exists j :: 0 <= j < |p| && p[j].name == f && |p[j].params| == n && forall i :: j < i < |p| ==> p[i].name != f
  }

  /** Frame i is the newest one of handler instance h. */
  predicate HandlerAt(k: seq<L.Frame>, h: nat, i: nat)
  {
    i < |k| && !k[i].LetK? && k[i].h == h && forall j :: i < j < |k| ==> k[j].LetK? || k[j].h != h
  }

  predicate HasField(objs: seq<L.Obj>, r: nat, i: int)
  {
    r < |objs| && objs[r].Record? && 0 <= i < |objs[r].vs|
  }

  lemma {:induction false} LooksUp(env: L.Env, x: string, w: L.Val)
    ensures L.Lookup(env, x) == Some(w) <==> Is(env, L.Sym(x), w)
    ensures L.Lookup(env, x).Some? <==> Bound(env, L.Sym(x))
  {
    if env != [] && env[0].0 != x {
      var rest := env[1..];
      LooksUp(rest, x, w);
      if Is(rest, L.Sym(x), w) {
        var j :| 0 <= j < |rest| && rest[j] == (x, w) && forall i :: 0 <= i < j ==> rest[i].0 != x;
        assert env[j + 1] == (x, w) && forall i :: 0 <= i < j + 1 ==> env[i].0 != x;
      }
      if Is(env, L.Sym(x), w) {
        var j :| 0 <= j < |env| && env[j] == (x, w) && forall i :: 0 <= i < j ==> env[i].0 != x;
        assert rest[j - 1] == (x, w) && forall i :: 0 <= i < j - 1 ==> rest[i].0 != x;
      }
      if Bound(rest, L.Sym(x)) {
        var j :| 0 <= j < |rest| && rest[j].0 == x;
        assert env[j + 1].0 == x;
      }
      if Bound(env, L.Sym(x)) {
        var j :| 0 <= j < |env| && env[j].0 == x;
        assert rest[j - 1].0 == x;
      }
    }
  }

  lemma Denotes(env: L.Env, v: L.Value)
    ensures forall w :: L.EvalV(env, v) == Some(w) <==> Is(env, v, w)
    ensures L.EvalV(env, v).Some? <==> Bound(env, v)
  {
    forall w
      ensures L.EvalV(env, v) == Some(w) <==> Is(env, v, w)
      ensures L.EvalV(env, v).Some? <==> Bound(env, v)
    {
      if v.Sym? {
        LooksUp(env, v.name, w);
      }
    }
    assert L.EvalV(env, v).Some? <==> Bound(env, v) by {
      if v.Sym? {
        LooksUp(env, v.name, L.IntV(0));
      }
    }
  }

  lemma {:induction false} DenoteAll(env: L.Env, vs: seq<L.Value>)
    ensures L.EvalVs(env, vs).Some? <==> AllBound(env, vs)
  {
    if vs != [] {
      DenoteAll(env, vs[..|vs| - 1]);
      Denotes(env, vs[|vs| - 1]);
      hide Bound;
      assert AllBound(env, vs) <==> AllBound(env, vs[..|vs| - 1]) && Bound(env, vs[|vs| - 1]);
    }
  }

  lemma {:induction false} Finds(p: L.Program, f: string, n: nat)
    ensures L.FindFun(p, f).Some? && |L.FindFun(p, f).value.params| == n <==> Defined(p, f, n)
    ensures L.FindFun(p, f).None? <==> forall j :: 0 <= j < |p| ==> p[j].name != f
  {
    if p != [] {
      var rest := p[1..];
      Finds(rest, f, n);
      assert forall j :: 0 < j < |p| ==> p[j] == rest[j - 1];
      assert forall j :: 0 <= j < |rest| ==> rest[j] == p[j + 1];
      if Defined(rest, f, n) {
        var j :| 0 <= j < |rest| && rest[j].name == f && |rest[j].params| == n
            && forall i :: j < i < |rest| ==> rest[i].name != f;
        assert p[j + 1].name == f && forall i :: j + 1 < i < |p| ==> p[i].name != f;
      }
      if Defined(p, f, n) {
        var j :| 0 <= j < |p| && p[j].name == f && |p[j].params| == n
            && forall i :: j < i < |p| ==> p[i].name != f;
        if j > 0 {
          assert rest[j - 1].name == f && forall i :: j - 1 < i < |rest| ==> rest[i].name != f;
        }
      }
    }
  }

  lemma EntersExactly(p: L.Program, f: string, args: seq<L.Val>)
    ensures L.Enter(p, f, args).Some? <==> Defined(p, f, |args|)
  {
    Finds(p, f, |args|);
  }

  lemma {:induction false} FindsHandler(k: seq<L.Frame>, h: nat, i: nat)
    ensures L.FindHandler(k, h) == Some(i) <==> HandlerAt(k, h, i)
  {
    if k != [] && !L.IsHandler(k[|k| - 1], h) {
      FindsHandler(k[..|k| - 1], h, i);
    }
  }

  // ----- when there is a step -----

  ghost predicate CanRaise(p: L.Program, c: L.Config, env: L.Env, lab: L.Value, arg: L.Value, h: nat, i: nat, n: nat)
  {
    Is(env, lab, L.LabV(h)) && Bound(env, arg) && HandlerAt(c.k, h, i) && Defined(p, c.k[i].op, n)
  }

  lemma RaiseFrame(p: L.Program, c: L.Config, env: L.Env, lab: L.Value, arg: L.Value, n: nat)
    ensures forall h: nat, i: nat :: CanRaise(p, c, env, lab, arg, h, i, n) ==> i < |c.k| && !c.k[i].LetK?
  {
  }

  ghost predicate CanLet(p: L.Program, c: L.Config, env: L.Env, rhs: L.Rhs)
  {
    match rhs
    case Plus(v1, v2) => exists a, b :: Is(env, v1, L.IntV(a)) && Is(env, v2, L.IntV(b))
    case CallFn(f, args) => exists g :: Is(env, f, L.FunV(g)) && Defined(p, g, |args|) && AllBound(env, args)
    case NewRef(vs) => AllBound(env, vs)
    case Select(v, i) => exists r: nat :: Is(env, v, L.RefV(r)) && HasField(c.objs, r, i)
    case Update(a, i, v) => Bound(env, v) && exists r: nat :: Is(env, a, L.RefV(r)) && HasField(c.objs, r, i)
    case HandleNew(body, _, _, under) => Bound(env, under) && Defined(p, body, 2)
    case HandleSame(body, _, _, under) => Bound(env, under) && Defined(p, body, 2)
    case Raise(lab, arg) => exists h: nat, i: nat :: CanRaise(p, c, env, lab, arg, h, i, 3) && c.k[i].NewK?
    case TailRaise(lab, arg) => exists h: nat, i: nat :: CanRaise(p, c, env, lab, arg, h, i, 2)
    case AbortRaise(lab, arg) => exists h: nat, i: nat :: CanRaise(p, c, env, lab, arg, h, i, 2) && c.k[i].SameK?
    case Resume(k, arg) =>
      Bound(env, arg) && exists r: nat :: Is(env, k, L.ContV(r)) && r < |c.objs| && c.objs[r].Captured?
    case Atom(v) => Bound(env, v)
    case Exits(v) => Bound(env, v)
  }

  ghost predicate CanGo(p: L.Program, c: L.Config)
  {
    match c.ctl
    case Ev(Let(_, rhs, _), env) => CanLet(p, c, env, rhs)
    case Ev(Ret(v), env) => Bound(env, v)
    case Re(_) => true
    case _ => false
  }

  lemma RaisesExactly(p: L.Program, c: L.Config, env: L.Env, lab: L.Value, arg: L.Value, h: nat, i: nat,
                      args: seq<L.Val>)
    ensures CanRaise(p, c, env, lab, arg, h, i, |args|) <==>
            && L.EvalV(env, lab) == Some(L.LabV(h)) && L.EvalV(env, arg).Some?
            && L.FindHandler(c.k, h) == Some(i) && L.Enter(p, c.k[i].op, args).Some?
  {
    Denotes(env, lab);
    Denotes(env, arg);
    FindsHandler(c.k, h, i);
    hide Is, Bound, HandlerAt, Defined, L.Enter, L.EvalV;
    if L.FindHandler(c.k, h) == Some(i) {
      EntersExactly(p, c.k[i].op, args);
    }
  }

  lemma LetExactly(p: L.Program, c: L.Config, x: string, rhs: L.Rhs, t: L.Stmt, env: L.Env)
    ensures L.StepLet(p, c, x, rhs, t, env).Some? <==> CanLet(p, c, env, rhs)
  {
    hide Is, Bound, Defined, L.Enter, L.EvalV, L.EvalVs, AllBound;
    match rhs
    case Plus(v1, v2) => Denotes(env, v1); Denotes(env, v2);
    case CallFn(f, args) => CallExactly(p, c, x, t, env, f, args);
    case NewRef(vs) => DenoteAll(env, vs);
    case Select(v, _) => Denotes(env, v);
    case Update(a, _, v) => Denotes(env, a); Denotes(env, v);
    case HandleNew(body, _, op, under) => InstallExactly(p, c, body, env, under);
    case HandleSame(body, _, op, under) => InstallExactly(p, c, body, env, under);
    case Raise(lab, arg) => RaiseExactly(p, c, x, t, env, lab, arg);
    case TailRaise(lab, arg) => TailRaiseExactly(p, c, x, t, env, lab, arg);
    case AbortRaise(lab, arg) => AbortRaiseExactly(p, c, env, lab, arg);
    case Resume(k, arg) => Denotes(env, k); Denotes(env, arg);
    case Atom(v) => Denotes(env, v);
    case Exits(v) => Denotes(env, v);
  }

  lemma CallExactly(p: L.Program, c: L.Config, x: string, t: L.Stmt, env: L.Env, f: L.Value, args: seq<L.Value>)
    ensures L.StepCall(p, c, x, t, env, f, args).Some? <==> CanLet(p, c, env, L.CallFn(f, args))
  {
    Denotes(env, f);
    DenoteAll(env, args);
    hide Is, Bound, Defined, L.Enter, L.EvalV, L.EvalVs, AllBound;
    if L.EvalV(env, f).Some? && L.EvalV(env, f).value.FunV? && L.EvalVs(env, args).Some? {
      EntersExactly(p, L.EvalV(env, f).value.f, L.EvalVs(env, args).value);
    }
  }

  lemma InstallExactly(p: L.Program, c: L.Config, body: string, env: L.Env, under: L.Value)
    ensures Bound(env, under) && Defined(p, body, 2) <==>
            L.EvalV(env, under).Some? && L.Enter(p, body, [L.EvalV(env, under).value, L.LabV(c.nh)]).Some?
  {
    Denotes(env, under);
    hide Bound, Defined, L.Enter, L.EvalV;
    if L.EvalV(env, under).Some? {
      EntersExactly(p, body, [L.EvalV(env, under).value, L.LabV(c.nh)]);
    }
  }

  lemma RaiseExactly(p: L.Program, c: L.Config, x: string, t: L.Stmt, env: L.Env, lab: L.Value, arg: L.Value)
    ensures L.StepRaise(p, c, x, t, env, lab, arg).Some? <==> CanLet(p, c, env, L.Raise(lab, arg))
  {
    hide Is, Bound, Defined, HandlerAt, L.Enter, L.EvalV, L.FindHandler, CanRaise;
    RaiseFrame(p, c, env, lab, arg, 3);
    var a := match L.EvalV(env, arg) case Some(w) => w case None => L.IntV(0);
    if L.StepRaise(p, c, x, t, env, lab, arg).Some? {
      var h := L.EvalV(env, lab).value.h;
      var i := L.FindHandler(c.k, h).value;
      RaisesExactly(p, c, env, lab, arg, h, i, [c.k[i].e, a, L.ContV(|c.objs|)]);
    } else if h: nat, i: nat :| i < |c.k| && !c.k[i].LetK? && CanRaise(p, c, env, lab, arg, h, i, 3) && c.k[i].NewK? {
      RaisesExactly(p, c, env, lab, arg, h, i, [c.k[i].e, a, L.ContV(|c.objs|)]);
    }
  }

  lemma TailRaiseExactly(p: L.Program, c: L.Config, x: string, t: L.Stmt, env: L.Env, lab: L.Value, arg: L.Value)
    ensures L.StepTailRaise(p, c, x, t, env, lab, arg).Some? <==> CanLet(p, c, env, L.TailRaise(lab, arg))
  {
    hide Is, Bound, Defined, HandlerAt, L.Enter, L.EvalV, L.FindHandler, CanRaise;
    RaiseFrame(p, c, env, lab, arg, 2);
    var a := match L.EvalV(env, arg) case Some(w) => w case None => L.IntV(0);
    if L.StepTailRaise(p, c, x, t, env, lab, arg).Some? {
      var h := L.EvalV(env, lab).value.h;
      var i := L.FindHandler(c.k, h).value;
      RaisesExactly(p, c, env, lab, arg, h, i, [c.k[i].e, a]);
    } else if h: nat, i: nat :| i < |c.k| && !c.k[i].LetK? && CanRaise(p, c, env, lab, arg, h, i, 2) {
      RaisesExactly(p, c, env, lab, arg, h, i, [c.k[i].e, a]);
    }
  }

  lemma AbortRaiseExactly(p: L.Program, c: L.Config, env: L.Env, lab: L.Value, arg: L.Value)
    ensures L.StepAbortRaise(p, c, env, lab, arg).Some? <==> CanLet(p, c, env, L.AbortRaise(lab, arg))
  {
    hide Is, Bound, Defined, HandlerAt, L.Enter, L.EvalV, L.FindHandler, CanRaise;
    RaiseFrame(p, c, env, lab, arg, 2);
    var a := match L.EvalV(env, arg) case Some(w) => w case None => L.IntV(0);
    if L.StepAbortRaise(p, c, env, lab, arg).Some? {
      var h := L.EvalV(env, lab).value.h;
      var i := L.FindHandler(c.k, h).value;
      RaisesExactly(p, c, env, lab, arg, h, i, [c.k[i].e, a]);
    } else if h: nat, i: nat :| i < |c.k| && !c.k[i].LetK? && CanRaise(p, c, env, lab, arg, h, i, 2) && c.k[i].SameK? {
      RaisesExactly(p, c, env, lab, arg, h, i, [c.k[i].e, a]);
    }
  }

  /** Exactly when a configuration has a successor: names are bound, functions are defined with the right
      number of parameters, `+` is given integers, a field that is there is selected or updated, the
      newest frame of a handler instance is of the kind that the raise asks for, and a resumption was not
      used. */
  lemma StepsExactly(p: L.Program, c: L.Config)
    ensures L.Step(p, c).Some? <==> CanGo(p, c)
  {
    hide L.StepLet, CanLet, Bound, L.EvalV;
    match c.ctl
    case Ev(Let(x, rhs, t), env) => LetExactly(p, c, x, rhs, t, env);
    case Ev(Ret(v), env) => Denotes(env, v);
    case _ =>
  }

  lemma {:induction false} StoppedStays(p: L.Program, n: nat, n': nat)
    requires L.Run(p, n).None? && n <= n'
    ensures L.Run(p, n').None?
  {
    if n < n' {
      StoppedStays(p, n, n' - 1);
    }
  }

  /** Every configuration of the run that is not an answer meets the condition of its form. */
  ghost predicate AlwaysGoes(p: L.Program)
  {
    forall n: nat :: L.Run(p, n).Some? && !L.IsAnswer(L.Run(p, n).value) ==> CanGo(p, L.Run(p, n).value)
  }

  lemma {:induction false} StopsAtAnswer(p: L.Program, n: nat) returns (k: nat)
    requires Defined(p, "main", 0) && L.Run(p, n).None?
    requires AlwaysGoes(p)
    ensures k < n && L.Run(p, k).Some? && L.IsAnswer(L.Run(p, k).value)
  {
    hide CanGo, L.Step, Defined, L.Enter;
    if n == 0 {
      EntersExactly(p, "main", []);
    } else if L.Run(p, n - 1).None? {
      k := StopsAtAnswer(p, n - 1);
    } else {
      k := n - 1;
      StepsExactly(p, L.Run(p, k).value);
    }
  }

  /** Safe programs, without the step function. */
  lemma SafeExactly(p: L.Program)
    ensures Safe(p) <==> Defined(p, "main", 0) && AlwaysGoes(p)
  {
    hide Safe, AlwaysGoes, Defined;
    if Safe(p) {
      MainDefined(p);
      SafeGoes(p);
    }
    if Defined(p, "main", 0) && AlwaysGoes(p) {
      GoesSafely(p);
    }
  }

  lemma GoesSafely(p: L.Program)
    requires Defined(p, "main", 0) && AlwaysGoes(p)
    ensures Safe(p)
  {
    hide CanGo, Defined, L.Run;
    forall n: nat
      ensures L.Run(p, n).Some? || exists k: nat :: k < n && L.Run(p, k).Some? && L.IsAnswer(L.Run(p, k).value)
    {
      if L.Run(p, n).None? {
        var k := StopsAtAnswer(p, n);
      }
    }
  }

  lemma MainDefined(p: L.Program)
    ensures Safe(p) ==> Defined(p, "main", 0)
  {
    EntersExactly(p, "main", []);
    assert Safe(p) ==> L.Run(p, 0).Some?;
  }

  lemma SafeGoes(p: L.Program)
    requires Safe(p)
    ensures AlwaysGoes(p)
  {
    hide CanGo, L.Run;
    forall n: nat | L.Run(p, n).Some? && !L.IsAnswer(L.Run(p, n).value)
      ensures CanGo(p, L.Run(p, n).value)
    {
      StepsExactly(p, L.Run(p, n).value);
      RunOn(p, n);
      if L.Run(p, n + 1).None? {
        var k: nat :| k < n + 1 && L.Run(p, k).Some? && L.IsAnswer(L.Run(p, k).value);
        RunOn(p, k);
        assert L.Run(p, k + 1).None?;
        if k < n {
          StoppedStays(p, k + 1, n);
        }
      }
    }
  }

  // ----- fields: the program goes on if the machine does -----

  lemma PastLoad(im: seq<Instr>, n: nat, R: seq<Word>, M: seq<Block>, pc: int, b: nat, r: nat, rs: nat, i: int)
    requires At(im, Boot(), n, R, M, pc, b) && 0 <= pc < |im| && im[pc] == Load(Reg(r), Reg(rs), Some(i))
    requires r < REGISTERS && rs < REGISTERS
    ensures FaultsAt(im, n + 1) <==> !(R[rs].Addr? && ReadMem(M, R[rs].b, R[rs].o + i).Some?)
  {
  }

  lemma PastStore(im: seq<Instr>, n: nat, R: seq<Word>, M: seq<Block>, pc: int, b: nat, rs: nat, rd: nat, i: int)
    requires At(im, Boot(), n, R, M, pc, b) && 0 <= pc < |im| && im[pc] == Store(Reg(rs), Reg(rd), i)
    requires rs < REGISTERS && rd < REGISTERS
    ensures FaultsAt(im, n + 1) <==> !(R[rd].Addr? && WriteMem(M, R[rd].b, R[rd].o + i, R[rs]).Some?)
  {
  }

  lemma FaultStays(im: seq<Instr>, n: nat, n': nat)
    requires FaultsAt(im, n) && n <= n'
    ensures FaultsAt(im, n')
  {
    if !FaultsAt(im, n') {
      RunPrefix(im, Boot(), n, n');
    }
  }

  /** A value that the machine does not hold as an address into a stack or a resumption. */
  predicate NoHandle(v: Option<L.Val>)
  {
    v.Some? ==> !v.value.LabV? && !v.value.ContV?
  }

  lemma SelectPast(c: Image, s: L.Config, m: Salted, x: string, v: L.Value, i: int, t: L.Stmt, env: L.Env)
    requires m.segs != [] && Evaluates(c, Boot(), s.k, s.objs, s.nh, m, L.Let(x, L.Select(v, i), t), env)
    requires GoodEnv(s.objs, s.nh, env) && NoHandle(L.EvalV(env, v))
    ensures FaultsAt(c.im, m.n + 2) <==> L.StepSelect(s, x, t, env, v, i).None?
  {
    hide StmtAt, World, SegsCode, RingsCode, Run, EnvOk, FaultsAt, GoodEnv;
    var l1 := LetCodeIs(c, m.pc, Names(env), x, L.Select(v, i), t);
    var code := Before(Names(env), L.Select(v, i), l1);
    assert ReplaceLabel(c.lm, code[0]) == Some(c.im[m.pc + 0]);
    assert ReplaceLabel(c.lm, code[1]) == Some(c.im[m.pc + 1]);
    GoodValue(s.objs, s.nh, env, v);
    if L.EvalV(env, v).None? {
      UnboundFaults(c, m.n, m.R, m.M, m.pc, Last(m.segs).blk, env, v, 1);
      FaultStays(c.im, m.n + 1, m.n + 2);
    } else {
      var m1 := LoadValue(c, Boot(), s.k, s.objs, s.nh, m, env, v, 1);
      if L.EvalV(env, v).value.RefV? {
        RecordAt(c, m.labs, s.objs, m.M, m.segs, m.rings, EnvWords(c, m.labs, env), L.EvalV(env, v).value.loc);
      }
      PastLoad(c.im, m1.n, m1.R, m1.M, m1.pc, Last(m1.segs).blk, 1, 1, i);
    }
  }

  lemma UpdatePast(c: Image, s: L.Config, m: Salted, x: string, a: L.Value, i: int, v: L.Value, t: L.Stmt, env: L.Env)
    requires m.segs != [] && Evaluates(c, Boot(), s.k, s.objs, s.nh, m, L.Let(x, L.Update(a, i, v), t), env)
    requires GoodEnv(s.objs, s.nh, env) && NoHandle(L.EvalV(env, a))
    ensures FaultsAt(c.im, m.n + 3) <==> L.StepUpdate(s, x, t, env, a, i, v).None?
  {
    hide StmtAt, World, SegsCode, RingsCode, Run, EnvOk, FaultsAt, GoodEnv;
    var l1 := LetCodeIs(c, m.pc, Names(env), x, L.Update(a, i, v), t);
    var code := Before(Names(env), L.Update(a, i, v), l1);
    assert ReplaceLabel(c.lm, code[0]) == Some(c.im[m.pc + 0]);
    assert ReplaceLabel(c.lm, code[1]) == Some(c.im[m.pc + 1]);
    assert ReplaceLabel(c.lm, code[2]) == Some(c.im[m.pc + 2]);
    GoodValue(s.objs, s.nh, env, a);
    if L.EvalV(env, v).None? {
      UnboundFaults(c, m.n, m.R, m.M, m.pc, Last(m.segs).blk, env, v, 1);
      FaultStays(c.im, m.n + 1, m.n + 3);
      return;
    }
    var m1 := LoadValue(c, Boot(), s.k, s.objs, s.nh, m, env, v, 1);
    if L.EvalV(env, a).None? {
      UnboundFaults(c, m1.n, m1.R, m1.M, m1.pc, Last(m1.segs).blk, env, a, 2);
      FaultStays(c.im, m.n + 2, m.n + 3);
      return;
    }
    var m2 := LoadValue(c, Boot(), s.k, s.objs, s.nh, m1, env, a, 2);
    if L.EvalV(env, a).value.RefV? {
      RecordAt(c, m.labs, s.objs, m.M, m.segs, m.rings, EnvWords(c, m.labs, env), L.EvalV(env, a).value.loc);
    }
    PastStore(c.im, m2.n, m2.R, m2.M, m2.pc, Last(m2.segs).blk, 1, 2, i);
  }

  lemma PastResumed(c: Image, s: L.Config, m: Salted, x: string, k: L.Value, arg: L.Value, t: L.Stmt, env: L.Env)
    requires m.segs != [] && Evaluates(c, Boot(), s.k, s.objs, s.nh, m, L.Let(x, L.Resume(k, arg), t), env)
    requires L.StepResume(s, x, t, env, k, arg).Some?
    ensures !FaultsAt(c.im, m.n + 8)
  {
    hide StmtAt, SegsCode, RingsCode, EnvOk, Run, World, Evaluates, Moved;
    var m' := SimResume(c, Boot(), s, m, x, k, arg, t, env);
    RunPrefix(c.im, Boot(), m.n + 8, m'.n);
  }

  lemma ResumePast(c: Image, s: L.Config, m: Salted, x: string, k: L.Value, arg: L.Value, t: L.Stmt, env: L.Env)
    requires m.segs != [] && Evaluates(c, Boot(), s.k, s.objs, s.nh, m, L.Let(x, L.Resume(k, arg), t), env)
    requires GoodEnv(s.objs, s.nh, env) && L.EvalV(env, k).Some? && L.EvalV(env, k).value.ContV?
    ensures FaultsAt(c.im, m.n + 8) <==> L.StepResume(s, x, t, env, k, arg).None?
  {
    hide StmtAt, World, SegsCode, RingsCode, Run, EnvOk, FaultsAt, GoodEnv;
    GoodValue(s.objs, s.nh, env, k);
    if L.EvalV(env, arg).None? {
      var l1 := LetCodeIs(c, m.pc, Names(env), x, L.Resume(k, arg), t);
      var code := Before(Names(env), L.Resume(k, arg), l1);
      assert ReplaceLabel(c.lm, code[0]) == Some(c.im[m.pc + 0]);
      UnboundFaults(c, m.n, m.R, m.M, m.pc, Last(m.segs).blk, env, arg, 2);
      FaultStays(c.im, m.n + 1, m.n + 8);
    } else if s.objs[L.EvalV(env, k).value.loc].Spent? {
      hide Evaluates;
      var steps := SpentResume(c, s.k, s.objs, s.nh, m, x, k, arg, t, env, L.EvalV(env, k).value.loc);
    } else {
      hide Evaluates;
      PastResumed(c, s, m, x, k, arg, t, env);
    }
  }

  /** Where a run selects a field, of a reference, of a number or of nothing, it goes on if and only if
      the machine gets past the load: field i is there. */
  lemma SelectGoesOn(p: L.Program, im: seq<Instr>, n: nat, x: string, v: L.Value, i: int, t: L.Stmt, env: L.Env)
    returns (c: Image, m: Salted)
    requires Assembles(p, im) && L.Run(p, n).Some? && NeverEnters(p, n, RESERVED)
    requires L.Run(p, n).value.ctl == L.Ev(L.Let(x, L.Select(v, i), t), env) && NoHandle(L.EvalV(env, v))
    ensures c.im == im && Matches(c, Boot(), L.Run(p, n).value, m)
    ensures L.Run(p, n + 1).Some? <==> !FaultsAt(im, m.n + 2)
  {
    hide L.Run, Assembles, NeverEnters, GoodFrames, GoodObjs, Evaluates, FaultsAt, ProgramAt;
    NothingDangles(p, n);
    RunOn(p, n);
    c, m := SimUntil(p, im, n);
    SelectPast(c, L.Run(p, n).value, m, x, v, i, t, env);
  }

  /** The same where it updates one. */
  lemma UpdateGoesOn(p: L.Program, im: seq<Instr>, n: nat, x: string, a: L.Value, i: int, v: L.Value, t: L.Stmt,
                     env: L.Env)
    returns (c: Image, m: Salted)
    requires Assembles(p, im) && L.Run(p, n).Some? && NeverEnters(p, n, RESERVED)
    requires L.Run(p, n).value.ctl == L.Ev(L.Let(x, L.Update(a, i, v), t), env) && NoHandle(L.EvalV(env, a))
    ensures c.im == im && Matches(c, Boot(), L.Run(p, n).value, m)
    ensures L.Run(p, n + 1).Some? <==> !FaultsAt(im, m.n + 3)
  {
    hide L.Run, Assembles, NeverEnters, GoodFrames, GoodObjs, Evaluates, FaultsAt, ProgramAt;
    NothingDangles(p, n);
    RunOn(p, n);
    c, m := SimUntil(p, im, n);
    UpdatePast(c, L.Run(p, n).value, m, x, a, i, v, t, env);
  }

  /** Where it resumes, the machine gets past the exchange of stack pointers. */
  lemma ResumeGoesOn(p: L.Program, im: seq<Instr>, n: nat, x: string, k: L.Value, arg: L.Value, t: L.Stmt, env: L.Env)
    returns (c: Image, m: Salted)
    requires Assembles(p, im) && L.Run(p, n).Some? && NeverEnters(p, n, RESERVED)
    requires L.Run(p, n).value.ctl == L.Ev(L.Let(x, L.Resume(k, arg), t), env)
    requires L.EvalV(env, k).Some? && L.EvalV(env, k).value.ContV?
    ensures c.im == im && Matches(c, Boot(), L.Run(p, n).value, m)
    ensures L.Run(p, n + 1).Some? <==> !FaultsAt(im, m.n + 8)
  {
    hide L.Run, Assembles, NeverEnters, GoodFrames, GoodObjs, Evaluates, FaultsAt, ProgramAt;
    NothingDangles(p, n);
    RunOn(p, n);
    c, m := SimUntil(p, im, n);
    ResumePast(c, L.Run(p, n).value, m, x, k, arg, t, env);
  }
}
