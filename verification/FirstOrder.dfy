/**
  No program gets hold of a function: names of functions stand in handler installations only, and
  in operand position every name is looked up as a variable. So functions are only entered by
  main's call, by installations and by raises.
 */
module FirstOrder {
  import opened Options
  import opened Pointers
  import L = Lexa

  predicate PlainEnv(env: L.Env)
  {
    forall i :: 0 <= i < |env| ==> !env[i].1.FunV?
  }

  predicate PlainVals(vs: seq<L.Val>)
  {
    forall i :: 0 <= i < |vs| ==> !vs[i].FunV?
  }

  predicate PlainFrame(f: L.Frame)
  {
    match f
    case LetK(_, _, env) => PlainEnv(env)
    case SameK(_, _, e) => !e.FunV?
    case NewK(_, _, e) => !e.FunV?
  }

  predicate PlainFrames(k: seq<L.Frame>)
  {
    forall i :: 0 <= i < |k| ==> PlainFrame(k[i])
  }

  predicate PlainObj(o: L.Obj)
  {
    match o
    case Record(vs) => PlainVals(vs)
    case Captured(k) => PlainFrames(k)
    case _ => true
  }

  predicate PlainObjs(objs: seq<L.Obj>)
  {
    forall i :: 0 <= i < |objs| ==> PlainObj(objs[i])
  }

  predicate PlainCtl(ctl: L.Ctl)
  {
    match ctl
    case Ev(_, env) => PlainEnv(env)
    case Re(v) => !v.FunV?
    case Fin(v) => !v.FunV?
    case Out(v) => !v.FunV?
  }

  predicate Plain(c: L.Config)
  {
    PlainCtl(c.ctl) && PlainFrames(c.k) && PlainObjs(c.objs)
  }

  lemma {:induction false} PlainLookup(env: L.Env, x: string)
    requires PlainEnv(env) && L.Lookup(env, x).Some?
    ensures !L.Lookup(env, x).value.FunV?
  {
    if env[0].0 != x {
      PlainLookup(env[1..], x);
    }
  }

  lemma PlainValue(env: L.Env, v: L.Value)
    requires PlainEnv(env)
    ensures L.EvalV(env, v).Some? ==> !L.EvalV(env, v).value.FunV?
  {
    if v.Sym? && L.Lookup(env, v.name).Some? {
      PlainLookup(env, v.name);
    }
  }

  lemma GoodFrameIsPlain(objs: seq<L.Obj>, nh: nat, f: L.Frame)
    requires GoodFrame(objs, nh, f)
    ensures PlainFrame(f)
  {
  }

  lemma GoodIsPlain(c: L.Config)
    requires Good(c)
    ensures Plain(c)
  {
    hide GoodFrame, PlainFrame;
    forall f | GoodFrame(c.objs, c.nh, f)
      ensures PlainFrame(f)
    {
      GoodFrameIsPlain(c.objs, c.nh, f);
    }
    forall i | 0 <= i < |c.objs|
      ensures PlainObj(c.objs[i])
    {
      assert GoodObj(c.objs, c.nh, c.objs[i]);
    }
  }

  /** Function values never arise: a name is only ever looked up as a variable. */
  lemma NoFunctionValues(p: L.Program, n: nat)
    requires L.Run(p, n).Some?
    ensures Plain(L.Run(p, n).value)
  {
    NothingDangles(p, n);
    hide Good, Plain;
    GoodIsPlain(L.Run(p, n).value);
  }

  // ----- entering functions -----

  function HandlerPosition(s: L.Config, env: L.Env, lab: L.Value): Option<nat>
  {
    match L.EvalV(env, lab)
    case Some(LabV(h)) => L.FindHandler(s.k, h)
    case _ => None
  }

  /** The function that the next step names: the body of an installation or the operation of the
      handler that is raised to. */
  function Named(s: L.Config): Option<string>
  {
    match s.ctl
    case Ev(Let(_, HandleNew(body, _, _, _), _), _) => Some(body)
    case Ev(Let(_, HandleSame(body, _, _, _), _), _) => Some(body)
    case Ev(Let(_, Raise(lab, _), _), env) => OperationAt(s, HandlerPosition(s, env, lab))
    case Ev(Let(_, TailRaise(lab, _), _), env) => OperationAt(s, HandlerPosition(s, env, lab))
    case Ev(Let(_, AbortRaise(lab, _), _), env) => OperationAt(s, HandlerPosition(s, env, lab))
    case _ => None
  }

  function OperationAt(s: L.Config, i: Option<nat>): Option<string>
  {
    if i.Some? && i.value < |s.k| && !s.k[i.value].LetK? then Some(s.k[i.value].op) else None
  }

  /** The next step enters function f. */
  predicate Enters(p: L.Program, s: L.Config, f: string)
  {
    Named(s) == Some(f) && L.Step(p, s).Some?
  }

  /** In its first n steps the run does not enter f. */
  ghost predicate NeverEnters(p: L.Program, n: nat, f: string)
  {
    forall i: nat :: i < n && L.Run(p, i).Some? ==> !Enters(p, L.Run(p, i).value, f)
  }

  /** The program without the functions that are called f. */
  function Without(p: L.Program, f: string): L.Program
  {
    if p == [] then [] else if p[0].name == f then Without(p[1..], f) else [p[0]] + Without(p[1..], f)
  }

  lemma {:induction false} WithoutFinds(p: L.Program, f: string, g: string)
    ensures L.FindFun(Without(p, f), g) == if g == f then None else L.FindFun(p, g)
  {
    if p != [] {
      WithoutFinds(p[1..], f, g);
      if p[0].name != f {
        assert Without(p, f)[0] == p[0] && Without(p, f)[1..] == Without(p[1..], f);
      }
    }
  }

  /** A step that does not enter f is the same without it. */
  lemma WithoutSteps(p: L.Program, s: L.Config, f: string)
    requires Plain(s) && !Enters(p, s, f)
    ensures L.Step(p, s).Some? ==> L.Step(Without(p, f), s) == L.Step(p, s)
  {
    forall g: string
      ensures L.FindFun(Without(p, f), g) == if g == f then None else L.FindFun(p, g)
    {
      WithoutFinds(p, f, g);
    }
    if s.ctl.Ev? && s.ctl.s.Let? && s.ctl.s.rhs.CallFn? {
      PlainValue(s.ctl.env, s.ctl.s.rhs.f);
    }
    hide Plain, L.FindFun, L.Lookup;
  }

  lemma WithoutStarts(p: L.Program, f: string)
    requires f != "main"
    ensures L.Start(Without(p, f)) == L.Start(p)
  {
    WithoutFinds(p, f, "main");
  }

  lemma RunStep(p: L.Program, n: nat)
    requires n > 0 && L.Run(p, n).Some?
    ensures L.Run(p, n - 1).Some? && L.Run(p, n) == L.Step(p, L.Run(p, n - 1).value)
  {
    hide L.Step, L.Start;
  }

  lemma RunOn(p: L.Program, n: nat)
    requires L.Run(p, n).Some?
    ensures L.Run(p, n + 1) == L.Step(p, L.Run(p, n).value)
  {
    hide L.Step, L.Start;
  }

  /** As long as it does not enter f, a program runs as if there were no f. */
  lemma {:induction false} WithoutRuns(p: L.Program, n: nat, f: string)
    requires f != "main" && L.Run(p, n).Some? && NeverEnters(p, n, f)
    ensures L.Run(Without(p, f), n) == L.Run(p, n)
  {
    hide Plain, Enters, L.Step, L.Start;
    if n == 0 {
      WithoutStarts(p, f);
    } else {
      hide L.Run;
      RunStep(p, n);
      WithoutRuns(p, n - 1, f);
      NoFunctionValues(p, n - 1);
      WithoutSteps(p, L.Run(p, n - 1).value, f);
      RunOn(Without(p, f), n - 1);
    }
  }
}
