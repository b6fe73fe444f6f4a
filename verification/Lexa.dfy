/**
  The let-normal handler language that src/formal_translation/t-salt.rkt compiles,
  with an abstract machine as its meaning.

  The continuation is a list of frames, oldest first. Every handler instance has
  its own label; a resumption is the captured list of frames and may be used once.
  A configuration without a successor that is not an answer has gone wrong.
 */
module Lexa {
  import opened Options

  datatype Value = Sym(name: string) | Num(n: int)

  datatype Kind = General | Tail | Abort

  datatype Rhs =
    | Plus(v1: Value, v2: Value)
    | CallFn(f: Value, args: seq<Value>)
    | NewRef(vs: seq<Value>)
    | Select(v: Value, i: int)
    | Update(a: Value, i: int, v: Value)
    | HandleNew(body: string, kind: Kind, op: string, under: Value)    // handle+
    | HandleSame(body: string, kind: Kind, op: string, under: Value)   // handle=
    | Raise(lab: Value, arg: Value)
    | TailRaise(lab: Value, arg: Value)
    | AbortRaise(lab: Value, arg: Value)
    | Resume(k: Value, arg: Value)
    | Atom(v: Value)
    | Exits(v: Value)

  datatype Stmt = Let(x: string, rhs: Rhs, t: Stmt) | Ret(v: Value)

  datatype Fun = Fun(name: string, params: seq<string>, body: Stmt)

  type Program = seq<Fun>

  // ----- run-time entities -----

  datatype Val = IntV(n: int) | RefV(loc: nat) | LabV(h: nat) | ContV(loc: nat) | FunV(f: string)

  /** Newest binding first, as the compiler's env. */
  type Env = seq<(string, Val)>

  datatype Frame =
    | LetK(x: string, t: Stmt, env: Env)        // waiting to bind x and go on with t
    | SameK(h: nat, op: string, e: Val)         // a handle= instance
    | NewK(h: nat, op: string, e: Val)          // a handle+ instance

  /** Objects are numbered in the order in which they are created. Object 0 and the
      one each handle+ creates stand for a stretch of control stack. */
  datatype Obj = Segment | Record(vs: seq<Val>) | Captured(k: seq<Frame>) | Spent

  datatype Ctl =
    | Ev(s: Stmt, env: Env)
    | Re(v: Val)
    | Fin(v: Val)        // main returned v
    | Out(v: Val)        // exits; no program that compiles gets here

  datatype Config = Config(ctl: Ctl, k: seq<Frame>, objs: seq<Obj>, nh: nat)

  function Lookup(env: Env, x: string): Option<Val>
  {
    if env == [] then None else if env[0].0 == x then Some(env[0].1) else Lookup(env[1..], x)
  }

  function EvalV(env: Env, v: Value): Option<Val>
  {
    match v
    case Sym(x) => Lookup(env, x)
    case Num(n) => Some(IntV(n))
  }

  function EvalVs(env: Env, vs: seq<Value>): (r: Option<seq<Val>>)
    ensures r.Some? ==> |r.value| == |vs|
  {
    if vs == [] then Some([]) else
    match (EvalVs(env, vs[..|vs| - 1]), EvalV(env, vs[|vs| - 1]))
    case (Some(ws), Some(w)) => Some(ws + [w])
    case _ => None
  }

  /** The last definition of a name is the one in force. */
  function FindFun(p: Program, f: string): Option<Fun>
  {
    if p == [] then None else
    match FindFun(p[1..], f)
    case Some(d) => Some(d)
    case None => if p[0].name == f then Some(p[0]) else None
  }

  function Bind(params: seq<string>, args: seq<Val>): (env: Env)
    requires |params| == |args|
  {
    seq(|params|, i requires 0 <= i < |params| => (params[i], args[i]))
  }

  function Enter(p: Program, f: string, args: seq<Val>): Option<Ctl>
  {
    match FindFun(p, f)
    case None => None
    case Some(d) => if |d.params| == |args| then Some(Ev(d.body, Bind(d.params, args))) else None
  }

  predicate IsHandler(f: Frame, h: nat)
  {
    !f.LetK? && f.h == h
  }

  /** The position of handler instance h in the continuation, if it is there. */
  function FindHandler(k: seq<Frame>, h: nat): (r: Option<nat>)
    ensures r.Some? ==> r.value < |k| && IsHandler(k[r.value], h)
  {
    if k == [] then None
    else if IsHandler(k[|k| - 1], h) then Some(|k| - 1)
    else FindHandler(k[..|k| - 1], h)
  }

  // ----- the steps -----

  function BindTo(c: Config, x: string, t: Stmt, env: Env, v: Val): Config
  {
    c.(ctl := Ev(t, [(x, v)] + env))
  }

  function StepCall(p: Program, c: Config, x: string, t: Stmt, env: Env, f: Value, args: seq<Value>): Option<Config>
  {
    match (EvalV(env, f), EvalVs(env, args))
    case (Some(FunV(g)), Some(vs)) =>
      (match Enter(p, g, vs)
       case Some(ctl) => Some(c.(ctl := ctl, k := c.k + [LetK(x, t, env)]))
       case None => None)
    case _ => None
  }

  function StepSelect(c: Config, x: string, t: Stmt, env: Env, v: Value, i: int): Option<Config>
  {
    match EvalV(env, v)
    case Some(RefV(r)) =>
      if r < |c.objs| && c.objs[r].Record? && 0 <= i < |c.objs[r].vs|
      then Some(BindTo(c, x, t, env, c.objs[r].vs[i]))
      else None
    case _ => None
  }

  function StepUpdate(c: Config, x: string, t: Stmt, env: Env, a: Value, i: int, v: Value): Option<Config>
  {
    match (EvalV(env, a), EvalV(env, v))
    case (Some(RefV(r)), Some(w)) =>
      if r < |c.objs| && c.objs[r].Record? && 0 <= i < |c.objs[r].vs|
      then Some(BindTo(c.(objs := c.objs[r := Record(c.objs[r].vs[i := w])]), x, t, env, w))
      else None
    case _ => None
  }

  function StepHandleNew(p: Program, c: Config, x: string, t: Stmt, env: Env, body: string, op: string,
                         under: Value): Option<Config>
  {
    match EvalV(env, under)
    case None => None
    case Some(e) =>
      (match Enter(p, body, [e, LabV(c.nh)])
       case None => None
       case Some(ctl) =>
         Some(Config(ctl, c.k + [LetK(x, t, env), NewK(c.nh, op, e)], c.objs + [Segment], c.nh + 1)))
  }

  function StepHandleSame(p: Program, c: Config, x: string, t: Stmt, env: Env, body: string, op: string,
                          under: Value): Option<Config>
  {
    match EvalV(env, under)
    case None => None
    case Some(e) =>
      (match Enter(p, body, [e, LabV(c.nh)])
       case None => None
       case Some(ctl) =>
         Some(Config(ctl, c.k + [LetK(x, t, env), SameK(c.nh, op, e)], c.objs, c.nh + 1)))
  }

  /** The operation clause runs on top of the raise site. */
  function StepTailRaise(p: Program, c: Config, x: string, t: Stmt, env: Env, lab: Value, arg: Value): Option<Config>
  {
    match (EvalV(env, lab), EvalV(env, arg))
    case (Some(LabV(h)), Some(a)) =>
      (match FindHandler(c.k, h)
       case None => None
       case Some(i) =>
         (match Enter(p, c.k[i].op, [c.k[i].e, a])
          case None => None
          case Some(ctl) => Some(c.(ctl := ctl, k := c.k + [LetK(x, t, env)]))))
    case _ => None
  }

  /** Everything from the handler up is dropped; the clause runs in the handler's place. */
  function StepAbortRaise(p: Program, c: Config, env: Env, lab: Value, arg: Value): Option<Config>
  {
    match (EvalV(env, lab), EvalV(env, arg))
    case (Some(LabV(h)), Some(a)) =>
      (match FindHandler(c.k, h)
       case None => None
       case Some(i) =>
         if !c.k[i].SameK? then None else
         (match Enter(p, c.k[i].op, [c.k[i].e, a])
          case None => None
          case Some(ctl) => Some(c.(ctl := ctl, k := c.k[..i]))))
    case _ => None
  }

  /** The frames from the handler up become a resumption, passed to the clause. */
  function StepRaise(p: Program, c: Config, x: string, t: Stmt, env: Env, lab: Value, arg: Value): Option<Config>
  {
    match (EvalV(env, lab), EvalV(env, arg))
    case (Some(LabV(h)), Some(a)) =>
      (match FindHandler(c.k, h)
       case None => None
       case Some(i) =>
         if !c.k[i].NewK? then None else
         (match Enter(p, c.k[i].op, [c.k[i].e, a, ContV(|c.objs|)])
          case None => None
          case Some(ctl) =>
            Some(c.(ctl := ctl, k := c.k[..i], objs := c.objs + [Captured(c.k[i..] + [LetK(x, t, env)])]))))
    case _ => None
  }

  function StepResume(c: Config, x: string, t: Stmt, env: Env, k: Value, arg: Value): Option<Config>
  {
    match (EvalV(env, k), EvalV(env, arg))
    case (Some(ContV(r)), Some(a)) =>
      if r < |c.objs| && c.objs[r].Captured?
      then Some(c.(ctl := Re(a), k := c.k + [LetK(x, t, env)] + c.objs[r].k, objs := c.objs[r := Spent]))
      else None
    case _ => None
  }

  function StepLet(p: Program, c: Config, x: string, rhs: Rhs, t: Stmt, env: Env): Option<Config>
  {
    match rhs
    case Plus(v1, v2) =>
      (match (EvalV(env, v1), EvalV(env, v2))
       case (Some(IntV(a)), Some(IntV(b))) => Some(BindTo(c, x, t, env, IntV(a + b)))
       case _ => None)
    case CallFn(f, args) => StepCall(p, c, x, t, env, f, args)
    case NewRef(vs) =>
      (match EvalVs(env, vs)
       case Some(ws) => Some(BindTo(c.(objs := c.objs + [Record(ws)]), x, t, env, RefV(|c.objs|)))
       case None => None)
    case Select(v, i) => StepSelect(c, x, t, env, v, i)
    case Update(a, i, v) => StepUpdate(c, x, t, env, a, i, v)
    case HandleNew(body, _, op, under) => StepHandleNew(p, c, x, t, env, body, op, under)
    case HandleSame(body, _, op, under) => StepHandleSame(p, c, x, t, env, body, op, under)
    case Raise(lab, arg) => StepRaise(p, c, x, t, env, lab, arg)
    case TailRaise(lab, arg) => StepTailRaise(p, c, x, t, env, lab, arg)
    case AbortRaise(lab, arg) => StepAbortRaise(p, c, env, lab, arg)
    case Resume(k, arg) => StepResume(c, x, t, env, k, arg)
    case Atom(v) =>
      (match EvalV(env, v)
       case Some(w) => Some(BindTo(c, x, t, env, w))
       case None => None)
    case Exits(v) =>
      (match EvalV(env, v)
       case Some(w) => Some(c.(ctl := Out(w)))
       case None => None)
  }

  function StepReturn(c: Config, v: Val): Config
  {
    if c.k == [] then c.(ctl := Fin(v)) else
    var top, k := c.k[|c.k| - 1], c.k[..|c.k| - 1];
    match top
    case LetK(x, t, env) => c.(ctl := Ev(t, [(x, v)] + env), k := k)
    case _ => c.(k := k)
  }

  predicate IsAnswer(c: Config)
  {
    c.ctl.Fin? || c.ctl.Out?
  }

  /** One step; None when the configuration is an answer or has gone wrong. */
  function Step(p: Program, c: Config): Option<Config>
  {
    match c.ctl
    case Ev(Let(x, rhs, t), env) => StepLet(p, c, x, rhs, t, env)
    case Ev(Ret(v), env) =>
      (match EvalV(env, v)
       case Some(w) => Some(c.(ctl := Re(w)))
       case None => None)
    case Re(v) => Some(StepReturn(c, v))
    case Fin(_) => None
    case Out(_) => None
  }

  /** A program starts by calling main without arguments. */
  function Start(p: Program): Option<Config>
  {
    match Enter(p, "main", [])
    case None => None
    case Some(ctl) => Some(Config(ctl, [], [Segment], 0))
  }

  function Run(p: Program, n: nat): Option<Config>
  {
    if n == 0 then Start(p) else
    match Run(p, n - 1)
    case None => None
    case Some(c) => Step(p, c)
  }
}
