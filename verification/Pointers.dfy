/**
  What a run of the source machine points at: references denote records, resumptions denote captured
  frames or what is left of them, handler labels were given out, and nothing is a function.
 */
module Pointers {
  import opened Options
  import L = Lexa

  predicate GoodVal(objs: seq<L.Obj>, nh: nat, v: L.Val)
  {
    match v
    case IntV(_) => true
    case RefV(r) => r < |objs| && objs[r].Record?
    case ContV(r) => r < |objs| && (objs[r].Captured? || objs[r].Spent?)
    case LabV(h) => h < nh
    case FunV(_) => false
  }

  predicate GoodVals(objs: seq<L.Obj>, nh: nat, vs: seq<L.Val>)
  {
    forall i :: 0 <= i < |vs| ==> GoodVal(objs, nh, vs[i])
  }

  predicate GoodEnv(objs: seq<L.Obj>, nh: nat, env: L.Env)
  {
    forall i :: 0 <= i < |env| ==> GoodVal(objs, nh, env[i].1)
  }

  predicate GoodFrame(objs: seq<L.Obj>, nh: nat, f: L.Frame)
  {
    match f
    case LetK(_, _, env) => GoodEnv(objs, nh, env)
    case SameK(h, _, e) => h < nh && GoodVal(objs, nh, e)
    case NewK(h, _, e) => h < nh && GoodVal(objs, nh, e)
  }

  predicate GoodFrames(objs: seq<L.Obj>, nh: nat, k: seq<L.Frame>)
  {
    forall i :: 0 <= i < |k| ==> GoodFrame(objs, nh, k[i])
  }

  predicate GoodObj(objs: seq<L.Obj>, nh: nat, o: L.Obj)
  {
    match o
    case Record(vs) => GoodVals(objs, nh, vs)
    case Captured(k) => GoodFrames(objs, nh, k)
    case _ => true
  }

  predicate GoodObjs(objs: seq<L.Obj>, nh: nat)
  {
    forall i :: 0 <= i < |objs| ==> GoodObj(objs, nh, objs[i])
  }

  predicate GoodCtl(objs: seq<L.Obj>, nh: nat, ctl: L.Ctl)
  {
    match ctl
    case Ev(_, env) => GoodEnv(objs, nh, env)
    case Re(v) => GoodVal(objs, nh, v)
    case Fin(v) => GoodVal(objs, nh, v)
    case Out(v) => GoodVal(objs, nh, v)
  }

  predicate Good(c: L.Config)
  {
    GoodCtl(c.objs, c.nh, c.ctl) && GoodFrames(c.objs, c.nh, c.k) && GoodObjs(c.objs, c.nh)
  }

  // ----- the heap grows, and its objects keep their kinds -----

  predicate Grown(objs: seq<L.Obj>, nh: nat, objs': seq<L.Obj>, nh': nat)
  {
    nh <= nh' && |objs| <= |objs'| && forall r :: 0 <= r < |objs| ==> SameKind(objs[r], objs'[r])
  }

  predicate SameKind(o: L.Obj, o': L.Obj)
  {
    (o.Record? ==> o'.Record?) && (o.Captured? || o.Spent? ==> o'.Captured? || o'.Spent?)
  }

  lemma ValGrows(objs: seq<L.Obj>, nh: nat, objs': seq<L.Obj>, nh': nat, v: L.Val)
    requires Grown(objs, nh, objs', nh') && GoodVal(objs, nh, v)
    ensures GoodVal(objs', nh', v)
  {
    if v.RefV? || v.ContV? {
      assert SameKind(objs[v.loc], objs'[v.loc]);
    }
  }

  lemma EnvGrows(objs: seq<L.Obj>, nh: nat, objs': seq<L.Obj>, nh': nat, env: L.Env)
    requires Grown(objs, nh, objs', nh') && GoodEnv(objs, nh, env)
    ensures GoodEnv(objs', nh', env)
  {
    hide GoodVal, Grown;
    forall i | 0 <= i < |env|
      ensures GoodVal(objs', nh', env[i].1)
    {
      ValGrows(objs, nh, objs', nh', env[i].1);
    }
  }

  lemma ValsGrow(objs: seq<L.Obj>, nh: nat, objs': seq<L.Obj>, nh': nat, vs: seq<L.Val>)
    requires Grown(objs, nh, objs', nh') && GoodVals(objs, nh, vs)
    ensures GoodVals(objs', nh', vs)
  {
    hide GoodVal, Grown;
    forall i | 0 <= i < |vs|
      ensures GoodVal(objs', nh', vs[i])
    {
      ValGrows(objs, nh, objs', nh', vs[i]);
    }
  }

  lemma FramesGrow(objs: seq<L.Obj>, nh: nat, objs': seq<L.Obj>, nh': nat, k: seq<L.Frame>)
    requires Grown(objs, nh, objs', nh') && GoodFrames(objs, nh, k)
    ensures GoodFrames(objs', nh', k)
  {
    hide GoodVal, GoodEnv;
    forall i | 0 <= i < |k|
      ensures GoodFrame(objs', nh', k[i])
    {
      assert GoodFrame(objs, nh, k[i]);
      match k[i]
      case LetK(_, _, env) => EnvGrows(objs, nh, objs', nh', env);
      case SameK(_, _, e) => ValGrows(objs, nh, objs', nh', e);
      case NewK(_, _, e) => ValGrows(objs, nh, objs', nh', e);
    }
  }

  lemma ObjGrows(objs: seq<L.Obj>, nh: nat, objs': seq<L.Obj>, nh': nat, o: L.Obj)
    requires Grown(objs, nh, objs', nh') && GoodObj(objs, nh, o)
    ensures GoodObj(objs', nh', o)
  {
    hide GoodVals, GoodFrames, Grown;
    match o
    case Record(vs) => ValsGrow(objs, nh, objs', nh', vs);
    case Captured(k) => FramesGrow(objs, nh, objs', nh', k);
    case _ =>
  }

  /** One more object. */
  lemma Appended(objs: seq<L.Obj>, nh: nat, nh': nat, o: L.Obj)
    requires GoodObjs(objs, nh) && GoodObj(objs + [o], nh', o) && nh <= nh'
    ensures Grown(objs, nh, objs + [o], nh') && GoodObjs(objs + [o], nh')
  {
    assert forall r :: 0 <= r < |objs| ==> SameKind(objs[r], (objs + [o])[r]);
    hide GoodObj, SameKind, Grown;
    forall i | 0 <= i < |objs + [o]|
      ensures GoodObj(objs + [o], nh', (objs + [o])[i])
    {
      if i < |objs| {
        ObjGrows(objs, nh, objs + [o], nh', objs[i]);
      }
    }
  }

  /** One object replaced by one of its kind. */
  lemma Replaced(objs: seq<L.Obj>, nh: nat, r: nat, o: L.Obj)
    requires GoodObjs(objs, nh) && r < |objs| && SameKind(objs[r], o) && GoodObj(objs, nh, o)
    ensures Grown(objs, nh, objs[r := o], nh) && GoodObjs(objs[r := o], nh)
  {
    assert forall i :: 0 <= i < |objs| ==> SameKind(objs[i], objs[r := o][i]);
    hide GoodObj, SameKind, Grown;
    var objs' := objs[r := o];
    forall i | 0 <= i < |objs'|
      ensures GoodObj(objs', nh, objs'[i])
    {
      ObjGrows(objs, nh, objs', nh, if i == r then o else objs[i]);
    }
  }

  // ----- steps -----

  lemma {:induction false} GoodLookup(objs: seq<L.Obj>, nh: nat, env: L.Env, x: string)
    requires GoodEnv(objs, nh, env) && L.Lookup(env, x).Some?
    ensures GoodVal(objs, nh, L.Lookup(env, x).value)
  {
    hide GoodVal;
    if env[0].0 != x {
      GoodLookup(objs, nh, env[1..], x);
    }
  }

  lemma GoodValue(objs: seq<L.Obj>, nh: nat, env: L.Env, v: L.Value)
    requires GoodEnv(objs, nh, env)
    ensures L.EvalV(env, v).Some? ==> GoodVal(objs, nh, L.EvalV(env, v).value)
  {
    if v.Sym? && L.Lookup(env, v.name).Some? {
      GoodLookup(objs, nh, env, v.name);
    }
  }

  lemma {:induction false} GoodValues(objs: seq<L.Obj>, nh: nat, env: L.Env, vs: seq<L.Value>)
    requires GoodEnv(objs, nh, env)
    ensures L.EvalVs(env, vs).Some? ==> GoodVals(objs, nh, L.EvalVs(env, vs).value)
  {
    hide GoodVal, GoodEnv;
    if vs != [] {
      GoodValues(objs, nh, env, vs[..|vs| - 1]);
      GoodValue(objs, nh, env, vs[|vs| - 1]);
    }
  }

  lemma GoodEntry(p: L.Program, f: string, objs: seq<L.Obj>, nh: nat, args: seq<L.Val>)
    requires L.Enter(p, f, args).Some? && GoodVals(objs, nh, args)
    ensures GoodCtl(objs, nh, L.Enter(p, f, args).value)
  {
    hide GoodVal;
  }

  lemma FrameOn(objs: seq<L.Obj>, nh: nat, k: seq<L.Frame>, f: L.Frame)
    requires GoodFrames(objs, nh, k) && GoodFrame(objs, nh, f)
    ensures GoodFrames(objs, nh, k + [f])
  {
    hide GoodFrame;
  }

  lemma BindGood(c: L.Config, x: string, t: L.Stmt, env: L.Env, v: L.Val)
    requires GoodFrames(c.objs, c.nh, c.k) && GoodObjs(c.objs, c.nh) && GoodEnv(c.objs, c.nh, env)
    requires GoodVal(c.objs, c.nh, v)
    ensures Good(L.BindTo(c, x, t, env, v))
  {
    hide GoodVal;
  }

  lemma SelectGood(c: L.Config, x: string, t: L.Stmt, env: L.Env, v: L.Value, i: int)
    requires Good(c) && GoodEnv(c.objs, c.nh, env) && L.StepSelect(c, x, t, env, v, i).Some?
    ensures Good(L.StepSelect(c, x, t, env, v, i).value)
  {
    assert GoodObj(c.objs, c.nh, c.objs[L.EvalV(env, v).value.loc]);
    hide GoodVal, GoodEnv, GoodFrames, GoodObjs, Good;
    assert GoodVals(c.objs, c.nh, c.objs[L.EvalV(env, v).value.loc].vs);
    assert GoodFrames(c.objs, c.nh, c.k) && GoodObjs(c.objs, c.nh) by { Parts(c); }
    BindGood(c, x, t, env, c.objs[L.EvalV(env, v).value.loc].vs[i]);
  }

  lemma Parts(c: L.Config)
    requires Good(c)
    ensures GoodFrames(c.objs, c.nh, c.k) && GoodObjs(c.objs, c.nh)
  {
  }

  lemma UpdateGood(c: L.Config, x: string, t: L.Stmt, env: L.Env, a: L.Value, i: int, v: L.Value)
    requires Good(c) && GoodEnv(c.objs, c.nh, env) && L.StepUpdate(c, x, t, env, a, i, v).Some?
    ensures Good(L.StepUpdate(c, x, t, env, a, i, v).value)
  {
    var r, w := L.EvalV(env, a).value.loc, L.EvalV(env, v).value;
    var o := L.Record(c.objs[r].vs[i := w]);
    var objs := c.objs[r := o];
    assert GoodObj(c.objs, c.nh, c.objs[r]);
    hide GoodVal, GoodEnv, GoodFrames, GoodObjs, Good, Grown;
    Parts(c);
    GoodValue(c.objs, c.nh, env, v);
    Replaced(c.objs, c.nh, r, o);
    FramesGrow(c.objs, c.nh, objs, c.nh, c.k);
    EnvGrows(c.objs, c.nh, objs, c.nh, env);
    ValGrows(c.objs, c.nh, objs, c.nh, w);
    BindGood(c.(objs := objs), x, t, env, w);
  }

  lemma NewRefGood(c: L.Config, x: string, t: L.Stmt, env: L.Env, ws: seq<L.Val>)
    requires Good(c) && GoodEnv(c.objs, c.nh, env) && GoodVals(c.objs, c.nh, ws)
    ensures Good(L.BindTo(c.(objs := c.objs + [L.Record(ws)]), x, t, env, L.RefV(|c.objs|)))
  {
    var o := L.Record(ws);
    var objs := c.objs + [o];
    assert Grown(c.objs, c.nh, objs, c.nh);
    assert GoodVal(objs, c.nh, L.RefV(|c.objs|));
    hide GoodVal, GoodEnv, GoodFrames, GoodObjs, Good, Grown, GoodVals;
    Parts(c);
    ValsGrow(c.objs, c.nh, objs, c.nh, ws);
    Appended(c.objs, c.nh, c.nh, o);
    FramesGrow(c.objs, c.nh, objs, c.nh, c.k);
    EnvGrows(c.objs, c.nh, objs, c.nh, env);
    BindGood(c.(objs := objs), x, t, env, L.RefV(|c.objs|));
  }

  /** Frames that stand on the continuation when a function is entered. */
  lemma EnterGood(p: L.Program, c: L.Config, k: seq<L.Frame>, objs: seq<L.Obj>, nh: nat, f: string, args: seq<L.Val>)
    requires GoodFrames(objs, nh, k) && GoodObjs(objs, nh) && L.Enter(p, f, args).Some? && GoodVals(objs, nh, args)
    ensures Good(L.Config(L.Enter(p, f, args).value, k, objs, nh))
  {
    hide GoodFrames, GoodObjs, GoodVals, L.Enter;
    GoodEntry(p, f, objs, nh, args);
  }

  lemma LabelGood(objs: seq<L.Obj>, nh: nat, e: L.Val)
    requires GoodVal(objs, nh, e)
    ensures GoodVals(objs, nh + 1, [e, L.LabV(nh)])
  {
    assert Grown(objs, nh, objs, nh + 1);
    ValGrows(objs, nh, objs, nh + 1, e);
  }

  lemma HandleNewGood(p: L.Program, c: L.Config, x: string, t: L.Stmt, env: L.Env, body: string, op: string,
                      under: L.Value)
    requires Good(c) && GoodEnv(c.objs, c.nh, env) && L.StepHandleNew(p, c, x, t, env, body, op, under).Some?
    ensures Good(L.StepHandleNew(p, c, x, t, env, body, op, under).value)
  {
    var e, objs := L.EvalV(env, under).value, c.objs + [L.Segment];
    var f, h := L.LetK(x, t, env), L.NewK(c.nh, op, e);
    hide GoodEnv, GoodFrames, GoodObjs, Good, Grown, GoodVals, GoodVal, L.Enter;
    Parts(c);
    GoodValue(c.objs, c.nh, env, under);
    Appended(c.objs, c.nh, c.nh + 1, L.Segment);
    Appended(c.objs, c.nh, c.nh, L.Segment);
    FramesGrow(c.objs, c.nh, objs, c.nh + 1, c.k);
    EnvGrows(c.objs, c.nh, objs, c.nh + 1, env);
    ValGrows(c.objs, c.nh, objs, c.nh + 1, e);
    ValGrows(c.objs, c.nh, objs, c.nh, e);
    LabelGood(objs, c.nh, e);
    FrameOn(objs, c.nh + 1, c.k, f);
    FrameOn(objs, c.nh + 1, c.k + [f], h);
    assert c.k + [f] + [h] == c.k + [f, h];
    EnterGood(p, c, c.k + [f, h], objs, c.nh + 1, body, [e, L.LabV(c.nh)]);
  }

  lemma HandleSameGood(p: L.Program, c: L.Config, x: string, t: L.Stmt, env: L.Env, body: string, op: string,
                       under: L.Value)
    requires Good(c) && GoodEnv(c.objs, c.nh, env) && L.StepHandleSame(p, c, x, t, env, body, op, under).Some?
    ensures Good(L.StepHandleSame(p, c, x, t, env, body, op, under).value)
  {
    var e := L.EvalV(env, under).value;
    var f, h := L.LetK(x, t, env), L.SameK(c.nh, op, e);
    assert Grown(c.objs, c.nh, c.objs, c.nh + 1);
    hide GoodEnv, GoodFrames, Good, Grown, GoodVals, GoodVal, L.Enter, GoodObj;
    Parts(c);
    GoodValue(c.objs, c.nh, env, under);
    forall i | 0 <= i < |c.objs|
      ensures GoodObj(c.objs, c.nh + 1, c.objs[i])
    {
      ObjGrows(c.objs, c.nh, c.objs, c.nh + 1, c.objs[i]);
    }
    FramesGrow(c.objs, c.nh, c.objs, c.nh + 1, c.k);
    EnvGrows(c.objs, c.nh, c.objs, c.nh + 1, env);
    ValGrows(c.objs, c.nh, c.objs, c.nh + 1, e);
    LabelGood(c.objs, c.nh, e);
    FrameOn(c.objs, c.nh + 1, c.k, f);
    FrameOn(c.objs, c.nh + 1, c.k + [f], h);
    assert c.k + [f] + [h] == c.k + [f, h];
    EnterGood(p, c, c.k + [f, h], c.objs, c.nh + 1, body, [e, L.LabV(c.nh)]);
  }

  lemma HandlerGood(objs: seq<L.Obj>, nh: nat, k: seq<L.Frame>, i: nat)
    requires GoodFrames(objs, nh, k) && i < |k| && !k[i].LetK?
    ensures GoodVal(objs, nh, k[i].e) && GoodFrames(objs, nh, k[..i]) && GoodFrames(objs, nh, k[i..])
  {
    hide GoodVal;
    assert GoodFrame(objs, nh, k[i]);
  }

  lemma TailRaiseGood(p: L.Program, c: L.Config, x: string, t: L.Stmt, env: L.Env, lab: L.Value, arg: L.Value)
    requires Good(c) && GoodEnv(c.objs, c.nh, env) && L.StepTailRaise(p, c, x, t, env, lab, arg).Some?
    ensures Good(L.StepTailRaise(p, c, x, t, env, lab, arg).value)
  {
    var f := L.LetK(x, t, env);
    var i := L.FindHandler(c.k, L.EvalV(env, lab).value.h).value;
    hide GoodEnv, GoodFrames, GoodObjs, Good, GoodVal, L.Enter;
    Parts(c);
    GoodValue(c.objs, c.nh, env, arg);
    HandlerGood(c.objs, c.nh, c.k, i);
    FrameOn(c.objs, c.nh, c.k, f);
    EnterGood(p, c, c.k + [f], c.objs, c.nh, c.k[i].op, [c.k[i].e, L.EvalV(env, arg).value]);
  }

  lemma AbortRaiseGood(p: L.Program, c: L.Config, env: L.Env, lab: L.Value, arg: L.Value)
    requires Good(c) && GoodEnv(c.objs, c.nh, env) && L.StepAbortRaise(p, c, env, lab, arg).Some?
    ensures Good(L.StepAbortRaise(p, c, env, lab, arg).value)
  {
    var i := L.FindHandler(c.k, L.EvalV(env, lab).value.h).value;
    hide GoodEnv, GoodFrames, GoodObjs, Good, GoodVal, L.Enter;
    Parts(c);
    GoodValue(c.objs, c.nh, env, arg);
    HandlerGood(c.objs, c.nh, c.k, i);
    EnterGood(p, c, c.k[..i], c.objs, c.nh, c.k[i].op, [c.k[i].e, L.EvalV(env, arg).value]);
  }

  lemma RaiseGood(p: L.Program, c: L.Config, x: string, t: L.Stmt, env: L.Env, lab: L.Value, arg: L.Value)
    requires Good(c) && GoodEnv(c.objs, c.nh, env) && L.StepRaise(p, c, x, t, env, lab, arg).Some?
    ensures Good(L.StepRaise(p, c, x, t, env, lab, arg).value)
  {
    var f, a := L.LetK(x, t, env), L.EvalV(env, arg).value;
    var i := L.FindHandler(c.k, L.EvalV(env, lab).value.h).value;
    var o := L.Captured(c.k[i..] + [f]);
    var objs := c.objs + [o];
    assert Grown(c.objs, c.nh, objs, c.nh);
    assert GoodVal(objs, c.nh, L.ContV(|c.objs|));
    hide GoodEnv, GoodFrames, GoodObjs, Good, GoodVal, L.Enter, Grown;
    Parts(c);
    GoodValue(c.objs, c.nh, env, arg);
    HandlerGood(c.objs, c.nh, c.k, i);
    FrameOn(c.objs, c.nh, c.k[i..], f);
    FramesGrow(c.objs, c.nh, objs, c.nh, c.k[i..] + [f]);
    Appended(c.objs, c.nh, c.nh, o);
    FramesGrow(c.objs, c.nh, objs, c.nh, c.k[..i]);
    ValGrows(c.objs, c.nh, objs, c.nh, c.k[i].e);
    ValGrows(c.objs, c.nh, objs, c.nh, a);
    EnterGood(p, c, c.k[..i], objs, c.nh, c.k[i].op, [c.k[i].e, a, L.ContV(|c.objs|)]);
  }

  lemma FramesJoin(objs: seq<L.Obj>, nh: nat, k: seq<L.Frame>, l: seq<L.Frame>)
    requires GoodFrames(objs, nh, k) && GoodFrames(objs, nh, l)
    ensures GoodFrames(objs, nh, k + l)
  {
    hide GoodFrame;
  }

  lemma ResumeGood(c: L.Config, x: string, t: L.Stmt, env: L.Env, k: L.Value, arg: L.Value)
    requires Good(c) && GoodEnv(c.objs, c.nh, env) && L.StepResume(c, x, t, env, k, arg).Some?
    ensures Good(L.StepResume(c, x, t, env, k, arg).value)
  {
    var f, a, r := L.LetK(x, t, env), L.EvalV(env, arg).value, L.EvalV(env, k).value.loc;
    var objs := c.objs[r := L.Spent];
    assert GoodObj(c.objs, c.nh, c.objs[r]) && GoodFrames(c.objs, c.nh, c.objs[r].k);
    hide GoodEnv, GoodFrames, GoodObjs, GoodVal, Grown;
    Parts(c);
    GoodValue(c.objs, c.nh, env, arg);
    Replaced(c.objs, c.nh, r, L.Spent);
    FrameOn(c.objs, c.nh, c.k, f);
    FramesJoin(c.objs, c.nh, c.k + [f], c.objs[r].k);
    FramesGrow(c.objs, c.nh, objs, c.nh, c.k + [f] + c.objs[r].k);
    ValGrows(c.objs, c.nh, objs, c.nh, a);
  }

  lemma ReturnGood(c: L.Config, v: L.Val)
    requires Good(c) && GoodVal(c.objs, c.nh, v)
    ensures Good(L.StepReturn(c, v))
  {
    hide GoodVal, GoodObjs;
    if c.k != [] {
      assert GoodFrame(c.objs, c.nh, c.k[|c.k| - 1]);
    }
  }

  lemma LetGood(p: L.Program, c: L.Config, x: string, rhs: L.Rhs, t: L.Stmt, env: L.Env)
    requires Good(c) && GoodEnv(c.objs, c.nh, env) && L.StepLet(p, c, x, rhs, t, env).Some?
    ensures Good(L.StepLet(p, c, x, rhs, t, env).value)
  {
    hide GoodEnv, GoodFrames, GoodObjs, Good, GoodVals;
    match rhs
    case Plus(v1, v2) => Parts(c); BindGood(c, x, t, env, L.IntV(L.EvalV(env, v1).value.n + L.EvalV(env, v2).value.n));
    case CallFn(f, args) => GoodValue(c.objs, c.nh, env, f);
    case NewRef(vs) => GoodValues(c.objs, c.nh, env, vs); NewRefGood(c, x, t, env, L.EvalVs(env, vs).value);
    case Select(v, i) => SelectGood(c, x, t, env, v, i);
    case Update(a, i, v) => UpdateGood(c, x, t, env, a, i, v);
    case HandleNew(body, _, op, under) => HandleNewGood(p, c, x, t, env, body, op, under);
    case HandleSame(body, _, op, under) => HandleSameGood(p, c, x, t, env, body, op, under);
    case Raise(lab, arg) => RaiseGood(p, c, x, t, env, lab, arg);
    case TailRaise(lab, arg) => TailRaiseGood(p, c, x, t, env, lab, arg);
    case AbortRaise(lab, arg) => AbortRaiseGood(p, c, env, lab, arg);
    case Resume(k, arg) => ResumeGood(c, x, t, env, k, arg);
    case Atom(v) => Parts(c); GoodValue(c.objs, c.nh, env, v); BindGood(c, x, t, env, L.EvalV(env, v).value);
    case Exits(v) => ExitsGood(c, env, v);
  }

  lemma ExitsGood(c: L.Config, env: L.Env, v: L.Value)
    requires Good(c) && GoodEnv(c.objs, c.nh, env) && L.EvalV(env, v).Some?
    ensures Good(c.(ctl := L.Out(L.EvalV(env, v).value)))
  {
    GoodValue(c.objs, c.nh, env, v);
    hide GoodVal, GoodEnv;
  }

  lemma StepGood(p: L.Program, c: L.Config)
    requires Good(c) && L.Step(p, c).Some?
    ensures Good(L.Step(p, c).value)
  {
    hide GoodEnv, GoodFrames, GoodObjs, L.StepLet, L.StepReturn, GoodVal;
    match c.ctl
    case Ev(Let(x, rhs, t), env) => LetGood(p, c, x, rhs, t, env);
    case Ev(Ret(v), env) => GoodValue(c.objs, c.nh, env, v);
    case Re(v) => ReturnGood(c, v);
    case _ =>
  }

  /** In every reachable configuration references denote records, resumptions are captured or spent, and
      handler labels were given out. */
  lemma {:induction false} NothingDangles(p: L.Program, n: nat)
    requires L.Run(p, n).Some?
    ensures Good(L.Run(p, n).value)
  {
    hide L.Step;
    if n > 0 {
      NothingDangles(p, n - 1);
      StepGood(p, L.Run(p, n - 1).value);
    } else {
      StartGood(p);
    }
  }

  lemma StartGood(p: L.Program)
    ensures L.Start(p).Some? ==> Good(L.Start(p).value)
  {
  }
}
