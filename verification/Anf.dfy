/**
  Conversion to A-normal form (casestudies/anf/anf.lx). The converter is written in direct style:
  where it needs a name for an intermediate result it raises bind, and the handler wraps what the
  resumption returns in a let. The model runs it on an abstract machine whose frames a raise
  captures, and proves that the result means what the tree means.
 */
module Anf {
  import opened Options

  type Name = int

  datatype Tree = Lit(n: int) | Var(x: Name) | Let(x: Name, bound: Tree, body: Tree) | App(f: Name, arg: Tree)

  datatype Expr = CLit(n: int) | CVar(x: Name)

  datatype Stmt = CLet(x: Name, bound: Stmt, body: Stmt) | CApp(f: Name, e: Expr) | CRet(e: Expr)

  // ----- the converter, running -----

  /** What waits for a result, innermost first: bind_here's handler; its clause, for the rest that
      the resumption returns; and the places in traverse. */
  datatype Frame =
    | Handler
    | Rest(id: Name, e: Stmt)
    | RaiseBind(f: Name)
    | Apply(f: Name)
    | LetBound(x: Name, body: Tree)
    | LetBody(x: Name, bound: Stmt)

  datatype Focus = Traverse(t: Tree) | Returned(s: Stmt) | Bound(e: Expr)

  /** Counter is the reference that fresh_vars updates. */
  datatype State = State(focus: Focus, frames: seq<Frame>, counter: int)

  const FIRST := 64

  function HandlerAt(frames: seq<Frame>): (i: Option<nat>)
    ensures i.Some? ==> i.value < |frames| && frames[i.value] == Handler && forall j :: 0 <= j < i.value ==>
              frames[j] != Handler
  {
    if frames == [] then None else if frames[0] == Handler then Some(0) else
    match HandlerAt(frames[1..])
    case None => None
    case Some(i) => Some(i + 1)
  }

  /** raise bind(e), from a call of f: the frames up to the handler are the resumption. */
  function RaiseOfBind(s: State, f: Name, e: Stmt, frames: seq<Frame>): Option<State>
  {
    match HandlerAt(frames)
    case None => None
    case Some(i) =>
      var id := s.counter + 1;
      Some(State(Bound(CVar(id)), [Apply(f)] + frames[..i + 1] + [Rest(id, e)] + frames[i + 1..], id))
  }

  function Step(s: State): Option<State>
  {
    match s.focus
    case Traverse(Lit(n)) => Some(s.(focus := Returned(CRet(CLit(n)))))
    case Traverse(Var(x)) => Some(s.(focus := Returned(CRet(CVar(x)))))
    case Traverse(App(f, arg)) => Some(s.(focus := Traverse(arg), frames := [RaiseBind(f)] + s.frames))
    case Traverse(Let(x, b, body)) => Some(s.(focus := Traverse(b), frames := [Handler, LetBound(x, body)] + s.frames))
    case Bound(e) =>
      if s.frames != [] && s.frames[0].Apply?
          then Some(s.(focus := Returned(CApp(s.frames[0].f, e)), frames := s.frames[1..])) else None
    case Returned(r) =>
      if s.frames == [] then None else
      match s.frames[0]
      case Handler => Some(s.(frames := s.frames[1..]))
      case Rest(id, e) => Some(s.(focus := Returned(CLet(id, e, r)), frames := s.frames[1..]))
      case RaiseBind(f) => RaiseOfBind(s, f, r, s.frames[1..])
      case Apply(_) => None
      case LetBound(x, body) => Some(s.(focus := Traverse(body), frames := [Handler, LetBody(x, r)] + s.frames[1..]))
      case LetBody(x, b) => Some(s.(focus := Returned(CLet(x, b, r)), frames := s.frames[1..]))
  }

  function Run(s: State, n: nat): Option<State>
    decreases n
  {
    if n == 0 then Some(s) else
    match Step(s)
    case None => None
    case Some(s') => Run(s', n - 1)
  }

  ghost predicate Reaches(s: State, s': State)
  {
    exists n :: Run(s, n) == Some(s')
  }

  /** fresh_vars of bind_here of traverse. */
  function Start(t: Tree): State
  {
    State(Traverse(t), [Handler], FIRST)
  }

  // ----- what it computes -----

  /** What traverse(t) returns when all its binds have been answered: the last statement. */
  function Last(t: Tree, i: int): Stmt
    decreases t, 0
  {
    match t
    case Lit(n) => CRet(CLit(n))
    case Var(x) => CRet(CVar(x))
    case App(f, arg) => CApp(f, CVar(i + Fresh(t)))
    case Let(x, b, body) => CLet(x, Convert(b, i), Convert(body, i + Fresh(b)))
  }

  /** The clauses of bind that then wait for the rest, the last one first. */
  function Waiting(t: Tree, i: int): seq<Frame>
    decreases t, 0
  {
    match t
    case App(f, arg) => [Rest(i + Fresh(t), Last(arg, i))] + Waiting(arg, i)
    case _ => []
  }

  function Fresh(t: Tree): nat
  {
    match t
    case App(_, arg) => Fresh(arg) + 1
    case Let(_, b, body) => Fresh(b) + Fresh(body)
    case _ => 0
  }

  function Wrap(s: Stmt, waiting: seq<Frame>): Stmt
    decreases |waiting|
  {
    if waiting == [] then s
    else if waiting[0].Rest? then Wrap(CLet(waiting[0].id, waiting[0].e, s), waiting[1..])
    else s
  }

  function Convert(t: Tree, i: int): Stmt
    decreases t, 1
  {
    Wrap(Last(t, i), Waiting(t, i))
  }

  lemma {:induction false} RunOn(s: State, n: nat, k: nat)
    ensures Run(s, n + k) == match Run(s, n) case None => None case Some(s') => Run(s', k)
    decreases n
  {
    if n > 0 && Step(s).Some? {
      RunOn(Step(s).value, n - 1, k);
    }
  }

  lemma Reach(s: State, s': State, s'': State)
    requires Reaches(s, s') && Reaches(s', s'')
    ensures Reaches(s, s'')
  {
    var n :| Run(s, n) == Some(s');
    var k :| Run(s', k) == Some(s'');
    RunOn(s, n, k);
  }

  lemma ReachStep(s: State)
    requires Step(s).Some?
    ensures Reaches(s, Step(s).value)
  {
    assert Run(Step(s).value, 0) == Some(Step(s).value);
    assert Run(s, 1) == Step(s);
  }

  predicate NoHandler(fs: seq<Frame>)
  {
    forall j :: 0 <= j < |fs| ==> fs[j] != Handler
  }

  lemma {:induction false} HandlerAfter(k: seq<Frame>, r: seq<Frame>)
    requires NoHandler(k)
    ensures HandlerAt(k + [Handler] + r) == Some(|k|)
  {
    if k != [] {
      assert (k + [Handler] + r)[1..] == k[1..] + [Handler] + r;
      HandlerAfter(k[1..], r);
    }
  }

  predicate AllRest(w: seq<Frame>)
  {
    forall j :: 0 <= j < |w| ==> w[j].Rest?
  }

  lemma {:induction false} WaitingIsRest(t: Tree, i: int)
    ensures AllRest(Waiting(t, i))
  {
    if t.App? {
      WaitingIsRest(t.arg, i);
    }
  }

  /** The clauses of bind finish one after the other. */
  lemma {:induction false} Unwind(s: Stmt, w: seq<Frame>, r: seq<Frame>, c: int)
    requires AllRest(w)
    ensures Reaches(State(Returned(s), w + r, c), State(Returned(Wrap(s, w)), r, c))
    decreases |w|
  {
    var from := State(Returned(s), w + r, c);
    if w == [] {
      assert w + r == r;
      assert Run(from, 0) == Some(from);
    } else {
      var s' := CLet(w[0].id, w[0].e, s);
      assert (w + r)[1..] == w[1..] + r;
      ReachStep(from);
      Unwind(s', w[1..], r, c);
      Reach(from, State(Returned(s'), w[1..] + r, c), State(Returned(Wrap(s, w)), r, c));
    }
  }

  /** traverse under frames k, below which lies the handler of its binds. */
  lemma {:induction false} Traversal(t: Tree, k: seq<Frame>, r: seq<Frame>, i: int)
    requires NoHandler(k)
    ensures Reaches(State(Traverse(t), k + [Handler] + r, i),
                    State(Returned(Last(t, i)), k + [Handler] + Waiting(t, i) + r, i + Fresh(t)))
    decreases t, 0
  {
    var from := State(Traverse(t), k + [Handler] + r, i);
    var to := State(Returned(Last(t, i)), k + [Handler] + Waiting(t, i) + r, i + Fresh(t));
    ReachStep(from);
    match t
    case App(f, arg) =>
      TraversalOfArg(f, arg, k, r, i);
      assert Step(from).value.frames == [RaiseBind(f)] + k + [Handler] + r;
      Reach(from, Step(from).value, to);
    case Let(x, b, body) =>
      var below := k + [Handler] + r;
      var mid1 := State(Returned(Convert(b, i)), [LetBound(x, body)] + below, i + Fresh(b));
      assert Step(from).value.frames == [Handler] + ([LetBound(x, body)] + below);
      Converts(b, [LetBound(x, body)] + below, i);
      Reach(from, Step(from).value, mid1);
      var s1, i1 := Convert(b, i), i + Fresh(b);
      ReachStep(mid1);
      Reach(from, mid1, Step(mid1).value);
      assert Step(mid1).value.frames == [Handler] + ([LetBody(x, s1)] + below);
      Converts(body, [LetBody(x, s1)] + below, i1);
      var mid2 := State(Returned(Convert(body, i1)), [LetBody(x, s1)] + below, i1 + Fresh(body));
      Reach(from, Step(mid1).value, mid2);
      ReachStep(mid2);
      Reach(from, mid2, Step(mid2).value);
      assert k + [Handler] + [] + r == below;
    case _ =>
      assert k + [Handler] + [] + r == k + [Handler] + r;
  }

  /** A bind is raised under frames k: they wait, up to the handler, for the new name. */
  lemma BindRaised(f: Name, s: Stmt, k: seq<Frame>, r: seq<Frame>, c: int)
    requires NoHandler(k)
    ensures Reaches(State(Returned(s), [RaiseBind(f)] + (k + [Handler] + r), c),
                    State(Returned(CApp(f, CVar(c + 1))), k + [Handler] + [Rest(c + 1, s)] + r, c + 1))
  {
    var frames := k + [Handler] + r;
    var raising := State(Returned(s), [RaiseBind(f)] + frames, c);
    var below := k + [Handler] + [Rest(c + 1, s)] + r;
    var applying := State(Bound(CVar(c + 1)), [Apply(f)] + below, c + 1);
    HandlerAfter(k, r);
    assert raising.frames[1..] == frames && frames[..|k| + 1] == k + [Handler] && frames[|k| + 1..] == r;
    assert [Apply(f)] + (k + [Handler]) + [Rest(c + 1, s)] + r == [Apply(f)] + below;
    assert Step(raising) == Some(applying);
    ReachStep(raising);
    assert applying.frames[1..] == below;
    ReachStep(applying);
    Reach(raising, applying, Step(applying).value);
  }

  /** The argument of a call, and the bind that is raised with it. */
  lemma {:induction false} TraversalOfArg(f: Name, arg: Tree, k: seq<Frame>, r: seq<Frame>, i: int)
    requires NoHandler(k)
    ensures Reaches(State(Traverse(arg), [RaiseBind(f)] + k + [Handler] + r, i),
                    State(Returned(Last(App(f, arg), i)), k + [Handler] + Waiting(App(f, arg), i) + r,
                          i + Fresh(App(f, arg))))
    decreases arg, 1
  {
    var w, c, s := Waiting(arg, i), i + Fresh(arg), Last(arg, i);
    Traversal(arg, [RaiseBind(f)] + k, r, i);
    BindRaised(f, s, k, w + r, c);
    hide Reaches, NoHandler, Last, Convert;
    FramesJoin([RaiseBind(f)], k, w, r);
    RestJoins(k, Rest(c + 1, s), w, r);
    assert Waiting(App(f, arg), i) == [Rest(c + 1, s)] + w;
    hide Waiting;
    Reach(State(Traverse(arg), [RaiseBind(f)] + k + [Handler] + r, i),
          State(Returned(s), [RaiseBind(f)] + (k + [Handler] + (w + r)), c),
          State(Returned(CApp(f, CVar(c + 1))), k + [Handler] + [Rest(c + 1, s)] + (w + r), c + 1));
  }

  lemma RestJoins(k: seq<Frame>, f: Frame, w: seq<Frame>, r: seq<Frame>)
    ensures k + [Handler] + [f] + (w + r) == k + [Handler] + ([f] + w) + r
  {
  }

  lemma FramesJoin(a: seq<Frame>, k: seq<Frame>, w: seq<Frame>, r: seq<Frame>)
    ensures a + k + [Handler] + w + r == a + (k + [Handler] + (w + r))
  {
  }

  /** bind_here of traverse runs to the end and gives the converted statement. */
  lemma {:induction false} Converts(t: Tree, r: seq<Frame>, i: int)
    ensures Reaches(State(Traverse(t), [Handler] + r, i), State(Returned(Convert(t, i)), r, i + Fresh(t)))
    decreases t, 1
  {
    var w, c := Waiting(t, i), i + Fresh(t);
    var from := State(Traverse(t), [Handler] + r, i);
    Traversal(t, [], r, i);
    assert [] + [Handler] + r == [Handler] + r && [] + [Handler] + w + r == [Handler] + (w + r);
    var done := State(Returned(Last(t, i)), [Handler] + (w + r), c);
    assert Reaches(from, done);
    ReachStep(done);
    assert Step(done).value.frames == w + r;
    Reach(from, done, Step(done).value);
    WaitingIsRest(t, i);
    Unwind(Last(t, i), w, r, c);
    Reach(from, Step(done).value, State(Returned(Convert(t, i)), r, c));
  }

  // ----- what trees and statements mean -----

  type Env = map<Name, int>

  datatype Call = Call(f: Name, arg: int)

  /** The value, and the calls made in order. None: a name is not bound. */
  datatype Meaning = Meaning(v: Option<int>, calls: seq<Call>)

  function Bind(m: Meaning, next: int -> Meaning): Meaning
  {
    match m.v
    case None => m
    case Some(v) => Meaning(next(v).v, m.calls + next(v).calls)
  }

  /** Functions are named apart from variables and may do anything; fun gives their results. */
  function CallOf(fun: (Name, int) -> int, f: Name, v: int): Meaning
  {
    Meaning(Some(fun(f, v)), [Call(f, v)])
  }

  function OfTree(fun: (Name, int) -> int, t: Tree, env: Env): Meaning
  {
    match t
    case Lit(n) => Meaning(Some(n), [])
    case Var(x) => Meaning(if x in env then Some(env[x]) else None, [])
    case App(f, arg) => Bind(OfTree(fun, arg, env), v => CallOf(fun, f, v))
    case Let(x, b, body) => Bind(OfTree(fun, b, env), v => OfTree(fun, body, env[x := v]))
  }

  function OfExpr(e: Expr, env: Env): Meaning
  {
    match e
    case CLit(n) => Meaning(Some(n), [])
    case CVar(x) => Meaning(if x in env then Some(env[x]) else None, [])
  }

  function OfStmt(fun: (Name, int) -> int, s: Stmt, env: Env): Meaning
  {
    match s
    case CRet(e) => OfExpr(e, env)
    case CApp(f, e) => Bind(OfExpr(e, env), v => CallOf(fun, f, v))
    case CLet(x, b, body) => Bind(OfStmt(fun, b, env), v => OfStmt(fun, body, env[x := v]))
  }

  lemma BindAssociates(m: Meaning, g: int -> Meaning, h: int -> Meaning)
    ensures Bind(Bind(m, g), h) == Bind(m, v => Bind(g(v), h))
  {
    if m.v.Some? && g(m.v.value).v.Some? {
      Associate(m.calls, g(m.v.value).calls, h(g(m.v.value).v.value).calls);
    }
  }

  /** With a value for id, s means what g makes of it; no other name counts. */
  ghost predicate LooksAt(fun: (Name, int) -> int, s: Stmt, id: Name, g: int -> Meaning)
  {
    forall e: Env :: id in e ==> OfStmt(fun, s, e) == g(e[id])
  }

  /** Binding the converted argument to id and going on with s, which may look at id only: whatever
      other names the converter has put in scope by then make no difference. */
  lemma {:induction false} ChainMeans(fun: (Name, int) -> int, arg: Tree, i: int, id: Name, s: Stmt, g: int -> Meaning,
                                      env: Env)
    requires LooksAt(fun, s, id, g)
    ensures OfStmt(fun, Wrap(CLet(id, Last(arg, i), s), Waiting(arg, i)), env) == Bind(OfTree(fun, arg, env), g)
    decreases arg, 1
  {
    match arg
    case App(f, arg2) =>
      var id2 := i + Fresh(arg);
      var s2 := CLet(id, CApp(f, CVar(id2)), s);
      var g2 := v => Bind(CallOf(fun, f, v), g);
      forall e: Env | id2 in e
        ensures OfStmt(fun, s2, e) == g2(e[id2])
      {
        assert OfStmt(fun, CApp(f, CVar(id2)), e) == CallOf(fun, f, e[id2]);
      }
      ChainMeans(fun, arg2, i, id2, s2, g2, env);
      BindAssociates(OfTree(fun, arg2, env), v => CallOf(fun, f, v), g);
      assert Waiting(arg, i)[1..] == Waiting(arg2, i);
    case _ =>
      LastMeans(fun, arg, i, env);
  }

  lemma {:induction false} LastMeans(fun: (Name, int) -> int, t: Tree, i: int, env: Env)
    requires !t.App?
    ensures OfStmt(fun, Last(t, i), env) == OfTree(fun, t, env)
    decreases t, 0
  {
    match t
    case Let(x, b, body) =>
      ConvertMeans(fun, b, i, env);
      forall e: Env
        ensures OfStmt(fun, Convert(body, i + Fresh(b)), e) == OfTree(fun, body, e)
      {
        ConvertMeans(fun, body, i + Fresh(b), e);
      }
    case _ =>
  }

  /** The statement has the value of the tree and makes the same calls, with the same arguments, in
      the same order; whichever names the source uses, and wherever the counter starts. */
  lemma {:induction false} ConvertMeans(fun: (Name, int) -> int, t: Tree, i: int, env: Env)
    ensures OfStmt(fun, Convert(t, i), env) == OfTree(fun, t, env)
    decreases t, 2
  {
    match t
    case App(f, arg) =>
      var id := i + Fresh(t);
      var s := CApp(f, CVar(id));
      var g := v => CallOf(fun, f, v);
      assert LooksAt(fun, s, id, g);
      ChainMeans(fun, arg, i, id, s, g, env);
      assert Waiting(t, i)[1..] == Waiting(arg, i);
    case _ =>
      LastMeans(fun, t, i, env);
  }

  /** The whole conversion: it ends, and preserves the meaning; the first name that bind takes is 65. */
  lemma ConversionPreservesMeaning(t: Tree) returns (s: Stmt)
    ensures s == Convert(t, 64) && Reaches(Start(t), State(Returned(s), [], 64 + Fresh(t)))
    ensures forall fun: (Name, int) -> int, env: Env :: OfStmt(fun, s, env) == OfTree(fun, t, env)
  {
    s := Convert(t, FIRST);
    assert [Handler] + [] == [Handler];
    Converts(t, [], FIRST);
    forall fun: (Name, int) -> int, env: Env
      ensures OfStmt(fun, s, env) == OfTree(fun, t, env)
    {
      ConvertMeans(fun, t, FIRST, env);
    }
  }

  // ----- the names that bind introduces -----

  function One(b: bool): nat
  {
    if b then 1 else 0
  }

  /** How many lets of the tree, of a statement, and of waiting clauses bind x. */
  function InTree(t: Tree, x: Name): nat
  {
    match t
    case App(_, arg) => InTree(arg, x)
    case Let(y, b, body) => One(x == y) + InTree(b, x) + InTree(body, x)
    case _ => 0
  }

  function InStmt(s: Stmt, x: Name): nat
  {
    match s
    case CLet(y, b, body) => One(x == y) + InStmt(b, x) + InStmt(body, x)
    case _ => 0
  }

  function InWaiting(w: seq<Frame>, x: Name): nat
    decreases |w|
  {
    if w == [] then 0 else (if w[0].Rest? then One(x == w[0].id) + InStmt(w[0].e, x) else 0) + InWaiting(w[1..], x)
  }

  lemma {:induction false} WrapNames(s: Stmt, w: seq<Frame>, x: Name)
    requires AllRest(w)
    ensures InStmt(Wrap(s, w), x) == InStmt(s, x) + InWaiting(w, x)
    decreases |w|
  {
    if w != [] {
      WrapNames(CLet(w[0].id, w[0].e, s), w[1..], x);
    }
  }

  lemma {:induction false} ChainNames(t: Tree, i: int, x: Name)
    ensures InStmt(Last(t, i), x) + InWaiting(Waiting(t, i), x) == InTree(t, x) + One(i < x <= i + Fresh(t))
    decreases t, 0
  {
    match t
    case App(f, arg) =>
      assert Waiting(t, i)[1..] == Waiting(arg, i);
      ChainNames(arg, i, x);
    case Let(y, b, body) =>
      ConvertNames(b, i, x);
      ConvertNames(body, i + Fresh(b), x);
    case _ =>
  }

  /** Every let of the source is kept, and the names that bind takes, which count up from the
      counter, are each bound once. */
  lemma {:induction false} ConvertNames(t: Tree, i: int, x: Name)
    ensures InStmt(Convert(t, i), x) == InTree(t, x) + One(i < x <= i + Fresh(t))
    decreases t, 1
  {
    WaitingIsRest(t, i);
    WrapNames(Last(t, i), Waiting(t, i), x);
    ChainNames(t, i, x);
  }

  // ----- in which order -----

  /** A let of the source, or one that bind makes. */
  datatype Mark = Source(x: Name) | New(x: Name)

  /** The names of a statement in the order in which running it binds them. */
  function BoundInOrder(s: Stmt): seq<Name>
  {
    match s
    case CLet(x, b, body) => BoundInOrder(b) + [x] + BoundInOrder(body)
    case _ => []
  }

  function Marks(t: Tree, i: int): seq<Mark>
  {
    match t
    case App(_, arg) => Marks(arg, i) + [New(i + Fresh(t))]
    case Let(x, b, body) => Marks(b, i) + [Source(x)] + Marks(body, i + Fresh(b))
    case _ => []
  }

  function Names(ms: seq<Mark>): (ns: seq<Name>)
    ensures |ns| == |ms| && forall j :: 0 <= j < |ns| ==> ns[j] == ms[j].x
  {
    seq(|ms|, j requires 0 <= j < |ms| => ms[j].x)
  }

  function News(ms: seq<Mark>): seq<Name>
  {
    if ms == [] then [] else News(ms[..|ms| - 1]) + (if ms[|ms| - 1].New? then [ms[|ms| - 1].x] else [])
  }

  /** i + 1 up to i + n. */
  function UpFrom(i: int, n: nat): (ns: seq<Name>)
    ensures |ns| == n && forall j :: 0 <= j < n ==> ns[j] == i + 1 + j
  {
    seq(n, j => i + 1 + j)
  }

  function WaitingOrder(w: seq<Frame>): seq<Name>
    decreases |w|
  {
    if w == [] then [] else WaitingOrder(w[1..]) + (if w[0].Rest? then BoundInOrder(w[0].e) + [w[0].id] else [])
  }

  lemma {:induction false} WrapOrder(s: Stmt, w: seq<Frame>)
    requires AllRest(w)
    ensures BoundInOrder(Wrap(s, w)) == WaitingOrder(w) + BoundInOrder(s)
    decreases |w|
  {
    if w != [] {
      WrapOrder(CLet(w[0].id, w[0].e, s), w[1..]);
      Associate(WaitingOrder(w[1..]), BoundInOrder(w[0].e) + [w[0].id], BoundInOrder(s));
    }
  }

  lemma {:induction false} ChainOrder(t: Tree, i: int)
    ensures WaitingOrder(Waiting(t, i)) + BoundInOrder(Last(t, i)) == Names(Marks(t, i))
    decreases t, 0
  {
    match t
    case App(f, arg) =>
      var w := Waiting(t, i);
      assert w[1..] == Waiting(arg, i) && w[0] == Rest(i + Fresh(t), Last(arg, i)) && BoundInOrder(Last(t, i)) == [];
      assert WaitingOrder(w) == WaitingOrder(Waiting(arg, i)) + (BoundInOrder(Last(arg, i)) + [i + Fresh(t)]);
      ChainOrder(arg, i);
      hide WaitingOrder, BoundInOrder, Waiting, Last;
      Associate(WaitingOrder(Waiting(arg, i)), BoundInOrder(Last(arg, i)), [i + Fresh(t)]);
    case Let(x, b, body) =>
      ConvertOrder(b, i);
      ConvertOrder(body, i + Fresh(b));
    case _ =>
  }

  /** Running the statement binds the names of the source's lets and those of bind in this order. */
  lemma {:induction false} ConvertOrder(t: Tree, i: int)
    ensures BoundInOrder(Convert(t, i)) == Names(Marks(t, i))
    decreases t, 1
  {
    WaitingIsRest(t, i);
    WrapOrder(Last(t, i), Waiting(t, i));
    ChainOrder(t, i);
  }

  lemma {:induction false} NewsJoin(a: seq<Mark>, b: seq<Mark>)
    ensures News(a + b) == News(a) + News(b)
    decreases |b|
  {
    if b == [] {
      assert a + b == a;
    } else {
      assert (a + b)[..|a + b| - 1] == a + b[..|b| - 1];
      NewsJoin(a, b[..|b| - 1]);
    }
  }

  lemma UpFromJoin(i: int, n: nat, k: nat)
    ensures UpFrom(i, n) + UpFrom(i + n, k) == UpFrom(i, n + k)
    ensures UpFrom(i + n, 1) == [i + n + 1] && UpFrom(i, 0) == []
  {
  }

  lemma NewsOne(m: Mark)
    ensures News([m]) == (if m.New? then [m.x] else []) && News([]) == []
  {
    assert [m][..0] == [];
  }

  lemma NewsOfCall(a: seq<Mark>, x: Name)
    ensures News(a + [New(x)]) == News(a) + [x]
  {
    hide News;
    NewsJoin(a, [New(x)]);
    NewsOne(New(x));
  }

  lemma NewsOfLet(a: seq<Mark>, x: Name, b: seq<Mark>)
    ensures News(a + [Source(x)] + b) == News(a) + News(b)
  {
    hide News;
    NewsJoin(a + [Source(x)], b);
    NewsJoin(a, [Source(x)]);
    NewsOne(Source(x));
    assert News(a) + [] == News(a);
  }

  /** The names that bind takes appear in increasing order, one after the other. */
  lemma {:induction false} NewsCountUp(t: Tree, i: int)
    ensures News(Marks(t, i)) == UpFrom(i, Fresh(t))
  {
    hide News, UpFrom;
    UpFromJoin(i, 0, 0);
    NewsOne(New(0));
    match t
    case App(f, arg) =>
      NewsCountUp(arg, i);
      NewsOfCall(Marks(arg, i), i + Fresh(t));
      UpFromJoin(i, Fresh(arg), 1);
    case Let(x, b, body) =>
      NewsCountUp(b, i);
      NewsCountUp(body, i + Fresh(b));
      NewsOfLet(Marks(b, i), x, Marks(body, i + Fresh(b)));
      UpFromJoin(i, Fresh(b), Fresh(body));
    case _ =>
  }
}
