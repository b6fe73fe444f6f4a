/**
  The translation from the handler language to labelled Salt code
  (src/formal_translation/t-salt.rkt). gensym is a counter threaded through the
  compilation, in the order in which the original evaluates.
 */
module Translate {
  import opened Options
  import opened Salt
  import L = Lexa

  const R0 := Reg(0)
  const R1 := Reg(1)
  const R2 := Reg(2)
  const R3 := Reg(3)
  const R4 := Reg(4)
  const R5 := Reg(5)
  const R6 := Reg(6)
  const R10 := Reg(10)

  function IndexOf(names: seq<string>, x: string): (r: Option<int>)
    ensures r.Some? ==> 0 <= r.value < |names| && names[r.value] == x
  {
    if names == [] then None
    else if names[0] == x then Some(0)
    else
      match IndexOf(names[1..], x)
      case None => None
      case Some(i) => Some(i + 1)
  }

  /** Every symbol is taken for a variable; the case for function names is never reached. */
  function CompileValue(names: seq<string>, v: L.Value, r: nat): seq<Instr>
  {
    match v
    case Sym(x) => [Load(Reg(r), SP, IndexOf(names, x))]
    case Num(n) => [Mov(Reg(r), Const(Int(n)))]
  }

  function KindWord(kind: L.Kind): int
  {
    match kind
    case General => 0
    case Abort => 1
    case Tail => 2
  }

  /** Arguments go to registers 1, 2, ... */
  function CompileArgs(names: seq<string>, args: seq<L.Value>): seq<Instr>
  {
    if args == [] then [] else
    CompileArgs(names, args[..|args| - 1]) + CompileValue(names, args[|args| - 1], |args|)
  }

  function CompileFields(names: seq<string>, vs: seq<L.Value>): seq<Instr>
  {
    if vs == [] then [] else
    CompileFields(names, vs[..|vs| - 1]) + CompileValue(names, vs[|vs| - 1], 1) + [Store(R1, R2, |vs| - 1)]
  }

  /** The code of a right-hand side up to the push that binds its result. */
  function Before(names: seq<string>, rhs: L.Rhs, l1: Name): seq<Instr>
  {
    match rhs
    case Plus(v1, v2) =>
      CompileValue(names, v1, 1) + CompileValue(names, v2, 2) + [Add(R2, From(R1)), Push(From(R2))]
    case CallFn(f, args) =>
      CompileValue(names, f, 0) + CompileArgs(names, args) + [Call(From(R0)), Push(From(R1))]
    case NewRef(vs) =>
      [Malloc(R2, |vs|)] + CompileFields(names, vs) + [Push(From(R2))]
    case Select(v, i) =>
      CompileValue(names, v, 1) + [Load(R1, R1, Some(i)), Push(From(R1))]
    case Update(a, i, v) =>
      CompileValue(names, v, 1) + CompileValue(names, a, 2) + [Store(R1, R2, i), Push(From(R1))]
    case HandleNew(body, kind, op, under) => InstallCode(names, body, kind, op, under, l1)
    case HandleSame(body, kind, op, under) => InstallCode(names, body, kind, op, under, l1)
    case Raise(lab, arg) =>
      CompileValue(names, arg, 2) + CompileValue(names, lab, 1) + [Call(Operand.Sym(l1)), Push(From(R1))]
    case TailRaise(lab, arg) =>
      CompileValue(names, arg, 2) + CompileValue(names, lab, 1) +
      [Load(R3, R1, Some(3)), Load(R1, R1, Some(2)), Call(From(R3)), Push(From(R1))]
    case AbortRaise(lab, arg) =>
      CompileValue(names, arg, 2) + CompileValue(names, lab, 1) +
      [Dump, Load(R3, R1, Some(3)), Mov(SP, From(R1)), Load(R1, R1, Some(2)), Dump, Sfree(4), Jmp(From(R3))]
    case Resume(k, arg) =>
      CompileValue(names, arg, 2) + CompileValue(names, k, 1) + [Dump, Call(Operand.Sym(l1)), Push(From(R1))]
    case Atom(v) => CompileValue(names, v, 1) + [Push(From(R1))]
    case Exits(_) => []
  }

  function InstallCode(names: seq<string>, body: string, kind: L.Kind, op: string, under: L.Value, l1: Name): seq<Instr>
  {
    [Mov(R4, Const(Int(KindWord(kind))))] + CompileValue(names, under, 3) +
    [Mov(R2, Operand.Sym(User(op))), Mov(R1, Operand.Sym(User(body))), Call(Operand.Sym(l1)), Push(From(R1))]
  }

  /** Out-of-line entry of a handler on a new stack. */
  const ENTER_NEW: seq<Instr> :=
    [Mov(R5, From(SP)), Mkstk(SP), Push(From(R2)), Push(From(R3)), Push(From(R4)), Push(From(R5)),
     Mov(R6, From(R1)), Mov(R2, From(SP)), Mov(R1, From(R3)), Call(From(R6)),
     Pop(R2), Sfree(3), Mov(SP, From(R2)), Return]

  /** Out-of-line entry of a handler on the same stack. */
  const ENTER_SAME: seq<Instr> :=
    [Push(From(R2)), Push(From(R3)), Push(From(R4)), Push(Const(Int(-70))),
     Mov(R6, From(R1)), Mov(R2, From(SP)), Mov(R1, From(R3)), Call(From(R6)), Sfree(4), Return]

  const RAISE_CODE: seq<Instr> :=
    [Load(R4, R1, Some(0)), Store(SP, R1, 0), Mov(SP, From(R4)), Load(R5, R1, Some(3)),
     Malloc(R3, 1), Store(R1, R3, 0), Load(R1, R1, Some(2)), Call(From(R5)), Return]

  const RESUME_CODE: seq<Instr> :=
    [Load(R3, R1, Some(0)), Mov(R10, Const(Int(-71))), Store(R10, R1, 0), Load(R4, R3, Some(0)),
     Store(SP, R3, 0), Mov(R1, From(R2)), Mov(SP, From(R4)), Return]

  /** The body of the out-of-line block, for the forms that have one. */
  function OutOfLine(rhs: L.Rhs): Option<seq<Instr>>
  {
    match rhs
    case HandleNew(_, _, _, _) => Some(ENTER_NEW)
    case HandleSame(_, _, _, _) => Some(ENTER_SAME)
    case Raise(_, _) => Some(RAISE_CODE)
    case Resume(_, _) => Some(RESUME_CODE)
    case _ => None
  }

  function After(rhs: L.Rhs, l1: Name, l2: Name): seq<Instr>
  {
    match OutOfLine(rhs)
    case None => []
    case Some(block) => [Jmp(Operand.Sym(l2)), Label(l1)] + block + [Label(l2)]
  }

  datatype Compiled = Compiled(nlet: nat, code: seq<Instr>, next: nat)

  function CompileStmt(names: seq<string>, s: L.Stmt, next: nat): Compiled
    decreases s
  {
    match s
    case Ret(v) => Compiled(0, CompileValue(names, v, 1), next)
    case Let(x, rhs, t) =>
      var cb := CompileStmt([x] + names, t, next);
      var l1, l2 := Gen(cb.next), Gen(cb.next + 1);
      if rhs.AbortRaise? then Compiled(cb.nlet + 1, Before(names, rhs, l1), cb.next)
      else
        Compiled(cb.nlet + 1, Before(names, rhs, l1) + cb.code + After(rhs, l1, l2),
                 if OutOfLine(rhs).Some? then cb.next + 2 else cb.next)
  }

  /** The parameters are pushed last first, so that the first one is on top. */
  function PushParams(n: nat): seq<Instr>
  {
    if n == 0 then [] else [Push(From(Reg(n)))] + PushParams(n - 1)
  }

  function FunBody(d: L.Fun, body: Compiled): seq<Instr>
  {
    PushParams(|d.params|) + body.code + [Sfree(|d.params| + body.nlet), Return]
  }

  function CompileFuns(p: L.Program, next: nat): seq<Instr>
    decreases |p|
  {
    if p == [] then [Call(Operand.Sym(User("main"))), Push(From(R1)), Halt] else
    var d := p[0];
    var body := CompileStmt(d.params, d.body, next);
    var skip := Gen(body.next);
    [Jmp(Operand.Sym(skip)), Label(User(d.name))] + FunBody(d, body) + [Label(skip)] +
    CompileFuns(p[1..], body.next + 1)
  }

  /** What compile-statement does not stop at with an exception. A let of exits is taken for a
      let of a value, and the list (exits v) is none. */
  predicate Accepted(s: L.Stmt)
  {
    match s
    case Ret(_) => true
    case Let(_, HandleNew(_, kind, _, _), t) => kind.General? && Accepted(t)
    case Let(_, HandleSame(_, kind, _, _), t) => !kind.General? && Accepted(t)
    case Let(_, Exits(_), _) => false
    case Let(_, _, t) => Accepted(t)
  }

  /** compile-program; None is an exception. */
  function CompileProgram(p: L.Program): Option<seq<Instr>>
  {
    if forall i :: 0 <= i < |p| ==> Accepted(p[i].body) then Some(CompileFuns(p, 0)) else None
  }

  // ----- which programs compile -----

  /** The right-hand sides of a statement, outermost first. */
  function Rhss(s: L.Stmt): seq<L.Rhs>
  {
    match s
    case Ret(_) => []
    case Let(_, rhs, t) => [rhs] + Rhss(t)
  }

  /** handle+ takes general handlers, handle= tail and abortive ones. */
  predicate RightKind(rhs: L.Rhs)
  {
    (rhs.HandleNew? ==> rhs.kind.General?) && (rhs.HandleSame? ==> !rhs.kind.General?)
  }

  ghost predicate Compilable(s: L.Stmt)
  {
    forall i :: 0 <= i < |Rhss(s)| ==> RightKind(Rhss(s)[i]) && !Rhss(s)[i].Exits?
  }

  lemma {:induction false} AcceptedExactly(s: L.Stmt)
    ensures Accepted(s) <==> Compilable(s)
  {
    match s
    case Ret(_) =>
    case Let(_, rhs, t) =>
      AcceptedExactly(t);
      assert Rhss(s)[0] == rhs && Rhss(s)[1..] == Rhss(t);
      assert forall i :: 0 <= i < |Rhss(t)| ==> Rhss(t)[i] == Rhss(s)[i + 1];
  }

  /** Exactly: a program compiles if and only if its handlers are of the right kinds and exits
      occurs nowhere in it. */
  lemma CompilesExactly(p: L.Program)
    ensures CompileProgram(p).Some? <==> forall f :: 0 <= f < |p| ==> Compilable(p[f].body)
  {
    forall f | 0 <= f < |p|
      ensures Accepted(p[f].body) <==> Compilable(p[f].body)
    {
      AcceptedExactly(p[f].body);
    }
  }

  /** The shortest program with exits does not compile. */
  lemma ExitsDoesNotCompile(p: L.Program)
    requires p == [L.Fun("main", [], L.Let("x", L.Exits(L.Num(5)), L.Ret(L.Num(0))))]
    ensures CompileProgram(p) == None
  {
    assert !Accepted(p[0].body);
  }
}
