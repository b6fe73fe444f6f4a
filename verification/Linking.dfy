/**
  What assembly makes of compiled programs: generated labels are unique, so the code of
  every function ends up, resolved, where its name points to.
 */
module Linking {
  import opened Options
  import opened Salt
  import opened Translate
  import opened Assembler
  import L = Lexa

  // ----- generated labels are unique -----

  /** The labels of code are generated ones, all different, with numbers in lo..hi. */
  ghost predicate Tidy(code: seq<Instr>, lo: nat, hi: nat)
  {
    UniqueGens(code) && GensIn(code, lo, hi) && (forall f: string :: Label(User(f)) !in code)
  }

  ghost predicate GensIn(code: seq<Instr>, lo: nat, hi: nat)
  {
    forall g :: g in Gens(code) ==> lo <= g < hi
  }

  lemma TidyConcat(a: seq<Instr>, lo: nat, mid: nat, b: seq<Instr>, hi: nat)
    requires lo <= mid <= hi && Tidy(a, lo, mid) && Tidy(b, mid, hi)
    ensures Tidy(a + b, lo, hi)
  {
    GensConcat(a, b);
  }

  lemma {:induction false} TidyPlain(code: seq<Instr>, n: nat)
    requires NoLabels(code)
    ensures Tidy(code, n, n) && Gens(code) == {}
  {
    if code != [] {
      TidyPlain(code[1..], n);
      assert code == [code[0]] + code[1..];
    }
  }

  lemma TidyLabel(n: nat)
    ensures Tidy([Label(Gen(n))], n, n + 1) && Gens([Label(Gen(n))]) == {n}
  {
    assert [Label(Gen(n))][1..] == [];
  }

  lemma {:induction false} ArgsPlain(names: seq<string>, args: seq<L.Value>)
    ensures NoLabels(CompileArgs(names, args)) && |CompileArgs(names, args)| == |args|
  {
    if args != [] {
      ArgsPlain(names, args[..|args| - 1]);
    }
  }

  lemma {:induction false} FieldsPlain(names: seq<string>, vs: seq<L.Value>)
    ensures NoLabels(CompileFields(names, vs)) && |CompileFields(names, vs)| == 2 * |vs|
  {
    if vs != [] {
      FieldsPlain(names, vs[..|vs| - 1]);
    }
  }

  lemma PlainConcat(a: seq<Instr>, b: seq<Instr>)
    requires NoLabels(a) && NoLabels(b)
    ensures NoLabels(a + b)
  {
  }

  lemma ValuePlain(names: seq<string>, v: L.Value, r: nat)
    ensures NoLabels(CompileValue(names, v, r))
  {
  }

  /** Two operands, then straight-line code. */
  lemma PairPlain(names: seq<string>, v1: L.Value, r1: nat, v2: L.Value, r2: nat, tail: seq<Instr>)
    requires NoLabels(tail)
    ensures NoLabels(CompileValue(names, v1, r1) + CompileValue(names, v2, r2) + tail)
  {
    hide NoLabels, CompileValue;
    ValuePlain(names, v1, r1);
    ValuePlain(names, v2, r2);
    PlainConcat(CompileValue(names, v1, r1), CompileValue(names, v2, r2));
    PlainConcat(CompileValue(names, v1, r1) + CompileValue(names, v2, r2), tail);
  }

  lemma BeforePlain(names: seq<string>, rhs: L.Rhs, l1: Name)
    ensures NoLabels(Before(names, rhs, l1))
  {
    match rhs
    case Plus(v1, v2) => PairPlain(names, v1, 1, v2, 2, [Add(R2, From(R1)), Push(From(R2))]);
    case CallFn(f, args) =>
      ArgsPlain(names, args);
      PlainConcat(CompileValue(names, f, 0), CompileArgs(names, args));
      PlainConcat(CompileValue(names, f, 0) + CompileArgs(names, args), [Call(From(R0)), Push(From(R1))]);
    case NewRef(vs) =>
      FieldsPlain(names, vs);
      PlainConcat([Malloc(R2, |vs|)], CompileFields(names, vs));
      PlainConcat([Malloc(R2, |vs|)] + CompileFields(names, vs), [Push(From(R2))]);
    case Update(a, i, v) => PairPlain(names, v, 1, a, 2, [Store(R1, R2, i), Push(From(R1))]);
    case HandleNew(body, kind, op, under) => InstallPlain(names, body, kind, op, under, l1);
    case HandleSame(body, kind, op, under) => InstallPlain(names, body, kind, op, under, l1);
    case Raise(lab, arg) => PairPlain(names, arg, 2, lab, 1, [Call(Operand.Sym(l1)), Push(From(R1))]);
    case TailRaise(lab, arg) =>
      PairPlain(names, arg, 2, lab, 1, [Load(R3, R1, Some(3)), Load(R1, R1, Some(2)), Call(From(R3)), Push(From(R1))]);
    case AbortRaise(lab, arg) =>
      PairPlain(names, arg, 2, lab, 1,
                [Dump, Load(R3, R1, Some(3)), Mov(SP, From(R1)), Load(R1, R1, Some(2)), Dump, Sfree(4), Jmp(From(R3))]);
    case Resume(k, arg) => PairPlain(names, arg, 2, k, 1, [Dump, Call(Operand.Sym(l1)), Push(From(R1))]);
    case _ =>
  }

  lemma InstallPlain(names: seq<string>, body: string, kind: L.Kind, op: string, under: L.Value, l1: Name)
    ensures NoLabels(InstallCode(names, body, kind, op, under, l1))
  {
  }

  lemma OutOfLinePlain(rhs: L.Rhs)
    ensures OutOfLine(rhs).Some? ==> NoLabels(OutOfLine(rhs).value)
  {
    assert NoLabels(ENTER_NEW) && NoLabels(ENTER_SAME) && NoLabels(RAISE_CODE) && NoLabels(RESUME_CODE);
  }

  lemma AfterTidy(rhs: L.Rhs, n: nat)
    ensures Tidy(After(rhs, Gen(n), Gen(n + 1)), n, if OutOfLine(rhs).Some? then n + 2 else n)
  {
    OutOfLinePlain(rhs);
    match OutOfLine(rhs)
    case None => TidyPlain([], n);
    case Some(block) =>
      var jump := [Jmp(Operand.Sym(Gen(n + 1)))];
      TidyPlain(jump, n);
      TidyLabel(n);
      TidyConcat(jump, n, n, [Label(Gen(n))], n + 1);
      TidyPlain(block, n + 1);
      TidyConcat(jump + [Label(Gen(n))], n, n + 1, block, n + 1);
      TidyLabel(n + 1);
      TidyConcat(jump + [Label(Gen(n))] + block, n, n + 1, [Label(Gen(n + 1))], n + 2);
      assert jump + [Label(Gen(n))] == [Jmp(Operand.Sym(Gen(n + 1))), Label(Gen(n))];
  }

  lemma {:induction false} StmtTidy(names: seq<string>, s: L.Stmt, n: nat)
    ensures n <= CompileStmt(names, s, n).next
    ensures Tidy(CompileStmt(names, s, n).code, n, CompileStmt(names, s, n).next)
    decreases s
  {
    match s
    case Ret(v) => TidyPlain(CompileValue(names, v, 1), n);
    case Let(x, rhs, t) =>
      StmtTidy([x] + names, t, n);
      hide Before, After, Tidy;
      var cb := CompileStmt([x] + names, t, n);
      BeforePlain(names, rhs, Gen(cb.next));
      AfterTidy(rhs, cb.next);
      LetTidy(Before(names, rhs, Gen(cb.next)), cb.code, After(rhs, Gen(cb.next), Gen(cb.next + 1)), n, cb.next,
              if OutOfLine(rhs).Some? then cb.next + 2 else cb.next);
  }

  lemma LetTidy(before: seq<Instr>, cb: seq<Instr>, after: seq<Instr>, n: nat, mid: nat, hi: nat)
    requires NoLabels(before) && n <= mid <= hi && Tidy(cb, n, mid) && Tidy(after, mid, hi)
    ensures Tidy(before, n, mid) && Tidy(before + cb + after, n, hi)
  {
    TidyPlain(before, n);
    TidyConcat(before, n, n, cb, mid);
    TidyConcat(before + cb, n, mid, after, hi);
  }

  lemma {:induction false} ParamsPlain(n: nat)
    ensures NoLabels(PushParams(n)) && |PushParams(n)| == n
    ensures forall i :: 0 <= i < n ==> PushParams(n)[i] == Push(From(Reg(n - i)))
  {
    if n > 0 {
      ParamsPlain(n - 1);
    }
  }

  lemma FunBodyTidy(d: L.Fun, n: nat)
    ensures n <= CompileStmt(d.params, d.body, n).next
    ensures Tidy(FunBody(d, CompileStmt(d.params, d.body, n)), n, CompileStmt(d.params, d.body, n).next)
  {
    var body := CompileStmt(d.params, d.body, n);
    StmtTidy(d.params, d.body, n);
    ParamsPlain(|d.params|);
    TidyPlain([Sfree(|d.params| + body.nlet), Return], body.next);
    LetTidy(PushParams(|d.params|), body.code, [Sfree(|d.params| + body.nlet), Return], n, body.next, body.next);
  }

  /** The code of one function, with the jump over it. */
  function OwnCode(d: L.Fun, n: nat): seq<Instr>
  {
    var body := CompileStmt(d.params, d.body, n);
    [Jmp(Operand.Sym(Gen(body.next))), Label(User(d.name))] + FunBody(d, body) + [Label(Gen(body.next))]
  }

  lemma OwnUnique(d: L.Fun, n: nat)
    ensures n <= CompileStmt(d.params, d.body, n).next
    ensures UniqueGens(OwnCode(d, n)) && GensIn(OwnCode(d, n), n, CompileStmt(d.params, d.body, n).next + 1)
  {
    var body := CompileStmt(d.params, d.body, n);
    FunBodyTidy(d, n);
    var head := [Jmp(Operand.Sym(Gen(body.next))), Label(User(d.name))];
    assert head == [Jmp(Operand.Sym(Gen(body.next)))] + [Label(User(d.name))];
    TidyPlain([Jmp(Operand.Sym(Gen(body.next)))], n);
    assert Gens([Label(User(d.name))]) == {}
        && UniqueGens([Label(User(d.name))]) by { assert [Label(User(d.name))][1..] == []; }
    GensConcat([Jmp(Operand.Sym(Gen(body.next)))], [Label(User(d.name))]);
    GensConcat(head, FunBody(d, body));
    TidyLabel(body.next);
    GensConcat(head + FunBody(d, body), [Label(Gen(body.next))]);
  }

  /** gensym hands out every label of the program once. */
  lemma {:induction false} FunsUnique(p: L.Program, n: nat)
    ensures UniqueGens(CompileFuns(p, n)) && (forall g :: g in Gens(CompileFuns(p, n)) ==> n <= g)
    decreases |p|
  {
    if p == [] {
      TidyPlain(CompileFuns(p, n), n);
    } else {
      var next := CompileStmt(p[0].params, p[0].body, n).next + 1;
      OwnUnique(p[0], n);
      FunsUnique(p[1..], next);
      GensConcat(OwnCode(p[0], n), CompileFuns(p[1..], next));
      assert CompileFuns(p, n) == OwnCode(p[0], n) + CompileFuns(p[1..], next);
    }
  }

  lemma {:induction false} UserLabels(p: L.Program, n: nat, f: string)
    ensures Label(User(f)) in CompileFuns(p, n) ==> L.FindFun(p, f).Some?
    decreases |p|
  {
    hide CompileStmt, FunBody, Tidy;
    if p != [] {
      var d := p[0];
      var body := CompileStmt(d.params, d.body, n);
      FunBodyTidy(d, n);
      UserLabels(p[1..], body.next + 1, f);
    }
  }

  // ----- where the code of a function stands -----

  /** Following jumps from a, control reaches sfree n; return. */
  ghost predicate Leaves(im: seq<Instr>, a: int, n: nat, jumps: nat)
    decreases jumps
  {
    if jumps == 0 then 0 <= a && a + 1 < |im| && im[a] == Sfree(n) && im[a + 1] == Return
    else 0 <= a < |im| && im[a].Jmp? && im[a].o.Const? && im[a].o.w.Code? && Leaves(im, im[a].o.w.target, n, jumps - 1)
  }

  /** The code of s, compiled in env names, stands at a and control then leaves the function. */
  ghost predicate StmtAtWith(c: Image, a: int, names: seq<string>, s: L.Stmt, next: nat, jumps: nat)
  {
    var r := CompileStmt(names, s, next);
    Accepted(s) && CodeAt(c, a, r.code) && Leaves(c.im, a + Size(r.code), |names| + r.nlet, jumps)
  }

  ghost predicate StmtAt(c: Image, a: int, names: seq<string>, s: L.Stmt)
  {
    exists next: nat, jumps: nat :: StmtAtWith(c, a, names, s, next, jumps)
  }

  /** The entry of a function: its parameters are pushed, then its body runs. */
  ghost predicate FunAt(c: Image, d: L.Fun)
  {
    User(d.name) in c.lm &&
    var a := c.lm[User(d.name)];
    0 <= a && a + |d.params| <= |c.im| &&
    (forall i :: 0 <= i < |d.params| ==> ParamPush(c.im, a, |d.params|, i)) &&
    StmtAt(c, a + |d.params|, d.params, d.body)
  }

  ghost predicate ParamPush(im: seq<Instr>, a: int, n: nat, i: nat)
    requires 0 <= a && a + n <= |im| && i < n
  {
    im[a + i] == Push(From(Reg(n - i)))
  }

  ghost predicate ProgramAt(c: Image, p: L.Program)
  {
    forall f: string :: L.FindFun(p, f).Some? ==> L.FindFun(p, f).value.name == f && FunAt(c, L.FindFun(p, f).value)
  }

  /** The root: three instructions that call main and halt with its result pushed. */
  ghost predicate RootAt(c: Image, a: int)
  {
    0 <= a && a + 3 == |c.im| && User("main") in c.lm &&
    c.im[a..] == [Call(Const(Code(c.lm[User("main")]))), Push(From(R1)), Halt]
  }

  /** Every function definition starts with a jump over it, so that control reaches the root. */
  ghost predicate Skips(c: Image, a: int, root: int, jumps: nat)
    decreases jumps
  {
    if jumps == 0 then a == root
    else
      && 0 <= a < |c.im| && c.im[a].Jmp? && c.im[a].o.Const? && c.im[a].o.w.Code?
      && Skips(c, c.im[a].o.w.target, root, jumps - 1)
  }

  lemma ParamsAt(c: Image, a: int, n: nat)
    requires CodeAt(c, a, PushParams(n))
    ensures Size(PushParams(n)) == n && 0 <= a && a + n <= |c.im|
    ensures forall i :: 0 <= i < n ==> ParamPush(c.im, a, n, i)
  {
    ParamsPlain(n);
    CodeAtPlain(c, a, PushParams(n));
    forall i | 0 <= i < n
      ensures ParamPush(c.im, a, n, i)
    {
      assert ReplaceLabel(c.lm, PushParams(n)[i]) == Some(c.im[a + i]);
    }
  }

  lemma LeavesHere(c: Image, a: int, n: nat)
    requires CodeAt(c, a, [Sfree(n), Return])
    ensures Leaves(c.im, a, n, 0)
  {
    CodeAtPlain(c, a, [Sfree(n), Return]);
    assert ReplaceLabel(c.lm, [Sfree(n), Return][0]) == Some(c.im[a + 0]);
    assert ReplaceLabel(c.lm, [Sfree(n), Return][1]) == Some(c.im[a + 1]);
  }

  lemma FunBodyAt(c: Image, a: int, d: L.Fun, n: nat)
    requires Accepted(d.body)
    requires CodeAt(c, a, FunBody(d, CompileStmt(d.params, d.body, n)))
    requires User(d.name) in c.lm && c.lm[User(d.name)] == a
    ensures FunAt(c, d)
  {
    hide CodeAt, Leaves, Accepted, CompileStmt;
    var body := CompileStmt(d.params, d.body, n);
    BodyPieces(c, a, |d.params|, body.code, |d.params| + body.nlet);
    StmtAtIntro(c, a + |d.params|, d.params, d.body, n, body, 0);
  }

  lemma StmtAtIntro(c: Image, a: int, names: seq<string>, s: L.Stmt, n: nat, r: Compiled, jumps: nat)
    requires r == CompileStmt(names, s, n) && Accepted(s)
    requires CodeAt(c, a, r.code) && Leaves(c.im, a + Size(r.code), |names| + r.nlet, jumps)
    ensures StmtAt(c, a, names, s)
  {
    hide CodeAt, Leaves, Accepted, Size;
    assert StmtAtWith(c, a, names, s, n, jumps);
  }

  lemma BodyPieces(c: Image, a: int, k: nat, code: seq<Instr>, n: nat)
    requires CodeAt(c, a, PushParams(k) + code + [Sfree(n), Return])
    ensures 0 <= a && a + k <= |c.im| && forall i :: 0 <= i < k ==> ParamPush(c.im, a, k, i)
    ensures CodeAt(c, a + k, code) && Leaves(c.im, a + k + Size(code), n, 0)
  {
    CodeAtSplit3(c, a, PushParams(k), code, [Sfree(n), Return]);
    ParamsAt(c, a, k);
    LeavesHere(c, a + k + Size(code), n);
  }

  /** Resolved names point at the functions they denote, provided none is called sp. */
  lemma {:induction false} FunsAt(c: Image, pre: seq<Instr>, p: L.Program, n: nat, code: seq<Instr>, f: string)
    requires code == pre + CompileFuns(p, n) && c.lm == Table(code)
    requires CodeAt(c, Size(pre), CompileFuns(p, n))
    requires L.FindFun(p, f).Some? && forall i :: 0 <= i < |p| ==> Accepted(p[i].body)
    ensures L.FindFun(p, f).value.name == f && (f != "sp" ==> FunAt(c, L.FindFun(p, f).value))
    ensures f == "sp" ==> User(f) in c.lm && c.lm[User(f)] == -1
    decreases |p|
  {
    assert f == RESERVED ==> User(f) in c.lm && c.lm[User(f)] == -1;
    hide FunAt, Table, CompileStmt, StmtAt;
    var next := CompileStmt(p[0].params, p[0].body, n).next + 1;
    var own, rest := OwnCode(p[0], n), CompileFuns(p[1..], next);
    assert CompileFuns(p, n) == own + rest;
    assert code == (pre + own) + rest;
    CodeAtSplit(c, Size(pre), own, rest);
    SizeConcat(pre, own);
    if L.FindFun(p[1..], f).Some? {
      FunsAt(c, pre + own, p[1..], next, code, f);
    } else {
      UserLabels(p[1..], next, f);
      if f != RESERVED {
        OwnAt(c, pre, p[0], n, rest);
      }
    }
  }

  lemma OwnAt(c: Image, pre: seq<Instr>, d: L.Fun, n: nat, rest: seq<Instr>)
    requires c.lm == Table(pre + OwnCode(d, n) + rest) && Label(User(d.name)) !in rest && d.name != RESERVED
    requires CodeAt(c, Size(pre), OwnCode(d, n)) && Accepted(d.body)
    ensures FunAt(c, d)
  {
    var jump, body, skip := OwnPieces(d, n);
    EntryCode(c, Size(pre), jump, d.name, body, skip);
    EntryTable(c.lm, pre, d.name, jump, body, skip, rest);
    FunBodyAt(c, Size(pre) + 1, d, n);
  }

  lemma OwnPieces(d: L.Fun, n: nat) returns (jump: seq<Instr>, body: seq<Instr>, skip: seq<Instr>)
    ensures OwnCode(d, n) == jump + ([Label(User(d.name))] + (body + skip))
    ensures Size(jump) == 1 && body == FunBody(d, CompileStmt(d.params, d.body, n))
    ensures Label(User(d.name)) !in body && Label(User(d.name)) !in skip
  {
    var r := CompileStmt(d.params, d.body, n);
    jump, body, skip := [Jmp(Operand.Sym(Gen(r.next)))], FunBody(d, r), [Label(Gen(r.next))];
    FunBodyTidy(d, n);
    SizeOne(jump[0]);
  }

  lemma EntryTable(lm: map<Name, int>, pre: seq<Instr>, f: string, jump: seq<Instr>, body: seq<Instr>, skip: seq<Instr>,
                   rest: seq<Instr>)
    requires lm == Table(pre + (jump + ([Label(User(f))] + (body + skip))) + rest) && f != RESERVED
    requires Label(User(f)) !in body && Label(User(f)) !in skip && Label(User(f)) !in rest && Size(jump) == 1
    ensures User(f) in lm && lm[User(f)] == Size(pre) + 1
  {
    SizeConcat(pre, jump);
    EntryRegrouped(pre, jump, Label(User(f)), body, skip, rest);
    NotInTail(Label(User(f)), body, skip, rest);
    LastDefinition(pre + jump, f, body + skip + rest);
  }

  lemma EntryRegrouped(pre: seq<Instr>, jump: seq<Instr>, l: Instr, body: seq<Instr>, skip: seq<Instr>,
                       rest: seq<Instr>)
    ensures pre + (jump + ([l] + (body + skip))) + rest == (pre + jump) + [l] + (body + skip + rest)
  {
  }

  lemma NotInTail(l: Instr, body: seq<Instr>, skip: seq<Instr>, rest: seq<Instr>)
    requires l !in body && l !in skip && l !in rest
    ensures l !in body + skip + rest
  {
  }

  lemma EntryCode(c: Image, a: int, jump: seq<Instr>, f: string, body: seq<Instr>, skip: seq<Instr>)
    requires CodeAt(c, a, jump + ([Label(User(f))] + (body + skip))) && Size(jump) == 1
    ensures CodeAt(c, a + 1, body)
  {
    CodeAtSplit(c, a, jump, [Label(User(f))] + (body + skip));
    SizeOne(Label(User(f)));
    CodeAtSplit(c, a + 1, [Label(User(f))], body + skip);
    CodeAtSplit(c, a + 1, body, skip);
  }

  lemma {:induction false} SkipsAt(c: Image, a: int, p: L.Program, n: nat, code: seq<Instr>)
    returns (root: int, jumps: nat)
    requires code == CompileFuns(p, n) && CodeAt(c, a, code) && a + Size(code) == |c.im|
    ensures RootAt(c, root) && Skips(c, a, root, jumps)
    decreases |p|
  {
    hide RootAt, CodeAt, Size;
    if p == [] {
      root, jumps := a, 0;
      RootHere(c, a, code);
    } else {
      var skip, inner, rest, n' := FunsPieces(p, n);
      SkipOne(c, a, skip, inner, rest);
      var root', jumps' := SkipsAt(c, c.lm[skip], p[1..], n', rest);
      SkipsMore(c, a, root', jumps');
      root, jumps := root', jumps' + 1;
    }
  }

  lemma RootHere(c: Image, a: int, code: seq<Instr>)
    requires code == [Call(Operand.Sym(User("main"))), Push(From(R1)), Halt]
    requires CodeAt(c, a, code) && a + Size(code) == |c.im|
    ensures RootAt(c, a)
  {
    CodeAtPlain(c, a, code);
    assert forall i :: 0 <= i < 3 ==> ReplaceLabel(c.lm, code[i]) == Some(c.im[a + i]);
  }

  lemma FunsPieces(p: L.Program, n: nat) returns (skip: Name, inner: seq<Instr>, rest: seq<Instr>, n': nat)
    requires p != []
    ensures skip.Gen? && rest == CompileFuns(p[1..], n')
    ensures CompileFuns(p, n) == ([Jmp(Operand.Sym(skip))] + inner) + ([Label(skip)] + rest)
  {
    hide CompileStmt, FunBody;
    var body := CompileStmt(p[0].params, p[0].body, n);
    skip, n' := Gen(body.next), body.next + 1;
    inner := [Label(User(p[0].name))] + FunBody(p[0], body);
    rest := CompileFuns(p[1..], n');
    Regroup(Jmp(Operand.Sym(skip)), Label(User(p[0].name)), FunBody(p[0], body), Label(skip), rest);
  }

  lemma Regroup(jump: Instr, l: Instr, body: seq<Instr>, skip: Instr, rest: seq<Instr>)
    ensures [jump, l] + body + [skip] + rest == ([jump] + ([l] + body)) + ([skip] + rest)
  {
    assert [jump, l] == [jump] + [l];
    Associate([jump], [l], body);
    Associate([jump] + ([l] + body), [skip], rest);
  }

  lemma SkipsMore(c: Image, a: int, root: int, jumps: nat)
    requires 0 <= a < |c.im| && c.im[a].Jmp? && c.im[a].o.Const? && c.im[a].o.w.Code?
    requires Skips(c, c.im[a].o.w.target, root, jumps)
    ensures Skips(c, a, root, jumps + 1)
  {
  }

  lemma SkipOne(c: Image, a: int, skip: Name, inner: seq<Instr>, rest: seq<Instr>)
    requires skip.Gen?
    requires CodeAt(c, a, ([Jmp(Operand.Sym(skip))] + inner) + ([Label(skip)] + rest))
    ensures 0 <= a < |c.im| && skip in c.lm && c.im[a] == Jmp(Const(Code(c.lm[skip])))
    ensures CodeAt(c, c.lm[skip], rest)
    ensures a + Size(([Jmp(Operand.Sym(skip))] + inner) + ([Label(skip)] + rest)) == c.lm[skip] + Size(rest)
  {
    var own := [Jmp(Operand.Sym(skip))] + inner;
    CodeAtSplit(c, a, own, [Label(skip)] + rest);
    SizeConcat(own, [Label(skip)] + rest);
    assert ([Label(skip)] + rest)[1..] == rest;
    assert own[0] == Jmp(Operand.Sym(skip));
  }
}
