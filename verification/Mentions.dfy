/**
  Which programs assemble: the assembler stops at a label that is not defined, and the labels that
  compiled code uses are its own generated ones and the names that its installations mention.
 */
module Mentions {
  import opened Options
  import opened Salt
  import opened Translate
  import opened Assembler
  import opened Linking
  import L = Lexa

  function LabelOf(o: Operand): set<Name>
  {
    if o.Sym? then {o.name} else {}
  }

  /** The labels that the assembler looks up for an instruction. */
  function UsesOne(i: Instr): set<Name>
  {
    match i
    case Call(o) => LabelOf(o)
    case Jmp(o) => LabelOf(o)
    case Mov(_, o) => LabelOf(o)
    case Add(_, o) => LabelOf(o)
    case _ => {}
  }

  function Uses(code: seq<Instr>): set<Name>
  {
    if code == [] then {} else UsesOne(code[0]) + Uses(code[1..])
  }

  lemma {:induction false} UsesConcat(a: seq<Instr>, b: seq<Instr>)
    ensures Uses(a + b) == Uses(a) + Uses(b)
  {
    if a == [] {
      assert a + b == b;
    } else {
      assert (a + b)[1..] == a[1..] + b;
      UsesConcat(a[1..], b);
    }
  }

  /** Exactly: the second pass goes through if and only if every label used is in the table. */
  lemma {:induction false} ReplacesExactly(lm: map<Name, int>, code: seq<Instr>)
    ensures ReplaceLabels(lm, StripLabels(code)).Some? <==> Uses(code) <= lm.Keys
    decreases |code|
  {
    if code != [] {
      ReplacesExactly(lm, code[1..]);
      ReplacesOne(lm, code[0]);
      if !code[0].Label? {
        assert StripLabels(code)[0] == code[0] && StripLabels(code)[1..] == StripLabels(code[1..]);
      }
    }
  }

  lemma ReplacesOne(lm: map<Name, int>, i: Instr)
    ensures ReplaceLabel(lm, i).Some? <==> UsesOne(i) <= lm.Keys
  {
  }

  // ----- what compiled code uses -----

  /** The functions that a statement names. What follows an abortive raise is not compiled. */
  function Mentioned(s: L.Stmt): set<string>
  {
    match s
    case Ret(_) => {}
    case Let(_, AbortRaise(_, _), _) => {}
    case Let(_, HandleNew(body, _, op, _), t) => {body, op} + Mentioned(t)
    case Let(_, HandleSame(body, _, op, _), t) => {body, op} + Mentioned(t)
    case Let(_, _, t) => Mentioned(t)
  }

  /** The code uses the user names in fs, and of the generated ones only those in gs. */
  ghost predicate UsesOnly(code: seq<Instr>, fs: set<string>, gs: set<nat>)
  {
    (forall f :: User(f) in Uses(code) <==> f in fs) && forall g :: Gen(g) in Uses(code) ==> g in gs
  }

  lemma {:induction false} NoUses(code: seq<Instr>)
    requires forall i :: 0 <= i < |code| ==> UsesOne(code[i]) == {}
    ensures Uses(code) == {}
  {
    if code != [] {
      NoUses(code[1..]);
    }
  }

  lemma ValueUses(names: seq<string>, v: L.Value, r: nat)
    ensures Uses(CompileValue(names, v, r)) == {}
  {
    NoUses(CompileValue(names, v, r));
  }

  lemma {:induction false} ArgsUse(names: seq<string>, args: seq<L.Value>)
    ensures Uses(CompileArgs(names, args)) == {}
  {
    if args != [] {
      ArgsUse(names, args[..|args| - 1]);
      ValueUses(names, args[|args| - 1], |args|);
      UsesConcat(CompileArgs(names, args[..|args| - 1]), CompileValue(names, args[|args| - 1], |args|));
    }
  }

  lemma {:induction false} FieldsUse(names: seq<string>, vs: seq<L.Value>)
    ensures Uses(CompileFields(names, vs)) == {}
  {
    if vs != [] {
      var last, store := CompileValue(names, vs[|vs| - 1], 1), [Store(R1, R2, |vs| - 1)];
      FieldsUse(names, vs[..|vs| - 1]);
      ValueUses(names, vs[|vs| - 1], 1);
      NoUses(store);
      UsesConcat(CompileFields(names, vs[..|vs| - 1]), last);
      UsesConcat(CompileFields(names, vs[..|vs| - 1]) + last, store);
    }
  }

  lemma PairUses(names: seq<string>, v1: L.Value, r1: nat, v2: L.Value, r2: nat, tail: seq<Instr>)
    ensures Uses(CompileValue(names, v1, r1) + CompileValue(names, v2, r2) + tail) == Uses(tail)
  {
    ValueUses(names, v1, r1);
    ValueUses(names, v2, r2);
    UsesConcat(CompileValue(names, v1, r1), CompileValue(names, v2, r2));
    UsesConcat(CompileValue(names, v1, r1) + CompileValue(names, v2, r2), tail);
  }

  lemma OneUses(i: Instr)
    ensures Uses([i]) == UsesOne(i)
  {
    assert [i][1..] == [];
  }

  lemma TwoUse(i: Instr, j: Instr)
    ensures Uses([i, j]) == UsesOne(i) + UsesOne(j)
  {
    assert [i, j] == [i] + [j];
    UsesConcat([i], [j]);
    OneUses(i);
    OneUses(j);
  }

  lemma InstallUses(names: seq<string>, body: string, kind: L.Kind, op: string, under: L.Value, l1: Name)
    ensures Uses(InstallCode(names, body, kind, op, under, l1)) == {User(op), User(body), l1}
  {
    hide Uses, CompileValue;
    var first, value := [Mov(R4, Const(Int(KindWord(kind))))], CompileValue(names, under, 3);
    var moves := [Mov(R2, Operand.Sym(User(op))), Mov(R1, Operand.Sym(User(body)))];
    var call := [Call(Operand.Sym(l1)), Push(From(R1))];
    ValueUses(names, under, 3);
    OneUses(first[0]);
    TwoUse(moves[0], moves[1]);
    TwoUse(call[0], call[1]);
    UsesConcat(first, value);
    UsesConcat(moves, call);
    UsesConcat(first + value, moves + call);
    assert InstallCode(names, body, kind, op, under, l1) == first + value + (moves + call);
  }

  function RhsMentions(rhs: L.Rhs): set<string>
  {
    match rhs
    case HandleNew(body, _, op, _) => {body, op}
    case HandleSame(body, _, op, _) => {body, op}
    case _ => {}
  }

  lemma ResumeUses(l1: Name)
    ensures Uses([Dump, Call(Operand.Sym(l1)), Push(From(R1))]) == {l1}
  {
    assert [Dump, Call(Operand.Sym(l1)), Push(From(R1))] == [Dump] + [Call(Operand.Sym(l1)), Push(From(R1))];
    UsesConcat([Dump], [Call(Operand.Sym(l1)), Push(From(R1))]);
    OneUses(Dump);
    TwoUse(Call(Operand.Sym(l1)), Push(From(R1)));
  }

  lemma TailUses(code: seq<Instr>, tail: seq<Instr>)
    requires Uses(code) == {} && forall i :: 0 <= i < |tail| ==> UsesOne(tail[i]) == {}
    ensures Uses(code + tail) == {}
  {
    NoUses(tail);
    UsesConcat(code, tail);
  }

  lemma PairAlone(names: seq<string>, v1: L.Value, r1: nat, v2: L.Value, r2: nat, tail: seq<Instr>)
    requires forall i :: 0 <= i < |tail| ==> UsesOne(tail[i]) == {}
    ensures Uses(CompileValue(names, v1, r1) + CompileValue(names, v2, r2) + tail) == {}
  {
    PairUses(names, v1, r1, v2, r2, tail);
    NoUses(tail);
  }

  /** The forms that use no label. */
  lemma PlainUses(names: seq<string>, rhs: L.Rhs, l1: Name)
    requires OutOfLine(rhs).None?
    ensures Uses(Before(names, rhs, l1)) == {}
  {
    hide Uses, CompileValue, CompileArgs, CompileFields, InstallCode;
    match rhs
    case Plus(v1, v2) => PairAlone(names, v1, 1, v2, 2, [Add(R2, From(R1)), Push(From(R2))]);
    case CallFn(f, args) =>
      ValueUses(names, f, 0);
      ArgsUse(names, args);
      UsesConcat(CompileValue(names, f, 0), CompileArgs(names, args));
      TailUses(CompileValue(names, f, 0) + CompileArgs(names, args), [Call(From(R0)), Push(From(R1))]);
    case NewRef(vs) =>
      NoUses([Malloc(R2, |vs|)]);
      FieldsUse(names, vs);
      UsesConcat([Malloc(R2, |vs|)], CompileFields(names, vs));
      TailUses([Malloc(R2, |vs|)] + CompileFields(names, vs), [Push(From(R2))]);
    case Select(v, i) =>
      ValueUses(names, v, 1);
      TailUses(CompileValue(names, v, 1), [Load(R1, R1, Some(i)), Push(From(R1))]);
    case Update(a, i, v) => PairAlone(names, v, 1, a, 2, [Store(R1, R2, i), Push(From(R1))]);
    case TailRaise(lab, arg) =>
      PairAlone(names, arg, 2, lab, 1, [Load(R3, R1, Some(3)), Load(R1, R1, Some(2)), Call(From(R3)), Push(From(R1))]);
    case AbortRaise(lab, arg) =>
      PairAlone(names, arg, 2, lab, 1,
                [Dump, Load(R3, R1, Some(3)), Mov(SP, From(R1)), Load(R1, R1, Some(2)), Dump, Sfree(4), Jmp(From(R3))]);
    case Atom(v) =>
      ValueUses(names, v, 1);
      TailUses(CompileValue(names, v, 1), [Push(From(R1))]);
    case Exits(_) => NoUses([]);
  }

  lemma BeforeUses(names: seq<string>, rhs: L.Rhs, l1: Name)
    ensures var own := if OutOfLine(rhs).Some? then {l1} else {};
            Uses(Before(names, rhs, l1)) == (set f | f in RhsMentions(rhs) :: User(f)) + own
  {
    hide Uses, CompileValue, CompileArgs, CompileFields, InstallCode;
    match rhs
    case HandleNew(body, kind, op, under) => InstallUses(names, body, kind, op, under, l1);
    case HandleSame(body, kind, op, under) => InstallUses(names, body, kind, op, under, l1);
    case Raise(lab, arg) =>
      PairUses(names, arg, 2, lab, 1, [Call(Operand.Sym(l1)), Push(From(R1))]);
      TwoUse(Call(Operand.Sym(l1)), Push(From(R1)));
    case Resume(k, arg) =>
      PairUses(names, arg, 2, k, 1, [Dump, Call(Operand.Sym(l1)), Push(From(R1))]);
      ResumeUses(l1);
    case _ => PlainUses(names, rhs, l1);
  }

  lemma BlockUses(rhs: L.Rhs)
    ensures OutOfLine(rhs).Some? ==> Uses(OutOfLine(rhs).value) == {}
  {
    if OutOfLine(rhs).Some? {
      assert forall i :: 0 <= i < |OutOfLine(rhs).value| ==> UsesOne(OutOfLine(rhs).value[i]) == {};
      NoUses(OutOfLine(rhs).value);
    }
  }

  /** A block with the jump over it. */
  lemma JumpedUses(block: seq<Instr>, n: nat)
    requires Uses(block) == {}
    ensures var code := [Jmp(Operand.Sym(Gen(n + 1))), Label(Gen(n))] + block + [Label(Gen(n + 1))];
            Uses(code) == {Gen(n + 1)} && n in Gens(code) && n + 1 in Gens(code)
  {
    hide Uses, Gens;
    var head, tail := [Jmp(Operand.Sym(Gen(n + 1))), Label(Gen(n))], [Label(Gen(n + 1))];
    TwoUse(head[0], head[1]);
    OneUses(tail[0]);
    UsesConcat(head, block);
    UsesConcat(head + block, tail);
    GensDomain(head + block + tail, n);
    GensDomain(head + block + tail, n + 1);
    assert head[1] == (head + block + tail)[1] && tail[0] in head + block + tail;
  }

  /** The out-of-line block jumps over itself. */
  lemma AfterUses(rhs: L.Rhs, n: nat)
    ensures Uses(After(rhs, Gen(n), Gen(n + 1))) == if OutOfLine(rhs).Some? then {Gen(n + 1)} else {}
    ensures OutOfLine(rhs).Some? ==>
              n in Gens(After(rhs, Gen(n), Gen(n + 1))) && n + 1 in Gens(After(rhs, Gen(n), Gen(n + 1)))
  {
    hide Gens, OutOfLine;
    BlockUses(rhs);
    if OutOfLine(rhs).Some? {
      JumpedUses(OutOfLine(rhs).value, n);
    }
  }

  lemma {:induction false} StmtUses(names: seq<string>, s: L.Stmt, n: nat)
    ensures UsesOnly(CompileStmt(names, s, n).code, Mentioned(s), Gens(CompileStmt(names, s, n).code))
    decreases s
  {
    match s
    case Ret(v) => ValueUses(names, v, 1);
    case Let(x, rhs, t) =>
      StmtUses([x] + names, t, n);
      var cb := CompileStmt([x] + names, t, n);
      LetUses(names, rhs, cb.code, Mentioned(t), cb.next);
  }

  /** The code of a let: its own part, the rest, and the out-of-line block. */
  lemma LetUses(names: seq<string>, rhs: L.Rhs, rest: seq<Instr>, fs: set<string>, n: nat)
    requires UsesOnly(rest, fs, Gens(rest))
    ensures var before, after := Before(names, rhs, Gen(n)), After(rhs, Gen(n), Gen(n + 1));
            && UsesOnly(before + rest + after, RhsMentions(rhs) + fs, Gens(before + rest + after))
            && (rhs.AbortRaise? ==> UsesOnly(before, {}, Gens(before)))
  {
    hide Before, After, Uses, Gens, OutOfLine;
    var before, after := Before(names, rhs, Gen(n)), After(rhs, Gen(n), Gen(n + 1));
    BeforeUses(names, rhs, Gen(n));
    AfterUses(rhs, n);
    AbortInline(rhs);
    UsesConcat(before, rest);
    UsesConcat(before + rest, after);
    GensConcat(before, rest);
    GensConcat(before + rest, after);
  }

  lemma AbortInline(rhs: L.Rhs)
    ensures rhs.AbortRaise? ==> OutOfLine(rhs).None?
  {
  }

  // ----- whole programs -----

  /** Code between label-free code. */
  lemma WrappedUses(front: seq<Instr>, code: seq<Instr>, back: seq<Instr>)
    requires Uses(front) == {} && Uses(back) == {}
    ensures Uses(front + code + back) == Uses(code) && Gens(code) <= Gens(front + code + back)
  {
    hide Uses, Gens;
    UsesConcat(front, code);
    UsesConcat(front + code, back);
    GensConcat(front, code);
    GensConcat(front + code, back);
  }

  /** Code with the jump over it. */
  lemma SkippedUses(f: string, g: nat, code: seq<Instr>)
    ensures var own := [Jmp(Operand.Sym(Gen(g))), Label(User(f))] + code + [Label(Gen(g))];
            Uses(own) == Uses(code) + {Gen(g)} && Gens(code) <= Gens(own) && g in Gens(own)
  {
    hide Uses, Gens;
    var head, tail := [Jmp(Operand.Sym(Gen(g))), Label(User(f))], [Label(Gen(g))];
    TwoUse(head[0], head[1]);
    OneUses(tail[0]);
    UsesConcat(head, code);
    UsesConcat(head + code, tail);
    GensConcat(head, code);
    GensConcat(head + code, tail);
    GensDomain(head + code + tail, g);
    assert tail[0] in head + code + tail;
  }

  lemma BodyUses(d: L.Fun, n: nat)
    ensures UsesOnly(OwnCode(d, n), Mentioned(d.body), Gens(OwnCode(d, n)))
  {
    hide Uses, Gens, CompileStmt, Mentioned, PushParams;
    var body := CompileStmt(d.params, d.body, n);
    var params, tail := PushParams(|d.params|), [Sfree(|d.params| + body.nlet), Return];
    StmtUses(d.params, d.body, n);
    ParamsPlain(|d.params|);
    NoUses(params);
    NoUses(tail);
    WrappedUses(params, body.code, tail);
    SkippedUses(d.name, body.next, FunBody(d, body));
  }

  /** The functions that a program names. */
  function AllNamed(p: L.Program): set<string>
  {
    if p == [] then {"main"} else Mentioned(p[0].body) + AllNamed(p[1..])
  }

  lemma {:induction false} FunsUse(p: L.Program, n: nat)
    ensures UsesOnly(CompileFuns(p, n), AllNamed(p), Gens(CompileFuns(p, n)))
    decreases |p|
  {
    if p == [] {
      var call, tail := [Call(Operand.Sym(User("main"))), Push(From(R1))], [Halt];
      assert CompileFuns(p, n) == call + tail;
      TwoUse(call[0], call[1]);
      NoUses(tail);
      UsesConcat(call, tail);
    } else {
      hide Uses, Gens, OwnCode, Mentioned;
      var own, next := OwnCode(p[0], n), CompileStmt(p[0].params, p[0].body, n).next + 1;
      OwnIsFirst(p, n);
      BodyUses(p[0], n);
      FunsUse(p[1..], next);
      UsesConcat(own, CompileFuns(p[1..], next));
      GensConcat(own, CompileFuns(p[1..], next));
    }
  }

  lemma OwnIsFirst(p: L.Program, n: nat)
    requires p != []
    ensures CompileFuns(p, n) == OwnCode(p[0], n) + CompileFuns(p[1..], CompileStmt(p[0].params, p[0].body, n).next + 1)
  {
  }

  lemma {:induction false} FoundLabels(p: L.Program, n: nat, f: string)
    ensures L.FindFun(p, f).Some? <==> Label(User(f)) in CompileFuns(p, n)
    decreases |p|
  {
    UserLabels(p, n, f);
    if p != [] {
      FoundLabels(p[1..], CompileStmt(p[0].params, p[0].body, n).next + 1, f);
      OwnIsFirst(p, n);
      assert OwnCode(p[0], n)[1] == Label(User(p[0].name));
    }
  }

  /** Exactly: a program that compiles assembles if and only if every function that it names, main
      among them, is defined; the assembler knows the name sp without a definition. */
  lemma AssemblesExactly(p: L.Program)
    requires CompileProgram(p).Some?
    ensures Assemble(CompileProgram(p).value).Some? <==> forall f :: f in AllNamed(p) ==>
              f == "sp" || L.FindFun(p, f).Some?
  {
    hide Uses, Gens, Labels, CompileFuns, AllNamed;
    var code := CompileFuns(p, 0);
    FunsUse(p, 0);
    ReplacesExactly(Table(code), code);
    forall l: Name
      ensures l in Table(code) <==> l == User(RESERVED) || Label(l) in code
    {
      LabelsDomain(code, 0, l);
    }
    forall f: string
      ensures L.FindFun(p, f).Some? <==> Label(User(f)) in code
    {
      FoundLabels(p, 0, f);
    }
    forall g: nat
      ensures g in Gens(code) <==> Label(Gen(g)) in code
    {
      GensDomain(code, g);
    }
    UsedInTable(code, AllNamed(p));
  }

  lemma UsedInTable(code: seq<Instr>, fs: set<string>)
    requires UsesOnly(code, fs, Gens(code))
    requires forall g: nat :: g in Gens(code) <==> Label(Gen(g)) in code
    requires forall l: Name :: l in Table(code) <==> l == User(RESERVED) || Label(l) in code
    ensures Uses(code) <= Table(code).Keys <==> forall f :: f in fs ==> f == RESERVED || Label(User(f)) in code
  {
    hide Uses, Gens, Table;
    if forall f :: f in fs ==> f == RESERVED || Label(User(f)) in code {
      forall l | l in Uses(code)
        ensures l in Table(code)
      {
        match l
        case User(f) => assert User(f) in Uses(code);
        case Gen(g) => assert Gen(g) in Uses(code);
      }
    } else {
      var f :| f in fs && f != RESERVED && Label(User(f)) !in code;
      assert User(f) in Uses(code) && User(f) !in Table(code);
    }
  }

  // ----- programs of three functions -----

  lemma FoundInThree(p: L.Program)
    requires |p| == 3 && p[0].name != p[1].name && p[0].name != p[2].name && p[1].name != p[2].name
    ensures L.FindFun(p, p[0].name) == Some(p[0]) && L.FindFun(p, p[1].name) == Some(p[1])
    ensures L.FindFun(p, p[2].name) == Some(p[2])
    ensures forall f :: L.FindFun(p, f).Some? <==> f in {p[0].name, p[1].name, p[2].name}
    ensures AllNamed(p) == Mentioned(p[0].body) + Mentioned(p[1].body) + Mentioned(p[2].body) + {"main"}
  {
    assert p[1..] == [p[1], p[2]] && p[1..][1..] == [p[2]] && [p[2]][1..] == [];
    assert forall f :: L.FindFun([p[2]], f) == if f == p[2].name then Some(p[2]) else None;
    assert forall f :: L.FindFun(p[1..], f) == if f == p[2].name then Some(p[2])
                                               else if f == p[1].name then Some(p[1]) else None;
    assert AllNamed([p[2]]) == Mentioned(p[2].body) + {"main"};
    assert AllNamed(p[1..]) == Mentioned(p[1].body) + (Mentioned(p[2].body) + {"main"});
  }

  lemma ThreeAssemble(p: L.Program)
    requires |p| == 3 && p[0].name != p[1].name && p[0].name != p[2].name && p[1].name != p[2].name
    requires Accepted(p[0].body) && Accepted(p[1].body) && Accepted(p[2].body)
    requires Mentioned(p[0].body) + Mentioned(p[1].body) + Mentioned(p[2].body) + {"main"} <=
             {p[0].name, p[1].name, p[2].name}
    ensures CompileProgram(p).Some? && Assemble(CompileProgram(p).value).Some?
  {
    FoundInThree(p);
    hide Assemble, L.FindFun, Mentioned, Accepted, AllNamed;
    AssemblesExactly(p);
  }
}
