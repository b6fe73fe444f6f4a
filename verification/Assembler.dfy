/** The two-pass assembler (src/formal_translation/a-salt.rkt). */
module Assembler {
  import opened Options
  import opened Salt

  function StripLabels(code: seq<Instr>): (r: seq<Instr>)
    ensures forall i :: i in r ==> !i.Label?
  {
    if code == [] then []
    else if code[0].Label? then StripLabels(code[1..])
    else [code[0]] + StripLabels(code[1..])
  }

  /** Number of real instructions. */
  function Size(code: seq<Instr>): (n: nat)
    ensures n <= |code|
    ensures n == |StripLabels(code)|
  {
    if code == [] then 0 else (if code[0].Label? then 0 else 1) + Size(code[1..])
  }

  /** Label definitions of code placed at pc; a later definition overwrites an earlier one. */
  function Labels(code: seq<Instr>, pc: nat): map<Name, int>
  {
    if code == [] then map[]
    else if code[0].Label? then map[code[0].name := pc] + Labels(code[1..], pc)
    else Labels(code[1..], pc + 1)
  }

  function ReplaceOperand(lm: map<Name, int>, o: Operand): Option<Operand>
  {
    match o
    case Sym(l) => if l in lm then Some(Const(Code(lm[l]))) else None
    case _ => Some(o)
  }

  /** Only these four instructions have their label operands replaced; add turns into mov. */
  function ReplaceLabel(lm: map<Name, int>, instr: Instr): Option<Instr>
  {
    match instr
    case Call(o) => (match ReplaceOperand(lm, o) case Some(o') => Some(Call(o')) case None => None)
    case Jmp(o) => (match ReplaceOperand(lm, o) case Some(o') => Some(Jmp(o')) case None => None)
    case Mov(rd, o) => (match ReplaceOperand(lm, o) case Some(o') => Some(Mov(rd, o')) case None => None)
    case Add(rd, Sym(l)) => if l in lm then Some(Mov(rd, Const(Code(lm[l])))) else None
    case _ => Some(instr)
  }

  function ReplaceLabels(lm: map<Name, int>, code: seq<Instr>): (r: Option<seq<Instr>>)
    ensures r.Some? ==> |r.value| == |code|
    ensures r.Some? ==> forall i :: 0 <= i < |code| ==> ReplaceLabel(lm, code[i]) == Some(r.value[i])
  {
    if code == [] then Some([]) else
    match (ReplaceLabel(lm, code[0]), ReplaceLabels(lm, code[1..]))
    case (Some(i), Some(r)) => Some([i] + r)
    case _ => None
  }

  /** The name that the assembler keeps for itself. */
  const RESERVED := "sp"

  /** The table that assemble uses: the symbol sp is bound to something that is not
      an instruction index, whatever a function of that name would be. */
  function Table(code: seq<Instr>): map<Name, int>
  {
    Labels(code, 0)[User(RESERVED) := -1]
  }

  function Assemble(code: seq<Instr>): Option<seq<Instr>>
  {
    ReplaceLabels(Table(code), StripLabels(code))
  }

  // ----- placed code -----

  datatype Image = Image(im: seq<Instr>, lm: map<Name, int>)

  /** The labelled code stands, resolved, at address a of the image. */
  ghost predicate CodeAt(c: Image, a: int, code: seq<Instr>)
    decreases |code|
  {
    if code == [] then 0 <= a <= |c.im|
    else if code[0].Label? then
      (code[0].name.Gen? ==> code[0].name in c.lm && c.lm[code[0].name] == a) && CodeAt(c, a, code[1..])
    else
      0 <= a < |c.im| && ReplaceLabel(c.lm, code[0]) == Some(c.im[a]) && CodeAt(c, a + 1, code[1..])
  }

  lemma {:induction false} SizeConcat(c1: seq<Instr>, c2: seq<Instr>)
    ensures StripLabels(c1 + c2) == StripLabels(c1) + StripLabels(c2)
    ensures Size(c1 + c2) == Size(c1) + Size(c2)
  {
    if c1 == [] {
      assert c1 + c2 == c2;
    } else {
      assert (c1 + c2)[1..] == c1[1..] + c2;
      SizeConcat(c1[1..], c2);
    }
  }

  lemma {:induction false} LabelsConcat(c1: seq<Instr>, c2: seq<Instr>, pc: nat)
    ensures Labels(c1 + c2, pc) == Labels(c1, pc) + Labels(c2, pc + Size(c1))
  {
    if c1 == [] {
      assert c1 + c2 == c2;
    } else {
      assert (c1 + c2)[1..] == c1[1..] + c2;
      LabelsConcat(c1[1..], c2, if c1[0].Label? then pc else pc + 1);
    }
  }

  lemma {:induction false} LabelsDomain(code: seq<Instr>, pc: nat, l: Name)
    ensures l in Labels(code, pc) <==> Label(l) in code
  {
    if code != [] {
      LabelsDomain(code[1..], if code[0].Label? then pc else pc + 1, l);
      assert code == [code[0]] + code[1..];
    }
  }

  lemma {:induction false} CodeAtSplit(c: Image, a: int, c1: seq<Instr>, c2: seq<Instr>)
    requires CodeAt(c, a, c1 + c2)
    ensures CodeAt(c, a, c1) && CodeAt(c, a + Size(c1), c2)
    decreases |c1|
  {
    if c1 == [] {
      assert c1 + c2 == c2;
      CodeAtBounds(c, a, c2);
    } else {
      assert (c1 + c2)[1..] == c1[1..] + c2;
      CodeAtSplit(c, if c1[0].Label? then a else a + 1, c1[1..], c2);
    }
  }

  lemma {:induction false} CodeAtBounds(c: Image, a: int, code: seq<Instr>)
    requires CodeAt(c, a, code)
    ensures 0 <= a <= a + Size(code) <= |c.im|
    decreases |code|
  {
    if code != [] {
      CodeAtBounds(c, if code[0].Label? then a else a + 1, code[1..]);
    }
  }

  lemma CodeAtSplit3(c: Image, a: int, c1: seq<Instr>, c2: seq<Instr>, c3: seq<Instr>)
    requires CodeAt(c, a, c1 + c2 + c3)
    ensures CodeAt(c, a, c1) && CodeAt(c, a + Size(c1), c2) && CodeAt(c, a + Size(c1) + Size(c2), c3)
    ensures Size(c1 + c2 + c3) == Size(c1) + Size(c2) + Size(c3)
  {
    CodeAtSplit(c, a, c1 + c2, c3);
    CodeAtSplit(c, a, c1, c2);
    SizeConcat(c1, c2);
    SizeConcat(c1 + c2, c3);
  }

  lemma SizeOne(i: Instr)
    ensures Size([i]) == if i.Label? then 0 else 1
  {
    assert [i][1..] == [];
  }

  predicate NoLabels(code: seq<Instr>)
  {
    forall i :: 0 <= i < |code| ==> !code[i].Label?
  }

  /** Straight-line code can be read off the image index by index. */
  lemma {:induction false} CodeAtPlain(c: Image, a: int, code: seq<Instr>)
    requires CodeAt(c, a, code) && NoLabels(code)
    ensures Size(code) == |code| && 0 <= a && a + |code| <= |c.im|
    ensures forall i :: 0 <= i < |code| ==> ReplaceLabel(c.lm, code[i]) == Some(c.im[a + i])
    decreases |code|
  {
    if code != [] {
      CodeAtPlain(c, a + 1, code[1..]);
      forall i | 0 <= i < |code|
        ensures ReplaceLabel(c.lm, code[i]) == Some(c.im[a + i])
      {
        if i > 0 {
          assert code[i] == code[1..][i - 1];
        }
      }
    }
  }

  /** The numbers of the generated labels that code defines. */
  function Gens(code: seq<Instr>): set<nat>
  {
    if code == [] then {}
    else if code[0].Label? && code[0].name.Gen? then {code[0].name.id} + Gens(code[1..])
    else Gens(code[1..])
  }

  /** No generated label is defined twice. */
  predicate UniqueGens(code: seq<Instr>)
  {
    code == [] ||
    (UniqueGens(code[1..]) && (code[0].Label? && code[0].name.Gen? ==> code[0].name.id !in Gens(code[1..])))
  }

  lemma {:induction false} GensConcat(a: seq<Instr>, b: seq<Instr>)
    ensures Gens(a + b) == Gens(a) + Gens(b)
    ensures UniqueGens(a + b) <==> UniqueGens(a) && UniqueGens(b) && Gens(a) !! Gens(b)
  {
    if a == [] {
      assert a + b == b;
    } else {
      assert (a + b)[1..] == a[1..] + b;
      GensConcat(a[1..], b);
    }
  }

  lemma {:induction false} GensDomain(code: seq<Instr>, id: nat)
    ensures id in Gens(code) <==> Label(Gen(id)) in code
  {
    if code != [] {
      GensDomain(code[1..], id);
      assert code == [code[0]] + code[1..];
    }
  }

  /** Assembly places the whole program at address 0. */
  lemma AssembledCodeAt(code: seq<Instr>, im: seq<Instr>)
    requires UniqueGens(code) && Assemble(code) == Some(im)
    ensures CodeAt(Image(im, Table(code)), 0, code)
    ensures Size(code) == |im|
  {
    hide CodeAt, UniqueGens, Table;
    assert code == [] + code;
    PlacedFrom([], code, code, im);
    AssembledSize(code, im);
  }

  lemma {:induction false} PlacedFrom(pre: seq<Instr>, rest: seq<Instr>, code: seq<Instr>, im: seq<Instr>)
    requires code == pre + rest && UniqueGens(code) && Assemble(code) == Some(im)
    ensures CodeAt(Image(im, Table(code)), Size(pre), rest)
    decreases |rest|
  {
    hide Assemble, Table, UniqueGens, ReplaceLabel, StripLabels, Labels;
    if rest == [] {
      assert code == pre;
      AssembledSize(code, im);
    } else {
      var first, rest' := rest[0], rest[1..];
      assert rest == [first] + rest';
      assert code == pre + [first] + rest';
      PlacedFrom(pre + [first], rest', code, im);
      SizeConcat(pre, [first]);
      if !first.Label? {
        InstructionPlaced(pre, first, rest', code, im);
      } else if first.name.Gen? {
        UniqueDefinition(pre, first.name, rest', code);
      }
    }
  }

  lemma AssembledSize(code: seq<Instr>, im: seq<Instr>)
    requires Assemble(code) == Some(im)
    ensures |im| == Size(code)
  {
  }

  lemma InstructionPlaced(pre: seq<Instr>, instr: Instr, rest: seq<Instr>, code: seq<Instr>, im: seq<Instr>)
    requires code == pre + [instr] + rest && !instr.Label? && Assemble(code) == Some(im)
    ensures Size(pre) < |im| && ReplaceLabel(Table(code), instr) == Some(im[Size(pre)])
  {
    SizeConcat(pre, [instr]);
    SizeConcat(pre + [instr], rest);
    assert StripLabels(code)[Size(pre)] == instr;
  }

  lemma UniqueDefinition(pre: seq<Instr>, l: Name, rest: seq<Instr>, code: seq<Instr>)
    requires code == pre + [Label(l)] + rest && UniqueGens(code) && l.Gen?
    ensures l in Table(code) && Table(code)[l] == Size(pre)
  {
    GensConcat(pre + [Label(l)], rest);
    GensConcat(pre, [Label(l)]);
    assert Gens([Label(l)]) == {l.id} by { assert [Label(l)][1..] == []; }
    GensDomain(rest, l.id);
    LastLabel(pre, l, rest);
  }

  lemma LastLabel(pre: seq<Instr>, l: Name, rest: seq<Instr>)
    requires Label(l) !in rest
    ensures l in Labels(pre + [Label(l)] + rest, 0)
    ensures Labels(pre + [Label(l)] + rest, 0)[l] == Size(pre)
  {
    SizeConcat(pre, [Label(l)]);
    SizeOne(Label(l));
    LabelsOne(l, Size(pre));
    LabelsConcat(pre + [Label(l)], rest, 0);
    LabelsConcat(pre, [Label(l)], 0);
    LabelsDomain(rest, Size(pre), l);
    hide Labels, Size, StripLabels;
  }

  lemma LabelsOne(l: Name, pc: nat)
    ensures Labels([Label(l)], pc) == map[l := pc]
  {
    assert [Label(l)][1..] == [];
  }

  /** A name defined as a user label resolves to the position of its last definition; but sp, which
      assemble rebinds, to no position at all. */
  lemma LastDefinition(pre: seq<Instr>, f: string, rest: seq<Instr>)
    requires Label(User(f)) !in rest
    ensures User(f) in Table(pre + [Label(User(f))] + rest)
    ensures Table(pre + [Label(User(f))] + rest)[User(f)] == if f == "sp" then -1 else Size(pre)
  {
    LastLabel(pre, User(f), rest);
  }
}
