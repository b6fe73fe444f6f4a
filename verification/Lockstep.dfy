/**
  Running labelled code directly: code pointers are positions in the text, labels are stepped
  over, and a name means the position of its last definition. Assembly is a lockstep simulation
  of that machine; all it does is renumber code pointers.
 */
module Lockstep {
  import opened Options
  import opened Salt
  import opened Assembler
  import opened Translate
  import L = Lexa

  // ----- the labelled machine -----

  /** Positions of label definitions; a later definition overwrites an earlier one. */
  function Positions(code: seq<Instr>, pos: nat): map<Name, int>
  {
    if code == [] then map[]
    else (if code[0].Label? then map[code[0].name := pos] else map[]) + Positions(code[1..], pos + 1)
  }

  function PositionTable(code: seq<Instr>): map<Name, int>
  {
    Positions(code, 0)[User(RESERVED) := -1]
  }

  /** The first instruction at or after position t that is not a label. */
  function SkipLabels(code: seq<Instr>, t: nat): (t': nat)
    requires t <= |code|
    ensures t <= t' <= |code| && (t' < |code| ==> !code[t'].Label?) && forall i :: t <= i < t' ==> code[i].Label?
    decreases |code| - t
  {
    if t < |code| && code[t].Label? then SkipLabels(code, t + 1) else t
  }

  /** What an instruction with a label means: the label is a code pointer, also for add. */
  function Meant(lm: map<Name, int>, instr: Instr): Option<Instr>
  {
    match instr
    case Add(rd, Sym(l)) => if l in lm then Some(Add(rd, Const(Code(lm[l])))) else None
    case _ => ReplaceLabel(lm, instr)
  }

  function LabelledStep(code: seq<Instr>, s: State): Option<State>
  {
    if !(s.pc.Code? && 0 <= s.pc.target <= |code|) then None else
    var t := SkipLabels(code, s.pc.target);
    if t == |code| then None else
    match Meant(PositionTable(code), code[t])
    case None => None
    case Some(instr) => Exec(s.(pc := Code(t + 1)), instr)
  }

  function LabelledRun(code: seq<Instr>, s: State, n: nat): Option<State>
  {
    if n == 0 then Some(s) else
    match LabelledRun(code, s, n - 1)
    case None => None
    case Some(s') => if s'.halted then Some(s') else LabelledStep(code, s')
  }

  // ----- renumbering -----

  /** The index of the next real instruction at a position. */
  function Renumber(code: seq<Instr>, w: Word): Word
  {
    if w.Code? && 0 <= w.target <= |code| then Code(Size(code[..w.target])) else w
  }

  function Words(code: seq<Instr>, ws: seq<Word>): (r: seq<Word>)
    ensures |r| == |ws| && forall i :: 0 <= i < |ws| ==> r[i] == Renumber(code, ws[i])
  {
    seq(|ws|, i requires 0 <= i < |ws| => Renumber(code, ws[i]))
  }

  function Blk(code: seq<Instr>, b: Block): Block
  {
    b.(ws := Words(code, b.ws))
  }

  function Mem(code: seq<Instr>, M: seq<Block>): (r: seq<Block>)
    ensures |r| == |M| && forall i :: 0 <= i < |M| ==> r[i] == Blk(code, M[i])
  {
    seq(|M|, i requires 0 <= i < |M| => Blk(code, M[i]))
  }

  function Renumbered(code: seq<Instr>, s: State): State
  {
    State(Words(code, s.R), Mem(code, s.M), Renumber(code, s.pc), Renumber(code, s.sp), s.halted)
  }

  function Opt(code: seq<Instr>, s: Option<State>): Option<State>
  {
    match s case None => None case Some(t) => Some(Renumbered(code, t))
  }

  function Opd(code: seq<Instr>, o: Operand): Operand
  {
    if o.Const? then Const(Renumber(code, o.w)) else o
  }

  function Ins(code: seq<Instr>, i: Instr): Instr
  {
    match i
    case Add(rd, o) => Add(rd, Opd(code, o))
    case Mov(rd, o) => Mov(rd, Opd(code, o))
    case Call(o) => Call(Opd(code, o))
    case Jmp(o) => Jmp(Opd(code, o))
    case Push(o) => Push(Opd(code, o))
    case _ => i
  }

  // ----- the machine does not look at code pointers -----

  lemma GetRenumbered(code: seq<Instr>, s: State, o: Operand)
    ensures GetOperand(Renumbered(code, s), Opd(code, o)) ==
            match GetOperand(s, o) case None => None case Some(w) => Some(Renumber(code, w))
  {
  }

  lemma MemUpdate(code: seq<Instr>, M: seq<Block>, b: nat, blk: Block)
    requires b < |M|
    ensures Mem(code, M[b := blk]) == Mem(code, M)[b := Blk(code, blk)]
  {
  }

  lemma MemSnoc(code: seq<Instr>, M: seq<Block>, blk: Block)
    ensures Mem(code, M + [blk]) == Mem(code, M) + [Blk(code, blk)]
  {
  }

  lemma WordsUpdate(code: seq<Instr>, ws: seq<Word>, i: nat, w: Word)
    requires i < |ws|
    ensures Words(code, ws[i := w]) == Words(code, ws)[i := Renumber(code, w)]
  {
  }

  lemma WordsSnoc(code: seq<Instr>, ws: seq<Word>, w: Word)
    ensures Words(code, ws + [w]) == Words(code, ws) + [Renumber(code, w)]
  {
  }

  lemma WordsCut(code: seq<Instr>, ws: seq<Word>, i: nat)
    requires i <= |ws|
    ensures Words(code, ws[..i]) == Words(code, ws)[..i]
  {
  }

  lemma SetRenumbered(code: seq<Instr>, s: State, l: Loc, w: Word)
    ensures SetLoc(Renumbered(code, s), l, Renumber(code, w)) == Opt(code, SetLoc(s, l, w))
  {
    match l
    case SP =>
      if SetLoc(s, l, w).Some? {
        var ws := s.M[w.b].ws;
        WordsCut(code, ws, -w.o);
        MemUpdate(code, s.M, w.b, Stk(ws[..-w.o]));
      }
    case Reg(r) =>
      if r < |s.R| {
        WordsUpdate(code, s.R, r, w);
      }
  }

  lemma ReadRenumbered(code: seq<Instr>, M: seq<Block>, b: int, o: int)
    ensures ReadMem(Mem(code, M), b, o) == match ReadMem(M, b, o) case None => None case Some(w) =>
            Some(Renumber(code, w))
  {
  }

  lemma WriteRenumbered(code: seq<Instr>, M: seq<Block>, b: int, o: int, w: Word)
    ensures WriteMem(Mem(code, M), b, o, Renumber(code, w)) == match WriteMem(M, b, o, w) case None =>
            None case Some(M') => Some(Mem(code, M'))
  {
    if WriteMem(M, b, o, w).Some? {
      var i := Index(M[b], o);
      WordsUpdate(code, M[b].ws, i, w);
      MemUpdate(code, M, b, M[b].(ws := M[b].ws[i := w]));
    }
  }

  lemma PushRenumbered(code: seq<Instr>, s: State, w: Word)
    ensures DoPushWord(Renumbered(code, s), Renumber(code, w)) == Opt(code, DoPushWord(s, w))
  {
    if DoPushWord(s, w).Some? {
      WordsSnoc(code, s.M[s.sp.b].ws, w);
      MemUpdate(code, s.M, s.sp.b, Stk(s.M[s.sp.b].ws + [w]));
    }
  }

  lemma SfreeRenumbered(code: seq<Instr>, s: State, i: int)
    ensures DoSfree(Renumbered(code, s), i) == Opt(code, DoSfree(s, i))
  {
    if DoSfree(s, i).Some? {
      var ws := s.M[s.sp.b].ws;
      WordsCut(code, ws, |ws| - i);
      MemUpdate(code, s.M, s.sp.b, Stk(ws[..|ws| - i]));
    }
  }

  lemma AddRenumbered(code: seq<Instr>, s: State, rd: Loc, o: Operand)
    ensures DoAdd(Renumbered(code, s), rd, Opd(code, o)) == Opt(code, DoAdd(s, rd, o))
  {
    GetRenumbered(code, s, From(rd));
    GetRenumbered(code, s, o);
    hide Renumbered, SetLoc;
    match (GetLoc(s, rd), GetOperand(s, o))
    case (Some(Addr(b, p)), Some(Int(i))) => SetRenumbered(code, s, rd, Addr(b, p + i));
    case (Some(Int(i)), Some(Addr(b, p))) => SetRenumbered(code, s, rd, Addr(b, p + i));
    case (Some(Int(i)), Some(Int(j))) => SetRenumbered(code, s, rd, Int(i + j));
    case _ =>
  }

  lemma AllocRenumbered(code: seq<Instr>, s: State, rd: Loc, i: int)
    ensures DoMkstk(Renumbered(code, s), rd) == Opt(code, DoMkstk(s, rd))
    ensures DoMalloc(Renumbered(code, s), rd, i) == Opt(code, DoMalloc(s, rd, i))
  {
    MemSnoc(code, s.M, Stk([]));
    assert Words(code, []) == [];
    SetRenumbered(code, s.(M := s.M + [Stk([])]), rd, Addr(|s.M|, 0));
    if i >= 0 {
      MemSnoc(code, s.M, Arr(Zeros(i)));
      assert Words(code, Zeros(i)) == Zeros(i);
      SetRenumbered(code, s.(M := s.M + [Arr(Zeros(i))]), rd, Addr(|s.M|, 0));
    }
  }

  lemma LoadRenumbered(code: seq<Instr>, s: State, rd: Loc, rs: Loc, off: Option<int>)
    ensures DoLoad(Renumbered(code, s), rd, rs, off) == Opt(code, DoLoad(s, rd, rs, off))
  {
    GetRenumbered(code, s, From(rs));
    match (GetLoc(s, rs), off)
    case (Some(Addr(b, p)), Some(i)) =>
      ReadRenumbered(code, s.M, b, p + i);
      hide SetLoc, ReadMem, GetLoc;
      if ReadMem(s.M, b, p + i).Some? {
        SetRenumbered(code, s, rd, ReadMem(s.M, b, p + i).value);
      }
    case _ =>
  }

  lemma StoreRenumbered(code: seq<Instr>, s: State, rs: Loc, rd: Loc, i: int)
    ensures DoStore(Renumbered(code, s), rs, rd, i) == Opt(code, DoStore(s, rs, rd, i))
  {
    GetRenumbered(code, s, From(rs));
    GetRenumbered(code, s, From(rd));
    match (GetLoc(s, rd), GetLoc(s, rs))
    case (Some(Addr(b, p)), Some(w)) => WriteRenumbered(code, s.M, b, p + i, w);
    case _ =>
  }

  lemma ReturnRenumbered(code: seq<Instr>, s: State)
    ensures DoReturn(Renumbered(code, s)) == Opt(code, DoReturn(s))
  {
    if s.sp.Addr? {
      ReadRenumbered(code, s.M, s.sp.b, s.sp.o);
      SfreeRenumbered(code, s, 1);
    }
  }

  lemma PopRenumbered(code: seq<Instr>, s: State, rd: Loc)
    ensures DoPop(Renumbered(code, s), rd) == Opt(code, DoPop(s, rd))
  {
    if s.sp.Addr? && IsStack(s.M, s.sp.b) {
      var ws := s.M[s.sp.b].ws;
      if 0 <= -s.sp.o - 1 < |ws| {
        SetRenumbered(code, s, rd, ws[-s.sp.o - 1]);
        if SetLoc(s, rd, ws[-s.sp.o - 1]).Some? {
          WordsCut(code, ws, |ws| - 1);
          MemUpdate(code, SetLoc(s, rd, ws[-s.sp.o - 1]).value.M, s.sp.b, Stk(ws[..|ws| - 1]));
        }
      }
    }
  }

  lemma CallRenumbered(code: seq<Instr>, s: State, o: Operand)
    ensures DoCall(Renumbered(code, s), Opd(code, o)) == Opt(code, DoCall(s, o))
    ensures DoJmp(Renumbered(code, s), Opd(code, o)) == Opt(code, DoJmp(s, o))
    ensures DoPush(Renumbered(code, s), Opd(code, o)) == Opt(code, DoPush(s, o))
    ensures forall rd :: DoMov(Renumbered(code, s), rd, Opd(code, o)) == Opt(code, DoMov(s, rd, o))
  {
    GetRenumbered(code, s, o);
    PushRenumbered(code, s, s.pc);
    if GetOperand(s, o).Some? {
      PushRenumbered(code, s, GetOperand(s, o).value);
      forall rd
        ensures DoMov(Renumbered(code, s), rd, Opd(code, o)) == Opt(code, DoMov(s, rd, o))
      {
        SetRenumbered(code, s, rd, GetOperand(s, o).value);
      }
    }
    if DoPushWord(s, s.pc).Some? {
      GetRenumbered(code, DoPushWord(s, s.pc).value, o);
    }
  }

  lemma ExecRenumbered(code: seq<Instr>, s: State, instr: Instr)
    ensures Exec(Renumbered(code, s), Ins(code, instr)) == Opt(code, Exec(s, instr))
  {
    hide DoAdd, DoMkstk, DoMalloc, DoMov, DoSfree, DoLoad, DoStore, DoPush, DoJmp, DoCall, DoReturn, DoPop;
    match instr
    case Add(rd, o) => AddRenumbered(code, s, rd, o);
    case Mkstk(rd) => AllocRenumbered(code, s, rd, 0);
    case Sfree(i) => SfreeRenumbered(code, s, i);
    case Malloc(rd, i) => AllocRenumbered(code, s, rd, i);
    case Mov(rd, o) => CallRenumbered(code, s, o);
    case Load(rd, rs, off) => LoadRenumbered(code, s, rd, rs, off);
    case Store(rs, rd, i) => StoreRenumbered(code, s, rs, rd, i);
    case Call(o) => CallRenumbered(code, s, o);
    case Jmp(o) => CallRenumbered(code, s, o);
    case Return => ReturnRenumbered(code, s);
    case Push(o) => CallRenumbered(code, s, o);
    case Pop(rd) => PopRenumbered(code, s, rd);
    case _ =>
  }

  // ----- assembled code -----

  /** Source operands hold no code pointers; those come from labels only. */
  predicate Plain(instr: Instr)
  {
    match instr
    case Add(_, o) => !(o.Const? && o.w.Code?)
    case Mov(_, o) => !(o.Const? && o.w.Code?)
    case Call(o) => !(o.Const? && o.w.Code?)
    case Jmp(o) => !(o.Const? && o.w.Code?)
    case Push(o) => !(o.Const? && o.w.Code?)
    case _ => true
  }

  predicate AllPlain(code: seq<Instr>)
  {
    forall i :: 0 <= i < |code| ==> Plain(code[i])
  }

  /** A label resolves to the index of the next real instruction after its definition. */
  lemma {:induction false} LabelIndex(pre: seq<Instr>, rest: seq<Instr>, l: Name)
    ensures l in Labels(rest, Size(pre)) <==> l in Positions(rest, |pre|)
    ensures l in Positions(rest, |pre|) ==>
              var p := Positions(rest, |pre|)[l];
              |pre| <= p < |pre| + |rest| && Labels(rest, Size(pre))[l] == Size((pre + rest)[..p])
    decreases |rest|
  {
    if rest != [] {
      var pre' := pre + [rest[0]];
      assert pre' + rest[1..] == pre + rest;
      SizeConcat(pre, [rest[0]]);
      SizeOne(rest[0]);
      LabelIndex(pre', rest[1..], l);
      assert (pre + rest)[..|pre|] == pre;
    }
  }

  lemma ReplacedIsRenumbered(code: seq<Instr>, instr: Instr)
    requires Plain(instr)
    ensures ReplaceLabel(Table(code), instr) == match ReplaceLabel(PositionTable(code), instr) case None =>
            None case Some(i) => Some(Ins(code, i))
  {
    forall l: Name
      ensures l in Table(code) <==> l in PositionTable(code)
      ensures l in Table(code) ==> Renumber(code, Code(PositionTable(code)[l])) == Code(Table(code)[l])
    {
      LabelIndex([], code, l);
      assert [] + code == code;
    }
    hide Renumber, Table, PositionTable;
  }

  lemma {:induction false} SkipSize(code: seq<Instr>, t: nat)
    requires t <= |code|
    ensures Size(code[..SkipLabels(code, t)]) == Size(code[..t])
    decreases |code| - t
  {
    if t < |code| && code[t].Label? {
      assert code[..t + 1] == code[..t] + [code[t]];
      SizeConcat(code[..t], [code[t]]);
      SizeOne(code[t]);
      SkipSize(code, t + 1);
    }
  }

  /** The real instruction at position t is the one at index Size(code[..t]). */
  lemma RealAt(code: seq<Instr>, t: nat)
    requires t < |code| && !code[t].Label?
    ensures Size(code[..t]) < |StripLabels(code)| && StripLabels(code)[Size(code[..t])] == code[t]
    ensures Size(code[..t + 1]) == Size(code[..t]) + 1
  {
    assert code == code[..t] + [code[t]] + code[t + 1..];
    assert code[..t + 1] == code[..t] + [code[t]];
    SizeOne(code[t]);
    SizeConcat(code[..t], [code[t]]);
    SizeConcat(code[..t] + [code[t]], code[t + 1..]);
  }

  lemma AllSize(code: seq<Instr>)
    ensures Size(code[..|code|]) == Size(code)
  {
    assert code[..|code|] == code;
  }

  predicate AddsLabel(instr: Instr)
  {
    instr.Add? && instr.o.Sym?
  }

  /** The instruction that both machines find. */
  lemma SameInstruction(code: seq<Instr>, im: seq<Instr>, t: nat)
    requires Assemble(code) == Some(im) && AllPlain(code) && t < |code| && !code[t].Label?
    ensures Size(code[..t]) < |im| && Size(code[..t + 1]) == Size(code[..t]) + 1
    ensures ReplaceLabel(PositionTable(code), code[t]).Some?
    ensures im[Size(code[..t])] == Ins(code, ReplaceLabel(PositionTable(code), code[t]).value)
  {
    AssembledSize(code, im);
    RealAt(code, t);
    assert ReplaceLabel(Table(code), StripLabels(code)[Size(code[..t])]) == Some(im[Size(code[..t])]);
    ReplacedIsRenumbered(code, code[t]);
  }

  lemma PcRenumbered(code: seq<Instr>, s: State, t: nat)
    requires t <= |code|
    ensures Renumbered(code, s.(pc := Code(t))) == Renumbered(code, s).(pc := Code(Size(code[..t])))
  {
  }

  lemma StepAt(code: seq<Instr>, im: seq<Instr>, s: State, t: nat)
    requires Assemble(code) == Some(im) && AllPlain(code) && t < |code| && !code[t].Label?
    requires Renumber(code, s.pc) == Code(Size(code[..t]))
    ensures ReplaceLabel(PositionTable(code), code[t]).Some?
    ensures Step(im, Renumbered(code, s)) == Opt(code,
                                                 Exec(s.(pc := Code(t + 1)),
                                                      ReplaceLabel(PositionTable(code), code[t]).value))
  {
    assert Renumbered(code, s).pc == Code(Size(code[..t]));
    hide Exec, ReplaceLabel, Assemble, Size, Ins, Renumbered, Renumber, AllPlain;
    SameInstruction(code, im, t);
    PcRenumbered(code, s, t + 1);
    ExecRenumbered(code, s.(pc := Code(t + 1)), ReplaceLabel(PositionTable(code), code[t]).value);
  }

  /** The next instruction adds a label to a register: an addition of a code pointer is an exception,
      but the assembler has made a mov of it. */
  predicate Misread(code: seq<Instr>, s: State)
  {
    s.pc.Code? && 0 <= s.pc.target <= |code| &&
    var t := SkipLabels(code, s.pc.target);
    t < |code| && AddsLabel(code[t]) && code[t].rd.Reg? && code[t].rd.r < |s.R|
  }

  /** The only instruction on which what is meant and what is assembled differ. */
  lemma MeantOrMisread(code: seq<Instr>, im: seq<Instr>, s: State, t: nat)
    requires s.pc.Code? && 0 <= s.pc.target <= |code| && t == SkipLabels(code, s.pc.target) && t < |code|
    requires ReplaceLabel(PositionTable(code), code[t]).Some?
    ensures Meant(PositionTable(code), code[t]).Some?
    ensures var s1, lm := s.(pc := Code(t + 1)), PositionTable(code);
            Exec(s1, ReplaceLabel(lm, code[t]).value) == Exec(s1, Meant(lm, code[t]).value) <==> !Misread(code, s)
    ensures Misread(code, s) ==> Exec(s.(pc := Code(t + 1)), Meant(PositionTable(code), code[t]).value) == None
  {
    hide PositionTable, SkipLabels;
    if AddsLabel(code[t]) {
      var s1, rd, w := s.(pc := Code(t + 1)), code[t].rd, Const(Code(PositionTable(code)[code[t].o.name]));
      assert Exec(s1, Add(rd, w)) == None;
      assert Exec(s1, Mov(rd, w)).Some? <==> rd.Reg? && rd.r < |s.R|;
    }
  }

  /** Exactly: one step of the labelled machine is one step of the assembled one, faults included,
      if and only if it does not add a label to a register. */
  lemma StepSimulated(code: seq<Instr>, im: seq<Instr>, s: State)
    requires Assemble(code) == Some(im) && AllPlain(code)
    ensures Step(im, Renumbered(code, s)) == Opt(code, LabelledStep(code, s)) <==> !Misread(code, s)
    ensures Misread(code, s) ==> LabelledStep(code, s) == None
  {
    hide Exec, ReplaceLabel, Assemble, SkipLabels, AllPlain, PositionTable, Size, Renumbered, Meant;
    if s.pc.Code? && 0 <= s.pc.target <= |code| {
      var t := SkipLabels(code, s.pc.target);
      if t < |code| {
        RealNext(code, s);
        StepAt(code, im, s, t);
        MeantOrMisread(code, im, s, t);
      } else {
        EndFaults(code, im, s);
      }
    } else {
      OutsideFaults(code, im, s);
    }
  }

  lemma RealNext(code: seq<Instr>, s: State)
    requires s.pc.Code? && 0 <= s.pc.target <= |code| && SkipLabels(code, s.pc.target) < |code|
    ensures var t := SkipLabels(code, s.pc.target); !code[t].Label? && Renumber(code, s.pc) == Code(Size(code[..t]))
  {
    hide SkipLabels, Size;
    SkipSize(code, s.pc.target);
  }

  lemma EndFaults(code: seq<Instr>, im: seq<Instr>, s: State)
    requires Assemble(code) == Some(im) && s.pc.Code? && 0 <= s.pc.target <= |code|
    requires SkipLabels(code, s.pc.target) == |code|
    ensures Step(im, Renumbered(code, s)) == None
  {
    hide Exec, ReplaceLabel, Assemble, SkipLabels, Size;
    AssembledSize(code, im);
    SkipSize(code, s.pc.target);
    AllSize(code);
  }

  lemma OutsideFaults(code: seq<Instr>, im: seq<Instr>, s: State)
    requires Assemble(code) == Some(im) && !(s.pc.Code? && 0 <= s.pc.target <= |code|)
    ensures Step(im, Renumbered(code, s)) == None
  {
    hide Exec, ReplaceLabel, Assemble;
    AssembledSize(code, im);
  }

  /** In its first n steps the labelled run adds no label to a register. */
  ghost predicate NeverMisreads(code: seq<Instr>, n: nat)
  {
    forall k: nat :: k < n && LabelledRun(code, Boot(), k).Some? && !LabelledRun(code, Boot(), k).value.halted ==>
      !Misread(code, LabelledRun(code, Boot(), k).value)
  }

  ghost predicate SameRuns(code: seq<Instr>, im: seq<Instr>, n: nat)
  {
    forall k: nat :: k <= n ==> Run(im, Boot(), k) == Opt(code, LabelledRun(code, Boot(), k))
  }

  lemma BootSimulated(code: seq<Instr>, im: seq<Instr>)
    ensures Run(im, Boot(), 0) == Opt(code, LabelledRun(code, Boot(), 0))
  {
    assert Words(code, Zeros(REGISTERS)) == Zeros(REGISTERS) && Words(code, []) == [];
    assert Mem(code, [Stk([])]) == [Stk([])] && code[..0] == [];
  }

  /** Exactly: the assembled run is the labelled run, step for step, to the same faults and the same
      halt, if and only if no label is added to a register. */
  lemma {:induction false} RunSimulated(code: seq<Instr>, im: seq<Instr>, n: nat)
    requires Assemble(code) == Some(im) && AllPlain(code)
    ensures SameRuns(code, im, n) <==> NeverMisreads(code, n)
  {
    if n == 0 {
      BootSimulated(code, im);
    } else {
      RunSimulated(code, im, n - 1);
      OneMore(code, im, n - 1);
    }
  }

  lemma OneMore(code: seq<Instr>, im: seq<Instr>, n: nat)
    requires Assemble(code) == Some(im) && AllPlain(code)
    ensures SameRuns(code, im, n + 1) <==>
              SameRuns(code, im, n) && Run(im, Boot(), n + 1) == Opt(code, LabelledRun(code, Boot(), n + 1))
    ensures SameRuns(code, im, n) ==>
              (Run(im, Boot(), n + 1) == Opt(code, LabelledRun(code, Boot(), n + 1)) <==>
               (LabelledRun(code, Boot(), n).Some? && !LabelledRun(code, Boot(), n).value.halted ==>
                  !Misread(code, LabelledRun(code, Boot(), n).value)))
    ensures NeverMisreads(code, n + 1) <==>
              NeverMisreads(code, n) &&
              (LabelledRun(code, Boot(), n).Some? && !LabelledRun(code, Boot(), n).value.halted ==>
                 !Misread(code, LabelledRun(code, Boot(), n).value))
  {
    hide AllPlain, Assemble, LabelledStep, Step, Misread;
    if LabelledRun(code, Boot(), n).Some? {
      StepSimulated(code, im, LabelledRun(code, Boot(), n).value);
    }
  }

  // ----- what the compiler emits -----

  /** No code pointers but through labels, and no label is added. */
  predicate Emitted(instr: Instr)
  {
    Plain(instr) && !AddsLabel(instr)
  }

  predicate AllEmitted(code: seq<Instr>)
  {
    forall i :: 0 <= i < |code| ==> Emitted(code[i])
  }

  lemma {:induction false} ListsPlain(names: seq<string>, vs: seq<L.Value>)
    ensures AllEmitted(CompileArgs(names, vs)) && AllEmitted(CompileFields(names, vs))
    decreases |vs|
  {
    if vs != [] {
      ListsPlain(names, vs[..|vs| - 1]);
    }
  }

  lemma PlainJoin(a: seq<Instr>, b: seq<Instr>)
    requires AllEmitted(a) && AllEmitted(b)
    ensures AllEmitted(a + b)
  {
    hide Emitted;
  }

  lemma ValuePlain(names: seq<string>, v: L.Value, r: nat)
    ensures AllEmitted(CompileValue(names, v, r))
  {
  }

  /** Two values and what is done with them. */
  lemma PairPlain(names: seq<string>, v1: L.Value, r1: nat, v2: L.Value, r2: nat, rest: seq<Instr>)
    requires AllEmitted(rest)
    ensures AllEmitted(CompileValue(names, v1, r1) + CompileValue(names, v2, r2) + rest)
  {
    hide Emitted, CompileValue, AllEmitted;
    ValuePlain(names, v1, r1);
    ValuePlain(names, v2, r2);
    PlainJoin(CompileValue(names, v1, r1), CompileValue(names, v2, r2));
    PlainJoin(CompileValue(names, v1, r1) + CompileValue(names, v2, r2), rest);
  }

  lemma InstallPlain(names: seq<string>, body: string, kind: L.Kind, op: string, under: L.Value, l1: Name)
    ensures AllEmitted(InstallCode(names, body, kind, op, under, l1))
  {
    ValuePlain(names, under, 3);
    hide CompileValue;
  }

  lemma BeforePlain(names: seq<string>, rhs: L.Rhs, l1: Name)
    ensures AllEmitted(Before(names, rhs, l1))
  {
    hide CompileValue, CompileArgs, CompileFields, InstallCode;
    match rhs
    case Plus(v1, v2) => PairPlain(names, v1, 1, v2, 2, [Add(R2, From(R1)), Push(From(R2))]);
    case CallFn(f, args) =>
      ValuePlain(names, f, 0);
      ListsPlain(names, args);
      PlainJoin(CompileValue(names, f, 0), CompileArgs(names, args));
    case NewRef(vs) => ListsPlain(names, vs);
    case Select(v, i) => ValuePlain(names, v, 1);
    case Update(a, i, v) => PairPlain(names, v, 1, a, 2, [Store(R1, R2, i), Push(From(R1))]);
    case HandleNew(body, kind, op, under) => InstallPlain(names, body, kind, op, under, l1);
    case HandleSame(body, kind, op, under) => InstallPlain(names, body, kind, op, under, l1);
    case Raise(lab, arg) => PairPlain(names, arg, 2, lab, 1, [Call(Operand.Sym(l1)), Push(From(R1))]);
    case TailRaise(lab, arg) =>
      PairPlain(names, arg, 2, lab, 1, [Load(R3, R1, Some(3)), Load(R1, R1, Some(2)), Call(From(R3)), Push(From(R1))]);
    case AbortRaise(lab, arg) =>
      PairPlain(names, arg, 2, lab, 1,
                [Dump, Load(R3, R1, Some(3)), Mov(SP, From(R1)), Load(R1, R1, Some(2)), Dump, Sfree(4), Jmp(From(R3))]);
    case Resume(k, arg) => PairPlain(names, arg, 2, k, 1, [Dump, Call(Operand.Sym(l1)), Push(From(R1))]);
    case Atom(v) => ValuePlain(names, v, 1);
    case Exits(_) =>
  }

  lemma AfterPlain(rhs: L.Rhs, l1: Name, l2: Name)
    ensures AllEmitted(After(rhs, l1, l2))
  {
  }

  lemma {:induction false} StmtPlain(names: seq<string>, s: L.Stmt, next: nat)
    ensures AllEmitted(CompileStmt(names, s, next).code)
    decreases s
  {
    match s
    case Ret(v) =>
    case Let(x, rhs, t) =>
      var cb := CompileStmt([x] + names, t, next);
      StmtPlain([x] + names, t, next);
      BeforePlain(names, rhs, Gen(cb.next));
      AfterPlain(rhs, Gen(cb.next), Gen(cb.next + 1));
      hide Before, After, Emitted;
  }

  lemma {:induction false} PushesPlain(n: nat)
    ensures AllEmitted(PushParams(n))
  {
    if n > 0 {
      PushesPlain(n - 1);
    }
  }

  lemma FunPlain(d: L.Fun, next: nat)
    ensures AllEmitted(FunBody(d, CompileStmt(d.params, d.body, next)))
  {
    PushesPlain(|d.params|);
    StmtPlain(d.params, d.body, next);
    hide CompileStmt, PushParams;
  }

  lemma {:induction false} FunsPlain(p: L.Program, next: nat)
    ensures AllEmitted(CompileFuns(p, next))
    decreases |p|
  {
    if p != [] {
      var d := p[0];
      var body := CompileStmt(d.params, d.body, next);
      FunPlain(d, next);
      FunsPlain(p[1..], body.next + 1);
      hide CompileStmt, FunBody;
      var head, skip := [Jmp(Operand.Sym(Gen(body.next))), Label(User(d.name))], [Label(Gen(body.next))];
      assert AllEmitted(head) && AllEmitted(skip);
      hide AllEmitted, Emitted;
      PlainJoin(head, FunBody(d, body));
      PlainJoin(head + FunBody(d, body), skip);
      PlainJoin(head + FunBody(d, body) + skip, CompileFuns(p[1..], body.next + 1));
    }
  }

  lemma EmittedAddsNone(code: seq<Instr>, s: State)
    requires AllEmitted(code)
    ensures AllPlain(code) && !Misread(code, s)
  {
  }

  /** Every program that the compiler emits and the assembler accepts. */
  lemma CompiledRunSimulated(p: L.Program, im: seq<Instr>, n: nat)
    requires CompileProgram(p).Some? && Assemble(CompileProgram(p).value) == Some(im)
    ensures var code := CompileProgram(p).value; Run(im, Boot(), n) == Opt(code, LabelledRun(code, Boot(), n))
  {
    var code := CompileProgram(p).value;
    FunsPlain(p, 0);
    forall s: State
      ensures AllPlain(code) && !Misread(code, s)
    {
      EmittedAddsNone(code, s);
    }
    hide Misread, AllEmitted, AllPlain, Run, LabelledRun;
    RunSimulated(code, im, n);
  }
}
