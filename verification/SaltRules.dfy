/**
  One rule per Salt instruction, for a machine whose sp is the end of its running stack.
  All code that the translation emits keeps sp there.
 */
module SaltRules {
  import opened Options
  import opened Salt

  /** Exactly: pop gives back the pushed word if and only if sp was at the end of its stack, or the
      word in the slot that sp then selected is the same. */
  lemma PushThenPop(s: State, w: Word, r: nat)
    requires s.sp.Addr? && IsStack(s.M, s.sp.b) && 0 <= -s.sp.o <= |s.M[s.sp.b].ws| && r < |s.R|
    ensures DoPushWord(s, w).Some? && DoPop(DoPushWord(s, w).value, Reg(r)).Some?
    ensures DoPop(DoPushWord(s, w).value, Reg(r)).value == s.(R := s.R[r := w]) <==>
            -s.sp.o == |s.M[s.sp.b].ws| || s.M[s.sp.b].ws[-s.sp.o] == w
  {
    var ws := s.M[s.sp.b].ws;
    var s2 := DoPop(DoPushWord(s, w).value, Reg(r)).value;
    assert (ws + [w])[..|ws|] == ws;
    assert s2.M == s.M;
    assert s2.R[r] == (ws + [w])[-s.sp.o];
    assert s2.R == s.R[r := s2.R[r]];
  }

  /** A call from the end of the running stack: however the callee leaves registers and other
      blocks, when it returns with sp and its stack as it found them, the caller goes on after the
      call, with its stack as it was. */
  lemma CallThenReturn(s: State, o: Operand, t: State)
    requires DoCall(s, o).Some? && -s.sp.o == |s.M[s.sp.b].ws|
    requires t.sp == DoCall(s, o).value.sp && IsStack(t.M, s.sp.b) && t.M[s.sp.b] == DoCall(s, o).value.M[s.sp.b]
    ensures DoReturn(t).Some?
    ensures var t' := DoReturn(t).value;
            t'.pc == s.pc && t'.sp == s.sp && t'.M == t.M[s.sp.b := s.M[s.sp.b]] && t'.R == t.R
  {
    var ws := s.M[s.sp.b].ws;
    assert (ws + [s.pc])[..|ws|] == ws;
  }

  /** After n steps from s0 the machine is at pc on stack b, with sp at the stack's end. */
  ghost predicate At(im: seq<Instr>, s0: State, n: nat, R: seq<Word>, M: seq<Block>, pc: int, b: nat)
  {
    |R| == REGISTERS && IsStack(M, b) &&
    Run(im, s0, n) == Some(State(R, M, Code(pc), Addr(b, 0 - |M[b].ws|), false))
  }

  function OperandWord(R: seq<Word>, M: seq<Block>, b: nat, o: Operand): Option<Word>
    requires IsStack(M, b)
  {
    match o
    case From(SP) => Some(Addr(b, 0 - |M[b].ws|))
    case From(Reg(r)) => if r < |R| then Some(R[r]) else None
    case Const(w) => Some(w)
    case Sym(_) => None
  }

  lemma NextStep(im: seq<Instr>, s0: State, n: nat, R: seq<Word>, M: seq<Block>, pc: int, b: nat)
    requires At(im, s0, n, R, M, pc, b) && 0 <= pc < |im|
    ensures Run(im, s0, n + 1) == Exec(State(R, M, Code(pc + 1), Addr(b, 0 - |M[b].ws|), false), im[pc])
  {
    hide Exec;
  }

  lemma DoMovReg(im: seq<Instr>, s0: State, n: nat, R: seq<Word>, M: seq<Block>, pc: int, b: nat, r: nat, o: Operand)
    requires At(im, s0, n, R, M, pc, b) && 0 <= pc < |im| && im[pc] == Mov(Reg(r), o) && r < REGISTERS
    requires OperandWord(R, M, b, o).Some?
    ensures At(im, s0, n + 1, R[r := OperandWord(R, M, b, o).value], M, pc + 1, b)
  {
    NextStep(im, s0, n, R, M, pc, b);
    hide Run, Step;
  }

  lemma DoMovSp(im: seq<Instr>, s0: State, n: nat, R: seq<Word>, M: seq<Block>, pc: int, b: nat, r: nat, b': nat,
                k: nat)
    requires At(im, s0, n, R, M, pc, b) && 0 <= pc < |im| && im[pc] == Mov(SP, From(Reg(r))) && r < REGISTERS
    requires R[r] == Addr(b', 0 - k) && IsStack(M, b') && k <= |M[b'].ws|
    ensures At(im, s0, n + 1, R, M[b' := Stk(M[b'].ws[..k])], pc + 1, b')
  {
    NextStep(im, s0, n, R, M, pc, b);
    hide Run, Step;
  }

  /** Slot i from the top of the running stack. */
  lemma DoLoadSlot(im: seq<Instr>, s0: State, n: nat, R: seq<Word>, M: seq<Block>, pc: int, b: nat, r: nat, i: nat)
    requires At(im, s0, n, R, M, pc, b) && 0 <= pc < |im| && im[pc] == Load(Reg(r), SP, Some(i)) && r < REGISTERS
    requires i < |M[b].ws|
    ensures At(im, s0, n + 1, R[r := M[b].ws[|M[b].ws| - 1 - i]], M, pc + 1, b)
  {
    NextStep(im, s0, n, R, M, pc, b);
    hide Run, Step;
  }

  lemma DoLoadMem(im: seq<Instr>, s0: State, n: nat, R: seq<Word>, M: seq<Block>, pc: int, b: nat, r: nat, rs: nat,
                  i: int)
    requires At(im, s0, n, R, M, pc, b) && 0 <= pc < |im| && im[pc] == Load(Reg(r), Reg(rs), Some(i))
    requires r < REGISTERS && rs < REGISTERS && R[rs].Addr? && ReadMem(M, R[rs].b, R[rs].o + i).Some?
    ensures At(im, s0, n + 1, R[r := ReadMem(M, R[rs].b, R[rs].o + i).value], M, pc + 1, b)
  {
    NextStep(im, s0, n, R, M, pc, b);
    hide Run, Step;
  }

  lemma WriteKeepsShape(M: seq<Block>, b': int, o: int, w: Word, b: nat)
    requires WriteMem(M, b', o, w).Some? && IsStack(M, b)
    ensures IsStack(WriteMem(M, b', o, w).value, b)
    ensures |WriteMem(M, b', o, w).value[b].ws| == |M[b].ws|
  {
  }

  lemma StoreExec(R: seq<Word>, M: seq<Block>, pc: int, b: nat, rs: Loc, rd: nat, i: int)
    requires IsStack(M, b) && rd < |R| && R[rd].Addr? && OperandWord(R, M, b, From(rs)).Some?
    requires WriteMem(M, R[rd].b, R[rd].o + i, OperandWord(R, M, b, From(rs)).value).Some?
    ensures Exec(State(R, M, Code(pc), Addr(b, 0 - |M[b].ws|), false), Store(rs, Reg(rd), i))
            == Some(State(R, WriteMem(M, R[rd].b, R[rd].o + i, OperandWord(R, M, b, From(rs)).value).value, Code(pc),
                          Addr(b, 0 - |M[b].ws|), false))
  {
    hide WriteMem;
  }

  lemma DoStoreMem(im: seq<Instr>, s0: State, n: nat, R: seq<Word>, M: seq<Block>, pc: int, b: nat, rs: Loc, rd: nat,
                   i: int)
    requires At(im, s0, n, R, M, pc, b) && 0 <= pc < |im| && im[pc] == Store(rs, Reg(rd), i)
    requires rd < REGISTERS && R[rd].Addr? && OperandWord(R, M, b, From(rs)).Some?
    requires WriteMem(M, R[rd].b, R[rd].o + i, OperandWord(R, M, b, From(rs)).value).Some?
    ensures At(im, s0, n + 1, R, WriteMem(M, R[rd].b, R[rd].o + i, OperandWord(R, M, b, From(rs)).value).value, pc + 1,
               b)
  {
    NextStep(im, s0, n, R, M, pc, b);
    hide Run, Step, Exec, WriteMem, OperandWord;
    StoreExec(R, M, pc + 1, b, rs, rd, i);
    WriteKeepsShape(M, R[rd].b, R[rd].o + i, OperandWord(R, M, b, From(rs)).value, b);
  }

  lemma DoAddInts(im: seq<Instr>, s0: State, n: nat, R: seq<Word>, M: seq<Block>, pc: int, b: nat, r: nat, rs: nat)
    requires At(im, s0, n, R, M, pc, b) && 0 <= pc < |im| && im[pc] == Add(Reg(r), From(Reg(rs)))
    requires r < REGISTERS && rs < REGISTERS && R[r].Int? && R[rs].Int?
    ensures At(im, s0, n + 1, R[r := Int(R[r].n + R[rs].n)], M, pc + 1, b)
  {
    NextStep(im, s0, n, R, M, pc, b);
    hide Run, Step;
  }

  lemma DoMkstkSp(im: seq<Instr>, s0: State, n: nat, R: seq<Word>, M: seq<Block>, pc: int, b: nat)
    requires At(im, s0, n, R, M, pc, b) && 0 <= pc < |im| && im[pc] == Mkstk(SP)
    ensures At(im, s0, n + 1, R, M + [Stk([])], pc + 1, |M|)
  {
    NextStep(im, s0, n, R, M, pc, b);
    hide Run, Step;
    assert (M + [Stk([])])[|M| := Stk([])] == M + [Stk([])];
  }

  lemma DoMallocReg(im: seq<Instr>, s0: State, n: nat, R: seq<Word>, M: seq<Block>, pc: int, b: nat, r: nat, i: nat)
    requires At(im, s0, n, R, M, pc, b) && 0 <= pc < |im| && im[pc] == Malloc(Reg(r), i) && r < REGISTERS
    ensures At(im, s0, n + 1, R[r := Addr(|M|, 0)], M + [Arr(Zeros(i))], pc + 1, b)
  {
    NextStep(im, s0, n, R, M, pc, b);
    hide Run, Step;
  }

  lemma DoSfreeTop(im: seq<Instr>, s0: State, n: nat, R: seq<Word>, M: seq<Block>, pc: int, b: nat, i: nat)
    requires At(im, s0, n, R, M, pc, b) && 0 <= pc < |im| && im[pc] == Sfree(i) && i <= |M[b].ws|
    ensures At(im, s0, n + 1, R, M[b := Stk(M[b].ws[..|M[b].ws| - i])], pc + 1, b)
  {
    NextStep(im, s0, n, R, M, pc, b);
    hide Run, Step;
  }

  lemma DoPushOperand(im: seq<Instr>, s0: State, n: nat, R: seq<Word>, M: seq<Block>, pc: int, b: nat, o: Operand)
    requires At(im, s0, n, R, M, pc, b) && 0 <= pc < |im| && im[pc] == Push(o) && OperandWord(R, M, b, o).Some?
    ensures At(im, s0, n + 1, R, M[b := Stk(M[b].ws + [OperandWord(R, M, b, o).value])], pc + 1, b)
  {
    NextStep(im, s0, n, R, M, pc, b);
    hide Run, Step;
  }

  lemma DoPopReg(im: seq<Instr>, s0: State, n: nat, R: seq<Word>, M: seq<Block>, pc: int, b: nat, r: nat)
    requires At(im, s0, n, R, M, pc, b) && 0 <= pc < |im| && im[pc] == Pop(Reg(r)) && r < REGISTERS
    requires |M[b].ws| > 0
    ensures At(im, s0, n + 1, R[r := M[b].ws[|M[b].ws| - 1]], M[b := Stk(M[b].ws[..|M[b].ws| - 1])], pc + 1, b)
  {
    NextStep(im, s0, n, R, M, pc, b);
    hide Run, Step;
  }

  lemma DoCallTo(im: seq<Instr>, s0: State, n: nat, R: seq<Word>, M: seq<Block>, pc: int, b: nat, o: Operand,
                 target: int)
    requires At(im, s0, n, R, M, pc, b) && 0 <= pc < |im| && im[pc] == Call(o)
    requires o != From(SP) && OperandWord(R, M, b, o) == Some(Code(target))
    ensures At(im, s0, n + 1, R, M[b := Stk(M[b].ws + [Code(pc + 1)])], target, b)
  {
    NextStep(im, s0, n, R, M, pc, b);
    hide Run, Step;
  }

  lemma DoJmpTo(im: seq<Instr>, s0: State, n: nat, R: seq<Word>, M: seq<Block>, pc: int, b: nat, o: Operand,
                target: int)
    requires At(im, s0, n, R, M, pc, b) && 0 <= pc < |im| && im[pc] == Jmp(o)
    requires OperandWord(R, M, b, o) == Some(Code(target))
    ensures At(im, s0, n + 1, R, M, target, b)
  {
    NextStep(im, s0, n, R, M, pc, b);
    hide Run, Step;
  }

  lemma DoReturnTo(im: seq<Instr>, s0: State, n: nat, R: seq<Word>, M: seq<Block>, pc: int, b: nat, target: int)
    requires At(im, s0, n, R, M, pc, b) && 0 <= pc < |im| && im[pc] == Return
    requires |M[b].ws| > 0 && M[b].ws[|M[b].ws| - 1] == Code(target)
    ensures At(im, s0, n + 1, R, M[b := Stk(M[b].ws[..|M[b].ws| - 1])], target, b)
  {
    NextStep(im, s0, n, R, M, pc, b);
    hide Run, Step;
  }

  lemma DoDump(im: seq<Instr>, s0: State, n: nat, R: seq<Word>, M: seq<Block>, pc: int, b: nat)
    requires At(im, s0, n, R, M, pc, b) && 0 <= pc < |im| && im[pc] == Dump
    ensures At(im, s0, n + 1, R, M, pc + 1, b)
  {
    NextStep(im, s0, n, R, M, pc, b);
    hide Run, Step;
  }

  lemma DoHalt(im: seq<Instr>, s0: State, n: nat, R: seq<Word>, M: seq<Block>, pc: int, b: nat)
    requires At(im, s0, n, R, M, pc, b) && 0 <= pc < |im| && im[pc] == Halt
    ensures Run(im, s0, n + 1) == Some(State(R, M, Code(pc + 1), Addr(b, 0 - |M[b].ws|), true))
  {
    NextStep(im, s0, n, R, M, pc, b);
    hide Run, Step;
  }

  /** Adding an integer to an address, in either order, moves what it accesses; addresses are not added
      to each other. */
  lemma AddThenLoad(s: State, r: nat, q: nat, j: int)
    requires r < |s.R| && q < |s.R| && r != q
    ensures s.R[r].Addr? && s.R[q].Int? ==>
              && DoAdd(s, Reg(r), From(Reg(q))).Some?
              && DoLoad(DoAdd(s, Reg(r), From(Reg(q))).value, Reg(r), Reg(r), Some(j)) ==
                 DoLoad(s, Reg(r), Reg(r), Some(s.R[q].n + j))
    ensures s.R[r].Int? && s.R[q].Addr? ==>
              && DoAdd(s, Reg(r), From(Reg(q))).Some?
              && DoLoad(DoAdd(s, Reg(r), From(Reg(q))).value, Reg(r), Reg(r), Some(j)) ==
                 DoLoad(s, Reg(r), Reg(q), Some(s.R[r].n + j))
    ensures s.R[r].Addr? && s.R[q].Addr? ==> DoAdd(s, Reg(r), From(Reg(q))).None?
  {
    hide ReadMem;
    forall x: Word, w: Word
      ensures SetLoc(SetLoc(s, Reg(r), x).value, Reg(r), w) == SetLoc(s, Reg(r), w)
    {
      assert s.R[r := x][r := w] == s.R[r := w];
    }
    if s.R[r].Addr? && s.R[q].Int? {
      assert (s.R[r].o + s.R[q].n) + j == s.R[r].o + (s.R[q].n + j);
    } else if s.R[r].Int? && s.R[q].Addr? {
      assert (s.R[q].o + s.R[r].n) + j == s.R[q].o + (s.R[r].n + j);
    }
  }
}
