/**
  The Salt target machine (src/formal_translation/salt.rkt) as a transition function.

  Stacks grow towards negative offsets: the word at offset o of a stack block is
  the one at index -o - 1 of its vector, so offset -n is the n-th word pushed.
  Memory is a growing sequence of blocks; the next free block is always |M|.
  A step that raises a Racket exception is None.
 */
module Salt {
  import opened Options

  /** User labels come from the source program, generated ones from gensym. */
  datatype Name = User(s: string) | Gen(id: nat)

  datatype Word = Int(n: int) | Addr(b: int, o: int) | Code(target: int)

  datatype Loc = SP | Reg(r: nat)

  datatype Operand = From(loc: Loc) | Const(w: Word) | Sym(name: Name)

  datatype Instr =
    | Add(rd: Loc, o: Operand)
    | Mkstk(rd: Loc)
    | Sfree(i: int)
    | Malloc(rd: Loc, i: int)
    | Mov(rd: Loc, o: Operand)
    | Load(rd: Loc, rs: Loc, off: Option<int>)
    | Store(rs: Loc, rd: Loc, i: int)
    | Call(o: Operand)
    | Jmp(o: Operand)
    | Return
    | Halt
    | Push(o: Operand)
    | Pop(rd: Loc)
    | Dump
    | Label(name: Name)

  datatype Block = Stk(ws: seq<Word>) | Arr(ws: seq<Word>)

  datatype State = State(R: seq<Word>, M: seq<Block>, pc: Word, sp: Word, halted: bool)

  const REGISTERS := 32

  function Zeros(n: nat): (ws: seq<Word>)
  {
    seq(n, _ => Int(0))
  }

  // ----- operands and memory -----

  function GetLoc(s: State, l: Loc): Option<Word>
  {
    match l
    case SP => Some(s.sp)
    case Reg(r) => if r < |s.R| then Some(s.R[r]) else None
  }

  function GetOperand(s: State, o: Operand): Option<Word>
  {
    match o
    case From(l) => GetLoc(s, l)
    case Const(w) => Some(w)
    case Sym(_) => None
  }

  /** The vector index that an offset denotes; stacks count backwards. */
  function Index(blk: Block, o: int): int
  {
    if blk.Stk? then -o - 1 else o
  }

  function ReadMem(M: seq<Block>, b: int, o: int): Option<Word>
  {
    if 0 <= b < |M| && 0 <= Index(M[b], o) < |M[b].ws| then Some(M[b].ws[Index(M[b], o)]) else None
  }

  function WriteMem(M: seq<Block>, b: int, o: int, w: Word): Option<seq<Block>>
  {
    if 0 <= b < |M| && 0 <= Index(M[b], o) < |M[b].ws|
    then Some(M[b := M[b].(ws := M[b].ws[Index(M[b], o) := w])])
    else None
  }

  predicate IsStack(M: seq<Block>, b: int)
  {
    0 <= b < |M| && M[b].Stk?
  }

  /** Writing a register; writing sp cuts off the rest of the stack it now points into. */
  function SetLoc(s: State, l: Loc, w: Word): Option<State>
  {
    match l
    case SP =>
      if w.Addr? && IsStack(s.M, w.b) && 0 <= -w.o <= |s.M[w.b].ws|
      then Some(s.(sp := w, M := s.M[w.b := Stk(s.M[w.b].ws[..-w.o])]))
      else None
    case Reg(r) =>
      if r < |s.R| then Some(s.(R := s.R[r := w])) else None
  }

  // ----- instructions -----

  function DoAdd(s: State, rd: Loc, o: Operand): Option<State>
  {
    match (GetLoc(s, rd), GetOperand(s, o))
    case (Some(Addr(b, p)), Some(Int(i))) => SetLoc(s, rd, Addr(b, p + i))
    case (Some(Int(i)), Some(Addr(b, p))) => SetLoc(s, rd, Addr(b, p + i))
    case (Some(Int(i)), Some(Int(j))) => SetLoc(s, rd, Int(i + j))
    case _ => None
  }

  function DoMkstk(s: State, rd: Loc): Option<State>
  {
    SetLoc(s.(M := s.M + [Stk([])]), rd, Addr(|s.M|, 0))
  }

  function DoMalloc(s: State, rd: Loc, i: int): Option<State>
  {
    if i < 0 then None else SetLoc(s.(M := s.M + [Arr(Zeros(i))]), rd, Addr(|s.M|, 0))
  }

  function DoMov(s: State, rd: Loc, o: Operand): Option<State>
  {
    match GetOperand(s, o)
    case None => None
    case Some(w) => SetLoc(s, rd, w)
  }

  function DoSfree(s: State, i: int): Option<State>
  {
    if s.sp.Addr? && IsStack(s.M, s.sp.b) && 0 <= i <= |s.M[s.sp.b].ws|
    then
      var ws := s.M[s.sp.b].ws;
      Some(s.(M := s.M[s.sp.b := Stk(ws[..|ws| - i])], sp := Addr(s.sp.b, s.sp.o + i)))
    else None
  }

  function DoLoad(s: State, rd: Loc, rs: Loc, off: Option<int>): Option<State>
  {
    match (GetLoc(s, rs), off)
    case (Some(Addr(b, p)), Some(i)) =>
      (match ReadMem(s.M, b, p + i)
       case None => None
       case Some(w) => SetLoc(s, rd, w))
    case _ => None
  }

  function DoStore(s: State, rs: Loc, rd: Loc, i: int): Option<State>
  {
    match (GetLoc(s, rd), GetLoc(s, rs))
    case (Some(Addr(b, p)), Some(w)) =>
      (match WriteMem(s.M, b, p + i, w)
       case None => None
       case Some(M) => Some(s.(M := M)))
    case _ => None
  }

  function DoPushWord(s: State, w: Word): Option<State>
  {
    if s.sp.Addr? && IsStack(s.M, s.sp.b)
    then Some(s.(M := s.M[s.sp.b := Stk(s.M[s.sp.b].ws + [w])], sp := Addr(s.sp.b, s.sp.o - 1)))
    else None
  }

  function DoPush(s: State, o: Operand): Option<State>
  {
    match GetOperand(s, o)
    case None => None
    case Some(w) => DoPushWord(s, w)
  }

  function DoJmp(s: State, o: Operand): Option<State>
  {
    match GetOperand(s, o)
    case None => None
    case Some(w) => Some(s.(pc := w))
  }

  function DoCall(s: State, o: Operand): Option<State>
  {
    match DoPushWord(s, s.pc)
    case None => None
    case Some(s') => DoJmp(s', o)
  }

  function DoReturn(s: State): Option<State>
  {
    if !s.sp.Addr? then None else
    match ReadMem(s.M, s.sp.b, s.sp.o)
    case None => None
    case Some(nip) =>
      (match DoSfree(s, 1)
       case None => None
       case Some(s') => Some(s'.(pc := nip)))
  }

  function DoPop(s: State, rd: Loc): Option<State>
  {
    if !(s.sp.Addr? && IsStack(s.M, s.sp.b)) then None else
    var ws := s.M[s.sp.b].ws;
    if !(0 <= -s.sp.o - 1 < |ws|) then None else
    match SetLoc(s, rd, ws[-s.sp.o - 1])
    case None => None
    case Some(s') => Some(s'.(M := s'.M[s.sp.b := Stk(ws[..|ws| - 1])], sp := Addr(s.sp.b, s.sp.o + 1)))
  }

  /** One instruction, with pc already advanced past it. */
  function Exec(s: State, instr: Instr): Option<State>
  {
    match instr
    case Add(rd, o) => DoAdd(s, rd, o)
    case Mkstk(rd) => DoMkstk(s, rd)
    case Sfree(i) => DoSfree(s, i)
    case Malloc(rd, i) => DoMalloc(s, rd, i)
    case Mov(rd, o) => DoMov(s, rd, o)
    case Load(rd, rs, off) => DoLoad(s, rd, rs, off)
    case Store(rs, rd, i) => DoStore(s, rs, rd, i)
    case Call(o) => DoCall(s, o)
    case Jmp(o) => DoJmp(s, o)
    case Return => DoReturn(s)
    case Halt => Some(s.(halted := true))
    case Push(o) => DoPush(s, o)
    case Pop(rd) => DoPop(s, rd)
    case Dump => Some(s)
    case Label(_) => None
  }

  /** fetch-execute-once. */
  function Step(im: seq<Instr>, s: State): Option<State>
  {
    if s.pc.Code? && 0 <= s.pc.target < |im|
    then Exec(s.(pc := Code(s.pc.target + 1)), im[s.pc.target])
    else None
  }

  /** n rounds of the fetch-execute loop; a halted machine stays put. */
  function Run(im: seq<Instr>, s: State, n: nat): Option<State>
  {
    if n == 0 then Some(s) else
    match Run(im, s, n - 1)
    case None => None
    case Some(s') => if s'.halted then Some(s') else Step(im, s')
  }

  /** The state run-salt! starts from: one empty stack in block 0. */
  function Boot(): (s: State)
  {
    State(Zeros(REGISTERS), [Stk([])], Code(0), Addr(0, 0), false)
  }

  lemma {:induction false} RunHalted(im: seq<Instr>, s: State, n: nat, m: nat)
    requires n <= m && Run(im, s, n).Some? && Run(im, s, n).value.halted
    ensures Run(im, s, m) == Run(im, s, n)
  {
    hide Step;
    if n < m {
      RunHalted(im, s, n, m - 1);
    }
  }

  lemma {:induction false} RunPrefix(im: seq<Instr>, s: State, n: nat, m: nat)
    requires n <= m && Run(im, s, m).Some?
    ensures Run(im, s, n).Some?
    ensures !Run(im, s, m).value.halted ==> !Run(im, s, n).value.halted
  {
    hide Step;
    if n < m {
      RunPrefix(im, s, n, m - 1);
    }
  }
}
