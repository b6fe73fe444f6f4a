/** The Salt simulator in its own, imperative form: registers, memory, pc and sp are updated
    in place by one method per instruction. Each method makes the transition of Salt and says what
    it leaves alone; false stands for a Racket exception. */
module SaltMachine {
  import opened Options
  import opened Salt

  class Machine {
    const R: array<Word>
    const IM: seq<Instr>
    var M: seq<Block>
    var pc: Word
    var sp: Word
    var halted: bool

    ghost function Snapshot(): State
      reads this, R
    {
      State(R[..], M, pc, sp, halted)
    }

    constructor (im: seq<Instr>)
      ensures IM == im && Snapshot() == Boot() && fresh(R)
    {
      IM := im;
      R := new Word[REGISTERS](_ => Int(0));
      M := [Stk([])];
      pc, sp, halted := Code(0), Addr(0, 0), false;
    }

    /** store to a register or to sp; the latter truncates the stack it selects. */
    method StoreTo(l: Loc, w: Word) returns (ok: bool)
      modifies this`M, this`sp, R
      ensures ok == SetLoc(old(Snapshot()), l, w).Some?
      ensures ok ==> Snapshot() == SetLoc(old(Snapshot()), l, w).value
      ensures ok && l == SP ==> sp == w && |M| == |old(M)| && R[..] == old(R[..])
      ensures ok && l == SP ==> IsStack(M, w.b) && |M[w.b].ws| == -w.o && M[w.b].ws <= old(M)[w.b].ws
      ensures ok && l == SP ==> forall b :: 0 <= b < |M| && b != w.b ==> M[b] == old(M)[b]
      ensures ok && l.Reg? ==> M == old(M) && sp == old(sp)
    {
      match l
      case SP =>
        ok := w.Addr? && IsStack(M, w.b) && 0 <= -w.o <= |M[w.b].ws|;
        if ok {
          sp := w;
          M := M[w.b := Stk(M[w.b].ws[..-w.o])];
        }
      case Reg(r) =>
        ok := r < R.Length;
        if ok {
          R[r] := w;
        }
    }

    method Fetch(o: Operand) returns (w: Option<Word>)
      ensures w == GetOperand(Snapshot(), o)
    {
      match o
      case From(SP) => w := Some(sp);
      case From(Reg(r)) => w := if r < R.Length then Some(R[r]) else None;
      case Const(c) => w := Some(c);
      case Sym(_) => w := None;
    }

    method Add(rd: Loc, o: Operand) returns (ok: bool)
      modifies this`M, this`sp, R
      ensures ok == DoAdd(old(Snapshot()), rd, o).Some?
      ensures ok ==> Snapshot() == DoAdd(old(Snapshot()), rd, o).value
    {
      var v1 := Fetch(From(rd));
      var v2 := Fetch(o);
      match (v1, v2)
      case (Some(Addr(b, p)), Some(Int(i))) => ok := StoreTo(rd, Addr(b, p + i));
      case (Some(Int(i)), Some(Addr(b, p))) => ok := StoreTo(rd, Addr(b, p + i));
      case (Some(Int(i)), Some(Int(j))) => ok := StoreTo(rd, Int(i + j));
      case _ => ok := false;
    }

    method Mkstk(rd: Loc) returns (ok: bool)
      modifies this`M, this`sp, R
      ensures ok == DoMkstk(old(Snapshot()), rd).Some?
      ensures ok ==> Snapshot() == DoMkstk(old(Snapshot()), rd).value
    {
      M := M + [Stk([])];
      ok := StoreTo(rd, Addr(|M| - 1, 0));
    }

    method Malloc(rd: Loc, i: int) returns (ok: bool)
      modifies this`M, this`sp, R
      ensures ok == DoMalloc(old(Snapshot()), rd, i).Some?
      ensures ok ==> Snapshot() == DoMalloc(old(Snapshot()), rd, i).value
    {
      ok := false;
      if i >= 0 {
        M := M + [Arr(Zeros(i))];
        ok := StoreTo(rd, Addr(|M| - 1, 0));
      }
    }

    method Mov(rd: Loc, o: Operand) returns (ok: bool)
      modifies this`M, this`sp, R
      ensures ok == DoMov(old(Snapshot()), rd, o).Some?
      ensures ok ==> Snapshot() == DoMov(old(Snapshot()), rd, o).value
    {
      var w := Fetch(o);
      ok := false;
      if w.Some? {
        ok := StoreTo(rd, w.value);
      }
    }

    method Sfree(i: int) returns (ok: bool)
      modifies this`M, this`sp
      ensures ok == DoSfree(old(Snapshot()), i).Some?
      ensures ok ==> Snapshot() == DoSfree(old(Snapshot()), i).value
    {
      ok := sp.Addr? && IsStack(M, sp.b) && 0 <= i <= |M[sp.b].ws|;
      if ok {
        var ws := M[sp.b].ws;
        M := M[sp.b := Stk(ws[..|ws| - i])];
        sp := Addr(sp.b, sp.o + i);
      }
    }

    method Load(rd: Loc, rs: Loc, off: Option<int>) returns (ok: bool)
      modifies this`M, this`sp, R
      ensures ok == DoLoad(old(Snapshot()), rd, rs, off).Some?
      ensures ok ==> Snapshot() == DoLoad(old(Snapshot()), rd, rs, off).value
    {
      var a := Fetch(From(rs));
      ok := false;
      if a.Some? && a.value.Addr? && off.Some? {
        var w := ReadMem(M, a.value.b, a.value.o + off.value);
        if w.Some? {
          ok := StoreTo(rd, w.value);
        }
      }
    }

    method Store(rs: Loc, rd: Loc, i: int) returns (ok: bool)
      modifies this`M
      ensures ok == DoStore(old(Snapshot()), rs, rd, i).Some?
      ensures ok ==> Snapshot() == DoStore(old(Snapshot()), rs, rd, i).value
    {
      var a := Fetch(From(rd));
      var w := Fetch(From(rs));
      ok := false;
      if a.Some? && a.value.Addr? && w.Some? {
        var M' := WriteMem(M, a.value.b, a.value.o + i, w.value);
        if M'.Some? {
          ok, M := true, M'.value;
        }
      }
    }

    method PushWord(w: Word) returns (ok: bool)
      modifies this`M, this`sp
      ensures ok == DoPushWord(old(Snapshot()), w).Some?
      ensures ok ==> Snapshot() == DoPushWord(old(Snapshot()), w).value
    {
      ok := sp.Addr? && IsStack(M, sp.b);
      if ok {
        M := M[sp.b := Stk(M[sp.b].ws + [w])];
        sp := Addr(sp.b, sp.o - 1);
      }
    }

    method Push(o: Operand) returns (ok: bool)
      modifies this`M, this`sp
      ensures ok == DoPush(old(Snapshot()), o).Some?
      ensures ok ==> Snapshot() == DoPush(old(Snapshot()), o).value
    {
      var w := Fetch(o);
      ok := false;
      if w.Some? {
        ok := PushWord(w.value);
      }
    }

    method Pop(rd: Loc) returns (ok: bool)
      modifies this`M, this`sp, R
      ensures ok == DoPop(old(Snapshot()), rd).Some?
      ensures ok ==> Snapshot() == DoPop(old(Snapshot()), rd).value
    {
      ok := false;
      if sp.Addr? && IsStack(M, sp.b) && 0 <= -sp.o - 1 < |M[sp.b].ws| {
        var l, j, ws := sp.b, sp.o, M[sp.b].ws;
        ok := StoreTo(rd, ws[-j - 1]);
        if ok {
          M := M[l := Stk(ws[..|ws| - 1])];
          sp := Addr(l, j + 1);
        }
      }
    }

    method Jmp(o: Operand) returns (ok: bool)
      modifies this`pc
      ensures ok == DoJmp(old(Snapshot()), o).Some?
      ensures ok ==> Snapshot() == DoJmp(old(Snapshot()), o).value
    {
      var w := Fetch(o);
      ok := w.Some?;
      if ok {
        pc := w.value;
      }
    }

    method Call(o: Operand) returns (ok: bool)
      modifies this`M, this`sp, this`pc
      ensures ok == DoCall(old(Snapshot()), o).Some?
      ensures ok ==> Snapshot() == DoCall(old(Snapshot()), o).value
      ensures ok ==> old(sp).Addr? && sp == Addr(old(sp).b, old(sp).o - 1) && IsStack(M, sp.b)
                     && M[sp.b].ws == old(M)[sp.b].ws + [old(pc)]
      ensures ok ==> |M| == |old(M)| && forall b :: 0 <= b < |M| && b != old(sp).b ==> M[b] == old(M)[b]
    {
      ok := PushWord(pc);
      if ok {
        ok := Jmp(o);
      }
    }

    method Return() returns (ok: bool)
      modifies this`M, this`sp, this`pc
      ensures ok == DoReturn(old(Snapshot())).Some?
      ensures ok ==> Snapshot() == DoReturn(old(Snapshot())).value
      ensures ok ==> old(sp).Addr? && sp == Addr(old(sp).b, old(sp).o + 1) && IsStack(M, sp.b)
                     && |M[sp.b].ws| + 1 == |old(M)[sp.b].ws| && M[sp.b].ws <= old(M)[sp.b].ws
    {
      ok := false;
      if sp.Addr? {
        var nip := ReadMem(M, sp.b, sp.o);
        if nip.Some? {
          ok := Sfree(1);
          if ok {
            pc := nip.value;
          }
        }
      }
    }

    method Execute(instr: Instr) returns (ok: bool)
      modifies this, R
      ensures ok == Exec(old(Snapshot()), instr).Some?
      ensures ok ==> Snapshot() == Exec(old(Snapshot()), instr).value
    {
      match instr
      case Add(rd, o) => ok := Add(rd, o);
      case Mkstk(rd) => ok := Mkstk(rd);
      case Sfree(i) => ok := Sfree(i);
      case Malloc(rd, i) => ok := Malloc(rd, i);
      case Mov(rd, o) => ok := Mov(rd, o);
      case Load(rd, rs, off) => ok := Load(rd, rs, off);
      case Store(rs, rd, i) => ok := Store(rs, rd, i);
      case Call(o) => ok := Call(o);
      case Jmp(o) => ok := Jmp(o);
      case Return => ok := Return();
      case Halt => ok, halted := true, true;
      case Push(o) => ok := Push(o);
      case Pop(rd) => ok := Pop(rd);
      case Dump => ok := true;
      case Label(_) => ok := false;
    }

    method FetchExecuteOnce() returns (ok: bool)
      modifies this, R
      ensures ok == Step(IM, old(Snapshot())).Some?
      ensures ok ==> Snapshot() == Step(IM, old(Snapshot())).value
    {
      ok := false;
      if pc.Code? && 0 <= pc.target < |IM| {
        var instr := IM[pc.target];
        pc := Code(pc.target + 1);
        ok := Execute(instr);
      }
    }

    /** The simulator's loop, for at most n rounds. */
    method RunRounds(n: nat) returns (ok: bool)
      modifies this, R
      ensures ok == Run(IM, old(Snapshot()), n).Some?
      ensures ok ==> Snapshot() == Run(IM, old(Snapshot()), n).value
    {
      ghost var s0 := Snapshot();
      var i := 0;
      ok := true;
      while i < n && ok && !halted
        invariant i <= n
        invariant ok == Run(IM, s0, i).Some?
        invariant ok ==> Snapshot() == Run(IM, s0, i).value
      {
        ok := FetchExecuteOnce();
        i := i + 1;
      }
      if ok {
        if i < n {
          RunHalted(IM, s0, i, n);
        }
      } else if Run(IM, s0, n).Some? {
        RunPrefix(IM, s0, i, n);
      }
    }
  }
}
