/**
  The simulation relation between source configurations and Salt states, and the parts of
  a simulation step that many statements share.
 */
module Matching {
  import opened Options
  import opened Salt
  import opened SaltRules
  import opened Translate
  import opened Assembler
  import opened Linking
  import opened Layout
  import opened LayoutSteps
  import L = Lexa

  function Names(env: L.Env): (names: seq<string>)
    ensures |names| == |env| && forall i :: 0 <= i < |env| ==> names[i] == env[i].0
  {
    seq(|env|, i requires 0 <= i < |env| => env[i].0)
  }

  // ----- return addresses lead to the right code -----

  ghost predicate FrameCode(c: Image, f: MFrame)
  {
    match f
    case MLet(x, t, env, ret) =>
      0 <= ret < |c.im| && c.im[ret] == Push(From(R1)) && StmtAt(c, ret + 1, [x] + Names(env), t)
    case MSame(_, op, _, _, ret) =>
      User(op) in c.lm && 0 <= ret && ret + 1 < |c.im| && c.im[ret] == Sfree(4) && c.im[ret + 1] == Return
    case MTramp(ret) => 0 <= ret < |c.im| && c.im[ret] == Return
  }

  ghost predicate BaseCode(c: Image, base: Base)
  {
    match base
    case MainBase(ret) => 0 <= ret && ret + 1 < |c.im| && c.im[ret] == Push(From(R1)) && c.im[ret + 1] == Halt
    case NewBase(_, op, _, ret) =>
      User(op) in c.lm && 0 <= ret && ret + 3 < |c.im| && c.im[ret] == Pop(R2) && c.im[ret + 1] == Sfree(3) &&
      c.im[ret + 2] == Mov(SP, From(R2)) && c.im[ret + 3] == Return
  }

  ghost predicate SegCode(c: Image, seg: Seg)
  {
    BaseCode(c, seg.base) && forall j :: 0 <= j < |seg.fs| ==> FrameCode(c, seg.fs[j])
  }

  ghost predicate SegsCode(c: Image, segs: seq<Seg>)
  {
    forall i :: 0 <= i < |segs| ==> SegCode(c, segs[i])
  }

  ghost predicate RingsCode(c: Image, rings: Rings)
  {
    forall r :: r in rings ==> SegsCode(c, rings[r])
  }

  // ----- the relation -----

  /** A Salt state after n steps, with the layout that explains its memory. */
  datatype Salted = Salted(labs: seq<Word>, segs: seq<Seg>, rings: Rings, n: nat, R: seq<Word>, M: seq<Block>, pc: int)

  /** Neither the labels, nor the frames on the stacks, nor the captured rings have changed. */
  predicate SameLayout(m: Salted, m': Salted)
  {
    m'.labs == m.labs && m'.segs == m.segs && m'.rings == m.rings
  }

  predicate Addresses(labs: seq<Word>)
  {
    forall h :: 0 <= h < |labs| ==> labs[h].Addr?
  }

  /** Everything but the control: cur are the words above the topmost frame. */
  ghost predicate StoreMatches(c: Image, s0: State, k: seq<L.Frame>, objs: seq<L.Obj>, nh: nat, m: Salted,
                               cur: seq<Word>)
  {
    && |m.labs| == nh && Addresses(m.labs)
    && World(c, m.labs, objs, m.M, m.segs, m.rings, cur)
    && Strip(m.segs) == k
    && SegsCode(c, m.segs) && RingsCode(c, m.rings)
    && At(c.im, s0, m.n, m.R, m.M, m.pc, Last(m.segs).blk)
  }

  ghost predicate Evaluates(c: Image, s0: State, k: seq<L.Frame>, objs: seq<L.Obj>, nh: nat, m: Salted, t: L.Stmt,
                            env: L.Env)
  {
    StoreMatches(c, s0, k, objs, nh, m, EnvWords(c, m.labs, env)) &&
    EnvOk(c, m.labs, env) && StmtAt(c, m.pc, Names(env), t)
  }

  ghost predicate Returns(c: Image, s0: State, k: seq<L.Frame>, objs: seq<L.Obj>, nh: nat, m: Salted, v: L.Val)
  {
    StoreMatches(c, s0, k, objs, nh, m, []) &&
    ValOk(c, m.labs, v) && m.R[1] == W(c, m.labs, v) && 0 <= m.pc < |c.im| && c.im[m.pc] == Return
  }

  /** The machine has halted with v alone on the main stack. */
  ghost predicate Halted(c: Image, s0: State, objs: seq<L.Obj>, m: Salted, v: L.Val)
  {
    && HeapOk(c, m.labs, objs, m.M, m.rings)
    && m.n > 0 && m.segs != [] && IsStack(m.M, Last(m.segs).blk)
    && var ws := m.M[Last(m.segs).blk].ws;
       Run(c.im, s0, m.n) == Some(State(m.R, m.M, Code(m.pc), Addr(Last(m.segs).blk, 0 - |ws|), true)) &&
       Last(m.segs).blk == 0 && ws == [W(c, m.labs, v)]
  }

  ghost predicate Matches(c: Image, s0: State, s: L.Config, m: Salted)
  {
    m.segs != [] &&
    match s.ctl
    case Ev(t, env) => Evaluates(c, s0, s.k, s.objs, s.nh, m, t, env)
    case Re(v) => Returns(c, s0, s.k, s.objs, s.nh, m, v)
    case Fin(v) => Halted(c, s0, s.objs, m, v)
    case Out(v) => false
  }

  // ----- code of a let -----

  lemma {:induction false} IndexOfLookup(env: L.Env, x: string)
    ensures L.Lookup(env, x).Some? <==> IndexOf(Names(env), x).Some?
    ensures L.Lookup(env, x).Some? ==> env[IndexOf(Names(env), x).value].1 == L.Lookup(env, x).value
  {
    if env != [] {
      IndexOfLookup(env[1..], x);
      assert Names(env)[1..] == Names(env[1..]);
    }
  }

  lemma LookupOk(c: Image, labs: seq<Word>, env: L.Env, v: L.Value)
    requires EnvOk(c, labs, env) && L.EvalV(env, v).Some?
    ensures ValOk(c, labs, L.EvalV(env, v).value)
  {
    if v.Sym? {
      IndexOfLookup(env, v.name);
    }
  }

  /** An operand ends up in register r. */
  lemma ExecValue(c: Image, s0: State, n: nat, R: seq<Word>, M: seq<Block>, pc: int, b: nat,
                  labs: seq<Word>, env: L.Env, below: seq<Word>, v: L.Value, r: nat)
    requires At(c.im, s0, n, R, M, pc, b) && r < REGISTERS && 0 <= pc < |c.im|
    requires M[b].ws == below + EnvWords(c, labs, env)
    requires c.im[pc] == CompileValue(Names(env), v, r)[0]
    requires L.EvalV(env, v).Some?
    ensures At(c.im, s0, n + 1, R[r := W(c, labs, L.EvalV(env, v).value)], M, pc + 1, b)
  {
    match v
    case Sym(x) =>
      IndexOfLookup(env, x);
      DoLoadSlot(c.im, s0, n, R, M, pc, b, r, IndexOf(Names(env), x).value);
    case Num(i) =>
      DoMovReg(c.im, s0, n, R, M, pc, b, r, Const(Int(i)));
  }

  /** The words on the running stack: those of the segment, then those above. */
  lemma TopWords(c: Image, s0: State, k: seq<L.Frame>, objs: seq<L.Obj>, nh: nat, m: Salted, cur: seq<Word>)
    requires StoreMatches(c, s0, k, objs, nh, m, cur)
    ensures m.M[Last(m.segs).blk] ==
            Stk(SegWords(c, m.labs, Last(m.segs), Exch(m.segs, |m.segs| - 1, Int(0))) + cur)
    ensures SegOk(c, m.labs, Last(m.segs))
  {
  }

  lemma LeavesMore(c: Image, a: int, n: nat, jumps: nat, target: int)
    requires 0 <= a < |c.im| && c.im[a] == Jmp(Const(Code(target))) && Leaves(c.im, target, n, jumps)
    ensures Leaves(c.im, a, n, jumps + 1)
  {
  }

  /** Where the pieces of a let stand: its prefix, the code of its rest, its out-of-line block. */
  lemma LetPieces(c: Image, a: int, names: seq<string>, x: string, rhs: L.Rhs, t: L.Stmt) returns (l1: Name)
    requires StmtAt(c, a, names, L.Let(x, rhs, t))
    ensures l1.Gen?
    ensures CodeAt(c, a, Before(names, rhs, l1)) && NoLabels(Before(names, rhs, l1))
    ensures !rhs.AbortRaise? ==> StmtAt(c, a + |Before(names, rhs, l1)|, [x] + names, t)
    ensures OutOfLine(rhs).Some? ==> l1 in c.lm && CodeAt(c, c.lm[l1], OutOfLine(rhs).value)
    ensures (rhs.HandleNew? ==> rhs.kind.General?) && !rhs.Exits?
  {
    hide CodeAt, Leaves, Before, After, StmtAt;
    var next, jumps, cb := OpenLet(c, a, names, x, rhs, t);
    l1 := Gen(cb.next);
    BeforePlain(names, rhs, l1);
    if !rhs.AbortRaise? {
      var jumps' := SplitLet(c, a, Before(names, rhs, l1), cb.code, rhs, l1, Gen(cb.next + 1), |names| + 1 + cb.nlet,
                             jumps);
      StmtAtIntro(c, a + |Before(names, rhs, l1)|, [x] + names, t, next, cb, jumps');
    }
  }

  lemma OpenLet(c: Image, a: int, names: seq<string>, x: string, rhs: L.Rhs, t: L.Stmt)
    returns (next: nat, jumps: nat, cb: Compiled)
    requires StmtAt(c, a, names, L.Let(x, rhs, t))
    ensures Accepted(L.Let(x, rhs, t))
    ensures cb == CompileStmt([x] + names, t, next)
    ensures rhs.AbortRaise? ==> CodeAt(c, a, Before(names, rhs, Gen(cb.next)))
    ensures !rhs.AbortRaise? ==>
              var code := Before(names, rhs, Gen(cb.next)) + cb.code + After(rhs, Gen(cb.next), Gen(cb.next + 1));
              CodeAt(c, a, code) && Leaves(c.im, a + Size(code), |names| + 1 + cb.nlet, jumps)
  {
    hide CompileStmt, CodeAt, Leaves, Before, After, Size;
    next, jumps :| StmtAtWith(c, a, names, L.Let(x, rhs, t), next, jumps);
    cb := CompileStmt([x] + names, t, next);
    var r := CompileStmt(names, L.Let(x, rhs, t), next);
    assert CodeAt(c, a, r.code) && Leaves(c.im, a + Size(r.code), |names| + r.nlet, jumps);
    LetCode(names, x, rhs, t, next);
  }

  lemma LetCode(names: seq<string>, x: string, rhs: L.Rhs, t: L.Stmt, next: nat)
    ensures var cb := CompileStmt([x] + names, t, next);
            var r := CompileStmt(names, L.Let(x, rhs, t), next);
            r.nlet == cb.nlet + 1 &&
            r.code == if rhs.AbortRaise? then Before(names, rhs, Gen(cb.next))
                      else Before(names, rhs, Gen(cb.next)) + cb.code + After(rhs, Gen(cb.next), Gen(cb.next + 1))
  {
  }

  lemma SplitLet(c: Image, a: int, before: seq<Instr>, code: seq<Instr>, rhs: L.Rhs, l1: Name, l2: Name, n: nat,
                 jumps: nat)
    returns (jumps': nat)
    requires l1.Gen? && l2.Gen? && NoLabels(before)
    requires CodeAt(c, a, before + code + After(rhs, l1, l2))
    requires Leaves(c.im, a + Size(before + code + After(rhs, l1, l2)), n, jumps)
    ensures CodeAt(c, a, before) && CodeAt(c, a + |before|, code)
    ensures Leaves(c.im, a + |before| + Size(code), n, jumps')
    ensures OutOfLine(rhs).Some? ==> l1 in c.lm && CodeAt(c, c.lm[l1], OutOfLine(rhs).value)
  {
    hide Leaves, Size, CodeAt, ReplaceLabel;
    CodeAtSplit3(c, a, before, code, After(rhs, l1, l2));
    CodeAtPlain(c, a, before);
    if OutOfLine(rhs).None? {
      jumps' := jumps;
    } else {
      SplitAfter(c, a + |before| + Size(code), OutOfLine(rhs).value, l1, l2);
      LeavesMore(c, a + |before| + Size(code), n, jumps, c.lm[l2]);
      jumps' := jumps + 1;
    }
  }

  lemma SplitAfter(c: Image, a: int, block: seq<Instr>, l1: Name, l2: Name)
    requires l1.Gen? && l2.Gen?
    requires CodeAt(c, a, [Jmp(Operand.Sym(l2)), Label(l1)] + block + [Label(l2)])
    ensures 0 <= a < |c.im| && l1 in c.lm && l2 in c.lm && c.im[a] == Jmp(Const(Code(c.lm[l2])))
    ensures CodeAt(c, c.lm[l1], block)
    ensures c.lm[l2] == a + Size([Jmp(Operand.Sym(l2)), Label(l1)] + block + [Label(l2)])
  {
    var head := [Jmp(Operand.Sym(l2)), Label(l1)];
    CodeAtSplit3(c, a, head, block, [Label(l2)]);
    SizeOne(Label(l2));
    HeadAt(c, a, l1, l2);
  }

  lemma HeadAt(c: Image, a: int, l1: Name, l2: Name)
    requires l1.Gen? && CodeAt(c, a, [Jmp(Operand.Sym(l2)), Label(l1)])
    ensures 0 <= a < |c.im| && l1 in c.lm && l2 in c.lm && c.im[a] == Jmp(Const(Code(c.lm[l2])))
    ensures c.lm[l1] == a + 1 && Size([Jmp(Operand.Sym(l2)), Label(l1)]) == 1
  {
    var head := [Jmp(Operand.Sym(l2)), Label(l1)];
    assert head[1..] == [Label(l1)];
    SizeOne(Label(l1));
  }

  // ----- ends of steps -----

  lemma EnvSnoc(c: Image, labs: seq<Word>, x: string, v: L.Val, env: L.Env)
    ensures EnvWords(c, labs, [(x, v)] + env) == EnvWords(c, labs, env) + [W(c, labs, v)]
    ensures Names([(x, v)] + env) == [x] + Names(env)
    ensures EnvOk(c, labs, env) && ValOk(c, labs, v) ==> EnvOk(c, labs, [(x, v)] + env)
  {
  }

  /** Register r is pushed as the value of x and control goes on with t. */
  lemma FinishBind(c: Image, s0: State, k: seq<L.Frame>, objs: seq<L.Obj>, nh: nat, m: Salted,
                   env: L.Env, r: nat, x: string, v: L.Val, t: L.Stmt) returns (m': Salted)
    requires m.segs != [] && StoreMatches(c, s0, k, objs, nh, m, EnvWords(c, m.labs, env)) && EnvOk(c, m.labs, env)
    requires 0 <= m.pc < |c.im| && c.im[m.pc] == Push(From(Reg(r))) && r < REGISTERS
    requires m.R[r] == W(c, m.labs, v) && ValOk(c, m.labs, v)
    requires StmtAt(c, m.pc + 1, [x] + Names(env), t)
    ensures m'.n > m.n && m'.segs != [] && SameLayout(m, m') && Evaluates(c, s0, k, objs, nh, m', t, [(x, v)] + env)
  {
    hide StmtAt, SegsCode, RingsCode, World, EnvOk, Run;
    var top := Last(m.segs);
    var M' := m.M[top.blk := Stk(m.M[top.blk].ws + [m.R[r]])];
    DoPushOperand(c.im, s0, m.n, m.R, m.M, m.pc, top.blk, From(Reg(r)));
    PushedWord(c, s0, k, objs, nh, m, env, m.R[r], x, v);
    EnvSnoc(c, m.labs, x, v, env);
    m' := m.(n := m.n + 1, M := M', pc := m.pc + 1);
  }

  lemma PushedWord(c: Image, s0: State, k: seq<L.Frame>, objs: seq<L.Obj>, nh: nat, m: Salted, env: L.Env, w: Word,
                   x: string, v: L.Val)
    requires m.segs != [] && StoreMatches(c, s0, k, objs, nh, m, EnvWords(c, m.labs, env)) && w == W(c, m.labs, v)
    ensures World(c, m.labs, objs, m.M[Last(m.segs).blk := Stk(m.M[Last(m.segs).blk].ws + [w])], m.segs, m.rings,
                  EnvWords(c, m.labs, [(x, v)] + env))
  {
    hide World, SegWords, SegOk, SegsCode, RingsCode, At;
    var top := Last(m.segs);
    TopWords(c, s0, k, objs, nh, m, EnvWords(c, m.labs, env));
    var ws := SegWords(c, m.labs, top, Exch(m.segs, |m.segs| - 1, Int(0)));
    EnvSnoc(c, m.labs, x, v, env);
    Associate(ws, EnvWords(c, m.labs, env), [w]);
    ReplaceTop(c, m.labs, objs, m.M, m.segs, m.rings, EnvWords(c, m.labs, env), top,
               EnvWords(c, m.labs, [(x, v)] + env));
    assert m.segs[..|m.segs| - 1] + [top] == m.segs;
  }
}
