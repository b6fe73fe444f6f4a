/** Simulation of lets that stay in the current activation: arithmetic, records, copies. */
module Statements {
  import opened Options
  import opened Salt
  import opened SaltRules
  import opened Translate
  import opened Assembler
  import opened Linking
  import opened Layout
  import opened LayoutSteps
  import opened Matching
  import opened Activations
  import L = Lexa

  /** The relation does not look at registers, so straight-line code preserves it. */
  lemma Advance(c: Image, s0: State, k: seq<L.Frame>, objs: seq<L.Obj>, nh: nat, m: Salted, m': Salted, cur: seq<Word>)
    requires StoreMatches(c, s0, k, objs, nh, m, cur)
    requires m' == m.(n := m'.n, R := m'.R, pc := m'.pc) && At(c.im, s0, m'.n, m'.R, m'.M, m'.pc, Last(m'.segs).blk)
    ensures StoreMatches(c, s0, k, objs, nh, m', cur)
  {
    hide At;
  }

  /** A value of the program is brought into register r. */
  lemma LoadValue(c: Image, s0: State, k: seq<L.Frame>, objs: seq<L.Obj>, nh: nat, m: Salted, env: L.Env, v: L.Value,
                  r: nat)
    returns (m': Salted)
    requires m.segs != [] && StoreMatches(c, s0, k, objs, nh, m, EnvWords(c, m.labs, env)) && EnvOk(c, m.labs, env)
    requires 0 <= m.pc < |c.im| && c.im[m.pc] == CompileValue(Names(env), v, r)[0] && r < REGISTERS
    requires L.EvalV(env, v).Some?
    ensures m' == m.(n := m.n + 1, R := m.R[r := W(c, m.labs, L.EvalV(env, v).value)], pc := m.pc + 1)
    ensures StoreMatches(c, s0, k, objs, nh, m', EnvWords(c, m.labs, env))
    ensures ValOk(c, m.labs, L.EvalV(env, v).value) && |m.R| == REGISTERS
  {
    hide World, Run, SegWords, SegsCode, RingsCode, SegOk, EnvOk, L.Lookup, IndexOf;
    TopWords(c, s0, k, objs, nh, m, EnvWords(c, m.labs, env));
    var ws := SegWords(c, m.labs, Last(m.segs), Exch(m.segs, |m.segs| - 1, Int(0)));
    ExecValue(c, s0, m.n, m.R, m.M, m.pc, Last(m.segs).blk, m.labs, env, ws, v, r);
    LookupOk(c, m.labs, env, v);
    m' := m.(n := m.n + 1, R := m.R[r := W(c, m.labs, L.EvalV(env, v).value)], pc := m.pc + 1);
  }

  /** Straight-line code, instruction by instruction. */
  ghost predicate CodeIs(c: Image, a: int, code: seq<Instr>)
  {
    0 <= a && a + |code| <= |c.im| && forall i :: 0 <= i < |code| ==> ReplaceLabel(c.lm, code[i]) == Some(c.im[a + i])
  }

  lemma LetCodeIs(c: Image, a: int, names: seq<string>, x: string, rhs: L.Rhs, t: L.Stmt) returns (l1: Name)
    requires StmtAt(c, a, names, L.Let(x, rhs, t))
    ensures l1.Gen? && (rhs.HandleNew? ==> rhs.kind.General?) && !rhs.Exits?
    ensures CodeIs(c, a, Before(names, rhs, l1))
    ensures !rhs.AbortRaise? ==> StmtAt(c, a + |Before(names, rhs, l1)|, [x] + names, t)
    ensures OutOfLine(rhs).Some? ==> l1 in c.lm && CodeIs(c, c.lm[l1], OutOfLine(rhs).value)
  {
    hide StmtAt, Before, CodeAt, OutOfLine;
    l1 := LetPieces(c, a, names, x, rhs, t);
    CodeAtPlain(c, a, Before(names, rhs, l1));
    OutOfLinePlain(rhs);
    if OutOfLine(rhs).Some? {
      CodeAtPlain(c, c.lm[l1], OutOfLine(rhs).value);
    }
  }

  lemma SimPlus(c: Image, s0: State, s: L.Config, m: Salted, x: string, v1: L.Value, v2: L.Value, t: L.Stmt, env: L.Env)
    returns (m': Salted)
    requires m.segs != [] && Evaluates(c, s0, s.k, s.objs, s.nh, m, L.Let(x, L.Plus(v1, v2), t), env)
    requires L.EvalV(env, v1).Some? && L.EvalV(env, v1).value.IntV? && L.EvalV(env, v2).Some?
    requires L.EvalV(env, v2).value.IntV?
    ensures m'.n > m.n && m'.segs != [] && SameLayout(m, m')
    ensures Evaluates(c, s0, s.k, s.objs, s.nh, m', t,
                      [(x, L.IntV(L.EvalV(env, v1).value.n + L.EvalV(env, v2).value.n))] + env)
  {
    hide StmtAt, World, SegsCode, RingsCode, Run, EnvOk;
    var l1 := LetCodeIs(c, m.pc, Names(env), x, L.Plus(v1, v2), t);
    var code := Before(Names(env), L.Plus(v1, v2), l1);
    assert ReplaceLabel(c.lm, code[0]) == Some(c.im[m.pc + 0]);
    assert ReplaceLabel(c.lm, code[1]) == Some(c.im[m.pc + 1]);
    assert ReplaceLabel(c.lm, code[2]) == Some(c.im[m.pc + 2]);
    assert ReplaceLabel(c.lm, code[3]) == Some(c.im[m.pc + 3]);
    var m1 := LoadValue(c, s0, s.k, s.objs, s.nh, m, env, v1, 1);
    var m2 := LoadValue(c, s0, s.k, s.objs, s.nh, m1, env, v2, 2);
    DoAddInts(c.im, s0, m2.n, m2.R, m2.M, m2.pc, Last(m2.segs).blk, 2, 1);
    var sum := L.IntV(L.EvalV(env, v1).value.n + L.EvalV(env, v2).value.n);
    var m3 := m2.(n := m2.n + 1, R := m2.R[2 := W(c, m.labs, sum)], pc := m2.pc + 1);
    m' := FinishBind(c, s0, s.k, s.objs, s.nh, m3, env, 2, x, sum, t);
  }

  lemma SimAtom(c: Image, s0: State, s: L.Config, m: Salted, x: string, v: L.Value, t: L.Stmt, env: L.Env)
    returns (m': Salted)
    requires m.segs != [] && Evaluates(c, s0, s.k, s.objs, s.nh, m, L.Let(x, L.Atom(v), t), env)
    requires L.EvalV(env, v).Some?
    ensures m'.n > m.n && m'.segs != [] && SameLayout(m, m')
    ensures Evaluates(c, s0, s.k, s.objs, s.nh, m', t, [(x, L.EvalV(env, v).value)] + env)
  {
    hide StmtAt, World, SegsCode, RingsCode, Run, EnvOk;
    var l1 := LetCodeIs(c, m.pc, Names(env), x, L.Atom(v), t);
    var code := Before(Names(env), L.Atom(v), l1);
    assert ReplaceLabel(c.lm, code[0]) == Some(c.im[m.pc + 0]);
    assert ReplaceLabel(c.lm, code[1]) == Some(c.im[m.pc + 1]);
    var m1 := LoadValue(c, s0, s.k, s.objs, s.nh, m, env, v, 1);
    m' := FinishBind(c, s0, s.k, s.objs, s.nh, m1, env, 1, x, L.EvalV(env, v).value, t);
  }

  lemma RecordAt(c: Image, labs: seq<Word>, objs: seq<L.Obj>, M: seq<Block>, segs: seq<Seg>, rings: Rings,
                 cur: seq<Word>, r: nat)
    requires World(c, labs, objs, M, segs, rings, cur) && r < |objs| && objs[r].Record?
    ensures r < |M| && M[r] == Arr(Words(c, labs, objs[r].vs)) && ValsOk(c, labs, objs[r].vs)
  {
    assert ObjOk(c, labs, objs, M, rings, r);
  }

  lemma SimSelect(c: Image, s0: State, s: L.Config, m: Salted, x: string, v: L.Value, i: int, t: L.Stmt, env: L.Env)
    returns (m': Salted)
    requires m.segs != [] && Evaluates(c, s0, s.k, s.objs, s.nh, m, L.Let(x, L.Select(v, i), t), env)
    requires L.StepSelect(s, x, t, env, v, i).Some?
    ensures m'.n > m.n && m'.segs != [] && SameLayout(m, m')
    ensures Evaluates(c, s0, s.k, s.objs, s.nh, m', t, [(x, s.objs[L.EvalV(env, v).value.loc].vs[i])] + env)
  {
    hide StmtAt, World, SegsCode, RingsCode, Run, EnvOk;
    var l1 := LetCodeIs(c, m.pc, Names(env), x, L.Select(v, i), t);
    var code := Before(Names(env), L.Select(v, i), l1);
    assert ReplaceLabel(c.lm, code[0]) == Some(c.im[m.pc + 0]);
    assert ReplaceLabel(c.lm, code[1]) == Some(c.im[m.pc + 1]);
    assert ReplaceLabel(c.lm, code[2]) == Some(c.im[m.pc + 2]);
    var m1 := LoadValue(c, s0, s.k, s.objs, s.nh, m, env, v, 1);
    var r := L.EvalV(env, v).value.loc;
    RecordAt(c, m.labs, s.objs, m.M, m.segs, m.rings, EnvWords(c, m.labs, env), r);
    DoLoadMem(c.im, s0, m1.n, m1.R, m1.M, m1.pc, Last(m1.segs).blk, 1, 1, i);
    var m2 := m1.(n := m1.n + 1, R := m1.R[1 := W(c, m.labs, s.objs[r].vs[i])], pc := m1.pc + 1);
    m' := FinishBind(c, s0, s.k, s.objs, s.nh, m2, env, 1, x, s.objs[r].vs[i], t);
  }

  lemma SimUpdate(c: Image, s0: State, s: L.Config, m: Salted, x: string, a: L.Value, i: int, v: L.Value, t: L.Stmt,
                  env: L.Env)
    returns (m': Salted)
    requires m.segs != [] && Evaluates(c, s0, s.k, s.objs, s.nh, m, L.Let(x, L.Update(a, i, v), t), env)
    requires L.StepUpdate(s, x, t, env, a, i, v).Some?
    ensures m'.n > m.n && m'.segs != [] && SameLayout(m, m')
    ensures Evaluates(c, s0, s.k, L.StepUpdate(s, x, t, env, a, i, v).value.objs, s.nh, m', t,
                      [(x, L.EvalV(env, v).value)] + env)
  {
    hide StmtAt, World, SegsCode, RingsCode, Run, EnvOk;
    var l1 := LetCodeIs(c, m.pc, Names(env), x, L.Update(a, i, v), t);
    var code := Before(Names(env), L.Update(a, i, v), l1);
    assert ReplaceLabel(c.lm, code[0]) == Some(c.im[m.pc + 0]);
    assert ReplaceLabel(c.lm, code[1]) == Some(c.im[m.pc + 1]);
    assert ReplaceLabel(c.lm, code[2]) == Some(c.im[m.pc + 2]);
    assert ReplaceLabel(c.lm, code[3]) == Some(c.im[m.pc + 3]);
    var m1 := LoadValue(c, s0, s.k, s.objs, s.nh, m, env, v, 1);
    var m2 := LoadValue(c, s0, s.k, s.objs, s.nh, m1, env, a, 2);
    var r, w := L.EvalV(env, a).value.loc, L.EvalV(env, v).value;
    var M' := Updated(c, m.labs, s.objs, m.M, m.segs, m.rings, EnvWords(c, m.labs, env), r, i, w);
    DoStoreMem(c.im, s0, m2.n, m2.R, m2.M, m2.pc, Last(m2.segs).blk, R1, 2, i);
    var m3 := m2.(n := m2.n + 1, M := M', pc := m2.pc + 1);
    m' := FinishBind(c, s0, s.k, s.objs[r := L.Record(s.objs[r].vs[i := w])], s.nh, m3, env, 1, x, w, t);
  }

  lemma Updated(c: Image, labs: seq<Word>, objs: seq<L.Obj>, M: seq<Block>, segs: seq<Seg>, rings: Rings,
                cur: seq<Word>, r: nat, i: int, w: L.Val)
    returns (M': seq<Block>)
    requires World(c, labs, objs, M, segs, rings, cur) && r < |objs| && objs[r].Record? && 0 <= i < |objs[r].vs|
    requires ValOk(c, labs, w)
    ensures WriteMem(M, r, 0 + i, W(c, labs, w)) == Some(M')
    ensures World(c, labs, objs[r := L.Record(objs[r].vs[i := w])], M', segs, rings, cur)
  {
    RecordAt(c, labs, objs, M, segs, rings, cur, r);
    hide World;
    var vs := objs[r].vs[i := w];
    UpdateRecord(c, labs, objs, M, segs, rings, cur, r, vs);
    M' := M[r := Arr(Words(c, labs, vs))];
    assert Words(c, labs, objs[r].vs)[i := W(c, labs, w)] == Words(c, labs, vs);
  }

  // ----- record allocation -----

  /** Each field is loaded and stored; register 2 keeps the record. */
  lemma {:induction false} StoreFields(c: Image, s0: State, n: nat, R: seq<Word>, M: seq<Block>, a: int, b: nat,
                                       size: nat,
                    labs: seq<Word>, env: L.Env, below: seq<Word>, vs: seq<L.Value>) returns (R': seq<Word>)
    requires IsStack(M, b) && M[b].ws == below + EnvWords(c, labs, env) && |vs| <= size
    requires At(c.im, s0, n, R, M + [Arr(Zeros(size))], a, b) && R[2] == Addr(|M|, 0)
    requires CodeIs(c, a, CompileFields(Names(env), vs)) && L.EvalVs(env, vs).Some?
    ensures |CompileFields(Names(env), vs)| == 2 * |vs|
    ensures At(c.im, s0, n + 2 * |vs|, R', M + [Arr(Words(c, labs, L.EvalVs(env, vs).value) + Zeros(size - |vs|))],
               a + 2 * |vs|, b)
    ensures R'[2] == R[2]
    decreases |vs|
  {
    hide Run;
    if vs == [] {
      R' := R;
      assert Words(c, labs, []) + Zeros(size) == Zeros(size);
    } else {
      var vs', v := vs[..|vs| - 1], vs[|vs| - 1];
      FieldsPlain(Names(env), vs');
      FieldCode(c, a, Names(env), vs);
      R' := StoreFields(c, s0, n, R, M, a, b, size, labs, env, below, vs');
      R' := StoreField(c, s0, n + 2 * |vs'|, R', M, a + 2 * |vs'|, b, size, labs, env, below, v,
                       L.EvalVs(env, vs').value);
    }
  }

  lemma FieldCode(c: Image, a: int, names: seq<string>, vs: seq<L.Value>)
    requires vs != [] && CodeIs(c, a, CompileFields(names, vs))
    ensures |CompileFields(names, vs[..|vs| - 1])| == 2 * (|vs| - 1) && |CompileFields(names, vs)| == 2 * |vs|
    ensures CodeIs(c, a, CompileFields(names, vs[..|vs| - 1]))
    ensures CodeIs(c, a + 2 * (|vs| - 1), CompileValue(names, vs[|vs| - 1], 1) + [Store(R1, R2, |vs| - 1)])
  {
    FieldsPlain(names, vs[..|vs| - 1]);
    var front, back := CompileFields(names, vs[..|vs| - 1]),
        CompileValue(names, vs[|vs| - 1], 1) + [Store(R1, R2, |vs| - 1)];
    assert CompileFields(names, vs) == front + back;
    CodeIsSplit(c, a, front, back);
  }

  lemma CodeIsSplit(c: Image, a: int, front: seq<Instr>, back: seq<Instr>)
    requires CodeIs(c, a, front + back)
    ensures CodeIs(c, a, front) && CodeIs(c, a + |front|, back)
  {
    forall i | 0 <= i < |front|
      ensures ReplaceLabel(c.lm, front[i]) == Some(c.im[a + i])
    {
      assert (front + back)[i] == front[i];
    }
    forall i | 0 <= i < |back|
      ensures ReplaceLabel(c.lm, back[i]) == Some(c.im[a + |front| + i])
    {
      assert (front + back)[|front| + i] == back[i];
      assert ReplaceLabel(c.lm, (front + back)[|front| + i]) == Some(c.im[a + (|front| + i)]);
    }
  }

  lemma StoreField(c: Image, s0: State, n: nat, R: seq<Word>, M: seq<Block>, a: int, b: nat, size: nat,
                   labs: seq<Word>, env: L.Env, below: seq<Word>, v: L.Value, done: seq<L.Val>) returns (R': seq<Word>)
    requires IsStack(M, b) && M[b].ws == below + EnvWords(c, labs, env) && |done| < size
    requires At(c.im, s0, n, R, M + [Arr(Words(c, labs, done) + Zeros(size - |done|))], a, b) && R[2] == Addr(|M|, 0)
    requires CodeIs(c, a, CompileValue(Names(env), v, 1) + [Store(R1, R2, |done|)]) && L.EvalV(env, v).Some?
    ensures At(c.im, s0, n + 2, R',
               M + [Arr(Words(c, labs, done + [L.EvalV(env, v).value]) + Zeros(size - |done| - 1))], a + 2, b)
    ensures R'[2] == R[2]
  {
    hide Run;
    var code := CompileValue(Names(env), v, 1) + [Store(R1, R2, |done|)];
    assert ReplaceLabel(c.lm, code[0]) == Some(c.im[a + 0]);
    assert ReplaceLabel(c.lm, code[1]) == Some(c.im[a + 1]);
    var w := W(c, labs, L.EvalV(env, v).value);
    var old_ws := Words(c, labs, done) + Zeros(size - |done|);
    var new_ws := Words(c, labs, done + [L.EvalV(env, v).value]) + Zeros(size - |done| - 1);
    ExecValue(c, s0, n, R, M + [Arr(old_ws)], a, b, labs, env, below, v, 1);
    R' := R[1 := w];
    assert old_ws[|done| := w] == new_ws;
    assert (M + [Arr(old_ws)])[|M| := Arr(new_ws)] == M + [Arr(new_ws)];
    DoStoreMem(c.im, s0, n + 1, R', M + [Arr(old_ws)], a + 1, b, R1, 2, |done|);
  }

  lemma SimNewRef(c: Image, s0: State, s: L.Config, m: Salted, x: string, vs: seq<L.Value>, t: L.Stmt, env: L.Env)
    returns (m': Salted)
    requires m.segs != [] && Evaluates(c, s0, s.k, s.objs, s.nh, m, L.Let(x, L.NewRef(vs), t), env)
    requires L.EvalVs(env, vs).Some?
    ensures m'.n > m.n && m'.segs != [] && SameLayout(m, m')
    ensures Evaluates(c, s0, s.k, s.objs + [L.Record(L.EvalVs(env, vs).value)], s.nh, m', t,
                      [(x, L.RefV(|s.objs|))] + env)
  {
    hide StmtAt, World, SegsCode, RingsCode, Run, EnvOk, SegWords;
    var names, b := Names(env), Last(m.segs).blk;
    var l1 := LetCodeIs(c, m.pc, names, x, L.NewRef(vs), t);
    var fields := CompileFields(names, vs);
    FieldsPlain(names, vs);
    CodeIsSplit(c, m.pc, [Malloc(R2, |vs|)] + fields, [Push(From(R2))]);
    CodeIsSplit(c, m.pc, [Malloc(R2, |vs|)], fields);
    assert ReplaceLabel(c.lm, [Malloc(R2, |vs|)][0]) == Some(c.im[m.pc + 0]);
    assert ReplaceLabel(c.lm, [Push(From(R2))][0]) == Some(c.im[m.pc + 1 + |fields| + 0]);
    TopWords(c, s0, s.k, s.objs, s.nh, m, EnvWords(c, m.labs, env));
    SameSizes(c, m.labs, s.objs, m.M, m.segs, m.rings, EnvWords(c, m.labs, env));
    DoMallocReg(c.im, s0, m.n, m.R, m.M, m.pc, b, 2, |vs|);
    var ws := L.EvalVs(env, vs).value;
    var R := StoreFields(c, s0, m.n + 1, m.R[2 := Addr(|m.M|, 0)], m.M, m.pc + 1, b, |vs|, m.labs, env,
                         SegWords(c, m.labs, Last(m.segs), Exch(m.segs, |m.segs| - 1, Int(0))), vs);
    assert Words(c, m.labs, ws) + Zeros(0) == Words(c, m.labs, ws);
    EvalVsOk(c, m.labs, env, vs);
    AddObject(c, m.labs, s.objs, m.M, m.segs, m.rings, EnvWords(c, m.labs, env), L.Record(ws),
              Arr(Words(c, m.labs, ws)));
    var m1 := m.(n := m.n + 1 + 2 * |vs|, R := R, M := m.M + [Arr(Words(c, m.labs, ws))], pc := m.pc + 1 + 2 * |vs|);
    m' := FinishBind(c, s0, s.k, s.objs + [L.Record(ws)], s.nh, m1, env, 2, x, L.RefV(|s.objs|), t);
  }

  lemma SameSizes(c: Image, labs: seq<Word>, objs: seq<L.Obj>, M: seq<Block>, segs: seq<Seg>, rings: Rings,
                  cur: seq<Word>)
    requires World(c, labs, objs, M, segs, rings, cur)
    ensures |M| == |objs|
  {
  }

  lemma {:induction false} EvalVsOk(c: Image, labs: seq<Word>, env: L.Env, vs: seq<L.Value>)
    requires EnvOk(c, labs, env) && L.EvalVs(env, vs).Some?
    ensures ValsOk(c, labs, L.EvalVs(env, vs).value)
  {
    if vs != [] {
      EvalVsOk(c, labs, env, vs[..|vs| - 1]);
      LookupOk(c, labs, env, vs[|vs| - 1]);
    }
  }
}
