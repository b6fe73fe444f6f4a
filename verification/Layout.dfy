/**
  How a configuration of the source machine lies in Salt memory.

  A layout lists the stack segments of the continuation, main stack first, each with the
  frames on it. A segment that belongs to a general handler starts with the handler's
  header, whose exchanger slot holds a stack pointer: in the running chain the top of the
  segment below, in a captured ring (lowest segment first) the top of the ring's last one.
 */
module Layout {
  import opened Options
  import opened Salt
  import opened Assembler
  import L = Lexa

  datatype MFrame =
    | MLet(x: string, t: L.Stmt, env: L.Env, ret: int)
    | MSame(h: nat, op: string, e: L.Val, kind: int, ret: int)
    | MTramp(ret: int)       // return address of an operation clause; no source frame

  datatype Base = MainBase(ret: int) | NewBase(h: nat, op: string, e: L.Val, ret: int)

  datatype Seg = Seg(blk: nat, base: Base, fs: seq<MFrame>)

  type Rings = map<nat, seq<Seg>>

  // ----- words -----

  function FunAddr(c: Image, f: string): int
  {
    if User(f) in c.lm then c.lm[User(f)] else 0
  }

  /** The word for a value; labs gives the header address of each handler instance. */
  function W(c: Image, labs: seq<Word>, v: L.Val): Word
  {
    match v
    case IntV(n) => Int(n)
    case RefV(r) => Addr(r, 0)
    case LabV(h) => if h < |labs| then labs[h] else Int(0)
    case ContV(k) => Addr(k, 0)
    case FunV(f) => Code(FunAddr(c, f))
  }

  function Words(c: Image, labs: seq<Word>, vs: seq<L.Val>): (ws: seq<Word>)
    ensures |ws| == |vs| && forall i :: 0 <= i < |vs| ==> ws[i] == W(c, labs, vs[i])
  {
    seq(|vs|, i requires 0 <= i < |vs| => W(c, labs, vs[i]))
  }

  /** An environment on the stack: oldest binding deepest. */
  function EnvWords(c: Image, labs: seq<Word>, env: L.Env): (ws: seq<Word>)
    ensures |ws| == |env|
    ensures forall i :: 0 <= i < |ws| ==> ws[i] == W(c, labs, env[|env| - 1 - i].1)
  {
    seq(|env|, i requires 0 <= i < |env| => W(c, labs, env[|env| - 1 - i].1))
  }

  function FrameLen(f: MFrame): nat
  {
    match f
    case MLet(_, _, env, _) => |env| + 1
    case MSame(_, _, _, _, _) => 5
    case MTramp(_) => 1
  }

  function FrameWords(c: Image, labs: seq<Word>, f: MFrame): (ws: seq<Word>)
    ensures |ws| == FrameLen(f)
  {
    match f
    case MLet(_, _, env, ret) => EnvWords(c, labs, env) + [Code(ret)]
    case MSame(_, op, e, kind, ret) => [Code(FunAddr(c, op)), W(c, labs, e), Int(kind), Int(-70), Code(ret)]
    case MTramp(ret) => [Code(ret)]
  }

  function FsLen(fs: seq<MFrame>): nat
  {
    if fs == [] then 0 else FsLen(fs[..|fs| - 1]) + FrameLen(fs[|fs| - 1])
  }

  function FsWords(c: Image, labs: seq<Word>, fs: seq<MFrame>): (ws: seq<Word>)
    ensures |ws| == FsLen(fs)
  {
    if fs == [] then [] else FsWords(c, labs, fs[..|fs| - 1]) + FrameWords(c, labs, fs[|fs| - 1])
  }

  function BaseLen(base: Base): nat
  {
    if base.MainBase? then 1 else 5
  }

  /** x is the exchanger. */
  function BaseWords(c: Image, labs: seq<Word>, base: Base, x: Word): (ws: seq<Word>)
    ensures |ws| == BaseLen(base)
  {
    match base
    case MainBase(ret) => [Code(ret)]
    case NewBase(_, op, e, ret) => [Code(FunAddr(c, op)), W(c, labs, e), Int(0), x, Code(ret)]
  }

  function SegLen(seg: Seg): nat
  {
    BaseLen(seg.base) + FsLen(seg.fs)
  }

  function SegWords(c: Image, labs: seq<Word>, seg: Seg, x: Word): (ws: seq<Word>)
    ensures |ws| == SegLen(seg)
  {
    BaseWords(c, labs, seg.base, x) + FsWords(c, labs, seg.fs)
  }

  function TopAddr(seg: Seg): Word
  {
    Addr(seg.blk, 0 - SegLen(seg))
  }

  // ----- the source frames of a layout -----

  function StripFrame(f: MFrame): seq<L.Frame>
  {
    match f
    case MLet(x, t, env, _) => [L.LetK(x, t, env)]
    case MSame(h, op, e, _, _) => [L.SameK(h, op, e)]
    case MTramp(_) => []
  }

  function StripFs(fs: seq<MFrame>): seq<L.Frame>
  {
    if fs == [] then [] else StripFs(fs[..|fs| - 1]) + StripFrame(fs[|fs| - 1])
  }

  function StripBase(base: Base): seq<L.Frame>
  {
    match base
    case MainBase(_) => []
    case NewBase(h, op, e, _) => [L.NewK(h, op, e)]
  }

  function StripSeg(seg: Seg): seq<L.Frame>
  {
    StripBase(seg.base) + StripFs(seg.fs)
  }

  function Strip(segs: seq<Seg>): seq<L.Frame>
  {
    if segs == [] then [] else Strip(segs[..|segs| - 1]) + StripSeg(segs[|segs| - 1])
  }

  // ----- well-formed values and frames -----

  predicate ValOk(c: Image, labs: seq<Word>, v: L.Val)
  {
    match v
    case LabV(h) => h < |labs|
    case FunV(f) => User(f) in c.lm
    case _ => true
  }

  predicate ValsOk(c: Image, labs: seq<Word>, vs: seq<L.Val>)
  {
    forall i :: 0 <= i < |vs| ==> ValOk(c, labs, vs[i])
  }

  predicate EnvOk(c: Image, labs: seq<Word>, env: L.Env)
  {
    forall i :: 0 <= i < |env| ==> ValOk(c, labs, env[i].1)
  }

  /** below is the number of words under the frame in its block. */
  predicate FrameOk(c: Image, labs: seq<Word>, blk: nat, below: nat, f: MFrame)
  {
    match f
    case MLet(_, _, env, _) => EnvOk(c, labs, env)
    case MSame(h, _, e, _, _) => ValOk(c, labs, e) && h < |labs| && labs[h] == Addr(blk, -(below + 4))
    case MTramp(_) => true
  }

  predicate FsOk(c: Image, labs: seq<Word>, blk: nat, below: nat, fs: seq<MFrame>)
  {
    fs == [] ||
    (FsOk(c, labs, blk, below, fs[..|fs| - 1]) &&
     FrameOk(c, labs, blk, below + FsLen(fs[..|fs| - 1]), fs[|fs| - 1]))
  }

  predicate BaseOk(c: Image, labs: seq<Word>, blk: nat, base: Base)
  {
    match base
    case MainBase(_) => true
    case NewBase(h, _, e, _) => ValOk(c, labs, e) && h < |labs| && labs[h] == Addr(blk, -4)
  }

  predicate SegOk(c: Image, labs: seq<Word>, seg: Seg)
  {
    BaseOk(c, labs, seg.blk, seg.base) && FsOk(c, labs, seg.blk, BaseLen(seg.base), seg.fs)
  }

  predicate SegsOk(c: Image, labs: seq<Word>, segs: seq<Seg>)
  {
    |segs| > 0 && forall i :: 0 <= i < |segs| ==> SegOk(c, labs, segs[i])
  }

  predicate AllNew(segs: seq<Seg>)
  {
    forall i :: 0 <= i < |segs| ==> segs[i].base.NewBase?
  }

  predicate Distinct(segs: seq<Seg>)
  {
    forall i, j :: 0 <= i < j < |segs| ==> segs[i].blk != segs[j].blk
  }

  predicate Apart(a: seq<Seg>, b: seq<Seg>)
  {
    forall i, j :: 0 <= i < |a| && 0 <= j < |b| ==> a[i].blk != b[j].blk
  }

  predicate Owned(objs: seq<L.Obj>, segs: seq<Seg>)
  {
    forall i :: 0 <= i < |segs| ==> segs[i].blk < |objs| && objs[segs[i].blk].Segment?
  }

  // ----- memory -----

  function Exch(segs: seq<Seg>, i: nat, x0: Word): Word
    requires i < |segs|
  {
    if i == 0 then x0 else TopAddr(segs[i - 1])
  }

  function BlockWords(c: Image, labs: seq<Word>, segs: seq<Seg>, i: nat, x0: Word, cur: seq<Word>): seq<Word>
    requires i < |segs|
  {
    SegWords(c, labs, segs[i], Exch(segs, i, x0)) + (if i == |segs| - 1 then cur else [])
  }

  /** The blocks of segs hold the words of segs, with cur on top of the last one. */
  predicate ChainMem(c: Image, labs: seq<Word>, M: seq<Block>, segs: seq<Seg>, x0: Word, cur: seq<Word>)
  {
    forall i :: 0 <= i < |segs| ==> segs[i].blk < |M| && M[segs[i].blk] == Stk(BlockWords(c, labs, segs, i, x0, cur))
  }

  predicate ActiveOk(c: Image, labs: seq<Word>, objs: seq<L.Obj>, M: seq<Block>, segs: seq<Seg>, cur: seq<Word>)
  {
    && SegsOk(c, labs, segs)
    && segs[0].base.MainBase? && segs[0].blk == 0 && AllNew(segs[1..])
    && Distinct(segs) && Owned(objs, segs)
    && ChainMem(c, labs, M, segs, Int(0), cur)
  }

  predicate RingOk(c: Image, labs: seq<Word>, objs: seq<L.Obj>, M: seq<Block>, ring: seq<Seg>)
  {
    && SegsOk(c, labs, ring) && AllNew(ring) && Distinct(ring) && Owned(objs, ring)
    && ChainMem(c, labs, M, ring, TopAddr(ring[|ring| - 1]), [])
  }

  /** Block r of memory holds object r. */
  predicate ObjOk(c: Image, labs: seq<Word>, objs: seq<L.Obj>, M: seq<Block>, rings: Rings, r: nat)
    requires r < |objs| == |M|
  {
    match objs[r]
    case Segment => M[r].Stk?
    case Record(vs) => M[r] == Arr(Words(c, labs, vs)) && ValsOk(c, labs, vs)
    case Spent => M[r] == Arr([Int(-71)])
    case Captured(k) =>
      r in rings && RingOk(c, labs, objs, M, rings[r]) && Strip(rings[r]) == k &&
      M[r] == Arr([Addr(rings[r][0].blk, -4)])
  }

  predicate HeapOk(c: Image, labs: seq<Word>, objs: seq<L.Obj>, M: seq<Block>, rings: Rings)
  {
    |objs| == |M| && forall r :: 0 <= r < |objs| ==> ObjOk(c, labs, objs, M, rings, r)
  }

  predicate RingsApart(rings: Rings, segs: seq<Seg>)
  {
    (forall r :: r in rings ==> Apart(rings[r], segs)) &&
    (forall r, q :: r in rings && q in rings && r != q ==> Apart(rings[r], rings[q]))
  }

  predicate RingsCaptured(rings: Rings, objs: seq<L.Obj>)
  {
    forall r :: r in rings ==> r < |objs| && objs[r].Captured?
  }

  /** The whole store: the running chain with cur on top, the captured rings, the heap. */
  predicate World(c: Image, labs: seq<Word>, objs: seq<L.Obj>, M: seq<Block>, segs: seq<Seg>, rings: Rings,
                  cur: seq<Word>)
  {
    && ActiveOk(c, labs, objs, M, segs, cur)
    && HeapOk(c, labs, objs, M, rings)
    && RingsApart(rings, segs) && RingsCaptured(rings, objs)
  }

  // ----- lists of frames -----

  lemma FsSnoc(c: Image, labs: seq<Word>, blk: nat, below: nat, fs: seq<MFrame>, f: MFrame)
    ensures FsLen(fs + [f]) == FsLen(fs) + FrameLen(f)
    ensures FsWords(c, labs, fs + [f]) == FsWords(c, labs, fs) + FrameWords(c, labs, f)
    ensures StripFs(fs + [f]) == StripFs(fs) + StripFrame(f)
    ensures FsOk(c, labs, blk, below, fs + [f]) <==>
            FsOk(c, labs, blk, below, fs) && FrameOk(c, labs, blk, below + FsLen(fs), f)
  {
    assert (fs + [f])[..|fs + [f]| - 1] == fs;
  }

  lemma {:induction false} FsPrefix(c: Image, labs: seq<Word>, blk: nat, below: nat, fs: seq<MFrame>, i: nat)
    requires i <= |fs| && FsOk(c, labs, blk, below, fs)
    ensures FsOk(c, labs, blk, below, fs[..i])
    ensures FsLen(fs[..i]) <= FsLen(fs)
    ensures FsWords(c, labs, fs[..i]) == FsWords(c, labs, fs)[..FsLen(fs[..i])]
    decreases |fs|
  {
    hide FrameOk, FrameWords, FrameLen;
    if i == |fs| {
      assert fs[..i] == fs;
    } else {
      var fs' := fs[..|fs| - 1];
      FsPrefix(c, labs, blk, below, fs', i);
      assert fs'[..i] == fs[..i];
      var ws, top := FsWords(c, labs, fs'), FrameWords(c, labs, fs[|fs| - 1]);
      assert (ws + top)[..FsLen(fs[..i])] == ws[..FsLen(fs[..i])];
    }
  }

  lemma StripSnoc(segs: seq<Seg>, seg: Seg)
    ensures Strip(segs + [seg]) == Strip(segs) + StripSeg(seg)
  {
    assert (segs + [seg])[..|segs + [seg]| - 1] == segs;
  }

  lemma StripNone(a: seq<Seg>)
    ensures Strip(a + []) == Strip(a) + Strip([])
  {
    assert a + [] == a && Strip(a) + [] == Strip(a);
  }

  lemma {:induction false} StripConcat(a: seq<Seg>, b: seq<Seg>)
    ensures Strip(a + b) == Strip(a) + Strip(b)
  {
    hide Strip, StripSeg;
    if b == [] {
      StripNone(a);
    } else {
      StripConcat(a, b[..|b| - 1]);
      StripConcatStep(a, b[..|b| - 1], b[|b| - 1]);
      assert b == b[..|b| - 1] + [b[|b| - 1]];
    }
  }

  lemma StripConcatStep(a: seq<Seg>, b: seq<Seg>, seg: Seg)
    requires Strip(a + b) == Strip(a) + Strip(b)
    ensures Strip(a + (b + [seg])) == Strip(a) + Strip(b + [seg])
  {
    StripSnoc(a + b, seg);
    StripSnoc(b, seg);
    Associate(a, b, [seg]);
    Associate(Strip(a), Strip(b), StripSeg(seg));
  }

  // ----- a new label changes no word -----

  lemma ValExtend(c: Image, labs: seq<Word>, w: Word, v: L.Val)
    requires ValOk(c, labs, v)
    ensures ValOk(c, labs + [w], v) && W(c, labs + [w], v) == W(c, labs, v)
  {
  }

  lemma EnvExtend(c: Image, labs: seq<Word>, w: Word, env: L.Env)
    requires EnvOk(c, labs, env)
    ensures EnvOk(c, labs + [w], env) && EnvWords(c, labs + [w], env) == EnvWords(c, labs, env)
  {
  }

  lemma ValsExtend(c: Image, labs: seq<Word>, w: Word, vs: seq<L.Val>)
    requires ValsOk(c, labs, vs)
    ensures ValsOk(c, labs + [w], vs) && Words(c, labs + [w], vs) == Words(c, labs, vs)
  {
  }

  lemma FrameExtend(c: Image, labs: seq<Word>, w: Word, blk: nat, below: nat, f: MFrame)
    requires FrameOk(c, labs, blk, below, f)
    ensures FrameOk(c, labs + [w], blk, below, f) && FrameWords(c, labs + [w], f) == FrameWords(c, labs, f)
  {
    match f
    case MLet(_, _, env, _) => EnvExtend(c, labs, w, env);
    case _ =>
  }

  lemma {:induction false} FsExtend(c: Image, labs: seq<Word>, w: Word, blk: nat, below: nat, fs: seq<MFrame>)
    requires FsOk(c, labs, blk, below, fs)
    ensures FsOk(c, labs + [w], blk, below, fs) && FsWords(c, labs + [w], fs) == FsWords(c, labs, fs)
  {
    if fs != [] {
      FsExtend(c, labs, w, blk, below, fs[..|fs| - 1]);
      FrameExtend(c, labs, w, blk, below + FsLen(fs[..|fs| - 1]), fs[|fs| - 1]);
    }
  }

  lemma SegExtend(c: Image, labs: seq<Word>, w: Word, seg: Seg, x: Word)
    requires SegOk(c, labs, seg)
    ensures SegOk(c, labs + [w], seg) && SegWords(c, labs + [w], seg, x) == SegWords(c, labs, seg, x)
  {
    FsExtend(c, labs, w, seg.blk, BaseLen(seg.base), seg.fs);
  }

  lemma SegsExtend(c: Image, labs: seq<Word>, w: Word, M: seq<Block>, segs: seq<Seg>, x0: Word, cur: seq<Word>)
    requires SegsOk(c, labs, segs) && ChainMem(c, labs, M, segs, x0, cur)
    ensures SegsOk(c, labs + [w], segs) && ChainMem(c, labs + [w], M, segs, x0, cur)
  {
    forall i | 0 <= i < |segs|
      ensures SegOk(c, labs + [w], segs[i])
      ensures BlockWords(c, labs + [w], segs, i, x0, cur) == BlockWords(c, labs, segs, i, x0, cur)
    {
      SegExtend(c, labs, w, segs[i], Exch(segs, i, x0));
    }
  }

  lemma HeapExtend(c: Image, labs: seq<Word>, w: Word, objs: seq<L.Obj>, M: seq<Block>, rings: Rings)
    requires HeapOk(c, labs, objs, M, rings)
    ensures HeapOk(c, labs + [w], objs, M, rings)
  {
    forall r | 0 <= r < |objs|
      ensures ObjOk(c, labs + [w], objs, M, rings, r)
    {
      assert ObjOk(c, labs, objs, M, rings, r);
      match objs[r]
      case Record(vs) => ValsExtend(c, labs, w, vs);
      case Captured(_) =>
        SegsExtend(c, labs, w, M, rings[r], TopAddr(rings[r][|rings[r]| - 1]), []);
      case _ =>
    }
  }

  lemma WorldExtend(c: Image, labs: seq<Word>, w: Word, objs: seq<L.Obj>, M: seq<Block>, segs: seq<Seg>, rings: Rings,
                    cur: seq<Word>)
    requires World(c, labs, objs, M, segs, rings, cur)
    ensures World(c, labs + [w], objs, M, segs, rings, cur)
  {
    SegsExtend(c, labs, w, M, segs, Int(0), cur);
    HeapExtend(c, labs, w, objs, M, rings);
  }
}
