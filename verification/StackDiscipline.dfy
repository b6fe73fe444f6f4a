/**
  The stack discipline of compiled code. Follow an activation through a run of the source machine,
  through raises that capture it and resumes that bring it back: whenever it runs again, or has
  returned its value, the machine's stack holds below it what it held when the activation began.
 */
module StackDiscipline {
  import opened Options
  import opened Salt
  import opened SaltRules
  import opened Assembler
  import opened Linking
  import opened Layout
  import opened LayoutSteps
  import opened Matching
  import opened Activations
  import opened HandlerSteps
  import opened CompilerCorrect
  import opened FirstOrder
  import opened Pins
  import L = Lexa

  // ----- following an activation -----

  /** Above the d oldest frames of the continuation, above the e oldest frames of captured
      resumption r, or left for good. */
  datatype Place = OnStack(d: nat) | Held(r: nat, e: nat) | Gone

  /** Where the activation is after the step of s. */
  function Follow(s: L.Config, pl: Place): Place
  {
    match s.ctl
    case Re(_) => if pl.OnStack? && pl.d >= |s.k| then Gone else pl
    case Ev(Let(_, AbortRaise(lab, _), _), env) =>
      (match HandlerPosition(s, env, lab)
       case None => Gone
       case Some(i) => if pl.OnStack? && pl.d > i then Gone else pl)
    case Ev(Let(_, Raise(lab, _), _), env) =>
      (match HandlerPosition(s, env, lab)
       case None => Gone
       case Some(i) => if pl.OnStack? && pl.d > i then Held(|s.objs|, pl.d - i) else pl)
    case Ev(Let(_, Resume(k, _), _), env) =>
      if pl.Held? && L.EvalV(env, k) == Some(L.ContV(pl.r)) then OnStack(|s.k| + 1 + pl.e) else pl
    case _ => pl
  }

  /** Where the activation that runs after n1 steps is after n2 steps. */
  function FollowRun(p: L.Program, n1: nat, n2: nat): Place
    requires n1 <= n2
    decreases n2
  {
    match L.Run(p, n1)
    case None => Gone
    case Some(s1) =>
      if n1 == n2 then OnStack(|s1.k|) else
      match L.Run(p, n2 - 1)
      case None => Gone
      case Some(s) => Follow(s, FollowRun(p, n1, n2 - 1))
  }

  /** It is on the stack all the time. */
  predicate StaysHome(p: L.Program, n1: nat, n2: nat)
    requires n1 <= n2
    decreases n2
  {
    FollowRun(p, n1, n2).OnStack? && (n1 < n2 ==> StaysHome(p, n1, n2 - 1))
  }

  // ----- the pin that goes with it -----

  /** The pin is at segment i of the chain, or of the ring. At home the segments below are the
      same as at the start. */
  ghost predicate PinnedAt(m: Salted, pl: Place, pin: Seg, lower: Option<seq<Seg>>, i: nat)
  {
    match pl
    case OnStack(d) =>
      PinAt(m.segs, i, pin, d) && (Covered(m.segs, i, pin) || OnTop(m.segs, i, pin)) && (lower.Some? ==>
            m.segs[..i] == lower.value)
    case Held(r, e) => lower == None && r in m.rings && PinAt(m.rings[r], i, pin, e) && Covered(m.rings[r], i, pin)
    case Gone => true
  }

  /** What is home no longer once the activation has been captured. */
  function Home(lower: Option<seq<Seg>>, pl: Place): Option<seq<Seg>>
  {
    if pl.OnStack? then lower else None
  }

  ghost predicate Chained(m: Salted)
  {
    m.segs != [] && AllNew(m.segs[1..])
  }

  lemma StoreChained(c: Image, s0: State, s: L.Config, m: Salted)
    requires Matches(c, s0, s, m) && (s.ctl.Ev? || s.ctl.Re?)
    ensures Chained(m) && Strip(m.segs) == s.k
    ensures forall r :: r in m.rings ==> r < |s.objs|
  {
    hide SegsOk, HeapOk, RingsApart, SegsCode, RingsCode, ChainMem, StmtAt;
  }

  /** Calls, installations and straight-line code. */
  lemma PinnedUnder(m: Salted, m': Salted, mv: Move, pl: Place, pin: Seg, lower: Option<seq<Seg>>, i: nat)
    requires Moved(mv, m, m') && PinnedAt(m, pl, pin, lower, i)
    requires (mv.Stay? || mv.Called? || mv.Installed? || mv.NewStack?)
    ensures PinnedAt(m', pl, pin, lower, i)
  {
    if pl.OnStack? && !mv.Stay? {
      PinUnderLet(m.segs, i, pin, pl.d, mv.f);
      if mv.Installed? {
        PinUnderFrame(WithFrame(m.segs, mv.f), i, pin, pl.d, mv.g);
      } else if mv.NewStack? {
        PinBelow(WithFrame(m.segs, mv.f), i, pin, pl.d, [mv.seg]);
      }
    }
  }

  /** Returns and aborts that leave the frames up to the pin. */
  lemma PinnedCut(m: Salted, m': Salted, mv: Move, pl: Place, pin: Seg, lower: Option<seq<Seg>>, i: nat)
    requires Moved(mv, m, m') && PinnedAt(m, pl, pin, lower, i) && Chained(m) && (mv.CutBack? || mv.Left?)
    requires pl.OnStack? ==> pl.d <= Height(m'.segs)
    ensures PinnedAt(m', pl, pin, lower, i)
  {
    if pl.OnStack? {
      if mv.CutBack? {
        PinCut(m.segs, i, pin, pl.d, mv.j, mv.n);
      } else {
        PinAfterLeave(m.segs, i, pin, pl.d);
      }
    }
  }

  /** A raise below the pin puts it into the new ring. */
  lemma PinnedTaken(m: Salted, m': Salted, mv: Move, pl: Place, pin: Seg, lower: Option<seq<Seg>>, i: nat, h: nat)
    returns (i': nat)
    requires Moved(mv, m, m') && PinnedAt(m, pl, pin, lower, i) && Chained(m) && mv.Taken? && mv.r !in m.rings
    requires h == Height(WithFrame(m.segs, mv.f)[..mv.j])
    ensures pl.OnStack? && pl.d > h ==> PinnedAt(m', Held(mv.r, pl.d - h), pin, None, i')
    ensures !(pl.OnStack? && pl.d > h) ==> PinnedAt(m', pl, pin, lower, i')
  {
    hide Strip, PinAt;
    i' := i;
    if pl.OnStack? {
      var raising := WithFrame(m.segs, mv.f);
      PinUnderLet(m.segs, i, pin, pl.d, mv.f);
      NewBelow(m.segs, mv.f);
      PinHeight(raising, i, pin, pl.d);
      if i < mv.j {
        HeightMonotone(raising, i + 1, mv.j);
        PinInPrefix(raising, i, pin, pl.d, mv.j);
        PinUnderFrame(raising[..mv.j], i, pin, pl.d, mv.tramp);
      } else {
        HeightMonotone(raising, mv.j, i);
        PinInSuffix(raising, i, pin, pl.d, mv.j);
        i' := i - mv.j;
      }
    }
  }

  lemma NewBelow(segs: seq<Seg>, f: MFrame)
    requires segs != [] && AllNew(segs[1..])
    ensures AllNew(WithFrame(segs, f)[1..])
  {
    forall i | 0 <= i < |WithFrame(segs, f)[1..]|
      ensures WithFrame(segs, f)[1..][i].base.NewBase?
    {
      assert segs[1..][i].base.NewBase?;
    }
  }

  /** A resume of its ring brings the pin back. */
  lemma PinnedRejoined(m: Salted, m': Salted, mv: Move, pl: Place, pin: Seg, lower: Option<seq<Seg>>, i: nat)
    returns (i': nat)
    requires Moved(mv, m, m') && PinnedAt(m, pl, pin, lower, i) && mv.Rejoined?
    ensures pl.Held? && pl.r == mv.r ==> PinnedAt(m', OnStack(Height(WithFrame(m.segs, mv.f)) + pl.e), pin, None, i')
    ensures !(pl.Held? && pl.r == mv.r) ==> PinnedAt(m', pl, pin, lower, i')
  {
    i' := i;
    var resuming := WithFrame(m.segs, mv.f);
    if pl.OnStack? {
      PinUnderLet(m.segs, i, pin, pl.d, mv.f);
      PinBelow(resuming, i, pin, pl.d, m.rings[mv.r]);
    } else if pl.Held? && pl.r == mv.r {
      PinRejoined(resuming, m.rings[mv.r], i, pin, pl.e);
      i' := |resuming| + i;
    }
  }

  lemma LetHeight(segs: seq<Seg>, f: MFrame)
    requires segs != [] && f.MLet?
    ensures Height(WithFrame(segs, f)) == Height(segs) + 1
  {
    StripWithFrame(segs, f);
  }

  lemma GonePinned(m: Salted, pin: Seg, lower: Option<seq<Seg>>, i: nat)
    ensures PinnedAt(m, Gone, pin, lower, i)
  {
  }

  /** The heights that a step leaves, as far as they matter. */
  lemma StepHeights(p: L.Program, s: L.Config, m: Salted, m': Salted, mv: Move)
    requires L.Step(p, s).Some? && !L.Step(p, s).value.ctl.Fin? && Moved(mv, m, m') && StepFits(s, m, mv)
    requires Strip(m.segs) == s.k && Strip(m'.segs) == L.Step(p, s).value.k
    ensures s.ctl.Re? ==> Height(m'.segs) + 1 == |s.k|
    ensures s.ctl.Ev? && s.ctl.s.Let? && s.ctl.s.rhs.AbortRaise? ==>
              HandlerPosition(s, s.ctl.env, s.ctl.s.rhs.lab) == Some(Height(m'.segs))
    ensures s.ctl.Ev? && s.ctl.s.Let? && s.ctl.s.rhs.Raise? ==>
              HandlerPosition(s, s.ctl.env, s.ctl.s.rhs.lab) == Some(Height(WithFrame(m.segs, mv.f)[..mv.j]))
    ensures s.ctl.Ev? && s.ctl.s.Let? && s.ctl.s.rhs.Resume? ==>
              Height(WithFrame(m.segs, mv.f)) == |s.k| + 1 && L.EvalV(s.ctl.env, s.ctl.s.rhs.k) == Some(L.ContV(mv.r))
  {
    hide Strip, L.FindHandler, L.Enter;
    if s.ctl.Ev? && s.ctl.s.Let? && s.ctl.s.rhs.Resume? {
      LetHeight(m.segs, mv.f);
    }
  }

  /** One step keeps the pin where Follow says. */
  lemma StepPinned(c: Image, p: L.Program, s0: State, s: L.Config, m: Salted, m': Salted, mv: Move, pl: Place, pin: Seg,
                   lower: Option<seq<Seg>>, i: nat)
    returns (i': nat)
    requires Matches(c, s0, s, m) && L.Step(p, s).Some? && Matches(c, s0, L.Step(p, s).value, m')
    requires !L.Step(p, s).value.ctl.Fin?
    requires Moved(mv, m, m') && StepFits(s, m, mv) && PinnedAt(m, pl, pin, lower, i)
    ensures PinnedAt(m', Follow(s, pl), pin, Home(lower, Follow(s, pl)), i')
  {
    var s' := L.Step(p, s).value;
    NotOut(c, p, s0, s, m');
    StoreChained(c, s0, s, m);
    StoreChained(c, s0, s', m');
    StepHeights(p, s, m, m', mv);
    i' := PinnedMove(s, m, m', mv, pl, pin, lower, i);
  }

  lemma NotOut(c: Image, p: L.Program, s0: State, s: L.Config, m': Salted)
    requires L.Step(p, s).Some? && Matches(c, s0, L.Step(p, s).value, m')
    ensures !L.Step(p, s).value.ctl.Out? && (s.ctl.Ev? || s.ctl.Re?)
  {
  }

  lemma PinnedMove(s: L.Config, m: Salted, m': Salted, mv: Move, pl: Place, pin: Seg, lower: Option<seq<Seg>>, i: nat)
    returns (i': nat)
    requires (s.ctl.Ev? || s.ctl.Re?) && Moved(mv, m, m') && StepFits(s, m, mv) && PinnedAt(m, pl, pin, lower, i)
    requires Chained(m) && forall r :: r in m.rings ==> r < |s.objs|
    requires s.ctl.Re? ==> Height(m'.segs) + 1 == |s.k|
    requires s.ctl.Ev? && s.ctl.s.Let? && s.ctl.s.rhs.AbortRaise? ==>
               HandlerPosition(s, s.ctl.env, s.ctl.s.rhs.lab) == Some(Height(m'.segs))
    requires s.ctl.Ev? && s.ctl.s.Let? && s.ctl.s.rhs.Raise? ==>
               HandlerPosition(s, s.ctl.env, s.ctl.s.rhs.lab) == Some(Height(WithFrame(m.segs, mv.f)[..mv.j]))
    requires s.ctl.Ev? && s.ctl.s.Let? && s.ctl.s.rhs.Resume? ==>
               Height(WithFrame(m.segs, mv.f)) == |s.k| + 1 && L.EvalV(s.ctl.env, s.ctl.s.rhs.k) == Some(L.ContV(mv.r))
    ensures PinnedAt(m', Follow(s, pl), pin, Home(lower, Follow(s, pl)), i')
  {
    hide PinnedAt, Moved, Height, HandlerPosition, Chained, WithFrame;
    i' := i;
    HeldIsAway(m, pl, pin, lower, i);
    if Follow(s, pl) == Gone {
      GonePinned(m', pin, None, i);
      return;
    }
    match s.ctl
    case Re(v) => PinnedCut(m, m', mv, pl, pin, lower, i);
    case Ev(Let(_, AbortRaise(_, _), _), _) => PinnedCut(m, m', mv, pl, pin, lower, i);
    case Ev(Let(_, Raise(lab, _), _), env) => i' := PinnedTaken(m, m', mv, pl, pin, lower, i,
                                                                HandlerPosition(s, env, lab).value);
    case Ev(Let(_, Resume(_, _), _), _) => i' := PinnedRejoined(m, m', mv, pl, pin, lower, i);
    case _ => PinnedUnder(m, m', mv, pl, pin, lower, i);
  }

  lemma HeldIsAway(m: Salted, pl: Place, pin: Seg, lower: Option<seq<Seg>>, i: nat)
    requires PinnedAt(m, pl, pin, lower, i)
    ensures pl.Held? ==> lower == None
  {
  }

  // ----- words -----

  lemma {:induction false} LabsGrow(c: Image, labs: seq<Word>, labs': seq<Word>, seg: Seg, x: Word)
    requires SegOk(c, labs, seg) && labs <= labs'
    ensures SegOk(c, labs', seg) && SegWords(c, labs', seg, x) == SegWords(c, labs, seg, x)
    decreases |labs'|
  {
    if |labs'| == |labs| {
      assert labs' == labs;
    } else {
      var front := labs'[..|labs'| - 1];
      assert labs' == front + [labs'[|labs'| - 1]];
      LabsGrow(c, labs, front, seg, x);
      SegExtend(c, front, labs'[|labs'| - 1], seg, x);
    }
  }

  /** Only the exchanger slot of a handler's stack depends on what lies below. */
  lemma ExchangerOnly(c: Image, labs: seq<Word>, seg: Seg, x: Word, x': Word)
    ensures |SegWords(c, labs, seg, x)| == |SegWords(c, labs, seg, x')|
    ensures forall i :: 0 <= i < SegLen(seg) && (i != EXCHANGER || seg.base.MainBase?) ==>
              SegWords(c, labs, seg, x)[i] == SegWords(c, labs, seg, x')[i]
  {
    assert forall i :: 0 <= i < BaseLen(seg.base) && (i != EXCHANGER || seg.base.MainBase?) ==>
        BaseWords(c, labs, seg.base, x)[i] == BaseWords(c, labs, seg.base, x')[i];
  }

  // ----- whole runs -----

  /** The slot of the exchanger in a handler's stack. */
  const EXCHANGER := 3

  function HomeOf(p: L.Program, n1: nat, n2: nat, m1: Salted): Option<seq<Seg>>
    requires n1 <= n2 && m1.segs != []
  {
    if StaysHome(p, n1, n2) then Some(m1.segs[..|m1.segs| - 1]) else None
  }

  lemma {:induction false} RunEarlier(p: L.Program, n1: nat, n2: nat)
    requires n1 <= n2 && L.Run(p, n2).Some?
    ensures L.Run(p, n1).Some? && (n1 < n2 ==> !L.IsAnswer(L.Run(p, n1).value))
    decreases n2
  {
    if n1 < n2 {
      RunEarlier(p, n1, n2 - 1);
    }
  }

  lemma PinStart(c: Image, s0: State, s: L.Config, m: Salted)
    requires Matches(c, s0, s, m) && s.ctl.Ev?
    ensures m.segs != [] && PinnedAt(m, OnStack(|s.k|), Last(m.segs), Some(m.segs[..|m.segs| - 1]), |m.segs| - 1)
  {
    StoreChained(c, s0, s, m);
    var pin := Last(m.segs);
    assert pin.fs[..|pin.fs|] == pin.fs;
  }

  lemma FollowStep(c: Image, p: L.Program, s: L.Config, m: Salted, pl: Place, pin: Seg, lower: Option<seq<Seg>>, i: nat)
    returns (m': Salted, i': nat)
    requires ProgramAt(c, p) && Plain(s) && Matches(c, Boot(), s, m) && L.Step(p, s).Some?
    requires !L.Step(p, s).value.ctl.Fin?
    requires PinnedAt(m, pl, pin, lower, i)
    ensures m'.n >= m.n && m.labs <= m'.labs && Matches(c, Boot(), L.Step(p, s).value, m')
    ensures PinnedAt(m', Follow(s, pl), pin, Home(lower, Follow(s, pl)), i')
  {
    hide ProgramAt, Plain, PinnedAt, StepFits, Follow, Matches, Moved;
    var mv;
    m', mv := SimStep(c, p, Boot(), s, m);
    i' := StepPinned(c, p, Boot(), s, m, m', mv, pl, pin, lower, i);
    LabsOnly(mv, m, m');
  }

  lemma FollowOn(p: L.Program, n1: nat, n2: nat, m1: Salted)
    requires n1 < n2 && L.Run(p, n2).Some? && L.Run(p, n1).Some? && L.Run(p, n2 - 1).Some? && m1.segs != []
    ensures FollowRun(p, n1, n2) == Follow(L.Run(p, n2 - 1).value, FollowRun(p, n1, n2 - 1))
    ensures HomeOf(p, n1, n2, m1) == Home(HomeOf(p, n1, n2 - 1, m1), FollowRun(p, n1, n2))
    ensures L.Step(p, L.Run(p, n2 - 1).value) == L.Run(p, n2)
  {
    hide Follow, L.Step;
  }

  /** From a match at n1 to one at n2, with the pin of the activation. */
  lemma {:induction false} SimFollow(c: Image, p: L.Program, n1: nat, n2: nat, m1: Salted) returns (m2: Salted, i: nat)
    requires ProgramAt(c, Linkable(p)) && NeverEnters(p, n2, RESERVED)
    requires n1 <= n2 && L.Run(p, n2).Some? && !L.IsAnswer(L.Run(p, n2).value)
    requires L.Run(p, n1).Some? && L.Run(p, n1).value.ctl.Ev? && Matches(c, Boot(), L.Run(p, n1).value, m1)
    requires m1.segs != []
    ensures m2.n >= m1.n && m1.labs <= m2.labs && Matches(c, Boot(), L.Run(p, n2).value, m2)
    ensures PinnedAt(m2, FollowRun(p, n1, n2), Last(m1.segs), HomeOf(p, n1, n2, m1), i)
    decreases n2
  {
    hide ProgramAt, PinnedAt, L.Step, Follow, Matches, HomeOf, L.Run, FollowRun, Plain, Enters, Linkable;
    if n1 == n2 {
      PinStart(c, Boot(), L.Run(p, n1).value, m1);
      FollowNone(p, n1, m1);
      m2, i := m1, |m1.segs| - 1;
    } else {
      RunEarlier(p, n2 - 1, n2);
      var m, i0 := SimFollow(c, p, n1, n2 - 1, m1);
      FollowOn(p, n1, n2, m1);
      NoFunctionValues(p, n2 - 1);
      LinkedStep(p, L.Run(p, n2 - 1).value);
      m2, i := FollowStep(c, Linkable(p), L.Run(p, n2 - 1).value, m, FollowRun(p, n1, n2 - 1), Last(m1.segs),
                          HomeOf(p, n1, n2 - 1, m1), i0);
    }
  }

  lemma LinkedStep(p: L.Program, s: L.Config)
    requires Plain(s) && !Enters(p, s, RESERVED) && L.Step(p, s).Some?
    ensures L.Step(Linkable(p), s) == L.Step(p, s)
  {
    hide Plain, Enters, L.Step;
    WithoutSteps(p, s, RESERVED);
  }

  lemma FollowNone(p: L.Program, n: nat, m1: Salted)
    requires L.Run(p, n).Some? && m1.segs != []
    ensures FollowRun(p, n, n) == OnStack(|L.Run(p, n).value.k|)
    ensures HomeOf(p, n, n, m1) == Some(m1.segs[..|m1.segs| - 1])
  {
  }

  lemma LabsOnly(mv: Move, m: Salted, m': Salted)
    requires Moved(mv, m, m')
    ensures m.labs <= m'.labs
  {
  }

  // ----- what is below an activation -----

  /** On stack b, below are the words under the slots of an activation, at the top of which sp is. */
  ghost predicate StackAt(s: State, b: nat, below: seq<Word>, slots: nat)
  {
    && s.sp == Addr(b, 0 - (|below| + slots)) && b < |s.M| && s.M[b].Stk?
    && |s.M[b].ws| == |below| + slots && s.M[b].ws[..|below|] == below
  }

  /** The slots of the code that runs, or of a value that is being returned. */
  function Slots(ctl: L.Ctl): nat
  {
    if ctl.Ev? then |ctl.env| else 0
  }

  /** The stacks below stack b, main stack first: each is the one that the next one's exchanger
      points to the top of. */
  ghost predicate StacksBelow(s: State, stacks: seq<nat>, b: nat, below: seq<Word>)
  {
    && (stacks == [] <==> b == 0)
    && (forall j :: 0 <= j < |stacks| ==> stacks[j] < |s.M| && s.M[stacks[j]].Stk?)
    && (stacks != [] ==> stacks[0] == 0 && |below| > EXCHANGER && below[EXCHANGER] == TopOf(s, stacks[|stacks| - 1]))
    && (forall j :: 0 < j < |stacks| ==>
          |s.M[stacks[j]].ws| > EXCHANGER && s.M[stacks[j]].ws[EXCHANGER] == TopOf(s, stacks[j - 1]))
  }

  function TopOf(s: State, b: nat): Word
    requires b < |s.M|
  {
    Addr(b, 0 - |s.M[b].ws|)
  }

  /** Equal but for the exchanger, which a handler's stack has and the main stack has not. */
  ghost predicate SameBut(b: nat, ws: seq<Word>, ws': seq<Word>)
  {
    |ws| == |ws'| && forall i :: 0 <= i < |ws| && (b == 0 || i != EXCHANGER) ==> ws[i] == ws'[i]
  }

  function Blocks(segs: seq<Seg>): (bs: seq<nat>)
    ensures |bs| == |segs| && forall j :: 0 <= j < |bs| ==> bs[j] == segs[j].blk
  {
    seq(|segs|, j requires 0 <= j < |segs| => segs[j].blk)
  }

  /** The words of a segment that is not the running one. */
  lemma LowerWords(c: Image, labs: seq<Word>, M: seq<Block>, segs: seq<Seg>, cur: seq<Word>, j: nat)
    requires ChainMem(c, labs, M, segs, Int(0), cur) && SegsOk(c, labs, segs) && j < |segs| - 1
    ensures segs[j].blk < |M| && M[segs[j].blk] == Stk(SegWords(c, labs, segs[j], Exch(segs, j, Int(0))))
    ensures SegOk(c, labs, segs[j])
    ensures |M[segs[j].blk].ws| == SegLen(segs[j])
  {
    hide SegWords, SegOk;
    assert BlockWords(c, labs, segs, j, Int(0), cur) == SegWords(c, labs, segs[j], Exch(segs, j, Int(0))) + [];
  }

  lemma LayoutOf(c: Image, s: L.Config, m: Salted)
    requires Matches(c, Boot(), s, m) && (s.ctl.Ev? || s.ctl.Re?)
    ensures m.segs != []
    ensures ChainMem(c, m.labs, m.M, m.segs, Int(0), if s.ctl.Ev? then EnvWords(c, m.labs, s.ctl.env) else [])
    ensures SegsOk(c, m.labs, m.segs) && m.segs[0].blk == 0 && m.segs[0].base.MainBase? && AllNew(m.segs[1..])
    ensures Distinct(m.segs)
    ensures Run(c.im, Boot(), m.n) ==
            Some(State(m.R, m.M, Code(m.pc), Addr(Last(m.segs).blk, 0 - |m.M[Last(m.segs).blk].ws|), false))
    ensures s.ctl.Re? ==>
              |m.R| == REGISTERS && m.R[1] == W(c, m.labs, s.ctl.v) && 0 <= m.pc < |c.im| && c.im[m.pc] == Return
  {
    hide HeapOk, RingsApart, SegsCode, RingsCode, StmtAt, Run, ChainMem, SegsOk;
  }

  /** The running stack, in terms of the layout. */
  lemma RunningStack(c: Image, s: L.Config, m: Salted)
    requires Matches(c, Boot(), s, m) && (s.ctl.Ev? || s.ctl.Re?)
    ensures m.segs != [] && Run(c.im, Boot(), m.n).Some? && SegOk(c, m.labs, Last(m.segs))
    ensures StackAt(Run(c.im, Boot(), m.n).value, Last(m.segs).blk,
                    SegWords(c, m.labs, Last(m.segs), Exch(m.segs, |m.segs| - 1, Int(0))), Slots(s.ctl))
  {
    hide Matches, Run, SegWords, SegOk, Distinct, AllNew;
    LayoutOf(c, s, m);
    var cur := if s.ctl.Ev? then EnvWords(c, m.labs, s.ctl.env) else [];
    var n := |m.segs| - 1;
    var below := SegWords(c, m.labs, m.segs[n], Exch(m.segs, n, Int(0)));
    assert m.M[m.segs[n].blk] == Stk(below + cur);
    hide ChainMem, SegsOk;
    assert (below + cur)[..|below|] == below;
  }

  /** The exchanger slot of a handler's stack leads to the top of the one below. */
  lemma ExchangerWord(c: Image, labs: seq<Word>, segs: seq<Seg>, j: nat)
    requires 0 < j < |segs| && AllNew(segs[1..])
    ensures |SegWords(c, labs, segs[j], Exch(segs, j, Int(0)))| > EXCHANGER
    ensures SegWords(c, labs, segs[j], Exch(segs, j, Int(0)))[EXCHANGER] == TopAddr(segs[j - 1])
  {
    assert segs[j] == segs[1..][j - 1];
  }

  lemma LowerStack(c: Image, s: L.Config, m: Salted, j: nat)
    requires Matches(c, Boot(), s, m) && (s.ctl.Ev? || s.ctl.Re?) && j < |m.segs| - 1
    ensures var b := m.segs[j].blk;
            && b < |m.M| && m.M[b].Stk? && |m.M[b].ws| == SegLen(m.segs[j])
            && (j > 0 ==> |m.M[b].ws| > EXCHANGER && m.M[b].ws[EXCHANGER] == TopAddr(m.segs[j - 1]))
  {
    hide Matches, Run, SegWords, SegsOk, ChainMem, SegLen, AllNew, SegOk, Distinct;
    LayoutOf(c, s, m);
    LowerWords(c, m.labs, m.M, m.segs, if s.ctl.Ev? then EnvWords(c, m.labs, s.ctl.env) else [], j);
    if j > 0 {
      ExchangerWord(c, m.labs, m.segs, j);
    }
  }

  lemma LowerStacks(c: Image, s: L.Config, m: Salted)
    requires Matches(c, Boot(), s, m) && (s.ctl.Ev? || s.ctl.Re?)
    ensures m.segs != [] && Run(c.im, Boot(), m.n).Some?
    ensures StacksBelow(Run(c.im, Boot(), m.n).value, Blocks(m.segs[..|m.segs| - 1]), Last(m.segs).blk,
                        SegWords(c, m.labs, Last(m.segs), Exch(m.segs, |m.segs| - 1, Int(0))))
  {
    hide Matches, Run, SegWords, SegsOk, ChainMem, SegLen, AllNew, Exch, StacksBelow;
    LayoutOf(c, s, m);
    MainIsZero(m.segs);
    hide Distinct;
    forall j | 0 <= j < |m.segs| - 1
      ensures m.segs[j].blk < |m.M| && m.M[m.segs[j].blk].Stk? && |m.M[m.segs[j].blk].ws| == SegLen(m.segs[j])
    {
      LowerStack(c, s, m, j);
    }
    forall j | 0 < j < |m.segs| - 1
      ensures |m.M[m.segs[j].blk].ws| > EXCHANGER && m.M[m.segs[j].blk].ws[EXCHANGER] == TopAddr(m.segs[j - 1])
    {
      LowerStack(c, s, m, j);
    }
    if |m.segs| > 1 {
      ExchangerWord(c, m.labs, m.segs, |m.segs| - 1);
    }
    BelowOf(Run(c.im, Boot(), m.n).value, m.segs,
            SegWords(c, m.labs, Last(m.segs), Exch(m.segs, |m.segs| - 1, Int(0))));
  }

  lemma MainIsZero(segs: seq<Seg>)
    requires segs != [] && Distinct(segs) && segs[0].blk == 0
    ensures Last(segs).blk == 0 <==> |segs| == 1
  {
  }

  lemma BelowOf(s: State, segs: seq<Seg>, below: seq<Word>)
    requires segs != [] && segs[0].blk == 0 && (Last(segs).blk == 0 <==> |segs| == 1)
    requires forall j :: 0 <= j < |segs| - 1 ==>
               segs[j].blk < |s.M| && s.M[segs[j].blk].Stk? && |s.M[segs[j].blk].ws| == SegLen(segs[j])
    requires |segs| > 1 ==> |below| > EXCHANGER && below[EXCHANGER] == TopAddr(segs[|segs| - 2])
    requires forall j :: 0 < j < |segs| - 1 ==>
               |s.M[segs[j].blk].ws| > EXCHANGER && s.M[segs[j].blk].ws[EXCHANGER] == TopAddr(segs[j - 1])
    ensures StacksBelow(s, Blocks(segs[..|segs| - 1]), Last(segs).blk, below)
  {
    hide SegLen;
  }

  /** Two layouts with the same running segment, under labels of which one extends the other. */
  lemma SameRunning(c: Image, m1: Salted, m2: Salted)
    requires m1.segs != [] && m2.segs != [] && Last(m1.segs) == Last(m2.segs) && m1.labs <= m2.labs
    requires SegOk(c, m1.labs, Last(m1.segs))
    requires (|m1.segs| == 1 ==> m1.segs[0].base.MainBase? && m1.segs[0].blk == 0)
    requires Last(m1.segs).blk == 0 ==> Last(m1.segs).base.MainBase?
    ensures SameBut(Last(m1.segs).blk, SegWords(c, m1.labs, Last(m1.segs), Exch(m1.segs, |m1.segs| - 1, Int(0))),
                    SegWords(c, m2.labs, Last(m2.segs), Exch(m2.segs, |m2.segs| - 1, Int(0))))
  {
    var seg := Last(m1.segs);
    var x1, x2 := Exch(m1.segs, |m1.segs| - 1, Int(0)), Exch(m2.segs, |m2.segs| - 1, Int(0));
    LabsGrow(c, m1.labs, m2.labs, seg, x2);
    ExchangerOnly(c, m1.labs, seg, x1, x2);
    hide SegWords;
  }

  /** And with the same segments below: every word of every stack is the same. */
  lemma SameBelow(c: Image, s1: L.Config, s2: L.Config, m1: Salted, m2: Salted)
    requires Matches(c, Boot(), s1, m1) && Matches(c, Boot(), s2, m2) && s1.ctl.Ev? && (s2.ctl.Ev? || s2.ctl.Re?)
    requires m1.segs != [] && m2.segs != [] && m1.labs <= m2.labs && |m1.segs| == |m2.segs|
    requires m1.segs[..|m1.segs| - 1] == m2.segs[..|m1.segs| - 1] && Last(m1.segs) == Last(m2.segs)
    ensures SegWords(c, m2.labs, Last(m2.segs), Exch(m2.segs, |m2.segs| - 1, Int(0))) ==
            SegWords(c, m1.labs, Last(m1.segs), Exch(m1.segs, |m1.segs| - 1, Int(0)))
    ensures forall j :: 0 <= j < |m1.segs| - 1 ==>
              m1.segs[j].blk < |m1.M| && m1.segs[j].blk < |m2.M| && m2.M[m1.segs[j].blk] == m1.M[m1.segs[j].blk]
  {
    hide Matches, Run, SegWords, ChainMem, SegOk, Distinct, AllNew, Exch, EnvWords;
    LayoutOf(c, s1, m1);
    LayoutOf(c, s2, m2);
    assert m1.segs == m1.segs[..|m1.segs| - 1] + [Last(m1.segs)]
        && m2.segs == m2.segs[..|m1.segs| - 1] + [Last(m2.segs)];
    assert m1.segs == m2.segs;
    var cur1 := EnvWords(c, m1.labs, s1.ctl.env);
    var cur2 := if s2.ctl.Ev? then EnvWords(c, m2.labs, s2.ctl.env) else [];
    var n := |m1.segs| - 1;
    assert SegOk(c, m1.labs, Last(m1.segs));
    LabsGrow(c, m1.labs, m2.labs, Last(m1.segs), Exch(m1.segs, n, Int(0)));
    hide SegsOk;
    forall j | 0 <= j < n
      ensures m1.segs[j].blk < |m1.M| && m1.segs[j].blk < |m2.M| && m2.M[m1.segs[j].blk] == m1.M[m1.segs[j].blk]
    {
      LowerWords(c, m1.labs, m1.M, m1.segs, cur1, j);
      LowerWords(c, m2.labs, m2.M, m2.segs, cur2, j);
      LabsGrow(c, m1.labs, m2.labs, m1.segs[j], Exch(m1.segs, j, Int(0)));
    }
  }

  // ----- the theorems -----

  /** A run reaches an activation that runs: its pin is the running segment. */
  lemma PinIsRunning(c: Image, s: L.Config, m: Salted, pin: Seg, lower: Option<seq<Seg>>, i: nat)
    requires Matches(c, Boot(), s, m) && (s.ctl.Ev? || s.ctl.Re?) && PinnedAt(m, OnStack(|s.k|), pin, lower, i)
    ensures m.segs != [] && Last(m.segs) == pin && (lower.Some? ==> m.segs[..|m.segs| - 1] == lower.value)
  {
    StoreChained(c, Boot(), s, m);
    hide Matches;
    PinRuns(m.segs, i, pin, |s.k|);
    assert m.segs[i].fs[..|m.segs[i].fs|] == m.segs[i].fs;
  }

  lemma MainBase(c: Image, s: L.Config, m: Salted)
    requires Matches(c, Boot(), s, m) && (s.ctl.Ev? || s.ctl.Re?)
    ensures m.segs != [] && (|m.segs| == 1 ==> m.segs[0].base.MainBase? && m.segs[0].blk == 0)
    ensures Last(m.segs).blk == 0 ==> Last(m.segs).base.MainBase?
  {
    hide Matches, SegsOk, ChainMem, Run, AllNew;
    LayoutOf(c, s, m);
    MainIsZero(m.segs);
  }

  /** Two matches of one activation, running at both: same stack, same words below it but for the
      exchanger; and if it stayed home, the same words in every stack below. */
  lemma KeptBetween(c: Image, s1: L.Config, s2: L.Config, m1: Salted, m2: Salted, lower: Option<seq<Seg>>, i: nat)
    returns (b: nat, below1: seq<Word>, below2: seq<Word>, stacks: seq<nat>)
    requires Matches(c, Boot(), s1, m1) && Matches(c, Boot(), s2, m2) && s1.ctl.Ev? && (s2.ctl.Ev? || s2.ctl.Re?)
    requires m1.labs <= m2.labs
    requires m1.segs != [] && PinnedAt(m2, OnStack(|s2.k|), Last(m1.segs), lower, i)
    requires (lower.Some? ==> lower.value == m1.segs[..|m1.segs| - 1])
    ensures Run(c.im, Boot(), m1.n).Some? && Run(c.im, Boot(), m2.n).Some?
    ensures var st1, st2 := Run(c.im, Boot(), m1.n).value, Run(c.im, Boot(), m2.n).value;
            && StackAt(st1, b, below1, Slots(s1.ctl)) && StackAt(st2, b, below2, Slots(s2.ctl))
                && SameBut(b, below1, below2)
            && StacksBelow(st1, stacks, b, below1)
            && (lower.Some? ==> below1 == below2 && forall j :: 0 <= j < |stacks| ==>
                  stacks[j] < |st1.M| && stacks[j] < |st2.M| && st2.M[stacks[j]] == st1.M[stacks[j]])
  {
    hide Matches, PinnedAt, Run, StackAt, StacksBelow, SameBut, SegWords, SegOk;
    PinIsRunning(c, s2, m2, Last(m1.segs), lower, i);
    b := Last(m1.segs).blk;
    below1 := SegWords(c, m1.labs, Last(m1.segs), Exch(m1.segs, |m1.segs| - 1, Int(0)));
    below2 := SegWords(c, m2.labs, Last(m2.segs), Exch(m2.segs, |m2.segs| - 1, Int(0)));
    stacks := Blocks(m1.segs[..|m1.segs| - 1]);
    RunningStack(c, s1, m1);
    RunningStack(c, s2, m2);
    LowerStacks(c, s1, m1);
    MainBase(c, s1, m1);
    SameRunning(c, m1, m2);
    if lower.Some? {
      SameLength(m1.segs, m2.segs);
      SameBelow(c, s1, s2, m1, m2);
      LayoutOf(c, s1, m1);
      LayoutOf(c, s2, m2);
    }
  }

  lemma SameLength(segs1: seq<Seg>, segs2: seq<Seg>)
    requires segs1 != [] && segs2 != [] && segs2[..|segs2| - 1] == segs1[..|segs1| - 1]
    ensures |segs1| == |segs2| && segs1[..|segs1| - 1] == segs2[..|segs1| - 1]
  {
    assert |segs1[..|segs1| - 1]| == |segs1| - 1 && |segs2[..|segs2| - 1]| == |segs2| - 1;
  }

  /** The stack discipline. An activation runs after n1 source steps, with its slots on stack b. It
      runs again, or returns its value, after n2, whatever was raised, captured and resumed in
      between: then, in the machine states that match the two, sp is on the same stack with the
      current slots, or none, above the same words; only the exchanger may have changed. If the
      activation was never captured, not even that has, nor any word of the stacks below. */
  lemma StackKept(p: L.Program, im: seq<Instr>, n1: nat, n2: nat)
    returns (c: Image, m1: Salted, m2: Salted, b: nat, below1: seq<Word>, below2: seq<Word>, stacks: seq<nat>)
    requires Assembles(p, im) && NeverEnters(p, n2, RESERVED)
    requires n1 <= n2 && L.Run(p, n2).Some? && L.Run(p, n1).Some? && L.Run(p, n1).value.ctl.Ev?
    requires !L.IsAnswer(L.Run(p, n2).value) && FollowRun(p, n1, n2) == OnStack(|L.Run(p, n2).value.k|)
    ensures c.im == im && Matches(c, Boot(), L.Run(p, n1).value, m1) && Matches(c, Boot(), L.Run(p, n2).value, m2)
    ensures n1 <= m1.n <= m2.n && Run(im, Boot(), m1.n).Some? && Run(im, Boot(), m2.n).Some?
    ensures var st1, st2, s2 := Run(im, Boot(), m1.n).value, Run(im, Boot(), m2.n).value, L.Run(p, n2).value;
            && StackAt(st1, b, below1, Slots(L.Run(p, n1).value.ctl)) && StackAt(st2, b, below2, Slots(s2.ctl))
            && SameBut(b, below1, below2) && StacksBelow(st1, stacks, b, below1)
            && (StaysHome(p, n1, n2) ==> below1 == below2 && forall j :: 0 <= j < |stacks| ==>
                  stacks[j] < |st1.M| && stacks[j] < |st2.M| && st2.M[stacks[j]] == st1.M[stacks[j]])
            && (s2.ctl.Re? ==> IsReturning(im, st2, W(c, m2.labs, s2.ctl.v)))
  {
    hide Matches, PinnedAt, ProgramAt, Run, StackAt, StacksBelow, SameBut, Assembles, L.Run, FollowRun, Enters,
        Linkable;
    c, m1 := SimUntil(p, im, n1);
    var i;
    m2, i := MatchAgain(c, p, n1, n2, m1);
    b, below1, below2, stacks := KeptBetween(c, L.Run(p, n1).value, L.Run(p, n2).value, m1, m2, HomeOf(p, n1, n2, m1),
                                             i);
    LayoutOf(c, L.Run(p, n2).value, m2);
  }

  /** A return is next, with the value in register 1. */
  ghost predicate IsReturning(im: seq<Instr>, s: State, w: Word)
  {
    s.pc.Code? && 0 <= s.pc.target < |im| && im[s.pc.target] == Return && |s.R| == REGISTERS && s.R[1] == w
  }

  lemma MatchAgain(c: Image, p: L.Program, n1: nat, n2: nat, m1: Salted) returns (m2: Salted, i: nat)
    requires ProgramAt(c, Linkable(p)) && NeverEnters(p, n2, RESERVED)
    requires n1 <= n2 && L.Run(p, n2).Some? && !L.IsAnswer(L.Run(p, n2).value)
    requires L.Run(p, n1).Some? && L.Run(p, n1).value.ctl.Ev? && Matches(c, Boot(), L.Run(p, n1).value, m1)
    ensures m1.segs != [] && m2.n >= m1.n && m1.labs <= m2.labs && Matches(c, Boot(), L.Run(p, n2).value, m2)
    ensures PinnedAt(m2, FollowRun(p, n1, n2), Last(m1.segs), HomeOf(p, n1, n2, m1), i)
  {
    hide ProgramAt, PinnedAt, Matches, L.Run, FollowRun, NeverEnters, Linkable;
    MainBase(c, L.Run(p, n1).value, m1);
    m2, i := SimFollow(c, p, n1, n2, m1);
  }

  // ----- staying home, as the source run shows it -----

  /** The continuation never gets shorter than it is after n1 steps. */
  ghost predicate NeverBelow(p: L.Program, n1: nat, n2: nat)
  {
    L.Run(p, n1).Some? && forall n :: n1 <= n <= n2 && L.Run(p, n).Some? ==>
          |L.Run(p, n).value.k| >= |L.Run(p, n1).value.k|
  }

  lemma FollowHeight(p: L.Program, s: L.Config, d: nat)
    requires L.Step(p, s).Some? && !L.IsAnswer(L.Step(p, s).value) && d <= |s.k|
    ensures Follow(s, OnStack(d)) == OnStack(d) <==> d <= |L.Step(p, s).value.k|
    ensures Follow(s, OnStack(d)).OnStack? ==> Follow(s, OnStack(d)) == OnStack(d)
  {
    hide L.Enter;
  }

  lemma NeverBelowOn(p: L.Program, n1: nat, n2: nat)
    requires n1 < n2 && L.Run(p, n2).Some? && L.Run(p, n1).Some?
    ensures NeverBelow(p, n1, n2) <==> NeverBelow(p, n1, n2 - 1) && |L.Run(p, n2).value.k| >= |L.Run(p, n1).value.k|
  {
    hide L.Run;
  }

  /** An activation stays on the stack exactly while the continuation is no shorter than its own. */
  lemma {:induction false} HomeExactly(p: L.Program, n1: nat, n2: nat)
    requires n1 <= n2 && L.Run(p, n2).Some? && !L.IsAnswer(L.Run(p, n2).value)
    ensures L.Run(p, n1).Some? && (StaysHome(p, n1, n2) <==> NeverBelow(p, n1, n2))
    ensures StaysHome(p, n1, n2) ==> FollowRun(p, n1, n2) == OnStack(|L.Run(p, n1).value.k|)
    decreases n2
  {
    hide NeverBelow, StaysHome, Follow, FollowRun, L.Step, L.Run;
    RunEarlier(p, n1, n2);
    if n1 == n2 {
      HomeNow(p, n1);
    } else {
      RunEarlier(p, n2 - 1, n2);
      HomeExactly(p, n1, n2 - 1);
      NeverBelowOn(p, n1, n2);
      StepOf(p, n2);
      FollowsOn(p, n1, n2);
      if NeverBelow(p, n1, n2 - 1) {
        StillThere(p, n1, n2 - 1);
        FollowHeight(p, L.Run(p, n2 - 1).value, |L.Run(p, n1).value.k|);
      }
    }
  }

  lemma HomeNow(p: L.Program, n: nat)
    requires L.Run(p, n).Some?
    ensures StaysHome(p, n, n) && NeverBelow(p, n, n) && FollowRun(p, n, n) == OnStack(|L.Run(p, n).value.k|)
  {
    hide L.Run;
  }

  lemma StepOf(p: L.Program, n: nat)
    requires n > 0 && L.Run(p, n).Some? && L.Run(p, n - 1).Some?
    ensures L.Step(p, L.Run(p, n - 1).value) == L.Run(p, n)
  {
  }

  lemma FollowsOn(p: L.Program, n1: nat, n2: nat)
    requires n1 < n2 && L.Run(p, n2).Some? && L.Run(p, n1).Some? && L.Run(p, n2 - 1).Some?
    ensures FollowRun(p, n1, n2) == Follow(L.Run(p, n2 - 1).value, FollowRun(p, n1, n2 - 1))
    ensures StaysHome(p, n1, n2) <==> FollowRun(p, n1, n2).OnStack? && StaysHome(p, n1, n2 - 1)
  {
    hide Follow, L.Run;
  }

  lemma StillThere(p: L.Program, n1: nat, n: nat)
    requires NeverBelow(p, n1, n) && n1 <= n && L.Run(p, n).Some?
    ensures |L.Run(p, n1).value.k| <= |L.Run(p, n).value.k|
  {
    hide L.Run;
  }

  /** From the start of a body over some continuation to the return of its value over the same one,
      never below it: between the machine states that match the two, sp is back where it was, and
      every word under it, on this stack and on all stacks below, is as it was. */
  lemma BodyReturns(p: L.Program, im: seq<Instr>, n1: nat, n2: nat)
    returns (c: Image, m1: Salted, m2: Salted, b: nat, below: seq<Word>, stacks: seq<nat>)
    requires Assembles(p, im) && NeverEnters(p, n2, RESERVED) && n1 <= n2 && L.Run(p, n2).Some? && L.Run(p, n1).Some?
    requires L.Run(p, n1).value.ctl.Ev? && L.Run(p, n2).value.ctl.Re?
    requires NeverBelow(p, n1, n2) && |L.Run(p, n2).value.k| == |L.Run(p, n1).value.k|
    ensures c.im == im && Matches(c, Boot(), L.Run(p, n1).value, m1) && Matches(c, Boot(), L.Run(p, n2).value, m2)
    ensures n1 <= m1.n <= m2.n && Run(im, Boot(), m1.n).Some? && Run(im, Boot(), m2.n).Some?
    ensures var st1, st2 := Run(im, Boot(), m1.n).value, Run(im, Boot(), m2.n).value;
            && StackAt(st1, b, below, |L.Run(p, n1).value.ctl.env|) && StackAt(st2, b, below, 0)
                && StacksBelow(st1, stacks, b, below)
            && (forall j :: 0 <= j < |stacks| ==>
                  stacks[j] < |st1.M| && stacks[j] < |st2.M| && st2.M[stacks[j]] == st1.M[stacks[j]])
            && IsReturning(im, st2, W(c, m2.labs, L.Run(p, n2).value.ctl.v))
  {
    hide Assembles, Run, StackAt, StacksBelow, SameBut, IsReturning, NeverBelow, L.Run, Matches, NeverEnters;
    HomeExactly(p, n1, n2);
    var below2;
    c, m1, m2, b, below, below2, stacks := StackKept(p, im, n1, n2);
  }
}
