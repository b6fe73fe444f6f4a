/**
  The two-list deque of the schedulers (benchmarks/koka/scheduler/dequeue.kk and
  benchmarks/effekt/scheduler/exndequeue.effekt): front and rear are lists whose sizes are kept,
  and check moves elements over when one is too long.
 */
module Dequeue {
  import opened Options

  datatype Deque<T> = Deque(front: seq<T>, frontSize: int, rear: seq<T>, rearSize: int)

  const C := 4

  function Empty<T>(): Deque<T>
  {
    Deque([], 0, [], 0)
  }

  // ----- the list library, with the number of cells that a call goes through -----

  function Take<T>(s: seq<T>, n: int): (r: (seq<T>, nat))
    ensures 0 <= n <= |s| ==> r == (s[..n], n)
  {
    if n <= 0 || s == [] then ([], 0) else
    var (t, cells) := Take(s[1..], n - 1);
    assert n <= |s| ==> [s[0]] + s[1..][..n - 1] == s[..n];
    ([s[0]] + t, cells + 1)
  }

  function Drop<T>(s: seq<T>, n: int): (r: (seq<T>, nat))
    ensures 0 <= n <= |s| ==> r == (s[n..], n)
  {
    if n <= 0 || s == [] then (s, 0) else
    var (t, cells) := Drop(s[1..], n - 1);
    (t, cells + 1)
  }

  function Reverse<T>(s: seq<T>): (r: seq<T>)
    ensures |r| == |s|
  {
    if s == [] then [] else Reverse(s[1..]) + [s[0]]
  }

  /** reverse, with the part that is reversed already. */
  function ReverseOnto<T>(s: seq<T>, acc: seq<T>): (r: (seq<T>, nat))
    ensures r == (Reverse(s) + acc, |s|)
    decreases |s|
  {
    if s == [] then assert Reverse(s) + acc == acc; (acc, 0) else
    var (t, cells) := ReverseOnto(s[1..], [s[0]] + acc);
    assert Reverse(s[1..]) + ([s[0]] + acc) == Reverse(s) + acc;
    (t, cells + 1)
  }

  function Append<T>(s: seq<T>, t: seq<T>): (r: (seq<T>, nat))
    ensures r == (s + t, |s|)
  {
    if s == [] then assert s + t == t; (t, 0) else
    var (u, cells) := Append(s[1..], t);
    assert [s[0]] + (s[1..] + t) == s + t;
    ([s[0]] + u, cells + 1)
  }

  // ----- the deque; every operation also tells how many cells it went through to move elements over -----

  function Check<T>(q: Deque<T>): (Deque<T>, nat)
  {
    var size1 := (q.frontSize + q.rearSize) / 2;
    var size2 := q.frontSize + q.rearSize - size1;
    if q.frontSize > C * q.rearSize + 1 then
      var (front, taken) := Take(q.front, size1);
      var (moved, dropped) := Drop(q.front, size1);
      var (back, reversed) := ReverseOnto(moved, []);
      var (rear, appended) := Append(q.rear, back);
      (Deque(front, size1, rear, size2), taken + dropped + reversed + appended)
    else if q.rearSize > C * q.frontSize + 1 then
      var (moved, dropped) := Drop(q.rear, size1);
      var (back, reversed) := ReverseOnto(moved, []);
      var (front, appended) := Append(q.front, back);
      var (rear, taken) := Take(q.rear, size1);
      (Deque(front, size2, rear, size1), dropped + reversed + appended + taken)
    else (q, 0)
  }

  function PushFront<T>(q: Deque<T>, x: T): (Deque<T>, nat)
  {
    Check(Deque([x] + q.front, q.frontSize + 1, q.rear, q.rearSize))
  }

  function PushBack<T>(q: Deque<T>, x: T): (Deque<T>, nat)
  {
    Check(Deque(q.front, q.frontSize, [x] + q.rear, q.rearSize + 1))
  }

  /** None stands for the exception, and for None of the other variant. */
  function PopFront<T>(q: Deque<T>): Option<(T, (Deque<T>, nat))>
  {
    if q.front != [] then Some((q.front[0], Check(Deque(q.front[1..], q.frontSize - 1, q.rear, q.rearSize))))
    else if |q.rear| == 1 then Some((q.rear[0], (Empty(), 0)))
    else None
  }

  function PopBack<T>(q: Deque<T>): Option<(T, (Deque<T>, nat))>
  {
    if |q.front| == 1 && q.rear == [] then Some((q.front[0], (Empty(), 0)))
    else if q.rear != [] then Some((q.rear[0], Check(Deque(q.front, q.frontSize, q.rear[1..], q.rearSize - 1))))
    else None
  }

  function First<T>(q: Deque<T>): Option<T>
  {
    var l := if q.frontSize == 0 && q.rearSize == 1 then q.rear else q.front;
    if l == [] then None else Some(l[0])
  }

  function Last<T>(q: Deque<T>): Option<T>
  {
    var l := if q.frontSize == 1 && q.rearSize == 0 then q.front else q.rear;
    if l == [] then None else Some(l[0])
  }

  // ----- the sequence that a deque stands for -----

  predicate Sized<T>(q: Deque<T>)
  {
    q.frontSize == |q.front| && q.rearSize == |q.rear|
  }

  /** Neither side is longer than 4 times the other and 1. */
  predicate Balanced<T>(q: Deque<T>)
  {
    q.frontSize <= 4 * q.rearSize + 1 && q.rearSize <= 4 * q.frontSize + 1
  }

  function Contents<T>(q: Deque<T>): seq<T>
  {
    q.front + Reverse(q.rear)
  }

  lemma {:induction false} ReverseJoin<T>(a: seq<T>, b: seq<T>)
    ensures Reverse(a + b) == Reverse(b) + Reverse(a)
  {
    if a == [] {
      assert a + b == b;
    } else {
      assert (a + b)[1..] == a[1..] + b;
      ReverseJoin(a[1..], b);
    }
  }

  lemma {:induction false} ReverseTwice<T>(a: seq<T>)
    ensures Reverse(Reverse(a)) == a
  {
    if a != [] {
      ReverseJoin(Reverse(a[1..]), [a[0]]);
      ReverseTwice(a[1..]);
      assert Reverse([a[0]]) == [a[0]];
    }
  }

  lemma FrontMoves<T>(f: seq<T>, r: seq<T>, n: nat)
    requires n <= |f|
    ensures f[..n] + Reverse(r + Reverse(f[n..])) == f + Reverse(r)
  {
    ReverseJoin(r, Reverse(f[n..]));
    ReverseTwice(f[n..]);
    assert f == f[..n] + f[n..];
  }

  lemma RearMoves<T>(f: seq<T>, r: seq<T>, n: nat)
    requires n <= |r|
    ensures f + Reverse(r[n..]) + Reverse(r[..n]) == f + Reverse(r)
  {
    hide Reverse;
    assert r == r[..n] + r[n..];
    ReverseJoin(r[..n], r[n..]);
    Associate(f, Reverse(r[n..]), Reverse(r[..n]));
  }

  /** Moving elements over changes neither the sequence nor its length, and balances the sides. */
  lemma CheckRefines<T>(q: Deque<T>)
    requires Sized(q)
    ensures Sized(Check(q).0) && Balanced(Check(q).0) && Contents(Check(q).0) == Contents(q)
  {
    hide Reverse, Take, Drop, ReverseOnto, Append;
    var size1 := (q.frontSize + q.rearSize) / 2;
    if q.frontSize > C * q.rearSize + 1 {
      FrontMoves(q.front, q.rear, size1);
      assert Reverse(q.front[size1..]) + [] == Reverse(q.front[size1..]);
    } else if q.rearSize > C * q.frontSize + 1 {
      RearMoves(q.front, q.rear, size1);
      assert Reverse(q.rear[size1..]) + [] == Reverse(q.rear[size1..]);
    }
  }

  /** The sizes of the sides after a check, and the cells that it went through, for sides of sizes f
      and r: nothing happens while each is at most 4 times the other plus 1; else the side that is too
      long keeps half of the elements, rounded down, and every element is gone through once, those of
      that half twice. */
  function Halved(f: nat, r: nat): (nat, nat, nat)
  {
    var n := f + r;
    if f <= 4 * r + 1 && r <= 4 * f + 1 then (f, r, 0)
    else if r < f then (n / 2, n - n / 2, n + n / 2)
    else (n - n / 2, n / 2, n + n / 2)
  }

  /** Exactly when elements are moved, how many, and what that costs. */
  lemma CheckExact<T>(q: Deque<T>)
    requires Sized(q)
    ensures (Check(q).0.frontSize, Check(q).0.rearSize, Check(q).1) == Halved(q.frontSize, q.rearSize)
    ensures Check(q).0 == q <==> q.frontSize <= 4 * q.rearSize + 1 && q.rearSize <= 4 * q.frontSize + 1
    ensures Check(q).1 == 0 <==> q.frontSize <= 4 * q.rearSize + 1 && q.rearSize <= 4 * q.frontSize + 1
  {
    hide Reverse, Take, Drop, ReverseOnto, Append;
  }

  datatype Op<T> = PushF(x: T) | PushB(x: T) | PopF | PopB | PeekF | PeekB

  /** What an operation answers, and the deque after it with the cells gone through; one that fails
      leaves the deque alone. */
  function Apply<T>(q: Deque<T>, op: Op<T>): (Option<T>, (Deque<T>, nat))
  {
    match op
    case PushF(x) => (None, PushFront(q, x))
    case PushB(x) => (None, PushBack(q, x))
    case PopF => (match PopFront(q) case None => (None, (q, 0)) case Some((x, q')) => (Some(x), q'))
    case PopB => (match PopBack(q) case None => (None, (q, 0)) case Some((x, q')) => (Some(x), q'))
    case PeekF => (First(q), (q, 0))
    case PeekB => (Last(q), (q, 0))
  }

  /** The same on a sequence. */
  function ApplySeq<T>(s: seq<T>, op: Op<T>): (Option<T>, seq<T>)
  {
    match op
    case PushF(x) => (None, [x] + s)
    case PushB(x) => (None, s + [x])
    case PopF => if s == [] then (None, s) else (Some(s[0]), s[1..])
    case PopB => if s == [] then (None, s) else (Some(s[|s| - 1]), s[..|s| - 1])
    case PeekF => (if s == [] then None else Some(s[0]), s)
    case PeekB => (if s == [] then None else Some(s[|s| - 1]), s)
  }

  ghost predicate Valid<T>(q: Deque<T>)
  {
    Sized(q) && Balanced(q)
  }

  lemma PushRefines<T>(q: Deque<T>, x: T)
    requires Valid(q)
    ensures Valid(PushFront(q, x).0) && Contents(PushFront(q, x).0) == [x] + Contents(q)
    ensures Valid(PushBack(q, x).0) && Contents(PushBack(q, x).0) == Contents(q) + [x]
  {
    CheckRefines(Deque([x] + q.front, q.frontSize + 1, q.rear, q.rearSize));
    CheckRefines(Deque(q.front, q.frontSize, [x] + q.rear, q.rearSize + 1));
    assert ([x] + q.rear)[1..] == q.rear && Reverse([x] + q.rear) == Reverse(q.rear) + [x];
    hide Reverse, Check;
    Associate([x], q.front, Reverse(q.rear));
    Associate(q.front, Reverse(q.rear), [x]);
  }

  /** A pop fails exactly when the sequence is empty. */
  lemma PopFrontRefines<T>(q: Deque<T>)
    requires Valid(q)
    ensures PopFront(q).None? <==> Contents(q) == []
    ensures PopFront(q).Some? ==>
              Valid(PopFront(q).value.1.0) && Contents(q) == [PopFront(q).value.0] + Contents(PopFront(q).value.1.0)
  {
    if q.front != [] {
      CheckRefines(Deque(q.front[1..], q.frontSize - 1, q.rear, q.rearSize));
      hide Reverse, Check;
      Associate([q.front[0]], q.front[1..], Reverse(q.rear));
      assert [q.front[0]] + q.front[1..] == q.front;
    }
  }

  lemma PopBackRefines<T>(q: Deque<T>)
    requires Valid(q)
    ensures PopBack(q).None? <==> Contents(q) == []
    ensures PopBack(q).Some? ==>
              Valid(PopBack(q).value.1.0) && Contents(q) == Contents(PopBack(q).value.1.0) + [PopBack(q).value.0]
  {
    if q.rear != [] {
      CheckRefines(Deque(q.front, q.frontSize, q.rear[1..], q.rearSize - 1));
      assert Reverse(q.rear) == Reverse(q.rear[1..]) + [q.rear[0]];
      hide Reverse, Check;
      Associate(q.front, Reverse(q.rear[1..]), [q.rear[0]]);
    }
  }

  lemma PeekRefines<T>(q: Deque<T>)
    requires Valid(q)
    ensures First(q) == if Contents(q) == [] then None else Some(Contents(q)[0])
    ensures Last(q) == if Contents(q) == [] then None else Some(Contents(q)[|Contents(q)| - 1])
  {
    if q.rear != [] {
      assert Reverse(q.rear) == Reverse(q.rear[1..]) + [q.rear[0]];
    }
  }

  lemma ApplyRefines<T>(q: Deque<T>, op: Op<T>)
    requires Valid(q)
    ensures Valid(Apply(q, op).1.0) && Apply(q, op).0 == ApplySeq(Contents(q), op).0
    ensures Contents(Apply(q, op).1.0) == ApplySeq(Contents(q), op).1
  {
    hide Contents, PopFront, PopBack, PushFront, PushBack, First, Last;
    match op
    case PushF(x) => PushRefines(q, x);
    case PushB(x) => PushRefines(q, x);
    case PopF => PopFrontRefines(q);
    case PopB => PopBackRefines(q);
    case PeekF => PeekRefines(q);
    case PeekB => PeekRefines(q);
  }

  /** Answers of a whole run, where it ends, and the cells gone through. */
  function ApplyAll<T>(q: Deque<T>, ops: seq<Op<T>>): (seq<Option<T>>, (Deque<T>, nat))
    decreases |ops|
  {
    if ops == [] then ([], (q, 0)) else
    var (answer, (q1, cells1)) := Apply(q, ops[0]);
    var (answers, (q2, cells2)) := ApplyAll(q1, ops[1..]);
    ([answer] + answers, (q2, cells1 + cells2))
  }

  function ApplyAllSeq<T>(s: seq<T>, ops: seq<Op<T>>): (seq<Option<T>>, seq<T>)
    decreases |ops|
  {
    if ops == [] then ([], s) else
    var (answer, s1) := ApplySeq(s, ops[0]);
    var (answers, s2) := ApplyAllSeq(s1, ops[1..]);
    ([answer] + answers, s2)
  }

  /** Through any run the deque answers as the sequence does. */
  lemma {:induction false} RunRefines<T>(q: Deque<T>, ops: seq<Op<T>>)
    requires Valid(q)
    ensures ApplyAll(q, ops).0 == ApplyAllSeq(Contents(q), ops).0
    ensures Valid(ApplyAll(q, ops).1.0) && Contents(ApplyAll(q, ops).1.0) == ApplyAllSeq(Contents(q), ops).1
    decreases |ops|
  {
    if ops != [] {
      ApplyRefines(q, ops[0]);
      RunRefines(Apply(q, ops[0]).1.0, ops[1..]);
    }
  }

  // ----- amortised cost -----

  /** The cells of one operation, by the sizes alone. */
  function OpCells(f: nat, r: nat, push: bool, front: bool): nat
  {
    if push then Halved(if front then f + 1 else f, if front then r else r + 1).2
    else if front then if f > 0 then Halved(f - 1, r).2 else 0
    else if r > 0 then Halved(f, r - 1).2 else 0
  }

  lemma ApplyCells<T>(q: Deque<T>, op: Op<T>)
    requires Valid(q)
    ensures Apply(q, op).1.1 == if op.PeekF? || op.PeekB? then 0
                                else OpCells(q.frontSize, q.rearSize, op.PushF? || op.PushB?, op.PushF? || op.PopF?)
  {
    hide Check, Halved;
    match op
    case PushF(x) => CheckExact(Deque([x] + q.front, q.frontSize + 1, q.rear, q.rearSize));
    case PushB(x) => CheckExact(Deque(q.front, q.frontSize, [x] + q.rear, q.rearSize + 1));
    case PopF =>
      if q.front != [] {
        CheckExact(Deque(q.front[1..], q.frontSize - 1, q.rear, q.rearSize));
      }
    case PopB =>
      if q.rear != [] {
        CheckExact(Deque(q.front, q.frontSize, q.rear[1..], q.rearSize - 1));
      }
    case _ =>
  }

  /** The cells of a run are those of its parts. */
  lemma {:induction false} RunJoin<T>(q: Deque<T>, a: seq<Op<T>>, b: seq<Op<T>>)
    ensures var (answers, (q1, cells)) := ApplyAll(q, a);
            && ApplyAll(q, a + b).0 == answers + ApplyAll(q1, b).0
            && ApplyAll(q, a + b).1.0 == ApplyAll(q1, b).1.0
            && ApplyAll(q, a + b).1.1 == cells + ApplyAll(q1, b).1.1
    decreases |a|
  {
    hide Apply;
    if a == [] {
      assert a + b == b;
    } else {
      assert (a + b)[1..] == a[1..] + b;
      RunJoin(Apply(q, a[0]).1.0, a[1..], b);
    }
  }

  lemma RunOne<T>(q: Deque<T>, op: Op<T>)
    ensures ApplyAll(q, [op]).1 == Apply(q, op).1
  {
    assert [op][1..] == [];
  }

  function Potential<T>(q: Deque<T>): nat
  {
    if q.frontSize >= q.rearSize then 3 * (q.frontSize - q.rearSize) else 3 * (q.rearSize - q.frontSize)
  }

  /** A move is paid for by the imbalance that it removes. */
  lemma CheckPaid<T>(q: Deque<T>)
    requires Sized(q)
    ensures Check(q).1 + Potential(Check(q).0) <= Potential(q) + 3
  {
    CheckExact(q);
    hide Check;
  }

  lemma StepPaid<T>(q: Deque<T>, op: Op<T>)
    requires Valid(q)
    ensures Apply(q, op).1.1 + Potential(Apply(q, op).1.0) <= Potential(q) + 6
  {
    hide Check, Reverse;
    match op
    case PushF(x) => CheckPaid(Deque([x] + q.front, q.frontSize + 1, q.rear, q.rearSize));
    case PushB(x) => CheckPaid(Deque(q.front, q.frontSize, [x] + q.rear, q.rearSize + 1));
    case PopF =>
      if q.front != [] {
        CheckPaid(Deque(q.front[1..], q.frontSize - 1, q.rear, q.rearSize));
      }
    case PopB =>
      if q.rear != [] {
        CheckPaid(Deque(q.front, q.frontSize, q.rear[1..], q.rearSize - 1));
      }
    case _ =>
  }

  lemma {:induction false} RunPaid<T>(q: Deque<T>, ops: seq<Op<T>>)
    requires Valid(q)
    ensures ApplyAll(q, ops).1.1 + Potential(ApplyAll(q, ops).1.0) <= Potential(q) + 6 * |ops|
    decreases |ops|
  {
    if ops != [] {
      StepPaid(q, ops[0]);
      ApplyRefines(q, ops[0]);
      RunPaid(Apply(q, ops[0]).1.0, ops[1..]);
    }
  }

  /** m operations from the empty deque go through at most 6 * m list cells in all. */
  lemma AmortisedConstant<T>(ops: seq<Op<T>>)
    ensures ApplyAll(Empty<T>(), ops).1.1 <= 6 * |ops|
  {
    RunPaid(Empty<T>(), ops);
  }
}
