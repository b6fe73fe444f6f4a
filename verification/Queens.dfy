/**
  The n-queens problem by multi-shot search (benchmarks/lexa/nqueens/main.lx): pick is resumed
  once for every value and the handler adds up the results; fail abandons the branch it is in.
  The model runs the program on an abstract machine whose frames a pick captures and each resume
  copies, and proves that it counts the solutions.
 */
module Queens {
  // ----- the program, running -----

  /** What waits for a result. */
  datatype Frame =
    | Handler                                                // the end of the handled body
    | Body                                                   // the call of place in run
    | WaitRest(size: nat, column: nat)                       // place, for the shorter list
    | WaitPick(size: nat, column: nat, rest: seq<int>)       // place, for the value picked
    | LastAdd(a: int)                                        // loop, after its last resume
    | NextAdd(i: nat, a: int, size: nat, k: seq<Frame>)      // loop, after another resume

  datatype Focus =
    | Place(size: nat, column: nat)
    | Board(xs: seq<int>)
    | Picked(v: int)
    | Loop(i: nat, a: int, size: nat, k: seq<Frame>)
    | Sum(v: int)
    | Stuck

  datatype State = State(focus: Focus, frames: seq<Frame>)

  function Safe(queen: int, diag: int, xs: seq<int>): bool
    decreases |xs|
  {
    xs == [] || (queen != xs[0] && queen != xs[0] + diag && queen != xs[0] - diag && Safe(queen, diag + 1, xs[1..]))
  }

  /** The frames up to the handler, which go with a resumption, and those below. */
  function Above(frames: seq<Frame>): seq<Frame>
  {
    if frames == [] then [] else if frames[0] == Handler then [Handler] else [frames[0]] + Above(frames[1..])
  }

  function Below(frames: seq<Frame>): seq<Frame>
  {
    if frames == [] then [] else if frames[0] == Handler then frames[1..] else Below(frames[1..])
  }

  function Step(s: State): State
  {
    match s.focus
    case Place(size, column) =>
      if column == 0 then State(Board([]), s.frames)
          else State(Place(size, column - 1), [WaitRest(size, column)] + s.frames)
    case Loop(i, a, size, k) =>
      State(Picked(i), k + [if i == size then LastAdd(a) else NextAdd(i, a, size, k)] + s.frames)
    case Board(xs) => if s.frames == [] then s else StepBoard(xs, s.frames[0], s.frames[1..])
    case Picked(v) => if s.frames == [] then s else StepPicked(v, s.frames[0], s.frames[1..])
    case Sum(v) => if s.frames == [] then s else StepSum(v, s.frames[0], s.frames[1..])
    case Stuck => s
  }

  /** place has the columns before; it raises pick, or the handled body ends. */
  function StepBoard(xs: seq<int>, f: Frame, rest: seq<Frame>): State
  {
    match f
    case WaitRest(size, column) => State(Loop(1, 0, size, [WaitPick(size, column, xs)] + Above(rest)), Below(rest))
    case Body => State(Sum(1), rest)
    case _ => State(Stuck, rest)
  }

  /** place has its value; an unsafe one raises fail, which drops everything up to the handler. */
  function StepPicked(v: int, f: Frame, rest: seq<Frame>): State
  {
    match f
    case WaitPick(size, column, xs) => if Safe(v, 1, xs) then State(Board([v] + xs), rest)
        else State(Sum(0), Below(rest))
    case _ => State(Stuck, rest)
  }

  function StepSum(v: int, f: Frame, rest: seq<Frame>): State
  {
    match f
    case Handler => State(Sum(v), rest)
    case LastAdd(a) => State(Sum(a + v), rest)
    case NextAdd(i, a, size, k) => State(Loop(i + 1, a + v, size, k), rest)
    case _ => State(Stuck, rest)
  }

  function Run(s: State, n: nat): State
    decreases n
  {
    if n == 0 then s else Run(Step(s), n - 1)
  }

  ghost predicate Reaches(s: State, s': State)
  {
    exists n :: Run(s, n) == s'
  }

  /** run(n). */
  function Start(n: nat): State
  {
    State(Place(n, n), [Body, Handler])
  }

  // ----- solutions -----

  predicate Apart(q: int, r: int, distance: int)
  {
    q != r && q != r + distance && q != r - distance
  }

  /** No two queens of the board attack each other. */
  ghost predicate Peaceful(s: seq<int>)
  {
    forall i, j :: 0 <= i < j < |s| ==> Apart(s[i], s[j], j - i)
  }

  ghost predicate InRange(n: nat, s: seq<int>)
  {
    forall i :: 0 <= i < |s| ==> 1 <= s[i] <= n
  }

  /** A complete board that agrees with the columns placed so far. */
  ghost predicate Solution(n: nat, xs: seq<int>, s: seq<int>)
  {
    |xs| <= n == |s| && InRange(n, s) && Peaceful(s) && s[n - |xs|..] == xs
  }

  /** The solutions that extend xs; of those, the ones whose next value is at most v. */
  function Solutions(n: nat, xs: seq<int>): set<seq<int>>
    requires |xs| <= n
    decreases n - |xs|, n + 1
  {
    if |xs| == n then {xs} else SolutionsUpTo(n, xs, n)
  }

  function SolutionsUpTo(n: nat, xs: seq<int>, v: nat): set<seq<int>>
    requires |xs| < n
    decreases n - |xs|, v
  {
    if v == 0 then {}
    else SolutionsUpTo(n, xs, v - 1) + (if Safe(v, 1, xs) then Solutions(n, [v] + xs) else {})
  }

  lemma {:induction false} SafeMeans(q: int, d: int, xs: seq<int>)
    ensures Safe(q, d, xs) <==> forall j :: 0 <= j < |xs| ==> Apart(q, xs[j], d + j)
    decreases |xs|
  {
    if xs != [] {
      SafeMeans(q, d + 1, xs[1..]);
      assert forall j :: 0 <= j < |xs[1..]| ==> xs[1..][j] == xs[j + 1];
      if Safe(q, d, xs) {
        forall j | 0 <= j < |xs|
          ensures Apart(q, xs[j], d + j)
        {
          if j > 0 {
            assert Apart(q, xs[1..][j - 1], d + 1 + (j - 1));
          }
        }
      }
      if forall j :: 0 <= j < |xs| ==> Apart(q, xs[j], d + j) {
        assert Apart(q, xs[0], d + 0);
        forall j | 0 <= j < |xs[1..]|
          ensures Apart(q, xs[1..][j], d + 1 + j)
        {
          assert Apart(q, xs[j + 1], d + (j + 1));
        }
      }
    }
  }

  /** A board extended by one queen. */
  lemma PeacefulCons(v: int, xs: seq<int>)
    ensures Peaceful([v] + xs) <==> Peaceful(xs) && Safe(v, 1, xs)
  {
    SafeMeans(v, 1, xs);
    var s := [v] + xs;
    assert forall i :: 0 < i < |s| ==> s[i] == xs[i - 1];
    if Peaceful(s) {
      forall i, j | 0 <= i < j < |xs|
        ensures Apart(xs[i], xs[j], j - i)
      {
        assert Apart(s[i + 1], s[j + 1], (j + 1) - (i + 1));
      }
      forall j | 0 <= j < |xs|
        ensures Apart(v, xs[j], 1 + j)
      {
        assert Apart(s[0], s[j + 1], (j + 1) - 0);
      }
    }
  }

  lemma PeacefulSuffix(s: seq<int>, i: nat)
    requires i <= |s| && Peaceful(s)
    ensures Peaceful(s[i..])
  {
  }

  /** The solutions are exactly what the puzzle asks for. */
  lemma {:induction false} SolutionsAre(n: nat, xs: seq<int>, s: seq<int>)
    requires |xs| <= n && InRange(n, xs) && Peaceful(xs)
    ensures s in Solutions(n, xs) <==> Solution(n, xs, s)
    decreases n - |xs|, n + 1
  {
    if |xs| == n {
      assert |s| == n ==> s[0..] == s;
    } else {
      SolutionsUpToAre(n, xs, n, s);
      if Solution(n, xs, s) {
        assert 1 <= s[n - |xs| - 1] <= n;
      }
    }
  }

  lemma {:induction false} SolutionsUpToAre(n: nat, xs: seq<int>, v: nat, s: seq<int>)
    requires |xs| < n && InRange(n, xs) && Peaceful(xs) && v <= n
    ensures s in SolutionsUpTo(n, xs, v) <==> Solution(n, xs, s) && s[n - |xs| - 1] <= v
    decreases n - |xs|, v
  {
    if v == 0 {
      assert Solution(n, xs, s) ==> 1 <= s[n - |xs| - 1];
    } else {
      SolutionsUpToAre(n, xs, v - 1, s);
      PeacefulCons(v, xs);
      if Safe(v, 1, xs) {
        SolutionsAre(n, [v] + xs, s);
      }
      if |s| == n {
        var i := n - |xs| - 1;
        assert s[i..] == [s[i]] + s[n - |xs|..];
        if Solution(n, xs, s) && s[i] == v {
          PeacefulSuffix(s, i);
        }
        assert s[i..] == [v] + xs ==> s[n - |xs|..] == xs && s[i] == v;
      }
    }
  }

  // ----- the count -----

  lemma {:induction false} RunOn(s: State, n: nat, k: nat)
    ensures Run(s, n + k) == Run(Run(s, n), k)
    decreases n
  {
    if n > 0 {
      RunOn(Step(s), n - 1, k);
    }
  }

  lemma Reach(s: State, s': State, s'': State)
    requires Reaches(s, s') && Reaches(s', s'')
    ensures Reaches(s, s'')
  {
    var n :| Run(s, n) == s';
    var k :| Run(s', k) == s'';
    RunOn(s, n, k);
  }

  lemma ReachStep(s: State, s': State)
    requires Step(s) == s'
    ensures Reaches(s, s')
  {
    assert Run(s, 1) == Run(s', 0);
  }

  /** The calls of place that wait for column c. */
  function Waiting(n: nat, c: nat): seq<Frame>
    requires c <= n
    decreases n - c
  {
    if c == n then [Body, Handler] else [WaitRest(n, c + 1)] + Waiting(n, c + 1)
  }

  lemma {:induction false} HandlerBelow(n: nat, c: nat, fr: seq<Frame>)
    requires c <= n
    ensures Above(Waiting(n, c) + fr) == Waiting(n, c) && Below(Waiting(n, c) + fr) == fr
    decreases n - c
  {
    var w := Waiting(n, c) + fr;
    if c < n {
      assert w[1..] == Waiting(n, c + 1) + fr;
      HandlerBelow(n, c + 1, fr);
    } else {
      assert w[0] == Body && w[1..] == [Handler] + fr && w[1..][1..] == fr;
      assert Above(w[1..]) == [Handler];
      assert [Body] + [Handler] == [Body, Handler];
    }
  }

  function Resumption(n: nat, xs: seq<int>): seq<Frame>
    requires |xs| < n
  {
    [WaitPick(n, |xs| + 1, xs)] + Waiting(n, |xs| + 1)
  }

  /** With the columns of xs placed, the handled rest of the program comes to the number of
      solutions that extend xs. */
  lemma {:induction false} BoardCounts(n: nat, xs: seq<int>, fr: seq<Frame>)
    requires |xs| <= n && InRange(n, xs) && Peaceful(xs)
    ensures Reaches(State(Board(xs), Waiting(n, |xs|) + fr), State(Sum(|Solutions(n, xs)|), fr))
    decreases n - |xs|, n + 2
  {
    var from := State(Board(xs), Waiting(n, |xs|) + fr);
    if |xs| == n {
      assert from.frames[1..] == [Handler] + fr;
      ReachStep(from, State(Sum(1), [Handler] + fr));
      assert ([Handler] + fr)[1..] == fr;
      ReachStep(State(Sum(1), [Handler] + fr), State(Sum(1), fr));
      Reach(from, State(Sum(1), [Handler] + fr), State(Sum(1), fr));
    } else {
      assert from.frames[0] == WaitRest(n, |xs| + 1) && from.frames[1..] == Waiting(n, |xs| + 1) + fr;
      HandlerBelow(n, |xs| + 1, fr);
      ReachStep(from, Looping(n, xs, 1, fr));
      LoopCounts(n, xs, 1, fr);
      Reach(from, Looping(n, xs, 1, fr), State(Sum(|Solutions(n, xs)|), fr));
    }
  }

  /** One resume, with value i: the solutions with i next. */
  lemma {:induction false} ResumeCounts(n: nat, xs: seq<int>, i: nat, f: Frame, fr: seq<Frame>)
    requires |xs| < n && InRange(n, xs) && Peaceful(xs) && 1 <= i <= n
    ensures Reaches(State(Picked(i), Resumption(n, xs) + [f] + fr),
                    State(Sum(if Safe(i, 1, xs) then |Solutions(n, [i] + xs)| else 0), [f] + fr))
    decreases n - |xs|, 0
  {
    var from := State(Picked(i), Resumption(n, xs) + [f] + fr);
    assert from.frames[0] == WaitPick(n, |xs| + 1, xs) && from.frames[1..] == Waiting(n, |xs| + 1) + ([f] + fr);
    if Safe(i, 1, xs) {
      var board := State(Board([i] + xs), Waiting(n, |xs| + 1) + ([f] + fr));
      ReachStep(from, board);
      PeacefulCons(i, xs);
      BoardCounts(n, [i] + xs, [f] + fr);
      Reach(from, board, State(Sum(|Solutions(n, [i] + xs)|), [f] + fr));
    } else {
      HandlerBelow(n, |xs| + 1, [f] + fr);
      ReachStep(from, State(Sum(0), [f] + fr));
    }
  }

  /** The values of pick split the solutions. */
  lemma NextValue(n: nat, xs: seq<int>, i: nat)
    requires |xs| < n && InRange(n, xs) && Peaceful(xs) && 1 <= i <= n
    ensures |SolutionsUpTo(n, xs, i)| ==
            |SolutionsUpTo(n, xs, i - 1)| + (if Safe(i, 1, xs) then |Solutions(n, [i] + xs)| else 0)
  {
    if Safe(i, 1, xs) {
      PeacefulCons(i, xs);
      forall s | s in SolutionsUpTo(n, xs, i - 1)
        ensures s !in Solutions(n, [i] + xs)
      {
        SolutionsUpToAre(n, xs, i - 1, s);
        SolutionsAre(n, [i] + xs, s);
        assert s[n - |xs| - 1..][0] != i;
      }
      assert SolutionsUpTo(n, xs, i - 1) !! Solutions(n, [i] + xs);
    }
  }

  /** loop with the solutions for the values before i added up. */
  function Looping(n: nat, xs: seq<int>, i: nat, fr: seq<Frame>): State
    requires |xs| < n && 1 <= i <= n + 1
  {
    if i == n + 1 then State(Sum(|SolutionsUpTo(n, xs, n)|), fr)
    else State(Loop(i, |SolutionsUpTo(n, xs, i - 1)|, n, Resumption(n, xs)), fr)
  }

  lemma FinishResume(n: nat, xs: seq<int>, i: nat, a: int, v: int, fr: seq<Frame>)
    requires |xs| < n && InRange(n, xs) && Peaceful(xs) && 1 <= i <= n
    requires a == |SolutionsUpTo(n, xs, i - 1)| && v == if Safe(i, 1, xs) then |Solutions(n, [i] + xs)| else 0
    ensures Step(State(Sum(v), [if i == n then LastAdd(a) else NextAdd(i, a, n, Resumption(n, xs))] + fr)) ==
            Looping(n, xs, i + 1, fr)
  {
    NextValue(n, xs, i);
    hide Solutions, SolutionsUpTo, Safe, Peaceful, InRange;
  }

  lemma {:induction false} LoopOnce(n: nat, xs: seq<int>, i: nat, fr: seq<Frame>)
    requires |xs| < n && InRange(n, xs) && Peaceful(xs) && 1 <= i <= n
    ensures Reaches(Looping(n, xs, i, fr), Looping(n, xs, i + 1, fr))
    decreases n - |xs|, 1
  {
    hide Reaches, Solutions, SolutionsUpTo, Safe, Peaceful, InRange, Resumption;
    var k, a := Resumption(n, xs), |SolutionsUpTo(n, xs, i - 1)|;
    var f := if i == n then LastAdd(a) else NextAdd(i, a, n, k);
    var v := if Safe(i, 1, xs) then |Solutions(n, [i] + xs)| else 0;
    var from, resumed, summed := Looping(n, xs, i, fr), State(Picked(i), k + [f] + fr), State(Sum(v), [f] + fr);
    ReachStep(from, resumed);
    ResumeCounts(n, xs, i, f, fr);
    Reach(from, resumed, summed);
    FinishResume(n, xs, i, a, v, fr);
    hide Step;
    ReachStep(summed, Looping(n, xs, i + 1, fr));
    Reach(from, summed, Looping(n, xs, i + 1, fr));
  }

  lemma {:induction false} LoopCounts(n: nat, xs: seq<int>, i: nat, fr: seq<Frame>)
    requires |xs| < n && InRange(n, xs) && Peaceful(xs) && 1 <= i <= n
    ensures Reaches(Looping(n, xs, i, fr), State(Sum(|Solutions(n, xs)|), fr))
    decreases n - |xs|, n - i + 2
  {
    assert Solutions(n, xs) == SolutionsUpTo(n, xs, n);
    hide Reaches, Solutions, SolutionsUpTo, Safe, Peaceful, InRange, Resumption;
    LoopOnce(n, xs, i, fr);
    if i < n {
      LoopCounts(n, xs, i + 1, fr);
      Reach(Looping(n, xs, i, fr), Looping(n, xs, i + 1, fr), State(Sum(|Solutions(n, xs)|), fr));
    }
  }

  lemma {:induction false} PlaceDown(n: nat, c: nat)
    requires c <= n
    ensures Reaches(State(Place(n, c), Waiting(n, c)), State(Board([]), Waiting(n, 0)))
    decreases c
  {
    var from := State(Place(n, c), Waiting(n, c));
    if c == 0 {
      ReachStep(from, State(Board([]), Waiting(n, 0)));
    } else {
      ReachStep(from, State(Place(n, c - 1), Waiting(n, c - 1)));
      PlaceDown(n, c - 1);
      Reach(from, State(Place(n, c - 1), Waiting(n, c - 1)), State(Board([]), Waiting(n, 0)));
    }
  }

  /** run(n) ends with the number of ways to place n queens. */
  lemma RunCounts(n: nat)
    ensures Reaches(Start(n), State(Sum(|Solutions(n, [])|), []))
    ensures forall s :: s in Solutions(n, []) <==> |s| == n && InRange(n, s) && Peaceful(s)
  {
    PlaceDown(n, n);
    BoardCounts(n, [], []);
    assert Waiting(n, 0) + [] == Waiting(n, 0);
    Reach(Start(n), State(Board([]), Waiting(n, 0)), State(Sum(|Solutions(n, [])|), []));
    forall s
      ensures s in Solutions(n, []) <==> |s| == n && InRange(n, s) && Peaceful(s)
    {
      SolutionsAre(n, [], s);
      assert |s| == n ==> s[n..] == [];
    }
  }
}
