/**
  What effect handlers mean: the running program is a pile of segments, one for each general
  handler in force, and a resumption is a value that holds captured segments. Nothing is
  shared and nothing is overwritten. The trampolines of src/stacktrek/stacktrek.h are measured
  against this machine.
 */
module Continuations {
  import opened Options

  /** The segment below every handler. */
  const MAIN := 0

  /** An abort handler in a frame: the height to cut back to, the stack it was installed in, and
      whether the frame is a copy made since. */
  datatype Mark = Mark(height: nat, at: nat, copied: bool)

  /** The frames run under handler h, lowest first, in stack at. Marks are the abort handlers in
      these frames; copied frames bring theirs along. The handler's header is in the segment's own
      stack, or, for a copy, in that of the original. */
  datatype Seg = Seg(h: nat, own: bool, at: nat, frames: seq<nat>, marks: map<nat, Mark>)

  datatype Held = Held(segs: seq<Seg>, single: bool)

  /** The pile from the top down; the resumptions that may still be used; all handler names
      given out; the general handlers whose header is still allocated. */
  datatype Pile = Pile(chain: seq<Seg>, ks: map<nat, Held>, names: set<nat>, alive: set<nat>)

  /** Push, Pop and Poke stand for what compiled code does to its own frames. Enter and Throw
      also name the block that get_stack returns; Raise and Abort say how many segments lie
      above that of the handler. Forget is the program's: it has no use for a resumption any more. */
  datatype Action =
    | Push(v: nat)
    | Pop
    | Poke(depth: nat, v: nat)
    | Enter(h: nat, b: nat)
    | Return
    | Install(h: nat)
    | Raise(h: nat, i: nat, k: nat, single: bool)
    | Abort(h: nat, i: nat)
    | Throw(k: nat, b: nat)
    | FinalThrow(k: nat)
    | Forget(k: nat)

  const MAIN_STACK := 0

  const START := Pile([Seg(MAIN, false, MAIN_STACK, [], map[])], map[], {MAIN}, {})

  /** Handler h connects segments that are on the pile, or waits for its one resumption: its
      exchanger holds a stack pointer that is still needed. */
  ghost predicate InUse(p: Pile, h: nat)
  {
    || (exists i :: 0 <= i < |p.chain| - 1 && p.chain[i].h == h)
    || (exists k, i :: k in p.ks && 0 <= i < |p.ks[k].segs| && p.ks[k].segs[i].h == h
                       && (i + 1 < |p.ks[k].segs| || p.ks[k].single))
  }

  function Last(segs: seq<Seg>): Seg
    requires segs != []
  {
    segs[|segs| - 1]
  }

  /** Resumption k can be spliced in: its handler is allocated and nothing else depends on it. */
  ghost predicate Spliceable(p: Pile, k: nat)
  {
    k in p.ks && p.ks[k].segs != []
        && (p.ks[k].single || (Last(p.ks[k].segs).h in p.alive && !InUse(p, Last(p.ks[k].segs).h)))
  }

  /** What the language and its types make sure of before the action. */
  ghost predicate Able(p: Pile, a: Action)
  {
    p.chain != [] &&
    match a
    case Push(_) => true
    case Pop => p.chain[0].frames != []
    case Poke(d, _) => d < |p.chain[0].frames|
    case Enter(h, _) => h !in p.names
    case Return => |p.chain| > 1 && p.chain[0].frames == []
    case Install(h) => h !in p.names
    case Raise(h, i, k, _) => i + 1 < |p.chain| && p.chain[i].h == h && k !in p.ks
    case Abort(h, i) =>
      i < |p.chain| &&
      if Holds(p.chain[i], h) then AtHome(p.chain[i], h) else i + 1 < |p.chain| && p.chain[i].h == h
    case Throw(k, _) => Spliceable(p, k) && !p.ks[k].single && |p.ks[k].segs| == 1
    case FinalThrow(k) => Spliceable(p, k)
    case Forget(k) => k in p.ks
  }

  function Pushed(s: Seg, v: nat): Seg
  {
    s.(frames := s.frames + [v])
  }

  function Cut(s: Seg, n: nat): Seg
    requires n <= |s.frames|
  {
    s.(frames := s.frames[..n])
  }

  function Poked(s: Seg, depth: nat, v: nat): Seg
    requires depth < |s.frames|
  {
    s.(frames := s.frames[|s.frames| - 1 - depth := v])
  }

  function Marked(s: Seg, h: nat): Seg
  {
    s.(marks := s.marks[h := Mark(|s.frames|, s.at, false)])
  }

  /** The copy in stack b. */
  function Copy(s: Seg, b: nat): Seg
  {
    s.(own := false, at := b, marks := map h | h in s.marks :: s.marks[h].(copied := true))
  }

  function SetTop(p: Pile, s: Seg): Pile
    requires p.chain != []
  {
    p.(chain := p.chain[0 := s])
  }

  function Entered(p: Pile, h: nat, b: nat): Pile
  {
    p.(chain := [Seg(h, true, b, [], map[])] + p.chain, names := p.names + {h}, alive := p.alive + {h})
  }

  function Installed(p: Pile, h: nat): Pile
    requires p.chain != []
  {
    SetTop(p, Marked(p.chain[0], h)).(names := p.names + {h})
  }

  /** The header goes with the stack it lies in. */
  function Freed(alive: set<nat>, s: Seg): set<nat>
  {
    if s.own then alive - {s.h} else alive
  }

  /** The n top segments are gone. */
  function Left(p: Pile, n: nat): Pile
    requires 0 < n < |p.chain|
  {
    p.(chain := p.chain[n..], alive := Freed(p.alive, p.chain[0]))
  }

  function Raised(p: Pile, i: nat, k: nat, single: bool): Pile
    requires i < |p.chain|
  {
    p.(chain := p.chain[i + 1..], ks := p.ks[k := Held(p.chain[..i + 1], single)])
  }

  function Thrown(p: Pile, k: nat, b: nat): Pile
    requires k in p.ks && p.ks[k].segs != []
  {
    p.(chain := [Copy(p.ks[k].segs[0], b)] + p.chain)
  }

  function Resumed(p: Pile, k: nat): Pile
    requires k in p.ks
  {
    p.(chain := p.ks[k].segs + p.chain, ks := p.ks - {k})
  }

  /** The frame of abort handler h is in segment s. */
  predicate Holds(s: Seg, h: nat)
  {
    h in s.marks && s.marks[h].height <= |s.frames|
  }

  /** It lies in the stack that the handler was installed in. */
  predicate AtHome(s: Seg, h: nat)
  {
    h in s.marks && s.marks[h].at == s.at
  }

  function Aborted(p: Pile, h: nat, i: nat): Pile
    requires i < |p.chain| && (Holds(p.chain[i], h) || i + 1 < |p.chain|)
  {
    if !Holds(p.chain[i], h) then Left(p, i + 1)
    else SetTop(if i == 0 then p else Left(p, i), Cut(p.chain[i], p.chain[i].marks[h].height))
  }

  function Forgotten(p: Pile, k: nat): Pile
  {
    p.(ks := p.ks - {k})
  }

  ghost function Act(p: Pile, a: Action): Pile
    requires Able(p, a)
  {
    match a
    case Push(v) => SetTop(p, Pushed(p.chain[0], v))
    case Pop => SetTop(p, Cut(p.chain[0], |p.chain[0].frames| - 1))
    case Poke(d, v) => SetTop(p, Poked(p.chain[0], d, v))
    case Enter(h, b) => Entered(p, h, b)
    case Return => Left(p, 1)
    case Install(h) => Installed(p, h)
    case Raise(_, i, k, single) => Raised(p, i, k, single)
    case Abort(h, i) => Aborted(p, h, i)
    case Throw(k, b) => Thrown(p, k, b)
    case FinalThrow(k) => Resumed(p, k)
    case Forget(k) => Forgotten(p, k)
  }

  ghost predicate AbleAll(p: Pile, acts: seq<Action>)
    decreases |acts|
  {
    acts == [] || (Able(p, acts[0]) && AbleAll(Act(p, acts[0]), acts[1..]))
  }

  ghost function ActAll(p: Pile, acts: seq<Action>): Pile
    requires AbleAll(p, acts)
    decreases |acts|
  {
    if acts == [] then p else ActAll(Act(p, acts[0]), acts[1..])
  }
}
