/**
  The trampolines of src/stacktrek/stacktrek.h: stacks are blocks of words, a handler's header
  lies at the bottom of the block that _HANDLE allocated, and control moves by exchanging the
  stack pointer with the word in the header's exchanger. Headers are named by their block.
 */
module Trampolines {
  import opened Options
  import opened Continuations

  /** A stack pointer: the words of the block below it are in use. */
  datatype Sp = Sp(block: nat, height: nat)

  /** What a program holds for a handler: the header of a general handler, or that of an abort
      handler, whose exchanger is set once to the stack pointer at the installation. */
  datatype Stub = General(header: nat) | InFrame(sp: Sp)

  /** What a handler gets for a resumption: the lower half of the header, whose rsp_sp is the
      exchanger itself, or a resumption_t of its own. */
  datatype Res = Single(header: nat) | Multi(sp: Sp, header: nat)

  const MAIN_BLOCK := MAIN_STACK

  /** Blocks 1 to 64 are those of the pool; others come from aligned_alloc. */
  const POOL := 64

  /** The words that ENTER pushes: the address of the exchanger, twice. */
  const LINK_WORDS := 2

  /** Live blocks have been handed out and not freed. Heap blocks are all that aligned_alloc has
      ever returned: free_stack does nothing for them, so that they stay allocated for good. */
  datatype Machine = Machine(
    mem: map<nat, seq<nat>>, exchanger: map<nat, Sp>, live: set<nat>, heap: set<nat>, sp: Sp, stubs: map<nat, Stub>,
        res: map<nat, Res>)

  const BOOT := Machine(map[MAIN_BLOCK := []], map[], {MAIN_BLOCK}, {}, Sp(MAIN_BLOCK, 0), map[], map[])

  /** The heap after get_stack has returned b. */
  function HeapWith(heap: set<nat>, b: nat): set<nat>
  {
    if b > POOL then heap + {b} else heap
  }

  /** The words in use in the current stack. */
  function Words(m: Machine): Option<seq<nat>>
  {
    if m.sp.block in m.mem && m.sp.height <= |m.mem[m.sp.block]| then Some(m.mem[m.sp.block][..m.sp.height]) else None
  }

  /** The current stack now holds ws. */
  function SetWords(m: Machine, ws: seq<nat>): Machine
  {
    m.(mem := m.mem[m.sp.block := ws], sp := Sp(m.sp.block, |ws|))
  }

  function DoPush(m: Machine, v: nat): Option<Machine>
  {
    match Words(m)
    case None => None
    case Some(ws) => Some(SetWords(m, ws + [v]))
  }

  function DoPop(m: Machine): Option<Machine>
  {
    if m.sp.height == 0 then None else Some(m.(sp := Sp(m.sp.block, m.sp.height - 1)))
  }

  function DoPoke(m: Machine, d: nat, v: nat): Option<Machine>
  {
    match Words(m)
    case None => None
    case Some(ws) => if d < |ws| then Some(SetWords(m, ws[|ws| - 1 - d := v])) else None
  }

  /** _HANDLE for a general handler, then ENTER. */
  function DoEnter(m: Machine, h: nat, b: nat): Option<Machine>
  {
    if b in m.live then None
    else Some(m.(mem := m.mem[b := [b, b]], exchanger := m.exchanger[b := m.sp], live := m.live + {b},
                 heap := HeapWith(m.heap, b),
                 sp := Sp(b, LINK_WORDS), stubs := m.stubs[h := General(b)]))
  }

  /** The rest of ENTER, when the body has returned. The exchanger is read after its stack was
      freed. */
  function DoReturn(m: Machine): Option<Machine>
  {
    match Words(m)
    case None => None
    case Some(ws) =>
      if |ws| == LINK_WORDS
          && ws[0] in m.exchanger then Some(m.(live := m.live - {m.sp.block}, sp := m.exchanger[ws[0]])) else None
  }

  /** _HANDLE for an abort handler. */
  function DoInstall(m: Machine, h: nat): Option<Machine>
  {
    Some(m.(stubs := m.stubs[h := InFrame(m.sp)]))
  }

  /** RAISE and RAISE_M. */
  function DoRaise(m: Machine, h: nat, k: nat, single: bool): Option<Machine>
  {
    if h in m.stubs && m.stubs[h].General? && m.stubs[h].header in m.exchanger then
      var x := m.stubs[h].header;
      Some(m.(exchanger := m.exchanger[x := m.sp], sp := m.exchanger[x],
              res := m.res[k := if single then Single(x) else Multi(m.sp, x)]))
    else None
  }

  /** free_stack_on_abort. */
  function FreeOnAbort(live: set<nat>, from: Sp, to: Sp): set<nat>
  {
    if from.block == MAIN_BLOCK || from.block == to.block then live else live - {from.block}
  }

  /** Where a stub's exchanger points. */
  function Target(m: Machine, h: nat): Option<Sp>
  {
    if h !in m.stubs then None else
    match m.stubs[h]
    case InFrame(sp) => Some(sp)
    case General(x) => if x in m.exchanger then Some(m.exchanger[x]) else None
  }

  /** RAISE_ABORT. */
  function DoAbort(m: Machine, h: nat): Option<Machine>
  {
    match Target(m, h)
    case None => None
    case Some(to) => Some(m.(live := FreeOnAbort(m.live, m.sp, to), sp := to))
  }

  /** rsp_sp of a resumption. */
  function SavedSp(m: Machine, k: nat): Option<Sp>
  {
    if k !in m.res then None else
    match m.res[k]
    case Multi(sp, _) => Some(sp)
    case Single(x) => if x in m.exchanger then Some(m.exchanger[x]) else None
  }

  /** THROW: dup_stack copies what is in use of the one block under the saved stack pointer. */
  function DoThrow(m: Machine, k: nat, b: nat): Option<Machine>
  {
    match SavedSp(m, k)
    case None => None
    case Some(sp) =>
      if b in m.live || sp.block !in m.mem || |m.mem[sp.block]| < sp.height then None
      else Some(m.(mem := m.mem[b := m.mem[sp.block][..sp.height]], exchanger := m.exchanger[m.res[k].header := m.sp],
                   live := m.live + {b}, heap := HeapWith(m.heap, b), sp := Sp(b, sp.height)))
  }

  /** FINAL_THROW. */
  function DoFinalThrow(m: Machine, k: nat): Option<Machine>
  {
    match SavedSp(m, k)
    case None => None
    case Some(sp) => Some(m.(exchanger := m.exchanger[m.res[k].header := m.sp], sp := sp))
  }

  function Do(m: Machine, a: Action): Option<Machine>
  {
    match a
    case Push(v) => DoPush(m, v)
    case Pop => DoPop(m)
    case Poke(d, v) => DoPoke(m, d, v)
    case Enter(h, b) => DoEnter(m, h, b)
    case Return => DoReturn(m)
    case Install(h) => DoInstall(m, h)
    case Raise(h, _, k, single) => DoRaise(m, h, k, single)
    case Abort(h, _) => DoAbort(m, h)
    case Throw(k, b) => DoThrow(m, k, b)
    case FinalThrow(k) => DoFinalThrow(m, k)
    case Forget(_) => Some(m)
  }

  /** The lowest free block of the pool from i on, or 65. */
  function LowestFree(live: set<nat>, i: nat): (k: nat)
    requires i <= POOL + 1
    ensures i <= k <= POOL + 1 && (k <= POOL ==> k !in live) && forall j :: i <= j < k ==> j in live
    decreases POOL + 1 - i
  {
    if i == POOL + 1 || i !in live then i else LowestFree(live, i + 1)
  }

  lemma LowestAt(live: set<nat>, k: nat)
    requires 1 <= k <= POOL && k !in live && forall j :: 1 <= j < k ==> j in live
    ensures LowestFree(live, 1) == k
  {
    assert LowestFree(live, 1) >= k;
  }

  /** get_stack returns b: the lowest free block of the pool, or, when there is none, memory that
      was never handed out before. */
  predicate Granted(m: Machine, b: nat)
  {
    if LowestFree(m.live, 1) <= POOL then b == LowestFree(m.live, 1) else b > POOL && b !in m.heap && b !in m.live
  }

  predicate FromPool(m: Machine, a: Action)
  {
    match a
    case Enter(_, b) => Granted(m, b)
    case Throw(_, b) => Granted(m, b)
    case _ => true
  }

  predicate AllFromPool(m: Machine, acts: seq<Action>)
    decreases |acts|
  {
    acts == [] || (FromPool(m, acts[0]) && (Do(m, acts[0]).Some? ==> AllFromPool(Do(m, acts[0]).value, acts[1..])))
  }

  function DoAll(m: Machine, acts: seq<Action>): Option<Machine>
    decreases |acts|
  {
    if acts == [] then Some(m) else
    match Do(m, acts[0])
    case None => None
    case Some(m') => DoAll(m', acts[1..])
  }
}
