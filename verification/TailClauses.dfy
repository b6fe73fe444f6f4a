/**
  Which call and install sites may stand inside tail clauses (src/stackwalk/stackwalk.c): the loop on
  whole stacks, with the stacks on which it fails.
 */
module TailClauses {
  import opened Options
  import opened ClueTable
  import opened Evidence
  import opened Stackwalk

  // ----- the loop -----

  /** At most n rounds of the loop. */
  function Rounds(g: Image, mem: seq<int>, pos: Pos, n: nat): Visit
    decreases n
  {
    if n == 0 then Next(mem, pos) else
    match VisitSite(g, mem, pos)
    case Next(mem', pos') => Rounds(g, mem', pos', n - 1)
    case v => v
  }

  /** The walker returns header h. */
  ghost predicate Returns(g: Image, mem: seq<int>, pos: Pos, h: int)
  {
    exists n: nat :: Rounds(g, mem, pos, n) == Found(h)
  }

  lemma {:induction false} VisitsReturn(g: Image, ats: seq<nat>, acts: seq<Act>, mem: seq<int>, pos: Pos, j: nat,
                                        m: nat)
    requires |acts| == |ats| && Visits(g, ats, acts, mem, pos, j, m) && m < |acts|
    ensures Returns(g, mem, pos, Header(g.offs, ats, acts, m))
    decreases |acts| - j
  {
    hide VisitSite;
    match VisitSite(g, mem, pos)
    case Found(h) => assert Rounds(g, mem, pos, 1) == Found(h);
    case Next(mem', pos') =>
      VisitsReturn(g, ats, acts, mem', pos', j + 1, m);
      var n: nat :| Rounds(g, mem', pos', n) == Found(Header(g.offs, ats, acts, m));
      assert Rounds(g, mem, pos, n + 1) == Found(Header(g.offs, ats, acts, m));
    case Lost => assert false;
  }

  /** The loop ends in one way. */
  lemma {:induction false} EndsOnce(g: Image, mem: seq<int>, pos: Pos, n: nat, n': nat)
    requires !Rounds(g, mem, pos, n).Next? && !Rounds(g, mem, pos, n').Next?
    ensures Rounds(g, mem, pos, n) == Rounds(g, mem, pos, n')
    decreases n
  {
    hide VisitSite;
    match VisitSite(g, mem, pos)
    case Next(mem', pos') => EndsOnce(g, mem', pos', n - 1, n' - 1);
    case _ =>
  }

  lemma OneMoreRound(g: Image, mem: seq<int>, pos: Pos, n: nat)
    requires VisitSite(g, mem, pos).Next?
    ensures Rounds(g, mem, pos, n + 1) == Rounds(g, VisitSite(g, mem, pos).mem, VisitSite(g, mem, pos).pos, n)
  {
    hide VisitSite;
  }

  /** A stack on which row is the only one inside tail clauses, and no exchanger on the way to the
      right handler is stale. */
  ghost predicate Posed(row: Row, g: Image, mem: seq<int>, ats: seq<nat>, acts: seq<Act>, c: Clue)
  {
    && |acts| == |ats| > 0 && Laid(g, mem, ats, acts) && EvidencePassed(acts) && OnlyTailRow(acts, row)
    && Slot(c) && Callee(acts, 0, c).Some? && NoneStale(g, mem, ats, acts, 0, Callee(acts, 0, c).value)
  }

  /** On every such stack the walker returns the header of the right handler. */
  ghost predicate RightWith(row: Row)
  {
    forall g: Image, mem: seq<int>, ats: seq<nat>, acts: seq<Act>, c: Clue ::
      Posed(row, g, mem, ats, acts, c) ==> RightOn(g, mem, ats, acts, c)
  }

  ghost predicate RightOn(g: Image, mem: seq<int>, ats: seq<nat>, acts: seq<Act>, c: Clue)
    requires |acts| == |ats| > 0 && Callee(acts, 0, c).Some?
  {
    Callee(acts, 0, c).value < |acts|
        && Returns(g, mem, Pos(ats[0], c, 0, false), Header(g.offs, ats, acts, Callee(acts, 0, c).value))
  }

  lemma StraightIsRight(g: Image, mem: seq<int>, ats: seq<nat>, acts: seq<Act>, c: Clue, m: nat)
    requires Laid(g, mem, ats, acts) && |acts| == |ats| > 0 && EvidencePassed(acts) && TailRowsOk(acts)
    requires Slot(c) && Callee(acts, 0, c) == Some(m) && Straight(acts, 0, c, []) && NoneStale(g, mem, ats, acts, 0, m)
    ensures RightOn(g, mem, ats, acts, c)
  {
    hide Laid, EvidencePassed, TailRowsOk, Straight, NoneStale, Callee, Visits;
    StartOnCourse(g, mem, ats, acts, c);
    WalkIsEvidence(acts, c, m);
    WalkGoesOn(acts, 0, c, [], m);
    StraightVisits(g, mem, mem, ats, acts, 0, Pos(ats[0], c, 0, false), [], [], m);
    VisitsReturn(g, ats, acts, mem, Pos(ats[0], c, 0, false), 0, m);
  }

  // ----- a stack that misleads -----

  const FRAME := 32
  const ENTRY := Clue(0, 0, 0)

  function CallRow(addr: int): Row
  {
    Row(addr, FRAME, false, false, true, 0, 0, [])
  }

  function InstallRow(addr: int): Row
  {
    Row(addr, FRAME, true, false, true, 0, 0, [])
  }

  /** A row whose hopper sends slot d to label 0 and every byte that is not that of d nowhere, with
      slot w on another byte. */
  function PointingAt(addr: int, handler: bool, d: Clue, w: Clue): (r: Row)
    requires Slot(d) && Slot(w)
    ensures r.addr == addr && r.frame == FRAME && r.handler == handler && !r.inTail && !r.isConst
    ensures |r.md| == 2 * HOPPER
    ensures Fits(r, d) && Map(r, d) == Clue(d.sig, 0, 0)
    ensures w.sig == d.sig && w != d ==> Fits(r, w) && !IsLabel0(Map(r, w))
  {
    var r0 := Row(addr, FRAME, handler, false, false, if w.idx == d.idx then 1 else 0, 0, []);
    var k := HopperIndex(r0, d);
    var r := r0.(md := seq(2 * HOPPER, i => if i / 2 == k then 0 else 15));
    PointsAt(r, d, w, k);
    r
  }

  lemma PointsAt(r: Row, d: Clue, w: Clue, k: nat)
    requires Slot(d) && Slot(w) && r.caps == (if w.idx == d.idx then 1 else 0) && r.labels == 0 && !r.isConst
    requires k == HopperIndex(r, d)
    requires |r.md| == 2 * HOPPER && forall i :: 0 <= i < 2 * HOPPER ==> r.md[i] == if i / 2 == k then 0 else 15
    ensures Fits(r, d) && Map(r, d) == Clue(d.sig, 0, 0)
    ensures w.sig == d.sig && w != d ==> Fits(r, w) && !IsLabel0(Map(r, w))
  {
    hide HopperIndex, Digits, Map;
    PointsFrom(r, d, w);
    DigitsAt(r, HopperIndex(r, d), k);
    MapDigits(r, d);
    if w.sig == d.sig && w != d {
      DigitsAt(r, HopperIndex(r, w), k);
      MapDigits(r, w);
    }
  }

  lemma PointsFrom(r: Row, d: Clue, w: Clue)
    requires Slot(d) && Slot(w) && r.caps == (if w.idx == d.idx then 1 else 0) && r.labels == 0
    ensures HopperIndex(r, d) < HOPPER && HopperIndex(r, w) < HOPPER
    ensures w.sig == d.sig && w != d ==> HopperIndex(r, w) != HopperIndex(r, d)
  {
    LineBound(1 + r.caps, d.sig);
    LineBound(1 + r.caps, w.sig);
    SmallLines(r, d);
    SmallLines(r, w);
  }

  lemma SmallLines(r: Row, c: Clue)
    requires Slot(c) && r.caps <= 1 && r.labels == 0
    ensures HopperIndex(r, c) < HOPPER
  {
    assert c.sig * (1 + r.caps) <= 30;
  }

  lemma DigitsAt(r: Row, j: nat, k: nat)
    requires j < HOPPER && |r.md| == 2 * HOPPER
    requires forall i :: 0 <= i < 2 * HOPPER ==> r.md[i] == if i / 2 == k then 0 else 15
    ensures Digits(r.md, j) == if j == k then 0 else 255
  {
    assert (2 * j) / 2 == j && (2 * j + 1) / 2 == j;
  }

  lemma MapDigits(r: Row, c: Clue)
    requires !r.isConst
    ensures Map(r, c) == Clue(c.sig, Digits(r.md, HopperIndex(r, c)) / 16, Digits(r.md, HopperIndex(r, c)) % 16)
  {
    hide Digits, HopperIndex;
  }

  lemma StaysPut(addr: int, c: Clue)
    ensures Fits(CallRow(addr), c) && Map(CallRow(addr), c) == c && Fits(InstallRow(addr), c)
    ensures Map(InstallRow(addr), c) == c
  {
  }

  /** What makes the row a trap for slot c. */
  ghost predicate Traps(row: Row, c: Clue, d: Clue)
  {
    && row.inTail && Slot(c) && Fits(row, c) && d == Map(row, c) && Slot(d) && |row.md| % 2 == 0
    && (if row.handler then !IsLabel0(c) else row.frame > 0 && c != d)
  }

  /** Innermost first: a call from code below the tail clause, the site in the clause, the raise, its
      handler, a call that knows only slot d, and the handler of d. */
  function Chain(row: Row, c: Clue, d: Clue): (acts: seq<Act>)
    requires Slot(c) && Slot(d)
    ensures |acts| == 6
  {
    [Act(CallRow(row.addr + 1), map[c := 5], ENTRY),
     Act(row, map[d := 5], ENTRY),
     Act(CallRow(row.addr + 1), map[ENTRY := 3], ENTRY),
     Act(InstallRow(row.addr + 2), map[d := 5], ENTRY),
     Act(PointingAt(row.addr + 3, false, d, c), map[Clue(d.sig, 0, 0) := 5], ENTRY),
     Act(InstallRow(row.addr + 2), map[], ENTRY)]
  }

  lemma ChainCalls(row: Row, c: Clue, d: Clue)
    requires Traps(row, c, d)
    ensures var acts := Chain(row, c, d);
            && Callee(acts, 0, c) == Some(5) && Callee(acts, 1, c) == Some(5) && Callee(acts, 2, ENTRY) == Some(3)
            && Callee(acts, 3, ENTRY) == Some(3) && Callee(acts, 4, d) == Some(5)
                && Callee(acts, 5, Clue(d.sig, 0, 0)) == Some(5)
            && ClauseEnv(acts, map[d := 5], 3)
  {
    hide Map, Fits, CallRow, InstallRow, PointingAt;
    RowKinds(row.addr);
    StaysPut(row.addr + 1, c);
    StaysPut(row.addr + 2, d);
    StaysPut(row.addr + 1, ENTRY);
  }

  lemma RowKinds(a: int)
    ensures !CallRow(a + 1).handler && !CallRow(a + 1).inTail && InstallRow(a + 2).handler && !InstallRow(a + 2).inTail
  {
  }

  lemma ChainEnvs(row: Row, c: Clue, d: Clue, j: nat)
    requires Traps(row, c, d) && j < 5
    ensures EnvRight(Chain(row, c, d), j)
  {
    hide Map, Fits, Callee, ClauseEnv, CallRow, InstallRow, PointingAt;
    RowKinds(row.addr);
    ChainCalls(row, c, d);
    if j == 1 {
      assert Callee(Chain(row, c, d), 2, Chain(row, c, d)[2].raised) == Some(3);
    }
  }

  lemma ChainScope(row: Row, c: Clue, d: Clue, j: nat, e: Clue)
    requires Traps(row, c, d) && j < 6 && e in Chain(row, c, d)[j].env
    ensures var acts := Chain(row, c, d); Slot(e) && j < acts[j].env[e] < 6 && acts[acts[j].env[e]].row.handler
  {
    hide Map, Fits, PointingAt, CallRow, InstallRow;
    RowKinds(row.addr);
  }

  lemma ChainTails(row: Row, c: Clue, d: Clue)
    requires Traps(row, c, d)
    ensures OnlyTailRow(Chain(row, c, d), row) && RaisesOnly(Chain(row, c, d))
  {
    hide Map, Fits, PointingAt, CallRow, InstallRow, Slot;
    RowKinds(row.addr);
  }

  lemma ChainIsPassed(row: Row, c: Clue, d: Clue)
    requires Traps(row, c, d)
    ensures EvidencePassed(Chain(row, c, d)) && Callee(Chain(row, c, d), 0, c) == Some(5)
    ensures OnlyTailRow(Chain(row, c, d), row) && RaisesOnly(Chain(row, c, d))
  {
    hide Map, Fits, Callee, EnvRight, Chain, OnlyTailRow, RaisesOnly, Slot;
    var acts := Chain(row, c, d);
    ChainTails(row, c, d);
    ChainCalls(row, c, d);
    forall j, e | 0 <= j < 6 && e in acts[j].env
      ensures Slot(e) && j < acts[j].env[e] < 6 && acts[acts[j].env[e]].row.handler
    {
      ChainScope(row, c, d, j, e);
    }
    forall j | 0 <= j < 5
      ensures EnvRight(acts, j)
    {
      ChainEnvs(row, c, d, j);
    }
  }

  // ----- the stack of the chain -----

  function Table(row: Row, c: Clue, d: Clue): Image
    requires Slot(c) && Slot(d)
  {
    Image([row, CallRow(row.addr + 1), InstallRow(row.addr + 2), PointingAt(row.addr + 3, false, d, c)], 0, map[])
  }

  lemma Addresses(row: Row, c: Clue, d: Clue)
    requires Slot(c) && Slot(d)
    ensures var rows := Table(row, c, d).rows;
            && FirstRow(rows, row.addr, 0) == Some(0) && FirstRow(rows, row.addr + 1, 0) == Some(1)
            && FirstRow(rows, row.addr + 2, 0) == Some(2) && FirstRow(rows, row.addr + 3, 0) == Some(3)
                && FirstRow(rows, row.addr - 1, 0) == None
  {
    var rows := Table(row, c, d).rows;
    assert FirstRow(rows, row.addr + 3, 3) == Some(3) && FirstRow(rows, row.addr + 3, 2) == Some(3)
        && FirstRow(rows, row.addr + 3, 1) == Some(3);
    assert FirstRow(rows, row.addr + 2, 2) == Some(2) && FirstRow(rows, row.addr + 2, 1) == Some(2);
    assert FirstRow(rows, row.addr - 1, 3) == None && FirstRow(rows, row.addr - 1, 2) == None
        && FirstRow(rows, row.addr - 1, 1) == None;
  }

  /** The address of the return address into the raise. */
  function RaiseAt(row: Row): int
  {
    FRAME + if row.handler then FRAME else row.frame
  }

  /** Header, exchanger and the address of the exchanger of an install site at address 32. */
  const HEADER_AT := 35
  const EXCHANGER_AT := 50
  const SHARED_AT := 51
  const GENERAL := 1

  function Cell(row: Row, q: int, i: int): int
  {
    var a := row.addr;
    if i == 0 then a + 1 else if i == 32 then a
    else if row.handler && i == HEADER_AT then GENERAL
    else if row.handler && i == EXCHANGER_AT then q
    else if row.handler && i == SHARED_AT then EXCHANGER_AT
    else if i == q then a + 1 else if q < i <= q + 3 then 0
    else if i == q + 38 then a + 2 else if i == q + 41 then TAIL
    else if i == q + 70 then a + 3
    else if i == q + 102 then a + 2 else if i == q + 105 then TAIL
    else a - 1
  }

  function Words(row: Row, q: nat): (m: seq<int>)
    ensures |m| == q + 121 && forall i :: 0 <= i < |m| ==> m[i] == Cell(row, q, i)
  {
    seq(q + 121, i => Cell(row, q, i))
  }

  function SiteAddresses(q: nat): (ats: seq<nat>)
    ensures |ats| == 6
  {
    [0, 32, q, q + 38, q + 70, q + 102]
  }

  lemma OnlySpare(row: Row, c: Clue, d: Clue, q: nat, a: int)
    requires Traps(row, c, d)
    ensures IsSpare(SiteAddresses(q), Chain(row, c, d), a) ==> a == q + 5 || a == q + 6
  {
    hide PointingAt;
  }

  /** The words that matter. */
  lemma Cells(row: Row, q: int)
    requires q > 32 && (row.handler ==> q == 64)
    ensures Cell(row, q, 0) == row.addr + 1 && Cell(row, q, 32) == row.addr && Cell(row, q, q) == row.addr + 1
    ensures Cell(row, q, q + 1) == 0 && Cell(row, q, q + 2) == 0 && Cell(row, q, q + 3) == 0
    ensures Cell(row, q, q + 38) == row.addr + 2 && Cell(row, q, q + 41) == TAIL && Cell(row, q, q + 70) == row.addr + 3
    ensures Cell(row, q, q + 102) == row.addr + 2 && Cell(row, q, q + 105) == TAIL
    ensures Cell(row, q, q + 32) == row.addr - 1
    ensures row.handler ==>
              Cell(row, q, HEADER_AT) == GENERAL && Cell(row, q, EXCHANGER_AT) == q
                  && Cell(row, q, SHARED_AT) == EXCHANGER_AT
  {
  }

  lemma CallSite(g: Image, m: seq<int>, ats: seq<nat>, acts: seq<Act>, j: nat, i: nat)
    requires j < |acts| == |ats| && !acts[j].row.handler && ats[j] < |m| && !IsSpare(ats, acts, ats[j])
    requires m[ats[j]] - g.codeStart == acts[j].row.addr && FirstRow(g.rows, acts[j].row.addr, 0) == Some(i)
    requires g.rows[i] == acts[j].row
    ensures SiteLaid(g, m, ats, acts, j)
  {
  }

  lemma InstallSite(g: Image, m: seq<int>, ats: seq<nat>, acts: seq<Act>, j: nat, i: nat, h: int)
    requires j < |acts| == |ats| && ats[j] < |m| && !IsSpare(ats, acts, ats[j])
    requires m[ats[j]] - g.codeStart == acts[j].row.addr && FirstRow(g.rows, acts[j].row.addr, 0) == Some(i)
    requires g.rows[i] == acts[j].row
    requires h == Header(g.offs, ats, acts, j) && 0 <= h && h + EXCHANGER < |m| && !IsSpare(ats, acts, h)
    requires !IsSpare(ats, acts, h + EXCHANGER)
    requires InStack(m[h])
             || (h + EXCHANGER_PTR < |m| && !IsSpare(ats, acts, h + EXCHANGER_PTR)
                 && m[h + EXCHANGER_PTR] == h + EXCHANGER)
    ensures SiteLaid(g, m, ats, acts, j)
  {
  }

  lemma ChainSites(row: Row, c: Clue, d: Clue, j: nat)
    requires Traps(row, c, d) && j < 6
    ensures RaiseAt(row) > 32
    ensures SiteLaid(Table(row, c, d), Words(row, RaiseAt(row)), SiteAddresses(RaiseAt(row)), Chain(row, c, d), j)
  {
    hide SiteLaid, FirstRow, IsSpare, PointingAt, Fits, Map, Cell;
    var q := RaiseAt(row);
    Addresses(row, c, d);
    Cells(row, q);
    forall a: int
      ensures IsSpare(SiteAddresses(q), Chain(row, c, d), a) ==> a == q + 5 || a == q + 6
    {
      OnlySpare(row, c, d, q, a);
    }
    var g, m, ats, acts := Table(row, c, d), Words(row, q), SiteAddresses(q), Chain(row, c, d);
    if j == 1 && row.handler {
      InstallSite(g, m, ats, acts, 1, 0, HEADER_AT);
    } else if j == 3 {
      InstallSite(g, m, ats, acts, 3, 2, q + 41);
    } else if j == 5 {
      InstallSite(g, m, ats, acts, 5, 2, q + 105);
    } else {
      CallSite(g, m, ats, acts, j, if j == 1 then 0 else if j == 4 then 3 else 1);
    }
  }

  lemma ChainLinks(row: Row, c: Clue, d: Clue, j: nat)
    requires Traps(row, c, d) && j < 5
    requires SiteLaid(Table(row, c, d), Words(row, RaiseAt(row)), SiteAddresses(RaiseAt(row)), Chain(row, c, d), j)
    ensures LinkLaid(Table(row, c, d), Words(row, RaiseAt(row)), SiteAddresses(RaiseAt(row)), Chain(row, c, d), j)
  {
    var q := RaiseAt(row);
    forall a: int
      ensures IsSpare(SiteAddresses(q), Chain(row, c, d), a) ==> a == q + 5 || a == q + 6
    {
      OnlySpare(row, c, d, q, a);
    }
    hide FirstRow, IsSpare, PointingAt, Fits, Map, SiteLaid;
  }

  /** What a stack of six return addresses needs to be laid out. */
  lemma SixLaid(g: Image, m: seq<int>, ats: seq<nat>, acts: seq<Act>)
    requires |acts| == |ats| == 6 && SparesApart(ats, acts) && RowsEven(g.rows)
    requires forall j :: 0 <= j < 6 ==> SiteLaid(g, m, ats, acts, j)
    requires forall j :: 0 <= j < 5 ==> LinkLaid(g, m, ats, acts, j)
    ensures Laid(g, m, ats, acts)
  {
    hide SiteLaid, LinkLaid, SparesApart, RowsEven;
  }

  lemma ChainShape(row: Row, c: Clue, d: Clue)
    requires Traps(row, c, d)
    ensures RaiseAt(row) > 32
    ensures SparesApart(SiteAddresses(RaiseAt(row)), Chain(row, c, d)) && RowsEven(Table(row, c, d).rows)
  {
    hide Fits, Map;
  }

  lemma ChainLaid(row: Row, c: Clue, d: Clue)
    requires Traps(row, c, d)
    ensures RaiseAt(row) > 32
    ensures Laid(Table(row, c, d), Words(row, RaiseAt(row)), SiteAddresses(RaiseAt(row)), Chain(row, c, d))
    ensures NoneStale(Table(row, c, d), Words(row, RaiseAt(row)), SiteAddresses(RaiseAt(row)), Chain(row, c, d), 0, 5)
  {
    hide SiteLaid, LinkLaid, SparesApart, RowsEven, Laid, Table, Chain, Words, SiteAddresses, RaiseAt;
    ChainShape(row, c, d);
    var g, q := Table(row, c, d), RaiseAt(row);
    forall j | 0 <= j < 6
      ensures SiteLaid(g, Words(row, q), SiteAddresses(q), Chain(row, c, d), j)
    {
      ChainSites(row, c, d, j);
    }
    forall j | 0 <= j < 5
      ensures LinkLaid(g, Words(row, q), SiteAddresses(q), Chain(row, c, d), j)
    {
      ChainLinks(row, c, d, j);
    }
    SixLaid(g, Words(row, q), SiteAddresses(q), Chain(row, c, d));
    ChainFresh(row, c, d);
  }

  lemma ChainFresh(row: Row, c: Clue, d: Clue)
    requires Traps(row, c, d) && RaiseAt(row) > 32
    requires Laid(Table(row, c, d), Words(row, RaiseAt(row)), SiteAddresses(RaiseAt(row)), Chain(row, c, d))
    ensures NoneStale(Table(row, c, d), Words(row, RaiseAt(row)), SiteAddresses(RaiseAt(row)), Chain(row, c, d), 0, 5)
  {
    hide SiteLaid, LinkLaid, PointingAt, Fits, Map;
  }

  // ----- the walk on that stack -----

  /** A call site is left, past the clue of a raise if that was noted. */
  lemma LeaveCall(g: Image, mem: seq<int>, pos: Pos, i: nat)
    requires 0 <= pos.iter < |mem| && FirstRow(g.rows, mem[pos.iter] - g.codeStart, 0) == Some(i)
    requires !g.rows[i].handler && !g.rows[i].inTail && Fits(g.rows[i], pos.clue)
    ensures VisitSite(g, mem, pos) ==
            Next(mem, Pos(pos.iter + (if pos.toJump then CLUE_WORDS else 0) + g.rows[i].frame, Map(g.rows[i], pos.clue),
                          pos.stack, false))
  {
    hide FirstRow, Fits, Map;
  }

  /** A walk that has lost its clue leaves the stack at its end. */
  lemma OffTheEnd(row: Row, c: Clue, d: Clue, mem: seq<int>, q: int, clue: Clue)
    requires Slot(c) && Slot(d) && q > 32 && |mem| == q + 121 && mem[q + 102] == row.addr + 2 && mem[q + 105] == TAIL
    requires !IsLabel0(clue)
    ensures Rounds(Table(row, c, d), mem, Pos(q + 102, clue, 0, false), 2) == Lost
  {
    var g, pos := Table(row, c, d), Pos(q + 102, clue, 0, false);
    Addresses(row, c, d);
    StaysPut(row.addr + 2, clue);
    hide FirstRow, Fits, Map, PointingAt;
    assert VisitSite(g, mem, pos) == Next(mem, Pos(q + 134, clue, 0, false));
    assert Rounds(g, mem, Pos(q + 134, clue, 0, false), 1) == Lost;
    OneMoreRound(g, mem, pos, 1);
  }

  /** From the raise on: its handler is found, and the saved clue goes on as it was saved. */
  lemma FromTheRaise(row: Row, c: Clue, d: Clue, mem: seq<int>, q: int)
    requires Traps(row, c, d) && q > 32 && |mem| == q + 121 && c != d
    requires mem[q] == row.addr + 1 && mem[q + 38] == row.addr + 2 && mem[q + 41] == TAIL && mem[q + 70] == row.addr + 3
    requires mem[q + 102] == row.addr + 2 && mem[q + 105] == TAIL && mem[q + 5] == Pack(c) && mem[q + 6] == 0
    ensures Rounds(Table(row, c, d), mem, Pos(q, ENTRY, q + 5, true), 5) == Lost
  {
    hide FirstRow, Fits, Map, PointingAt, Pack, Unpack;
    var g, p := Table(row, c, d), PointingAt(row.addr + 3, false, d, c);
    Addresses(row, c, d);
    SameSig(row, c);
    StaysPut(row.addr + 1, ENTRY);
    StaysPut(row.addr + 2, c);
    UnpackPack(c);
    LeaveCall(g, mem, Pos(q, ENTRY, q + 5, true), 1);
    assert VisitSite(g, mem, Pos(q + 38, ENTRY, q + 5, false)) == Next(mem, Pos(q + 70, c, 0, false));
    LeaveCall(g, mem, Pos(q + 70, c, 0, false), 3);
    OffTheEnd(row, c, d, mem, q, Map(p, c));
    OneMoreRound(g, mem, Pos(q + 70, c, 0, false), 2);
    OneMoreRound(g, mem, Pos(q + 38, ENTRY, q + 5, false), 3);
    OneMoreRound(g, mem, Pos(q, ENTRY, q + 5, true), 4);
  }

  lemma SameSig(row: Row, c: Clue)
    ensures Map(row, c).sig == c.sig
  {
  }

  /** A call site inside the clause: its clue is saved as it is. */
  lemma SavedUnchanged(row: Row, c: Clue, d: Clue)
    requires Traps(row, c, d) && !row.handler
    ensures Rounds(Table(row, c, d), Words(row, RaiseAt(row)), Pos(0, c, 0, false), 7) == Lost
  {
    hide FirstRow, Fits, Map, PointingAt, Pack, Unpack, Cell;
    var q, g := RaiseAt(row), Table(row, c, d);
    var mem := Words(row, q);
    Cells(row, q);
    Addresses(row, c, d);
    StaysPut(row.addr + 1, c);
    LeaveCall(g, mem, Pos(0, c, 0, false), 1);
    var mem1 := mem[q + 5 := Pack(c)][q + 6 := 0];
    assert VisitSite(g, mem, Pos(32, c, 0, false)) == Next(mem1, Pos(q, ENTRY, q + 5, true));
    FromTheRaise(row, c, d, mem1, q);
    OneMoreRound(g, mem, Pos(32, c, 0, false), 5);
    OneMoreRound(g, mem, Pos(0, c, 0, false), 6);
  }

  /** An install site inside the clause: the raise is taken for a call, and the walk reads a return
      address where there is none. */
  lemma ClueNotSteppedOver(row: Row, c: Clue, d: Clue)
    requires Traps(row, c, d) && row.handler
    ensures Rounds(Table(row, c, d), Words(row, RaiseAt(row)), Pos(0, c, 0, false), 4) == Lost
  {
    hide FirstRow, Fits, Map, PointingAt, Cell;
    var q, g := RaiseAt(row), Table(row, c, d);
    var mem := Words(row, q);
    Cells(row, q);
    Addresses(row, c, d);
    StaysPut(row.addr + 1, c);
    StaysPut(row.addr + 1, d);
    LeaveCall(g, mem, Pos(0, c, 0, false), 1);
    assert VisitSite(g, mem, Pos(32, c, 0, false)) == Next(mem, Pos(q, d, 0, false));
    LeaveCall(g, mem, Pos(q, d, 0, false), 1);
    assert Rounds(g, mem, Pos(q + 32, d, 0, false), 1) == Lost;
    OneMoreRound(g, mem, Pos(q, d, 0, false), 1);
    OneMoreRound(g, mem, Pos(32, c, 0, false), 2);
    OneMoreRound(g, mem, Pos(0, c, 0, false), 3);
  }

  /** One call site inside a tail clause with a hopper that moves a slot, or one install site whose
      hopper passes a slot on, is enough for a stack on which the walker never gets to the handler. */
  lemma TailRowMisleads(row: Row, c: Clue) returns (g: Image, mem: seq<int>, ats: seq<nat>, acts: seq<Act>, n: nat)
    requires row.inTail && Slot(c) && Fits(row, c) && Slot(Map(row, c)) && |row.md| % 2 == 0
    requires if row.handler then !IsLabel0(c) else row.frame > 0 && Map(row, c) != c
    ensures Posed(row, g, mem, ats, acts, c) && RaisesOnly(acts)
    ensures Rounds(g, mem, Pos(ats[0], c, 0, false), n) == Lost
  {
    var d := Map(row, c);
    g, mem, ats, acts := Table(row, c, d), Words(row, RaiseAt(row)), SiteAddresses(RaiseAt(row)), Chain(row, c, d);
    hide Laid, EvidencePassed, NoneStale, Rounds, Callee, RaisesOnly, OnlyTailRow, Fits, Map, PointingAt;
    ChainLaid(row, c, d);
    ChainIsPassed(row, c, d);
    if row.handler {
      ClueNotSteppedOver(row, c, d);
      n := 4;
    } else {
      SavedUnchanged(row, c, d);
      n := 7;
    }
  }

  // ----- exactly which rows -----

  lemma MissedOn(g: Image, mem: seq<int>, ats: seq<nat>, acts: seq<Act>, c: Clue, n: nat)
    requires |acts| == |ats| > 0 && Callee(acts, 0, c).Some? && Rounds(g, mem, Pos(ats[0], c, 0, false), n) == Lost
    ensures !RightOn(g, mem, ats, acts, c)
  {
    hide Rounds, Callee;
    if RightOn(g, mem, ats, acts, c) {
      var h := Header(g.offs, ats, acts, Callee(acts, 0, c).value);
      var n': nat :| Rounds(g, mem, Pos(ats[0], c, 0, false), n') == Found(h);
      EndsOnce(g, mem, Pos(ats[0], c, 0, false), n, n');
    }
  }

  /** Exactly: a site may stand inside tail clauses if and only if its hopper keeps every slot in
      place, or, at an install site, passes none on. Then, and only then, the walker returns the
      right header on every stack. */
  lemma TailRowExact(row: Row)
    requires row.inTail && |row.md| % 2 == 0 && (!row.handler ==> row.frame > 0)
    ensures RightWith(row) <==> if row.handler then Hides(row) else Transparent(row)
  {
    hide Laid, EvidencePassed, NoneStale, Rounds, Callee, RightOn, Fits, Map;
    if if row.handler then Hides(row) else Transparent(row) {
      forall g: Image, mem: seq<int>, ats: seq<nat>, acts: seq<Act>, c: Clue | Posed(row, g, mem, ats, acts, c)
        ensures RightOn(g, mem, ats, acts, c)
      {
        GoodRowIsRight(row, g, mem, ats, acts, c);
      }
    } else {
      var c := BadSlot(row);
      var g, mem, ats, acts, n := TailRowMisleads(row, c);
      MissedOn(g, mem, ats, acts, c, n);
    }
  }

  lemma BadSlot(row: Row) returns (c: Clue)
    requires !(if row.handler then Hides(row) else Transparent(row))
    ensures Slot(c) && Fits(row, c) && Slot(Map(row, c)) && if row.handler then !IsLabel0(c) else Map(row, c) != c
  {
    hide Map, Fits, Slot;
    if row.handler {
      c :| Slot(c) && !IsLabel0(c) && Fits(row, c) && Slot(Map(row, c));
    } else {
      c :| Slot(c) && Fits(row, c) && Slot(Map(row, c)) && Map(row, c) != c;
    }
  }

  lemma GoodRowIsRight(row: Row, g: Image, mem: seq<int>, ats: seq<nat>, acts: seq<Act>, c: Clue)
    requires row.inTail && (if row.handler then Hides(row) else Transparent(row)) && Posed(row, g, mem, ats, acts, c)
    ensures RightOn(g, mem, ats, acts, c)
  {
    var m := Callee(acts, 0, c).value;
    hide Laid, EvidencePassed, NoneStale, Callee, RightOn, Fits, Map;
    if row.handler {
      HidingIsStraight(acts, row, 0, c, m);
    } else {
      NoInstallIsStraight(acts, 0, c, []);
    }
    StraightIsRight(g, mem, ats, acts, c, m);
  }
}
