/**
  The walker's loop over stack memory (src/stackwalk/stackwalk.c). Memory is an array of
  8-byte words and addresses and frame sizes count words. The clues that are saved while
  tail clauses are crossed go into the spare words of the raise frames, as a linked list.
 */
module Stackwalk {
  import opened Options
  import opened ClueTable
  import opened Evidence
  import Hopper

  const ABORT := 0
  const TAIL := 3

  /** Words from the start of a header to its exchanger. */
  const EXCHANGER := 15

  /** Words from the start of a header to the address of the exchanger that its stack shares with all
      copies of it. In a header that was copied with its stack, the word at EXCHANGER is stale. */
  const EXCHANGER_PTR := 16

  /** A raise to a tail handler pushes its clue above three spare words. */
  const CLUE_WORDS := 6

  // ----- saved clues -----

  function Pack(c: Clue): nat
  {
    c.sig % 256 + 256 * (c.typ % 256) + 65536 * (c.idx % 256)
  }

  function Unpack(w: int): (c: Clue)
    requires w >= 0
  {
    Clue(w % 256, w / 256 % 256, w / 65536 % 256)
  }

  predicate IsBytes(c: Clue)
  {
    c.sig < 256 && c.typ < 256 && c.idx < 256
  }

  lemma UnpackPack(c: Clue)
    requires IsBytes(c)
    ensures Unpack(Pack(c)) == c
  {
    var w := Pack(c);
    assert w == c.sig + 256 * (c.typ + 256 * c.idx);
    assert w / 256 == c.typ + 256 * c.idx;
    assert w / 65536 == w / 256 / 256 == c.idx;
  }

  // ----- the stack of a chain -----

  /** The next return address is that of a raise, with its clue above it. */
  predicate Jumps(a: Act)
  {
    a.row.inTail
  }

  function Base(ats: seq<nat>, acts: seq<Act>, j: nat): nat
    requires j < |acts| == |ats|
  {
    ats[j] + if j > 0 && Jumps(acts[j - 1]) then CLUE_WORDS else 0
  }

  /** GET_HEADER_OFFSET_IN_HANDLER, with its default of 24 bytes. */
  function HeaderOffset(offs: map<int, int>, addr: int): int
  {
    if addr in offs then offs[addr] else 3
  }

  function Header(offs: map<int, int>, ats: seq<nat>, acts: seq<Act>, j: nat): int
    requires j < |acts| == |ats|
  {
    Base(ats, acts, j) + HeaderOffset(offs, acts[j].row.addr)
  }

  predicate InStack(mode: int)
  {
    mode == TAIL || mode == ABORT
  }

  /** Abortive handlers, mode 0, and tail handlers, mode 3, have their bodies on the stack of the
      installation; from every other mode the walker goes on through the exchanger. */
  lemma Modes(mode: int, addr: int)
    ensures InStack(mode) <==> mode == 0 || mode == 3
    ensures EXCHANGER == 15 && EXCHANGER_PTR == 16 && CLUE_WORDS == 6 && HeaderOffset(map[], addr) == 3
  {
  }

  /** The two words of raise frame j + 1 that a saved clue occupies. */
  predicate Spare(ats: seq<nat>, acts: seq<Act>, j: nat, a: int)
    requires |acts| == |ats|
  {
    j + 1 < |acts| && Jumps(acts[j]) && (a == ats[j + 1] + 5 || a == ats[j + 1] + 6)
  }

  predicate IsSpare(ats: seq<nat>, acts: seq<Act>, a: int)
    requires |acts| == |ats|
  {
    exists j :: 0 <= j < |acts| && Spare(ats, acts, j, a)
  }

  function FirstRow(rows: seq<Row>, addr: int, i: nat): (r: Option<nat>)
    requires i <= |rows|
    ensures r.Some? ==>
              i <= r.value < |rows| && rows[r.value].addr == addr && forall k :: i <= k < r.value ==>
                    rows[k].addr != addr
    ensures r.None? ==> forall k :: i <= k < |rows| ==> rows[k].addr != addr
    decreases |rows| - i
  {
    if i == |rows| then None else if rows[i].addr == addr then Some(i) else FirstRow(rows, addr, i + 1)
  }

  datatype Image = Image(rows: seq<Row>, codeStart: int, offs: map<int, int>)

  /** Return address j and, at an install site, its header. */
  ghost predicate SiteLaid(g: Image, m: seq<int>, ats: seq<nat>, acts: seq<Act>, j: nat)
    requires j < |acts| == |ats|
  {
    && ats[j] < |m| && !IsSpare(ats, acts, ats[j])
    && m[ats[j]] - g.codeStart == acts[j].row.addr
    && FirstRow(g.rows, acts[j].row.addr, 0).Some? && g.rows[FirstRow(g.rows, acts[j].row.addr, 0).value] == acts[j].row
    && (acts[j].row.handler ==>
          var h := Header(g.offs, ats, acts, j);
          && 0 <= h && h + EXCHANGER < |m| && !IsSpare(ats, acts, h) && !IsSpare(ats, acts, h + EXCHANGER)
          && (!InStack(m[h]) ==>
                && h + EXCHANGER_PTR < |m| && !IsSpare(ats, acts, h + EXCHANGER_PTR)
                && 0 <= m[h + EXCHANGER_PTR] < |m| && !IsSpare(ats, acts, m[h + EXCHANGER_PTR])))
  }

  /** How control gets from return address j to the next one: past the frame, or, at the bottom of
      a handler's own stack, through the exchanger that is shared by all copies of that stack. */
  ghost predicate LinkLaid(g: Image, m: seq<int>, ats: seq<nat>, acts: seq<Act>, j: nat)
    requires j + 1 < |acts| == |ats| && SiteLaid(g, m, ats, acts, j)
  {
    var row, h, p := acts[j].row, Header(g.offs, ats, acts, j), ats[j + 1];
    && p == (if row.handler && !InStack(m[h]) then m[m[h + EXCHANGER_PTR]] else Base(ats, acts, j) + row.frame)
    && (Jumps(acts[j]) ==>
          p + 6 < |m| && m[p + 3] == acts[j + 1].raised.sig && m[p + 2] == acts[j + 1].raised.typ
              && m[p + 1] == acts[j + 1].raised.idx &&
          !IsSpare(ats, acts, p + 1) && !IsSpare(ats, acts, p + 2) && !IsSpare(ats, acts, p + 3))
  }

  /** Install site j is that of a general handler in a copied stack, whose own exchanger does not hold
      what the shared one does. */
  ghost predicate Stale(g: Image, m: seq<int>, ats: seq<nat>, acts: seq<Act>, j: nat)
    requires j < |acts| == |ats| && SiteLaid(g, m, ats, acts, j)
  {
    var h := Header(g.offs, ats, acts, j);
    acts[j].row.handler && !InStack(m[h]) && m[h + EXCHANGER] != m[m[h + EXCHANGER_PTR]]
  }

  ghost predicate NoneStale(g: Image, m: seq<int>, ats: seq<nat>, acts: seq<Act>, j: nat, n: nat)
    requires Laid(g, m, ats, acts)
  {
    forall i :: j <= i < n && i < |acts| ==> SiteLaid(g, m, ats, acts, i) && !Stale(g, m, ats, acts, i)
  }

  /** The raise frames of different tail clauses do not overlap. */
  predicate SparesApart(ats: seq<nat>, acts: seq<Act>)
    requires |acts| == |ats|
  {
    forall i, j :: 0 <= i < j && j + 1 < |acts| && Jumps(acts[i]) && Jumps(acts[j]) ==>
      ats[i + 1] + 1 < ats[j + 1] || ats[j + 1] + 1 < ats[i + 1]
  }

  predicate RowsEven(rows: seq<Row>)
  {
    forall i :: 0 <= i < |rows| ==> |rows[i].md| % 2 == 0
  }

  ghost predicate Laid(g: Image, m: seq<int>, ats: seq<nat>, acts: seq<Act>)
  {
    && |acts| == |ats| && SparesApart(ats, acts)
    && RowsEven(g.rows)
    && (forall j :: 0 <= j < |acts| ==> SiteLaid(g, m, ats, acts, j))
    && (forall j :: 0 <= j && j + 1 < |acts| ==> LinkLaid(g, m, ats, acts, j))
  }

  /** Outside the spare words memory m is as it was in m0. */
  ghost predicate OnlySpares(m0: seq<int>, m: seq<int>, ats: seq<nat>, acts: seq<Act>)
    requires |acts| == |ats|
  {
    |m| == |m0| && forall a :: 0 <= a < |m| && !IsSpare(ats, acts, a) ==> m[a] == m0[a]
  }

  /** The list that starts at ptr holds the saved clues; cell k is in the raise frame above
      tail clause nodes[k]. */
  ghost predicate ListAt(m: seq<int>, ats: seq<nat>, acts: seq<Act>, ptr: int, saved: seq<Clue>, nodes: seq<nat>)
    requires |acts| == |ats|
  {
    && |saved| == |nodes| && (ptr == if nodes == [] then 0 else Cell(ats, nodes[0]))
    && (forall k :: 0 <= k < |nodes| ==> CellAt(m, ats, acts, saved, nodes, k))
  }

  function Cell(ats: seq<nat>, j: nat): int
  {
    if j + 1 < |ats| then ats[j + 1] + 5 else 0
  }

  ghost predicate CellAt(m: seq<int>, ats: seq<nat>, acts: seq<Act>, saved: seq<Clue>, nodes: seq<nat>, k: nat)
    requires |acts| == |ats| && k < |nodes| == |saved|
  {
    nodes[k] + 1 < |acts| && Jumps(acts[nodes[k]]) &&
    var p := Cell(ats, nodes[k]);
    p + 1 < |m| && m[p] == Pack(saved[k]) && IsBytes(saved[k]) &&
    m[p + 1] == if k + 1 < |nodes| then Cell(ats, nodes[k + 1]) else 0
  }

  // ----- the loop -----

  /** The linear search through the table. */
  method FindRow(table: seq<int>, ghost rows: seq<Row>, ret: int) returns (i: nat)
    requires table == Table(rows) && RowsEven(rows)
    requires FirstRow(rows, ret, 0).Some?
    ensures i < |rows| && FirstRow(rows, ret, 0) == Some(i) && WIDTH * i + WIDTH < |table|
  {
    i := 0;
    TableRoundTrip(rows, 0, 0);
    while Entry(table, i, 0) != ret
      invariant i < |rows| && WIDTH * i + WIDTH < |table| && Entry(table, i, 0) == rows[i].addr
      invariant FirstRow(rows, ret, 0) == FirstRow(rows, ret, i)
      decreases |rows| - i
    {
      i := i + 1;
      TableRoundTrip(rows, i, 0);
    }
  }

  /** The clue of a slot of the callee becomes what the compiler wrote for the slot: a capability or a
      label of the caller. */
  method UpdateClue(table: seq<int>, i: nat, c: Clue, ghost rows: seq<Row>) returns (d: Clue)
    requires table == Table(rows) && i < |rows| && |rows[i].md| % 2 == 0 && Fits(rows[i], c)
    ensures d == Map(rows[i], c) && d.sig == c.sig
    ensures forall md :: Hopper.WrittenFor(rows[i], md) && Hopper.Small(md) && Hopper.SlotOf(md, c) ==>
                           Rewritten(rows[i], md, c, d)
  {
    hide Table, Flat, Digits, HopperByte, HopperIndex, Map, Fits, Hopper.WrittenFor, Hopper.Small, Hopper.SlotOf,
        Rewritten;
    ghost var row := rows[i];
    RewrittenForAll(row, c);
    MapReads(row, c);
    TableRoundTrip(rows, i, 0);
    d := c;
    if Entry(table, i, 4) == 0 {
      var caps, labels := Entry(table, i, 5), Entry(table, i, 6);
      var index := c.sig * (1 + caps + labels);
      if c.typ == 0 {
        index := index + 1 + caps + c.idx;
      } else if c.typ == 1 {
        index := index + 1 + c.idx;
      }
      TableRoundTrip(rows, i, index);
      var updated := HopperByte(table, i, index);
      d := Clue(c.sig, updated / 16, updated % 16);
    }
  }

  /** The slots of a walk are those that cells of one digit name. */
  lemma SlotExactly(c: Clue)
    ensures Slot(c) <==> c.sig < 16 && exists cell :: cell != Hopper.NA && Hopper.SmallCell(cell)
                                                      && c == Hopper.CellClue(c.sig, cell)
  {
    if Slot(c) {
      var cell := if c.typ == 0 then Hopper.Label(Hopper.At(c.idx))
      else if c.typ == 1 then Hopper.Capability(Hopper.At(c.idx)) else Hopper.Label(Hopper.Infty);
      assert c == Hopper.CellClue(c.sig, cell) && Hopper.SmallCell(cell);
    }
  }

  lemma MapReads(row: Row, c: Clue)
    requires Fits(row, c)
    ensures row.isConst ==> Map(row, c) == c
    ensures !row.isConst ==>
              var k := c.sig * (1 + row.caps + row.labels)
                       + (if c.typ == 0 then 1 + row.caps + c.idx else if c.typ == 1 then 1 + c.idx else 0);
              && 0 <= k < HOPPER && Map(row, c) == Clue(c.sig, Digits(row.md, k) / 16, Digits(row.md, k) % 16)
  {
    hide Digits;
  }

  /** d names the handler or capability that the call passes in slot c; a constant row may leave a slot
      that is never reached as it is. */
  ghost predicate Rewritten(row: Row, md: Hopper.Metadata, c: Clue, d: Clue)
    requires Hopper.SlotOf(md, c)
  {
    d == Hopper.CellClue(c.sig, Hopper.CellOf(md, c)) || (row.isConst && d == c && Hopper.CellOf(md, c) == Hopper.NA)
  }

  lemma MapIsCell(row: Row, md: Hopper.Metadata, c: Clue)
    requires Hopper.WrittenFor(row, md) && Hopper.Small(md) && Hopper.SlotOf(md, c)
    ensures Fits(row, c) && |row.md| % 2 == 0 && Rewritten(row, md, c, Map(row, c))
  {
    hide Hopper.WrittenFor, Hopper.Small, Hopper.CellOf, Digits, HopperIndex;
    Hopper.ReadsCell(row, md, c);
  }

  lemma RewrittenForAll(row: Row, c: Clue)
    ensures forall md :: Hopper.WrittenFor(row, md) && Hopper.Small(md) && Hopper.SlotOf(md, c) ==>
                           Rewritten(row, md, c, Map(row, c))
  {
    hide Hopper.WrittenFor, Hopper.Small, Hopper.SlotOf, Rewritten, Map;
    forall md | Hopper.WrittenFor(row, md) && Hopper.Small(md) && Hopper.SlotOf(md, c)
      ensures Rewritten(row, md, c, Map(row, c))
    {
      MapIsCell(row, md, c);
    }
  }

  lemma SiteKept(g: Image, m0: seq<int>, m: seq<int>, ats: seq<nat>, acts: seq<Act>, j: nat)
    requires Laid(g, m0, ats, acts) && j < |acts| && OnlySpares(m0, m, ats, acts)
    ensures |ats| == |acts| && ats[j] < |m| && m[ats[j]] - g.codeStart == acts[j].row.addr && RowsEven(g.rows)
    ensures FirstRow(g.rows, acts[j].row.addr, 0).Some?
    ensures g.rows[FirstRow(g.rows, acts[j].row.addr, 0).value] == acts[j].row
    ensures acts[j].row.handler ==>
              var h := Header(g.offs, ats, acts, j);
              0 <= h && h + EXCHANGER < |m| == |m0| && m[h] == m0[h] && m[h + EXCHANGER] == m0[h + EXCHANGER]
  {
    assert SiteLaid(g, m0, ats, acts, j);
  }

  lemma LinkKept(g: Image, m0: seq<int>, m: seq<int>, ats: seq<nat>, acts: seq<Act>, j: nat)
    requires Laid(g, m0, ats, acts) && j + 1 < |acts| && OnlySpares(m0, m, ats, acts)
    ensures SiteLaid(g, m0, ats, acts, j)
    ensures acts[j].row.handler ==>
              var h := Header(g.offs, ats, acts, j);
              && 0 <= h && h + EXCHANGER < |m| && (InStack(m[h]) ==>
                                                     ats[j + 1] == Base(ats, acts, j) + acts[j].row.frame)
              && (!InStack(m[h]) ==> (ats[j + 1] == m[h + EXCHANGER] <==> !Stale(g, m0, ats, acts, j)))
              && (InStack(m[h]) ==> !Stale(g, m0, ats, acts, j))
    ensures !acts[j].row.handler ==> ats[j + 1] == Base(ats, acts, j) + acts[j].row.frame && !Stale(g, m0, ats, acts, j)
    ensures Jumps(acts[j]) ==>
              var p := ats[j + 1];
              p + 6 < |m| && m[p + 3] == acts[j + 1].raised.sig && m[p + 2] == acts[j + 1].raised.typ
                  && m[p + 1] == acts[j + 1].raised.idx
  {
    SiteKept(g, m0, m, ats, acts, j);
    assert SiteLaid(g, m0, ats, acts, j);
    assert LinkLaid(g, m0, ats, acts, j);
  }

  lemma NothingSaved(m: seq<int>, ats: seq<nat>, acts: seq<Act>)
    requires |acts| == |ats|
    ensures OnlySpares(m, m, ats, acts) && ListAt(m, ats, acts, 0, [], [])
  {
  }

  /** Saving a clue above tail clause j disturbs no return address, header or earlier cell. */
  lemma SaveKeeps(g: Image, m0: seq<int>, m: seq<int>, m': seq<int>, ats: seq<nat>, acts: seq<Act>, j: nat, c: Clue,
                  ptr: int, saved: seq<Clue>, nodes: seq<nat>)
    requires Laid(g, m0, ats, acts) && j + 1 < |acts| && Jumps(acts[j]) && OnlySpares(m0, m, ats, acts)
    requires ListAt(m, ats, acts, ptr, saved, nodes) && IsBytes(c) && (forall k :: 0 <= k < |nodes| ==> nodes[k] < j)
    requires ats[j + 1] + 6 < |m| && m' == m[ats[j + 1] + 5 := Pack(c)][ats[j + 1] + 6 := ptr]
    ensures OnlySpares(m0, m', ats, acts)
    ensures ListAt(m', ats, acts, ats[j + 1] + 5, [c] + saved, [j] + nodes)
  {
    assert SparesApart(ats, acts);
    hide Laid, Pack;
    var p := ats[j + 1];
    assert Spare(ats, acts, j, p + 5) && Spare(ats, acts, j, p + 6);
    forall k | 0 <= k < |nodes| + 1
      ensures CellAt(m', ats, acts, [c] + saved, [j] + nodes, k)
    {
      if k > 0 {
        CellKept(m, m', ats, acts, j, c, saved, nodes, k - 1);
      }
    }
  }

  lemma CellKept(m: seq<int>, m': seq<int>, ats: seq<nat>, acts: seq<Act>, j: nat, c: Clue, saved: seq<Clue>,
                 nodes: seq<nat>, k: nat)
    requires |acts| == |ats| && j + 1 < |acts| && Jumps(acts[j]) && SparesApart(ats, acts)
    requires |saved| == |nodes| && k < |nodes| && nodes[k] < j && CellAt(m, ats, acts, saved, nodes, k)
    requires |m'| == |m| && forall a :: 0 <= a < |m| && a != ats[j + 1] + 5 && a != ats[j + 1] + 6 ==> m'[a] == m[a]
    ensures CellAt(m', ats, acts, [c] + saved, [j] + nodes, k + 1)
  {
    hide Pack;
    assert ats[nodes[k] + 1] + 1 < ats[j + 1] || ats[j + 1] + 1 < ats[nodes[k] + 1];
  }

  /** The first saved clue, as the walker reads it back. */
  lemma HeadCell(m: seq<int>, ats: seq<nat>, acts: seq<Act>, ptr: int, saved: seq<Clue>, nodes: seq<nat>)
    requires |acts| == |ats| && ListAt(m, ats, acts, ptr, saved, nodes)
    ensures |saved| == |nodes| && (ptr == 0 <==> saved == [])
    ensures saved != [] ==> 0 < ptr && ptr + 1 < |m| && m[ptr] >= 0 && Unpack(m[ptr]) == saved[0] && IsBytes(saved[0])
    ensures saved != [] ==> ListAt(m, ats, acts, m[ptr + 1], saved[1..], nodes[1..])
  {
    hide Unpack, Pack;
    if saved != [] {
      assert CellAt(m, ats, acts, saved, nodes, 0);
      UnpackPack(saved[0]);
      TailCells(m, ats, acts, saved, nodes);
    }
  }

  lemma TailCells(m: seq<int>, ats: seq<nat>, acts: seq<Act>, saved: seq<Clue>, nodes: seq<nat>)
    requires |acts| == |ats| && |saved| == |nodes| > 0
    requires forall k :: 0 <= k < |nodes| ==> CellAt(m, ats, acts, saved, nodes, k)
    ensures forall k :: 0 <= k < |nodes[1..]| ==> CellAt(m, ats, acts, saved[1..], nodes[1..], k)
  {
    forall k | 0 <= k < |nodes[1..]|
      ensures CellAt(m, ats, acts, saved[1..], nodes[1..], k)
    {
      assert CellAt(m, ats, acts, saved, nodes, k + 1);
    }
  }

  lemma RaisedIsSlot(acts: seq<Act>, j: nat)
    requires EvidencePassed(acts) && j + 1 < |acts| && Jumps(acts[j])
    ensures Slot(acts[j + 1].raised)
  {
    assert EnvRight(acts, j);
  }

  lemma MapBytes(r: Row, c: Clue)
    requires IsBytes(c)
    ensures IsBytes(Map(r, c))
  {
  }

  // ----- the loop body -----

  /** The loop's variables; stack is the address of the last clue saved, or 0. */
  datatype Pos = Pos(iter: int, clue: Clue, stack: int, toJump: bool)

  /** Lost: no row has the address, or what would be read next is not there. */
  datatype Visit = Found(header: int) | Next(mem: seq<int>, pos: Pos) | Lost

  function VisitSite(g: Image, mem: seq<int>, pos: Pos): Visit
  {
    if !(0 <= pos.iter < |mem|) then Lost else
    match FirstRow(g.rows, mem[pos.iter] - g.codeStart, 0)
    case None => Lost
    case Some(i) =>
      var base := pos.iter + if pos.toJump then CLUE_WORDS else 0;
      if g.rows[i].handler then VisitHandler(mem, pos, g.rows[i], base, base + HeaderOffset(g.offs, g.rows[i].addr))
      else VisitCall(mem, pos, g.rows[i], base + g.rows[i].frame)
  }

  function VisitHandler(mem: seq<int>, pos: Pos, row: Row, base: int, h: int): Visit
  {
    if IsLabel0(pos.clue) && pos.stack == 0 then Found(h)
    else if IsLabel0(pos.clue) && !(0 < pos.stack && pos.stack + 1 < |mem| && mem[pos.stack] >= 0) then Lost
    else
      var c := if IsLabel0(pos.clue) then Unpack(mem[pos.stack]) else pos.clue;
      var rest := if IsLabel0(pos.clue) then mem[pos.stack + 1] else pos.stack;
      if !Fits(row, c) || !(0 <= h && h + EXCHANGER < |mem|) then Lost
      else Next(mem, Pos(if InStack(mem[h]) then base + row.frame else mem[h + EXCHANGER], Map(row, c), rest, false))
  }

  function VisitCall(mem: seq<int>, pos: Pos, row: Row, iter: int): Visit
  {
    if row.inTail then
      if 0 <= iter && iter + 6 < |mem| && mem[iter + 1] >= 0 && mem[iter + 2] >= 0 && mem[iter + 3] >= 0 then
        Next(mem[iter + 5 := Pack(pos.clue)][iter + 6 := pos.stack],
             Pos(iter, Clue(mem[iter + 3], mem[iter + 2], mem[iter + 1]), iter + 5, true))
      else Lost
    else if Fits(row, pos.clue) then Next(mem, Pos(iter, Map(row, pos.clue), pos.stack, false))
    else Lost
  }

  /** The loop body: the row of the return address, then the two kinds of site. */
  method VisitOnce(mem: array<int>, codeStart: int, table: seq<int>, offs: map<int, int>, pos: Pos,
                   ghost rows: seq<Row>)
    returns (found: bool, header: int, next: Pos)
    requires table == Table(rows) && RowsEven(rows) && VisitSite(Image(rows, codeStart, offs), mem[..], pos) != Lost
    modifies mem
    ensures found <==> VisitSite(Image(rows, codeStart, offs), old(mem[..]), pos).Found?
    ensures found ==> VisitSite(Image(rows, codeStart, offs), old(mem[..]), pos) == Found(header)
                      && mem[..] == old(mem[..])
    ensures !found ==> VisitSite(Image(rows, codeStart, offs), old(mem[..]), pos) == Next(mem[..], next)
  {
    hide Table, Map, Pack, Unpack, Fits;
    ghost var before := mem[..];
    var i := FindRow(table, rows, mem[pos.iter] - codeStart);
    TableRoundTrip(rows, i, 0);
    found, header, next := false, 0, pos;
    var base := if pos.toJump then pos.iter + CLUE_WORDS else pos.iter;
    if Entry(table, i, 2) != 0 {
      header := base + HeaderOffset(offs, Entry(table, i, 0));
      found, next := VisitInstall(mem, table, i, base, header, pos, rows);
    } else {
      var iter := base + Entry(table, i, 1);
      if Entry(table, i, 3) != 0 {
        mem[iter + 5], mem[iter + 6] := Pack(pos.clue), pos.stack;
        assert mem[..] == before[iter + 5 := Pack(pos.clue)][iter + 6 := pos.stack];
        next := Pos(iter, Clue(mem[iter + 3], mem[iter + 2], mem[iter + 1]), iter + 5, true);
      } else {
        var c := UpdateClue(table, i, pos.clue, rows);
        next := Pos(iter, c, pos.stack, false);
      }
    }
  }

  /** At an install site: the handler is found, or the clue, a saved one if label 0 belongs to a
      clause that was crossed, is rewritten and the walk leaves the site. */
  method VisitInstall(mem: array<int>, table: seq<int>, i: nat, base: int, h: int, pos: Pos, ghost rows: seq<Row>)
    returns (found: bool, next: Pos)
    requires table == Table(rows) && i < |rows| && |rows[i].md| % 2 == 0
    requires VisitHandler(mem[..], pos, rows[i], base, h) != Lost
    ensures found <==> VisitHandler(mem[..], pos, rows[i], base, h).Found?
    ensures !found ==> VisitHandler(mem[..], pos, rows[i], base, h) == Next(mem[..], next)
  {
    hide Table, Map, Unpack, Fits;
    var c, stack := pos.clue, pos.stack;
    found, next := false, pos;
    if c.typ == 0 && c.idx == 0 {
      if stack == 0 {
        found := true;
        return;
      }
      c := Unpack(mem[stack]);
      stack := mem[stack + 1];
    }
    TableRoundTrip(rows, i, 0);
    c := UpdateClue(table, i, c, rows);
    next := Pos(if mem[h] == TAIL || mem[h] == ABORT then base + Entry(table, i, 1) else mem[h + EXCHANGER], c, stack,
                false);
  }

  // ----- the walk and the chain -----

  /** The walker is at return address j, with the clues saved that the tail clauses below j left. */
  ghost predicate OnCourse(g: Image, m0: seq<int>, mem: seq<int>, ats: seq<nat>, acts: seq<Act>, j: nat, pos: Pos,
                           saved: seq<Clue>, nodes: seq<nat>)
    requires |acts| == |ats|
  {
    && j < |acts| && pos.iter == ats[j] && (pos.toJump <==> j > 0 && Jumps(acts[j - 1])) && IsBytes(pos.clue)
    && OnlySpares(m0, mem, ats, acts) && ListAt(mem, ats, acts, pos.stack, saved, nodes) && forall k ::
          0 <= k < |nodes| ==> nodes[k] < j
  }

  /** The clue that an install site rewrites, and what stays saved. */
  function Popped(c: Clue, saved: seq<Clue>): Clue
  {
    if IsLabel0(c) && saved != [] then saved[0] else c
  }

  function Kept(c: Clue, saved: seq<Clue>): seq<Clue>
  {
    if IsLabel0(c) && saved != [] then saved[1..] else saved
  }

  /** At an install site the handler is found, when label 0 is looked up and no clue is saved. */
  lemma InstallFinds(g: Image, m0: seq<int>, mem: seq<int>, ats: seq<nat>, acts: seq<Act>, j: nat, pos: Pos,
                     saved: seq<Clue>, nodes: seq<nat>)
    requires Laid(g, m0, ats, acts) && |acts| == |ats| && OnCourse(g, m0, mem, ats, acts, j, pos, saved, nodes)
    requires acts[j].row.handler
    requires IsLabel0(pos.clue) && saved == []
    ensures VisitSite(g, mem, pos) == Found(Header(g.offs, ats, acts, j))
  {
    hide Laid, OnlySpares, ListAt, Pack, Unpack, Map, Fits, FirstRow;
    HeadCell(mem, ats, acts, pos.stack, saved, nodes);
    SiteKept(g, m0, mem, ats, acts, j);
  }

  /** Otherwise the site is left for the next return address, unless the exchanger in its header is
      stale; the walker takes that one for the return address of an ordinary call. */
  lemma InstallLeaves(g: Image, m0: seq<int>, mem: seq<int>, ats: seq<nat>, acts: seq<Act>, j: nat, pos: Pos,
                      saved: seq<Clue>, nodes: seq<nat>)
    returns (nodes': seq<nat>)
    requires Laid(g, m0, ats, acts) && |acts| == |ats| && OnCourse(g, m0, mem, ats, acts, j, pos, saved, nodes)
    requires acts[j].row.handler
    requires !(IsLabel0(pos.clue) && saved == []) && j + 1 < |acts| && Fits(acts[j].row, Popped(pos.clue, saved))
    ensures SiteLaid(g, m0, ats, acts, j)
    ensures var v := VisitSite(g, mem, pos);
            && v.Next? && v.mem == mem && !v.pos.toJump && v.pos.clue == Map(acts[j].row, Popped(pos.clue, saved))
            && (v.pos.iter == ats[j + 1] <==> !Stale(g, m0, ats, acts, j))
            && (!acts[j].row.inTail && !Stale(g, m0, ats, acts, j) ==>
                  OnCourse(g, m0, mem, ats, acts, j + 1, v.pos, Kept(pos.clue, saved), nodes'))
  {
    hide Laid, OnlySpares, ListAt, Pack, Unpack, Map, Fits, FirstRow, SiteLaid, Stale;
    HeadCell(mem, ats, acts, pos.stack, saved, nodes);
    SiteKept(g, m0, mem, ats, acts, j);
    nodes' := if IsLabel0(pos.clue) then nodes[1..] else nodes;
    MapBytes(acts[j].row, Popped(pos.clue, saved));
    LinkKept(g, m0, mem, ats, acts, j);
  }

  /** Leaving an ordinary call. */
  lemma CallLeaves(g: Image, m0: seq<int>, mem: seq<int>, ats: seq<nat>, acts: seq<Act>, j: nat, pos: Pos,
                   saved: seq<Clue>, nodes: seq<nat>)
    requires Laid(g, m0, ats, acts) && |acts| == |ats| && OnCourse(g, m0, mem, ats, acts, j, pos, saved, nodes)
    requires !acts[j].row.handler && !acts[j].row.inTail && j + 1 < |acts| && Fits(acts[j].row, pos.clue)
    ensures var v := VisitSite(g, mem, pos);
            && v.Next? && v.mem == mem && v.pos.clue == Map(acts[j].row, pos.clue)
            && OnCourse(g, m0, mem, ats, acts, j + 1, v.pos, saved, nodes)
  {
    hide Laid, OnlySpares, ListAt, Pack, Unpack, Map, Fits, FirstRow;
    SiteKept(g, m0, mem, ats, acts, j);
    MapBytes(acts[j].row, pos.clue);
    LinkKept(g, m0, mem, ats, acts, j);
  }

  /** Leaving a tail clause: the clue is saved above the raise, whose own clue is taken up. */
  lemma ClauseLeaves(g: Image, m0: seq<int>, mem: seq<int>, ats: seq<nat>, acts: seq<Act>, j: nat, pos: Pos,
                     saved: seq<Clue>, nodes: seq<nat>)
    requires Laid(g, m0, ats, acts) && |acts| == |ats| && EvidencePassed(acts)
    requires OnCourse(g, m0, mem, ats, acts, j, pos, saved, nodes)
    requires !acts[j].row.handler && acts[j].row.inTail && j + 1 < |acts|
    ensures var v := VisitSite(g, mem, pos);
            && v.Next? && v.pos.clue == acts[j + 1].raised
            && OnCourse(g, m0, v.mem, ats, acts, j + 1, v.pos, [pos.clue] + saved, [j] + nodes)
  {
    hide Laid, OnlySpares, ListAt, Pack, Unpack, Map, Fits, FirstRow, EvidencePassed;
    SiteKept(g, m0, mem, ats, acts, j);
    LinkKept(g, m0, mem, ats, acts, j);
    RaisedIsSlot(acts, j);
    var iter := ats[j + 1];
    SaveKeeps(g, m0, mem, mem[iter + 5 := Pack(pos.clue)][iter + 6 := pos.stack], ats, acts, j, pos.clue, pos.stack,
              saved, nodes);
  }

  /** One iteration of a straight walk: found, or on course at the next return address. */
  lemma StepOnCourse(g: Image, m0: seq<int>, mem: seq<int>, ats: seq<nat>, acts: seq<Act>, j: nat, pos: Pos,
                     saved: seq<Clue>, nodes: seq<nat>, m: nat)
    returns (saved': seq<Clue>, nodes': seq<nat>)
    requires Laid(g, m0, ats, acts) && |acts| == |ats| && EvidencePassed(acts)
    requires OnCourse(g, m0, mem, ats, acts, j, pos, saved, nodes)
    requires Evidence.Walk(acts, j, pos.clue, saved) == Some(m) && Straight(acts, j, pos.clue, saved)
    requires NoneStale(g, m0, ats, acts, j, m)
    ensures var v := VisitSite(g, mem, pos);
            if acts[j].row.handler && IsLabel0(pos.clue) && saved == [] then m == j
                && v == Found(Header(g.offs, ats, acts, j))
            else
              && v.Next? && j + 1 < |acts| && OnCourse(g, m0, v.mem, ats, acts, j + 1, v.pos, saved', nodes')
              && Evidence.Walk(acts, j + 1, v.pos.clue, saved') == Some(m) && Straight(acts, j + 1, v.pos.clue, saved')
              && NoneStale(g, m0, ats, acts, j + 1, m)
  {
    NotStaleHere(g, m0, ats, acts, j, pos.clue, saved, m);
    hide Laid, OnCourse, EvidencePassed, VisitSite, Map, Fits, SiteLaid, Stale, NoneStale;
    assert j < |acts| by { CourseBound(g, m0, mem, ats, acts, j, pos, saved, nodes); }
    saved', nodes' := saved, nodes;
    if acts[j].row.handler {
      if IsLabel0(pos.clue) && saved == [] {
        InstallFinds(g, m0, mem, ats, acts, j, pos, saved, nodes);
      } else {
        saved' := Kept(pos.clue, saved);
        nodes' := InstallLeaves(g, m0, mem, ats, acts, j, pos, saved, nodes);
      }
    } else if acts[j].row.inTail {
      ClauseLeaves(g, m0, mem, ats, acts, j, pos, saved, nodes);
      saved', nodes' := [pos.clue] + saved, [j] + nodes;
    } else {
      CallLeaves(g, m0, mem, ats, acts, j, pos, saved, nodes);
    }
  }

  lemma {:induction false} WalkGoesOn(acts: seq<Act>, j: nat, c: Clue, saved: seq<Clue>, m: nat)
    requires Evidence.Walk(acts, j, c, saved) == Some(m)
    ensures j <= m < |acts| && (m == j ==> acts[j].row.handler && IsLabel0(c) && saved == [])
    decreases |acts| - j
  {
    hide Map, Fits;
    var row := acts[j].row;
    if row.handler {
      if !(IsLabel0(c) && saved == []) {
        WalkGoesOn(acts, j + 1, Map(row, Popped(c, saved)), Kept(c, saved), m);
      }
    } else if row.inTail {
      WalkGoesOn(acts, j + 1, acts[j + 1].raised, [c] + saved, m);
    } else {
      WalkGoesOn(acts, j + 1, Map(row, c), saved, m);
    }
  }

  lemma NotStaleHere(g: Image, m0: seq<int>, ats: seq<nat>, acts: seq<Act>, j: nat, c: Clue, saved: seq<Clue>, m: nat)
    requires Laid(g, m0, ats, acts) && |acts| == |ats| && j < |acts| && NoneStale(g, m0, ats, acts, j, m)
    requires Evidence.Walk(acts, j, c, saved) == Some(m)
    ensures SiteLaid(g, m0, ats, acts, j) && NoneStale(g, m0, ats, acts, j + 1, m)
    ensures !(acts[j].row.handler && IsLabel0(c) && saved == []) ==> !Stale(g, m0, ats, acts, j)
  {
    hide Evidence.Walk, Stale;
    WalkGoesOn(acts, j, c, saved, m);
  }

  lemma CourseBound(g: Image, m0: seq<int>, mem: seq<int>, ats: seq<nat>, acts: seq<Act>, j: nat, pos: Pos,
                    saved: seq<Clue>, nodes: seq<nat>)
    requires |acts| == |ats| && OnCourse(g, m0, mem, ats, acts, j, pos, saved, nodes)
    ensures j < |acts| && pos.iter == ats[j]
  {
  }

  lemma StartOnCourse(g: Image, m0: seq<int>, ats: seq<nat>, acts: seq<Act>, clue: Clue)
    requires |acts| == |ats| > 0 && Slot(clue)
    ensures OnCourse(g, m0, m0, ats, acts, 0, Pos(ats[0], clue, 0, false), [], [])
  {
    NothingSaved(m0, ats, acts);
  }

  /** stackwalk: from the return address at start, with the clue of a raise, the walk ends at
      the header of the handler that evidence passing assigns to that clue. Only spare words
      of raise frames have changed. */
  method Walk(mem: array<int>, codeStart: int, table: seq<int>, offs: map<int, int>, start: nat, clue: Clue,
              ghost rows: seq<Row>, ghost ats: seq<nat>, ghost acts: seq<Act>) returns (header: int)
    requires table == Table(rows) && Laid(Image(rows, codeStart, offs), mem[..], ats, acts) && |ats| == |acts| > 0
    requires ats[0] == start
    requires EvidencePassed(acts) && TailRowsOk(acts) && Straight(acts, 0, clue, []) && Slot(clue)
    requires Callee(acts, 0, clue).Some?
    requires NoneStale(Image(rows, codeStart, offs), mem[..], ats, acts, 0, Callee(acts, 0, clue).value)
    modifies mem
    ensures Callee(acts, 0, clue).value < |acts| == |ats|
    ensures header == Header(offs, ats, acts, Callee(acts, 0, clue).value)
    ensures OnlySpares(old(mem[..]), mem[..], ats, acts)
  {
    assert RowsEven(rows);
    hide Laid, OnlySpares, ListAt, EvidencePassed, TailRowsOk, Map, Table, Callee, VisitSite, Straight, Fits, SiteLaid,
        Stale, NoneStale;
    ghost var g, m0 := Image(rows, codeStart, offs), mem[..];
    ghost var m := Callee(acts, 0, clue).value;
    WalkIsEvidence(acts, clue, m);
    StartOnCourse(g, m0, ats, acts, clue);
    var pos := Pos(start, clue, 0, false);
    ghost var j := 0;
    ghost var saved: seq<Clue>, nodes: seq<nat> := [], [];
    while true
      invariant OnCourse(g, m0, mem[..], ats, acts, j, pos, saved, nodes)
      invariant Evidence.Walk(acts, j, pos.clue, saved) == Some(m) && Straight(acts, j, pos.clue, saved)
      invariant NoneStale(g, m0, ats, acts, j, m)
      decreases |acts| - j
    {
      ghost var saved', nodes' := StepOnCourse(g, m0, mem[..], ats, acts, j, pos, saved, nodes, m);
      var found, next;
      found, header, next := VisitOnce(mem, codeStart, table, offs, pos, rows);
      if found {
        return;
      }
      pos := next;
      saved, nodes := saved', nodes';
      j := j + 1;
    }
  }

  // ----- install sites inside tail clauses -----

  /** A tail clause is called by a raise, which is no install site. */
  predicate RaisesOnly(acts: seq<Act>)
  {
    forall j :: 0 <= j && j + 1 < |acts| && Jumps(acts[j]) ==> !acts[j + 1].row.handler
  }

  /** From pos on, the walker visits return addresses j to m of the chain, one after the other, and
      then returns the header of m. */
  ghost predicate Visits(g: Image, ats: seq<nat>, acts: seq<Act>, mem: seq<int>, pos: Pos, j: nat, m: nat)
    requires |acts| == |ats|
    decreases |acts| - j
  {
    j < |acts| && pos.iter == ats[j] &&
    match VisitSite(g, mem, pos)
    case Found(h) => j == m && h == Header(g.offs, ats, acts, m)
    case Next(mem', pos') => Visits(g, ats, acts, mem', pos', j + 1, m)
    case Lost => false
  }

  lemma {:induction false} StraightVisits(g: Image, m0: seq<int>, mem: seq<int>, ats: seq<nat>, acts: seq<Act>, j: nat,
                                          pos: Pos, saved: seq<Clue>, nodes: seq<nat>, m: nat)
    requires Laid(g, m0, ats, acts) && |acts| == |ats| && EvidencePassed(acts)
    requires OnCourse(g, m0, mem, ats, acts, j, pos, saved, nodes)
    requires Evidence.Walk(acts, j, pos.clue, saved) == Some(m) && Straight(acts, j, pos.clue, saved)
    requires NoneStale(g, m0, ats, acts, j, m)
    ensures Visits(g, ats, acts, mem, pos, j, m)
    decreases |acts| - j
  {
    hide Laid, OnCourse, EvidencePassed, VisitSite, Straight, NoneStale;
    CourseBound(g, m0, mem, ats, acts, j, pos, saved, nodes);
    var saved', nodes' := StepOnCourse(g, m0, mem, ats, acts, j, pos, saved, nodes, m);
    hide Evidence.Walk;
    if !(acts[j].row.handler && IsLabel0(pos.clue) && saved == []) {
      var v := VisitSite(g, mem, pos);
      StraightVisits(g, m0, v.mem, ats, acts, j + 1, v.pos, saved', nodes', m);
    }
  }

  /** The site after an install site inside a tail clause is visited at the right address, but the
      clue that the raise pushed is not stepped over: six words are missing from then on. */
  lemma ShortByAClue(g: Image, m0: seq<int>, mem: seq<int>, ats: seq<nat>, acts: seq<Act>, j: nat, pos: Pos)
    requires Laid(g, m0, ats, acts) && |acts| == |ats| && OnlySpares(m0, mem, ats, acts) && RaisesOnly(acts)
    requires 0 < j < |acts| && Jumps(acts[j - 1]) && pos.iter == ats[j] && !pos.toJump
    ensures !VisitSite(g, mem, pos).Found?
    ensures VisitSite(g, mem, pos).Next? && j + 1 < |acts| ==>
              VisitSite(g, mem, pos).pos.iter == ats[j + 1] - CLUE_WORDS
  {
    assert !acts[j - 1 + 1].row.handler;
    hide Laid, OnlySpares, Pack, Unpack, Map, Fits, FirstRow, RaisesOnly;
    SiteKept(g, m0, mem, ats, acts, j);
    if j + 1 < |acts| {
      LinkKept(g, m0, mem, ats, acts, j);
    }
  }

  lemma LeavingStrays(g: Image, m0: seq<int>, mem: seq<int>, ats: seq<nat>, acts: seq<Act>, j: nat, pos: Pos,
                      saved: seq<Clue>, nodes: seq<nat>, m: nat)
    requires Laid(g, m0, ats, acts) && |acts| == |ats| && OnCourse(g, m0, mem, ats, acts, j, pos, saved, nodes)
    requires RaisesOnly(acts)
    requires acts[j].row.handler && acts[j].row.inTail && !(IsLabel0(pos.clue) && saved == []) && j + 1 < |acts|
    requires Fits(acts[j].row, Popped(pos.clue, saved))
    ensures !Visits(g, ats, acts, mem, pos, j, m)
  {
    assert OnlySpares(m0, mem, ats, acts);
    hide Laid, OnCourse, VisitSite, RaisesOnly, OnlySpares, Fits, SiteLaid, Stale;
    var nodes' := InstallLeaves(g, m0, mem, ats, acts, j, pos, saved, nodes);
    var next := VisitSite(g, mem, pos).pos;
    if Visits(g, ats, acts, mem, pos, j, m) {
      NextVisit(g, ats, acts, mem, pos, j, m);
      ShortByAClue(g, m0, mem, ats, acts, j + 1, next);
      NextVisit(g, ats, acts, mem, next, j + 1, m);
    }
  }

  lemma NextVisit(g: Image, ats: seq<nat>, acts: seq<Act>, mem: seq<int>, pos: Pos, j: nat, m: nat)
    requires |acts| == |ats| && Visits(g, ats, acts, mem, pos, j, m) && !VisitSite(g, mem, pos).Found?
    ensures VisitSite(g, mem, pos).Next? && j + 1 < |acts| && VisitSite(g, mem, pos).pos.iter == ats[j + 1]
  {
    hide VisitSite;
  }

  /** What evidence passing says about the next site, when this one is left. */
  lemma EvidenceOn(acts: seq<Act>, j: nat, c: Clue, saved: seq<Clue>, m: nat) returns (m': nat)
    requires EvidencePassed(acts) && TailRowsOk(acts) && j < |acts| && Slot(c) && Callee(acts, j, c) == Some(m)
    requires Pending(acts, m, saved)
    requires !(acts[j].row.handler && IsLabel0(c) && saved == []) && !(acts[j].row.handler && acts[j].row.inTail)
    ensures j + 1 < |acts|
    ensures acts[j].row.handler || !acts[j].row.inTail ==>
              var c1, saved1 := if acts[j].row.handler then Popped(c, saved) else c,
                  if acts[j].row.handler then Kept(c, saved) else saved;
              && Fits(acts[j].row, c1) && Slot(Map(acts[j].row, c1))
                  && Callee(acts, j + 1, Map(acts[j].row, c1)) == Some(m')
              && Pending(acts, m', saved1) && After(acts, m', saved1) == After(acts, m, saved)
    ensures !acts[j].row.handler && acts[j].row.inTail ==>
              && Slot(acts[j + 1].raised) && Callee(acts, j + 1, acts[j + 1].raised) == Some(m')
              && Pending(acts, m', [c] + saved) && After(acts, m', [c] + saved) == After(acts, m, saved)
  {
    assert acts[j].row.handler && IsLabel0(c) ==> m == j;
    hide EvidencePassed, Map, Fits, Slot, Pending, After, Callee, IsLabel0;
    if acts[j].row.handler && IsLabel0(c) {
      var d;
      d, m' := PopPending(acts, j, saved);
    } else {
      CalleeIn(acts, j, c, m);
      if acts[j].row.inTail {
        assert Transparent(acts[j].row) && Map(acts[j].row, c) == c;
        m' := PushPending(acts, j, c, saved, m);
      } else {
        StepOut(acts, j, Map(acts[j].row, c));
        m' := m;
      }
    }
  }

  /** An install site that is left: the hopper has a byte for the clue, and the chain goes on. */
  lemma EvidenceLeaving(acts: seq<Act>, j: nat, c: Clue, saved: seq<Clue>, m: nat)
    requires EvidencePassed(acts) && j < |acts| && Slot(c) && Callee(acts, j, c) == Some(m) && Pending(acts, m, saved)
    requires acts[j].row.handler && !(IsLabel0(c) && saved == [])
    ensures j + 1 < |acts| && Fits(acts[j].row, Popped(c, saved))
  {
    hide EnvRight, Map, Fits, After;
    if !IsLabel0(c) {
      CalleeIn(acts, j, c, m);
      assert Map(acts[j].row, c) in acts[j].env;
    } else {
      assert Map(acts[j].row, saved[0]) in acts[j].env;
    }
  }

  /** What the rest of the walk is like, after site j is left. */
  lemma RestStrays(g: Image, m0: seq<int>, ats: seq<nat>, acts: seq<Act>, j: nat, last: nat)
    requires Laid(g, m0, ats, acts) && |acts| == |ats| && j < |acts| && SiteLaid(g, m0, ats, acts, j)
    requires !Stale(g, m0, ats, acts, j)
    ensures NoneStale(g, m0, ats, acts, j + 1, last) ==> NoneStale(g, m0, ats, acts, j, last)
  {
    hide Stale, SiteLaid;
  }

  /** A walk that leaves an install site inside a tail clause, or one with a stale exchanger, does not
      keep to the chain. */
  lemma {:induction false} StrayLeaves(g: Image, m0: seq<int>, mem: seq<int>, ats: seq<nat>, acts: seq<Act>, j: nat,
                                       pos: Pos,
                                       saved: seq<Clue>, nodes: seq<nat>, m: nat, last: nat)
    requires Laid(g, m0, ats, acts) && |acts| == |ats| && EvidencePassed(acts) && TailRowsOk(acts) && RaisesOnly(acts)
    requires OnCourse(g, m0, mem, ats, acts, j, pos, saved, nodes) && j < |acts|
    requires !(Straight(acts, j, pos.clue, saved) && NoneStale(g, m0, ats, acts, j, last))
    requires Slot(pos.clue) && Callee(acts, j, pos.clue) == Some(m) && Pending(acts, m, saved)
    requires After(acts, m, saved) == last
    ensures !Visits(g, ats, acts, mem, pos, j, last)
    decreases |acts| - j
  {
    hide Laid, OnCourse, EvidencePassed, TailRowsOk, RaisesOnly, VisitSite, Slot, Callee, Pending, After, Map, Fits,
        SiteLaid, Stale, NoneStale;
    FoundHere(acts, j, pos.clue, saved, m);
    var row, c := acts[j].row, pos.clue;
    if row.handler && IsLabel0(c) && saved == [] {
      NothingBetween(g, m0, ats, acts, j);
      return;
    }
    if row.handler && row.inTail {
      EvidenceLeaving(acts, j, c, saved, m);
      LeavingStrays(g, m0, mem, ats, acts, j, pos, saved, nodes, last);
    } else {
      var m' := EvidenceOn(acts, j, c, saved, m);
      var saved', nodes' := saved, nodes;
      if row.handler {
        saved' := Kept(c, saved);
        nodes' := InstallLeaves(g, m0, mem, ats, acts, j, pos, saved, nodes);
      } else if row.inTail {
        saved', nodes' := [c] + saved, [j] + nodes;
        ClauseLeaves(g, m0, mem, ats, acts, j, pos, saved, nodes);
      } else {
        CallLeaves(g, m0, mem, ats, acts, j, pos, saved, nodes);
      }
      StaleSite(g, m0, ats, acts, j);
      if !Stale(g, m0, ats, acts, j) {
        RestStrays(g, m0, ats, acts, j, last);
        var v := VisitSite(g, mem, pos);
        StrayLeaves(g, m0, v.mem, ats, acts, j + 1, v.pos, saved', nodes', m', last);
      } else if Visits(g, ats, acts, mem, pos, j, last) {
        NextVisit(g, ats, acts, mem, pos, j, last);
      }
    }
  }

  lemma NothingBetween(g: Image, m0: seq<int>, ats: seq<nat>, acts: seq<Act>, j: nat)
    requires Laid(g, m0, ats, acts)
    ensures NoneStale(g, m0, ats, acts, j, j)
  {
  }

  lemma FoundHere(acts: seq<Act>, j: nat, c: Clue, saved: seq<Clue>, m: nat)
    requires j < |acts| && Callee(acts, j, c) == Some(m) && Pending(acts, m, saved)
    ensures acts[j].row.handler && IsLabel0(c) && saved == [] ==> After(acts, m, saved) == j
  {
  }

  lemma StaleSite(g: Image, m0: seq<int>, ats: seq<nat>, acts: seq<Act>, j: nat)
    requires Laid(g, m0, ats, acts) && |acts| == |ats| && j < |acts|
    ensures SiteLaid(g, m0, ats, acts, j) && (Stale(g, m0, ats, acts, j) ==> acts[j].row.handler)
  {
  }

  /** Exactly: on every stack that a chain is laid out on, the walker visits the return addresses up
      to the right handler and returns its header if and only if it leaves neither an install site
      that is inside a tail clause nor one whose header was copied and has a stale exchanger. When it
      leaves one of the first kind, it visits one more return address of the chain, and is then six
      words short of the next; of the second kind, it goes where the copied word points. */
  lemma CourseExact(g: Image, mem: seq<int>, ats: seq<nat>, acts: seq<Act>, clue: Clue, m: nat)
    requires Laid(g, mem, ats, acts) && |acts| == |ats| > 0 && EvidencePassed(acts) && TailRowsOk(acts)
    requires RaisesOnly(acts)
    requires Slot(clue) && Callee(acts, 0, clue) == Some(m)
    ensures Visits(g, ats, acts, mem, Pos(ats[0], clue, 0, false), 0, m) <==>
            Straight(acts, 0, clue, []) && NoneStale(g, mem, ats, acts, 0, m)
  {
    hide Laid, OnCourse, EvidencePassed, TailRowsOk, RaisesOnly, VisitSite, Callee, Visits, Straight, NoneStale;
    StartOnCourse(g, mem, ats, acts, clue);
    if Straight(acts, 0, clue, []) && NoneStale(g, mem, ats, acts, 0, m) {
      WalkIsEvidence(acts, clue, m);
      StraightVisits(g, mem, mem, ats, acts, 0, Pos(ats[0], clue, 0, false), [], [], m);
    } else {
      StrayLeaves(g, mem, mem, ats, acts, 0, Pos(ats[0], clue, 0, false), [], [], m, m);
    }
  }
}
