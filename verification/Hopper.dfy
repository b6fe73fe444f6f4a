/**
  What the compiler writes into the hopper of a call site (src/lib/codegen/hopper.ml): for every
  effect one line of cells, first the cell of the captured environment, then one for every
  capability that the call passes, then one for every label; the cells as two digits each.
  The walker's UPDATE_CLUE turns a slot of the callee into the cell that was written for it.
 */
module Hopper {
  import opened Options
  import opened ClueTable

  datatype Index = At(i: nat) | Infty

  datatype Cell = Label(index: Index) | Capability(index: Index) | NA

  /** What is passed in a place for a capability: the caller's capability, and the caller's labels
      that stand in for it for some effects. */
  datatype Passed = Passed(cap: Option<Index>, labels: seq<(Index, nat)>)

  datatype Metadata = Metadata(captured: Passed, caps: seq<Passed>, labels: seq<Index>)

  /** List.find_opt for the label of an effect. */
  function LabelFor(labels: seq<(Index, nat)>, effect: nat): (r: Option<Index>)
    ensures r.Some? ==> exists i :: 0 <= i < |labels| && labels[i] == (r.value, effect)
                                    && forall j :: 0 <= j < i ==> labels[j].1 != effect
    ensures r.None? ==> forall i :: 0 <= i < |labels| ==> labels[i].1 != effect
  {
    if labels == [] then None
    else if labels[0].1 == effect then assert labels[0] == (labels[0].0, effect); Some(labels[0].0)
    else
      var r := LabelFor(labels[1..], effect);
      assert forall i :: 0 < i < |labels| ==> labels[i] == labels[1..][i - 1];
      r
  }

  /** A label for the effect goes before the capability. */
  function Resolve(p: Passed, effect: nat): (cell: Cell)
    ensures cell.Label? <==> exists i :: 0 <= i < |p.labels| && p.labels[i].1 == effect
  {
    match LabelFor(p.labels, effect)
    case Some(li) => Label(li)
    case None =>
      match p.cap
      case Some(ci) => Capability(ci)
      case None => NA
  }

  // ----- the cells -----

  function LabelCells(labels: seq<Index>): (cells: seq<Cell>)
    ensures |cells| == |labels| && forall i :: 0 <= i < |labels| ==> cells[i] == Label(labels[i])
  {
    if labels == [] then [] else [Label(labels[0])] + LabelCells(labels[1..])
  }

  /** The cells of the capabilities in front of the others. */
  function CapCells(caps: seq<Passed>, effect: nat, others: seq<Cell>): (cells: seq<Cell>)
    ensures |cells| == |caps| + |others| && cells[|caps|..] == others
    ensures forall i :: 0 <= i < |caps| ==> cells[i] == Resolve(caps[i], effect)
    decreases |caps|
  {
    if caps == [] then others else [Resolve(caps[0], effect)] + CapCells(caps[1..], effect, others)
  }

  function Line(md: Metadata, effect: nat): (cells: seq<Cell>)
    ensures |cells| == Width(md)
  {
    [Resolve(md.captured, effect)] + CapCells(md.caps, effect, LabelCells(md.labels))
  }

  function Width(md: Metadata): nat
  {
    1 + |md.caps| + |md.labels|
  }

  function Lines(md: Metadata, n: nat): (cells: seq<Cell>)
    ensures |cells| == n * Width(md)
  {
    if n == 0 then [] else Lines(md, n - 1) + Line(md, n - 1)
  }

  /** hopper. */
  method MakeHopper(md: Metadata) returns (caps: nat, labels: nat, cells: seq<Cell>)
    ensures caps == |md.caps| && labels == |md.labels| && cells == Lines(md, 16)
  {
    hide Line;
    cells := [];
    for effect := 0 to 16
      invariant cells == Lines(md, effect)
    {
      cells := cells + Line(md, effect);
    }
    caps, labels := |md.caps|, |md.labels|;
  }

  /** Cell j of the line of an effect. */
  function CellAt(cells: seq<Cell>, w: nat, effect: nat, j: nat): Cell
    requires j < w && effect * w + j < |cells|
  {
    cells[effect * w + j]
  }

  lemma {:induction false} LinesAt(md: Metadata, n: nat, effect: nat, j: nat)
    requires effect < n && j < Width(md)
    ensures effect * Width(md) + j < |Lines(md, n)|
    ensures CellAt(Lines(md, n), Width(md), effect, j) == Line(md, effect)[j]
  {
    hide Line;
    LineStep(Width(md), effect, n);
    if effect < n - 1 {
      LinesAt(md, n - 1, effect, j);
    }
  }

  // ----- constant hoppers -----

  /** A cell that leaves its own place as it is, or marks it as never reached. */
  predicate Stays(caps: nat, j: nat, cell: Cell)
  {
    cell == NA || if j == 0 then cell == Label(Infty) || cell == Capability(Infty)
                  else cell == if j <= caps then Capability(At(j - 1)) else Label(At(j - 1 - caps))
  }

  predicate Whole(cells: seq<Cell>, w: nat)
  {
    |cells| == 16 * w
  }

  lemma InWhole(cells: seq<Cell>, w: nat, effect: nat, j: nat)
    requires Whole(cells, w) && effect < 16 && j < w
    ensures effect * w + j < |cells|
  {
    LineStep(w, effect, 16);
  }

  ghost predicate Constant(caps: nat, w: nat, cells: seq<Cell>)
  {
    forall effect: nat, j: nat :: effect < 16 && j < w && effect * w + j < |cells| ==>
      Stays(caps, j, CellAt(cells, w, effect, j))
  }

  /** The match of hopper_is_const at one place: what is left of the table, or None. */
  function Matched(caps: nat, j: nat, table: seq<Cell>): (rest: Option<seq<Cell>>)
    ensures rest.Some? <==> table != [] && Stays(caps, j, table[0])
    ensures rest.Some? ==> rest.value == table[1..]
  {
    if table == [] then None
    else if j == 0 then
      (match table[0]
       case Label(Infty) => Some(table[1..])
       case Capability(Infty) => Some(table[1..])
       case NA => Some(table[1..])
       case _ => None)
    else if j <= caps then
      (match table[0]
       case Capability(At(i)) => if i == j - 1 then Some(table[1..]) else None
       case NA => Some(table[1..])
       case _ => None)
    else
      (match table[0]
       case Label(At(i)) => if i == j - 1 - caps then Some(table[1..]) else None
       case NA => Some(table[1..])
       case _ => None)
  }

  ghost predicate UpTo(caps: nat, w: nat, cells: seq<Cell>, effect: nat, j: nat)
  {
    forall e: nat, k: nat :: k < w && (e < effect || (e == effect && k < j)) && e * w + k < |cells| ==>
      Stays(caps, k, CellAt(cells, w, e, k))
  }

  /** Before place j of the line of effect: as long as every cell stays, the table is what follows. */
  ghost predicate Scanned(caps: nat, w: nat, cells: seq<Cell>, effect: nat, j: nat, table: seq<Cell>, isConst: bool)
  {
    if isConst then effect * w + j <= |cells| && table == cells[effect * w + j..] && UpTo(caps, w, cells, effect, j)
    else !Constant(caps, w, cells)
  }

  lemma ScanStep(caps: nat, w: nat, cells: seq<Cell>, effect: nat, j: nat, table: seq<Cell>, isConst: bool)
    requires Whole(cells, w) && effect < 16 && j < w && Scanned(caps, w, cells, effect, j, table, isConst)
    ensures var m := Matched(caps, j, table);
            Scanned(caps, w, cells, effect, j + 1, if m.Some? then m.value else table, isConst && m.Some?)
  {
    hide Stays, Matched;
    InWhole(cells, w, effect, j);
    if isConst {
      assert table[0] == CellAt(cells, w, effect, j);
    }
  }

  lemma ScanLine(caps: nat, w: nat, cells: seq<Cell>, effect: nat, table: seq<Cell>, isConst: bool)
    requires Scanned(caps, w, cells, effect, w, table, isConst)
    ensures Scanned(caps, w, cells, effect + 1, 0, table, isConst)
  {
    hide Stays;
    assert effect * w + w == (effect + 1) * w;
  }

  lemma ScanEnd(caps: nat, w: nat, cells: seq<Cell>, table: seq<Cell>, isConst: bool)
    requires Scanned(caps, w, cells, 16, 0, table, isConst)
    ensures isConst <==> Constant(caps, w, cells)
  {
    hide Stays;
  }

  /** hopper_is_const. */
  method IsConst(caps: nat, labels: nat, cells: seq<Cell>) returns (isConst: bool)
    requires Whole(cells, 1 + caps + labels)
    ensures isConst <==> Constant(caps, 1 + caps + labels, cells)
  {
    hide Matched, Scanned, Constant;
    ghost var w := 1 + caps + labels;
    var table := cells;
    isConst := true;
    ScanStart(caps, w, cells);
    for effect := 0 to 16
      invariant Scanned(caps, w, cells, effect, 0, table, isConst)
    {
      ScanStep(caps, w, cells, effect, 0, table, isConst);
      var first := Matched(caps, 0, table);
      table, isConst := if first.Some? then first.value else table, isConst && first.Some?;
      for cap := 0 to caps
        invariant Scanned(caps, w, cells, effect, 1 + cap, table, isConst)
      {
        ScanStep(caps, w, cells, effect, 1 + cap, table, isConst);
        var next := Matched(caps, 1 + cap, table);
        table, isConst := if next.Some? then next.value else table, isConst && next.Some?;
      }
      for place := 0 to labels
        invariant Scanned(caps, w, cells, effect, 1 + caps + place, table, isConst)
      {
        ScanStep(caps, w, cells, effect, 1 + caps + place, table, isConst);
        var next := Matched(caps, 1 + caps + place, table);
        table, isConst := if next.Some? then next.value else table, isConst && next.Some?;
      }
      ScanLine(caps, w, cells, effect, table, isConst);
    }
    ScanEnd(caps, w, cells, table, isConst);
  }

  lemma ScanStart(caps: nat, w: nat, cells: seq<Cell>)
    ensures Scanned(caps, w, cells, 0, 0, cells, true)
  {
  }

  // ----- the digits -----

  /** The format %X. */
  function Hex(i: nat): seq<Digit>
  {
    if i < 16 then [i] else Hex(i / 16) + [i % 16]
  }

  function CellDigits(cell: Cell): seq<Digit>
  {
    match cell
    case Label(At(i)) => [0] + Hex(i)
    case Label(Infty) => [2, 0]
    case Capability(At(i)) => [1] + Hex(i)
    case Capability(Infty) => [2, 0]
    case NA => [15, 15]
  }

  function Text(cells: seq<Cell>): seq<Digit>
  {
    if cells == [] then [] else CellDigits(cells[0]) + Text(cells[1..])
  }

  predicate SmallIndex(x: Index)
  {
    x.At? ==> x.i < 16
  }

  predicate SmallCell(cell: Cell)
  {
    match cell
    case Label(x) => SmallIndex(x)
    case Capability(x) => SmallIndex(x)
    case NA => true
  }

  /** The two digits of a cell as the walker takes them apart. */
  function CellClue(sig: nat, cell: Cell): Clue
  {
    match cell
    case Label(At(i)) => Clue(sig, 0, i)
    case Capability(At(i)) => Clue(sig, 1, i)
    case NA => Clue(sig, 15, 15)
    case _ => Clue(sig, 2, 0)
  }

  lemma {:induction false} HexOne(i: nat)
    ensures |Hex(i)| >= 1 && (|Hex(i)| == 1 <==> i < 16)
  {
    if i >= 16 {
      HexOne(i / 16);
    }
  }

  /** Every cell takes two digits if and only if no index needs two. */
  lemma {:induction false} TextLength(cells: seq<Cell>)
    ensures |Text(cells)| >= 2 * |cells|
    ensures |Text(cells)| == 2 * |cells| <==> forall i :: 0 <= i < |cells| ==> SmallCell(cells[i])
  {
    if cells != [] {
      if cells[0] != NA && cells[0].index.At? {
        HexOne(cells[0].index.i);
      }
      assert |CellDigits(cells[0])| >= 2 && (|CellDigits(cells[0])| == 2 <==> SmallCell(cells[0]));
      TextLength(cells[1..]);
      assert (forall i :: 0 <= i < |cells| ==> SmallCell(cells[i])) <==>
             SmallCell(cells[0]) && forall i :: 0 <= i < |cells[1..]| ==> SmallCell(cells[1..][i]);
    }
  }

  lemma {:induction false} TextByte(cells: seq<Cell>, k: nat)
    requires (forall i :: 0 <= i < |cells| ==> SmallCell(cells[i])) && k < |cells|
    ensures Digits(Text(cells), k) == 16 * CellClue(0, cells[k]).typ + CellClue(0, cells[k]).idx
  {
    TextLength(cells[1..]);
    var first, rest := CellDigits(cells[0]), Text(cells[1..]);
    assert |first| == 2 && Text(cells) == first + rest;
    if k > 0 {
      TextByte(cells[1..], k - 1);
      assert (first + rest)[2 * k] == rest[2 * (k - 1)] && (first + rest)[2 * k + 1] == rest[2 * (k - 1) + 1];
    }
  }

  // ----- from the cells to the walker -----

  /** parse_hopper: the row of a call site holds the number of capabilities and labels, whether the
      hopper is constant, and the digits of all lines. */
  ghost predicate WrittenFor(r: Row, md: Metadata)
  {
    && r.caps == |md.caps| && r.labels == |md.labels|
    && (r.isConst <==> Constant(|md.caps|, Width(md), Lines(md, 16)))
    && r.md == Text(Lines(md, 16))
  }

  /** Indices of one digit, and lines that the 272 bytes of a row have room for. */
  ghost predicate Small(md: Metadata)
  {
    |md.caps| + |md.labels| <= 16 && forall k :: 0 <= k < |Lines(md, 16)| ==> SmallCell(Lines(md, 16)[k])
  }

  /** A slot of what is called, or, as type 2, its captured environment. */
  predicate SlotOf(md: Metadata, c: Clue)
  {
    c.sig < 16 && ((c.typ == 0 && c.idx < |md.labels|) || (c.typ == 1 && c.idx < |md.caps|)
                   || (c.typ == 2 && c.idx == 0))
  }

  /** What the call passes in a slot. */
  function CellOf(md: Metadata, c: Clue): Cell
    requires SlotOf(md, c)
  {
    if c.typ == 0 then Label(md.labels[c.idx])
    else if c.typ == 1 then Resolve(md.caps[c.idx], c.sig)
    else Resolve(md.captured, c.sig)
  }

  /** Where a slot stands in its line. */
  lemma CellInLine(md: Metadata, c: Clue) returns (j: nat)
    requires SlotOf(md, c)
    ensures j < Width(md) && Line(md, c.sig)[j] == CellOf(md, c)
    ensures j == if c.typ == 0 then 1 + |md.caps| + c.idx else if c.typ == 1 then 1 + c.idx else 0
  {
    var cells := CapCells(md.caps, c.sig, LabelCells(md.labels));
    if c.typ == 0 {
      j := 1 + |md.caps| + c.idx;
      assert cells[|md.caps|..][c.idx] == Label(md.labels[c.idx]);
    } else if c.typ == 1 {
      j := 1 + c.idx;
    } else {
      j := 0;
    }
  }

  lemma SlotCell(r: Row, md: Metadata, c: Clue)
    requires r.caps == |md.caps| && r.labels == |md.labels| && SlotOf(md, c)
    ensures HopperIndex(r, c) < |Lines(md, 16)| && Lines(md, 16)[HopperIndex(r, c)] == CellOf(md, c)
    ensures |md.caps| + |md.labels| <= 16 ==> HopperIndex(r, c) < HOPPER
  {
    hide Line, Lines, CellOf;
    var j := CellInLine(md, c);
    hide SlotOf, Resolve;
    LinesAt(md, 16, c.sig, j);
    assert HopperIndex(r, c) == c.sig * Width(md) + j;
    if |md.caps| + |md.labels| <= 16 {
      LineBound(Width(md), c.sig);
    }
  }

  lemma ConstantSlot(md: Metadata, c: Clue)
    requires Constant(|md.caps|, Width(md), Lines(md, 16)) && SlotOf(md, c)
    ensures CellOf(md, c) == NA || CellClue(c.sig, CellOf(md, c)) == c
  {
    hide Line, Lines, CellOf, Constant;
    var j := CellInLine(md, c);
    LinesAt(md, 16, c.sig, j);
    ConstantAt(|md.caps|, Width(md), Lines(md, 16), c.sig, j);
  }

  lemma ConstantAt(caps: nat, w: nat, cells: seq<Cell>, effect: nat, j: nat)
    requires Constant(caps, w, cells) && effect < 16 && j < w && effect * w + j < |cells|
    ensures Stays(caps, j, CellAt(cells, w, effect, j))
  {
  }

  /** The byte that UPDATE_CLUE reads for a slot of the callee is that of the cell that was written for
      it; where it reads none, because the hopper is constant, the slot is the caller's own. */
  lemma ReadsCell(r: Row, md: Metadata, c: Clue)
    requires WrittenFor(r, md) && Small(md) && SlotOf(md, c)
    ensures HopperIndex(r, c) < HOPPER && |r.md| == 32 * Width(md)
    ensures var d := CellClue(c.sig, CellOf(md, c));
            Digits(r.md, HopperIndex(r, c)) == 16 * d.typ + d.idx && d.typ < 16 && d.idx < 16
    ensures r.isConst ==> CellOf(md, c) == NA || CellClue(c.sig, CellOf(md, c)) == c
  {
    hide Lines, Text, Digits, CellOf, HopperIndex, Constant, Width, Resolve, LabelFor;
    SlotCell(r, md, c);
    TextLength(Lines(md, 16));
    TextByte(Lines(md, 16), HopperIndex(r, c));
    if r.isConst {
      ConstantSlot(md, c);
    }
  }
}
