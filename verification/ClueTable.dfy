/**
  The clue table: one row per return address, written by src/stackwalk/analyze_binary.py
  as 41 longs and read by src/stackwalk/stackwalk.c. The last 34 longs of a row hold the
  hopper, two hexadecimal digits of metadata per byte, lowest byte first.
 */
module ClueTable {
  import opened Options

  const WIDTH := 41
  const PARTS := 34
  const HOPPER := 272

  /** Hexadecimal digits as numbers. */
  type Digit = d: nat | d < 16

  datatype Row = Row(addr: int, frame: int, handler: bool, inTail: bool, isConst: bool, caps: nat, labels: nat,
                     md: seq<Digit>)

  // ----- the writer -----

  /** The pairs of digits in reverse order, as one string of digits. */
  function ReversedPairs(d: seq<Digit>): seq<Digit>
  {
    if |d| <= 2 then d else ReversedPairs(d[2..]) + d[..2]
  }

  /** int(s, 16). */
  function ParseHex(s: seq<Digit>): nat
  {
    if s == [] then 0 else 16 * ParseHex(s[..|s| - 1]) + s[|s| - 1]
  }

  function Part(md: seq<Digit>): nat
  {
    ParseHex(ReversedPairs(if |md| < 16 then md else md[..16]))
  }

  function Parts(md: seq<Digit>, n: nat): (ps: seq<int>)
    ensures |ps| == n
    decreases n
  {
    if n == 0 then [] else [Part(md)] + Parts(if |md| < 16 then [] else md[16..], n - 1)
  }

  function Flag(b: bool): int
  {
    if b then 1 else 0
  }

  function RowLongs(r: Row): (ls: seq<int>)
    ensures |ls| == WIDTH
  {
    [r.addr, r.frame, Flag(r.handler), Flag(r.inTail), Flag(r.isConst), r.caps, r.labels] + Parts(r.md, PARTS)
  }

  function Flat(rows: seq<Row>): (ls: seq<int>)
    ensures |ls| == WIDTH * |rows|
  {
    if rows == [] then [] else Flat(rows[..|rows| - 1]) + RowLongs(rows[|rows| - 1])
  }

  /** The table as the writer lays it out: the number of rows, then the rows. */
  function Table(rows: seq<Row>): seq<int>
  {
    [|rows|] + Flat(rows)
  }

  /** The writer's loops: rows are appended field by field, the metadata 16 digits at a time. */
  method WriteTable(rows: seq<Row>) returns (flat: seq<int>)
    ensures flat == Table(rows)
  {
    hide Parts, RowLongs, Flat;
    flat := [|rows|];
    for i := 0 to |rows|
      invariant flat == [|rows|] + Flat(rows[..i])
    {
      var longs := WriteRow(rows[i]);
      FlatSnoc(rows, i);
      flat := flat + longs;
    }
    assert rows[..|rows|] == rows;
  }

  lemma FlatSnoc(rows: seq<Row>, i: nat)
    requires i < |rows|
    ensures Flat(rows[..i + 1]) == Flat(rows[..i]) + RowLongs(rows[i])
  {
    assert rows[..i + 1][..i] == rows[..i];
  }

  lemma PartsStep(done: seq<int>, md: seq<Digit>, n: nat)
    requires n > 0
    ensures done + Parts(md, n) == done + [Part(md)] + Parts(if |md| < 16 then [] else md[16..], n - 1)
  {
  }

  method WriteRow(r: Row) returns (flat: seq<int>)
    ensures flat == RowLongs(r)
  {
    hide Part, Parts;
    flat := [r.addr, r.frame, Flag(r.handler), Flag(r.inTail), Flag(r.isConst), r.caps, r.labels];
    var parts: seq<int> := [];
    var md := r.md;
    for j := 0 to PARTS
      invariant parts + Parts(md, PARTS - j) == Parts(r.md, PARTS)
    {
      PartsStep(parts, md, PARTS - j);
      parts := parts + [Part(md)];
      md := if |md| < 16 then [] else md[16..];
    }
    flat := flat + parts;
  }

  // ----- the reader -----

  /** entry[f] of row i. */
  function Entry(t: seq<int>, i: nat, f: nat): int
    requires f < WIDTH && WIDTH * i + 1 + f < |t|
  {
    t[WIDTH * i + 1 + f]
  }

  /** Byte k of a long, lowest first. */
  function ByteOf(w: int, k: nat): int
    decreases k
  {
    if k == 0 then w % 256 else ByteOf(w / 256, k - 1)
  }

  /** hopper_clue[k] of row i. */
  function HopperByte(t: seq<int>, i: nat, k: nat): int
    requires k < HOPPER && WIDTH * i + 1 + 7 + k / 8 < |t|
  {
    ByteOf(t[WIDTH * i + 1 + 7 + k / 8], k % 8)
  }

  function Pair(hi: nat, lo: nat): nat
  {
    16 * hi + lo
  }

  /** Two digits of metadata; what the metadata leaves out is 0. */
  function Digits(md: seq<Digit>, k: nat): (b: nat)
    ensures b < 256
  {
    if 2 * k + 1 < |md| then Pair(md[2 * k], md[2 * k + 1]) else 0
  }

  // ----- round trip -----

  lemma ParseHexPair(s: seq<Digit>, x: Digit, y: Digit)
    ensures ParseHex(s + [x, y]) == 256 * ParseHex(s) + Pair(x, y)
  {
    assert (s + [x, y])[..|s| + 1] == s + [x];
    assert (s + [x])[..|s|] == s;
  }

  lemma ByteShift(w: nat, b: nat, k: nat)
    requires b < 256
    ensures ByteOf(256 * w + b, 0) == b && ByteOf(256 * w + b, k + 1) == ByteOf(w, k)
  {
    assert (256 * w + b) % 256 == b && (256 * w + b) / 256 == w;
  }

  lemma {:induction false} ByteOfZero(k: nat)
    ensures ByteOf(0, k) == 0
  {
    if k > 0 {
      ByteOfZero(k - 1);
    }
  }

  /** Byte k of a part is the k-th pair of its digits. */
  lemma {:induction false} PartBytes(d: seq<Digit>, k: nat)
    requires |d| % 2 == 0
    ensures ByteOf(ParseHex(ReversedPairs(d)), k) == Digits(d, k)
    decreases |d|
  {
    if |d| == 0 {
      ByteOfZero(k);
    } else {
      var rest := d[2..];
      if |d| == 2 {
        assert [] + [d[0], d[1]] == d && rest == [];
        ParseHexPair([], d[0], d[1]);
        ByteShift(0, Pair(d[0], d[1]), if k == 0 then 0 else k - 1);
        ByteOfZero(if k == 0 then 0 else k - 1);
      } else {
        assert d[..2] == [d[0], d[1]];
        ParseHexPair(ReversedPairs(rest), d[0], d[1]);
        ByteShift(ParseHex(ReversedPairs(rest)), Pair(d[0], d[1]), if k == 0 then 0 else k - 1);
        if k > 0 {
          PartBytes(rest, k - 1);
        }
      }
    }
  }

  lemma {:induction false} PartsBytes(md: seq<Digit>, n: nat, k: nat)
    requires |md| % 2 == 0 && k < 8 * n
    ensures ByteOf(Parts(md, n)[k / 8], k % 8) == Digits(md, k)
    decreases n
  {
    var now := if |md| < 16 then md else md[..16];
    if k < 8 {
      PartBytes(now, k);
    } else {
      PartsBytes(if |md| < 16 then [] else md[16..], n - 1, k - 8);
      assert k / 8 == (k - 8) / 8 + 1;
    }
  }

  lemma {:induction false} FlatAt(rows: seq<Row>, i: nat, f: nat)
    requires i < |rows| && f < WIDTH
    ensures WIDTH * i + f < |Flat(rows)| && Flat(rows)[WIDTH * i + f] == RowLongs(rows[i])[f]
  {
    hide RowLongs;
    assert Flat(rows) == Flat(rows[..|rows| - 1]) + RowLongs(rows[|rows| - 1]);
    if i < |rows| - 1 {
      FlatAt(rows[..|rows| - 1], i, f);
    }
  }

  /** Reading row i of a written table gives back its seven fields and every hopper byte. */
  lemma TableRoundTrip(rows: seq<Row>, i: nat, k: nat)
    requires i < |rows| && |rows[i].md| % 2 == 0 && k < HOPPER
    ensures WIDTH * i + WIDTH < |Table(rows)| && Table(rows)[0] == |rows|
    ensures Entry(Table(rows), i, 0) == rows[i].addr && Entry(Table(rows), i, 1) == rows[i].frame
    ensures Entry(Table(rows), i, 2) == Flag(rows[i].handler) && Entry(Table(rows), i, 3) == Flag(rows[i].inTail)
    ensures Entry(Table(rows), i, 4) == Flag(rows[i].isConst)
    ensures Entry(Table(rows), i, 5) == rows[i].caps && Entry(Table(rows), i, 6) == rows[i].labels
    ensures HopperByte(Table(rows), i, k) == Digits(rows[i].md, k)
  {
    hide Parts, Flat, ByteOf;
    forall f: nat | f < WIDTH
      ensures WIDTH * i + 1 + f < |Table(rows)| && Entry(Table(rows), i, f) == RowLongs(rows[i])[f]
    {
      FlatAt(rows, i, f);
    }
    PartsBytes(rows[i].md, PARTS, k);
    assert Entry(Table(rows), i, 7 + k / 8) == Parts(rows[i].md, PARTS)[k / 8];
  }

  /** The same word by word: 41 for each row, after the number of rows; the last 34 hold the hopper. */
  lemma TableLayout(rows: seq<Row>, i: nat, k: nat)
    requires i < |rows| && |rows[i].md| % 2 == 0 && k < 272
    ensures |Table(rows)| == 1 + 41 * |rows| && Table(rows)[0] == |rows| && 41 * i + 41 < |Table(rows)|
    ensures var t, r := Table(rows), rows[i];
            && t[41 * i + 1] == r.addr && t[41 * i + 2] == r.frame && t[41 * i + 3] == Flag(r.handler)
            && t[41 * i + 4] == Flag(r.inTail) && t[41 * i + 5] == Flag(r.isConst)
            && t[41 * i + 6] == r.caps && t[41 * i + 7] == r.labels
            && ByteOf(t[41 * i + 8 + k / 8], k % 8) == Digits(r.md, k)
  {
    TableRoundTrip(rows, i, k);
    hide Flat, ByteOf, Digits;
  }

  // ----- slots within a hopper -----

  datatype Clue = Clue(sig: nat, typ: nat, idx: nat)

  /** The byte that UPDATE_CLUE reads: a line per signature, the capabilities before the labels. */
  function HopperIndex(r: Row, c: Clue): nat
  {
    c.sig * (1 + r.caps + r.labels) + SlotOffset(r, c)
  }

  function SlotOffset(r: Row, c: Clue): nat
  {
    if c.typ == 0 then 1 + r.caps + c.idx else if c.typ == 1 then 1 + c.idx else 0
  }

  /** A slot that the callee of this row has; type 2 is its captured environment. */
  predicate InRange(r: Row, c: Clue)
  {
    c.sig < 16 && c.typ <= 2 && c.idx < (if c.typ == 0 then r.labels else if c.typ == 1 then r.caps else 1)
  }

  lemma {:induction false} LineStep(w: nat, a: nat, b: nat)
    requires a < b
    ensures a * w + w <= b * w
  {
    if a + 1 < b {
      LineStep(w, a, b - 1);
    }
    assert b * w == (b - 1) * w + w;
  }

  lemma LineUnique(w: nat, a: nat, oa: nat, b: nat, ob: nat)
    requires oa < w && ob < w && a * w + oa == b * w + ob
    ensures a == b && oa == ob
  {
    if a < b {
      LineStep(w, a, b);
    } else if b < a {
      LineStep(w, b, a);
    }
  }

  lemma LineBound(w: nat, a: nat)
    requires a <= 15 && w <= 17
    ensures a * w <= 255
  {
    assert a * w <= 15 * w;
  }

  /** Distinct slots have distinct bytes, all inside the row. */
  lemma SlotsDistinct(r: Row, c: Clue, d: Clue)
    requires r.caps + r.labels <= 16 && InRange(r, c) && InRange(r, d)
    ensures HopperIndex(r, c) < 272
    ensures HopperIndex(r, c) == HopperIndex(r, d) <==> c == d
  {
    var w := 1 + r.caps + r.labels;
    LineBound(w, c.sig);
    if HopperIndex(r, c) == HopperIndex(r, d) {
      LineUnique(w, c.sig, SlotOffset(r, c), d.sig, SlotOffset(r, d));
    }
  }
}
