/**
  A raise from a stack that THROW has copied (src/stacktrek/stacktrek.h): the header is copied with
  the stack, and the walker (src/stackwalk/stackwalk.c) reads its exchanger, which RESUME does not set.
 */
module CopiedHeaders {
  import opened Options
  import opened ClueTable
  import opened Evidence
  import opened Stackwalk
  import opened TailClauses

  /** A handler's body that raises to the handler outside of it is resumed in a copy of its stack. The
      install site of the inner handler passes the outer one on as label 1 of the body. */
  const INNER := Clue(0, 0, 1)

  function CopyTable(): Image
  {
    Image([CallRow(1), PointingAt(2, true, INNER, INNER), CallRow(4), InstallRow(3)], 0, map[])
  }

  /** Innermost first, on the copy: a call that raises, the inner install site; then, on the resumer's
      stack: the call that resumed the copy, the outer install site. */
  function CopyChain(): (acts: seq<Act>)
    ensures |acts| == 4
  {
    [Act(CallRow(1), map[INNER := 3], ENTRY), Act(PointingAt(2, true, INNER, INNER), map[ENTRY := 3], ENTRY),
     Act(CallRow(4), map[ENTRY := 3], ENTRY), Act(InstallRow(3), map[], ENTRY)]
  }

  /** The copy is at 0, its original at 100; shared is the word of the exchanger that both use. */
  function CopyCell(shared: int, i: int): int
  {
    if i == 0 || i == 100 then 1 else if i == 32 || i == 132 then 2
    else if i == 35 || i == 135 then GENERAL
    else if i == 50 then 100 else if i == 150 then shared else if i == 51 || i == 151 then 150
    else if i == 200 then 4 else if i == 232 then 3 else if i == 235 then TAIL else 0
  }

  function CopyWords(shared: int): (m: seq<int>)
    ensures |m| == 260 && forall i :: 0 <= i < 260 ==> m[i] == CopyCell(shared, i)
  {
    seq(260, i => CopyCell(shared, i))
  }

  const COPY_SITES: seq<nat> := [0, 32, 200, 232]

  lemma CopyAddresses()
    ensures var rows := CopyTable().rows;
            FirstRow(rows, 1, 0) == Some(0) && FirstRow(rows, 2, 0) == Some(1) && FirstRow(rows, 4, 0) == Some(2)
                && FirstRow(rows, 3, 0) == Some(3)
  {
    var rows := CopyTable().rows;
    assert FirstRow(rows, 2, 1) == Some(1) && FirstRow(rows, 4, 2) == Some(2) && FirstRow(rows, 4, 1) == Some(2);
    assert FirstRow(rows, 3, 3) == Some(3) && FirstRow(rows, 3, 2) == Some(3) && FirstRow(rows, 3, 1) == Some(3);
  }

  lemma CopyLaid()
    ensures Laid(CopyTable(), CopyWords(200), COPY_SITES, CopyChain())
  {
    hide FirstRow, PointingAt, Fits, Map;
    var g, m, ats, acts := CopyTable(), CopyWords(200), COPY_SITES, CopyChain();
    CopyAddresses();
    forall a: int
      ensures !IsSpare(ats, acts, a)
    {
    }
    hide IsSpare, SiteLaid;
    CallSite(g, m, ats, acts, 0, 0);
    InstallSite(g, m, ats, acts, 3, 3, 235);
    CallSite(g, m, ats, acts, 2, 2);
    CopiedSite();
    forall j | 0 <= j < 3
      ensures LinkLaid(g, m, ats, acts, j)
    {
    }
  }

  lemma CopiedSite()
    ensures SiteLaid(CopyTable(), CopyWords(200), COPY_SITES, CopyChain(), 1)
  {
    hide FirstRow, PointingAt, Fits, Map;
    CopyAddresses();
  }

  lemma CopyCalls()
    ensures var acts := CopyChain();
            && Callee(acts, 0, INNER) == Some(3) && Callee(acts, 1, INNER) == Some(3)
                && Callee(acts, 2, ENTRY) == Some(3) && Callee(acts, 3, ENTRY) == Some(3)
            && forall j :: 0 <= j < 4 ==> !acts[j].row.inTail
  {
    hide PointingAt, Fits, Map;
    StaysPut(1, INNER);
    StaysPut(4, ENTRY);
  }

  lemma CopyIsPassed()
    ensures var acts := CopyChain();
            EvidencePassed(acts) && TailRowsOk(acts) && RaisesOnly(acts) && Straight(acts, 0, INNER, [])
                && Callee(acts, 0, INNER) == Some(3)
  {
    hide PointingAt, Fits, Map, Callee, Straight;
    CopyCalls();
    NoInstallIsStraight(CopyChain(), 0, INNER, []);
  }

  /** The raise that captured the original left the captured stack pointer in its exchanger. The copy
      is made, word for word; then the resumption puts the resumer's stack pointer into the shared
      exchanger, and the copy's own word still leads to the captured stack. A raise in the copy to the
      outer handler finds the inner handler's header, in the original, instead. */
  lemma StaleCopyMisleads() returns (g: Image, copied: seq<int>, mem: seq<int>, ats: seq<nat>, acts: seq<Act>)
    ensures |copied| == 260 && copied[0..52] == copied[100..152] && copied[150] == 100 && mem == copied[150 := 200]
    ensures Laid(g, mem, ats, acts) && |acts| == |ats| == 4 && EvidencePassed(acts) && TailRowsOk(acts)
    ensures RaisesOnly(acts)
    ensures Straight(acts, 0, INNER, []) && Callee(acts, 0, INNER) == Some(3) && Header(g.offs, ats, acts, 3) == 235
    ensures Rounds(g, mem, Pos(ats[0], INNER, 0, false), 4) == Found(135)
  {
    g, copied, mem, ats, acts := CopyTable(), CopyWords(100), CopyWords(200), COPY_SITES, CopyChain();
    hide Laid, EvidencePassed, TailRowsOk, Straight, Callee, FirstRow, PointingAt, Fits, Map;
    CopyLaid();
    CopyIsPassed();
    CopyAddresses();
    StaysPut(1, INNER);
    StaysPut(1, ENTRY);
    LeaveCall(g, mem, Pos(0, INNER, 0, false), 0);
    assert VisitSite(g, mem, Pos(32, INNER, 0, false)) == Next(mem, Pos(100, ENTRY, 0, false));
    LeaveCall(g, mem, Pos(100, ENTRY, 0, false), 0);
    assert Rounds(g, mem, Pos(132, ENTRY, 0, false), 1) == Found(135);
    OneMoreRound(g, mem, Pos(100, ENTRY, 0, false), 1);
    OneMoreRound(g, mem, Pos(32, INNER, 0, false), 2);
    OneMoreRound(g, mem, Pos(0, INNER, 0, false), 3);
  }
}
