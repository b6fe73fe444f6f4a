/**
  The zero-cost stack walker (src/stackwalk/stackwalk.c) against evidence passing.

  A chain lists the return addresses that the walker meets, innermost first. Under evidence
  passing every activation would hold an environment that assigns a handler to each of its
  slots; here the environment is what the compiler never materialises and the walker has to
  reconstruct by rewriting a clue through the hopper of each call site.
 */
module Evidence {
  import opened Options
  import opened ClueTable

  /** What one return address says: its table row, the environment of the activation that it
      returns into, and, when that activation raised to a tail handler, the clue of the raise.
      Handlers are named by the position of their install site in the chain. */
  datatype Act = Act(row: Row, env: map<Clue, nat>, raised: Clue)

  predicate IsLabel0(c: Clue)
  {
    c.typ == 0 && c.idx == 0
  }

  /** The hopper has a byte for the clue; constant rows never read it. */
  predicate Fits(r: Row, c: Clue)
  {
    r.isConst || HopperIndex(r, c) < HOPPER
  }

  /** UPDATE_CLUE. */
  function Map(r: Row, c: Clue): (d: Clue)
    ensures d.sig == c.sig
  {
    if r.isConst then c
    else Clue(c.sig, Digits(r.md, HopperIndex(r, c)) / 16, Digits(r.md, HopperIndex(r, c)) % 16)
  }

  /** A slot as programs have them: labels, capabilities and, as type 2, the captured environment; the
      digits 15, 15 mark what is never reached. */
  predicate Slot(c: Clue)
  {
    c.sig < 16 && ((c.typ <= 1 && c.idx < 16) || (c.typ == 2 && c.idx == 0))
  }

  // ----- evidence passing -----

  /** The handler that whatever call site j calls has in slot c: at an install site label 0 of
      the body is the new handler, every other slot is the caller's slot named by the hopper. */
  function Callee(acts: seq<Act>, j: nat, c: Clue): (r: Option<nat>)
    requires j < |acts|
  {
    if acts[j].row.handler && IsLabel0(c) then Some(j)
    else if Fits(acts[j].row, c) && Map(acts[j].row, c) in acts[j].env then Some(acts[j].env[Map(acts[j].row, c)])
    else None
  }

  /** Activation j runs the operation clause of a tail handler. */
  predicate InClause(a: Act)
  {
    a.row.inTail
  }

  /** Activation j, called from site j + 1, got its environment right. The clause of a tail
      handler lives in the environment of the handler's install site; its caller raised. */
  ghost predicate EnvRight(acts: seq<Act>, j: nat)
    requires j + 1 < |acts|
  {
    var env := acts[j].env;
    if InClause(acts[j]) then
      Slot(acts[j + 1].raised) && exists m ::
            Callee(acts, j + 1, acts[j + 1].raised) == Some(m) && ClauseEnv(acts, env, m)
    else
      forall c :: c in env ==> Callee(acts, j + 1, c) == Some(env[c])
  }

  ghost predicate ClauseEnv(acts: seq<Act>, env: map<Clue, nat>, m: nat)
  {
    m < |acts| && forall c :: c in env ==>
      Fits(acts[m].row, c) && Map(acts[m].row, c) in acts[m].env && acts[m].env[Map(acts[m].row, c)] == env[c]
  }

  /** All environments are those of evidence passing: handlers in scope are installed further
      out, and every call passes on what its hopper says. */
  ghost predicate EvidencePassed(acts: seq<Act>)
  {
    && (forall j :: 0 <= j < |acts| ==> forall c :: c in acts[j].env ==>
          Slot(c) && j < acts[j].env[c] < |acts| && acts[acts[j].env[c]].row.handler)
    && (forall j :: 0 <= j && j + 1 < |acts| ==> EnvRight(acts, j))
  }

  // ----- the walker -----

  /** The walk from site j on with clue c, the clues saved while crossing tail clauses in saved. Past
      an install site inside a tail clause the loop does not keep to the chain; see Straight. */
  function Walk(acts: seq<Act>, j: nat, c: Clue, saved: seq<Clue>): Option<nat>
    decreases |acts| - j
  {
    if j >= |acts| then None else
    var row := acts[j].row;
    if row.handler then
      if IsLabel0(c) && saved == [] then Some(j) else
      var c1 := if IsLabel0(c) then saved[0] else c;
      var saved1 := if IsLabel0(c) then saved[1..] else saved;
      if Fits(row, c1) then Walk(acts, j + 1, Map(row, c1), saved1) else None
    else if row.inTail then
      if j + 1 < |acts| then Walk(acts, j + 1, acts[j + 1].raised, [c] + saved) else None
    else
      if Fits(row, c) then Walk(acts, j + 1, Map(row, c), saved) else None
  }

  /** The hopper keeps every slot in place. */
  ghost predicate Transparent(r: Row)
  {
    forall c :: Slot(c) && Fits(r, c) && Slot(Map(r, c)) ==> Map(r, c) == c
  }

  /** No slot but label 0, which is the new handler, is passed on to the body. */
  ghost predicate Hides(r: Row)
  {
    forall c :: Slot(c) && !IsLabel0(c) && Fits(r, c) ==> !Slot(Map(r, c))
  }

  /** Calls inside the clause of a tail handler go through hoppers that keep every slot in place. */
  ghost predicate TailRowsOk(acts: seq<Act>)
  {
    forall j :: 0 <= j < |acts| && acts[j].row.inTail && !acts[j].row.handler ==> Transparent(acts[j].row)
  }

  /** The walk leaves no site that is an install site inside a tail clause: it ends there, or never
      gets there. */
  predicate Straight(acts: seq<Act>, j: nat, c: Clue, saved: seq<Clue>)
    decreases |acts| - j
  {
    if j >= |acts| then true else
    var row := acts[j].row;
    if row.handler then
      if IsLabel0(c) && saved == [] then true else
      var c1 := if IsLabel0(c) then saved[0] else c;
      var saved1 := if IsLabel0(c) then saved[1..] else saved;
      !row.inTail && (Fits(row, c1) ==> Straight(acts, j + 1, Map(row, c1), saved1))
    else if row.inTail then
      j + 1 < |acts| ==> Straight(acts, j + 1, acts[j + 1].raised, [c] + saved)
    else
      Fits(row, c) ==> Straight(acts, j + 1, Map(row, c), saved)
  }

  /** Once handler m is found, each saved clue is looked up where that handler was installed. */
  ghost predicate Pending(acts: seq<Act>, m: nat, saved: seq<Clue>)
    decreases |saved|
  {
    saved == [] ||
    (m < |acts| && acts[m].row.handler && Slot(saved[0]) && Fits(acts[m].row, saved[0])
     && Map(acts[m].row, saved[0]) in acts[m].env &&
     Pending(acts, acts[m].env[Map(acts[m].row, saved[0])], saved[1..]))
  }

  ghost function After(acts: seq<Act>, m: nat, saved: seq<Clue>): nat
    requires Pending(acts, m, saved)
    decreases |saved|
  {
    if saved == [] then m else After(acts, acts[m].env[Map(acts[m].row, saved[0])], saved[1..])
  }

  /** Leaving an ordinary call: the slot means the same handler one site further out. */
  lemma StepOut(acts: seq<Act>, j: nat, d: Clue)
    requires EvidencePassed(acts) && j < |acts| && !acts[j].row.inTail && d in acts[j].env
    ensures Slot(d) && j + 1 < |acts| && Callee(acts, j + 1, d) == Some(acts[j].env[d])
  {
    assert EnvRight(acts, j);
  }

  lemma FoundIsHandler(acts: seq<Act>, j: nat, c: Clue, m: nat)
    requires EvidencePassed(acts) && j < |acts| && Callee(acts, j, c) == Some(m)
    ensures m < |acts| && acts[m].row.handler
  {
  }

  lemma InEnv(acts: seq<Act>, j: nat, c: Clue)
    requires EvidencePassed(acts) && j < |acts| && c in acts[j].env
    ensures j + 1 < |acts| && EnvRight(acts, j)
  {
    hide EnvRight;
  }

  /** Leaving the clause of a tail handler: the walk turns to the clue of the raise, and the
      handler m' found for it is where the saved clue is to be looked up. */
  lemma StepOutOfClause(acts: seq<Act>, j: nat, c: Clue) returns (m': nat)
    requires EvidencePassed(acts) && j < |acts| && acts[j].row.inTail && c in acts[j].env
    ensures j + 1 < |acts| && Slot(acts[j + 1].raised) && Callee(acts, j + 1, acts[j + 1].raised) == Some(m')
    ensures m' < |acts| && acts[m'].row.handler && ClauseEnv(acts, acts[j].env, m')
  {
    InEnv(acts, j, c);
    hide EvidencePassed;
    m' :| Callee(acts, j + 1, acts[j + 1].raised) == Some(m') && ClauseEnv(acts, acts[j].env, m');
    FoundIsHandler(acts, j + 1, acts[j + 1].raised, m');
  }

  lemma CalleeIn(acts: seq<Act>, j: nat, c: Clue, m: nat)
    requires EvidencePassed(acts) && j < |acts| && Callee(acts, j, c) == Some(m)
    requires !(acts[j].row.handler && IsLabel0(c))
    ensures Fits(acts[j].row, c) && Map(acts[j].row, c) in acts[j].env && acts[j].env[Map(acts[j].row, c)] == m
    ensures Slot(Map(acts[j].row, c))
  {
    hide EnvRight, Map, Fits, Slot;
  }

  /** At an install site whose own handler is found, with saved clues still to be looked up. */
  lemma PopPending(acts: seq<Act>, j: nat, saved: seq<Clue>) returns (d: Clue, m: nat)
    requires EvidencePassed(acts) && j < |acts| && Pending(acts, j, saved) && saved != [] && !acts[j].row.inTail
    ensures Fits(acts[j].row, saved[0]) && d == Map(acts[j].row, saved[0]) && Slot(d) && j + 1 < |acts|
    ensures Callee(acts, j + 1, d) == Some(m)
    ensures Pending(acts, m, saved[1..]) && After(acts, m, saved[1..]) == After(acts, j, saved)
  {
    hide EvidencePassed, Map, Fits, Slot, Callee;
    d := Map(acts[j].row, saved[0]);
    m := acts[j].env[d];
    StepOut(acts, j, d);
  }

  /** Inside a tail clause the clue is saved, to be looked up where the clause's handler is. */
  lemma PushPending(acts: seq<Act>, j: nat, c: Clue, saved: seq<Clue>, m: nat) returns (m': nat)
    requires EvidencePassed(acts) && j < |acts| && acts[j].row.inTail && c in acts[j].env && acts[j].env[c] == m
    requires Slot(c) && Pending(acts, m, saved)
    ensures j + 1 < |acts| && Slot(acts[j + 1].raised) && Callee(acts, j + 1, acts[j + 1].raised) == Some(m')
    ensures Pending(acts, m', [c] + saved) && After(acts, m', [c] + saved) == After(acts, m, saved)
  {
    m' := StepOutOfClause(acts, j, c);
    hide EvidencePassed, Map, Fits, Slot, Callee;
    assert ([c] + saved)[1..] == saved;
  }

  lemma {:induction false} WalkIsEvidenceFrom(acts: seq<Act>, j: nat, c: Clue, saved: seq<Clue>, m: nat)
    requires EvidencePassed(acts) && TailRowsOk(acts) && j < |acts| && Slot(c) && Straight(acts, j, c, saved)
    requires Callee(acts, j, c) == Some(m) && Pending(acts, m, saved)
    ensures Walk(acts, j, c, saved) == Some(After(acts, m, saved))
    decreases |acts| - j
  {
    var row := acts[j].row;
    assert saved == [] ==> After(acts, m, saved) == m;
    assert row.handler && IsLabel0(c) ==> m == j;
    hide EvidencePassed, Map, Fits, Slot, Pending, After, Callee, IsLabel0;
    if row.handler && IsLabel0(c) {
      if saved != [] {
        var d, m' := PopPending(acts, j, saved);
        WalkIsEvidenceFrom(acts, j + 1, d, saved[1..], m');
      }
    } else {
      CalleeIn(acts, j, c, m);
      if row.inTail {
        assert Transparent(row) && Map(row, c) == c;
        var m' := PushPending(acts, j, c, saved, m);
        WalkIsEvidenceFrom(acts, j + 1, acts[j + 1].raised, [c] + saved, m');
      } else {
        StepOut(acts, j, Map(row, c));
        WalkIsEvidenceFrom(acts, j + 1, Map(row, c), saved, m);
      }
    }
  }

  /** The walker finds exactly the handler that evidence passing would have passed. */
  lemma WalkIsEvidence(acts: seq<Act>, c: Clue, m: nat)
    requires EvidencePassed(acts) && TailRowsOk(acts) && acts != [] && Slot(c) && Straight(acts, 0, c, [])
    requires Callee(acts, 0, c) == Some(m)
    ensures Walk(acts, 0, c, []) == Some(m)
  {
    WalkIsEvidenceFrom(acts, 0, c, [], m);
  }

  // ----- chains with one kind of site inside tail clauses -----

  ghost predicate OnlyTailRow(acts: seq<Act>, row: Row)
  {
    forall j :: 0 <= j < |acts| && acts[j].row.inTail ==> acts[j].row == row
  }

  /** Without install sites in tail clauses every walk is straight. */
  lemma {:induction false} NoInstallIsStraight(acts: seq<Act>, j: nat, c: Clue, saved: seq<Clue>)
    requires forall i :: 0 <= i < |acts| ==> !(acts[i].row.handler && acts[i].row.inTail)
    ensures Straight(acts, j, c, saved)
    decreases |acts| - j
  {
    if j < |acts| {
      hide Map, Fits;
      var row := acts[j].row;
      if row.handler {
        if !(IsLabel0(c) && saved == []) {
          NoInstallIsStraight(acts, j + 1, Map(row, if IsLabel0(c) then saved[0] else c),
                              if IsLabel0(c) then saved[1..] else saved);
        }
      } else if row.inTail {
        if j + 1 < |acts| {
          NoInstallIsStraight(acts, j + 1, acts[j + 1].raised, [c] + saved);
        }
      } else {
        NoInstallIsStraight(acts, j + 1, Map(row, c), saved);
      }
    }
  }

  /** A hidden site is never left when it is the only kind inside tail clauses. */
  lemma {:induction false} HidingIsStraight(acts: seq<Act>, row: Row, j: nat, c: Clue, m: nat)
    requires EvidencePassed(acts) && OnlyTailRow(acts, row) && row.handler && Hides(row)
    requires j < |acts| && Slot(c) && Callee(acts, j, c) == Some(m)
    ensures Straight(acts, j, c, [])
    decreases |acts| - j
  {
    hide EvidencePassed, Map, Fits, Hides;
    var r := acts[j].row;
    if !(r.handler && IsLabel0(c)) {
      CalleeIn(acts, j, c, m);
      if r.inTail {
        HiddenSlot(row, c);
        assert false;
      }
      StepOut(acts, j, Map(r, c));
      HidingIsStraight(acts, row, j + 1, Map(r, c), m);
    }
  }

  lemma HiddenSlot(row: Row, c: Clue)
    requires Hides(row) && Slot(c) && !IsLabel0(c) && Fits(row, c)
    ensures !Slot(Map(row, c))
  {
  }
}
