/**
  Which of two opened files the driver concatenates first (src/bin/main.ml): the one that comes
  first when the open declarations are followed depth first, in the order in which they stand.
 */
module OpenTraces {
  import opened Options
  import opened OpenOrder

  /** The name that a trace leads to: at every file the number of one of its open declarations. */
  function Follow(opens: Name -> seq<Name>, n: Name, trace: seq<nat>): Option<Name>
    decreases |trace|
  {
    if trace == [] then Some(n)
    else if trace[0] < |opens(n)| then Follow(opens, opens(n)[trace[0]], trace[1..])
    else None
  }

  /** At the first declaration in which they differ d takes an earlier one, or d goes on where e ends. */
  predicate Before(d: seq<nat>, e: seq<nat>)
    decreases |d|
  {
    d != [] && (e == [] || d[0] < e[0] || (d[0] == e[0] && Before(d[1..], e[1..])))
  }

  lemma {:induction false} BeforeOneWay(d: seq<nat>, e: seq<nat>)
    requires Before(d, e)
    ensures !Before(e, d)
    decreases |d|
  {
    if e != [] && d[0] == e[0] {
      BeforeOneWay(d[1..], e[1..]);
    }
  }

  /** Some trace that leads to x comes before all that lead to y. */
  ghost predicate Earlier(opens: Name -> seq<Name>, root: Name, x: Name, y: Name)
  {
    exists d :: Follow(opens, root, d) == Some(x) && BeforeAll(opens, root, d, y)
  }

  ghost predicate BeforeAll(opens: Name -> seq<Name>, root: Name, d: seq<nat>, y: Name)
  {
    forall e :: Follow(opens, root, e) == Some(y) ==> Before(d, e)
  }

  lemma EarlierOneWay(opens: Name -> seq<Name>, root: Name, x: Name, y: Name)
    requires Earlier(opens, root, x, y)
    ensures !Earlier(opens, root, y, x)
  {
    hide Before, Follow;
    var d :| Follow(opens, root, d) == Some(x) && BeforeAll(opens, root, d, y);
    if e :| Follow(opens, root, e) == Some(y) && BeforeAll(opens, root, e, x) {
      assert Before(d, e) && Before(e, d);
      BeforeOneWay(d, e);
    }
  }

  // ----- the traces in the order of the list -----

  function Prepend(i: nat, traces: seq<seq<nat>>): (r: seq<seq<nat>>)
    ensures |r| == |traces| && forall k :: 0 <= k < |r| ==> r[k] == [i] + traces[k]
  {
    if traces == [] then [] else [[i] + traces[0]] + Prepend(i, traces[1..])
  }

  ghost function TracesBy(opens: Name -> seq<Name>, names: seq<Name>, first: nat, root: Name, rank: Name -> nat,
                          bound: nat): seq<seq<nat>>
    requires Acyclic(opens, root, rank) && forall n :: n in names ==> Reachable(opens, root, n) && rank(n) < bound
    decreases bound, |names|
  {
    if names == [] then []
    else Prepend(first, TracesOf(opens, names[0], root, rank)) + TracesBy(opens, names[1..], first + 1, root, rank,
        bound)
  }

  ghost function TracesOf(opens: Name -> seq<Name>, name: Name, root: Name, rank: Name -> nat): seq<seq<nat>>
    requires Acyclic(opens, root, rank) && Reachable(opens, root, name)
    decreases rank(name) + 1, 0
  {
    OpenedReachable(opens, root, name);
    TracesBy(opens, opens(name), 0, root, rank, rank(name)) + [[]]
  }

  /** Trace k of the names from number first on leads to name k of their list. */
  ghost predicate Leads(opens: Name -> seq<Name>, names: seq<Name>, first: nat, traces: seq<seq<nat>>, l: seq<Name>)
  {
    |traces| == |l| && forall k :: 0 <= k < |l| ==> LeadsAt(opens, names, first, traces[k], l[k])
  }

  predicate LeadsAt(opens: Name -> seq<Name>, names: seq<Name>, first: nat, trace: seq<nat>, n: Name)
  {
    trace != [] && first <= trace[0] < first + |names| && Follow(opens, names[trace[0] - first], trace[1..]) == Some(n)
  }

  lemma {:induction false} TracesLead(opens: Name -> seq<Name>, names: seq<Name>, first: nat, root: Name,
                                      rank: Name -> nat, bound: nat)
    requires Acyclic(opens, root, rank) && forall n :: n in names ==> Reachable(opens, root, n) && rank(n) < bound
    ensures Leads(opens, names, first, TracesBy(opens, names, first, root, rank, bound),
                  OpenedBy(opens, names, root, rank, bound))
    decreases bound, |names|
  {
    hide Acyclic, Reachable, Follow;
    if names != [] {
      TracesFollow(opens, names[0], root, rank);
      TracesLead(opens, names[1..], first + 1, root, rank, bound);
      var here, there := GetOpenFilenames(opens, names[0], root, rank), OpenedBy(opens, names[1..], root, rank, bound);
      var heres, theres := TracesOf(opens, names[0], root, rank),
          TracesBy(opens, names[1..], first + 1, root, rank, bound);
      forall k | 0 <= k < |here + there|
        ensures LeadsAt(opens, names, first, (Prepend(first, heres) + theres)[k], (here + there)[k])
      {
        if k < |here| {
          assert ([first] + heres[k])[1..] == heres[k];
        } else {
          assert LeadsAt(opens, names[1..], first + 1, theres[k - |here|], there[k - |here|]);
        }
      }
    }
  }

  lemma {:induction false} TracesFollow(opens: Name -> seq<Name>, name: Name, root: Name, rank: Name -> nat)
    requires Acyclic(opens, root, rank) && Reachable(opens, root, name)
    ensures var traces, l := TracesOf(opens, name, root, rank), GetOpenFilenames(opens, name, root, rank);
            |traces| == |l| && forall k :: 0 <= k < |l| ==> Follow(opens, name, traces[k]) == Some(l[k])
    decreases rank(name) + 1, 0
  {
    OpenedReachable(opens, root, name);
    TracesLead(opens, opens(name), 0, root, rank, rank(name));
    var below, l := TracesBy(opens, opens(name), 0, root, rank, rank(name)),
        OpenedBy(opens, opens(name), root, rank, rank(name));
    forall k | 0 <= k < |l|
      ensures Follow(opens, name, below[k]) == Some(l[k])
    {
      assert LeadsAt(opens, opens(name), 0, below[k], l[k]);
    }
  }

  ghost predicate Sorted(traces: seq<seq<nat>>)
  {
    forall i, j :: 0 <= i < j < |traces| ==> Before(traces[i], traces[j])
  }

  lemma PrependSorted(i: nat, traces: seq<seq<nat>>)
    requires Sorted(traces)
    ensures Sorted(Prepend(i, traces))
  {
    forall a, b | 0 <= a < b < |traces|
      ensures Before(Prepend(i, traces)[a], Prepend(i, traces)[b])
    {
      assert ([i] + traces[a])[1..] == traces[a] && ([i] + traces[b])[1..] == traces[b];
      assert Before(traces[a], traces[b]);
    }
  }

  lemma {:induction false} TracesBySorted(opens: Name -> seq<Name>, names: seq<Name>, first: nat, root: Name,
                                          rank: Name -> nat, bound: nat)
    requires Acyclic(opens, root, rank) && forall n :: n in names ==> Reachable(opens, root, n) && rank(n) < bound
    ensures Sorted(TracesBy(opens, names, first, root, rank, bound))
    decreases bound, |names|
  {
    hide Acyclic, Reachable;
    if names != [] {
      TracesOfSorted(opens, names[0], root, rank);
      TracesBySorted(opens, names[1..], first + 1, root, rank, bound);
      TracesLead(opens, names[1..], first + 1, root, rank, bound);
      var heres, theres := Prepend(first, TracesOf(opens, names[0], root, rank)),
          TracesBy(opens, names[1..], first + 1, root, rank, bound);
      var there := OpenedBy(opens, names[1..], root, rank, bound);
      PrependSorted(first, TracesOf(opens, names[0], root, rank));
      forall k | 0 <= k < |theres|
        ensures theres[k] != [] && theres[k][0] > first
      {
        assert LeadsAt(opens, names[1..], first + 1, theres[k], there[k]);
      }
      JoinSorted(heres, theres, first);
    }
  }

  lemma JoinSorted(a: seq<seq<nat>>, b: seq<seq<nat>>, first: nat)
    requires Sorted(a) && Sorted(b) && (forall k :: 0 <= k < |a| ==> a[k] != [] && a[k][0] == first)
    requires forall k :: 0 <= k < |b| ==> b[k] != [] && b[k][0] > first
    ensures Sorted(a + b)
  {
  }

  lemma {:induction false} TracesOfSorted(opens: Name -> seq<Name>, name: Name, root: Name, rank: Name -> nat)
    requires Acyclic(opens, root, rank) && Reachable(opens, root, name)
    ensures Sorted(TracesOf(opens, name, root, rank))
    decreases rank(name) + 1, 0
  {
    OpenedReachable(opens, root, name);
    TracesBySorted(opens, opens(name), 0, root, rank, rank(name));
    TracesLead(opens, opens(name), 0, root, rank, rank(name));
    hide Acyclic, Reachable;
    var below := TracesBy(opens, opens(name), 0, root, rank, rank(name));
    var l := OpenedBy(opens, opens(name), root, rank, rank(name));
    forall k | 0 <= k < |below|
      ensures Before(below[k], [])
    {
      assert LeadsAt(opens, opens(name), 0, below[k], l[k]);
    }
  }

  lemma OpensLower(opens: Name -> seq<Name>, name: Name, root: Name, rank: Name -> nat)
    requires Acyclic(opens, root, rank) && Reachable(opens, root, name)
    ensures forall o :: o in opens(name) ==> Reachable(opens, root, o) && rank(o) < rank(name)
  {
    OpenedReachable(opens, root, name);
  }

  /** Every trace that leads anywhere is among them. */
  lemma {:induction false} EveryTrace(opens: Name -> seq<Name>, name: Name, root: Name, rank: Name -> nat,
                                      trace: seq<nat>)
    requires Acyclic(opens, root, rank) && Reachable(opens, root, name) && Follow(opens, name, trace).Some?
    ensures trace in TracesOf(opens, name, root, rank)
    decreases |trace|
  {
    hide Acyclic, Reachable, TracesBy;
    OpensLower(opens, name, root, rank);
    var below := TracesBy(opens, opens(name), 0, root, rank, rank(name));
    assert (below + [[]])[|below|] == [];
    if trace != [] {
      var o := opens(name)[trace[0]];
      assert o in opens(name);
      EveryTrace(opens, o, root, rank, trace[1..]);
      TraceBy(opens, opens(name), 0, root, rank, rank(name), trace[0], trace[1..]);
      assert [trace[0]] + trace[1..] == trace;
    }
  }

  lemma {:induction false} TraceBy(opens: Name -> seq<Name>, names: seq<Name>, first: nat, root: Name,
                                   rank: Name -> nat, bound: nat, i: nat, trace: seq<nat>)
    requires Acyclic(opens, root, rank) && forall n :: n in names ==> Reachable(opens, root, n) && rank(n) < bound
    requires i < |names| && trace in TracesOf(opens, names[i], root, rank)
    ensures [first + i] + trace in TracesBy(opens, names, first, root, rank, bound)
    decreases |names|
  {
    hide Acyclic, Reachable, TracesOf, Prepend;
    if i == 0 {
      var k :| 0 <= k < |TracesOf(opens, names[0], root, rank)| && TracesOf(opens, names[0], root, rank)[k] == trace;
      assert Prepend(first, TracesOf(opens, names[0], root, rank))[k] == [first] + trace;
    } else {
      TraceBy(opens, names[1..], first + 1, root, rank, bound, i - 1, trace);
    }
  }

  // ----- first occurrences -----

  /** dedup keeps the order of first occurrences. */
  lemma {:induction false} DedupKeepsFirst(l: seq<Name>, acc: seq<Name>, i: nat, j: nat) returns (a: nat)
    requires i < j < |Dedup(l, acc)|
    ensures a < |l| && l[a] == Dedup(l, acc)[i] && forall k :: 0 <= k <= a ==> l[k] != Dedup(l, acc)[j]
    decreases |l|
  {
    var acc' := if l[0] in acc then acc else [l[0]] + acc;
    DedupMembers(l[1..], acc', Dedup(l, acc)[j]);
    if l[0] in acc {
      var b := DedupKeepsFirst(l[1..], acc, i, j);
      a := b + 1;
    } else if i > 0 {
      var b := DedupKeepsFirst(l[1..], acc', i - 1, j - 1);
      a := b + 1;
    } else {
      a := 0;
    }
  }

  /** Exactly: of two listed names the one comes first that a trace leads to which is before every trace
      to the other. */
  lemma OrderExact(opens: Name -> seq<Name>, root: Name, rank: Name -> nat, i: nat, j: nat)
    requires Acyclic(opens, root, rank)
    requires i < |OpenFilenames(opens, root, rank)| && j < |OpenFilenames(opens, root, rank)| && i != j
    ensures var l := OpenFilenames(opens, root, rank);
            i < j <==> Earlier(opens, root, l[i], l[j])
  {
    hide Acyclic, Earlier;
    var l := OpenFilenames(opens, root, rank);
    if i < j {
      ListedEarlier(opens, root, rank, i, j);
    } else {
      ListedEarlier(opens, root, rank, j, i);
      EarlierOneWay(opens, root, l[j], l[i]);
    }
  }

  lemma ListedEarlier(opens: Name -> seq<Name>, root: Name, rank: Name -> nat, i: nat, j: nat)
    requires Acyclic(opens, root, rank) && i < j < |OpenFilenames(opens, root, rank)|
    ensures var l := OpenFilenames(opens, root, rank); Earlier(opens, root, l[i], l[j])
  {
    RootReachable(opens, root);
    hide Acyclic, Reachable, Follow, Before, GetOpenFilenames, TracesOf;
    var l, all, traces := OpenFilenames(opens, root, rank), GetOpenFilenames(opens, root, root, rank),
        TracesOf(opens, root, root, rank);
    TracesFollow(opens, root, root, rank);
    TracesOfSorted(opens, root, root, rank);
    var a := DedupKeepsFirst(all, [], i, j);
    forall e | Follow(opens, root, e) == Some(l[j])
      ensures Before(traces[a], e)
    {
      EveryTrace(opens, root, root, rank, e);
      var k :| 0 <= k < |traces| && traces[k] == e;
      assert all[k] == l[j];
    }
    assert BeforeAll(opens, root, traces[a], l[j]);
  }
}
