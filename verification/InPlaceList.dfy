/**
  The in-place pass over a linked list (benchmarks/lexa/interruptible_iterator/main.lx). Each
  element is yielded to a function that may replace it, or ask for its removal through a handler
  that its predecessor, or run for the first one, installed: the handler sets a reference, and
  the predecessor then unlinks the node.
 */
module InPlaceList {
  import opened Options

  class Node {
    var value: int
    var next: Node?

    constructor (value: int, next: Node?)
      ensures this.value == value && this.next == next
    {
      this.value, this.next := value, next;
    }
  }

  /** A reference of newref. */
  class Cell {
    var isSet: bool

    constructor ()
      ensures !isSet
    {
      isSet := false;
    }
  }

  function First(nodes: seq<Node>): Node?
  {
    if nodes == [] then null else nodes[0]
  }

  /** The list at head consists of these nodes. */
  ghost predicate Linked(head: Node?, nodes: seq<Node>)
    reads nodes
  {
    head == First(nodes) && (nodes != [] ==> Linked(nodes[0].next, nodes[1..]))
  }

  predicate Distinct(nodes: seq<Node>)
  {
    forall i, j :: 0 <= i < j < |nodes| ==> nodes[i] != nodes[j]
  }

  ghost function Values(nodes: seq<Node>): (vs: seq<int>)
    reads nodes
    ensures |vs| == |nodes| && forall i :: 0 <= i < |vs| ==> vs[i] == nodes[i].value
  {
    if nodes == [] then [] else [nodes[0].value] + Values(nodes[1..])
  }

  /** The nodes whose value is not negative, in order. */
  function Kept(nodes: seq<Node>, vs: seq<int>): (ks: seq<Node>)
    requires |nodes| == |vs|
    ensures forall k :: k in ks ==> k in nodes
  {
    if nodes == [] then [] else (if vs[0] < 0 then [] else [nodes[0]]) + Kept(nodes[1..], vs[1..])
  }

  /** What the pass makes of one value in place. */
  function Replaced(v: int): int
  {
    if v < 0 then v else v * 2
  }

  /** yield_fun, applied to the value of it: behead and replace are handled by setting the
      reference and the node. */
  method Yield(it: Node, behead: Cell)
    modifies it`value, behead
    ensures it.value == Replaced(old(it.value)) && behead.isSet == (old(behead.isSet) || old(it.value) < 0)
  {
    var v := it.value;
    if v < 0 {
      behead.isSet := true;
    } else {
      it.value := v * 2;
    }
  }

  lemma KeptCons(nodes: seq<Node>, vs: seq<int>)
    requires |nodes| == |vs| > 0
    ensures Kept(nodes, vs) == if vs[0] < 0 then Kept(nodes[1..], vs[1..]) else [nodes[0]] + Kept(nodes[1..], vs[1..])
  {
  }

  lemma KeptNone(nodes: seq<Node>, vs: seq<int>)
    requires |nodes| == |vs|
    ensures nodes == [] ==> Kept(nodes, vs) == []
  {
  }

  lemma DistinctRest(nodes: seq<Node>)
    requires nodes != [] && Distinct(nodes)
    ensures Distinct(nodes[1..]) && nodes[0] !in nodes[1..]
  {
  }

  /** Which nodes those are. */
  lemma {:induction false} KeptExactly(nodes: seq<Node>, vs: seq<int>, i: nat)
    requires |nodes| == |vs| && Distinct(nodes) && i < |nodes|
    ensures nodes[i] in Kept(nodes, vs) <==> 0 <= vs[i]
    decreases |nodes|
  {
    hide Kept, Distinct;
    DistinctRest(nodes);
    KeptCons(nodes, vs);
    if i > 0 {
      KeptExactly(nodes[1..], vs[1..], i - 1);
      assert nodes[i] in nodes[1..] && nodes[i] != nodes[0];
    } else {
      assert nodes[0] !in Kept(nodes[1..], vs[1..]);
    }
  }

  /** loop: the first node stays for the caller to unlink; after it come exactly the nodes that
      are not negative, and their values are doubled. */
  method Loop(it: Node, behead: Cell, ghost nodes: seq<Node>) returns (head: Node)
    requires nodes != [] && Linked(it, nodes) && Distinct(nodes)
    modifies nodes, behead
    ensures head == it && behead.isSet == (old(behead.isSet) || old(it.value) < 0)
    ensures forall i :: 0 <= i < |nodes| ==> nodes[i].value == Replaced(old(nodes[i].value))
    ensures Linked(it, [it] + Kept(nodes[1..], old(Values(nodes))[1..]))
    decreases |nodes|
  {
    hide Kept, Distinct;
    ghost var vs, rest := Values(nodes), nodes[1..];
    DistinctRest(nodes);
    Yield(it, behead);
    var tail := it.next;
    var beheaded := new Cell();
    var newTail: Node? := null;
    ghost var all := Kept(rest, vs[1..]);
    assert it !in all;
    ghost var second: Node? := null;
    if tail != null {
      newTail := Loop(tail, beheaded, rest);
      ghost var kept := Kept(rest[1..], vs[2..]);
      assert Linked(tail, [tail] + kept) && ([tail] + kept)[1..] == kept;
      KeptCons(rest, vs[1..]);
      assert vs[1..][1..] == vs[2..] && all == (if vs[1] < 0 then kept else [tail] + kept);
      second := if vs[1] < 0 then tail.next else tail;
    }
    assert Linked(second, all) by { KeptNone(rest, vs[1..]); }
    if beheaded.isSet {
      it.next := newTail.next;
    }
    assert it.next == second && Linked(second, all);
    assert ([it] + all)[1..] == all;
    return it;
  }

  // ----- run -----

  function Ints(first: int, last: int): (vs: seq<int>)
    ensures |vs| == if first > last then 0 else last - first + 1
    decreases last - first + 1
  {
    if first > last then [] else [first] + Ints(first + 1, last)
  }

  function Sum(vs: seq<int>): int
  {
    if vs == [] then 0 else vs[0] + Sum(vs[1..])
  }

  method ListRange(first: int, last: int) returns (l: Node?, ghost nodes: seq<Node>)
    ensures Linked(l, nodes) && Distinct(nodes) && fresh(nodes) && Values(nodes) == Ints(first, last)
    decreases last - first + 1
  {
    if first > last {
      return null, [];
    }
    var rest;
    rest, nodes := ListRange(first + 1, last);
    var l' := new Node(first, rest);
    l, nodes := l', [l'] + nodes;
  }

  method ListSum(l: Node?, acc: int, ghost nodes: seq<Node>) returns (sum: int)
    requires Linked(l, nodes)
    ensures sum == acc + Sum(Values(nodes))
    decreases |nodes|
  {
    if l == null {
      return acc;
    }
    sum := ListSum(l.next, acc + l.value, nodes[1..]);
  }

  /** The sum of what the pass keeps, as its values then are. */
  function KeptSum(vs: seq<int>): int
  {
    if vs == [] then 0 else (if vs[0] < 0 then 0 else vs[0] * 2) + KeptSum(vs[1..])
  }

  ghost predicate Passed(nodes: seq<Node>, vs: seq<int>)
    reads nodes
  {
    |nodes| == |vs| && forall i :: 0 <= i < |nodes| ==> nodes[i].value == Replaced(vs[i])
  }

  lemma {:induction false} KeptSums(nodes: seq<Node>, vs: seq<int>)
    requires Passed(nodes, vs)
    ensures Sum(Values(Kept(nodes, vs))) == KeptSum(vs)
    decreases |nodes|
  {
    if nodes != [] {
      assert Passed(nodes[1..], vs[1..]);
      KeptSums(nodes[1..], vs[1..]);
      KeptCons(nodes, vs);
      if vs[0] >= 0 {
        var ks := Kept(nodes, vs);
        assert ks[0] == nodes[0] && ks[1..] == Kept(nodes[1..], vs[1..]);
        assert Values(ks)[1..] == Values(ks[1..]);
      }
    } else {
      assert Kept(nodes, vs) == [] && vs == [];
    }
  }

  lemma {:induction false} SumOfRange(first: int, last: int)
    requires first <= last + 1 && last >= 0
    ensures KeptSum(Ints(first, last)) == last * (last + 1) - (if first <= 0 then 0 else first * (first - 1))
    decreases last - first + 1
  {
    if first <= last {
      SumOfRange(first + 1, last);
    }
  }

  /** The two handlers of run around loop: the first node may go too. What is left is the list of
      the nodes that are not negative, in order, doubled. */
  method Pass(l: Node, ghost nodes: seq<Node>) returns (kept: Node?)
    requires nodes != [] && Linked(l, nodes) && Distinct(nodes)
    modifies nodes
    ensures Linked(kept, Kept(nodes, old(Values(nodes)))) && Passed(nodes, old(Values(nodes)))
  {
    hide Kept, Distinct;
    ghost var vs := Values(nodes);
    var beheaded := new Cell();
    var newTail := Loop(l, beheaded, nodes);
    ghost var rest := Kept(nodes[1..], vs[1..]);
    assert ([l] + rest)[1..] == rest;
    KeptCons(nodes, vs);
    kept := newTail;
    if beheaded.isSet {
      kept := newTail.next;
    }
  }

  /** run(n). None: the first element of an empty list is read. */
  method Run(n: int) returns (r: Option<int>)
    ensures r == if n < 0 then None else Some(n * (n + 1))
  {
    hide Kept, Distinct, KeptSum, Sum, Linked, Passed, Values;
    ghost var vs := Ints(0 - n, n);
    var l;
    ghost var nodes;
    l, nodes := ListRange(0 - n, n);
    LinkedEmpty(l, nodes);
    if l == null {
      return None;
    }
    var kept := Pass(l, nodes);
    var sum := ListSum(kept, 0, Kept(nodes, vs));
    KeptSums(nodes, vs);
    SumOfRange(0 - n, n);
    return Some(sum);
  }

  lemma LinkedEmpty(l: Node?, nodes: seq<Node>)
    requires Linked(l, nodes)
    ensures (l == null <==> nodes == []) && |Values(nodes)| == |nodes|
  {
  }
}
