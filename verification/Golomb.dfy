/**
  Golomb's sequence by nested recursion (benchmarks/lexa/golomb/main.lx). The recursion is well
  founded only because of what it computes, and no recursive call leaves the positive numbers.
 */
module Golomb {
  /** The handled computation: a value, or the argument that invalid_arg was raised with. */
  datatype Outcome = Value(v: int) | Invalid(arg: int)

  predicate Bounded(n: int, r: int)
  {
    1 <= r <= n
  }

  /** golomb, with each call's raise passed on. */
  function Golomb(n: int): (r: Outcome)
    ensures n > 0 ==> r.Value? && Bounded(n, r.v)
    ensures n <= 0 ==> r == Invalid(n)
    decreases if n > 0 then n else 0
  {
    if !(n > 0) then Invalid(n)
    else if n == 1 then Value(1)
    else
      match Golomb(n - 1)
      case Invalid(a) => Invalid(a)
      case Value(inner) =>
        match Golomb(inner)
        case Invalid(a) => Invalid(a)
        case Value(middle) =>
          match Golomb(n - middle)
          case Invalid(a) => Invalid(a)
          case Value(outer) => Value(1 + outer)
  }

  function G(n: nat): (r: nat)
    requires n > 0
    ensures 1 <= r <= n
  {
    Golomb(n).v
  }

  /** The last position at which the first k numbers have all been listed. */
  function Through(k: nat): nat
  {
    if k == 0 then 0 else Through(k - 1) + G(k)
  }

  lemma Unfold(n: nat)
    requires n > 1
    ensures G(n) == 1 + G(n - G(G(n - 1)))
  {
  }

  lemma {:induction false} ThroughGrows(k: nat)
    ensures Through(k) >= k
  {
    if k > 0 {
      ThroughGrows(k - 1);
    }
  }

  /** Value k fills the positions after Through(k - 1), up to Through(k). */
  predicate Fills(n: nat, k: nat)
  {
    k > 0 && Through(k - 1) < n <= Through(k)
  }

  lemma {:induction false} ThroughMonotone(i: nat, j: nat)
    requires i <= j
    ensures Through(i) <= Through(j)
    decreases j
  {
    if i < j {
      ThroughMonotone(i, j - 1);
    }
  }

  /** A position is filled by one value only. */
  lemma FillsOnce(n: nat, k: nat, k': nat)
    requires Fills(n, k) && Fills(n, k')
    ensures k == k'
  {
    if k < k' {
      ThroughMonotone(k, k' - 1);
    } else if k' < k {
      ThroughMonotone(k', k - 1);
    }
  }

  lemma {:induction false} FillsItsPlace(n: nat)
    requires n > 0
    ensures Fills(n, G(n))
    decreases n, 0
  {
    if n == 1 {
      assert Through(1) == Through(0) + G(1);
    } else {
      var k := G(n - 1);
      FillsItsPlace(n - 1);
      Unfold(n);
      FillsItsPlace(n - G(k));
      if n > Through(k) {
        NextBlock(n, k);
      } else {
        assert k > 1 by { assert Through(1) == Through(0) + 1; }
        Steps(k - 1);
        SameBlock(n, k);
      }
    }
  }

  lemma SameBlock(n: nat, k: nat)
    requires 1 < k < n && Fills(n - 1, k) && n <= Through(k) && G(k) <= G(k - 1) + 1
    requires G(n) == 1 + G(n - G(k)) && Fills(n - G(k), G(n - G(k)))
    ensures Fills(n, G(n))
  {
    assert Through(k) == Through(k - 1) + G(k) && Through(k - 1) == Through(k - 2) + G(k - 1);
    FillsOnce(n - G(k), k - 1, G(n - G(k)));
  }

  lemma NextBlock(n: nat, k: nat)
    requires 0 < k < n && Fills(n - 1, k) && n > Through(k)
    requires G(n) == 1 + G(n - G(k)) && Fills(n - G(k), G(n - G(k)))
    ensures Fills(n, G(n))
  {
    assert n == Through(k) + 1 && n - G(k) == Through(k - 1) + 1;
    FillsOnce(n - G(k), k, G(n - G(k)));
    assert Through(k + 1) == Through(k) + G(k + 1);
  }

  /** From one position to the next the value stays or goes up by one. */
  lemma {:induction false} Steps(n: nat)
    requires n > 0
    ensures G(n + 1) == G(n) || G(n + 1) == G(n) + 1
    decreases n + 1, 1
  {
    FillsItsPlace(n);
    FillsItsPlace(n + 1);
    var k := G(n);
    if n + 1 <= Through(k) {
      FillsOnce(n + 1, k, G(n + 1));
    } else {
      assert Through(k + 1) == Through(k) + G(k + 1);
      FillsOnce(n + 1, k + 1, G(n + 1));
    }
  }

  /** How often k occurs among the first n values. */
  function Occurrences(k: nat, n: nat): nat
  {
    if n == 0 then 0 else Occurrences(k, n - 1) + (if G(n) == k then 1 else 0)
  }

  function Min(a: int, b: int): int
  {
    if a < b then a else b
  }

  lemma {:induction false} OccurrencesUpTo(k: nat, n: nat)
    requires k > 0
    ensures Occurrences(k, n) == if n <= Through(k - 1) then 0 else Min(n, Through(k)) - Through(k - 1)
  {
    if n > 0 {
      OccurrencesUpTo(k, n - 1);
      FillsItsPlace(n);
      if Fills(n, k) {
        FillsOnce(n, k, G(n));
      }
    }
  }

  /** The sequence describes itself: k occurs exactly G(k) times, from some position on. */
  lemma SelfDescribing(k: nat, n: nat)
    requires k > 0 && n >= Through(k)
    ensures Occurrences(k, n) == G(k)
  {
    OccurrencesUpTo(k, n);
    assert Through(k) == Through(k - 1) + G(k);
  }
}
