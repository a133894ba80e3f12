/** The identifier circle: clockwise distances, successors, powers of two. */
module Ring {
  /** The clockwise distance from a to b; a full turn when they are equal. */
  function Gap(m: nat, a: nat, b: nat): (g: nat)
    ensures a < m && b < m ==> 1 <= g <= m && (g == m <==> a == b)
  {
    if a < b then b - a else if a <= b + m then b + m - a else 0
  }

  /** id_between, on numbers. */
  predicate Between(lower: nat, middle: nat, upper: nat) {
    if lower < upper then lower < middle && middle < upper
    else !(upper < middle && middle < lower)
  }

  /** On distinct identifiers it is exactly clockwise betweenness. */
  lemma BetweenIsClockwise(m: nat, lower: nat, middle: nat, upper: nat)
    requires lower < m && middle < m && upper < m
    requires lower != middle && middle != upper && lower != upper
    ensures Between(lower, middle, upper) <==> Gap(m, lower, middle) < Gap(m, lower, upper)
  {
  }

  /** Outside that the open interval is closed when it wraps: both ends count, and so does everything
      when they coincide. */
  lemma BetweenAtTheEnds(lower: nat, upper: nat)
    ensures Between(lower, lower, upper) <==> upper <= lower
    ensures Between(lower, upper, upper) <==> upper <= lower
  {
  }

  /** b is the first of the nodes met going clockwise from a, a itself coming last. */
  ghost predicate IsNext(m: nat, nodes: set<nat>, a: nat, b: nat) {
    b in nodes && forall x :: x in nodes ==> Gap(m, a, b) <= Gap(m, a, x)
  }

  lemma NextIsUnique(m: nat, nodes: set<nat>, a: nat, b: nat, c: nat)
    requires a < m && forall x :: x in nodes ==> x < m
    requires IsNext(m, nodes, a, b) && IsNext(m, nodes, a, c)
    ensures b == c
  {
    assert Gap(m, a, b) == Gap(m, a, c);
  }

  /** Distances add up along the way. */
  lemma GapSplit(m: nat, a: nat, b: nat, c: nat)
    requires a < m && b < m && c < m && Gap(m, a, b) < Gap(m, a, c)
    ensures Gap(m, b, c) == Gap(m, a, c) - Gap(m, a, b)
  {
  }

  function Pow2(k: nat): (p: nat)
    ensures p > 0
  {
    if k == 0 then 1 else 2 * Pow2(k - 1)
  }

  lemma {:induction false} Pow2Grows(j: nat, k: nat)
    requires j <= k
    ensures Pow2(j) <= Pow2(k)
    decreases k
  {
    if j < k {
      Pow2Grows(j, k - 1);
    }
  }

  lemma Pow2Strict(j: nat, k: nat)
    requires j < k
    ensures Pow2(j) < Pow2(k)
  {
    Pow2Grows(j, k - 1);
  }

  /** The top bit of a number below 2^k. */
  lemma {:induction false} TopBit(d: nat, k: nat) returns (j: nat)
    requires 0 < d < Pow2(k)
    ensures j < k && Pow2(j) <= d < Pow2(j + 1)
    decreases k
  {
    if Pow2(k - 1) <= d {
      j := k - 1;
    } else {
      j := TopBit(d, k - 1);
    }
  }
}
