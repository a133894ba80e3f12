/** The Option and Result types the models share. */
module Wrappers {
  datatype Option<+T> = None | Some(value: T)

  datatype Result<+T, +E> = Ok(value: T) | Err(error: E)
}

/** Multiplication and division where the solver needs a hand. */
module Arithmetic {
  lemma MulMonotone(a: nat, b: nat, p: nat)
    requires a < b
    ensures a * p + p <= b * p
  {
    assert (b - a - 1) * p >= 0;
    assert b * p == (b - a - 1) * p + a * p + p;
  }

  lemma QuotientIs(n: nat, d: nat, q: nat, r: nat)
    requires n == q * d + r && r < d
    ensures n / d == q && n % d == r
  {
    var x := n / d;
    assert n == x * d + n % d;
    if x < q {
      MulMonotone(x, q, d);
    } else if q < x {
      MulMonotone(q, x, d);
    }
  }
}

/** Sequences: facts kept away from the proofs that use them. */
module Lists {
  /** All but the last element. */
  function Front<T>(s: seq<T>): (r: seq<T>)
    requires s != []
    ensures |r| == |s| - 1
  {
    s[..|s| - 1]
  }

  lemma ConcatAssociates<T>(a: seq<T>, b: seq<T>, c: seq<T>)
    ensures a + (b + c) == a + b + c
  {
  }

  lemma DropDrop<T>(s: seq<T>, a: nat, b: nat)
    requires a + b <= |s|
    ensures s[a..][b..] == s[a + b..]
  {
  }

  lemma PrefixOfAppend<T>(s: seq<T>, x: T, n: nat)
    requires n <= |s| + 1
    ensures (s + [x])[..n] == if n <= |s| then s[..n] else s + [x]
  {
  }

  lemma AppendDrop<T>(s: seq<T>, x: T)
    ensures s != [] ==> (s + [x])[0] == s[0] && (s + [x])[1..] == s[1..] + [x]
    ensures s == [] ==> s + [x] == [x] && [x][1..] == []
  {
  }
}

/** The numbers below n, as a set of known size; parts are no larger than the whole. */
module Ranges {
  function Below(n: nat): (s: set<nat>)
    ensures forall j: nat :: j in s <==> j < n
    ensures |s| == n
  {
    if n == 0 then {} else Below(n - 1) + {n - 1}
  }

  lemma {:induction false} SubsetSize<T>(a: set<T>, b: set<T>)
    requires a <= b
    ensures |a| <= |b|
  {
    if a != {} {
      var x :| x in a;
      SubsetSize(a - {x}, b - {x});
    }
  }
}

/** Sums over finite maps, independent of the order in which keys are visited. */
module Sums {
  ghost function Pick<K(!new)>(m: map<K, nat>): (k: K)
    requires m != map[]
    ensures k in m
  {
    var k :| k in m; k
  }

  ghost function Sum<K(!new)>(m: map<K, nat>): nat
    decreases |m|
  {
    if m == map[] then 0
    else
      var k := Pick(m);
      m[k] + Sum(m - {k})
  }

  /** Any key can be taken out first. */
  lemma {:induction false} SumTakeOut<K(!new)>(m: map<K, nat>, k: K)
    requires k in m
    ensures Sum(m) == m[k] + Sum(m - {k})
    decreases |m|
  {
    var p := Pick(m);
    if p != k {
      SumTakeOut(m - {p}, k);
      SumTakeOut(m - {k}, p);
      assert m - {p} - {k} == m - {k} - {p};
    }
  }

  /** Replacing one entry changes the sum by the difference. */
  lemma SumUpdate<K(!new)>(m: map<K, nat>, k: K, v: nat)
    requires k in m
    ensures Sum(m[k := v]) == Sum(m) - m[k] + v
  {
    SumTakeOut(m, k);
    SumTakeOut(m[k := v], k);
    assert m[k := v] - {k} == m - {k};
  }

  lemma TwoUpdates<K, V>(m: map<K, V>, m': map<K, V>, a: K, b: K)
    requires m.Keys == m'.Keys && a in m && b in m
    requires forall k :: k in m && k != a && k != b ==> m'[k] == m[k]
    ensures m' == m[a := m'[a]][b := m'[b]]
  {
  }

  /** Moving an amount from one entry to another keeps the sum. */
  lemma SumMove<K(!new)>(m: map<K, nat>, m': map<K, nat>, a: K, b: K, x: nat)
    requires m.Keys == m'.Keys && a in m && b in m && a != b
    requires x <= m[a] && m'[a] == m[a] - x && m'[b] == m[b] + x
    requires forall k :: k in m && k != a && k != b ==> m'[k] == m[k]
    ensures Sum(m') == Sum(m)
  {
    var u := m[a := m'[a]];
    assert u[b] == m[b];
    SumUpdate(m, a, m'[a]);
    SumUpdate(u, b, m'[b]);
    TwoUpdates(m, m', a, b);
    hide Sum;
  }

  lemma SumBounds<K(!new)>(m: map<K, nat>, k: K)
    requires k in m
    ensures m[k] <= Sum(m)
  {
    SumTakeOut(m, k);
  }

  lemma SumBoundsTwo<K(!new)>(m: map<K, nat>, a: K, b: K)
    requires a in m && b in m && a != b
    ensures m[a] + m[b] <= Sum(m)
  {
    SumTakeOut(m, a);
    SumBounds(m - {a}, b);
  }

  /** If every entry outside 'keys' is zero and every entry inside is v, the sum is |keys| * v. */
  lemma {:induction false} SumConstant<K(!new)>(m: map<K, nat>, keys: set<K>, v: nat)
    requires keys <= m.Keys
    requires forall k :: k in m ==> m[k] == if k in keys then v else 0
    ensures Sum(m) == |keys| * v
    decreases |m|
  {
    if m == map[] {
      assert keys == {};
    } else {
      var p := Pick(m);
      var rest := m - {p};
      assert rest.Keys == m.Keys - {p};
      SumConstant(rest, keys - {p}, v);
      if p !in keys {
        assert keys - {p} == keys;
      } else {
        Distribute(|keys - {p}|, v);
        assert |keys| == |keys - {p}| + 1;
      }
    }
  }

  lemma Distribute(a: nat, v: nat)
    ensures (a + 1) * v == a * v + v
  {
  }
}
