/** Why the lookup results leave out keys that are themselves node identifiers: id_between is open where it
    does not wrap and closed where it does, so such a key is hardly ever answered. */
module NodeKeys {
  import opened Ring
  import opened Lookup
  import opened Tables

  /** The two ends between which a node looks for the keys it answers. */
  function ArcStart(kind: Kind, n: Node): nat
    requires kind.Successor? ==> n.predecessor.Some?
  {
    if kind.Successor? then n.predecessor.value else n.id
  }

  function ArcEnd(kind: Kind, n: Node): nat
    requires kind.Predecessor? ==> n.fingers != []
  {
    if kind.Successor? then n.id else n.fingers[0]
  }

  /** Between neighbouring nodes a node's identifier lies only where the circle wraps, and then at an end. */
  lemma NodeBetween(m: nat, nodes: set<nat>, a: nat, b: nat, key: nat)
    requires Identifiers(m, nodes) && a in nodes && IsNext(m, nodes, a, b) && key in nodes
    ensures Between(a, key, b) <==> b <= a && (key == a || key == b)
  {
    assert Gap(m, a, b) <= Gap(m, a, key);
  }

  /** A node answers a request for a node's identifier exactly when its arc wraps and ends in it. */
  lemma NodeKeyAnswers(kind: Kind, m: nat, net: Network, q: nat, key: nat)
    requires Identifiers(m, net.Keys) && RingOk(m, net) && q in net && key in net
    ensures net[q].predecessor.Some? && net[q].fingers != []
    ensures var a, b := ArcStart(kind, net[q]), ArcEnd(kind, net[q]);
            && a in net && IsNext(m, net.Keys, a, b)
            && (FindStep(kind, net[q], key).Answer? <==> b <= a && (key == a || key == b))
  {
    assert NodeOk(m, net.Keys, q, net[q]);
    hide RingOk;
    NodeBetween(m, net.Keys, ArcStart(kind, net[q]), ArcEnd(kind, net[q]), key);
  }

  ghost predicate IsLeast(nodes: set<nat>, key: nat) { forall x :: x in nodes ==> key <= x }

  ghost predicate IsGreatest(nodes: set<nat>, key: nat) { forall x :: x in nodes ==> x <= key }

  /** The two ends of the arc that wraps are the greatest and the least identifier. */
  lemma WrappingArc(m: nat, nodes: set<nat>, a: nat, b: nat)
    requires Identifiers(m, nodes) && a in nodes && IsNext(m, nodes, a, b)
    ensures b <= a <==> IsLeast(nodes, b) && IsGreatest(nodes, a)
  {
    if b <= a {
      forall x | x in nodes ensures b <= x <= a {
        assert Gap(m, a, b) <= Gap(m, a, x);
      }
    }
  }

  /** The node whose arc ends in the key at its end, or starts there. */
  lemma ArcAt(kind: Kind, m: nat, net: Network, key: nat, atEnd: bool) returns (q: nat)
    requires Identifiers(m, net.Keys) && RingOk(m, net) && key in net
    ensures q in net && net[q].predecessor.Some? && net[q].fingers != []
    ensures key == if atEnd then ArcEnd(kind, net[q]) else ArcStart(kind, net[q])
  {
    var n := net[key];
    assert NodeOk(m, net.Keys, key, n);
    q := if kind.Successor? then (if atEnd then key else n.fingers[0])
         else (if atEnd then n.predecessor.value else key);
    assert q in net && NodeOk(m, net.Keys, q, net[q]);
    hide RingOk;
    if kind.Successor? && !atEnd {
      NextIsInjective(m, net.Keys, key, net[q].predecessor.value, q);
    } else if kind.Predecessor? && atEnd {
      NextIsUnique(m, net.Keys, q, key, net[q].fingers[0]);
    }
  }

  ghost predicate SomeoneAnswers(kind: Kind, net: Network, key: nat) {
    exists q :: q in net && FindStep(kind, net[q], key).Answer?
  }

  /** Some node answers a request for a node's identifier if and only if that is the least or the greatest
      of all. */
  lemma NodeKeyAnsweredIff(kind: Kind, m: nat, net: Network, key: nat)
    requires Identifiers(m, net.Keys) && RingOk(m, net) && key in net
    ensures SomeoneAnswers(kind, net, key) <==> IsLeast(net.Keys, key) || IsGreatest(net.Keys, key)
  {
    hide RingOk, FindStep, IsNext;
    if q :| q in net && FindStep(kind, net[q], key).Answer? {
      NodeKeyAnswers(kind, m, net, q, key);
      WrappingArc(m, net.Keys, ArcStart(kind, net[q]), ArcEnd(kind, net[q]));
    }
    if IsLeast(net.Keys, key) || IsGreatest(net.Keys, key) {
      var q := ArcAt(kind, m, net, key, IsLeast(net.Keys, key));
      NodeKeyAnswers(kind, m, net, q, key);
      ArcEndsInRing(kind, m, net, q);
      assert FindStep(kind, net[q], key).Answer?;
    }
  }

  lemma ArcEndsInRing(kind: Kind, m: nat, net: Network, q: nat)
    requires RingOk(m, net) && q in net
    ensures net[q].predecessor.Some? && net[q].fingers != []
    ensures ArcStart(kind, net[q]) in net && ArcEnd(kind, net[q]) in net
  {
    assert NodeOk(m, net.Keys, q, net[q]);
  }

  /** A node that does not answer forwards to one of its fingers. */
  lemma ForwardsToFinger(kind: Kind, n: Node, key: nat)
    requires n.predecessor.Some? && n.fingers != [] && !FindStep(kind, n, key).Answer?
    ensures FindStep(kind, n, key).Forward? && FindStep(kind, n, key).to in n.fingers
  {
  }

  lemma PointersIn(m: nat, net: Network, p: nat)
    requires RingOk(m, net) && p in net
    ensures net[p].predecessor.Some? && net[p].fingers != [] && forall f :: f in net[p].fingers ==> f in net
  {
    assert NodeOk(m, net.Keys, p, net[p]);
    hide RingOk, IsNext;
  }

  lemma UnansweredForwards(kind: Kind, m: nat, net: Network, p: nat, key: nat) returns (next: nat)
    requires RingOk(m, net) && p in net && !SomeoneAnswers(kind, net, key)
    ensures next in net && FindStep(kind, net[p], key) == Forward(next)
  {
    hide RingOk, FindStep;
    PointersIn(m, net, p);
    ForwardsToFinger(kind, net[p], key);
    next := FindStep(kind, net[p], key).to;
  }

  lemma AfterForward(kind: Kind, net: Network, p: nat, key: nat, hops: nat, next: nat)
    requires p in net && FindStep(kind, net[p], key) == Forward(next)
    ensures After(kind, net, p, key, hops) == if hops == 0 then Travelling(p) else After(kind, net, next, key, hops - 1)
  {
  }

  lemma {:induction false} UnansweredTravels(kind: Kind, m: nat, net: Network, p: nat, key: nat, hops: nat)
    requires RingOk(m, net) && p in net && !SomeoneAnswers(kind, net, key)
    ensures After(kind, net, p, key, hops).Travelling?
    decreases hops
  {
    hide RingOk, FindStep, SomeoneAnswers, After;
    var next := UnansweredForwards(kind, m, net, p, key);
    AfterForward(kind, net, p, key, hops, next);
    if hops > 0 {
      UnansweredTravels(kind, m, net, next, key, hops - 1);
    }
  }

  /** A request for any other node's identifier travels for ever, wherever it starts. */
  lemma NodeKeyNeverFound(kind: Kind, m: nat, net: Network, p: nat, key: nat, hops: nat)
    requires Identifiers(m, net.Keys) && RingOk(m, net) && p in net && key in net
    requires !IsLeast(net.Keys, key) && !IsGreatest(net.Keys, key)
    ensures After(kind, net, p, key, hops).Travelling?
  {
    hide RingOk, IsLeast, IsGreatest, SomeoneAnswers;
    NodeKeyAnsweredIff(kind, m, net, key);
    UnansweredTravels(kind, m, net, p, key, hops);
  }

  lemma MiddleKey(m: nat, ids: seq<nat>, i: nat)
    requires SortedIds(m, ids) && 0 < i < |ids| - 1
    ensures ids[i] in Nodes(ids) && !IsLeast(Nodes(ids), ids[i]) && !IsGreatest(Nodes(ids), ids[i])
  {
    assert ids[0] in Nodes(ids) && ids[|ids| - 1] in Nodes(ids);
  }

  /** On an installed ring: a key that is neither the first nor the last identifier of the list. */
  lemma MiddleKeyNeverFound(kind: Kind, bits: nat, ids: seq<nat>, order: seq<nat>, p: nat, i: nat, hops: nat)
    requires 0 < bits && SortedIds(Pow2(bits), ids) && forall q :: q in order <==> q in ids
    requires Pow2(bits) - 1 !in ids && p in ids && 0 < i < |ids| - 1
    ensures After(kind, Installed(bits, ids, order), p, ids[i], hops).Travelling?
  {
    hide Installed, SortedIds, RingOk, After, Identifiers, Table, IsLeast, IsGreatest;
    InstallationIsRight(bits, ids, order);
    MiddleKey(Pow2(bits), ids, i);
    NodeKeyNeverFound(kind, Pow2(bits), Installed(bits, ids, order), p, ids[i], hops);
  }
}
