/** Finding the node that owns a key, by forwarding from node to node. */
module Lookup {
  import opened Wrappers
  import opened Ring

  /** A node's own state, identifiers being numbers. */
  datatype Node = Node(id: nat, fingers: seq<nat>, predecessor: Option<nat>)

  datatype Kind = Successor | Predecessor

  datatype Error = UnknownPredecessor | UnknownSuccessor

  /** What one node does with a request. */
  datatype Step<T> = Answer(node: T) | Forward(to: T) | Throw(error: Error)

  /** The last finger of the list that lies between the node and the key. */
  function Scan(id: nat, fingers: seq<nat>, key: nat): (r: Option<nat>)
    ensures r.Some? ==> r.value in fingers
  {
    if fingers == [] then None
    else if Between(id, fingers[|fingers| - 1], key) then Some(fingers[|fingers| - 1])
    else Scan(id, fingers[..|fingers| - 1], key)
  }

  function ClosestPreceding(n: Node, key: nat): (f: nat)
    requires n.fingers != []
    ensures f in n.fingers
  {
    match Scan(n.id, n.fingers, key)
    case Some(f) => f
    case None => n.fingers[0]
  }

  function FindStep(kind: Kind, n: Node, key: nat): Step<nat> {
    match kind
    case Successor =>
      if n.predecessor.None? then Throw(UnknownPredecessor)
      else if Between(n.predecessor.value, key, n.id) then Answer(n.id)
      else if n.fingers == [] then Throw(UnknownSuccessor)
      else Forward(ClosestPreceding(n, key))
    case Predecessor =>
      if n.fingers == [] then Throw(UnknownSuccessor)
      else if Between(n.id, key, n.fingers[0]) then Answer(n.id)
      else Forward(ClosestPreceding(n, key))
  }

  type Network = map<nat, Node>

  datatype Outcome = Found(node: nat) | Failed | Travelling(at: nat)

  /** Where a request that starts at p is after at most 'hops' forwards. */
  function After(kind: Kind, net: Network, p: nat, key: nat, hops: nat): Outcome
    decreases hops
  {
    if p !in net then Failed
    else
      match FindStep(kind, net[p], key)
      case Answer(q) => Found(q)
      case Throw(_) => Failed
      case Forward(q) => if hops == 0 then Travelling(p) else After(kind, net, q, key, hops - 1)
  }

  // ----- a ring whose pointers are right -----

  ghost predicate Identifiers(m: nat, nodes: set<nat>) { forall x :: x in nodes ==> x < m }

  ghost predicate NodeOk(m: nat, nodes: set<nat>, p: nat, n: Node)
  {
    && n.id == p && n.fingers != []
    && (forall f :: f in n.fingers ==> f in nodes)
    && IsNext(m, nodes, p, n.fingers[0])
    && n.predecessor.Some? && n.predecessor.value in nodes
    && IsNext(m, nodes, n.predecessor.value, p)
  }

  /** First fingers and predecessors are the ring's; every other finger is some node of the ring. */
  ghost predicate RingOk(m: nat, net: Network) {
    forall p :: p in net ==> NodeOk(m, net.Keys, p, net[p])
  }

  /** q is the last node met going clockwise towards the key. */
  ghost predicate IsBefore(m: nat, nodes: set<nat>, key: nat, q: nat) {
    q in nodes && forall x :: x in nodes ==> Gap(m, q, key) <= Gap(m, x, key)
  }

  /** The node a request of this kind should end at. */
  ghost predicate IsTarget(kind: Kind, m: nat, nodes: set<nat>, key: nat, q: nat) {
    if kind.Successor? then IsNext(m, nodes, key, q) else IsBefore(m, nodes, key, q)
  }

  lemma TargetIsUnique(kind: Kind, m: nat, nodes: set<nat>, key: nat, a: nat, b: nat)
    requires Identifiers(m, nodes) && key < m
    requires IsTarget(kind, m, nodes, key, a) && IsTarget(kind, m, nodes, key, b)
    ensures a == b
  {
    if kind.Successor? {
      assert Gap(m, key, a) == Gap(m, key, b);
    } else {
      assert Gap(m, a, key) == Gap(m, b, key);
    }
  }

  /** Between a node a and its next node b there is no other: the key lies there if and only if b is the
      key's next node, if and only if a is the node before the key. */
  lemma KeyInArc(m: nat, nodes: set<nat>, a: nat, b: nat, key: nat)
    requires Identifiers(m, nodes) && a in nodes && IsNext(m, nodes, a, b)
    requires key < m && key !in nodes
    ensures Between(a, key, b) <==> IsNext(m, nodes, key, b)
    ensures Between(a, key, b) <==> IsBefore(m, nodes, key, a)
  {
    if a == b {
      assert forall x :: x in nodes ==> x == a by {
        forall x | x in nodes ensures x == a {
          assert Gap(m, a, b) <= Gap(m, a, x);
        }
      }
    } else {
      BetweenIsClockwise(m, a, key, b);
      if Gap(m, a, key) < Gap(m, a, b) {
        forall x | x in nodes
          ensures Gap(m, key, b) <= Gap(m, key, x) && Gap(m, a, key) <= Gap(m, x, key)
        {
          assert Gap(m, a, b) <= Gap(m, a, x);
        }
      } else {
        assert Gap(m, key, a) < Gap(m, key, b);
        assert Gap(m, b, key) < Gap(m, a, key);
      }
    }
  }

  /** A node answers a request exactly when it is the one looked for. */
  lemma AnswersIfTarget(kind: Kind, m: nat, net: Network, p: nat, key: nat)
    requires Identifiers(m, net.Keys) && RingOk(m, net) && p in net && key < m && key !in net
    ensures FindStep(kind, net[p], key).Answer? <==> IsTarget(kind, m, net.Keys, key, p)
    ensures FindStep(kind, net[p], key).Answer? ==> FindStep(kind, net[p], key).node == p
    ensures !FindStep(kind, net[p], key).Throw?
  {
    assert NodeOk(m, net.Keys, p, net[p]);
    assert net[p].fingers[0] in net[p].fingers;
    hide RingOk, IsNext, IsBefore, Between;
    KeyInArc(m, net.Keys, net[p].predecessor.value, p, key);
    KeyInArc(m, net.Keys, p, net[p].fingers[0], key);
  }

  lemma {:induction false} ScanFinds(id: nat, fingers: seq<nat>, key: nat)
    ensures Scan(id, fingers, key).None? <==> forall j :: 0 <= j < |fingers| ==> !Between(id, fingers[j], key)
    ensures Scan(id, fingers, key).Some? ==>
      exists j :: 0 <= j < |fingers| && fingers[j] == Scan(id, fingers, key).value && Between(id, fingers[j], key)
                  && forall i :: j < i < |fingers| ==> !Between(id, fingers[i], key)
    decreases |fingers|
  {
    if fingers != [] && !Between(id, fingers[|fingers| - 1], key) {
      ScanFinds(id, fingers[..|fingers| - 1], key);
    }
  }

  lemma ScannedIsNearer(m: nat, p: nat, f: nat, key: nat)
    requires p < m && f < m && key < m && p != key && f != key && p != f
    requires Between(p, f, key)
    ensures Gap(m, f, key) < Gap(m, p, key)
  {
    BetweenIsClockwise(m, p, f, key);
    GapSplit(m, p, f, key);
  }

  /** When no finger lies before the key, the node is the one before the key and its first finger the owner. */
  lemma FrontIsOwner(m: nat, nodes: set<nat>, p: nat, n: Node, key: nat)
    requires Identifiers(m, nodes) && p in nodes && NodeOk(m, nodes, p, n) && key < m && key !in nodes
    requires !Between(p, n.fingers[0], key)
    ensures IsBefore(m, nodes, key, p) && IsNext(m, nodes, key, n.fingers[0])
  {
    var f := n.fingers[0];
    assert f in nodes;
    if f != p {
      BetweenIsClockwise(m, p, f, key);
      BetweenIsClockwise(m, p, key, f);
    }
    KeyInArc(m, nodes, p, f, key);
  }

  lemma ForwardFrom(kind: Kind, m: nat, nodes: set<nat>, p: nat, n: Node, key: nat)
    requires Identifiers(m, nodes) && p in nodes && NodeOk(m, nodes, p, n) && key < m && key !in nodes
    requires FindStep(kind, n, key).Forward?
    ensures var q := FindStep(kind, n, key).to;
            && q in nodes
            && (q == p || Gap(m, q, key) < Gap(m, p, key)
                || (kind.Successor? && IsBefore(m, nodes, key, p) && IsNext(m, nodes, key, q)))
  {
    ScanFinds(p, n.fingers, key);
    var q := FindStep(kind, n, key).to;
    assert q in nodes;
    if Scan(p, n.fingers, key).Some? {
      if q != p {
        ScannedIsNearer(m, p, q, key);
      }
    } else {
      assert !Between(p, n.fingers[0], key);
      FrontIsOwner(m, nodes, p, n, key);
      KeyInArc(m, nodes, p, n.fingers[0], key);
    }
  }

  /** A forward stays put, or comes strictly nearer to the key, or is the last one, to the key's owner. */
  lemma ForwardIsNearer(kind: Kind, m: nat, net: Network, p: nat, key: nat)
    requires Identifiers(m, net.Keys) && RingOk(m, net) && p in net && key < m && key !in net
    requires FindStep(kind, net[p], key).Forward?
    ensures var q := FindStep(kind, net[p], key).to;
            && q in net
            && (q == p || Gap(m, q, key) < Gap(m, p, key)
                || (kind.Successor? && IsBefore(m, net.Keys, key, p) && IsNext(m, net.Keys, key, q)))
  {
    assert NodeOk(m, net.Keys, p, net[p]);
    ForwardFrom(kind, m, net.Keys, p, net[p], key);
  }

  /** A node that forwards a request to itself. */
  predicate SelfForwards(kind: Kind, net: Network, p: nat, key: nat) {
    p in net && FindStep(kind, net[p], key) == Forward(p)
  }

  /** No node forwards the key to itself. */
  predicate NoneSelfForwards(kind: Kind, net: Network, key: nat) {
    forall q :: q in net ==> !SelfForwards(kind, net, q, key)
  }

  lemma {:induction false} StuckForever(kind: Kind, net: Network, p: nat, key: nat, hops: nat)
    requires SelfForwards(kind, net, p, key)
    ensures After(kind, net, p, key, hops) == Travelling(p)
    decreases hops
  {
    if hops > 0 {
      StuckForever(kind, net, p, key, hops - 1);
    }
  }

  /** The request that started at p is answered by q within so many forwards, or stays at q from then on. */
  ghost predicate Settles(kind: Kind, net: Network, p: nat, key: nat, hops: nat, q: nat) {
    || After(kind, net, p, key, hops) == Found(q)
    || (SelfForwards(kind, net, q, key) && forall h :: h >= hops ==> After(kind, net, p, key, h) == Travelling(q))
  }

  lemma SettlesOneLater(kind: Kind, net: Network, p: nat, key: nat, hops: nat, q: nat, next: nat)
    requires p in net && FindStep(kind, net[p], key) == Forward(next) && Settles(kind, net, next, key, hops, q)
    ensures Settles(kind, net, p, key, hops + 1, q)
  {
    if After(kind, net, next, key, hops) != Found(q) {
      forall h: nat | h >= hops + 1
        ensures After(kind, net, p, key, h) == Travelling(q)
      {
        assert After(kind, net, next, key, h - 1) == Travelling(q);
      }
    }
  }

  lemma AnsweredAtOnce(kind: Kind, m: nat, net: Network, p: nat, key: nat)
    requires Identifiers(m, net.Keys) && RingOk(m, net) && p in net && key < m && key !in net
    requires IsTarget(kind, m, net.Keys, key, p)
    ensures Settles(kind, net, p, key, 0, p)
  {
    AnswersIfTarget(kind, m, net, p, key);
  }

  lemma StuckAtOnce(kind: Kind, net: Network, p: nat, key: nat)
    requires SelfForwards(kind, net, p, key)
    ensures Settles(kind, net, p, key, 0, p)
  {
    forall h: nat ensures After(kind, net, p, key, h) == Travelling(p) {
      StuckForever(kind, net, p, key, h);
    }
  }

  /** From a node that is not the target a request stays put, comes nearer, or goes to the target. */
  lemma NextForward(kind: Kind, m: nat, net: Network, p: nat, key: nat) returns (next: nat)
    requires Identifiers(m, net.Keys) && RingOk(m, net) && p in net && key < m && key !in net
    requires !IsTarget(kind, m, net.Keys, key, p)
    ensures FindStep(kind, net[p], key) == Forward(next) && next in net
    ensures next == p || Gap(m, next, key) < Gap(m, p, key) || IsTarget(kind, m, net.Keys, key, next)
  {
    AnswersIfTarget(kind, m, net, p, key);
    next := FindStep(kind, net[p], key).to;
    ForwardIsNearer(kind, m, net, p, key);
  }

  /** Every request either ends at the node looked for, or reaches a node that forwards it to itself. */
  lemma {:induction false} Travels(kind: Kind, m: nat, net: Network, p: nat, key: nat) returns (hops: nat, q: nat)
    requires Identifiers(m, net.Keys) && RingOk(m, net) && p in net && key < m && key !in net
    ensures Settles(kind, net, p, key, hops, q)
    ensures IsTarget(kind, m, net.Keys, key, q) || SelfForwards(kind, net, q, key)
    decreases Gap(m, p, key)
  {
    hide RingOk, IsTarget, Settles, After;
    if IsTarget(kind, m, net.Keys, key, p) {
      AnsweredAtOnce(kind, m, net, p, key);
      hops, q := 0, p;
    } else {
      var next := NextForward(kind, m, net, p, key);
      if next == p {
        StuckAtOnce(kind, net, p, key);
        hops, q := 0, p;
      } else {
        var rest;
        if IsTarget(kind, m, net.Keys, key, next) {
          AnsweredAtOnce(kind, m, net, next, key);
          rest, q := 0, next;
        } else {
          rest, q := Travels(kind, m, net, next, key);
        }
        SettlesOneLater(kind, net, p, key, rest, q, next);
        hops := rest + 1;
      }
    }
  }

  ghost predicate EveryLookupEnds(kind: Kind, m: nat, net: Network, key: nat) {
    forall p :: p in net ==> LookupEnds(kind, m, net, p, key)
  }

  ghost predicate LookupEnds(kind: Kind, m: nat, net: Network, p: nat, key: nat) {
    exists hops :: EndsWithin(kind, m, net, p, key, hops)
  }

  ghost predicate EndsWithin(kind: Kind, m: nat, net: Network, p: nat, key: nat, hops: nat) {
    After(kind, net, p, key, hops).Found? && IsTarget(kind, m, net.Keys, key, After(kind, net, p, key, hops).node)
  }

  lemma NotStuckEnds(kind: Kind, m: nat, net: Network, p: nat, key: nat)
    requires Identifiers(m, net.Keys) && RingOk(m, net) && p in net && key < m && key !in net
    requires NoneSelfForwards(kind, net, key)
    ensures LookupEnds(kind, m, net, p, key)
  {
    hide RingOk, IsTarget, After, FindStep;
    var hops, q := Travels(kind, m, net, p, key);
    assert EndsWithin(kind, m, net, p, key, hops);
  }

  /** On a ring whose pointers are right, every lookup of a key ends, and at the right node, if and only
      if no node forwards that key to itself. */
  lemma LookupsEndIff(kind: Kind, m: nat, net: Network, key: nat)
    requires Identifiers(m, net.Keys) && RingOk(m, net) && key < m && key !in net
    ensures EveryLookupEnds(kind, m, net, key) <==> NoneSelfForwards(kind, net, key)
  {
    hide RingOk, SelfForwards, LookupEnds;
    if NoneSelfForwards(kind, net, key) {
      forall p | p in net ensures LookupEnds(kind, m, net, p, key) {
        NotStuckEnds(kind, m, net, p, key);
      }
    } else {
      var q :| q in net && SelfForwards(kind, net, q, key);
      StuckNeverEnds(kind, m, net, q, key);
    }
  }

  lemma StuckNeverEnds(kind: Kind, m: nat, net: Network, q: nat, key: nat)
    requires Identifiers(m, net.Keys) && key < m && SelfForwards(kind, net, q, key)
    ensures !LookupEnds(kind, m, net, q, key)
  {
    forall hops: nat ensures !EndsWithin(kind, m, net, q, key, hops) {
      StuckForever(kind, net, q, key, hops);
    }
  }

  /** The last finger between the node and the key, ends included, is the node's own identifier. */
  predicate LastUsableIsSelf(p: nat, fingers: seq<nat>, key: nat) {
    exists j :: 0 <= j < |fingers| && fingers[j] == p
                && forall i :: j < i < |fingers| ==> !Between(p, fingers[i], key)
  }

  /** What a caller can check in a node's table beforehand: a node forwards a key to itself exactly when
      it is not the node looked for, the key wraps, and its last usable finger is itself. */
  lemma SelfForwardsIff(kind: Kind, m: nat, net: Network, p: nat, key: nat)
    requires Identifiers(m, net.Keys) && RingOk(m, net) && p in net && key < m && key !in net
    ensures SelfForwards(kind, net, p, key) <==>
            !IsTarget(kind, m, net.Keys, key, p) && key < p && LastUsableIsSelf(p, net[p].fingers, key)
  {
    var n := net[p];
    assert NodeOk(m, net.Keys, p, n) && n.id == p && n.fingers != [];
    hide RingOk, IsTarget, NodeOk;
    AnswersIfTarget(kind, m, net, p, key);
    if !IsTarget(kind, m, net.Keys, key, p) {
      FrontIsNotSelf(kind, m, net.Keys, p, n, key);
      ForwardIsSelfIff(kind, n, key);
    }
  }

  lemma ForwardIsSelfIff(kind: Kind, n: Node, key: nat)
    requires n.id != key && n.fingers != [] && n.fingers[0] != n.id && FindStep(kind, n, key).Forward?
    ensures FindStep(kind, n, key) == Forward(n.id) <==> key < n.id && LastUsableIsSelf(n.id, n.fingers, key)
  {
    ScanIsSelfIff(n.id, n.fingers, key);
  }

  lemma ScanIsSelfIff(p: nat, fingers: seq<nat>, key: nat)
    requires p != key
    ensures Scan(p, fingers, key) == Some(p) <==> key < p && LastUsableIsSelf(p, fingers, key)
  {
    ScanFinds(p, fingers, key);
    BetweenAtTheEnds(p, key);
  }

  lemma FrontIsNotSelf(kind: Kind, m: nat, nodes: set<nat>, p: nat, n: Node, key: nat)
    requires Identifiers(m, nodes) && p in nodes && NodeOk(m, nodes, p, n) && key < m && key !in nodes
    requires !IsTarget(kind, m, nodes, key, p)
    ensures n.fingers[0] != p
  {
    KeyInArc(m, nodes, p, n.fingers[0], key);
  }
}
