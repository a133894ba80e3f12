/** Lookups of keys that are node identifiers: which of them end, and where. */
module NodeLookups {
  import opened Ring
  import opened Lookup
  import opened Tables
  import opened NodeKeys
  import BuiltHops

  /** A ring with its least and its greatest identifier. */
  ghost predicate Extremes(m: nat, net: Network, least: nat, greatest: nat) {
    && Identifiers(m, net.Keys) && RingOk(m, net)
    && least in net && IsLeast(net.Keys, least) && greatest in net && IsGreatest(net.Keys, greatest)
  }

  /** The only node that can answer for a node's identifier: the one whose arc wraps. */
  function Answerer(kind: Kind, least: nat, greatest: nat): nat {
    if kind.Successor? then least else greatest
  }

  lemma ArcOfNode(kind: Kind, m: nat, net: Network, p: nat, least: nat, greatest: nat)
    requires Extremes(m, net, least, greatest) && p in net
    ensures net[p].id == p && net[p].fingers != [] && net[p].predecessor.Some?
    ensures ArcStart(kind, net[p]) in net && IsNext(m, net.Keys, ArcStart(kind, net[p]), ArcEnd(kind, net[p]))
    ensures ArcEnd(kind, net[p]) <= ArcStart(kind, net[p]) <==> p == Answerer(kind, least, greatest)
  {
    assert NodeOk(m, net.Keys, p, net[p]);
    hide RingOk;
    var a, b := ArcStart(kind, net[p]), ArcEnd(kind, net[p]);
    WrappingArc(m, net.Keys, a, b);
    if p == Answerer(kind, least, greatest) {
      assert Gap(m, a, b) <= Gap(m, a, if kind.Successor? then greatest else least);
    }
  }

  /** A node answers for the least or the greatest identifier exactly when it is that node. */
  lemma AnswersForEnd(kind: Kind, m: nat, net: Network, p: nat, key: nat, least: nat, greatest: nat)
    requires Extremes(m, net, least, greatest) && p in net && (key == least || key == greatest)
    ensures FindStep(kind, net[p], key) == Answer(p) <==> p == Answerer(kind, least, greatest)
    ensures FindStep(kind, net[p], key).Answer? ==> FindStep(kind, net[p], key) == Answer(p)
    ensures !FindStep(kind, net[p], key).Throw?
  {
    hide RingOk, IsNext, Between;
    ArcOfNode(kind, m, net, p, least, greatest);
    NodeKeyAnswers(kind, m, net, p, key);
    var a, b := ArcStart(kind, net[p]), ArcEnd(kind, net[p]);
    ArcEndsInRing(kind, m, net, p);
    if p == Answerer(kind, least, greatest) {
      WrappingArc(m, net.Keys, a, b);
      assert b == least && a == greatest;
    }
    hide IsLeast, IsGreatest, Extremes;
  }

  lemma NextUp(m: nat, nodes: set<nat>, p: nat, f: nat, least: nat, greatest: nat)
    requires IsNext(m, nodes, p, f) && least in nodes && greatest in nodes
    requires least <= p <= greatest && least <= f <= greatest < m
    ensures if p == greatest then f == least else p < f
  {
    assert Gap(m, p, f) <= Gap(m, p, greatest) && Gap(m, p, f) <= Gap(m, p, least);
    hide IsNext;
  }

  /** The first finger leads up, except from the greatest node, where it leads to the least. */
  lemma FirstFingerUp(m: nat, net: Network, p: nat, least: nat, greatest: nat)
    requires Extremes(m, net, least, greatest) && p in net
    ensures net[p].fingers != [] && net[p].fingers[0] in net
    ensures if p == greatest then net[p].fingers[0] == least else p < net[p].fingers[0]
  {
    hide IsNext;
    assert NodeOk(m, net.Keys, p, net[p]) && net[p].fingers[0] in net[p].fingers;
    assert net[p].fingers[0] in net;
    hide RingOk, NodeOk;
    NextUp(m, net.Keys, p, net[p].fingers[0], least, greatest);
  }

  ghost predicate WithinEnds(n: Node, least: nat, greatest: nat) {
    forall f :: f in n.fingers ==> least <= f <= greatest
  }

  lemma FingersWithin(m: nat, net: Network, p: nat, least: nat, greatest: nat)
    requires Extremes(m, net, least, greatest) && p in net
    ensures WithinEnds(net[p], least, greatest) && forall f :: f in net[p].fingers ==> f in net
  {
    assert NodeOk(m, net.Keys, p, net[p]);
  }

  /** Towards the greatest identifier every node below forwards up. */
  lemma ClosestTowardsGreatest(n: Node, least: nat, greatest: nat)
    requires n.fingers != [] && WithinEnds(n, least, greatest) && n.id < n.fingers[0] && n.id < greatest
    ensures n.id < ClosestPreceding(n, greatest)
  {
    ScanFinds(n.id, n.fingers, greatest);
  }

  /** Towards the least identifier a node forwards up, to itself, or to the least. */
  lemma ClosestTowardsLeast(n: Node, least: nat, greatest: nat)
    requires n.fingers != [] && WithinEnds(n, least, greatest) && least < n.id
    requires n.id < n.fingers[0] || n.fingers[0] == least
    ensures ClosestPreceding(n, least) == least || n.id <= ClosestPreceding(n, least)
  {
    ScanFinds(n.id, n.fingers, least);
  }

  /** For its own identifier a node considers every finger usable and takes the last. */
  lemma ClosestToItself(n: Node)
    requires n.fingers != []
    ensures ClosestPreceding(n, n.id) == n.fingers[|n.fingers| - 1]
  {
  }

  lemma ForwardOf(kind: Kind, m: nat, net: Network, p: nat, key: nat, least: nat, greatest: nat) returns (q: nat)
    requires Extremes(m, net, least, greatest) && p in net && (key == least || key == greatest)
    requires p != Answerer(kind, least, greatest)
    ensures net[p].id == p && net[p].fingers != []
    ensures FindStep(kind, net[p], key) == Forward(q) && q == ClosestPreceding(net[p], key) && q in net
  {
    hide Extremes, ClosestPreceding;
    AnswersForEnd(kind, m, net, p, key, least, greatest);
    ArcOfNode(kind, m, net, p, least, greatest);
    FingersWithin(m, net, p, least, greatest);
    q := ClosestPreceding(net[p], key);
  }

  lemma UpToGreatest(kind: Kind, m: nat, net: Network, p: nat, least: nat, greatest: nat) returns (q: nat)
    requires Extremes(m, net, least, greatest) && p in net && p != greatest && p != Answerer(kind, least, greatest)
    ensures FindStep(kind, net[p], greatest) == Forward(q) && q in net && p < q
  {
    q := ForwardOf(kind, m, net, p, greatest, least, greatest);
    assert p < greatest;
    FingersWithin(m, net, p, least, greatest);
    FirstFingerUp(m, net, p, least, greatest);
    hide Extremes, FindStep, ClosestPreceding, WithinEnds;
    ClosestTowardsGreatest(net[p], least, greatest);
  }

  lemma UpOrLeast(kind: Kind, m: nat, net: Network, p: nat, least: nat, greatest: nat) returns (q: nat)
    requires Extremes(m, net, least, greatest) && p in net && p != least && p != Answerer(kind, least, greatest)
    ensures FindStep(kind, net[p], least) == Forward(q) && q in net && (q == least || p <= q)
  {
    q := ForwardOf(kind, m, net, p, least, least, greatest);
    assert least < p;
    FingersWithin(m, net, p, least, greatest);
    FirstFingerUp(m, net, p, least, greatest);
    hide Extremes, FindStep, ClosestPreceding, WithinEnds;
    ClosestTowardsLeast(net[p], least, greatest);
  }

  function LastFinger(n: Node): nat
    requires n.fingers != []
  {
    n.fingers[|n.fingers| - 1]
  }

  lemma FromItself(kind: Kind, m: nat, net: Network, key: nat, least: nat, greatest: nat)
    requires Extremes(m, net, least, greatest) && (key == least || key == greatest) && key != Answerer(kind, least, greatest)
    ensures net[key].fingers != [] && LastFinger(net[key]) in net
    ensures FindStep(kind, net[key], key) == Forward(LastFinger(net[key]))
  {
    hide Extremes, FindStep;
    assert key in net by {
      EndsIn(m, net, least, greatest);
    }
    var q := ForwardOf(kind, m, net, key, key, least, greatest);
    ClosestToItself(net[key]);
  }

  lemma EndsIn(m: nat, net: Network, least: nat, greatest: nat)
    requires Extremes(m, net, least, greatest)
    ensures least in net && greatest in net && least <= greatest && forall p :: p in net ==> least <= p <= greatest
  {
  }

  // ----- what ends -----

  /** The lookup from p is answered, by the one node that can. */
  ghost predicate Ends(kind: Kind, net: Network, p: nat, key: nat, answerer: nat) {
    exists hops :: After(kind, net, p, key, hops) == Found(answerer)
  }

  lemma EndsAtOnce(kind: Kind, net: Network, p: nat, key: nat)
    requires p in net && FindStep(kind, net[p], key) == Answer(p)
    ensures Ends(kind, net, p, key, p)
  {
    assert After(kind, net, p, key, 0) == Found(p);
  }

  lemma EndsLater(kind: Kind, net: Network, p: nat, key: nat, next: nat, answerer: nat)
    requires p in net && FindStep(kind, net[p], key) == Forward(next) && Ends(kind, net, next, key, answerer)
    ensures Ends(kind, net, p, key, answerer)
  {
    var hops: nat :| After(kind, net, next, key, hops) == Found(answerer);
    assert After(kind, net, p, key, hops + 1) == Found(answerer);
  }

  /** Nodes that forward only among each other. */
  ghost predicate Closed(kind: Kind, net: Network, key: nat, nodes: set<nat>) {
    forall p :: p in nodes ==>
      p in net && FindStep(kind, net[p], key).Forward? && FindStep(kind, net[p], key).to in nodes
  }

  lemma {:induction false} ClosedTravels(kind: Kind, net: Network, key: nat, nodes: set<nat>, p: nat, hops: nat)
    requires Closed(kind, net, key, nodes) && p in nodes
    ensures After(kind, net, p, key, hops).Travelling?
    decreases hops
  {
    var next := FindStep(kind, net[p], key).to;
    assert p in net && FindStep(kind, net[p], key) == Forward(next) && next in nodes;
    hide FindStep, After;
    AfterForward(kind, net, p, key, hops, next);
    if hops > 0 {
      ClosedTravels(kind, net, key, nodes, next, hops - 1);
    }
  }

  lemma ClosedNeverEnds(kind: Kind, net: Network, key: nat, nodes: set<nat>, p: nat, answerer: nat)
    requires Closed(kind, net, key, nodes) && p in nodes
    ensures !Ends(kind, net, p, key, answerer)
  {
    hide Closed;
    forall hops: nat ensures After(kind, net, p, key, hops) != Found(answerer) {
      ClosedTravels(kind, net, key, nodes, p, hops);
    }
  }

  // ----- the greatest identifier -----

  /** Every lookup of the greatest identifier climbs to the greatest node, or is answered on its way. */
  lemma {:induction false} ClimbToGreatest(kind: Kind, m: nat, net: Network, p: nat, least: nat, greatest: nat)
    requires Extremes(m, net, least, greatest) && p in net
    requires Ends(kind, net, greatest, greatest, Answerer(kind, least, greatest))
    ensures Ends(kind, net, p, greatest, Answerer(kind, least, greatest))
    decreases greatest - p
  {
    hide Extremes, FindStep, Ends;
    EndsIn(m, net, least, greatest);
    if p == Answerer(kind, least, greatest) {
      AnswersForEnd(kind, m, net, p, greatest, least, greatest);
      EndsAtOnce(kind, net, p, greatest);
    } else if p != greatest {
      var q := UpToGreatest(kind, m, net, p, least, greatest);
      EndsIn(m, net, least, greatest);
      ClimbToGreatest(kind, m, net, q, least, greatest);
      EndsLater(kind, net, p, greatest, q, Answerer(kind, least, greatest));
    }
  }

  lemma GreatestEnds(kind: Kind, m: nat, net: Network, least: nat, greatest: nat)
    requires Extremes(m, net, least, greatest) && net[greatest].fingers != []
    requires kind.Successor? ==> LastFinger(net[greatest]) == least
    ensures Ends(kind, net, greatest, greatest, Answerer(kind, least, greatest))
  {
    hide Extremes, FindStep, Ends;
    EndsIn(m, net, least, greatest);
    AnswersForEnd(kind, m, net, Answerer(kind, least, greatest), greatest, least, greatest);
    EndsAtOnce(kind, net, Answerer(kind, least, greatest), greatest);
    if greatest != Answerer(kind, least, greatest) {
      FromItself(kind, m, net, greatest, least, greatest);
      EndsLater(kind, net, greatest, greatest, least, least);
    }
  }

  lemma RoundStep(m: nat, net: Network, p: nat, least: nat, greatest: nat)
    requires Extremes(m, net, least, greatest) && net[greatest].fingers != [] && LastFinger(net[greatest]) != least
    requires p in net && p != least
    ensures FindStep(Successor, net[p], greatest).Forward?
    ensures FindStep(Successor, net[p], greatest).to in net && FindStep(Successor, net[p], greatest).to != least
  {
    hide Extremes, FindStep;
    EndsIn(m, net, least, greatest);
    if p == greatest {
      FromItself(Successor, m, net, greatest, least, greatest);
    } else {
      var q := UpToGreatest(Successor, m, net, p, least, greatest);
    }
  }

  /** Otherwise a request for its successor goes round for ever among the nodes other than the least. */
  lemma GreatestGoesRound(m: nat, net: Network, least: nat, greatest: nat)
    requires Extremes(m, net, least, greatest) && net[greatest].fingers != [] && LastFinger(net[greatest]) != least
    ensures Closed(Successor, net, greatest, net.Keys - {least})
  {
    hide Extremes, FindStep, LastFinger;
    forall p | p in net && p != least
      ensures FindStep(Successor, net[p], greatest).Forward? && FindStep(Successor, net[p], greatest).to in net.Keys - {least}
    {
      RoundStep(m, net, p, least, greatest);
    }
  }

  lemma GreatestStays(m: nat, net: Network, p: nat, least: nat, greatest: nat, hops: nat)
    requires Extremes(m, net, least, greatest) && net[greatest].fingers != [] && LastFinger(net[greatest]) != least
    requires p in net && p != least
    ensures After(Successor, net, p, greatest, hops).Travelling?
  {
    hide Extremes, LastFinger, Closed, After;
    GreatestGoesRound(m, net, least, greatest);
    ClosedTravels(Successor, net, greatest, net.Keys - {least}, p, hops);
  }

  /** A lookup of the greatest identifier from p ends if and only if it asks for the predecessor, or starts at
      the least node, or the greatest node's last table entry is the least node. */
  lemma GreatestEndsIff(kind: Kind, m: nat, net: Network, p: nat, least: nat, greatest: nat)
    requires Extremes(m, net, least, greatest) && p in net
    ensures net[greatest].fingers != []
    ensures Ends(kind, net, p, greatest, Answerer(kind, least, greatest)) <==>
            kind.Predecessor? || p == least || LastFinger(net[greatest]) == least
  {
    hide Extremes, FindStep, Ends, Closed;
    EndsIn(m, net, least, greatest);
    FirstFingerUp(m, net, greatest, least, greatest);
    if kind.Predecessor? || LastFinger(net[greatest]) == least {
      GreatestEnds(kind, m, net, least, greatest);
      ClimbToGreatest(kind, m, net, p, least, greatest);
    } else if p == least {
      AnswersForEnd(kind, m, net, least, greatest, least, greatest);
      EndsAtOnce(kind, net, least, greatest);
    } else {
      GreatestGoesRound(m, net, least, greatest);
      ClosedNeverEnds(kind, net, greatest, net.Keys - {least}, p, least);
    }
  }

  // ----- the least identifier -----

  lemma SelfNeverEnds(kind: Kind, net: Network, p: nat, key: nat, answerer: nat)
    requires SelfForwards(kind, net, p, key)
    ensures !Ends(kind, net, p, key, answerer)
  {
    ClosedNeverEnds(kind, net, key, {p}, p, answerer);
  }

  /** When nobody forwards to itself, a lookup of the least identifier climbs until it is answered or comes to
      the least node. */
  lemma {:induction false} ClimbOrLeast(kind: Kind, m: nat, net: Network, p: nat, least: nat, greatest: nat)
    requires Extremes(m, net, least, greatest) && p in net && NoneSelfForwards(kind, net, least)
    requires Ends(kind, net, least, least, Answerer(kind, least, greatest))
    ensures Ends(kind, net, p, least, Answerer(kind, least, greatest))
    decreases greatest - p
  {
    hide Extremes, FindStep, Ends;
    assert SelfForwards(kind, net, p, least) <==> FindStep(kind, net[p], least) == Forward(p);
    assert !SelfForwards(kind, net, p, least);
    hide SelfForwards;
    EndsIn(m, net, least, greatest);
    if p == Answerer(kind, least, greatest) {
      AnswersForEnd(kind, m, net, p, least, least, greatest);
      EndsAtOnce(kind, net, p, least);
    } else if p != least {
      var q := UpOrLeast(kind, m, net, p, least, greatest);
      if q != least {
        ClimbOrLeast(kind, m, net, q, least, greatest);
      }
      EndsLater(kind, net, p, least, q, Answerer(kind, least, greatest));
    }
  }

  /** Where a predecessor request for the least identifier stops climbing. */
  function ClimbEnd(m: nat, net: Network, p: nat, key: nat): (end: nat)
    ensures p <= end
    decreases m - p
  {
    if p !in net || m <= p then p
    else
      match FindStep(Predecessor, net[p], key)
      case Forward(q) => if p < q then ClimbEnd(m, net, q, key) else p
      case _ => p
  }

  lemma {:induction false} ClimbEnds(m: nat, net: Network, p: nat, least: nat, greatest: nat)
    requires Extremes(m, net, least, greatest) && p in net && ClimbEnd(m, net, p, least) == greatest
    ensures Ends(Predecessor, net, p, least, greatest)
    decreases m - p
  {
    hide Extremes, Ends;
    if p == greatest {
      hide FindStep;
      AnswersForEnd(Predecessor, m, net, p, least, least, greatest);
      EndsAtOnce(Predecessor, net, p, least);
    } else {
      var q := ForwardOf(Predecessor, m, net, p, least, least, greatest);
      assert p < q && ClimbEnd(m, net, q, least) == greatest;
      hide FindStep;
      ClimbEnds(m, net, q, least, greatest);
      EndsLater(Predecessor, net, p, least, q, greatest);
    }
  }

  /** The nodes from which the climb stops where the climb from the least node stops. */
  function Climbers(m: nat, net: Network, least: nat): set<nat> {
    set p | p in net && ClimbEnd(m, net, p, least) == ClimbEnd(m, net, least, least)
  }

  /** If that is short of the greatest node, they forward only among each other: the last of them forwards to
      itself or to the least node. */
  lemma ClimbersClosed(m: nat, net: Network, least: nat, greatest: nat)
    requires Extremes(m, net, least, greatest) && ClimbEnd(m, net, least, least) != greatest
    ensures Closed(Predecessor, net, least, Climbers(m, net, least))
  {
    forall p | p in Climbers(m, net, least)
      ensures FindStep(Predecessor, net[p], least).Forward? && FindStep(Predecessor, net[p], least).to in Climbers(m, net, least)
    {
      ClimberForwards(m, net, p, least, greatest);
    }
  }

  lemma ClimbStep(m: nat, net: Network, p: nat, key: nat, q: nat)
    requires p in net && p < m && FindStep(Predecessor, net[p], key) == Forward(q)
    ensures ClimbEnd(m, net, p, key) == if p < q then ClimbEnd(m, net, q, key) else p
  {
  }

  lemma ClimbStops(m: nat, net: Network, p: nat, key: nat)
    requires p in net && FindStep(Predecessor, net[p], key).Answer?
    ensures ClimbEnd(m, net, p, key) == p
  {
  }

  lemma ClimberForwards(m: nat, net: Network, p: nat, least: nat, greatest: nat)
    requires Extremes(m, net, least, greatest) && p in net && ClimbEnd(m, net, p, least) == ClimbEnd(m, net, least, least) != greatest
    ensures FindStep(Predecessor, net[p], least).Forward?
    ensures var q := FindStep(Predecessor, net[p], least).to;
            q in net && ClimbEnd(m, net, q, least) == ClimbEnd(m, net, least, least)
  {
    hide Extremes, FindStep, ClimbEnd;
    EndsIn(m, net, least, greatest);
    AnswersForEnd(Predecessor, m, net, greatest, least, least, greatest);
    ClimbStops(m, net, greatest, least);
    BelowM(m, net, p, least, greatest);
    var q := ForwardOf(Predecessor, m, net, p, least, least, greatest);
    ClimbStep(m, net, p, least, q);
    if p != least {
      var r := UpOrLeast(Predecessor, m, net, p, least, greatest);
    }
  }

  lemma BelowM(m: nat, net: Network, p: nat, least: nat, greatest: nat)
    requires Extremes(m, net, least, greatest) && p in net
    ensures p < m
  {
    hide RingOk;
  }

  lemma LeastGoesRound(m: nat, net: Network, least: nat, greatest: nat)
    requires Extremes(m, net, least, greatest) && ClimbEnd(m, net, least, least) != greatest
    ensures !Ends(Predecessor, net, least, least, greatest)
  {
    ClimbersClosed(m, net, least, greatest);
    EndsIn(m, net, least, greatest);
    hide Extremes, Closed, Ends;
    ClosedNeverEnds(Predecessor, net, least, Climbers(m, net, least), least, greatest);
  }

  // ----- the result -----

  ghost predicate EveryEnds(kind: Kind, net: Network, key: nat, answerer: nat) {
    forall p :: p in net ==> Ends(kind, net, p, key, answerer)
  }

  /** Some node forwards the least identifier to itself. */
  lemma SelfBreaksLeast(kind: Kind, net: Network, least: nat, answerer: nat)
    requires !NoneSelfForwards(kind, net, least)
    ensures !EveryEnds(kind, net, least, answerer)
  {
    var p :| p in net && SelfForwards(kind, net, p, least);
    hide SelfForwards, Ends;
    SelfNeverEnds(kind, net, p, least, answerer);
  }

  lemma FromLeastEnds(kind: Kind, m: nat, net: Network, least: nat, greatest: nat)
    requires Extremes(m, net, least, greatest)
    ensures Ends(kind, net, least, least, Answerer(kind, least, greatest)) <==>
            (kind.Predecessor? ==> ClimbEnd(m, net, least, least) == greatest)
  {
    hide Extremes, Ends, FindStep, ClimbEnd;
    EndsIn(m, net, least, greatest);
    if kind.Successor? {
      AnswersForEnd(kind, m, net, least, least, least, greatest);
      EndsAtOnce(kind, net, least, least);
    } else if ClimbEnd(m, net, least, least) == greatest {
      ClimbEnds(m, net, least, least, greatest);
    } else {
      LeastGoesRound(m, net, least, greatest);
    }
  }

  lemma LeastEndsIff(kind: Kind, m: nat, net: Network, least: nat, greatest: nat)
    requires Extremes(m, net, least, greatest)
    ensures EveryEnds(kind, net, least, Answerer(kind, least, greatest)) <==>
            NoneSelfForwards(kind, net, least) && (kind.Predecessor? ==> ClimbEnd(m, net, least, least) == greatest)
  {
    hide Extremes, Ends, FindStep, NoneSelfForwards, ClimbEnd, Answerer;
    EndsIn(m, net, least, greatest);
    FromLeastEnds(kind, m, net, least, greatest);
    if !NoneSelfForwards(kind, net, least) {
      SelfBreaksLeast(kind, net, least, Answerer(kind, least, greatest));
    } else if Ends(kind, net, least, least, Answerer(kind, least, greatest)) {
      forall p | p in net ensures Ends(kind, net, p, least, Answerer(kind, least, greatest)) {
        ClimbOrLeast(kind, m, net, p, least, greatest);
      }
    }
  }

  /** What a caller can check in the tables: a predecessor request for the greatest identifier always ends, a
      successor request for it when the greatest node's last entry is the least node; a request for the least
      one when no node forwards it to itself and, for the predecessor, the climb from the least node, finger by
      finger upwards, comes to the greatest. A request for any other node's identifier never does. */
  ghost predicate TablesLead(kind: Kind, m: nat, net: Network, key: nat, least: nat, greatest: nat)
    requires greatest in net && net[greatest].fingers != []
  {
    if key == greatest then kind.Predecessor? || LastFinger(net[greatest]) == least
    else
      && key == least && NoneSelfForwards(kind, net, least)
      && (kind.Predecessor? ==> ClimbEnd(m, net, least, least) == greatest)
  }

  /** Every lookup of a node's identifier ends if and only if the tables lead there; it is the node whose arc
      wraps that answers: the least for a successor request, the greatest for a predecessor request. */
  lemma NodeKeyLookupsEndIff(kind: Kind, m: nat, net: Network, key: nat, least: nat, greatest: nat)
    requires Extremes(m, net, least, greatest) && key in net
    ensures net[greatest].fingers != []
    ensures EveryEnds(kind, net, key, Answerer(kind, least, greatest)) <==> TablesLead(kind, m, net, key, least, greatest)
  {
    EndsIn(m, net, least, greatest);
    GreatestEndsIff(kind, m, net, greatest, least, greatest);
    if key == greatest {
      hide Extremes, Ends;
      forall p | p in net
        ensures Ends(kind, net, p, greatest, Answerer(kind, least, greatest)) <==>
                kind.Predecessor? || p == least || LastFinger(net[greatest]) == least
      {
        GreatestEndsIff(kind, m, net, p, least, greatest);
      }
      if least == greatest {
        AloneEnds(m, net, least);
      }
    } else if key == least {
      LeastEndsIff(kind, m, net, least, greatest);
    } else {
      MiddleNeverEnds(kind, m, net, key, least, greatest);
    }
  }

  lemma AloneEnds(m: nat, net: Network, p: nat)
    requires Extremes(m, net, p, p)
    ensures net[p].fingers != [] && LastFinger(net[p]) == p
  {
    FirstFingerUp(m, net, p, p, p);
    FingersWithin(m, net, p, p, p);
    assert LastFinger(net[p]) in net[p].fingers;
  }

  lemma MiddleNeverEnds(kind: Kind, m: nat, net: Network, key: nat, least: nat, greatest: nat)
    requires Extremes(m, net, least, greatest) && key in net && key != least && key != greatest
    ensures !Ends(kind, net, key, key, Answerer(kind, least, greatest))
  {
    EndsIn(m, net, least, greatest);
    assert !IsLeast(net.Keys, key) && !IsGreatest(net.Keys, key);
    hide RingOk;
    forall hops: nat ensures After(kind, net, key, key, hops) != Found(Answerer(kind, least, greatest)) {
      NodeKeyNeverFound(kind, m, net, key, key, hops);
    }
  }

  lemma AnsweredIs(kind: Kind, net: Network, p: nat, key: nat, hops: nat)
    requires p in net && FindStep(kind, net[p], key) == Answer(p)
    ensures After(kind, net, p, key, hops) == Found(p)
  {
  }

  /** Whoever is found is that node. */
  lemma {:induction false} FoundIsAnswerer(kind: Kind, m: nat, net: Network, p: nat, key: nat, hops: nat, least: nat, greatest: nat)
    requires Extremes(m, net, least, greatest) && (key == least || key == greatest) && p in net
    requires After(kind, net, p, key, hops).Found?
    ensures After(kind, net, p, key, hops) == Found(Answerer(kind, least, greatest))
    decreases hops
  {
    hide Extremes, FindStep, After;
    AnswersForEnd(kind, m, net, p, key, least, greatest);
    if p == Answerer(kind, least, greatest) {
      AnsweredIs(kind, net, p, key, hops);
    } else {
      var q := ForwardOf(kind, m, net, p, key, least, greatest);
      AfterForward(kind, net, p, key, hops, q);
      FoundIsAnswerer(kind, m, net, q, key, hops - 1, least, greatest);
    }
  }

  // ----- on the tables the script builds -----

  lemma PastTheEnd(m: nat, ids: seq<nat>, t: nat)
    requires SortedIds(m, ids) && |ids| > 1
    ensures FingerFor(ids, t) == ids[0] <==> ids[|ids| - 1] < t
  {
    var r := LeastFrom(ids, t, 1);
    if r < |ids| {
      assert ids[0] < ids[r] <= ids[|ids| - 1];
    } else {
      assert ids[|ids| - 1] < t;
    }
  }

  /** The greatest node's last entry is the least node exactly when it lies in the lower half of the circle. */
  lemma GreatestEntry(bits: nat, ids: seq<nat>)
    requires 0 < bits && SortedIds(Pow2(bits), ids) && |ids| > 1
    ensures Table(bits, ids, ids[|ids| - 1])[bits - 1] == ids[0] <==> ids[|ids| - 1] < Pow2(bits - 1)
  {
    var g := ids[|ids| - 1];
    assert Pow2(bits) == 2 * Pow2(bits - 1);
    BuiltHops.TargetValue(bits, g, bits - 1);
    PastTheEnd(Pow2(bits), ids, Target(bits, g, bits - 1));
    hide SortedIds, FingerFor, Target;
  }

  lemma ListEnds(m: nat, ids: seq<nat>)
    requires SortedIds(m, ids)
    ensures ids[0] in Nodes(ids) && IsLeast(Nodes(ids), ids[0])
    ensures ids[|ids| - 1] in Nodes(ids) && IsGreatest(Nodes(ids), ids[|ids| - 1])
  {
    forall x | x in Nodes(ids) ensures ids[0] <= x <= ids[|ids| - 1] {
      var k :| 0 <= k < |ids| && ids[k] == x;
    }
  }

  lemma InstalledExtremes(bits: nat, ids: seq<nat>, order: seq<nat>)
    requires 0 < bits && SortedIds(Pow2(bits), ids) && forall p :: p in order <==> p in ids
    requires |ids| == 1 || Pow2(bits) - 1 !in ids
    ensures Extremes(Pow2(bits), Installed(bits, ids, order), ids[0], ids[|ids| - 1])
  {
    InstallationIsRight(bits, ids, order);
    ListEnds(Pow2(bits), ids);
    hide Installed, RingOk, SortedIds, Table, IsLeast, IsGreatest;
  }

  lemma InstalledEntry(bits: nat, ids: seq<nat>, order: seq<nat>)
    requires 0 < bits && SortedIds(Pow2(bits), ids) && forall p :: p in order <==> p in ids
    ensures ids[|ids| - 1] in Installed(bits, ids, order)
    ensures Installed(bits, ids, order)[ids[|ids| - 1]].fingers == Table(bits, ids, ids[|ids| - 1])
    ensures |Table(bits, ids, ids[|ids| - 1])| == bits
  {
    var g := ids[|ids| - 1];
    assert ids != [] && g in ids && g in order;
    assert |Table(bits, ids, g)| == bits;
    hide SortedIds, Installed, Table;
    InstalledTable(bits, ids, order, g);
  }

  /** What the greatest node's last entry is on an installed ring. */
  lemma InstalledLastFinger(bits: nat, ids: seq<nat>, order: seq<nat>)
    requires 0 < bits && SortedIds(Pow2(bits), ids) && |ids| > 1 && forall p :: p in order <==> p in ids
    ensures var net, g := Installed(bits, ids, order), ids[|ids| - 1];
            g in net && net[g].fingers != [] && (LastFinger(net[g]) == ids[0] <==> g < Pow2(bits - 1))
  {
    InstalledEntry(bits, ids, order);
    GreatestEntry(bits, ids);
    hide Installed, Table;
  }

  lemma AloneOrNot(m: nat, net: Network, ids: seq<nat>)
    requires SortedIds(m, ids) && net.Keys == Nodes(ids) && Extremes(m, net, ids[0], ids[|ids| - 1])
    ensures ids[0] in net && net[ids[|ids| - 1]].fingers != []
    ensures |ids| == 1 ==> LastFinger(net[ids[|ids| - 1]]) == ids[0]
  {
    var g := ids[|ids| - 1];
    hide Extremes;
    EndsIn(m, net, ids[0], g);
    FirstFingerUp(m, net, g, ids[0], g);
    if |ids| == 1 {
      AloneEnds(m, net, g);
    }
  }

  /** On an installed ring every successor request for the greatest identifier ends, at the least node, if and
      only if it lies in the lower half of the circle or is the only one. */
  lemma InstalledGreatestIff(bits: nat, ids: seq<nat>, order: seq<nat>)
    requires 0 < bits && SortedIds(Pow2(bits), ids) && forall p :: p in order <==> p in ids
    requires |ids| == 1 || Pow2(bits) - 1 !in ids
    ensures EveryEnds(Successor, Installed(bits, ids, order), ids[|ids| - 1], ids[0]) <==>
            |ids| == 1 || ids[|ids| - 1] < Pow2(bits - 1)
  {
    var net, g := Installed(bits, ids, order), ids[|ids| - 1];
    InstalledExtremes(bits, ids, order);
    if |ids| > 1 {
      InstalledLastFinger(bits, ids, order);
    }
    hide Installed, Extremes, EveryEnds, LastFinger, Nodes;
    AloneOrNot(Pow2(bits), net, ids);
    hide SortedIds;
    EndsIn(Pow2(bits), net, ids[0], g);
    NodeKeyLookupsEndIff(Successor, Pow2(bits), net, g, ids[0], g);
  }

  /** Otherwise such a request goes round for ever from every node but the least. */
  lemma InstalledGreatestStays(bits: nat, ids: seq<nat>, order: seq<nat>, p: nat, hops: nat)
    requires 0 < bits && SortedIds(Pow2(bits), ids) && forall q :: q in order <==> q in ids
    requires Pow2(bits) - 1 !in ids && |ids| > 1 && Pow2(bits - 1) <= ids[|ids| - 1]
    requires p in ids && p != ids[0]
    ensures After(Successor, Installed(bits, ids, order), p, ids[|ids| - 1], hops).Travelling?
  {
    var net, g := Installed(bits, ids, order), ids[|ids| - 1];
    hide Installed, Extremes, SortedIds, LastFinger, Nodes, After, Pow2;
    InstalledExtremes(bits, ids, order);
    InstalledLastFinger(bits, ids, order);
    assert p in Nodes(ids) by {
      Listed(ids, p);
    }
    GreatestStays(Pow2(bits), net, p, ids[0], g, hops);
  }

  lemma Listed(ids: seq<nat>, p: nat)
    requires p in ids
    ensures p in Nodes(ids)
  {
  }
}
