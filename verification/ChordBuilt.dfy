/** The hop bound on the tables the installation script really builds. */
module BuiltHops {
  import opened Ring
  import opened Lookup
  import opened Tables
  import opened Hops

  ghost predicate BuiltTables(bits: nat, ids: seq<nat>, net: Network) {
    ids != [] && net.Keys == Nodes(ids) && forall p :: p in net ==> net[p].fingers == Table(bits, ids, p)
  }

  lemma InList(m: nat, ids: seq<nat>, p: nat)
    requires SortedIds(m, ids) && p in Nodes(ids)
    ensures ids[0] <= p < m && ids[0] in Nodes(ids)
    ensures p != ids[0] ==> |ids| > 1 && ids[1] in Nodes(ids) && ids[0] < ids[1] <= p
  {
    var k :| 0 <= k < |ids| && ids[k] == p;
  }

  /** A finger of the table is the ring successor of its target, or the node behind it when the target
      does not lie above the first identifier. */
  lemma BuiltFinger(bits: nat, ids: seq<nat>, p: nat, j: nat)
    requires SortedIds(Pow2(bits), ids) && j < bits
    ensures var t, f := Target(bits, p, j), Table(bits, ids, p)[j];
            || IsAt(Pow2(bits), Nodes(ids), t, f)
            || (|ids| > 1 && t <= ids[0] && f == ids[1])
  {
    FingerIsSuccessorIff(Pow2(bits), ids, Target(bits, p, j));
  }

  lemma TargetValue(bits: nat, p: nat, j: nat)
    requires p < Pow2(bits) && j < bits
    ensures Target(bits, p, j) == if p + Pow2(j) < Pow2(bits) then p + Pow2(j) else p + Pow2(j) - Pow2(bits)
  {
    Pow2Strict(j, bits);
    WrapOnce(Pow2(bits), p, Pow2(j));
  }

  /** Except at the first node, a finger is at least as far as its target. */
  lemma BuiltIsFar(bits: nat, ids: seq<nat>, p: nat, j: nat)
    requires SortedIds(Pow2(bits), ids) && p in Nodes(ids) && j < bits
    requires p != ids[0] || p + Pow2(j) < Pow2(bits)
    ensures Table(bits, ids, p)[j] != p ==> Pow2(j) <= Gap(Pow2(bits), p, Table(bits, ids, p)[j])
  {
    var m, f := Pow2(bits), Table(bits, ids, p)[j];
    InList(m, ids, p);
    BuiltFinger(bits, ids, p, j);
    if IsAt(m, Nodes(ids), Target(bits, p, j), f) {
      FarFinger(bits, Nodes(ids), p, j, f);
    } else {
      TargetValue(bits, p, j);
    }
  }

  /** A finger does not reach beyond a node as far as its target, unless that is the first node. */
  lemma BuiltReaches(bits: nat, ids: seq<nat>, p: nat, j: nat, x: nat)
    requires SortedIds(Pow2(bits), ids) && p in Nodes(ids) && j < bits
    requires x in Nodes(ids) && x != ids[0] && x != p && Pow2(j) <= Gap(Pow2(bits), p, x)
    ensures Table(bits, ids, p)[j] != p && Gap(Pow2(bits), p, Table(bits, ids, p)[j]) <= Gap(Pow2(bits), p, x)
  {
    var m, f := Pow2(bits), Table(bits, ids, p)[j];
    InList(m, ids, p);
    InList(m, ids, x);
    BuiltFinger(bits, ids, p, j);
    if IsAt(m, Nodes(ids), Target(bits, p, j), f) {
      FarFinger(bits, Nodes(ids), p, j, f);
    } else {
      TargetValue(bits, p, j);
    }
  }

  // ----- the node before the key is not the first of the list -----

  /** The first node's longest fingers wrap: only then can a forward fail to halve what is left. */
  predicate FirstNodeWraps(bits: nat, ids: seq<nat>) {
    0 < bits && ids != [] && ids[0] + Pow2(bits - 1) >= Pow2(bits)
  }

  lemma LaterAreFar(bits: nat, ids: seq<nat>, p: nat, i: nat)
    requires SortedIds(Pow2(bits), ids) && p in Nodes(ids) && i < bits
    requires p != ids[0] || !FirstNodeWraps(bits, ids)
    ensures forall j :: i <= j < bits && Table(bits, ids, p)[j] != p ==>
              Pow2(i) <= Gap(Pow2(bits), p, Table(bits, ids, p)[j])
  {
    forall j | i <= j < bits && Table(bits, ids, p)[j] != p
      ensures Pow2(i) <= Gap(Pow2(bits), p, Table(bits, ids, p)[j])
    {
      Pow2Grows(i, j);
      Pow2Grows(j, bits - 1);
      BuiltIsFar(bits, ids, p, j);
    }
  }

  lemma BuiltHalves(bits: nat, ids: seq<nat>, n: Node, key: nat, before: nat)
    requires SortedIds(Pow2(bits), ids) && OnTheWay(Pow2(bits), Nodes(ids), n, key, before)
    requires n.fingers == Table(bits, ids, n.id) && before != ids[0]
    requires n.id != ids[0] || !FirstNodeWraps(bits, ids)
    ensures Halved(Wait(Pow2(bits), n.id, before), Wait(Pow2(bits), ClosestPreceding(n, key), before))
  {
    var m, p := Pow2(bits), n.id;
    var i := TopBit(Wait(m, p, before), bits);
    LaterAreFar(bits, ids, p, i);
    BuiltReaches(bits, ids, p, i, before);
    hide SortedIds, ClosestPreceding, FirstNodeWraps;
    HalvedBy(m, Nodes(ids), n, key, before, i);
  }

  /** A forward never leads past the node before the key. */
  lemma NeverPasses(m: nat, nodes: set<nat>, n: Node, key: nat, before: nat)
    requires OnTheWay(m, nodes, n, key, before)
    requires exists i :: 0 <= i < |n.fingers| && Between(n.id, n.fingers[i], key)
    ensures Gap(m, n.id, ClosestPreceding(n, key)) <= Wait(m, n.id, before)
    ensures Wait(m, ClosestPreceding(n, key), before) == Wait(m, n.id, before) - Gap(m, n.id, ClosestPreceding(n, key))
  {
    var i :| 0 <= i < |n.fingers| && Between(n.id, n.fingers[i], key);
    var j := UsedFinger(n, key, i);
    NotBeyondBefore(m, nodes, n.id, n.fingers[j], key, before);
  }

  /** Some finger of a node on the way lies before the key: at least the first. */
  lemma BuiltHasFinger(bits: nat, ids: seq<nat>, n: Node, key: nat, before: nat)
    requires SortedIds(Pow2(bits), ids) && OnTheWay(Pow2(bits), Nodes(ids), n, key, before)
    requires n.fingers == Table(bits, ids, n.id) && before != ids[0]
    ensures exists i :: 0 <= i < |n.fingers| && Between(n.id, n.fingers[i], key)
  {
    var m, p := Pow2(bits), n.id;
    assert Pow2(0) == 1;
    BuiltReaches(bits, ids, p, 0, before);
    NotBeyondBefore(m, Nodes(ids), p, n.fingers[0], key, before);
    assert Between(p, n.fingers[0], key);
  }

  /** One extra forward is allowed while the first node lies ahead, before the node before the key. */
  function ExtraAt(m: nat, wraps: bool, first: nat, before: nat, q: nat): nat {
    if wraps && Wait(m, q, first) < Wait(m, q, before) then 1 else 0
  }

  function Extras(bits: nat, ids: seq<nat>, before: nat): (r: map<nat, nat>)
    requires ids != []
    ensures r.Keys == Nodes(ids)
  {
    map q | q in Nodes(ids) :: ExtraAt(Pow2(bits), FirstNodeWraps(bits, ids), ids[0], before, q)
  }

  /** Moving on towards 'before' does not bring the first node ahead again; leaving it loses it. */
  lemma ExtraShrinks(m: nat, wraps: bool, first: nat, before: nat, p: nat, x: nat)
    requires first < m && before < m && p < m && x < m && p != x
    requires Gap(m, p, x) <= Wait(m, p, before)
    ensures ExtraAt(m, wraps, first, before, x) <= ExtraAt(m, wraps, first, before, p)
    ensures p == first && p != before && wraps ==>
              ExtraAt(m, wraps, first, before, x) < ExtraAt(m, wraps, first, before, p)
  {
  }

  lemma BuiltProgressAt(kind: Kind, bits: nat, ids: seq<nat>, net: Network, p: nat, key: nat, before: nat) returns (next: nat)
    requires SortedIds(Pow2(bits), ids) && BuiltTables(bits, ids, net)
    requires p in net && net[p].id == p && OnTheWay(Pow2(bits), net.Keys, net[p], key, before) && before != ids[0]
    requires FindStep(kind, net[p], key) == Forward(ClosestPreceding(net[p], key))
    ensures Progresses(kind, net, key, Waits(Pow2(bits), net.Keys, before), Extras(bits, ids, before), p, next)
  {
    var m, n := Pow2(bits), net[p];
    next := ClosestPreceding(n, key);
    BuiltHasFinger(bits, ids, n, key, before);
    NeverPasses(m, net.Keys, n, key, before);
    InList(m, ids, p);
    ExtraShrinks(m, FirstNodeWraps(bits, ids), ids[0], before, p, next);
    if p != ids[0] || !FirstNodeWraps(bits, ids) {
      BuiltHalves(bits, ids, n, key, before);
    }
  }

  // ----- the node before the key is the first of the list -----

  /** Then what is left is counted to the end of the circle. */
  function ToTheEnd(m: nat, first: nat, q: nat): nat {
    if q == first || m <= q then 0 else m - 1 - q
  }

  function Ends(bits: nat, ids: seq<nat>): (r: map<nat, nat>)
    requires ids != []
    ensures r.Keys == Nodes(ids)
  {
    map q | q in Nodes(ids) :: ToTheEnd(Pow2(bits), ids[0], q)
  }

  /** A node above p and after the target p + d, seen before p and before the first node, is at p + d or above. */
  lemma AboveTarget(m: nat, first: nat, p: nat, d: nat, t: nat, f: nat)
    requires first < p < m && first < f < m && f != p && d < m
    requires t == if p + d < m then p + d else p + d - m
    requires Gap(m, p, f) <= Gap(m, p, first)
    requires Wait(m, t, f) <= Wait(m, t, first) && Wait(m, t, f) <= Wait(m, t, p)
    ensures p + d <= f
  {
  }

  /** A finger that lies between p and the first node, going past the end of the circle, does not wrap
      before reaching it. */
  lemma ForwardsUpwards(bits: nat, ids: seq<nat>, p: nat, j: nat, f: nat)
    requires SortedIds(Pow2(bits), ids) && p in Nodes(ids) && p != ids[0] && j < bits
    requires f == Table(bits, ids, p)[j] && f in Nodes(ids) && f != p && f != ids[0]
    requires Gap(Pow2(bits), p, f) <= Gap(Pow2(bits), p, ids[0])
    ensures p + Pow2(j) <= f
  {
    var m, t := Pow2(bits), Target(bits, p, j);
    InList(m, ids, p);
    InList(m, ids, f);
    BuiltFinger(bits, ids, p, j);
    TargetValue(bits, p, j);
    Pow2Strict(j, bits);
    if IsAt(m, Nodes(ids), t, f) {
      assert Wait(m, t, f) <= Wait(m, t, p) && Wait(m, t, f) <= Wait(m, t, ids[0]);
      hide IsAt, SortedIds, Nodes, Target;
      AboveTarget(m, ids[0], p, Pow2(j), t, f);
    }
  }

  /** The finger of the top bit of what is left reaches the first node or comes before it. */
  lemma ReachesFirst(bits: nat, ids: seq<nat>, p: nat, j: nat)
    requires SortedIds(Pow2(bits), ids) && p in Nodes(ids) && p != ids[0] && j < bits
    requires p + Pow2(j) < Pow2(bits)
    ensures Table(bits, ids, p)[j] != p
    ensures Gap(Pow2(bits), p, Table(bits, ids, p)[j]) <= Gap(Pow2(bits), p, ids[0])
  {
    var m := Pow2(bits);
    InList(m, ids, p);
    TargetValue(bits, p, j);
    BuiltFinger(bits, ids, p, j);
    FarFinger(bits, Nodes(ids), p, j, Table(bits, ids, p)[j]);
  }

  lemma BuiltHalvesToEnd(bits: nat, ids: seq<nat>, n: Node, key: nat)
    requires SortedIds(Pow2(bits), ids) && OnTheWay(Pow2(bits), Nodes(ids), n, key, ids[0])
    requires n.fingers == Table(bits, ids, n.id) && n.id != Pow2(bits) - 1
    ensures Halved(ToTheEnd(Pow2(bits), ids[0], n.id), ToTheEnd(Pow2(bits), ids[0], ClosestPreceding(n, key)))
  {
    var m, p, first := Pow2(bits), n.id, ids[0];
    InList(m, ids, p);
    var i := TopBit(ToTheEnd(m, first, p), bits);
    ReachesFirst(bits, ids, p, i);
    NotBeyondBefore(m, Nodes(ids), p, n.fingers[i], key, first);
    var j := UsedFinger(n, key, i);
    NotBeyondBefore(m, Nodes(ids), p, n.fingers[j], key, first);
    if n.fingers[j] != first {
      InList(m, ids, n.fingers[j]);
      ForwardsUpwards(bits, ids, p, j, n.fingers[j]);
    }
    Pow2Grows(i, j);
  }

  // ----- the bound -----

  lemma BuiltProgressToEnd(kind: Kind, bits: nat, ids: seq<nat>, net: Network, p: nat, key: nat) returns (next: nat)
    requires SortedIds(Pow2(bits), ids) && BuiltTables(bits, ids, net)
    requires p in net && net[p].id == p && OnTheWay(Pow2(bits), net.Keys, net[p], key, ids[0]) && p != Pow2(bits) - 1
    requires FindStep(kind, net[p], key) == Forward(ClosestPreceding(net[p], key))
    ensures Progresses(kind, net, key, Ends(bits, ids), NoExtra(net.Keys), p, next)
  {
    next := ClosestPreceding(net[p], key);
    BuiltHalvesToEnd(bits, ids, net[p], key);
  }

  /** What the bound needs to know of a ring installed by the script. */
  ghost predicate BuiltRing(bits: nat, ids: seq<nat>, net: Network) {
    && SortedIds(Pow2(bits), ids) && BuiltTables(bits, ids, net)
    && Identifiers(Pow2(bits), net.Keys) && RingOk(Pow2(bits), net)
    && (|ids| == 1 || Pow2(bits) - 1 !in net)
  }

  lemma ProgressAhead(kind: Kind, bits: nat, ids: seq<nat>, net: Network, key: nat, before: nat, p: nat) returns (next: nat)
    requires BuiltRing(bits, ids, net) && key < Pow2(bits) && key !in net && p in net && p != before && before != ids[0]
    requires IsBefore(Pow2(bits), net.Keys, key, before) && !IsTarget(kind, Pow2(bits), net.Keys, key, p)
    requires !SelfForwards(kind, net, p, key)
    ensures Progresses(kind, net, key, Waits(Pow2(bits), net.Keys, before), Extras(bits, ids, before), p, next)
  {
    hide RingOk, IsTarget, IsBefore, FindStep, SelfForwards, Progresses, SortedIds, BuiltTables, OnTheWay, ClosestPreceding, Waits, Extras;
    assert SortedIds(Pow2(bits), ids) && BuiltTables(bits, ids, net) && RingOk(Pow2(bits), net);
    assert Identifiers(Pow2(bits), net.Keys);
    hide BuiltRing, Identifiers, Pow2;
    var q := IsOnTheWay(kind, Pow2(bits), net, p, key, before);
    next := BuiltProgressAt(kind, bits, ids, net, p, key, before);
  }

  lemma AllProgressAhead(kind: Kind, bits: nat, ids: seq<nat>, net: Network, key: nat, before: nat)
    requires BuiltRing(bits, ids, net) && key < Pow2(bits) && key !in net
    requires IsBefore(Pow2(bits), net.Keys, key, before) && before != ids[0]
    requires NoneSelfForwards(kind, net, key)
    ensures AllProgress(kind, Pow2(bits), net, key, before, Waits(Pow2(bits), net.Keys, before), Extras(bits, ids, before))
  {
    hide BuiltRing, IsTarget, IsBefore, SelfForwards, Progresses, Pow2, RingOk, Identifiers;
    BuiltRingFacts(bits, ids, net);
    forall p | p in net && p != before && !IsTarget(kind, Pow2(bits), net.Keys, key, p)
      ensures exists next :: Progresses(kind, net, key, Waits(Pow2(bits), net.Keys, before), Extras(bits, ids, before), p, next)
    {
      var next := ProgressAhead(kind, bits, ids, net, key, before, p);
    }
  }

  lemma NotAtTheEnd(bits: nat, ids: seq<nat>, net: Network, p: nat)
    requires BuiltRing(bits, ids, net) && p in net && p != ids[0]
    ensures p != Pow2(bits) - 1
  {
    hide RingOk, Identifiers;
    assert |ids| == 1 || Pow2(bits) - 1 !in net;
    assert p in Nodes(ids);
    hide BuiltTables;
    InList(Pow2(bits), ids, p);
  }

  lemma ProgressToEnd(kind: Kind, bits: nat, ids: seq<nat>, net: Network, key: nat, p: nat) returns (next: nat)
    requires BuiltRing(bits, ids, net) && key < Pow2(bits) && key !in net && p in net && p != ids[0]
    requires IsBefore(Pow2(bits), net.Keys, key, ids[0]) && !IsTarget(kind, Pow2(bits), net.Keys, key, p)
    requires !SelfForwards(kind, net, p, key)
    ensures Progresses(kind, net, key, Ends(bits, ids), NoExtra(net.Keys), p, next)
  {
    NotAtTheEnd(bits, ids, net, p);
    hide RingOk, IsTarget, IsBefore, FindStep, SelfForwards, Progresses, SortedIds, BuiltTables, OnTheWay, ClosestPreceding, Ends, NoExtra;
    assert SortedIds(Pow2(bits), ids) && BuiltTables(bits, ids, net) && RingOk(Pow2(bits), net);
    assert Identifiers(Pow2(bits), net.Keys);
    hide BuiltRing, Identifiers, Pow2;
    var q := IsOnTheWay(kind, Pow2(bits), net, p, key, ids[0]);
    next := BuiltProgressToEnd(kind, bits, ids, net, p, key);
  }

  lemma AllProgressToEnd(kind: Kind, bits: nat, ids: seq<nat>, net: Network, key: nat)
    requires BuiltRing(bits, ids, net) && key < Pow2(bits) && key !in net
    requires IsBefore(Pow2(bits), net.Keys, key, ids[0]) && NoneSelfForwards(kind, net, key)
    ensures AllProgress(kind, Pow2(bits), net, key, ids[0], Ends(bits, ids), NoExtra(net.Keys))
  {
    hide BuiltRing, IsTarget, IsBefore, SelfForwards, Progresses, Pow2, RingOk, Identifiers;
    BuiltRingFacts(bits, ids, net);
    forall p | p in net && p != ids[0] && !IsTarget(kind, Pow2(bits), net.Keys, key, p)
      ensures exists next :: Progresses(kind, net, key, Ends(bits, ids), NoExtra(net.Keys), p, next)
    {
      var next := ProgressToEnd(kind, bits, ids, net, key, p);
    }
  }

  /** What is left at the start of a lookup. */
  lemma StartsBelow(bits: nat, ids: seq<nat>, before: nat, p: nat)
    requires ids != [] && p in Nodes(ids)
    ensures Extras(bits, ids, before)[p] <= if FirstNodeWraps(bits, ids) then 1 else 0
    ensures Ends(bits, ids)[p] < Pow2(bits) && NoExtra(Nodes(ids))[p] == 0
  {
    hide FirstNodeWraps;
  }

  lemma BuiltRingFacts(bits: nat, ids: seq<nat>, net: Network)
    requires BuiltRing(bits, ids, net)
    ensures ids != [] && net.Keys == Nodes(ids) && Identifiers(Pow2(bits), net.Keys) && RingOk(Pow2(bits), net)
  {
    hide RingOk, Identifiers;
  }

  /** One forward per bit to the node before the key, one more when the first node's fingers wrap, and
      one more to the owner. */
  function HopsAllowed(kind: Kind, bits: nat, ids: seq<nat>): nat {
    bits + (if FirstNodeWraps(bits, ids) then 1 else 0) + LastHop(kind)
  }

  lemma BoundAhead(kind: Kind, bits: nat, ids: seq<nat>, net: Network, p: nat, key: nat, before: nat)
    requires BuiltRing(bits, ids, net) && p in net && key < Pow2(bits) && key !in net
    requires NoneSelfForwards(kind, net, key) && IsBefore(Pow2(bits), net.Keys, key, before) && before != ids[0]
    ensures FoundWithin(kind, Pow2(bits), net, p, key, HopsAllowed(kind, bits, ids))
  {
    var m, extra := Pow2(bits), Extras(bits, ids, before);
    assert before in net;
    AllProgressAhead(kind, bits, ids, net, key, before);
    BuiltRingFacts(bits, ids, net);
    hide BuiltRing, RingOk, IsTarget, IsBefore, FoundWithin, AllProgress, NoneSelfForwards, FirstNodeWraps, Extras, Waits;
    StartsBelow(bits, ids, before, p);
    WaitsBelow(m, net.Keys, before, p);
    Chain(kind, m, net, key, before, Waits(m, net.Keys, before), extra, p, bits, HopsAllowed(kind, bits, ids));
  }

  lemma BoundToEnd(kind: Kind, bits: nat, ids: seq<nat>, net: Network, p: nat, key: nat)
    requires BuiltRing(bits, ids, net) && p in net && key < Pow2(bits) && key !in net
    requires NoneSelfForwards(kind, net, key) && IsBefore(Pow2(bits), net.Keys, key, ids[0])
    ensures FoundWithin(kind, Pow2(bits), net, p, key, bits + LastHop(kind))
  {
    AllProgressToEnd(kind, bits, ids, net, key);
    BuiltRingFacts(bits, ids, net);
    hide BuiltRing, RingOk, IsTarget, IsBefore, FoundWithin, AllProgress, NoneSelfForwards, Ends, NoExtra;
    StartsBelow(bits, ids, ids[0], p);
    Chain(kind, Pow2(bits), net, key, ids[0], Ends(bits, ids), NoExtra(net.Keys), p, bits, bits + LastHop(kind));
  }

  lemma {:induction false} LongerFinds(kind: Kind, m: nat, net: Network, p: nat, key: nat, hops: nat)
    requires FoundWithin(kind, m, net, p, key, hops)
    ensures FoundWithin(kind, m, net, p, key, hops + 1)
    decreases hops
  {
    if FindStep(kind, net[p], key).Forward? {
      hide IsTarget, FindStep;
      LongerFinds(kind, m, net, FindStep(kind, net[p], key).to, key, hops - 1);
    }
  }

  /** On the tables the script builds no lookup takes more than these. */
  lemma BuiltHopBound(kind: Kind, bits: nat, ids: seq<nat>, net: Network, p: nat, key: nat)
    requires BuiltRing(bits, ids, net) && p in net && key < Pow2(bits) && key !in net
    requires NoneSelfForwards(kind, net, key)
    ensures FoundWithin(kind, Pow2(bits), net, p, key, HopsAllowed(kind, bits, ids))
  {
    hide RingOk, IsTarget, FoundWithin, NoneSelfForwards, FirstNodeWraps;
    BuiltRingFacts(bits, ids, net);
    hide BuiltRing;
    var before := SomeBefore(Pow2(bits), net.Keys, key);
    hide IsBefore, Identifiers;
    if before != ids[0] {
      BoundAhead(kind, bits, ids, net, p, key, before);
    } else {
      BoundToEnd(kind, bits, ids, net, p, key);
      if FirstNodeWraps(bits, ids) {
        LongerFinds(kind, Pow2(bits), net, p, key, bits + LastHop(kind));
      }
    }
  }

  // ----- the ring as installed -----

  lemma SameFinger(m: nat, first: nat, second: nat, p: nat, t: nat, u: nat, f: nat)
    requires first < second <= p < m && f < m && (f == first || second <= f)
    requires (p < t <= u < m) || (u < p < t < m) || (t <= u < p)
    requires if t > first then Wait(m, t, p) <= Wait(m, t, first) && Wait(m, t, p) <= Wait(m, t, f) else p == second
    requires if u > first then Wait(m, u, f) <= Wait(m, u, p) else f == second
    ensures f == p
  {
  }

  lemma Targets(bits: nat, p: nat, j: nat)
    requires p < Pow2(bits) && j < bits
    ensures var m, t, u := Pow2(bits), Target(bits, p, j), Target(bits, p, bits - 1);
            (p < t <= u < m) || (u < p < t < m) || (t <= u < p)
  {
    TargetValue(bits, p, j);
    TargetValue(bits, p, bits - 1);
    Pow2Grows(j, bits - 1);
    Pow2Strict(bits - 1, bits);
  }

  /** A table entry that is the node's own identifier stays so for the rest of the table. */
  lemma SelfToTheEnd(bits: nat, ids: seq<nat>, p: nat, j: nat)
    requires SortedIds(Pow2(bits), ids) && p in Nodes(ids) && p != ids[0] && j < bits
    requires Table(bits, ids, p)[j] == p
    ensures Table(bits, ids, p)[bits - 1] == p
  {
    var m, k := Pow2(bits), bits - 1;
    var t, u, f := Target(bits, p, j), Target(bits, p, k), Table(bits, ids, p)[k];
    InList(m, ids, p);
    FingersAreNodes(bits, ids, p);
    InList(m, ids, f);
    FingerIsSuccessorIff(m, ids, t);
    FingerIsSuccessorIff(m, ids, u);
    Targets(bits, p, j);
    if t > ids[0] {
      assert Wait(m, t, p) <= Wait(m, t, ids[0]) && Wait(m, t, p) <= Wait(m, t, f);
    }
    if u > ids[0] {
      assert Wait(m, u, f) <= Wait(m, u, p);
    }
    assert f == ids[0] || ids[1] <= f;
    hide IsAt, SortedIds, Table, Nodes, Target, FingerFor;
    SameFinger(m, ids[0], ids[1], p, t, u, f);
  }

  lemma FromTheFirst(bits: nat, ids: seq<nat>, f: nat, key: nat)
    requires SortedIds(Pow2(bits), ids) && f in Nodes(ids) && f != ids[0] && key < ids[0]
    ensures Between(ids[0], f, key)
  {
    InList(Pow2(bits), ids, f);
  }

  lemma UsableSelfIsLast(bits: nat, ids: seq<nat>, p: nat, key: nat, j: nat)
    requires SortedIds(Pow2(bits), ids) && p in Nodes(ids) && key < p && j < bits
    requires Table(bits, ids, p)[j] == p
    requires j < bits - 1 ==> !Between(p, Table(bits, ids, p)[bits - 1], key)
    ensures Table(bits, ids, p)[bits - 1] == p
  {
    var f := Table(bits, ids, p)[bits - 1];
    FingersAreNodes(bits, ids, p);
    assert f in Nodes(ids);
    hide Table, SortedIds, Nodes;
    if p != ids[0] {
      SelfToTheEnd(bits, ids, p, j);
    } else if f != p {
      FromTheFirst(bits, ids, f, key);
    }
  }

  /** Whether some table entry for the node itself is the last usable one shows in the last entry. */
  lemma LastEntryDecides(bits: nat, ids: seq<nat>, p: nat, key: nat)
    requires 0 < bits && SortedIds(Pow2(bits), ids) && p in Nodes(ids) && key < p
    ensures LastUsableIsSelf(p, Table(bits, ids, p), key) <==> Table(bits, ids, p)[bits - 1] == p
  {
    var fingers := Table(bits, ids, p);
    hide SortedIds, Table, Between, Nodes;
    if LastUsableIsSelf(p, fingers, key) {
      var j :| 0 <= j < |fingers| && fingers[j] == p && forall i :: j < i < |fingers| ==> !Between(p, fingers[i], key);
      UsableSelfIsLast(bits, ids, p, key, j);
    } else {
      assert fingers[bits - 1] != p;
    }
  }

  /** No node's last table entry is the node itself, unless the node is the one looked for or the key
      does not wrap. */
  ghost predicate NoSelfEntry(kind: Kind, bits: nat, ids: seq<nat>, key: nat)
    requires 0 < bits && ids != []
  {
    forall p :: p in Nodes(ids) && key < p && Table(bits, ids, p)[bits - 1] == p ==>
      IsTarget(kind, Pow2(bits), Nodes(ids), key, p)
  }

  lemma SelfForwardsByLastEntry(kind: Kind, bits: nat, ids: seq<nat>, net: Network, p: nat, key: nat)
    requires 0 < bits && BuiltRing(bits, ids, net) && p in net && key < Pow2(bits) && key !in net
    ensures SelfForwards(kind, net, p, key) <==>
            key < p && Table(bits, ids, p)[bits - 1] == p && !IsTarget(kind, Pow2(bits), Nodes(ids), key, p)
  {
    hide RingOk, IsTarget, SelfForwards, SortedIds, LastUsableIsSelf;
    BuiltRingFacts(bits, ids, net);
    SelfForwardsIff(kind, Pow2(bits), net, p, key);
    if key < p && !IsTarget(kind, Pow2(bits), Nodes(ids), key, p) {
      LastEntryDecides(bits, ids, p, key);
    }
  }

  /** Every lookup of the key ends at the right node within the bound. */
  ghost predicate AllFoundWithin(kind: Kind, bits: nat, ids: seq<nat>, net: Network, key: nat) {
    forall p :: p in ids ==> FoundWithin(kind, Pow2(bits), net, p, key, HopsAllowed(kind, bits, ids))
  }

  lemma StuckIsNotFound(kind: Kind, m: nat, net: Network, p: nat, key: nat, hops: nat)
    requires SelfForwards(kind, net, p, key)
    ensures !FoundWithin(kind, m, net, p, key, hops)
  {
    StuckForever(kind, net, p, key, hops);
  }

  lemma NoSelfEntryFinds(kind: Kind, bits: nat, ids: seq<nat>, net: Network, key: nat)
    requires 0 < bits && BuiltRing(bits, ids, net) && key < Pow2(bits) && key !in net
    requires NoSelfEntry(kind, bits, ids, key) && net.Keys == Nodes(ids)
    ensures AllFoundWithin(kind, bits, ids, net, key)
  {
    hide BuiltRing, RingOk, IsTarget, FoundWithin, SelfForwards, SortedIds, FirstNodeWraps, Table, HopsAllowed;
    forall p | p in net ensures !SelfForwards(kind, net, p, key) {
      SelfForwardsByLastEntry(kind, bits, ids, net, p, key);
    }
    assert NoneSelfForwards(kind, net, key);
    hide NoneSelfForwards, NoSelfEntry;
    forall p | p in ids ensures FoundWithin(kind, Pow2(bits), net, p, key, HopsAllowed(kind, bits, ids)) {
      BuiltHopBound(kind, bits, ids, net, p, key);
    }
  }

  lemma SelfEntryFails(kind: Kind, bits: nat, ids: seq<nat>, net: Network, key: nat, p: nat)
    requires 0 < bits && BuiltRing(bits, ids, net) && key < Pow2(bits) && key !in net && p in net
    requires HasSelfEntry(kind, bits, ids, key, p)
    ensures !FoundWithin(kind, Pow2(bits), net, p, key, HopsAllowed(kind, bits, ids))
  {
    hide RingOk, IsTarget, FoundWithin, SelfForwards, SortedIds, FirstNodeWraps, Table, HopsAllowed;
    SelfForwardsByLastEntry(kind, bits, ids, net, p, key);
    StuckIsNotFound(kind, Pow2(bits), net, p, key, HopsAllowed(kind, bits, ids));
  }

  /** A node whose self-entry breaks a lookup. */
  ghost predicate HasSelfEntry(kind: Kind, bits: nat, ids: seq<nat>, key: nat, p: nat)
    requires 0 < bits && ids != []
  {
    p in Nodes(ids) && key < p && Table(bits, ids, p)[bits - 1] == p && !IsTarget(kind, Pow2(bits), Nodes(ids), key, p)
  }

  lemma SomeSelfEntry(kind: Kind, bits: nat, ids: seq<nat>, key: nat) returns (p: nat)
    requires 0 < bits && ids != [] && !NoSelfEntry(kind, bits, ids, key)
    ensures HasSelfEntry(kind, bits, ids, key, p)
  {
    p :| p in Nodes(ids) && key < p && Table(bits, ids, p)[bits - 1] == p
         && !IsTarget(kind, Pow2(bits), Nodes(ids), key, p);
  }

  lemma BuiltRingFindsIff(kind: Kind, bits: nat, ids: seq<nat>, net: Network, key: nat)
    requires 0 < bits && BuiltRing(bits, ids, net) && key < Pow2(bits) && key !in net
    ensures AllFoundWithin(kind, bits, ids, net, key) <==> NoSelfEntry(kind, bits, ids, key)
  {
    hide RingOk, IsTarget, FoundWithin, SelfForwards, SortedIds, FirstNodeWraps, Table, HopsAllowed, NoSelfEntry;
    BuiltRingFacts(bits, ids, net);
    hide BuiltRing;
    if NoSelfEntry(kind, bits, ids, key) {
      hide AllFoundWithin;
      NoSelfEntryFinds(kind, bits, ids, net, key);
    } else {
      var p := SomeSelfEntry(kind, bits, ids, key);
      SelfEntryFails(kind, bits, ids, net, key, p);
    }
  }

  lemma TablesBuilt(bits: nat, ids: seq<nat>, order: seq<nat>)
    requires 0 < bits && SortedIds(Pow2(bits), ids) && forall p :: p in order <==> p in ids
    requires |ids| == 1 || Pow2(bits) - 1 !in ids
    ensures BuiltTables(bits, ids, Installed(bits, ids, order))
  {
    assert ids != [];
    InstallationIsRight(bits, ids, order);
    hide Installed, RingOk, SortedIds, Table, Identifiers;
  }

  lemma InstalledIsBuilt(bits: nat, ids: seq<nat>, order: seq<nat>)
    requires 0 < bits && SortedIds(Pow2(bits), ids) && forall p :: p in order <==> p in ids
    requires |ids| == 1 || Pow2(bits) - 1 !in ids
    ensures BuiltRing(bits, ids, Installed(bits, ids, order))
  {
    assert ids != [];
    var net := Installed(bits, ids, order);
    assert Identifiers(Pow2(bits), net.Keys) && RingOk(Pow2(bits), net) by {
      InstallationIsRight(bits, ids, order);
    }
    assert BuiltTables(bits, ids, net) by {
      TablesBuilt(bits, ids, order);
    }
    assert |ids| == 1 || Pow2(bits) - 1 !in Nodes(ids);
    assert net.Keys == Nodes(ids);
    hide Installed, RingOk, SortedIds, Identifiers, BuiltTables, Nodes, Pow2;
  }

  /** On the ring as the script installs it, in any order and with no node at the last position, every
      lookup of a key from every node ends at the right node, within the bound, if and only if no node
      that is not the one looked for stands above the key with itself as its last table entry. */
  lemma InstalledRingFindsIff(kind: Kind, bits: nat, ids: seq<nat>, order: seq<nat>, key: nat)
    requires 0 < bits && SortedIds(Pow2(bits), ids) && forall p :: p in order <==> p in ids
    requires (|ids| == 1 || Pow2(bits) - 1 !in ids) && key < Pow2(bits) && key !in ids
    ensures AllFoundWithin(kind, bits, ids, Installed(bits, ids, order), key) <==> NoSelfEntry(kind, bits, ids, key)
  {
    InstalledIsBuilt(bits, ids, order);
    hide Installed, SortedIds, AllFoundWithin, NoSelfEntry, BuiltRing;
    BuiltRingFindsIff(kind, bits, ids, Installed(bits, ids, order), key);
  }

  lemma BuiltEntryStays(kind: Kind, bits: nat, ids: seq<nat>, net: Network, key: nat, p: nat, hops: nat)
    requires 0 < bits && BuiltRing(bits, ids, net) && key < Pow2(bits) && key !in net && p in net
    requires HasSelfEntry(kind, bits, ids, key, p)
    ensures After(kind, net, p, key, hops) == Travelling(p)
  {
    hide BuiltRing, IsTarget, Table, SelfForwards, After;
    SelfForwardsByLastEntry(kind, bits, ids, net, p, key);
    StuckForever(kind, net, p, key, hops);
  }

  /** A lookup that starts at a node with such an entry stays there for ever. */
  lemma SelfEntryStays(kind: Kind, bits: nat, ids: seq<nat>, order: seq<nat>, key: nat, p: nat, hops: nat)
    requires 0 < bits && SortedIds(Pow2(bits), ids) && forall q :: q in order <==> q in ids
    requires (|ids| == 1 || Pow2(bits) - 1 !in ids) && key < Pow2(bits) && key !in ids
    requires HasSelfEntry(kind, bits, ids, key, p)
    ensures After(kind, Installed(bits, ids, order), p, key, hops) == Travelling(p)
  {
    InstalledIsBuilt(bits, ids, order);
    hide Installed, BuiltRing, After, HasSelfEntry;
    assert p in Nodes(ids) by {
      EntryListed(kind, bits, ids, key, p);
    }
    hide SortedIds;
    BuiltEntryStays(kind, bits, ids, Installed(bits, ids, order), key, p, hops);
  }

  lemma EntryListed(kind: Kind, bits: nat, ids: seq<nat>, key: nat, p: nat)
    requires 0 < bits && ids != [] && HasSelfEntry(kind, bits, ids, key, p)
    ensures p in Nodes(ids)
  {
  }
}
