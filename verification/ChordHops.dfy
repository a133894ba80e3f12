/** How many forwards a lookup takes. */
module Hops {
  import opened Ring
  import opened Lookup
  import opened Tables

  // ----- a chain of forwards that halves what is left -----

  /** b has lost the top bit of a. */
  ghost predicate Halved(a: nat, b: nat) { exists i: nat :: Pow2(i) <= a && b < Pow2(i) }

  /** From p the request is forwarded to 'next', where the top bit of what is left is gone; or, as often
      as 'extra' says, to a node where what is left has not grown. */
  ghost predicate Progresses(kind: Kind, net: Network, key: nat, rank: map<nat, nat>, extra: map<nat, nat>, p: nat, next: nat)
    requires rank.Keys == net.Keys && extra.Keys == net.Keys && p in net
  {
    && FindStep(kind, net[p], key) == Forward(next) && next in net
    && (|| (extra[next] <= extra[p] && Halved(rank[p], rank[next]))
        || (extra[next] < extra[p] && rank[next] <= rank[p]))
  }

  /** Every node that is neither the target nor the node before the key makes progress. */
  ghost predicate AllProgress(kind: Kind, m: nat, net: Network, key: nat, before: nat, rank: map<nat, nat>, extra: map<nat, nat>)
    requires rank.Keys == net.Keys && extra.Keys == net.Keys
  {
    forall p :: p in net && p != before && !IsTarget(kind, m, net.Keys, key, p) ==>
      exists next :: Progresses(kind, net, key, rank, extra, p, next)
  }

  /** The forward from the node before the key to the key's owner. */
  function LastHop(kind: Kind): nat { if kind.Successor? then 1 else 0 }

  ghost predicate FoundWithin(kind: Kind, m: nat, net: Network, p: nat, key: nat, hops: nat) {
    EndsWithin(kind, m, net, p, key, hops)
  }

  lemma FoundOneLater(kind: Kind, m: nat, net: Network, p: nat, key: nat, hops: nat, next: nat)
    requires Identifiers(m, net.Keys) && key < m && p in net
    requires FindStep(kind, net[p], key) == Forward(next) && FoundWithin(kind, m, net, next, key, hops)
    ensures FoundWithin(kind, m, net, p, key, hops + 1)
  {
  }

  lemma FoundAtTarget(kind: Kind, m: nat, net: Network, p: nat, key: nat, hops: nat)
    requires Identifiers(m, net.Keys) && RingOk(m, net) && p in net && key < m && key !in net
    requires IsTarget(kind, m, net.Keys, key, p)
    ensures FoundWithin(kind, m, net, p, key, hops)
  {
    AnswersIfTarget(kind, m, net, p, key);
  }

  lemma BeforeIsNearest(kind: Kind, m: nat, nodes: set<nat>, key: nat, p: nat, x: nat)
    requires Identifiers(m, nodes) && key < m && IsBefore(m, nodes, key, p) && x in nodes
    ensures Gap(m, p, key) <= Gap(m, x, key)
    ensures kind.Predecessor? ==> IsTarget(kind, m, nodes, key, p)
  {
  }

  /** From the node before the key the owner is one forward away. */
  lemma FoundFromBefore(kind: Kind, m: nat, net: Network, p: nat, key: nat, hops: nat)
    requires Identifiers(m, net.Keys) && RingOk(m, net) && p in net && key < m && key !in net
    requires IsBefore(m, net.Keys, key, p) && !SelfForwards(kind, net, p, key) && LastHop(kind) <= hops
    ensures FoundWithin(kind, m, net, p, key, hops)
  {
    hide RingOk, FoundWithin, FindStep, IsTarget, IsBefore;
    BeforeIsNearest(kind, m, net.Keys, key, p, p);
    if IsTarget(kind, m, net.Keys, key, p) {
      FoundAtTarget(kind, m, net, p, key, hops);
    } else {
      var next := NextForward(kind, m, net, p, key);
      BeforeIsNearest(kind, m, net.Keys, key, p, next);
      FoundAtTarget(kind, m, net, next, key, hops - 1);
      FoundOneLater(kind, m, net, p, key, hops - 1, next);
    }
  }

  /** The bits of what is left, the extra forwards and the last one together suffice. */
  lemma {:induction false} Chain(kind: Kind, m: nat, net: Network, key: nat, before: nat,
                                 rank: map<nat, nat>, extra: map<nat, nat>, p: nat, j: nat, hops: nat)
    requires Identifiers(m, net.Keys) && RingOk(m, net) && p in net && key < m && key !in net
    requires NoneSelfForwards(kind, net, key)
    requires rank.Keys == net.Keys && extra.Keys == net.Keys
    requires IsBefore(m, net.Keys, key, before) && AllProgress(kind, m, net, key, before, rank, extra)
    requires rank[p] < Pow2(j) && j + extra[p] + LastHop(kind) <= hops
    ensures FoundWithin(kind, m, net, p, key, hops)
    decreases hops
  {
    hide RingOk, IsTarget, IsBefore, FindStep, FoundWithin;
    if p == before {
      FoundFromBefore(kind, m, net, p, key, hops);
    } else if IsTarget(kind, m, net.Keys, key, p) {
      FoundAtTarget(kind, m, net, p, key, hops);
    } else {
      var next :| Progresses(kind, net, key, rank, extra, p, next);
      if extra[next] <= extra[p] && Halved(rank[p], rank[next]) {
        var less := BelowTop(j, rank[p], rank[next]);
        Chain(kind, m, net, key, before, rank, extra, next, less, hops - 1);
      } else {
        Chain(kind, m, net, key, before, rank, extra, next, j, hops - 1);
      }
      FoundOneLater(kind, m, net, p, key, hops - 1, next);
    }
  }

  lemma BelowTop(j: nat, a: nat, b: nat) returns (less: nat)
    requires a < Pow2(j) && Halved(a, b)
    ensures j == less + 1 && b < Pow2(less)
  {
    var i: nat :| Pow2(i) <= a && b < Pow2(i);
    if j <= i {
      Pow2Grows(j, i);
    }
    less := j - 1;
    Pow2Grows(i, less);
  }

  // ----- one forward on a full table -----

  /** What lies between a node and the key lies no further than the node before the key. */
  lemma NotBeyondBefore(m: nat, nodes: set<nat>, p: nat, x: nat, key: nat, before: nat)
    requires Identifiers(m, nodes) && p in nodes && x in nodes && key < m && key !in nodes
    requires IsBefore(m, nodes, key, before) && p != before && p != x
    ensures Gap(m, p, before) < Gap(m, p, key)
    ensures Between(p, x, key) <==> Gap(m, p, x) <= Gap(m, p, before)
    ensures Between(p, x, key) ==> Wait(m, x, before) == Wait(m, p, before) - Gap(m, p, x)
  {
    BetweenIsClockwise(m, p, x, key);
    assert Gap(m, before, key) <= Gap(m, p, key) && Gap(m, before, key) <= Gap(m, x, key);
  }

  /** A finger that is the ring successor of its target lies at least as far as the target, and no
      further than any node that does. */
  lemma SuccessorFinger(m: nat, nodes: set<nat>, p: nat, d: nat, f: nat)
    requires Identifiers(m, nodes) && p in nodes && 0 < d < m && IsAt(m, nodes, (p + d) % m, f)
    ensures f != p ==> d <= Gap(m, p, f)
    ensures forall x :: x in nodes && x != p && d <= Gap(m, p, x) ==> f != p && Gap(m, p, f) <= Gap(m, p, x)
  {
    WrapOnce(m, p, d);
    var t := (p + d) % m;
    forall x | x in nodes && x != p && d <= Gap(m, p, x)
      ensures f != p && Gap(m, p, f) <= Gap(m, p, x)
    {
      assert Wait(m, t, f) <= Wait(m, t, x);
    }
    assert Wait(m, t, f) <= Wait(m, t, p);
  }

  lemma WrapOnce(m: nat, p: nat, d: nat)
    requires p < m && d < m
    ensures (p + d) % m == if p + d < m then p + d else p + d - m
  {
  }

  /** When finger i lies between the node and the key, the finger used is i or a later one. */
  lemma UsedFinger(n: Node, key: nat, i: nat) returns (j: nat)
    requires i < |n.fingers| && Between(n.id, n.fingers[i], key)
    ensures i <= j < |n.fingers| && ClosestPreceding(n, key) == n.fingers[j] && Between(n.id, n.fingers[j], key)
  {
    ScanFinds(n.id, n.fingers, key);
    j :| 0 <= j < |n.fingers| && n.fingers[j] == Scan(n.id, n.fingers, key).value && Between(n.id, n.fingers[j], key)
         && forall k :: j < k < |n.fingers| ==> !Between(n.id, n.fingers[k], key);
  }

  // ----- every finger the ring successor of its target -----

  ghost predicate TrueTable(bits: nat, nodes: set<nat>, p: nat, fingers: seq<nat>) {
    |fingers| == bits && forall j :: 0 <= j < bits ==> IsAt(Pow2(bits), nodes, Target(bits, p, j), fingers[j])
  }

  /** The table n of a node on the way to the key, the node 'before' the key still ahead of it. */
  ghost predicate OnTheWay(m: nat, nodes: set<nat>, n: Node, key: nat, before: nat) {
    && Identifiers(m, nodes) && n.id in nodes && key < m && key !in nodes
    && IsBefore(m, nodes, key, before) && n.id != before
    && n.fingers != [] && (forall j :: 0 <= j < |n.fingers| ==> n.fingers[j] in nodes)
    && ClosestPreceding(n, key) in nodes && ClosestPreceding(n, key) != n.id
  }

  /** The top bit i of what is left disappears: finger i lies before the key, and it and every later
      finger is at least 2^i away. */
  lemma HalvedBy(m: nat, nodes: set<nat>, n: Node, key: nat, before: nat, i: nat)
    requires OnTheWay(m, nodes, n, key, before)
    requires Wait(m, n.id, before) < Pow2(i + 1) && i < |n.fingers|
    requires n.fingers[i] != n.id && Gap(m, n.id, n.fingers[i]) <= Gap(m, n.id, before)
    requires forall j :: i <= j < |n.fingers| && n.fingers[j] != n.id ==> Pow2(i) <= Gap(m, n.id, n.fingers[j])
    ensures Wait(m, ClosestPreceding(n, key), before) < Pow2(i)
  {
    NotBeyondBefore(m, nodes, n.id, n.fingers[i], key, before);
    var j := UsedFinger(n, key, i);
    NotBeyondBefore(m, nodes, n.id, n.fingers[j], key, before);
  }

  lemma FarFinger(bits: nat, nodes: set<nat>, p: nat, j: nat, f: nat)
    requires Identifiers(Pow2(bits), nodes) && p in nodes && j < bits
    requires IsAt(Pow2(bits), nodes, Target(bits, p, j), f)
    ensures f != p ==> Pow2(j) <= Gap(Pow2(bits), p, f)
    ensures forall x :: x in nodes && x != p && Pow2(j) <= Gap(Pow2(bits), p, x) ==>
              f != p && Gap(Pow2(bits), p, f) <= Gap(Pow2(bits), p, x)
  {
    Pow2Strict(j, bits);
    SuccessorFinger(Pow2(bits), nodes, p, Pow2(j), f);
  }

  lemma TrueTableHalves(bits: nat, nodes: set<nat>, n: Node, key: nat, before: nat) returns (i: nat)
    requires OnTheWay(Pow2(bits), nodes, n, key, before) && TrueTable(bits, nodes, n.id, n.fingers)
    ensures Pow2(i) <= Wait(Pow2(bits), n.id, before) && Wait(Pow2(bits), ClosestPreceding(n, key), before) < Pow2(i)
  {
    var m := Pow2(bits);
    i := TopBit(Wait(m, n.id, before), bits);
    forall j | i <= j < bits
      ensures n.fingers[j] != n.id ==> Pow2(i) <= Gap(m, n.id, n.fingers[j])
    {
      Pow2Grows(i, j);
      FarFinger(bits, nodes, n.id, j, n.fingers[j]);
    }
    FarFinger(bits, nodes, n.id, i, n.fingers[i]);
    HalvedBy(m, nodes, n, key, before, i);
  }

  ghost predicate TrueTables(bits: nat, net: Network) {
    forall p :: p in net ==> TrueTable(bits, net.Keys, p, net[p].fingers)
  }

  lemma ForwardIsClosest(kind: Kind, n: Node, key: nat, next: nat)
    requires FindStep(kind, n, key) == Forward(next)
    ensures n.fingers != [] && next == ClosestPreceding(n, key)
  {
  }

  lemma FingersIn(m: nat, nodes: set<nat>, p: nat, n: Node)
    requires Identifiers(m, nodes) && p in nodes && NodeOk(m, nodes, p, n)
    ensures n.id == p && n.fingers != [] && forall j :: 0 <= j < |n.fingers| ==> n.fingers[j] in nodes
  {
  }

  /** A node that is neither target nor last before the key is on the way, and forwards. */
  lemma IsOnTheWay(kind: Kind, m: nat, net: Network, p: nat, key: nat, before: nat) returns (next: nat)
    requires Identifiers(m, net.Keys) && RingOk(m, net) && p in net && key < m && key !in net
    requires IsBefore(m, net.Keys, key, before) && p != before
    requires !IsTarget(kind, m, net.Keys, key, p) && !SelfForwards(kind, net, p, key)
    ensures OnTheWay(m, net.Keys, net[p], key, before) && net[p].id == p
    ensures next == ClosestPreceding(net[p], key) && FindStep(kind, net[p], key) == Forward(next) && next in net
  {
    assert NodeOk(m, net.Keys, p, net[p]);
    hide RingOk, IsTarget, IsBefore, NodeOk, FindStep, ClosestPreceding;
    next := NextForward(kind, m, net, p, key);
    FingersIn(m, net.Keys, p, net[p]);
    ForwardIsClosest(kind, net[p], key, next);
  }

  function Waits(m: nat, nodes: set<nat>, before: nat): (r: map<nat, nat>)
    ensures r.Keys == nodes
  {
    map q | q in nodes :: Wait(m, q, before)
  }

  lemma TrueTableProgress(kind: Kind, bits: nat, net: Network, p: nat, key: nat, before: nat) returns (next: nat)
    requires Identifiers(Pow2(bits), net.Keys) && RingOk(Pow2(bits), net) && TrueTables(bits, net)
    requires p in net && key < Pow2(bits) && key !in net
    requires IsBefore(Pow2(bits), net.Keys, key, before) && p != before
    requires !IsTarget(kind, Pow2(bits), net.Keys, key, p) && !SelfForwards(kind, net, p, key)
    ensures FindStep(kind, net[p], key) == Forward(next) && next in net
    ensures Halved(Wait(Pow2(bits), p, before), Wait(Pow2(bits), next, before))
  {
    hide RingOk, IsTarget, IsBefore, TrueTable, FindStep, OnTheWay, ClosestPreceding, Wait, Identifiers, SelfForwards;
    assert TrueTable(bits, net.Keys, p, net[p].fingers);
    hide TrueTables;
    next := IsOnTheWay(kind, Pow2(bits), net, p, key, before);
    var i := TrueTableHalves(bits, net.Keys, net[p], key, before);
  }

  function NoExtra(nodes: set<nat>): (r: map<nat, nat>)
    ensures r.Keys == nodes
  {
    map q | q in nodes :: 0
  }

  lemma TrueTablesProgress(kind: Kind, bits: nat, net: Network, key: nat, before: nat)
    requires Identifiers(Pow2(bits), net.Keys) && RingOk(Pow2(bits), net) && TrueTables(bits, net)
    requires key < Pow2(bits) && key !in net && IsBefore(Pow2(bits), net.Keys, key, before)
    requires NoneSelfForwards(kind, net, key)
    ensures AllProgress(kind, Pow2(bits), net, key, before, Waits(Pow2(bits), net.Keys, before), NoExtra(net.Keys))
  {
    hide RingOk, IsTarget, IsBefore, TrueTables, FindStep, SelfForwards, Halved;
    var m := Pow2(bits);
    forall q | q in net && q != before && !IsTarget(kind, m, net.Keys, key, q)
      ensures exists next :: Progresses(kind, net, key, Waits(m, net.Keys, before), NoExtra(net.Keys), q, next)
    {
      var next := TrueTableProgress(kind, bits, net, q, key, before);
      assert Progresses(kind, net, key, Waits(m, net.Keys, before), NoExtra(net.Keys), q, next);
    }
  }

  /** With every finger the ring successor of its target, a lookup takes at most one forward per bit to
      the node before the key, and one more to the owner. */
  lemma TrueTablesHopBound(kind: Kind, bits: nat, net: Network, p: nat, key: nat)
    requires Identifiers(Pow2(bits), net.Keys) && RingOk(Pow2(bits), net) && TrueTables(bits, net)
    requires p in net && key < Pow2(bits) && key !in net
    requires NoneSelfForwards(kind, net, key)
    ensures FoundWithin(kind, Pow2(bits), net, p, key, bits + LastHop(kind))
  {
    var m := Pow2(bits);
    var before := SomeBefore(m, net.Keys, key);
    WaitsBelow(m, net.Keys, before, p);
    hide RingOk, IsTarget, IsBefore, TrueTables, FoundWithin, AllProgress, NoneSelfForwards, Waits, NoExtra, Identifiers;
    TrueTablesProgress(kind, bits, net, key, before);
    Chain(kind, m, net, key, before, Waits(m, net.Keys, before), NoExtra(net.Keys), p, bits, bits + LastHop(kind));
  }

  lemma WaitsBelow(m: nat, nodes: set<nat>, before: nat, p: nat)
    requires Identifiers(m, nodes) && p in nodes && before in nodes
    ensures Waits(m, nodes, before)[p] < m && NoExtra(nodes)[p] == 0
  {
  }

  /** Some node comes last before the key. */
  lemma {:induction false} SomeBefore(m: nat, nodes: set<nat>, key: nat) returns (q: nat)
    requires Identifiers(m, nodes) && nodes != {} && key < m
    ensures IsBefore(m, nodes, key, q)
    decreases nodes
  {
    q :| q in nodes;
    if nodes != {q} {
      var r := SomeBefore(m, nodes - {q}, key);
      if Gap(m, r, key) < Gap(m, q, key) {
        q := r;
      }
    }
  }
}
