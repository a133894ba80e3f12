/** The finger tables the installation script builds from the sorted list of identifiers. */
module Tables {
  import opened Wrappers
  import opened Ring
  import opened Lookup

  /** Strictly increasing identifiers below m. */
  ghost predicate SortedIds(m: nat, ids: seq<nat>) {
    && ids != [] && (forall i :: 0 <= i < |ids| ==> ids[i] < m)
    && forall i, j :: 0 <= i < j < |ids| ==> ids[i] < ids[j]
  }

  function Nodes(ids: seq<nat>): set<nat> { set x | x in ids }

  /** The least index from i on whose identifier is not below t, or the length. */
  function LeastFrom(ids: seq<nat>, t: nat, i: nat): (r: nat)
    ensures i <= |ids| ==> i <= r <= |ids|
    ensures i <= |ids| ==> (r < |ids| ==> t <= ids[r]) && forall k :: i <= k < r ==> ids[k] < t
    decreases |ids| - i
  {
    if i >= |ids| then |ids| else if t <= ids[i] then i else LeastFrom(ids, t, i + 1)
  }

  /** The finger for target t: the search never looks at index 0, which stands for 'past the end'. */
  function FingerFor(ids: seq<nat>, t: nat): nat
    requires ids != []
  {
    var r := LeastFrom(ids, t, 1);
    ids[if r == |ids| then 0 else r]
  }

  /** The clockwise distance from t to x, zero when they are equal. */
  function Wait(m: nat, t: nat, x: nat): nat {
    if t <= x then x - t else if t <= x + m then x + m - t else 0
  }

  /** b is the ring successor of the position t: the first node at or after it. */
  ghost predicate IsAt(m: nat, nodes: set<nat>, t: nat, b: nat) {
    b in nodes && forall x :: x in nodes ==> Wait(m, t, b) <= Wait(m, t, x)
  }

  /** A finger is the ring successor of its target exactly when the target lies above the first
      identifier of the list, or the ring has a single node. Otherwise it is one node too far. */
  lemma FingerIsSuccessorIff(m: nat, ids: seq<nat>, t: nat)
    requires SortedIds(m, ids) && t < m
    ensures IsAt(m, Nodes(ids), t, FingerFor(ids, t)) <==> |ids| == 1 || t > ids[0]
    ensures |ids| > 1 && t <= ids[0] ==> FingerFor(ids, t) == ids[1] && IsAt(m, Nodes(ids), t, ids[0])
  {
    var f := FingerFor(ids, t);
    assert ids[0] in Nodes(ids);
    if |ids| == 1 || t > ids[0] {
      forall x | x in Nodes(ids) ensures Wait(m, t, f) <= Wait(m, t, x) {
        var k :| 0 <= k < |ids| && ids[k] == x;
      }
    } else {
      assert LeastFrom(ids, t, 1) == 1;
      forall x | x in Nodes(ids) ensures Wait(m, t, ids[0]) <= Wait(m, t, x) {
        var k :| 0 <= k < |ids| && ids[k] == x;
      }
      assert Wait(m, t, ids[0]) < Wait(m, t, ids[1]);
    }
  }

  /** The table of node p on a ring of 2^bits positions. */
  function Target(bits: nat, p: nat, j: nat): (t: nat)
    ensures t < Pow2(bits)
  {
    (p + Pow2(j)) % Pow2(bits)
  }

  function Table(bits: nat, ids: seq<nat>, p: nat): seq<nat>
    requires ids != []
  {
    seq(bits, j requires 0 <= j < bits => FingerFor(ids, Target(bits, p, j)))
  }

  lemma FingersAreNodes(bits: nat, ids: seq<nat>, p: nat)
    requires ids != []
    ensures forall f :: f in Table(bits, ids, p) ==> f in Nodes(ids)
  {
  }

  lemma NextIsAt(m: nat, nodes: set<nat>, p: nat, b: nat)
    requires 0 < m && p < m && Identifiers(m, nodes)
    ensures IsNext(m, nodes, p, b) <==> IsAt(m, nodes, (p + 1) % m, b)
  {
    forall x | x in nodes
      ensures Gap(m, p, x) == Wait(m, (p + 1) % m, x) + 1
    {
      StepOn(m, p, x);
    }
  }

  lemma StepOn(m: nat, p: nat, x: nat)
    requires p < m && x < m
    ensures Gap(m, p, x) == Wait(m, (p + 1) % m, x) + 1
  {
    if p + 1 == m {
      assert (p + 1) % m == 0;
    } else {
      assert (p + 1) % m == p + 1;
    }
  }

  lemma AfterLast(m: nat, p: nat)
    requires p < m
    ensures (p + 1) % m == if p == m - 1 then 0 else p + 1
  {
  }

  lemma FirstTarget(bits: nat, ids: seq<nat>, p: nat)
    requires 0 < bits && ids != [] && p < Pow2(bits)
    ensures |Table(bits, ids, p)| == bits
    ensures Table(bits, ids, p)[0] == FingerFor(ids, (p + 1) % Pow2(bits))
  {
    assert Pow2(0) == 1;
  }

  /** A node's first finger is its ring successor exactly when the node is not the last position of the
      circle, or is alone. */
  lemma FirstFingerIff(bits: nat, ids: seq<nat>, p: nat)
    requires 0 < bits && SortedIds(Pow2(bits), ids) && p in ids
    ensures Table(bits, ids, p) != []
    ensures IsNext(Pow2(bits), Nodes(ids), p, Table(bits, ids, p)[0]) <==> |ids| == 1 || p != Pow2(bits) - 1
  {
    var m := Pow2(bits);
    var k :| 0 <= k < |ids| && ids[k] == p;
    assert ids[0] <= p;
    FirstTarget(bits, ids, p);
    hide SortedIds, Table, FingerFor, IsNext, IsAt, Nodes;
    NextIsAt(m, Nodes(ids), p, Table(bits, ids, p)[0]);
    AfterLast(m, p);
    FingerIsSuccessorIff(m, ids, (p + 1) % m);
  }

  // ----- installation -----

  /** A node receives its table and makes itself known to its first finger. */
  function Install(net: Network, p: nat, table: seq<nat>): Network
    requires p in net && table != [] && table[0] in net
  {
    var stored := net[p := net[p].(fingers := table)];
    stored[table[0] := stored[table[0]].(predecessor := Some(p))]
  }

  ghost predicate TablesFit(tables: map<nat, seq<nat>>) {
    forall p :: p in tables ==> tables[p] != [] && tables[p][0] in tables
  }

  /** The nodes of a list receive their tables one after another. */
  ghost function InstallAll(tables: map<nat, seq<nat>>, order: seq<nat>, net: Network): (r: Network)
    requires TablesFit(tables) && net.Keys == tables.Keys && forall p :: p in order ==> p in tables
    ensures r.Keys == net.Keys
    decreases |order|
  {
    if order == [] then net
    else
      var last := order[|order| - 1];
      Install(InstallAll(tables, order[..|order| - 1], net), last, tables[last])
  }

  /** Nodes as they start: they know themselves only. */
  function Started(nodes: set<nat>): (r: Network)
    ensures r.Keys == nodes
  {
    map p | p in nodes :: Node(p, [], None)
  }

  /** What one installation changes. */
  lemma InstallEffect(net: Network, p: nat, table: seq<nat>, x: nat)
    requires p in net && table != [] && table[0] in net && x in net
    ensures Install(net, p, table)[x] ==
            Node(net[x].id,
                 if x == p then table else net[x].fingers,
                 if x == table[0] then Some(p) else net[x].predecessor)
  {
  }

  /** After a part of the installation node x has its identifier and, once installed, its table. */
  lemma {:induction false} HoldsTable(tables: map<nat, seq<nat>>, order: seq<nat>, x: nat)
    requires TablesFit(tables) && (forall p :: p in order ==> p in tables) && x in tables
    ensures InstallAll(tables, order, Started(tables.Keys))[x].id == x
    ensures x in order ==> InstallAll(tables, order, Started(tables.Keys))[x].fingers == tables[x]
    decreases |order|
  {
    if order != [] {
      var front, last := order[..|order| - 1], order[|order| - 1];
      assert forall p :: p in front ==> p in order;
      assert x in order ==> x in front || x == last;
      hide TablesFit, InstallAll, Started;
      HoldsTable(tables, front, x);
      LastInstall(tables, order, x);
    }
  }

  lemma LastInstall(tables: map<nat, seq<nat>>, order: seq<nat>, x: nat)
    requires TablesFit(tables) && (forall p :: p in order ==> p in tables) && x in tables && order != []
    ensures var last, before := order[|order| - 1], InstallAll(tables, order[..|order| - 1], Started(tables.Keys));
            InstallAll(tables, order, Started(tables.Keys))[x] ==
            Node(before[x].id,
                 if x == last then tables[last] else before[x].fingers,
                 if x == tables[last][0] then Some(last) else before[x].predecessor)
  {
    var last, before := order[|order| - 1], InstallAll(tables, order[..|order| - 1], Started(tables.Keys));
    assert TablesFit(tables) ==> tables[last] != [] && tables[last][0] in before;
    InstallEffect(before, last, tables[last], x);
  }

  /** And each is known to its first finger, when no other node has that first finger. */
  lemma {:induction false} KnownToFirst(tables: map<nat, seq<nat>>, order: seq<nat>, p: nat)
    requires TablesFit(tables) && (forall q :: q in order ==> q in tables) && p in order
    requires forall q :: q in tables && tables[q][0] == tables[p][0] ==> q == p
    ensures InstallAll(tables, order, Started(tables.Keys))[tables[p][0]].predecessor == Some(p)
    decreases |order|
  {
    var front, last := order[..|order| - 1], order[|order| - 1];
    LastInstall(tables, order, tables[p][0]);
    if p != last {
      assert p in front;
      KnownToFirst(tables, front, p);
    }
  }

  /** The tables of all nodes. */
  function AllTables(bits: nat, ids: seq<nat>): (r: map<nat, seq<nat>>)
    requires ids != []
    ensures r.Keys == Nodes(ids)
  {
    map p | p in Nodes(ids) :: Table(bits, ids, p)
  }

  lemma AllTablesFit(bits: nat, ids: seq<nat>)
    requires 0 < bits && ids != []
    ensures TablesFit(AllTables(bits, ids))
  {
    forall p | p in Nodes(ids)
      ensures Table(bits, ids, p) != [] && Table(bits, ids, p)[0] in Nodes(ids)
    {
      FingersAreNodes(bits, ids, p);
    }
  }

  /** The ring after the installation script has served the nodes in this order. */
  ghost function Installed(bits: nat, ids: seq<nat>, order: seq<nat>): (net: Network)
    requires 0 < bits && ids != [] && forall p :: p in order ==> p in ids
    ensures net.Keys == Nodes(ids)
  {
    AllTablesFit(bits, ids);
    hide TablesFit, Table, Pow2;
    InstallAll(AllTables(bits, ids), order, Started(Nodes(ids)))
  }

  /** What the last installation added. */
  lemma LastInstalled(bits: nat, ids: seq<nat>, order: seq<nat>, x: nat)
    requires 0 < bits && ids != [] && (forall p :: p in order ==> p in ids) && order != [] && x in Nodes(ids)
    ensures Table(bits, ids, order[|order| - 1]) != []
    ensures var last, before := order[|order| - 1], Installed(bits, ids, order[..|order| - 1]);
            Installed(bits, ids, order)[x] ==
            Node(before[x].id,
                 if x == last then Table(bits, ids, last) else before[x].fingers,
                 if x == Table(bits, ids, last)[0] then Some(last) else before[x].predecessor)
  {
    AllTablesFit(bits, ids);
    var t, last := AllTables(bits, ids), order[|order| - 1];
    assert last in ids && t[last] == Table(bits, ids, last) && t[last] != [] by {
      assert TablesFit(t);
    }
    hide TablesFit, Table, InstallAll, Started;
    LastInstall(t, order, x);
  }

  /** No two nodes have the same ring successor. */
  lemma NextIsInjective(m: nat, nodes: set<nat>, p: nat, q: nat, b: nat)
    requires Identifiers(m, nodes) && p in nodes && q in nodes
    requires IsNext(m, nodes, p, b) && IsNext(m, nodes, q, b)
    ensures p == q
  {
    assert Gap(m, p, b) <= Gap(m, p, q) && Gap(m, q, b) <= Gap(m, q, p);
  }

  /** Every node is the ring successor of some node. */
  lemma NextIsOnto(m: nat, ids: seq<nat>, b: nat) returns (p: nat)
    requires SortedIds(m, ids) && b in ids
    ensures p in ids && IsNext(m, Nodes(ids), p, b)
  {
    var k :| 0 <= k < |ids| && ids[k] == b;
    p := ids[if k == 0 then |ids| - 1 else k - 1];
    forall x | x in Nodes(ids) ensures Gap(m, p, b) <= Gap(m, p, x) {
      var i :| 0 <= i < |ids| && ids[i] == x;
    }
  }

  ghost predicate FirstFingersRight(bits: nat, ids: seq<nat>)
    requires 0 < bits && SortedIds(Pow2(bits), ids)
  {
    forall p :: p in ids ==> Table(bits, ids, p) != [] && IsNext(Pow2(bits), Nodes(ids), p, Table(bits, ids, p)[0])
  }

  /** The node before b holds b as its first finger, and no other node does. */
  lemma OnlyFirstFinger(bits: nat, ids: seq<nat>, b: nat) returns (p: nat)
    requires 0 < bits && SortedIds(Pow2(bits), ids) && FirstFingersRight(bits, ids) && b in ids
    ensures p in ids && IsNext(Pow2(bits), Nodes(ids), p, b) && Table(bits, ids, p)[0] == b
    ensures forall q :: q in ids && Table(bits, ids, q)[0] == b ==> q == p
  {
    var m := Pow2(bits);
    p := NextIsOnto(m, ids, b);
    NextIsUnique(m, Nodes(ids), p, b, Table(bits, ids, p)[0]);
    forall q | q in ids && Table(bits, ids, q)[0] == b ensures q == p {
      NextIsInjective(m, Nodes(ids), p, q, b);
    }
  }

  lemma InstalledNodeOk(bits: nat, ids: seq<nat>, order: seq<nat>, b: nat)
    requires 0 < bits && SortedIds(Pow2(bits), ids) && FirstFingersRight(bits, ids)
    requires (forall p :: p in order <==> p in ids) && b in ids
    ensures Installed(bits, ids, order)[b].fingers == Table(bits, ids, b)
    ensures NodeOk(Pow2(bits), Nodes(ids), b, Installed(bits, ids, order)[b])
  {
    var m, t, net := Pow2(bits), AllTables(bits, ids), Installed(bits, ids, order);
    var p := OnlyFirstFinger(bits, ids, b);
    AllTablesFit(bits, ids);
    assert net[b].id == b && net[b].fingers == t[b] by {
      HoldsTable(t, order, b);
    }
    assert net[b].predecessor == Some(p) by {
      KnownToFirst(t, order, p);
    }
    assert IsNext(m, Nodes(ids), b, t[b][0]);
    FingersAreNodes(bits, ids, b);
  }

  lemma InstallationIsRight(bits: nat, ids: seq<nat>, order: seq<nat>)
    requires 0 < bits && SortedIds(Pow2(bits), ids) && forall p :: p in order <==> p in ids
    requires |ids| == 1 || Pow2(bits) - 1 !in ids
    ensures Identifiers(Pow2(bits), Nodes(ids)) && RingOk(Pow2(bits), Installed(bits, ids, order))
    ensures forall p :: p in ids ==> Installed(bits, ids, order)[p].fingers == Table(bits, ids, p)
  {
    var net, m := Installed(bits, ids, order), Pow2(bits);
    assert FirstFingersRight(bits, ids) by {
      forall p | p in ids
        ensures Table(bits, ids, p) != [] && IsNext(m, Nodes(ids), p, Table(bits, ids, p)[0])
      {
        FirstFingerIff(bits, ids, p);
      }
    }
    forall b | b in ids
      ensures net[b].fingers == Table(bits, ids, b) && NodeOk(m, Nodes(ids), b, net[b])
    {
      InstalledNodeOk(bits, ids, order, b);
    }
  }

  lemma InstalledTable(bits: nat, ids: seq<nat>, order: seq<nat>, p: nat)
    requires 0 < bits && ids != [] && (forall q :: q in order ==> q in ids) && p in order
    ensures Installed(bits, ids, order)[p].fingers == Table(bits, ids, p)
  {
    AllTablesFit(bits, ids);
    HoldsTable(AllTables(bits, ids), order, p);
  }

  lemma LastPositionBreaks(bits: nat, ids: seq<nat>, p: nat, n: Node)
    requires 0 < bits && SortedIds(Pow2(bits), ids) && |ids| != 1 && p in ids && p == Pow2(bits) - 1
    requires n.fingers == Table(bits, ids, p)
    ensures !NodeOk(Pow2(bits), Nodes(ids), p, n)
  {
    FirstFingerIff(bits, ids, p);
    WrongFirstFinger(Pow2(bits), Nodes(ids), p, n);
  }

  lemma WrongFirstFinger(m: nat, nodes: set<nat>, p: nat, n: Node)
    requires Identifiers(m, nodes) && p in nodes && n.fingers != [] && !IsNext(m, nodes, p, n.fingers[0])
    ensures !NodeOk(m, nodes, p, n)
  {
  }

  /** Once every node has received its table, in any order and at least once, the ring's pointers are
      right if and only if no node sits at the last position of the circle, or there is only one node. */
  lemma InstallationIff(bits: nat, ids: seq<nat>, order: seq<nat>)
    requires 0 < bits && SortedIds(Pow2(bits), ids) && forall p :: p in order <==> p in ids
    ensures Identifiers(Pow2(bits), Nodes(ids))
    ensures RingOk(Pow2(bits), Installed(bits, ids, order)) <==> |ids| == 1 || Pow2(bits) - 1 !in ids
  {
    assert Identifiers(Pow2(bits), Nodes(ids));
    hide SortedIds, NodeOk;
    if |ids| == 1 || Pow2(bits) - 1 !in ids {
      InstallationIsRight(bits, ids, order);
    } else {
      var p := Pow2(bits) - 1;
      InstalledTable(bits, ids, order, p);
      LastPositionBreaks(bits, ids, p, Installed(bits, ids, order)[p]);
    }
  }
}
