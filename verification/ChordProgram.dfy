/** The ring as a program: the script's main loop over the nodes, and requests forwarded among them. */
module RingProgram {
  import opened Wrappers
  import opened Hex
  import opened Ring
  import opened Lookup
  import opened Tables
  import opened TableBuilder
  import opened LocalNodes
  import Hops
  import BuiltHops

  /** One running node for every entry of the script's list, identified by the digest of its address. */
  ghost predicate Deployed(digits: nat, digest: (string, int) -> string, lst: seq<NodeID>, servers: map<NodeID, LocalNode>) {
    && 0 < digits && SortedNodes(digits, lst)
    && (forall n :: n in servers <==> n in lst)
    && forall n :: n in servers ==>
         && servers[n].self == n && servers[n].digits == digits && servers[n].digest == digest
         && n.id == digest(n.ip, n.port)
  }

  /** A node's state, read as numbers, is the network's, and it knows only listed nodes. */
  ghost predicate ShowsAt(lst: seq<NodeID>, server: LocalNode, n: NodeID, net: Network)
    reads server
  {
    server.self == n && Knows(lst, n, server.fingertable, server.predecessor, net)
  }

  ghost predicate Shows(lst: seq<NodeID>, servers: map<NodeID, LocalNode>, net: Network)
    reads servers.Values
  {
    forall n :: n in servers ==> ShowsAt(lst, servers[n], n, net)
  }

  lemma NumsHave(lst: seq<NodeID>, n: NodeID)
    requires n in lst
    ensures Num(n.id) in Nums(lst)
  {
    var i :| 0 <= i < |lst| && lst[i] == n;
    assert Nums(lst)[i] == Num(n.id);
  }

  /** Different nodes have different numbers. */
  lemma NumsDiffer(digits: nat, lst: seq<NodeID>, a: NodeID, b: NodeID)
    requires SortedNodes(digits, lst) && a in lst && b in lst && Num(a.id) == Num(b.id)
    ensures a == b
  {
    SortedNums(digits, lst);
    var i :| 0 <= i < |lst| && lst[i] == a;
    var j :| 0 <= j < |lst| && lst[j] == b;
    assert Nums(lst)[i] == Nums(lst)[j];
  }

  /** A table is handed to a node, which makes itself known to its first finger. */
  method HandOver(servers: map<NodeID, LocalNode>, l: NodeID, fing: seq<NodeID>, ghost digest: (string, int) -> string)
    requires forall n :: n in servers ==> servers[n].self == n && servers[n].digest == digest && n.id == digest(n.ip, n.port)
    requires l in servers && fing != [] && forall f :: f in fing ==> f in servers
    modifies servers.Values
    ensures forall n :: n in servers ==>
              && servers[n].fingertable == (if n == l then fing else old(servers[n].fingertable))
              && servers[n].predecessor == if n == fing[0] then Some(l) else old(servers[n].predecessor)
  {
    assert forall n :: n in servers && servers[n] == servers[l] ==> n == l;
    var to, me := servers[l].SetFingertable(fing);
    assert servers[l].fingertable == fing && to == fing[0] && me == l;
    assert forall n :: n in servers && servers[n] == servers[to] ==> n == to;
    servers[to].SetPredecessor(me);
  }

  /** The ring on numbers after the first i nodes have been served. */
  ghost function Served(digits: nat, lst: seq<NodeID>, i: nat): (net: Network)
    requires 0 < digits && lst != [] && i <= |lst|
    ensures net.Keys == Nodes(Nums(lst))
  {
    Installed(4 * digits, Nums(lst), Nums(lst)[..i])
  }

  /** What serving node number i changes at node x. */
  function NodeThen(before: Node, x: nat, p: nat, table: seq<nat>): Node
    requires table != []
  {
    Node(before.id, if x == p then table else before.fingers, if x == table[0] then Some(p) else before.predecessor)
  }

  lemma PrefixNext(bits: nat, ids: seq<nat>, i: nat, x: nat, table: seq<nat>)
    requires 0 < bits && i < |ids| && x in ids && table != [] && table == Table(bits, ids, ids[i])
    ensures Installed(bits, ids, ids[..i + 1])[x] == NodeThen(Installed(bits, ids, ids[..i])[x], x, ids[i], table)
  {
    var order := ids[..i + 1];
    assert order[..|order| - 1] == ids[..i] && order[|order| - 1] == ids[i] && x in Nodes(ids);
    hide Installed, Table;
    LastInstalled(bits, ids, order, x);
  }

  lemma ServedNext(digits: nat, lst: seq<NodeID>, i: nat, x: nat, table: seq<nat>)
    requires 0 < digits && i < |lst| && x in Nums(lst) && table != []
    requires table == Table(4 * digits, Nums(lst), Num(lst[i].id))
    ensures Served(digits, lst, i + 1)[x] == NodeThen(Served(digits, lst, i)[x], x, Num(lst[i].id), table)
  {
    hide Installed, Table, Num, NodeThen;
    PrefixNext(4 * digits, Nums(lst), i, x, table);
  }

  /** The program's node after that, read as numbers. */
  lemma NodeAfter(digits: nat, lst: seq<NodeID>, l: NodeID, fing: seq<NodeID>, n: NodeID,
                  fingertable: seq<NodeID>, predecessor: Option<NodeID>)
    requires SortedNodes(digits, lst) && l in lst && n in lst && fing != [] && fing[0] in lst
    ensures Node(Num(n.id), Nums(if n == l then fing else fingertable), NumOf(if n == fing[0] then Some(l) else predecessor))
            == NodeThen(Node(Num(n.id), Nums(fingertable), NumOf(predecessor)), Num(n.id), Num(l.id), Nums(fing))
  {
    if Num(n.id) == Num(l.id) {
      NumsDiffer(digits, lst, n, l);
    }
    if Num(n.id) == Num(fing[0].id) {
      NumsDiffer(digits, lst, n, fing[0]);
    }
  }

  lemma NodeServed(digits: nat, lst: seq<NodeID>, i: nat, fing: seq<NodeID>, n: NodeID,
                   fingertable: seq<NodeID>, predecessor: Option<NodeID>)
    requires 0 < digits && SortedNodes(digits, lst) && i < |lst| && n in lst && Num(n.id) in Nums(lst)
    requires fing != [] && fing[0] in lst && Nums(fing) == Table(4 * digits, Nums(lst), Num(lst[i].id))
    requires Node(Num(n.id), Nums(fingertable), NumOf(predecessor)) == Served(digits, lst, i)[Num(n.id)]
    ensures Node(Num(n.id), Nums(if n == lst[i] then fing else fingertable),
                 NumOf(if n == fing[0] then Some(lst[i]) else predecessor)) == Served(digits, lst, i + 1)[Num(n.id)]
  {
    hide Served, Table, SortedNodes, NumOf, NodeThen;
    assert Nums(fing) != [];
    ServedNext(digits, lst, i, Num(n.id), Nums(fing));
    NodeAfter(digits, lst, lst[i], fing, n, fingertable, predecessor);
  }

  /** What a node knows, as plain values. */
  ghost predicate Knows(lst: seq<NodeID>, n: NodeID, fingertable: seq<NodeID>, predecessor: Option<NodeID>, net: Network) {
    && Num(n.id) in net && Node(Num(n.id), Nums(fingertable), NumOf(predecessor)) == net[Num(n.id)]
    && (forall f :: f in fingertable ==> f in lst)
    && (predecessor.Some? ==> predecessor.value in lst)
  }

  lemma KnowsNext(digits: nat, lst: seq<NodeID>, i: nat, fing: seq<NodeID>, n: NodeID,
                  fingertable: seq<NodeID>, predecessor: Option<NodeID>)
    requires 0 < digits && SortedNodes(digits, lst) && i < |lst| && n in lst
    requires fing != [] && (forall f :: f in fing ==> f in lst) && Nums(fing) == Table(4 * digits, Nums(lst), Num(lst[i].id))
    requires Knows(lst, n, fingertable, predecessor, Served(digits, lst, i))
    ensures Knows(lst, n, if n == lst[i] then fing else fingertable, if n == fing[0] then Some(lst[i]) else predecessor,
                  Served(digits, lst, i + 1))
  {
    NumsHave(lst, n);
    assert fing[0] in fing;
    hide Table, SortedNodes, NumOf;
    NodeServed(digits, lst, i, fing, n, fingertable, predecessor);
  }

  /** One turn of the main loop. */
  method InitServer(digits: nat, digest: (string, int) -> string, lst: seq<NodeID>, servers: map<NodeID, LocalNode>, i: nat)
    requires Deployed(digits, digest, lst, servers) && i < |lst|
    requires Shows(lst, servers, Served(digits, lst, i))
    modifies servers.Values
    ensures Shows(lst, servers, Served(digits, lst, i + 1))
  {
    var l := lst[i];
    var fing := CreateFing(digits, l.id, lst);
    assert fing != [] && Nums(fing) == Table(4 * digits, Nums(lst), Num(l.id));
    assert l in servers && (forall f :: f in fing ==> f in servers) && SortedNodes(digits, lst) && forall n :: n in servers ==> n in lst;
    hide Served, Table, SortedNodes, Nums, Knows;
    ghost var before, next := Served(digits, lst, i), Served(digits, lst, i + 1);
    assert forall n :: n in servers ==> Knows(lst, n, servers[n].fingertable, servers[n].predecessor, before);
    HandOver(servers, l, fing, digest);
    forall n | n in servers
      ensures ShowsAt(lst, servers[n], n, next)
    {
      KnowsNext(digits, lst, i, fing, n, old(servers[n].fingertable), old(servers[n].predecessor));
    }
  }

  lemma KnowsFirst(digits: nat, lst: seq<NodeID>, n: NodeID)
    requires 0 < digits && n in lst
    ensures Knows(lst, n, [], None, Served(digits, lst, 0))
  {
    NumsHave(lst, n);
    assert Nums(lst)[..0] == [];
    AllTablesFit(4 * digits, Nums(lst));
  }

  /** The script's main: every node of the list is served once. */
  method InstallRing(digits: nat, digest: (string, int) -> string, lst: seq<NodeID>, servers: map<NodeID, LocalNode>)
    requires Deployed(digits, digest, lst, servers)
    requires forall n :: n in servers ==> servers[n].fingertable == [] && servers[n].predecessor == None
    modifies servers.Values
    ensures Shows(lst, servers, Served(digits, lst, |lst|))
  {
    forall n | n in servers ensures ShowsAt(lst, servers[n], n, Served(digits, lst, 0)) {
      KnowsFirst(digits, lst, n);
    }
    for i := 0 to |lst|
      invariant Shows(lst, servers, Served(digits, lst, i))
    {
      InitServer(digits, digest, lst, servers, i);
    }
  }

  // ----- a request -----

  lemma KnowsDigests(digits: nat, lst: seq<NodeID>, server: LocalNode, n: NodeID, net: Network)
    requires SortedNodes(digits, lst) && n in lst && server.digits == digits && ShowsAt(lst, server, n, net)
    ensures server.AllDigests() && server.View() == net[Num(n.id)]
  {
    forall i | 0 <= i < |server.fingertable| ensures IsDigest(digits, server.fingertable[i].id) {
      assert server.fingertable[i] in lst;
    }
  }

  /** What one node does with a request is the lookup's step on numbers. */
  method AskNode(kind: Kind, servers: map<NodeID, LocalNode>, at: NodeID, key: string,
                 ghost digits: nat, ghost digest: (string, int) -> string, ghost lst: seq<NodeID>, ghost net: Network)
    returns (s: Step<NodeID>)
    requires Deployed(digits, digest, lst, servers) && Shows(lst, servers, net)
    requires at in servers && IsDigest(digits, key)
    ensures Num(at.id) in net && StepNum(s) == FindStep(kind, net[Num(at.id)], Num(key))
    ensures s.Answer? ==> s.node == at
    ensures s.Forward? ==> s.to in servers
  {
    var server := servers[at];
    assert ShowsAt(lst, server, at, net) && server.digits == digits && server.self == at;
    KnowsDigests(digits, lst, server, at, net);
    assert forall f :: f in server.fingertable ==> f in servers;
    hide Deployed, Shows, FindStep, Knows;
    match kind
    case Successor => s := server.FindSuccessor(key);
    case Predecessor => s := server.FindPredecessor(key);
  }

  /** One turn of following a request. */
  lemma AfterStep(kind: Kind, net: Network, p: nat, key: nat, left: nat, s: Step<NodeID>)
    requires p in net && StepNum(s) == FindStep(kind, net[p], key)
    ensures s.Answer? ==> After(kind, net, p, key, left) == Found(Num(s.node.id))
    ensures s.Throw? ==> After(kind, net, p, key, left) == Failed
    ensures s.Forward? ==>
              After(kind, net, p, key, left) == if left == 0 then Travelling(p) else After(kind, net, Num(s.to.id), key, left - 1)
  {
  }

  /** Following a request from node to node, for at most so many forwards, is the lookup on numbers. */
  method Find(kind: Kind, servers: map<NodeID, LocalNode>, start: NodeID, key: string, bound: nat,
              ghost digits: nat, ghost digest: (string, int) -> string, ghost lst: seq<NodeID>, ghost net: Network)
    returns (r: Option<NodeID>)
    requires Deployed(digits, digest, lst, servers) && Shows(lst, servers, net)
    requires start in servers && IsDigest(digits, key)
    ensures r.Some? <==> After(kind, net, Num(start.id), Num(key), bound).Found?
    ensures r.Some? ==> r.value in servers && After(kind, net, Num(start.id), Num(key), bound) == Found(Num(r.value.id))
  {
    hide Deployed, Shows, FindStep, After, Num, IsDigest;
    var at, left := start, bound;
    while true
      invariant at in servers
      invariant After(kind, net, Num(start.id), Num(key), bound) == After(kind, net, Num(at.id), Num(key), left)
      decreases left
    {
      var s := AskNode(kind, servers, at, key, digits, digest, lst, net);
      AfterStep(kind, net, Num(at.id), Num(key), left, s);
      if s.Answer? {
        return Some(s.node);
      }
      if s.Throw? || left == 0 {
        return None;
      }
      at, left := s.to, left - 1;
    }
  }

  // ----- the program as a whole -----

  /** What a caller can check: no node sits at the last position, the key is a digest and no node's, and no
      node's table breaks its lookup. */
  ghost predicate Searchable(kind: Kind, digits: nat, lst: seq<NodeID>, key: string)
    requires 0 < digits && lst != []
  {
    && (|lst| == 1 || Pow16(digits) - 1 !in Nums(lst))
    && IsDigest(digits, key) && Num(key) !in Nums(lst)
    && BuiltHops.NoSelfEntry(kind, 4 * digits, Nums(lst), Num(key))
  }

  /** From p the request is answered within so many forwards, by the node looked for. */
  ghost predicate RightlyFound(kind: Kind, m: nat, net: Network, p: nat, key: nat, hops: nat) {
    var end := After(kind, net, p, key, hops);
    end.Found? && IsTarget(kind, m, net.Keys, key, end.node)
  }

  /** The bound is two more than the bits of an identifier: 258 for 64 digits. */
  lemma HopsOfProgram(kind: Kind, bits: nat, ids: seq<nat>)
    ensures BuiltHops.HopsAllowed(kind, bits, ids) <= bits + 2
  {
  }

  lemma {:induction false} LongerFinds(kind: Kind, m: nat, net: Network, p: nat, key: nat, hops: nat, more: nat)
    requires Hops.FoundWithin(kind, m, net, p, key, hops) && hops <= more
    ensures Hops.FoundWithin(kind, m, net, p, key, more)
    decreases more - hops
  {
    if hops < more {
      BuiltHops.LongerFinds(kind, m, net, p, key, hops);
      LongerFinds(kind, m, net, p, key, hops + 1, more);
    }
  }

  lemma InstalledFinds(kind: Kind, bits: nat, ids: seq<nat>, p: nat, key: nat)
    requires 0 < bits && SortedIds(Pow2(bits), ids) && (|ids| == 1 || Pow2(bits) - 1 !in ids)
    requires p in ids && key < Pow2(bits) && key !in ids && BuiltHops.NoSelfEntry(kind, bits, ids, key)
    ensures RightlyFound(kind, Pow2(bits), Installed(bits, ids, ids), p, key, bits + 2)
  {
    var net := Installed(bits, ids, ids);
    hide Installed, SortedIds, IsTarget, After, Hops.FoundWithin, BuiltHops.NoSelfEntry, BuiltHops.HopsAllowed;
    BuiltHops.InstalledRingFindsIff(kind, bits, ids, ids, key);
    assert Hops.FoundWithin(kind, Pow2(bits), net, p, key, BuiltHops.HopsAllowed(kind, bits, ids));
    HopsOfProgram(kind, bits, ids);
    LongerFinds(kind, Pow2(bits), net, p, key, BuiltHops.HopsAllowed(kind, bits, ids), bits + 2);
    FoundIs(kind, Pow2(bits), net, p, key, bits + 2);
  }

  lemma FoundIs(kind: Kind, m: nat, net: Network, p: nat, key: nat, hops: nat)
    requires Hops.FoundWithin(kind, m, net, p, key, hops)
    ensures RightlyFound(kind, m, net, p, key, hops)
  {
  }

  lemma InstalledAnswers(kind: Kind, digits: nat, lst: seq<NodeID>, start: NodeID, key: string)
    requires 0 < digits && SortedNodes(digits, lst) && Searchable(kind, digits, lst, key) && start in lst
    ensures RightlyFound(kind, Pow16(digits), Served(digits, lst, |lst|), Num(start.id), Num(key), 4 * digits + 2)
  {
    var nums := Nums(lst);
    hide Installed, Served, SortedNodes, Num, Nums, SortedIds, RightlyFound, BuiltHops.NoSelfEntry, Nodes;
    SortedNums(digits, lst);
    Pow16IsPow2(digits);
    KeyBound(digits, key);
    NumsHave(lst, start);
    ServedWhole(digits, lst);
    assert Num(key) !in nums && (|lst| == 1 || Pow16(digits) - 1 !in nums);
    assert BuiltHops.NoSelfEntry(kind, 4 * digits, nums, Num(key));
    hide IsDigest, Searchable, Pow16, Pow2;
    InstalledFinds(kind, 4 * digits, nums, Num(start.id), Num(key));
  }

  lemma KeyBound(digits: nat, key: string)
    ensures IsDigest(digits, key) ==> Num(key) < Pow16(digits)
  {
    NumBound(key);
  }

  lemma ServedWhole(digits: nat, lst: seq<NodeID>)
    requires 0 < digits && lst != []
    ensures Served(digits, lst, |lst|) == Installed(4 * digits, Nums(lst), Nums(lst))
  {
    hide Installed;
    assert Nums(lst)[..|lst|] == Nums(lst);
  }

  /** A ring installed by the script answers a request that starts at any node, after at most two forwards more
      than an identifier has bits, with the node looked for. */
  method InstallAndFind(kind: Kind, digits: nat, digest: (string, int) -> string, lst: seq<NodeID>,
                        servers: map<NodeID, LocalNode>, start: NodeID, key: string)
    returns (r: Option<NodeID>)
    requires Deployed(digits, digest, lst, servers) && start in servers && Searchable(kind, digits, lst, key)
    requires forall n :: n in servers ==> servers[n].fingertable == [] && servers[n].predecessor == None
    modifies servers.Values
    ensures r.Some? && r.value in servers
    ensures After(kind, Served(digits, lst, |lst|), Num(start.id), Num(key), 4 * digits + 2) == Found(Num(r.value.id))
    ensures IsTarget(kind, Pow16(digits), Nodes(Nums(lst)), Num(key), Num(r.value.id))
  {
    hide Shows, Served, IsTarget, After, Num, Nums, BuiltHops.NoSelfEntry, SortedNodes, RightlyFound, Pow16, Nodes;
    assert 0 < digits && SortedNodes(digits, lst) && start in lst && IsDigest(digits, key);
    hide Deployed;
    InstalledAnswers(kind, digits, lst, start, key);
    hide Searchable, IsDigest;
    InstallRing(digits, digest, lst, servers);
    ghost var net := Served(digits, lst, |lst|);
    r := Find(kind, servers, start, key, 4 * digits + 2, digits, digest, lst, net);
    RightAnswer(kind, Pow16(digits), net, Num(start.id), Num(key), 4 * digits + 2);
  }

  lemma RightAnswer(kind: Kind, m: nat, net: Network, p: nat, key: nat, hops: nat)
    requires RightlyFound(kind, m, net, p, key, hops)
    ensures After(kind, net, p, key, hops).Found? && IsTarget(kind, m, net.Keys, key, After(kind, net, p, key, hops).node)
  {
  }
}
