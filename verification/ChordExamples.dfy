/** Small rings on which the installation and the lookup fall short. */
module RingExamples {
  import opened Wrappers
  import opened Ring
  import opened Lookup
  import opened Tables
  import opened BuiltHops
  import opened NodeKeys
  import opened NodeLookups

  /** A circle of 16 positions with three nodes. */
  const BITS: nat := 4

  function Three(): seq<nat> { [3, 10, 12] }

  lemma Sixteen()
    ensures Pow2(BITS) == 16 && Pow2(3) == 8
  {
    assert Pow2(0) == 1 && Pow2(1) == 2 && Pow2(2) == 4;
  }

  lemma ThreeSorted()
    ensures SortedIds(Pow2(BITS), Three()) && Pow2(BITS) - 1 !in Three()
  {
    Sixteen();
  }

  /** The search never looks at the first identifier: position 2 gets node 10, not node 3. */
  lemma WrongFinger()
    ensures FingerFor(Three(), 2) == 10 && !IsAt(16, Nodes(Three()), 2, 10) && IsAt(16, Nodes(Three()), 2, 3)
  {
    Sixteen();
    ThreeSorted();
    FingerIsSuccessorIff(16, Three(), 2);
  }

  /** So node 10's longest finger, whose target is position 2, is node 10 itself. */
  lemma SelfEntry()
    ensures Table(BITS, Three(), 10)[BITS - 1] == 10
    ensures !NoSelfEntry(Successor, BITS, Three(), 1)
  {
    Sixteen();
    WrongFinger();
    assert Target(BITS, 10, 3) == 2;
    var nodes := Nodes(Three());
    assert 3 in nodes && 10 in nodes;
    assert Gap(16, 1, 3) < Gap(16, 1, 10);
    assert !IsTarget(Successor, Pow2(BITS), nodes, 1, 10);
  }

  lemma TenHasSelfEntry()
    ensures HasSelfEntry(Successor, BITS, Three(), 1, 10)
  {
    Sixteen();
    SelfEntry();
    assert 3 in Nodes(Three()) && Gap(16, 1, 3) < Gap(16, 1, 10);
  }

  /** And on the installed ring a lookup of key 1 that starts at node 10 stays there for ever. */
  lemma LookupStays(hops: nat)
    ensures After(Successor, Installed(BITS, Three(), Three()), 10, 1, hops) == Travelling(10)
  {
    ThreeSorted();
    TenHasSelfEntry();
    Sixteen();
    hide Installed, SortedIds, HasSelfEntry, After;
    SelfEntryStays(Successor, BITS, Three(), Three(), 1, 10, hops);
  }

  /** A lookup of identifier 10 ends nowhere, wherever it starts. */
  lemma NodeKeyStays(kind: Kind, p: nat, hops: nat)
    requires p in Three()
    ensures After(kind, Installed(BITS, Three(), Three()), p, 10, hops).Travelling?
  {
    ThreeSorted();
    hide Installed, SortedIds, After;
    MiddleKeyNeverFound(kind, BITS, Three(), Three(), p, 1, hops);
  }

  /** With a node at the last position the installed pointers are wrong. */
  lemma LastPosition()
    ensures !RingOk(Pow2(BITS), Installed(BITS, [3, 15], [3, 15]))
  {
    Sixteen();
    assert SortedIds(Pow2(BITS), [3, 15]);
    hide Installed, RingOk;
    InstallationIff(BITS, [3, 15], [3, 15]);
  }

  /** Being the greatest identifier does not help node 12: a request for it goes round between nodes 10 and 12. */
  lemma GreatestKeyStays(hops: nat)
    ensures After(Successor, Installed(BITS, Three(), Three()), 10, 12, hops).Travelling?
  {
    Sixteen();
    ThreeSorted();
    hide Installed, SortedIds, After;
    InstalledGreatestStays(BITS, Three(), Three(), 10, hops);
  }

  // ----- four nodes -----

  function Four(): seq<nat> { [1, 4, 9, 10] }

  lemma FourSorted()
    ensures SortedIds(Pow2(BITS), Four()) && Pow2(BITS) - 1 !in Four()
  {
    Sixteen();
  }

  lemma Eights()
    ensures Pow2(0) == 1 && Pow2(1) == 2 && Pow2(2) == 4 && Pow2(3) == 8 && Pow2(4) == 16
  {
  }

  function Nearest(t: nat): nat { if t <= 4 then 4 else if t <= 9 then 9 else if t <= 10 then 10 else 1 }

  lemma FourFingers(t: nat)
    ensures FingerFor(Four(), t) == Nearest(t)
  {
    assert LeastFrom(Four(), t, 4) == 4;
    assert LeastFrom(Four(), t, 3) == if t <= 10 then 3 else 4;
    assert LeastFrom(Four(), t, 2) == if t <= 9 then 2 else LeastFrom(Four(), t, 3);
  }

  lemma FourEntry(p: nat, j: nat)
    requires p < 16 && j < 4
    ensures |Table(BITS, Four(), p)| == 4
    ensures Table(BITS, Four(), p)[j] == Nearest((p + Pow2(j)) % 16)
  {
    Sixteen();
    FourFingers(Target(BITS, p, j));
  }

  lemma FourTable(p: nat)
    requires p < 16
    ensures Table(BITS, Four(), p) ==
            [Nearest((p + 1) % 16), Nearest((p + 2) % 16), Nearest((p + 4) % 16), Nearest((p + 8) % 16)]
  {
    Eights();
    FourEntry(p, 0);
    FourEntry(p, 1);
    FourEntry(p, 2);
    FourEntry(p, 3);
    hide Table, Pow2, Nearest;
  }

  lemma ScanOne(id: nat, front: seq<nat>, x: nat, key: nat)
    ensures Scan(id, front + [x], key) == if Between(id, x, key) then Some(x) else Scan(id, front, key)
  {
    assert (front + [x])[..|front|] == front;
  }

  lemma ScanFour(id: nat, a: nat, b: nat, c: nat, d: nat, key: nat)
    ensures Scan(id, [a, b, c, d], key) ==
            if Between(id, d, key) then Some(d) else if Between(id, c, key) then Some(c)
            else if Between(id, b, key) then Some(b) else if Between(id, a, key) then Some(a) else None
  {
    assert [] + [a] == [a] && [a] + [b] == [a, b] && [a, b] + [c] == [a, b, c] && [a, b, c] + [d] == [a, b, c, d];
    ScanOne(id, [a, b, c], d, key);
    ScanOne(id, [a, b], c, key);
    ScanOne(id, [a], b, key);
    ScanOne(id, [], a, key);
    hide Between;
  }

  lemma StepFour(n: Node, a: nat, b: nat, c: nat, d: nat)
    requires n.fingers == [a, b, c, d]
    ensures FindStep(Predecessor, n, 1) ==
            if Between(n.id, 1, a) then Answer(n.id)
            else Forward(if Between(n.id, d, 1) then d else if Between(n.id, c, 1) then c else if Between(n.id, b, 1) then b else a)
  {
    hide Between;
    ScanFour(n.id, a, b, c, d, 1);
  }

  /** What the nodes do with a predecessor request for identifier 1. */
  lemma FourSteps(n: Node)
    requires n.id in Four() && n.fingers == Table(BITS, Four(), n.id)
    ensures FindStep(Predecessor, n, 1) ==
            if n.id == 10 then Answer(10) else if n.id == 1 then Forward(9) else Forward(1)
  {
    hide Table, FindStep;
    FourTable(n.id);
    FourValues(n.id);
    hide Nearest;
    if n.id == 1 {
      StepFour(n, 4, 4, 9, 9);
    } else if n.id == 4 {
      StepFour(n, 9, 9, 9, 1);
    } else if n.id == 9 {
      StepFour(n, 10, 1, 1, 4);
    } else {
      StepFour(n, 1, 1, 1, 4);
    }
  }

  lemma FourValues(p: nat)
    requires p in Four()
    ensures [Nearest((p + 1) % 16), Nearest((p + 2) % 16), Nearest((p + 4) % 16), Nearest((p + 8) % 16)] ==
            if p == 1 then [4, 4, 9, 9] else if p == 4 then [9, 9, 9, 1] else if p == 9 then [10, 1, 1, 4] else [1, 1, 1, 4]
  {
  }

  lemma FourInstalled(p: nat)
    requires p in Four()
    ensures var net := Installed(BITS, Four(), Four());
            p in net && net[p].id == p && net[p].fingers == Table(BITS, Four(), p)
  {
    FourSorted();
    InstalledTable(BITS, Four(), Four(), p);
    AllTablesFit(BITS, Four());
    assert p in Nodes(Four());
    hide Table, TablesFit, InstallAll;
    HoldsTable(AllTables(BITS, Four()), Four(), p);
  }

  lemma FourRing(p: nat)
    requires p in Four()
    ensures var net := Installed(BITS, Four(), Four());
            p in net && FindStep(Predecessor, net[p], 1) ==
                        if p == 10 then Answer(10) else if p == 1 then Forward(9) else Forward(1)
  {
    hide Installed, Table, FindStep;
    FourInstalled(p);
    FourSteps(Installed(BITS, Four(), Four())[p]);
  }

  /** No node forwards identifier 1 to itself. */
  lemma FourHaveNoSelf()
    ensures NoneSelfForwards(Predecessor, Installed(BITS, Four(), Four()), 1)
  {
    var net := Installed(BITS, Four(), Four());
    hide Installed, Table, FindStep;
    forall p | p in net ensures !SelfForwards(Predecessor, net, p, 1) {
      assert p in Nodes(Four());
      FourRing(p);
    }
  }

  lemma TwoClosed(net: Network, a: nat, b: nat, key: nat)
    requires a in net && FindStep(Predecessor, net[a], key) == Forward(b)
    requires b in net && FindStep(Predecessor, net[b], key) == Forward(a)
    ensures Closed(Predecessor, net, key, {a, b})
  {
    hide FindStep;
  }

  /** And yet a predecessor request for it goes round between nodes 1 and 9: node 9 has a finger that leads
      down to node 1. */
  lemma LeastKeyStays(hops: nat)
    ensures After(Predecessor, Installed(BITS, Four(), Four()), 9, 1, hops).Travelling?
  {
    var net := Installed(BITS, Four(), Four());
    hide Installed, Table, FindStep, After;
    FourRing(1);
    FourRing(9);
    TwoClosed(net, 1, 9, 1);
    hide Closed, Four;
    ClosedTravels(Predecessor, net, 1, {1, 9}, 9, hops);
  }
}
