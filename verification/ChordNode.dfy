/** A node of the ring, with identifiers as the strings the program keeps. */
module LocalNodes {
  import opened Wrappers
  import opened Hex
  import opened Ring
  import opened Lookup
  import opened TableBuilder

  predicate IdBetween(lower: string, middle: string, upper: string) {
    if Less(lower, upper) then Less(lower, middle) && Less(middle, upper)
    else !(Less(upper, middle) && Less(middle, lower))
  }

  predicate IsDigest(digits: nat, s: string) { IsHex(s) && |s| == digits }

  /** On digests the string test is the test on numbers. */
  lemma IdBetweenIsBetween(digits: nat, lower: string, middle: string, upper: string)
    requires IsDigest(digits, lower) && IsDigest(digits, middle) && IsDigest(digits, upper)
    ensures IdBetween(lower, middle, upper) <==> Between(Num(lower), Num(middle), Num(upper))
  {
    LessIsNumeric(lower, upper);
    LessIsNumeric(lower, middle);
    LessIsNumeric(middle, upper);
    LessIsNumeric(upper, middle);
    LessIsNumeric(middle, lower);
  }

  /** On pairwise distinct digests it is clockwise betweenness on a circle of 16^digits positions. */
  lemma IdBetweenIsClockwise(digits: nat, lower: string, middle: string, upper: string)
    requires IsDigest(digits, lower) && IsDigest(digits, middle) && IsDigest(digits, upper)
    requires lower != middle && middle != upper && lower != upper
    ensures IdBetween(lower, middle, upper) <==>
            Gap(Pow16(digits), Num(lower), Num(middle)) < Gap(Pow16(digits), Num(lower), Num(upper))
  {
    NumBound(lower);
    NumBound(middle);
    NumBound(upper);
    LessIsNumeric(lower, middle);
    LessIsNumeric(middle, upper);
    LessIsNumeric(lower, upper);
    IdBetweenIsBetween(digits, lower, middle, upper);
    BetweenIsClockwise(Pow16(digits), Num(lower), Num(middle), Num(upper));
  }

  /** f is the last finger between the node and the key; when there is none it is the first finger. */
  ghost predicate IsClosest(id: string, fingers: seq<NodeID>, key: string, f: NodeID) {
    || (exists j :: IsLastBetween(id, fingers, key, j) && f == fingers[j])
    || (NoneBetween(id, fingers, key) && fingers != [] && f == fingers[0])
  }

  ghost predicate IsLastBetween(id: string, fingers: seq<NodeID>, key: string, j: int) {
    && 0 <= j < |fingers| && IdBetween(id, fingers[j].id, key)
    && forall i :: j < i < |fingers| ==> !IdBetween(id, fingers[i].id, key)
  }

  ghost predicate NoneBetween(id: string, fingers: seq<NodeID>, key: string) {
    forall i :: 0 <= i < |fingers| ==> !IdBetween(id, fingers[i].id, key)
  }

  /** What a node does with a request, its identifiers read as numbers. */
  function StepNum(s: Step<NodeID>): Step<nat> {
    match s
    case Answer(n) => Answer(Num(n.id))
    case Forward(n) => Forward(Num(n.id))
    case Throw(e) => Throw(e)
  }

  ghost predicate Digests(digits: nat, nodes: seq<NodeID>) {
    forall i :: 0 <= i < |nodes| ==> IsDigest(digits, nodes[i].id)
  }

  /** The finger found on strings is the one found on numbers. */
  lemma {:induction false} ScanLast(digits: nat, id: string, fingers: seq<NodeID>, key: string, j: nat)
    requires IsDigest(digits, id) && IsDigest(digits, key) && Digests(digits, fingers)
    requires IsLastBetween(id, fingers, key, j)
    ensures Scan(Num(id), Nums(fingers), Num(key)) == Some(Num(fingers[j].id))
    decreases |fingers|
  {
    var last := |fingers| - 1;
    IdBetweenIsBetween(digits, id, fingers[last].id, key);
    if j < last {
      assert IsLastBetween(id, fingers[..last], key, j);
      assert Nums(fingers[..last]) == Nums(fingers)[..last];
      hide IdBetween, Between, IsDigest;
      ScanLast(digits, id, fingers[..last], key, j);
    }
  }

  lemma {:induction false} ScanNone(digits: nat, id: string, fingers: seq<NodeID>, key: string)
    requires IsDigest(digits, id) && IsDigest(digits, key) && Digests(digits, fingers)
    requires NoneBetween(id, fingers, key)
    ensures Scan(Num(id), Nums(fingers), Num(key)) == None
    decreases |fingers|
  {
    if fingers != [] {
      var last := |fingers| - 1;
      IdBetweenIsBetween(digits, id, fingers[last].id, key);
      ScanNone(digits, id, fingers[..last], key);
      assert Nums(fingers[..last]) == Nums(fingers)[..last];
    }
  }

  lemma ClosestIsClosest(digits: nat, id: string, fingers: seq<NodeID>, key: string, f: NodeID, n: Node)
    requires IsDigest(digits, id) && IsDigest(digits, key) && Digests(digits, fingers)
    requires IsClosest(id, fingers, key, f)
    requires n.id == Num(id) && n.fingers == Nums(fingers)
    ensures n.fingers != [] && ClosestPreceding(n, Num(key)) == Num(f.id)
  {
    if NoneBetween(id, fingers, key) {
      ScanNone(digits, id, fingers, key);
    } else {
      var j :| IsLastBetween(id, fingers, key, j) && f == fingers[j];
      ScanLast(digits, id, fingers, key, j);
    }
  }

  function NumOf(n: Option<NodeID>): Option<nat> {
    if n.None? then None else Some(Num(n.value.id))
  }

  class LocalNode {
    const digits: nat
    const digest: (string, int) -> string
    const self: NodeID
    var fingertable: seq<NodeID>
    var predecessor: Option<NodeID>

    /** A node is identified by the digest of its address. */
    constructor (digits: nat, digest: (string, int) -> string, ip: string, port: int)
      ensures this.digits == digits && this.digest == digest && self == NodeID(ip, port, digest(ip, port))
      ensures fingertable == [] && predecessor == None
      ensures View() == Node(Num(digest(ip, port)), [], None)
    {
      this.digits := digits;
      this.digest := digest;
      self := NodeID(ip, port, digest(ip, port));
      fingertable, predecessor := [], None;
    }

    /** The node's state as the lookup on numbers sees it. */
    ghost function View(): Node
      reads this
    {
      Node(Num(self.id), Nums(fingertable), NumOf(predecessor))
    }

    /** All identifiers the node holds are digests. */
    ghost predicate AllDigests()
      reads this
    {
      && IsDigest(digits, self.id) && Digests(digits, fingertable)
      && (predecessor.Some? ==> IsDigest(digits, predecessor.value.id))
    }

    /** Stores the table, each identifier computed anew from the address, and returns the call to make:
        the first finger is to learn of this node. */
    method SetFingertable(nodes: seq<NodeID>) returns (to: NodeID, predecessorSent: NodeID)
      requires nodes != []
      modifies this`fingertable
      ensures |fingertable| == |nodes|
      ensures forall i :: 0 <= i < |nodes| ==>
                fingertable[i] == NodeID(nodes[i].ip, nodes[i].port, digest(nodes[i].ip, nodes[i].port))
      ensures to == fingertable[0] && predecessorSent == self
      ensures (forall n :: n in nodes ==> n.id == digest(n.ip, n.port)) ==>
                fingertable == nodes && View() == old(View()).(fingers := Nums(nodes))
    {
      fingertable := nodes;
      for i := 0 to |fingertable|
        invariant |fingertable| == |nodes|
        invariant forall k :: 0 <= k < i ==>
                    fingertable[k] == NodeID(nodes[k].ip, nodes[k].port, digest(nodes[k].ip, nodes[k].port))
        invariant forall k :: i <= k < |nodes| ==> fingertable[k] == nodes[k]
      {
        var n := fingertable[i];
        fingertable := fingertable[i := n.(id := digest(n.ip, n.port))];
      }
      to, predecessorSent := fingertable[0], self;
    }

    method SetPredecessor(node: NodeID)
      modifies this`predecessor
      ensures predecessor == Some(node)
      ensures View() == old(View()).(predecessor := Some(Num(node.id)))
    {
      predecessor := Some(node);
    }

    method IsSuccessor(key: string) returns (r: Result<bool, Error>)
      ensures r == if predecessor.None? then Err(UnknownPredecessor)
                   else Ok(IdBetween(predecessor.value.id, key, self.id))
      ensures predecessor.Some? ==>
                var from := predecessor.value.id;
                r.value == if Less(from, self.id) then Less(from, key) && Less(key, self.id)
                           else !(Less(self.id, key) && Less(key, from))
    {
      if predecessor.None? {
        return Err(UnknownPredecessor);
      }
      r := Ok(IdBetween(predecessor.value.id, key, self.id));
    }

    method IsPredecessor(key: string) returns (r: Result<bool, Error>)
      ensures r == if fingertable == [] then Err(UnknownSuccessor)
                   else Ok(IdBetween(self.id, key, fingertable[0].id))
      ensures fingertable != [] ==>
                var to := fingertable[0].id;
                r.value == if Less(self.id, to) then Less(self.id, key) && Less(key, to)
                           else !(Less(to, key) && Less(key, self.id))
    {
      if fingertable == [] {
        return Err(UnknownSuccessor);
      }
      r := Ok(IdBetween(self.id, key, fingertable[0].id));
    }

    method ClosestPrecedingNode(key: string) returns (f: NodeID)
      requires fingertable != []
      ensures f in fingertable && IsClosest(self.id, fingertable, key, f)
      ensures AllDigests() && IsDigest(digits, key) ==> Num(f.id) == ClosestPreceding(View(), Num(key))
    {
      var i := |fingertable|;
      f := fingertable[0];
      while i > 0
        invariant 0 <= i <= |fingertable| && f == fingertable[0]
        invariant forall k :: i <= k < |fingertable| ==> !IdBetween(self.id, fingertable[k].id, key)
      {
        i := i - 1;
        if IdBetween(self.id, fingertable[i].id, key) {
          f := fingertable[i];
          assert IsLastBetween(self.id, fingertable, key, i);
          break;
        }
      }
      if AllDigests() && IsDigest(digits, key) {
        ClosestIsClosest(digits, self.id, fingertable, key, f, View());
      }
    }

    /** A node that knows its predecessor answers for the keys between that and itself, and sends any
        other request on; on digests it does what the lookup on numbers does. */
    method FindSuccessor(key: string) returns (s: Step<NodeID>)
      ensures predecessor.None? ==> s == Throw(UnknownPredecessor)
      ensures predecessor.Some? && IdBetween(predecessor.value.id, key, self.id) ==> s == Answer(self)
      ensures predecessor.Some? && !IdBetween(predecessor.value.id, key, self.id) ==>
                if fingertable == [] then s == Throw(UnknownSuccessor)
                else s.Forward? && IsClosest(self.id, fingertable, key, s.to)
      ensures AllDigests() && IsDigest(digits, key) ==> StepNum(s) == FindStep(Successor, View(), Num(key))
    {
      var mine := IsSuccessor(key);
      if mine.Err? {
        return Throw(mine.error);
      }
      if AllDigests() && IsDigest(digits, key) {
        IdBetweenIsBetween(digits, predecessor.value.id, key, self.id);
      }
      if mine.value {
        return Answer(self);
      }
      if fingertable == [] {
        return Throw(UnknownSuccessor);
      }
      var f := ClosestPrecedingNode(key);
      s := Forward(f);
    }

    method FindPredecessor(key: string) returns (s: Step<NodeID>)
      ensures fingertable == [] ==> s == Throw(UnknownSuccessor)
      ensures fingertable != [] ==>
                if IdBetween(self.id, key, fingertable[0].id) then s == Answer(self)
                else s.Forward? && IsClosest(self.id, fingertable, key, s.to)
      ensures AllDigests() && IsDigest(digits, key) ==> StepNum(s) == FindStep(Predecessor, View(), Num(key))
    {
      var mine := IsPredecessor(key);
      if mine.Err? {
        return Throw(mine.error);
      }
      if AllDigests() && IsDigest(digits, key) {
        IdBetweenIsBetween(digits, self.id, key, fingertable[0].id);
      }
      if mine.value {
        return Answer(self);
      }
      var f := ClosestPrecedingNode(key);
      s := Forward(f);
    }

    method GetSuccessor() returns (r: Result<NodeID, Error>)
      ensures r == if fingertable == [] then Err(UnknownSuccessor) else Ok(fingertable[0])
    {
      if fingertable == [] {
        return Err(UnknownSuccessor);
      }
      r := Ok(fingertable[0]);
    }
  }
}
