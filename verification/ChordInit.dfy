/** The installation script: searching the sorted list of nodes and building a finger table. */
module TableBuilder {
  import opened Hex
  import opened Ring
  import opened Tables

  datatype NodeID = NodeID(ip: string, port: int, id: string)

  /** Nodes in the order the script puts them in: by identifier, all of so many digits, none twice. */
  ghost predicate SortedNodes(digits: nat, lst: seq<NodeID>) {
    && lst != []
    && (forall i :: 0 <= i < |lst| ==> IsHex(lst[i].id) && |lst[i].id| == digits)
    && forall i, j :: 0 <= i < j < |lst| ==> Less(lst[i].id, lst[j].id)
  }

  /** The identifiers as numbers. */
  function Nums(lst: seq<NodeID>): (r: seq<nat>)
    ensures |r| == |lst| && forall i :: 0 <= i < |lst| ==> r[i] == Num(lst[i].id)
  {
    seq(|lst|, i requires 0 <= i < |lst| => Num(lst[i].id))
  }

  lemma SortedNums(digits: nat, lst: seq<NodeID>)
    requires SortedNodes(digits, lst)
    ensures SortedIds(Pow16(digits), Nums(lst))
  {
    forall i | 0 <= i < |lst| ensures Num(lst[i].id) < Pow16(digits) {
      NumBound(lst[i].id);
    }
    forall i, j | 0 <= i < j < |lst| ensures Num(lst[i].id) < Num(lst[j].id) {
      LessIsNumeric(lst[i].id, lst[j].id);
    }
  }

  /** bs: the index at which the search for k ends, between b and e. */
  function Bs(k: string, lst: seq<NodeID>, b: nat, e: nat): (r: nat)
    requires b < e <= |lst|
    ensures b < r <= e
    decreases e - b
  {
    if b + 1 == e then e
    else
      var m := (b + e) / 2;
      if !Less(lst[m].id, k) then Bs(k, lst, b, m) else Bs(k, lst, m, e)
  }

  /** Whatever comes before an identifier below k is below k. */
  lemma UpTo(digits: nat, lst: seq<NodeID>, m: nat, k: nat)
    requires SortedNodes(digits, lst) && m < |lst| && Num(lst[m].id) < k
    ensures forall i :: 0 <= i <= m ==> Num(lst[i].id) < k
  {
    SortedNums(digits, lst);
    assert forall i :: 0 <= i < |lst| ==> Nums(lst)[i] == Num(lst[i].id);
    hide SortedNodes;
  }

  /** Whatever lies before the result is below the key, whatever comes from it on is not. */
  lemma {:induction false} BsSplits(digits: nat, k: string, lst: seq<NodeID>, b: nat, e: nat)
    requires SortedNodes(digits, lst) && IsHex(k) && |k| == digits && b < e <= |lst|
    ensures forall i :: b < i < Bs(k, lst, b, e) ==> Num(lst[i].id) < Num(k)
    ensures Bs(k, lst, b, e) < e ==> Num(k) <= Num(lst[Bs(k, lst, b, e)].id)
    decreases e - b
  {
    if b + 1 != e {
      var m := (b + e) / 2;
      LessIsNumeric(lst[m].id, k);
      hide SortedNodes, Less, Num;
      if !Less(lst[m].id, k) {
        BsSplits(digits, k, lst, b, m);
      } else {
        BsSplits(digits, k, lst, m, e);
        UpTo(digits, lst, m, Num(k));
      }
    }
  }

  /** On a sorted list the search finds the least index from 1 on whose identifier is not below the key,
      or the length. */
  lemma BsIsLeast(digits: nat, k: string, lst: seq<NodeID>)
    requires SortedNodes(digits, lst) && IsHex(k) && |k| == digits
    ensures Bs(k, lst, 0, |lst|) == LeastFrom(Nums(lst), Num(k), 1)
  {
    BsSplits(digits, k, lst, 0, |lst|);
    var r, nums := Bs(k, lst, 0, |lst|), Nums(lst);
    assert forall i :: 1 <= i < r ==> nums[i] < Num(k);
    assert r < |lst| ==> Num(k) <= nums[r];
  }

  // ----- the digit that is added -----

  /** Python's '1', '2', '4', '8'. */
  function BitDigit(j: nat): (c: char)
    requires j < 4
    ensures IsDigit(c) && Digit(c) == Pow2(j)
  {
    assert Pow2(0) == 1 && Pow2(1) == 2 && Pow2(2) == 4 && Pow2(3) == 8;
    DigitChar(Pow2(j))
  }

  lemma Reassociate(a: nat, b: nat, c: nat)
    ensures a * (b * c) == (a * b) * c
  {
  }

  lemma {:induction false} Pow2Adds(j: nat, k: nat)
    ensures Pow2(j) * Pow2(k) == Pow2(k + j)
    decreases j
  {
    if j > 0 {
      Pow2Adds(j - 1, k);
      Reassociate(2, Pow2(j - 1), Pow2(k));
    }
  }

  lemma {:induction false} Pow16IsPow2(k: nat)
    ensures Pow16(k) == Pow2(4 * k)
  {
    if k > 0 {
      Pow16IsPow2(k - 1);
      assert Pow2(0) == 1 && Pow2(1) == 2 && Pow2(2) == 4 && Pow2(3) == 8 && Pow2(4) == 16;
      Pow2Adds(4, 4 * k - 4);
    }
  }

  /** The digit for bit j at place i denotes 2^(4i + j). */
  lemma AddendDenotes(digits: nat, i: nat, j: nat, add: string)
    requires i < digits && j < 4 && |add| == digits
    requires forall x :: 0 <= x < digits ==> add[x] == if x == digits - 1 - i then BitDigit(j) else '0'
    ensures IsHex(add) && Num(add) == Pow2(4 * i + j)
  {
    SingleDigit(digits - 1 - i, BitDigit(j), i);
    assert add == seq(digits - 1 - i, x => '0') + [BitDigit(j)] + seq(i, x => '0');
    Pow16IsPow2(i);
    Pow2Adds(j, 4 * i);
  }

  /** The sum's last digits are the finger's target. */
  lemma LastDigitsAreTarget(digits: nat, id: string, sum: string, bit: nat)
    requires digits <= |sum| && Num(sum) == Num(id) + Pow2(bit)
    ensures Num(sum[|sum| - digits..]) == Target(4 * digits, Num(id), bit)
  {
    LastDigits(sum, digits);
    Pow16IsPow2(digits);
  }

  /** It is the identifier plus a power of two, around the circle of all identifiers of so many digits. */
  lemma TargetIsOnCircle(digits: nat, id: nat, bit: nat)
    ensures Target(4 * digits, id, bit) == (id + Pow2(bit)) % Pow16(digits) < Pow16(digits)
  {
    Pow16IsPow2(digits);
  }

  // ----- the table -----

  function FingerNode(lst: seq<NodeID>, t: nat): NodeID
    requires lst != []
  {
    var r := LeastFrom(Nums(lst), t, 1);
    lst[if r == |lst| then 0 else r]
  }

  function FingerNodes(bits: nat, lst: seq<NodeID>, p: nat): seq<NodeID>
    requires lst != []
  {
    seq(bits, j requires 0 <= j < bits => FingerNode(lst, Target(bits, p, j)))
  }

  lemma FingerNodesAreTable(bits: nat, lst: seq<NodeID>, p: nat)
    requires lst != []
    ensures Nums(FingerNodes(bits, lst, p)) == Table(bits, Nums(lst), p)
    ensures forall n :: n in FingerNodes(bits, lst, p) ==> n in lst
  {
  }

  /** One finger: add, keep the last digits, search, wrap past the end. */
  method FindFinger(digits: nat, id: string, lst: seq<NodeID>, add: string, ghost bit: nat) returns (n: NodeID)
    requires SortedNodes(digits, lst) && IsHex(id) && IsHex(add) && |add| == digits && Num(add) == Pow2(bit)
    ensures n == FingerNode(lst, Target(4 * digits, Num(id), bit))
  {
    var sum := HsAdd(id, add);
    LastDigitsAreTarget(digits, id, sum, bit);
    var fid := sum[|sum| - digits..];
    BsIsLeast(digits, fid, lst);
    var idx := Bs(fid, lst, 0, |lst|);
    n := lst[if idx >= |lst| then 0 else idx];
  }

  ghost predicate FingersSoFar(digits: nat, id: string, lst: seq<NodeID>, fing: seq<NodeID>, count: nat)
    requires lst != []
  {
    |fing| == count && forall k :: 0 <= k < count ==> fing[k] == FingerNode(lst, Target(4 * digits, Num(id), k))
  }

  /** The four fingers of one hexadecimal place. */
  method PlaceFingers(digits: nat, id: string, lst: seq<NodeID>, add: array<char>, i: nat, before: seq<NodeID>)
    returns (fing: seq<NodeID>)
    requires SortedNodes(digits, lst) && IsHex(id) && add.Length == digits && i < digits
    requires FingersSoFar(digits, id, lst, before, 4 * i)
    requires forall x :: 0 <= x < digits ==> add[x] == '0'
    modifies add
    ensures FingersSoFar(digits, id, lst, fing, 4 * i + 4)
    ensures add[..] == old(add[..])
  {
    fing := before;
    for j := 0 to 4
      invariant FingersSoFar(digits, id, lst, fing, 4 * i + j)
      invariant forall x :: 0 <= x < digits && x != digits - 1 - i ==> add[x] == '0'
    {
      add[digits - 1 - i] := BitDigit(j);
      AddendDenotes(digits, i, j, add[..]);
      var n := FindFinger(digits, id, lst, add[..], 4 * i + j);
      fing := fing + [n];
    }
    add[digits - 1 - i] := '0';
  }

  lemma AllFingers(digits: nat, id: string, lst: seq<NodeID>, fing: seq<NodeID>)
    requires lst != [] && FingersSoFar(digits, id, lst, fing, 4 * digits)
    ensures |fing| == 4 * digits
    ensures forall k :: 0 <= k < 4 * digits ==> fing[k] == FingerNode(lst, Target(4 * digits, Num(id), k))
    ensures Nums(fing) == Table(4 * digits, Nums(lst), Num(id)) && forall n :: n in fing ==> n in lst
  {
    FingerNodesAreTable(4 * digits, lst, Num(id));
    hide FingerNode, Target, Num, Table, Nums;
    assert fing == FingerNodes(4 * digits, lst, Num(id));
  }

  /** create_fing builds the table of the ring arithmetic, four bits to a hexadecimal digit. */
  method CreateFing(digits: nat, id: string, lst: seq<NodeID>) returns (fing: seq<NodeID>)
    requires SortedNodes(digits, lst) && IsHex(id)
    ensures |fing| == 4 * digits
    ensures forall k :: 0 <= k < 4 * digits ==> fing[k] == FingerNode(lst, Target(4 * digits, Num(id), k))
    ensures Nums(fing) == Table(4 * digits, Nums(lst), Num(id)) && forall n :: n in fing ==> n in lst
  {
    hide Table, Target, Nums, FingerNode, Num;
    fing := [];
    var add := new char[digits](i => '0');
    for i := 0 to digits
      invariant FingersSoFar(digits, id, lst, fing, 4 * i)
      invariant forall x :: 0 <= x < digits ==> add[x] == '0'
    {
      ghost var zeros := add[..];
      fing := PlaceFingers(digits, id, lst, add, i, fing);
      assert forall x :: 0 <= x < digits ==> add[..][x] == zeros[x];
    }
    AllFingers(digits, id, lst, fing);
  }
}
