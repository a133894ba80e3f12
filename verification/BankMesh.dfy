/** Who dials whom: how the branches divide the n * (n - 1) / 2 connections of the full mesh. */
module Mesh {
  import opened Ranges

  /** How many peers the branch at this offset of the list dials. */
  function Outgoing(n: nat, offset: nat): nat
    requires n > 0
  {
    (n - 1) / 2 + if n % 2 == 0 && offset < n / 2 then 1 else 0
  }

  /** The branch at 'from' dials the branch at 'to'. */
  predicate Dials(n: nat, from: nat, to: nat)
    requires n > 0
  {
    exists i :: from + 1 <= i < from + Outgoing(n, from) + 1 && i % n == to
  }

  /** Clockwise distance along the list. */
  function Ahead(n: nat, from: nat, to: nat): nat
    requires from < n && to < n
  {
    if from <= to then to - from else to + n - from
  }

  lemma ModOnce(i: nat, n: nat)
    requires n > 0 && i < 2 * n
    ensures i % n == if i < n then i else i - n
  {
  }

  lemma DialsIsNear(n: nat, from: nat, to: nat)
    requires from < n && to < n
    ensures Dials(n, from, to) <==> 1 <= Ahead(n, from, to) <= Outgoing(n, from)
  {
    forall i | from + 1 <= i < from + Outgoing(n, from) + 1
      ensures i % n == if i < n then i else i - n
    {
      ModOnce(i, n);
    }
    if 1 <= Ahead(n, from, to) <= Outgoing(n, from) {
      ModOnce(from + Ahead(n, from, to), n);
      assert (from + Ahead(n, from, to)) % n == to;
    }
  }

  /** These are the positions, counted cyclically from its own, of the branches that a branch dials. */
  lemma DialsAre(n: nat, from: nat, to: nat)
    requires from < n && to < n
    ensures Dials(n, from, to) <==> exists k: nat :: DialledAt(n, from, k) == to && k < Outgoing(n, from)
  {
    if i :| from + 1 <= i < from + Outgoing(n, from) + 1 && i % n == to {
      assert DialledAt(n, from, i - from - 1) == to;
    }
    if k: nat :| DialledAt(n, from, k) == to && k < Outgoing(n, from) {
      assert (from + 1 + k) % n == to;
    }
  }

  function DialledAt(n: nat, from: nat, k: nat): nat
    requires n > 0
  {
    (from + 1 + k) % n
  }

  /** Every pair of distinct branches gets exactly one connection, and no branch dials itself. */
  lemma FullMesh(n: nat, i: nat, j: nat)
    requires i < n && j < n
    ensures i != j ==> (Dials(n, i, j) <==> !Dials(n, j, i))
    ensures !Dials(n, i, i)
  {
    DialsIsNear(n, i, j);
    DialsIsNear(n, j, i);
    DialsIsNear(n, i, i);
  }

  /** The channels of branch i once every dialled peer has said hello: those it dialled and those that dialled it. */
  function ChannelsOf(n: nat, i: nat): set<nat>
    requires i < n
  {
    (set j | j in Below(n) && Dials(n, i, j)) + (set j | j in Below(n) && Dials(n, j, i))
  }

  /** The peers a snapshot of branch i records. */
  function PeersOf(n: nat, i: nat): set<nat> { set j | j in Below(n) && j != i }

  /** After the hellos the channels of every branch are exactly the peers its snapshots record. */
  lemma MeshMatchesPeers(n: nat, i: nat)
    requires i < n
    ensures ChannelsOf(n, i) == PeersOf(n, i)
  {
    forall j | 0 <= j < n
      ensures j in ChannelsOf(n, i) <==> j != i
    {
      FullMesh(n, i, j);
    }
  }

  /** Those n - 1 channels are not counted twice: what a branch dials and what dials it are disjoint. */
  lemma NoDoubleConnection(n: nat, i: nat)
    requires i < n
    ensures (set j | j in Below(n) && Dials(n, i, j)) !! (set j | j in Below(n) && Dials(n, j, i))
    ensures |ChannelsOf(n, i)| == n - 1
  {
    forall j | 0 <= j < n
      ensures !(Dials(n, i, j) && Dials(n, j, i))
    {
      FullMesh(n, i, j);
    }
    MeshMatchesPeers(n, i);
    assert PeersOf(n, i) == Below(n) - {i};
  }
}
