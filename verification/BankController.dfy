/** The controller: it deals the initial balance out to the branches and numbers the snapshots. */
module Controllers {
  import opened Snapshots

  datatype Request = InitBranch(balance: nat, all: seq<Name>) | InitSnapshot(id: nat) | RetrieveSnapshot(id: nat)

  class Controller {
    var balance: nat  // what is left to deal out, and afterwards each branch's share
    var peers: seq<Name>
    var channels: seq<seq<Request>>  // per branch, the requests handed to its channel
    var snapshotId: nat

    ghost predicate Valid()
      reads this
    {
      balance < U64 && snapshotId < U64 && (channels == [] || |channels| == |peers|)
    }

    constructor (balance: nat, peers: seq<Name>)
      requires balance < U64
      ensures Valid() && this.balance == balance && this.peers == peers && channels == [] && snapshotId == 0
    {
      this.balance, this.peers, channels, snapshotId := balance, peers, [], 0;
    }

    /** Everybody gets the same, and less than one unit for each branch stays undealt. */
    method InitBranches()
      requires Valid() && peers != [] && channels == []
      modifies this`balance, this`channels
      ensures Valid() && |channels| == |peers|
      ensures forall i :: 0 <= i < |peers| ==> channels[i] == [InitBranch(balance, peers)]
      ensures |peers| * balance <= old(balance) < |peers| * balance + |peers|
    {
      balance := balance / |peers|;
      for i := 0 to |peers|
        invariant |channels| == i && balance == old(balance) / |peers|
        invariant forall k :: 0 <= k < i ==> channels[k] == [InitBranch(balance, peers)]
      {
        channels := channels + [[InitBranch(balance, peers)]];
      }
    }

    /** Numbers the next snapshot and asks one branch, whichever is drawn, to start it. */
    method DoSnapshot(which: nat)
      requires Valid() && which < |channels|
      modifies this`snapshotId, this`channels
      ensures Valid() && snapshotId == if old(snapshotId) == 0xFFFF_FFFF_FFFF_FFFF then 0 else old(snapshotId) + 1
      ensures channels == old(channels)[which := old(channels)[which] + [InitSnapshot(snapshotId)]]
    {
      snapshotId := Add64(snapshotId, 1);
      channels := channels[which := channels[which] + [InitSnapshot(snapshotId)]];
    }

    /** Asks every branch for that snapshot. */
    method DoRetrieveSnapshot()
      requires Valid()
      modifies this`channels
      ensures Valid() && |channels| == |old(channels)|
      ensures forall i :: 0 <= i < |channels| ==> channels[i] == old(channels)[i] + [RetrieveSnapshot(snapshotId)]
    {
      for i := 0 to |channels|
        invariant |channels| == |old(channels)| && Valid()
        invariant forall k :: 0 <= k < |channels| ==>
                    channels[k] == if k < i then old(channels)[k] + [RetrieveSnapshot(snapshotId)] else old(channels)[k]
      {
        channels := channels[i := channels[i] + [RetrieveSnapshot(snapshotId)]];
      }
    }
  }
}
