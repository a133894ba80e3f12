/** A branch: its balance, its latest snapshot and the messages it hands to its channels. */
module Branches {
  import opened Wrappers
  import opened Snapshots
  import Mesh

  datatype Message = Transfer(amount: nat) | Marker(id: nat)

  datatype BranchState = BranchState(money: nat, snapshot: Option<LocalSnapshot>)

  // ----- what each handler does, as functions -----

  function OnTransfer(b: BranchState, from: Name, amount: nat): BranchState {
    BranchState(Add64(b.money, amount),
                match b.snapshot
                case None => None
                case Some(s) => Some(RecordTx(s, from, amount)))
  }

  function OnInitSnapshot(b: BranchState, id: nat, peers: set<Name>): BranchState {
    b.(snapshot := Some(NewSnapshot(id, b.money, peers)))
  }

  /** A marker of another id than the snapshot held starts a snapshot, and is then passed on. */
  predicate StartsSnapshot(b: BranchState, id: nat) {
    b.snapshot.None? || b.snapshot.value.id != id
  }

  function OnMarker(b: BranchState, from: Name, id: nat, peers: set<Name>): BranchState {
    var s := if StartsSnapshot(b, id) then NewSnapshot(id, b.money, peers) else b.snapshot.value;
    b.(snapshot := Some(EndRecording(s, from)))
  }

  function Flooded(channels: map<Name, seq<Message>>, id: nat): map<Name, seq<Message>> {
    map p | p in channels :: channels[p] + [Marker(id)]
  }

  datatype Retrieved = Reply(snapshot: ReturnSnapshot) | NotAllCompleted | UnknownId | NullSnapshot

  // ----- the sending loop -----

  /** One turn of the compare-exchange loop: the amount drawn, the credits other handlers add before
      the exchange, and whether the weak exchange fails for no reason. */
  datatype Attempt = Attempt(draw: nat, credits: nat, spurious: bool)

  datatype SendOutcome = Sent(amount: nat) | SentNothing | StillTrying

  function Sub64(a: nat, b: nat): (r: nat)
    requires b < U64
    ensures a < U64 ==> (r <= a <==> b <= a) && (b <= a ==> r == a - b)
  {
    (a + U64 - b) % U64
  }

  /** What the credits alone make of the balance, and what the loop reads of it. */
  ghost predicate Trace(money: nat, attempts: seq<Attempt>, used: nat, balances: seq<nat>, seen: seq<nat>) {
    && used <= |attempts| && |balances| == |seen| == used + 1 && balances[0] == seen[0] == money
    && (forall k :: 0 <= k < used ==> balances[k + 1] == (balances[k] + attempts[k].credits) % 0x1_0000_0000_0000_0000)
    && forall k :: 0 <= k < used ==> seen[k + 1] == if attempts[k].draw > seen[k] then seen[k] else balances[k + 1]
  }

  /** Each of the first n attempts drew more than was read, failed for no reason, or met a changed balance. */
  ghost predicate FailedUpTo(attempts: seq<Attempt>, n: int, balances: seq<nat>, seen: seq<nat>) {
    && n <= |attempts| && |balances| == |seen| > n
    && forall k :: 0 <= k < n ==>
         && attempts[k].draw != 0
         && (attempts[k].draw > seen[k] || attempts[k].spurious || balances[k + 1] != seen[k])
  }

  /** A successful exchange takes what was drawn off the balance that was read, which is still the balance. */
  ghost predicate Exchanged(a: Attempt, amount: nat, read: nat, balance: nat) {
    amount == a.draw && !a.spurious && 0 < amount <= read == balance
  }

  lemma TraceGrows(money: nat, attempts: seq<Attempt>, used: nat, balances: seq<nat>, seen: seq<nat>,
                   later: seq<nat>, read: seq<nat>)
    requires Trace(money, attempts, used, balances, seen) && used < |attempts|
    requires later == balances + [Add64(balances[used], attempts[used].credits)]
    requires read == seen + [if attempts[used].draw > seen[used] then seen[used] else later[used + 1]]
    ensures Trace(money, attempts, used + 1, later, read)
  {
  }

  lemma FailsAgain(attempts: seq<Attempt>, used: nat, balances: seq<nat>, seen: seq<nat>, later: seq<nat>, read: seq<nat>)
    requires FailedUpTo(attempts, used, balances, seen) && used < |attempts| && |balances| == |seen| == used + 1
    requires |later| == |read| == used + 2 && later[..used + 1] == balances && read[..used + 1] == seen
    ensures FailedUpTo(attempts, used, later, read)
    ensures attempts[used].draw != 0
            && (attempts[used].draw > seen[used] || attempts[used].spurious || later[used + 1] != seen[used])
            ==> FailedUpTo(attempts, used + 1, later, read)
  {
    assert forall k :: 0 <= k <= used ==> later[k] == balances[k] && read[k] == seen[k];
  }

  lemma OneTurn(money: nat, attempts: seq<Attempt>, used: nat, balances: seq<nat>, seen: seq<nat>,
                later: seq<nat>, read: seq<nat>)
    requires Trace(money, attempts, used, balances, seen) && FailedUpTo(attempts, used, balances, seen) && used < |attempts|
    requires |balances| == |seen| == used + 1
    requires later == balances + [Add64(balances[used], attempts[used].credits)]
    requires read == seen + [if attempts[used].draw > seen[used] then seen[used] else later[used + 1]]
    ensures Trace(money, attempts, used + 1, later, read) && FailedUpTo(attempts, used, later, read)
    ensures |later| == |read| == used + 2 && read[used] == seen[used]
    ensures later[used + 1] == Add64(balances[used], attempts[used].credits)
    ensures read[used + 1] == if attempts[used].draw > seen[used] then seen[used] else later[used + 1]
    ensures attempts[used].draw != 0
            && (attempts[used].draw > seen[used] || attempts[used].spurious || later[used + 1] != seen[used])
            ==> FailedUpTo(attempts, used + 1, later, read)
  {
    hide Add64;
    TraceGrows(money, attempts, used, balances, seen, later, read);
    hide Trace;
    FailsAgain(attempts, used, balances, seen, later, read);
  }

  class Branch {
    const name: Name
    var money: nat
    var snapshot: Snapshot?
    var peers: seq<Name>
    var channels: map<Name, seq<Message>>  // per channel, the messages handed to it, oldest first

    function View(): BranchState
      reads this, snapshot
    {
      BranchState(money, if snapshot == null then None else Some(snapshot.View()))
    }

    function Peers(): set<Name>
      reads this
    {
      set p | p in peers
    }

    constructor (name: Name)
      ensures View() == BranchState(0, None) && peers == [] && channels == map[]
    {
      this.name := name;
      money, snapshot, peers, channels := 0, null, [], map[];
    }

    /** Draws, subtracts and exchanges until the exchange succeeds on an unchanged balance. 'balances' is what the
        credits alone make of the balance, attempt by attempt, and 'seen' what the loop last read: a draw beyond
        that is repeated without reading again. */
    method SendMoney(to: Name, attempts: seq<Attempt>)
      returns (r: SendOutcome, used: nat, ghost balances: seq<nat>, ghost seen: seq<nat>)
      requires to in channels && money < U64
      requires forall a :: a in attempts ==> a.draw < U64 && a.credits < U64
      modifies this`money, this`channels
      ensures used <= |attempts| && |balances| == |seen| == used + 1 && balances[0] == seen[0] == old(money)
      ensures forall k :: 0 <= k < used ==> balances[k + 1] == (balances[k] + attempts[k].credits) % 0x1_0000_0000_0000_0000
      ensures forall k :: 0 <= k < used ==> seen[k + 1] == if attempts[k].draw > seen[k] then seen[k] else balances[k + 1]
      ensures forall k :: 0 <= k < (if r.StillTrying? then used else used - 1) ==>
                && attempts[k].draw != 0
                && (attempts[k].draw > seen[k] || attempts[k].spurious || balances[k + 1] != seen[k])
      ensures r.StillTrying? ==> used == |attempts|
      ensures r.SentNothing? ==> used > 0 && attempts[used - 1].draw == 0
      ensures r.Sent? ==>
                && used > 0 && r.amount == attempts[used - 1].draw && !attempts[used - 1].spurious
                && 0 < r.amount <= seen[used - 1] == balances[used]
      ensures money == balances[used] - if r.Sent? then r.amount else 0
      ensures channels == if r.Sent? then old(channels)[to := old(channels)[to] + [Transfer(r.amount)]] else old(channels)
    {
      r, used, balances, seen := Exchange(to, attempts);
    }

    /** The loop itself. */
    method Exchange(to: Name, attempts: seq<Attempt>)
      returns (r: SendOutcome, used: nat, ghost balances: seq<nat>, ghost seen: seq<nat>)
      requires to in channels && money < U64
      requires forall a :: a in attempts ==> a.draw < U64 && a.credits < U64
      modifies this`money, this`channels
      ensures Trace(old(money), attempts, used, balances, seen)
      ensures FailedUpTo(attempts, if r.StillTrying? then used else used - 1, balances, seen)
      ensures r.StillTrying? ==> used == |attempts|
      ensures r.SentNothing? ==> used > 0 && attempts[used - 1].draw == 0
      ensures r.Sent? ==> used > 0 && Exchanged(attempts[used - 1], r.amount, seen[used - 1], balances[used])
      ensures money == balances[used] - if r.Sent? then r.amount else 0
      ensures channels == if r.Sent? then old(channels)[to := old(channels)[to] + [Transfer(r.amount)]] else old(channels)
    {
      var current: nat := money;
      used, balances, seen := 0, [money], [money];
      while used < |attempts|
        invariant used <= |attempts| && current < U64 && money < U64 && channels == old(channels)
        invariant Trace(old(money), attempts, used, balances, seen) && FailedUpTo(attempts, used, balances, seen)
        invariant money == balances[used] && current == seen[used]
      {
        hide Trace, FailedUpTo, Add64, Sub64;
        var a := attempts[used];
        var endBalance := Sub64(current, a.draw);
        money := Add64(money, a.credits);
        ghost var later, read := balances + [money], seen + [if a.draw > current then current else money];
        OneTurn(old(money), attempts, used, balances, seen, later, read);
        used, balances, seen := used + 1, later, read;
        if a.draw == 0 {
          return SentNothing, used, balances, seen;
        }
        if endBalance <= current {
          if money == current && !a.spurious {
            money := endBalance;
            channels := channels[to := channels[to] + [Transfer(a.draw)]];
            return Sent(a.draw), used, balances, seen;
          }
          current := money;
        }
      }
      r := StillTrying;
    }

    /** The branch is first found at this offset of the list, and dials as many of the following, cyclically,
        as the number of branches announced asks for. The unsigned 'num - 1' wraps when none is announced. */
    ghost predicate DialsFrom(list: seq<Name>, num: nat, offset: nat, dialled: seq<Name>) {
      && offset < |list| && list[offset] == name && name !in list[..offset]
      && |dialled| == (if num == 0 then 0x7FFF_FFFF_FFFF_FFFF
                       else (num - 1) / 2 + if num % 2 == 0 && offset < num / 2 then 1 else 0)
      && forall k :: 0 <= k < |dialled| ==> dialled[k] == list[(offset + 1 + k) % |list|]
    }

    /** Learns the balance and the branches, and returns the peers to dial. */
    method InitBranchHandler(balance: nat, all: seq<Name>) returns (r: Result<seq<Name>, string>)
      modifies this`money, this`peers
      ensures money == balance
      ensures r.Err? <==> name !in old(peers) + all
      ensures r.Ok? ==>
        exists offset: nat :: DialsFrom(old(peers) + all, |all|, offset, r.value)
          && peers == (old(peers) + all)[..offset] + (old(peers) + all)[offset + 1..]
    {
      money := balance;
      peers := peers + all;
      var offset := 0;
      while offset < |peers| && peers[offset] != name
        invariant offset <= |peers| && name !in peers[..offset]
      {
        assert peers[..offset + 1] == peers[..offset] + [peers[offset]];
        offset := offset + 1;
      }
      if offset == |peers| {
        assert peers[..offset] == peers;
        return Err("Init branch message does not include me!");
      }
      var num := |all|;
      // 'num - 1' is unsigned; num can only be 0 here when an earlier list is still held.
      var outgoing := if num == 0 then (U64 - 1) / 2 else Mesh.Outgoing(num, offset);
      var dialled := [];
      for i := offset + 1 to offset + outgoing + 1
        invariant |dialled| == i - offset - 1
        invariant forall k :: 0 <= k < |dialled| ==> dialled[k] == peers[(offset + 1 + k) % |peers|]
      {
        dialled := dialled + [peers[i % |peers|]];
      }
      assert DialsFrom(peers, num, offset, dialled);
      peers := peers[..offset] + peers[offset + 1..];
      r := Ok(dialled);
    }

    /** Sends the marker to every channel. */
    method Flood(id: nat)
      modifies this`channels
      ensures channels.Keys == old(channels).Keys
      ensures forall p :: p in channels ==> channels[p] == old(channels)[p] + [Marker(id)]
      ensures channels == Flooded(old(channels), id)
    {
      var todo := channels.Keys;
      while todo != {}
        invariant todo <= channels.Keys && channels.Keys == old(channels).Keys
        invariant forall p :: p in channels ==>
          channels[p] == if p in todo then old(channels)[p] else old(channels)[p] + [Marker(id)]
        decreases todo
      {
        var p :| p in todo;
        channels := channels[p := channels[p] + [Marker(id)]];
        todo := todo - {p};
      }
    }

    method InitSnapshotHandler(id: nat)
      modifies this`snapshot, this`channels
      ensures snapshot != null && fresh(snapshot) && snapshot.id == id && snapshot.balance == money
      ensures snapshot.states.Keys == Peers() && forall p :: p in peers ==> snapshot.states[p] == Recording(0)
      ensures channels.Keys == old(channels).Keys
      ensures forall p :: p in channels ==> channels[p] == old(channels)[p] + [Marker(id)]
      ensures View() == OnInitSnapshot(old(View()), id, Peers()) && channels == Flooded(old(channels), id)
    {
      snapshot := new Snapshot(id, money, peers);
      Flood(id);
    }

    method MarkerHandler(from: Name, id: nat)
      modifies this`snapshot, this`channels, snapshot
      ensures snapshot != null && snapshot.id == id
      ensures old(snapshot == null || snapshot.id != id) ==>
                && fresh(snapshot) && snapshot.balance == money && snapshot.states.Keys == Peers()
                && (forall p :: p in peers ==> snapshot.states[p] == if p == from then Completed(0) else Recording(0))
                && channels.Keys == old(channels).Keys
                && forall p :: p in channels ==> channels[p] == old(channels)[p] + [Marker(id)]
      ensures old(snapshot != null && snapshot.id == id) ==>
                && snapshot == old(snapshot) && channels == old(channels)
                && snapshot.states == old(if snapshot != null && from in snapshot.states && snapshot.states[from].Recording?
                                          then snapshot.states[from := Completed(snapshot.states[from].transferred)]
                                          else snapshot.states)
      ensures View() == OnMarker(old(View()), from, id, Peers())
      ensures channels == if StartsSnapshot(old(View()), id) then Flooded(old(channels), id) else old(channels)
    {
      if snapshot == null || id != snapshot.id {
        snapshot := new Snapshot(id, money, peers);
        Flood(id);
      }
      snapshot.Marker(from);
    }

    method TransferHandler(from: Name, amount: nat)
      modifies this`money, snapshot
      ensures money == (old(money) + amount) % 0x1_0000_0000_0000_0000 && snapshot == old(snapshot)
      ensures snapshot != null ==>
                snapshot.states == if from in old(snapshot.states) && old(snapshot.states)[from].Recording?
                  then old(snapshot.states)[from := Recording((old(snapshot.states)[from].transferred + amount) % 0x1_0000_0000_0000_0000)]
                  else old(snapshot.states)
      ensures View() == OnTransfer(old(View()), from, amount)
    {
      money := Add64(money, amount);
      if snapshot != null {
        snapshot.RecordTransfer(from, amount);
      }
    }

    /** Answers only for the snapshot held; asking too early throws, asking before any snapshot reads null. */
    method RetrieveSnapshotHandler(id: nat) returns (r: Retrieved)
      ensures r.NullSnapshot? <==> snapshot == null
      ensures r.UnknownId? <==> snapshot != null && snapshot.id != id
      ensures r.Reply? <==>
                snapshot != null && snapshot.id == id && forall p :: p in snapshot.states ==> snapshot.states[p].Completed?
      ensures r.Reply? ==>
        && r.snapshot.id == id && r.snapshot.balance == snapshot.balance
        && r.snapshot.channels.Keys == snapshot.states.Keys
        && forall p :: p in snapshot.states ==> r.snapshot.channels[p] == snapshot.states[p].transferred
    {
      if snapshot == null {
        return NullSnapshot;
      }
      if id == snapshot.id {
        var m := snapshot.ToMessage();
        r := if m.Some? then Reply(m.value) else NotAllCompleted;
      } else {
        r := UnknownId;
      }
    }
  }
}
