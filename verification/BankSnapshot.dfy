/** The per-branch snapshot: one recording per incoming channel. */
module Snapshots {
  import opened Wrappers

  const U64: nat := 0x1_0000_0000_0000_0000

  /** Addition of uint64_t. */
  function Add64(a: nat, b: nat): (r: nat)
    ensures r < 0x1_0000_0000_0000_0000
    ensures a + b < 0x1_0000_0000_0000_0000 ==> r == a + b
    ensures 0x1_0000_0000_0000_0000 <= a + b < 0x2_0000_0000_0000_0000 ==> r == a + b - 0x1_0000_0000_0000_0000
  {
    (a + b) % U64
  }

  /** Branch names; only their equality matters. */
  type Name = nat

  datatype ChannelState = Recording(transferred: nat) | Completed(transferred: nat)

  datatype LocalSnapshot = LocalSnapshot(id: nat, balance: nat, states: map<Name, ChannelState>)

  datatype ReturnSnapshot = ReturnSnapshot(id: nat, balance: nat, channels: map<Name, nat>)

  function NewSnapshot(id: nat, balance: nat, peers: set<Name>): LocalSnapshot {
    LocalSnapshot(id, balance, map p | p in peers :: Recording(0))
  }

  /** A transfer from a channel still recording is added to it; any other transfer leaves no trace. */
  function RecordTx(s: LocalSnapshot, from: Name, amount: nat): LocalSnapshot {
    if from in s.states && s.states[from].Recording?
    then s.(states := s.states[from := Recording(Add64(s.states[from].transferred, amount))])
    else s
  }

  /** A marker ends the recording of its channel; a second one, or one from a stranger, does nothing. */
  function EndRecording(s: LocalSnapshot, from: Name): LocalSnapshot {
    if from in s.states && s.states[from].Recording?
    then s.(states := s.states[from := Completed(s.states[from].transferred)])
    else s
  }

  /** Every incoming channel has been closed by its marker. */
  predicate AllCompleted(s: LocalSnapshot) {
    forall p :: p in s.states ==> s.states[p].Completed?
  }

  class Snapshot {
    const id: nat
    const balance: nat
    var states: map<Name, ChannelState>

    function View(): LocalSnapshot
      reads this
    {
      LocalSnapshot(id, balance, states)
    }

    constructor (id: nat, balance: nat, peers: seq<Name>)
      ensures this.id == id && this.balance == balance && states.Keys == set p | p in peers
      ensures forall p :: p in peers ==> states[p] == Recording(0)
      ensures View() == NewSnapshot(id, balance, set p | p in peers)
    {
      this.id, this.balance := id, balance;
      new;
      states := map[];
      for i := 0 to |peers|
        invariant states == map p | p in peers[..i] :: Recording(0)
      {
        assert peers[..i + 1] == peers[..i] + [peers[i]];
        states := if peers[i] in states then states else states[peers[i] := Recording(0)];
      }
      assert peers[..|peers|] == peers;
    }

    method RecordTransfer(from: Name, amount: nat)
      modifies this
      ensures states == if from in old(states) && old(states)[from].Recording?
                        then old(states)[from := Recording((old(states)[from].transferred + amount) % 0x1_0000_0000_0000_0000)]
                        else old(states)
      ensures View() == RecordTx(old(View()), from, amount)
    {
      if from in states {
        if states[from].Recording? {
          states := states[from := Recording(Add64(states[from].transferred, amount))];
        }
      }
    }

    method Marker(from: Name)
      modifies this
      ensures states == if from in old(states) && old(states)[from].Recording?
                        then old(states)[from := Completed(old(states)[from].transferred)] else old(states)
      ensures View() == EndRecording(old(View()), from)
    {
      if from in states {
        if states[from].Recording? {
          states := states[from := Completed(states[from].transferred)];
        }
      }
    }

    /** Throws (None) exactly when some channel is still recording. */
    method ToMessage() returns (r: Option<ReturnSnapshot>)
      ensures r.Some? <==> forall p :: p in states ==> states[p].Completed?
      ensures r.Some? ==> r.value.id == id && r.value.balance == balance && r.value.channels.Keys == states.Keys
      ensures r.Some? ==> forall p :: p in states ==> r.value.channels[p] == states[p].transferred
    {
      var channels: map<Name, nat> := map[];
      var todo := states.Keys;
      while todo != {}
        invariant todo <= states.Keys && channels.Keys == states.Keys - todo
        invariant forall p :: p in channels ==> states[p].Completed? && channels[p] == states[p].transferred
        decreases todo
      {
        var p :| p in todo;
        if states[p].Recording? {
          return None;
        }
        channels := channels[p := states[p].transferred];
        todo := todo - {p};
      }
      r := Some(ReturnSnapshot(id, balance, channels));
    }
  }
}
