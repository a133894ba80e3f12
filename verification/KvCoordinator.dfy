/** The coordinator's handlers: client puts, write acknowledgements, hints, and its side of read repair. */
module Coordinators {
  import opened Wrappers
  import opened Replicas
  import ReadRepair

  const U32: nat := 0x1_0000_0000

  /** Unsigned 32-bit decrement. */
  function Decremented(c: nat): nat { if c == 0 then U32 - 1 else c - 1 }

  type Uuid = nat

  /** A write message; without a uuid it belongs to a repair or a handoff and is not acknowledged. */
  datatype DoWrite = DoWrite(uuid: Option<Uuid>, record: Record)

  datatype PutKey = PutKey(stream: nat, key: nat, value: string, consistency: nat)

  datatype Reply = Reply(stream: nat, key: nat)

  datatype Pending = Pending(stream: nat, key: nat, consistency: nat)

  datatype Hint = AddHint(replica: nat, key: nat) | DropHint(replica: nat, key: nat)

  datatype Error = UnknownWrite

  datatype Coord = Coord(hinted: bool, own: State, pending: map<Uuid, Pending>,
                         hints: seq<seq<int>>, hintQueue: seq<Hint>, hintLog: seq<Hint>)

  /** One hint for each of the first n replicas. */
  function AddsFor(n: nat, key: nat): (r: seq<Hint>)
    ensures |r| == n
  {
    if n == 0 then [] else AddsFor(n - 1, key) + [AddHint(n - 1, key)]
  }

  lemma {:induction false} AddsForAll(n: nat, key: nat)
    ensures forall i :: 0 <= i < n ==> AddsFor(n, key)[i] == AddHint(i, key)
    decreases n
  {
    if n > 0 {
      AddsForAll(n - 1, key);
    }
  }

  function RecordOf(m: PutKey, stamp: nat): Record { Record(m.key, m.value, stamp) }

  /** A put: the own replica writes, every replica gets a hint, and the uuid waits for acknowledgements. */
  function OnPut(co: Coord, uuid: Uuid, m: PutKey, stamp: nat): Coord {
    co.(own := Written(co.own, RecordOf(m, stamp)),
        hintQueue := co.hintQueue + if co.hinted then AddsFor(|co.hints|, m.key) else [],
        pending := if uuid in co.pending then co.pending
                   else co.pending[uuid := Pending(m.stream, m.key, Decremented(m.consistency))])
  }

  function OnComplete(co: Coord, uuid: Uuid, from: nat): Coord
    requires uuid in co.pending
  {
    var p := co.pending[uuid];
    co.(pending := co.pending[uuid := p.(consistency := Decremented(p.consistency))],
        hintQueue := co.hintQueue + if co.hinted then [DropHint(from, p.key)] else [])
  }

  /** The client is answered when the counter stands at one. */
  predicate CompletesPut(co: Coord, uuid: Uuid)
    requires uuid in co.pending
  {
    co.pending[uuid].consistency == 1
  }

  predicate InRange(h: Hint, hints: seq<seq<int>>) {
    h.replica < |hints| && h.key < |hints[h.replica]|
  }

  function Bump(hints: seq<seq<int>>, h: Hint): (r: seq<seq<int>>)
    requires InRange(h, hints)
    ensures |r| == |hints| && forall i :: 0 <= i < |r| ==> |r[i]| == |hints[i]|
  {
    hints[h.replica := hints[h.replica][h.key := hints[h.replica][h.key] + if h.AddHint? then 1 else -1]]
  }

  /** The hint strand logs its oldest hint and then counts it. */
  function OnHintTask(co: Coord): Coord
    requires co.hintQueue != [] && InRange(co.hintQueue[0], co.hints)
  {
    co.(hints := Bump(co.hints, co.hintQueue[0]), hintQueue := co.hintQueue[1..], hintLog := co.hintLog + [co.hintQueue[0]])
  }

  /** Replaying a hint log counts every hint in it. */
  function Replayed(hints: seq<seq<int>>, records: seq<Hint>): (r: seq<seq<int>>)
    requires forall j :: 0 <= j < |records| ==> InRange(records[j], hints)
    ensures |r| == |hints| && forall i :: 0 <= i < |r| ==> |r[i]| == |hints[i]|
    decreases |records|
  {
    if records == [] then hints
    else
      assert InRange(records[|records| - 1], hints);
      Bump(Replayed(hints, records[..|records| - 1]), records[|records| - 1])
  }

  /** What a reconnected replica is sent: the slot of every key below k that has a hint for it. */
  function Handoff(co: Coord, id: nat, k: nat): seq<DoWrite>
    requires id < |co.hints| && k <= |co.hints[id]| && k <= |co.own.slots|
  {
    if k == 0 then []
    else
      Handoff(co, id, k - 1)
      + if co.hints[id][k - 1] != 0 && co.own.slots[k - 1].Some? then
          [DoWrite(None, Record(k - 1, co.own.slots[k - 1].value.value, co.own.slots[k - 1].value.time))]
        else []
  }

  class Coordinator {
    const hinted: bool
    const channels: nat
    const replica: Replica
    var pending: map<Uuid, Pending>
    var hints: seq<seq<int>>
    var hintQueue: seq<Hint>
    var hintLog: seq<Hint>

    ghost predicate Valid()
      reads this, replica, replica.store
    {
      && replica.Valid() && (forall i :: 0 <= i < |hints| ==> |hints[i]| == KEYS)
      && (forall j :: 0 <= j < |hintQueue| ==> InRange(hintQueue[j], hints))
    }

    ghost function View(): Coord
      reads this, replica, replica.store
    {
      Coord(hinted, replica.View(), pending, hints, hintQueue, hintLog)
    }

    constructor (hinted: bool, channels: nat, replica: Replica, rows: nat, hintFile: seq<Hint>)
      requires replica.Valid()
      ensures Valid() && this.hinted == hinted && this.channels == channels && this.replica == replica
      ensures pending == map[] && hintQueue == [] && hintLog == hintFile
      ensures |hints| == rows && forall i :: 0 <= i < rows ==> |hints[i]| == 256 && forall k :: 0 <= k < 256 ==> hints[i][k] == 0
      ensures View() == Coord(hinted, replica.View(), map[], seq(rows, i => seq(KEYS, k => 0)), [], hintFile)
    {
      this.hinted, this.channels, this.replica := hinted, channels, replica;
      pending, hintQueue, hintLog := map[], [], hintFile;
      hints := seq(rows, i => seq(KEYS, k => 0));
    }

    /** Start-up counts the hints already in the log, in handoff mode. */
    method ReplayHints()
      requires Valid() && forall j :: 0 <= j < |hintLog| ==> InRange(hintLog[j], hints)
      modifies this`hints
      ensures Valid()
      ensures View() == old(View()).(hints := if hinted then Replayed(old(hints), hintLog) else old(hints))
    {
      if hinted {
        for j := 0 to |hintLog|
          invariant hints == Replayed(old(hints), hintLog[..j])
        {
          var h := hintLog[j];
          assert hintLog[..j + 1][..j] == hintLog[..j];
          hints := hints[h.replica := hints[h.replica][h.key := hints[h.replica][h.key] + if h.AddHint? then 1 else -1]];
        }
        assert hintLog[..|hintLog|] == hintLog;
      }
    }

    method PostHints(key: nat)
      modifies this`hintQueue
      ensures hintQueue == old(hintQueue) + AddsFor(|hints|, key)
    {
      for i := 0 to |hints|
        invariant hintQueue == old(hintQueue) + AddsFor(i, key)
      {
        hintQueue := hintQueue + [AddHint(i, key)];
      }
    }

    method HandlePut(m: PutKey, stamp: nat, uuid: Uuid) returns (reply: Option<Reply>, sent: seq<DoWrite>)
      requires Valid() && m.key < KEYS
      modifies this`hintQueue, this`pending, replica`queue
      ensures replica.View() == Written(old(replica.View()), Record(m.key, m.value, stamp))
      ensures pending == old(pending)[uuid := if uuid in old(pending) then old(pending)[uuid] else
                           Pending(m.stream, m.key, if m.consistency == 0 then 0xFFFF_FFFF else m.consistency - 1)]
      ensures |hintQueue| == |old(hintQueue)| + (if hinted then |hints| else 0) && hintQueue[..|old(hintQueue)|] == old(hintQueue)
      ensures hinted ==> forall i :: 0 <= i < |hints| ==> hintQueue[|old(hintQueue)| + i] == AddHint(i, m.key)
      ensures reply == if m.consistency == 1 then Some(Reply(m.stream, m.key)) else None
      ensures |sent| == channels
      ensures forall i :: 0 <= i < channels ==> sent[i] == DoWrite(Some(uuid), Record(m.key, m.value, stamp))
      ensures Covers(replica.View(), m.key, stamp)
      ensures Valid() && View() == OnPut(old(View()), uuid, m, stamp)
    {
      replica.Write(m.key, m.value, stamp);
      if hinted {
        PostHints(m.key);
        AddsForAll(|hints|, m.key);
      }
      if uuid !in pending {
        pending := pending[uuid := Pending(m.stream, m.key, Decremented(m.consistency))];
      }
      reply := if m.consistency == 1 then Some(Reply(m.stream, m.key)) else None;
      sent := seq(channels, i => DoWrite(Some(uuid), RecordOf(m, stamp)));
    }

    /** An acknowledgement of an unknown write raises an error. */
    method HandleWriteComplete(uuid: Uuid, from: nat) returns (r: Result<Option<Reply>, Error>)
      requires Valid() && (hinted ==> from < |hints| && (uuid in pending ==> pending[uuid].key < KEYS))
      modifies this`pending, this`hintQueue
      ensures uuid !in old(pending) ==> r == Err(UnknownWrite) && View() == old(View())
      ensures uuid in old(pending) ==>
                var p := old(pending)[uuid];
                && r == Ok(if p.consistency == 1 then Some(Reply(p.stream, p.key)) else None)
                && pending == old(pending)[uuid :=
                     Pending(p.stream, p.key, if p.consistency == 0 then 0xFFFF_FFFF else p.consistency - 1)]
                && hintQueue == old(hintQueue) + if hinted then [DropHint(from, p.key)] else []
      ensures Valid()
      ensures uuid in old(pending) ==>
                && View() == OnComplete(old(View()), uuid, from)
                && r.value.Some? == CompletesPut(old(View()), uuid)
    {
      if uuid !in pending {
        return Err(UnknownWrite);
      }
      var p := pending[uuid];
      var reply := None;
      if p.consistency == 1 {
        reply := Some(Reply(p.stream, p.key));
      }
      pending := pending[uuid := p.(consistency := Decremented(p.consistency))];
      if hinted {
        hintQueue := hintQueue + [DropHint(from, p.key)];
      }
      r := Ok(reply);
    }

    method HandleDoWrite(m: DoWrite) returns (ack: Option<Uuid>)
      requires Valid() && m.record.key < KEYS
      modifies replica`queue
      ensures replica.queue == old(replica.queue) +
                var slot := replica.store[m.record.key];
                if slot.Some? && m.record.time <= slot.value.time then [] else [m.record]
      ensures Valid() && View() == old(View()).(own := Written(old(View()).own, m.record))
      ensures ack == m.uuid && Covers(replica.View(), m.record.key, m.record.time)
    {
      replica.Write(m.record.key, m.record.value, m.record.time);
      ack := m.uuid;
    }

    method HandleReadRepair(key: nat) returns (e: Element)
      requires Valid() && key < KEYS
      ensures e == if replica.store[key].None? then Element("", 0) else replica.store[key].value
      ensures e == ReadOf(replica.View().slots[key])
    {
      var data := replica.Read(key);
      e := if data.Some? then data.value else Element("", 0);
    }

    /** The older of the two copies is overwritten: the own one, and with it everybody's, or the sender's. */
    method HandleReadRepairResponse(key: nat, e: Element) returns (toAll: Option<DoWrite>, back: Option<DoWrite>)
      requires Valid() && key < KEYS
      modifies replica`queue
      ensures Valid()
      ensures var slot := replica.store[key];
              && (toAll.Some? <==> slot.None? || slot.value.time < e.time)
              && (back.Some? <==> slot.Some? && (e.time < slot.value.time || (e.time == slot.value.time && e.value != slot.value.value)))
              && (toAll.Some? ==> toAll.value == DoWrite(None, Record(key, e.value, e.time)))
              && (back.Some? ==> back.value == DoWrite(None, Record(key, slot.value.value, slot.value.time)))
              && replica.queue == old(replica.queue) + if toAll.Some? then [Record(key, e.value, e.time)] else []
      ensures var action := ReadRepair.Compare(replica.store[key], e);
              && (toAll.Some? <==> action.Adopt?) && (back.Some? <==> action.SendBack?)
              && View() == if action.Adopt? then old(View()).(own := Written(old(View()).own, Record(key, e.value, e.time)))
                           else old(View())
    {
      toAll, back := None, None;
      var mine := replica.Read(key);
      if mine.None? || mine.value.time < e.time {
        replica.Write(key, e.value, e.time);
        toAll := Some(DoWrite(None, Record(key, e.value, e.time)));
      } else if e.time < mine.value.time || mine.value.value != e.value {
        back := Some(DoWrite(None, Record(key, mine.value.value, mine.value.time)));
      }
    }

    method RunHintTask()
      requires Valid() && hintQueue != []
      modifies this`hints, this`hintQueue, this`hintLog
      ensures hintLog == old(hintLog) + [old(hintQueue)[0]] && hintQueue == old(hintQueue)[1..]
      ensures |hints| == |old(hints)|
      ensures forall i, k :: 0 <= i < |hints| && 0 <= k < 256 ==>
                |hints[i]| == |old(hints)[i]| == 256
                && hints[i][k] == old(hints)[i][k] + if old(hintQueue)[0] == AddHint(i, k) then 1
                                                     else if old(hintQueue)[0] == DropHint(i, k) then -1 else 0
      ensures Valid() && View() == OnHintTask(old(View()))
    {
      var h := hintQueue[0];
      hintQueue, hintLog := hintQueue[1..], hintLog + [h];
      hints := hints[h.replica := hints[h.replica][h.key := hints[h.replica][h.key] + if h.AddHint? then 1 else -1]];
    }

    /** What a replica is sent after its introduction when its channel comes back. */
    method Reconnected(id: nat) returns (sent: seq<DoWrite>)
      requires Valid() && (hinted ==> id < |hints|)
      ensures sent == if hinted then Handoff(View(), id, KEYS) else []
    {
      sent := [];
      if hinted {
        for k := 0 to |hints[id]|
          invariant sent == Handoff(View(), id, k)
        {
          if hints[id][k] != 0 {
            var data := replica.Read(k);
            if data.Some? {
              sent := sent + [DoWrite(None, Record(k, data.value.value, data.value.time))];
            }
          }
        }
      }
    }
  }
}
