/** No record comes out of nowhere. */
module Provenance {
  import opened Wrappers
  import opened Lists
  import opened Replicas
  import opened Coordinators
  import opened Handoffs
  import HandoffDelivery

  /** The record waits at the replica, is in its log or in its slot. */
  ghost predicate Holds(r: State, x: Record) {
    x in r.queue || x in r.log || (x.key < |r.slots| && r.slots[x.key] == Some(Element(x.value, x.time)))
  }

  /** A peer holds it, or it is under way to the peer. */
  ghost predicate HoldsOrGets(p: Link, x: Record) {
    Holds(p.replica, x) || exists m :: m in p.down && m.record == x
  }

  ghost predicate Has(s: System, x: Record) {
    Holds(s.co.own, x) || exists i: nat :: i < |s.links| && HoldsOrGets(s.links[i], x)
  }

  /** The record is the one a client puts, or a write from elsewhere. */
  predicate Enters(e: Event, x: Record) {
    match e
    case Put(_, m, stamp) => x == Record(m.key, m.value, stamp)
    case OwnWrite(r) => x == r
    case PeerWrite(_, r) => x == r
    case _ => false
  }

  lemma WriteHolds(r: State, x: Record, y: Record)
    ensures Holds(Posted(r, x), y) ==> Holds(r, y) || y == x
    ensures Holds(Written(r, x), y) ==> Holds(r, y) || y == x
  {
  }

  lemma TaskHolds(r: State, y: Record)
    ensures Holds(Ran(r), y) ==> Holds(r, y)
  {
    if Ran(r) != r && y == r.queue[0] {
      assert Holds(r, y);
    }
  }

  lemma DeliveryHolds(p: Link, m: DoWrite, y: Record)
    requires m in p.down && HoldsOrGets(Delivered(p, m), y)
    ensures HoldsOrGets(p, y)
  {
    WriteHolds(p.replica, m.record, y);
    hide Holds, Written;
    assert forall n :: n in Delivered(p, m).down ==> n in p.down;
  }

  lemma HandoffHolds(co: Coord, i: nat, m: DoWrite)
    requires m in HandedOff(co, i)
    ensures Holds(co.own, m.record)
  {
    var k := HandoffDelivery.HandoffHasOnly(co, i, KEYS, m);
  }

  lemma FewerHold(p: Link, q: Link, y: Record)
    requires q.replica == p.replica && q.down <= p.down && HoldsOrGets(q, y)
    ensures HoldsOrGets(p, y)
  {
    hide Holds;
    if m :| m in q.down && m.record == y {
      assert m in p.down;
    }
  }

  lemma SentHolds(p: Link, sent: multiset<DoWrite>, y: Record)
    requires HoldsOrGets(p.(down := p.down + sent), y)
    ensures HoldsOrGets(p, y) || exists m :: m in sent && m.record == y
  {
    hide Holds;
  }

  lemma TaskOrWrite(p: Link, r: Record, y: Record)
    ensures HoldsOrGets(p.(replica := Ran(p.replica)), y) ==> HoldsOrGets(p, y)
    ensures HoldsOrGets(p.(replica := Posted(p.replica, r)), y) ==> HoldsOrGets(p, y) || y == r
  {
    TaskHolds(p.replica, y);
    WriteHolds(p.replica, r, y);
    hide Holds, Ran, Posted;
  }

  lemma PutInvents(s: System, e: Event, i: nat, y: Record)
    requires Enabled(s, e) && e.Put? && i < |s.links| && HoldsOrGets(Step(s, e).links[i], y)
    ensures HoldsOrGets(s.links[i], y) || Enters(e, y)
  {
    hide HoldsOrGets, OnPut;
    SentHolds(s.links[i], multiset{DoWrite(Some(e.uuid), Record(e.put.key, e.put.value, e.stamp))}, y);
  }

  lemma ReconnectInvents(s: System, e: Event, i: nat, y: Record)
    requires Enabled(s, e) && e.Reconnect? && i < |s.links| && HoldsOrGets(Step(s, e).links[i], y)
    ensures HoldsOrGets(s.links[i], y) || Holds(s.co.own, y)
  {
    hide HoldsOrGets, Holds, HandedOff;
    if e.peer == i {
      SentHolds(s.links[i], multiset(HandedOff(s.co, i)), y);
    }
    if m :| m in HandedOff(s.co, e.peer) && m.record == y {
      HandoffHolds(s.co, e.peer, m);
    }
  }

  /** What happens to one peer alone. */
  function LinkAfter(p: Link, e: Event): Link {
    match e
    case Complete(_, u) => Acknowledged(p, u)
    case Deliver(_, m) => Delivered(p, m)
    case LoseWrite(_, m) => p.(down := p.down - multiset{m})
    case LoseAck(_, u) => p.(up := p.up - multiset{u})
    case PeerTask(_) => p.(replica := Ran(p.replica))
    case PeerWrite(_, r) => p.(replica := Posted(p.replica, r))
    case _ => p
  }

  lemma LinkAfterStep(s: System, e: Event, i: nat)
    requires Enabled(s, e) && !e.Put? && !e.Reconnect? && i < |s.links|
    ensures i < |Step(s, e).links|
    ensures Step(s, e).links[i] == s.links[i] || Step(s, e).links[i] == LinkAfter(s.links[i], e)
    ensures e.Deliver? && Step(s, e).links[i] != s.links[i] ==> e.message in s.links[i].down
  {
    hide Delivered, Acknowledged, Ran, Posted, OnComplete, Bump;
  }

  lemma LinkAfterInvents(p: Link, e: Event, y: Record)
    requires HoldsOrGets(LinkAfter(p, e), y) && (e.Deliver? ==> e.message in p.down)
    ensures HoldsOrGets(p, y) || Enters(e, y)
  {
    hide HoldsOrGets, Delivered, Ran, Posted;
    match e
    case Deliver(_, m) => DeliveryHolds(p, m, y);
    case PeerTask(_) => TaskOrWrite(p, Record(0, "", 0), y);
    case PeerWrite(_, r) => TaskOrWrite(p, r, y);
    case LoseWrite(_, m) => FewerHold(p, LinkAfter(p, e), y);
    case Complete(_, u) => FewerHold(p, LinkAfter(p, e), y);
    case LoseAck(_, u) => FewerHold(p, LinkAfter(p, e), y);
    case _ =>
  }

  /** What a peer holds or gets after an event it had, or the coordinator had, or the event brings. */
  lemma LinkInvents(s: System, e: Event, i: nat, y: Record)
    requires Enabled(s, e) && i < |s.links| && |Step(s, e).links| == |s.links| && HoldsOrGets(Step(s, e).links[i], y)
    ensures HoldsOrGets(s.links[i], y) || Holds(s.co.own, y) || Enters(e, y)
  {
    hide Step, Enabled, Holds, HoldsOrGets, LinkAfter, Enters;
    if e.Put? {
      PutInvents(s, e, i, y);
    } else if e.Reconnect? {
      ReconnectInvents(s, e, i, y);
    } else {
      LinkAfterStep(s, e, i);
      if Step(s, e).links[i] != s.links[i] {
        LinkAfterInvents(s.links[i], e, y);
      }
    }
  }

  lemma OwnInvents(s: System, e: Event, y: Record)
    requires Enabled(s, e) && Holds(Step(s, e).co.own, y)
    ensures Holds(s.co.own, y) || Enters(e, y)
  {
    hide Holds, Written, Ran, Posted, HandedOff, Bump, Delivered;
    match e
    case Put(u, m, t) => WriteHolds(s.co.own, Record(m.key, m.value, t), y);
    case OwnTask => TaskHolds(s.co.own, y);
    case OwnWrite(r) => WriteHolds(s.co.own, r, y);
    case _ =>
  }

  lemma SameLinks(s: System, e: Event)
    requires Enabled(s, e)
    ensures |Step(s, e).links| == |s.links|
  {
    hide Written, Ran, Posted, HandedOff, Bump, Delivered;
  }

  lemma StepInvents(s: System, e: Event, y: Record)
    requires Enabled(s, e) && Has(Step(s, e), y)
    ensures Has(s, y) || Enters(e, y)
  {
    hide Holds, HoldsOrGets, Enabled, Step;
    SameLinks(s, e);
    if Holds(Step(s, e).co.own, y) {
      OwnInvents(s, e, y);
    } else {
      var i: nat :| i < |s.links| && HoldsOrGets(Step(s, e).links[i], y);
      LinkInvents(s, e, i, y);
    }
  }

  /** In every run, whatever any replica has in a slot, in its log or waiting, and whatever is under way, was there at
      the start, or is exactly a client's put or a write from elsewhere: key, value and timestamp. */
  lemma {:induction false} NothingInvented(s0: System, events: seq<Event>, s: System, y: Record)
    requires Run(s0, events, s) && Has(s, y)
    ensures Has(s0, y) || exists e :: e in events && Enters(e, y)
    decreases |events|
  {
    if events != [] {
      var last := events[|events| - 1];
      var before :| Run(s0, Front(events), before) && Follows(before, last, s);
      assert Enabled(before, last) && s == Step(before, last) && last in events;
      hide Run, Has, Step, Enabled, Enters;
      StepInvents(before, last, y);
      if Has(before, y) {
        NothingInvented(s0, Front(events), before, y);
      }
    }
  }
}
