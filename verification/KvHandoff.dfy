/** A coordinator, its peers and the messages between them: what a client's acknowledgement is worth, what
    the hint counters count, and what a handoff delivers. Messages may be lost and arrive in any order,
    strands run at any time, and every replica may take further writes from elsewhere. */
module Handoffs {
  import opened Wrappers
  import opened Lists
  import opened Replicas
  import opened Coordinators

  /** A peer's replica, the writes and acknowledgements under way, and the acknowledgements received. */
  datatype Link = Link(replica: State, down: multiset<DoWrite>, up: multiset<Uuid>, acked: set<Uuid>)

  datatype Stamped = Stamped(put: PutKey, stamp: nat)

  /** With the history of puts taken and of replies sent to clients. */
  datatype System = System(co: Coord, links: seq<Link>, puts: map<Uuid, Stamped>, replies: multiset<Uuid>)

  function MessageOf(puts: map<Uuid, Stamped>, u: Uuid): DoWrite
    requires u in puts
  {
    DoWrite(Some(u), RecordOf(puts[u].put, puts[u].stamp))
  }

  datatype Event =
    | Put(uuid: Uuid, put: PutKey, stamp: nat)
    | Complete(peer: nat, uuid: Uuid)
    | Deliver(peer: nat, message: DoWrite)
    | LoseWrite(peer: nat, message: DoWrite)
    | LoseAck(peer: nat, uuid: Uuid)
    | OwnTask
    | PeerTask(peer: nat)
    | HintTask
    | Reconnect(peer: nat)
    | OwnWrite(record: Record)
    | PeerWrite(peer: nat, record: Record)

  /** Uuids are not drawn twice; a client asks for at most as many replicas as there are. */
  predicate Enabled(s: System, e: Event) {
    match e
    case Put(u, m, _) => u !in s.puts && m.key < KEYS && 1 <= m.consistency <= |s.links| + 1
    case Complete(i, u) => i < |s.links| && u in s.links[i].up
    case Deliver(i, m) => i < |s.links| && m in s.links[i].down
    case LoseWrite(i, m) => i < |s.links| && m in s.links[i].down
    case LoseAck(i, u) => i < |s.links| && u in s.links[i].up
    case OwnTask => true
    case PeerTask(i) => i < |s.links|
    case HintTask => s.co.hintQueue != []
    case Reconnect(i) => i < |s.links|
    case OwnWrite(r) => r.key < KEYS
    case PeerWrite(i, r) => i < |s.links| && r.key < KEYS
  }

  function Sent(p: Link, m: DoWrite): Link { p.(down := p.down + multiset{m}) }

  function Delivered(p: Link, m: DoWrite): Link {
    Link(Written(p.replica, m.record), p.down - multiset{m},
         if m.uuid.Some? then p.up + multiset{m.uuid.value} else p.up, p.acked)
  }

  function Acknowledged(p: Link, u: Uuid): Link { p.(up := p.up - multiset{u}, acked := p.acked + {u}) }

  function SentToAll(links: seq<Link>, m: DoWrite): (r: seq<Link>)
    ensures |r| == |links| && forall i :: 0 <= i < |r| ==> r[i] == Sent(links[i], m)
  {
    seq(|links|, i requires 0 <= i < |links| => Sent(links[i], m))
  }

  function HandedOff(co: Coord, i: nat): seq<DoWrite> {
    if co.hinted && i < |co.hints| && |co.hints[i]| == KEYS && |co.own.slots| == KEYS then Handoff(co, i, KEYS) else []
  }

  function Step(s: System, e: Event): System
    requires Enabled(s, e)
  {
    match e
    case Put(u, m, t) =>
      System(OnPut(s.co, u, m, t), SentToAll(s.links, DoWrite(Some(u), RecordOf(m, t))), s.puts[u := Stamped(m, t)],
             if m.consistency == 1 then s.replies + multiset{u} else s.replies)
    case Complete(i, u) =>
      var links := s.links[i := Acknowledged(s.links[i], u)];
      if u !in s.co.pending then s.(links := links)
      else System(OnComplete(s.co, u, i), links, s.puts,
                  if CompletesPut(s.co, u) then s.replies + multiset{u} else s.replies)
    case Deliver(i, m) => s.(links := s.links[i := Delivered(s.links[i], m)])
    case LoseWrite(i, m) => s.(links := s.links[i := s.links[i].(down := s.links[i].down - multiset{m})])
    case LoseAck(i, u) => s.(links := s.links[i := s.links[i].(up := s.links[i].up - multiset{u})])
    case OwnTask => s.(co := s.co.(own := Ran(s.co.own)))
    case PeerTask(i) => s.(links := s.links[i := s.links[i].(replica := Ran(s.links[i].replica))])
    case HintTask => if InRange(s.co.hintQueue[0], s.co.hints) then s.(co := OnHintTask(s.co)) else s
    case Reconnect(i) => s.(links := s.links[i := s.links[i].(down := s.links[i].down + multiset(HandedOff(s.co, i)))])
    case OwnWrite(r) => s.(co := s.co.(own := Posted(s.co.own, r)))
    case PeerWrite(i, r) => s.(links := s.links[i := s.links[i].(replica := Posted(s.links[i].replica, r))])
  }

  ghost predicate Follows(s: System, e: Event, t: System) { Enabled(s, e) && t == Step(s, e) }

  ghost predicate Run(s: System, events: seq<Event>, t: System)
    decreases |events|
  {
    if events == [] then s == t
    else exists u :: Run(s, Front(events), u) && Follows(u, events[|events| - 1], t)
  }

  lemma Extend(r: System, events: seq<Event>, s: System, e: Event)
    requires Run(r, events, s) && Enabled(s, e)
    ensures Run(r, events + [e], Step(s, e))
  {
    assert Front(events + [e]) == events;
    assert Follows(s, e, Step(s, e));
  }

  // ----- what travels on one link -----

  function Once(p: Link, u: Uuid): nat { if u in p.acked then 1 else 0 }

  /** The write of put u is under way, or its acknowledgement, or that has arrived: never two of them; and
      a replica that acknowledged covers the put. */
  ghost predicate UuidOk(p: Link, puts: map<Uuid, Stamped>, u: Uuid)
    requires u in puts
  {
    && p.down[MessageOf(puts, u)] + p.up[u] + Once(p, u) <= 1
    && (u in p.up || u in p.acked ==> Covers(p.replica, puts[u].put.key, puts[u].stamp))
  }

  ghost predicate MessagesKnown(p: Link, puts: map<Uuid, Stamped>) {
    && (forall m :: m in p.down && m.uuid.Some? ==> m.uuid.value in puts && m == MessageOf(puts, m.uuid.value))
    && (forall u :: u in p.up || u in p.acked ==> u in puts)
  }

  ghost predicate LinkOk(p: Link, puts: map<Uuid, Stamped>) {
    && |p.replica.slots| == KEYS && MessagesKnown(p, puts)
    && forall u :: u in puts ==> puts[u].put.key < KEYS && UuidOk(p, puts, u)
  }

  /** A replica that has only taken more writes and run more tasks. */
  ghost predicate Keeps(r: State, r': State) {
    && |r'.slots| == |r.slots|
    && forall k: nat, t: nat :: k < |r.slots| && Covers(r, k, t) ==> Covers(r', k, t)
  }

  lemma RanStillCovers(r: State)
    ensures Keeps(r, Ran(r))
  {
    forall k: nat, t: nat | k < |r.slots| && Covers(r, k, t) ensures Covers(Ran(r), k, t) {
      CoversKept(r, Task, k, t);
    }
  }

  lemma PostedStillCovers(r: State, x: Record)
    ensures Keeps(r, Posted(r, x)) && Keeps(r, Written(r, x))
  {
    forall k: nat, t: nat | k < |r.slots| && Covers(r, k, t) ensures Covers(Posted(r, x), k, t) {
      CoversKept(r, Post(x), k, t);
    }
  }

  /** Messages without a uuid, losses, and a busier replica do not matter. */
  lemma LinkStays(p: Link, q: Link, puts: map<Uuid, Stamped>)
    requires LinkOk(p, puts) && Keeps(p.replica, q.replica)
    requires q.acked == p.acked && (forall u: Uuid :: q.up[u] <= p.up[u])
    requires forall m: DoWrite :: m.uuid.Some? ==> q.down[m] <= p.down[m]
    ensures LinkOk(q, puts)
  {
    hide Covers;
    forall u | u in puts ensures UuidOk(q, puts, u) {
      assert UuidOk(p, puts, u);
      assert q.up[u] <= p.up[u];
    }
    forall m | m in q.down && m.uuid.Some? ensures m in p.down {
      assert q.down[m] <= p.down[m];
    }
  }

  lemma DeliverUuid(p: Link, puts: map<Uuid, Stamped>, m: DoWrite, u: Uuid)
    requires u in puts && UuidOk(p, puts, u) && m in p.down && (m.uuid == Some(u) ==> m == MessageOf(puts, u))
    requires puts[u].put.key < KEYS && |p.replica.slots| == KEYS
    ensures UuidOk(Delivered(p, m), puts, u)
  {
    PostedStillCovers(p.replica, m.record);
    WrittenCovers(p.replica, m.record);
    hide Covers, Written;
    var w, q := MessageOf(puts, u), Delivered(p, m);
    if m.uuid == Some(u) {
      assert q.down[w] == p.down[w] - 1 && q.up[u] == p.up[u] + 1;
    } else {
      assert q.down[w] == p.down[w] && q.up[u] == p.up[u];
    }
  }

  lemma DeliverKnown(p: Link, puts: map<Uuid, Stamped>, m: DoWrite)
    requires MessagesKnown(p, puts) && m in p.down
    ensures MessagesKnown(Delivered(p, m), puts)
  {
    hide Written;
    var q := Delivered(p, m);
    assert forall x :: x in q.down ==> x in p.down;
    assert forall u :: u in q.up ==> u in p.up || m.uuid == Some(u);
  }

  lemma DeliverLink(p: Link, puts: map<Uuid, Stamped>, m: DoWrite)
    requires LinkOk(p, puts) && m in p.down
    ensures LinkOk(Delivered(p, m), puts)
  {
    var q := Delivered(p, m);
    assert |q.replica.slots| == KEYS;
    DeliverKnown(p, puts, m);
    assert m.uuid.Some? ==> m.uuid.value in puts && m == MessageOf(puts, m.uuid.value);
    hide Delivered, MessagesKnown;
    forall u | u in puts ensures UuidOk(q, puts, u) {
      assert UuidOk(p, puts, u);
      hide UuidOk;
      DeliverUuid(p, puts, m, u);
    }
  }

  lemma AckLink(p: Link, puts: map<Uuid, Stamped>, u: Uuid)
    requires LinkOk(p, puts) && u in p.up
    ensures LinkOk(Acknowledged(p, u), puts) && u !in p.acked && u in puts
  {
    var q := Acknowledged(p, u);
    hide Covers;
    assert UuidOk(p, puts, u);
    forall x | x in puts ensures UuidOk(q, puts, x) {
      assert UuidOk(p, puts, x);
    }
    assert forall x :: x in q.up ==> x in p.up;
  }

  lemma PutLink(p: Link, puts: map<Uuid, Stamped>, u: Uuid, st: Stamped)
    requires LinkOk(p, puts) && u !in puts && st.put.key < KEYS
    ensures LinkOk(Sent(p, DoWrite(Some(u), RecordOf(st.put, st.stamp))), puts[u := st])
  {
    var m, all := DoWrite(Some(u), RecordOf(st.put, st.stamp)), puts[u := st];
    var q := Sent(p, m);
    hide Covers;
    assert m !in p.down && u !in p.up && u !in p.acked;
    forall x | x in all ensures UuidOk(q, all, x) {
      if x != u {
        assert UuidOk(p, puts, x);
        assert MessageOf(all, x) == MessageOf(puts, x);
      }
    }
    forall x | x in q.down && x.uuid.Some? ensures x.uuid.value in all && x == MessageOf(all, x.uuid.value) {
      assert x == m || x in p.down;
    }
  }

  lemma {:induction false} HandoffHasNoUuid(co: Coord, i: nat, k: nat)
    requires i < |co.hints| && k <= |co.hints[i]| && k <= |co.own.slots|
    ensures forall m :: m in Handoff(co, i, k) ==> m.uuid.None?
    decreases k
  {
    if k > 0 {
      HandoffHasNoUuid(co, i, k - 1);
    }
  }

  lemma HandoffLink(p: Link, puts: map<Uuid, Stamped>, co: Coord, i: nat)
    requires LinkOk(p, puts)
    ensures LinkOk(p.(down := p.down + multiset(HandedOff(co, i))), puts)
  {
    var messages := HandedOff(co, i);
    assert forall m :: m in messages ==> m.uuid.None? by {
      if messages != [] {
        HandoffHasNoUuid(co, i, KEYS);
      }
    }
    assert forall m: DoWrite :: m.uuid.Some? ==> multiset(messages)[m] == 0;
    LinkStays(p, p.(down := p.down + multiset(messages)), puts);
  }

  /** What every state keeps: each link is in order, and the coordinator covers every put it took. */
  ghost predicate OwnOk(own: State, puts: map<Uuid, Stamped>) {
    && |own.slots| == KEYS
    && forall u :: u in puts ==> puts[u].put.key < KEYS && Covers(own, puts[u].put.key, puts[u].stamp)
  }

  ghost predicate LinksOk(s: System) {
    forall i :: 0 <= i < |s.links| ==> LinkOk(s.links[i], s.puts)
  }

  ghost predicate CoverInv(s: System) { OwnOk(s.co.own, s.puts) && LinksOk(s) }

  lemma OwnStays(own: State, own': State, puts: map<Uuid, Stamped>)
    requires OwnOk(own, puts) && Keeps(own, own')
    ensures OwnOk(own', puts)
  {
    hide Covers;
  }

  lemma PutCovers(s: System, u: Uuid, m: PutKey, t: nat)
    requires CoverInv(s) && Enabled(s, Put(u, m, t))
    ensures CoverInv(Step(s, Put(u, m, t)))
  {
    var s' := Step(s, Put(u, m, t));
    PostedStillCovers(s.co.own, RecordOf(m, t));
    WrittenCovers(s.co.own, RecordOf(m, t));
    hide Covers, Written, LinkOk, Sent;
    forall i | 0 <= i < |s.links| ensures LinkOk(s'.links[i], s'.puts) {
      PutLink(s.links[i], s.puts, u, Stamped(m, t));
    }
  }

  lemma LinkStepCovers(s: System, i: nat, q: Link)
    requires CoverInv(s) && i < |s.links| && LinkOk(q, s.puts)
    ensures CoverInv(s.(links := s.links[i := q]))
  {
    hide LinkOk, OwnOk;
  }

  /** Losses on one link, and a busier replica there. */
  lemma LinkStaysInOrder(s: System, i: nat, q: Link)
    requires CoverInv(s) && i < |s.links| && Keeps(s.links[i].replica, q.replica)
    requires q.acked == s.links[i].acked && q.up <= s.links[i].up && q.down <= s.links[i].down
    ensures CoverInv(s.(links := s.links[i := q]))
  {
    assert LinkOk(s.links[i], s.puts);
    hide LinkOk, OwnOk, Keeps;
    LinkStays(s.links[i], q, s.puts);
    LinkStepCovers(s, i, q);
  }

  lemma KeepsItself(r: State)
    ensures Keeps(r, r)
  {
  }

  lemma StepCovers(s: System, e: Event)
    requires CoverInv(s) && Enabled(s, e)
    ensures CoverInv(Step(s, e))
  {
    hide LinkOk, OwnOk, Keeps;
    match e
    case Put(u, m, t) => PutCovers(s, u, m, t);
    case Complete(i, u) =>
      AckLink(s.links[i], s.puts, u);
      LinkStepCovers(s, i, Acknowledged(s.links[i], u));
    case OwnTask =>
      RanStillCovers(s.co.own);
      OwnStays(s.co.own, Ran(s.co.own), s.puts);
    case OwnWrite(r) =>
      PostedStillCovers(s.co.own, r);
      OwnStays(s.co.own, Posted(s.co.own, r), s.puts);
    case HintTask =>
    case _ => LinkEventCovers(s, e);
  }

  lemma LinkEventCovers(s: System, e: Event)
    requires CoverInv(s) && Enabled(s, e) && !e.Put? && !e.Complete? && !e.OwnTask? && !e.OwnWrite? && !e.HintTask?
    ensures CoverInv(Step(s, e))
  {
    var p := s.links[e.peer];
    assert LinkOk(p, s.puts);
    hide CoverInv, LinkOk, Keeps;
    KeepsItself(p.replica);
    match e
    case LoseWrite(i, m) => LinkStaysInOrder(s, i, p.(down := p.down - multiset{m}));
    case LoseAck(i, u) => LinkStaysInOrder(s, i, p.(up := p.up - multiset{u}));
    case PeerTask(i) =>
      RanStillCovers(p.replica);
      LinkStaysInOrder(s, i, p.(replica := Ran(p.replica)));
    case PeerWrite(i, r) =>
      PostedStillCovers(p.replica, r);
      LinkStaysInOrder(s, i, p.(replica := Posted(p.replica, r)));
    case Deliver(i, m) =>
      DeliverLink(p, s.puts, m);
      LinkStepCovers(s, i, Delivered(p, m));
    case Reconnect(i) =>
      HandoffLink(p, s.puts, s.co, i);
      LinkStepCovers(s, i, p.(down := p.down + multiset(HandedOff(s.co, i))));
  }
}
