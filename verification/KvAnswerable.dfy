/** Which puts can still be answered. */
module Answerable {
  import opened Wrappers
  import opened Ranges
  import opened Lists
  import opened Replicas
  import opened Coordinators
  import opened Handoffs
  import opened Acknowledgements

  // ----- what is sent -----

  /** Any put under a new uuid can be taken. It sends its record to every peer, as the handler does, and nothing else. */
  lemma PutIsSent(s: System, u: Uuid, m: PutKey, t: nat, i: nat)
    requires u !in s.puts && m.key < 256 && 1 <= m.consistency <= |s.links| + 1 && i < |s.links|
    ensures Enabled(s, Put(u, m, t))
    ensures var p, q := s.links[i], Step(s, Put(u, m, t)).links[i];
            && q.down == p.down + multiset{DoWrite(Some(u), Record(m.key, m.value, t))}
            && q.up == p.up && q.acked == p.acked && q.replica == p.replica
  {
    hide Written;
  }

  lemma {:induction false} PutsAreEvents(s0: System, events: seq<Event>, s: System, u: Uuid)
    requires s0.puts == map[] && Run(s0, events, s) && u in s.puts
    ensures Put(u, s.puts[u].put, s.puts[u].stamp) in events
    decreases |events|
  {
    if events != [] {
      var last := events[|events| - 1];
      var before :| Run(s0, Front(events), before) && Follows(before, last, s);
      hide Run;
      if last != Put(u, s.puts[u].put, s.puts[u].stamp) {
        assert u in before.puts && before.puts[u] == s.puts[u] by {
          hide Written, Ran, Posted, HandedOff, Delivered, Bump;
        }
        PutsAreEvents(s0, Front(events), before, u);
      }
    }
  }

  /** In every run each acknowledged write under way carries exactly the key, the value and the timestamp of a put
      that was taken under its uuid. */
  lemma MessagesCarryPuts(s0: System, events: seq<Event>, s: System, i: nat, m: DoWrite)
    requires Fresh(s0) && Run(s0, events, s) && i < |s.links| && m in s.links[i].down && m.uuid.Some?
    ensures m.uuid.value in s.puts
    ensures var p := s.puts[m.uuid.value];
            Put(m.uuid.value, p.put, p.stamp) in events && m.record == Record(p.put.key, p.put.value, p.stamp)
  {
    assert s0.puts == map[];
    hide Fresh, Run, ReplyInv, CoverInv;
    RunReplies(s0, events, s);
    CoverParts(s);
    assert LinkOk(s.links[i], s.puts);
    PutsAreEvents(s0, events, s, m.uuid.value);
  }

  // ----- what is not lost -----

  /** The write of put u, or its acknowledgement, is under way, or the acknowledgement has arrived. */
  ghost predicate Alive(p: Link, puts: map<Uuid, Stamped>, u: Uuid)
    requires u in puts
  {
    DoWrite(Some(u), Record(puts[u].put.key, puts[u].put.value, puts[u].stamp)) in p.down || u in p.up || u in p.acked
  }

  /** The peers where neither was lost. */
  ghost function AliveAt(s: System, u: Uuid): (r: set<nat>)
    requires u in s.puts
    ensures forall i: nat :: i in r <==> i < |s.links| && Alive(s.links[i], s.puts, u)
  {
    set i | i in Below(|s.links|) && Alive(s.links[i], s.puts, u)
  }

  lemma AckersAreAlive(s: System, u: Uuid)
    requires u in s.puts
    ensures Ackers(s.links, u) <= AliveAt(s, u)
  {
  }

  /** What was lost stays lost: nothing is sent again under the same uuid. */
  lemma StaysLost(s: System, e: Event, u: Uuid, i: nat)
    requires Enabled(s, e) && u in s.puts && i < |s.links| && MessagesKnown(s.links[i], s.puts)
    ensures var t := Step(s, e);
            && |t.links| == |s.links| && u in t.puts && t.puts[u] == s.puts[u]
            && (Alive(t.links[i], t.puts, u) ==> Alive(s.links[i], s.puts, u))
  {
    StaysPut(s, e, u);
    if e.Put? {
      PutIsSent(s, e.uuid, e.put, e.stamp, i);
      hide Step;
    } else if e.Complete? {
      AckedStaysLost(s, e, u, i);
    } else if OwnEvent(e) {
      OwnEventKeepsHistory(s, e);
      hide Step;
    } else {
      LinkStaysLost(s, e, u, i);
      LinkEventKeepsHistory(s, e);
      hide Step, Enabled;
    }
  }

  lemma LinkStaysLost(s: System, e: Event, u: Uuid, i: nat)
    requires Enabled(s, e) && !e.Put? && !e.Complete? && !OwnEvent(e)
    requires u in s.puts && i < |s.links| && MessagesKnown(s.links[i], s.puts)
    ensures |Step(s, e).links| == |s.links| && (Alive(Step(s, e).links[i], s.puts, u) ==> Alive(s.links[i], s.puts, u))
  {
    hide Written, Ran, Posted, HandedOff;
    match e
    case Reconnect(j) => SentOnReconnect(s.co, j);
    case Deliver(j, m) => DeliveredStaysLost(s.links[j], s.puts, m, u);
    case _ =>
  }

  lemma DeliveredStaysLost(p: Link, puts: map<Uuid, Stamped>, m: DoWrite, u: Uuid)
    requires u in puts && m in p.down
    ensures MessagesKnown(p, puts) && Alive(Delivered(p, m), puts, u) ==> Alive(p, puts, u)
  {
    hide Written;
  }

  lemma AckedStaysLost(s: System, e: Event, u: Uuid, i: nat)
    requires Enabled(s, e) && e.Complete? && u in s.puts && i < |s.links|
    ensures var t := Step(s, e);
            |t.links| == |s.links| && t.puts == s.puts && (Alive(t.links[i], t.puts, u) ==> Alive(s.links[i], s.puts, u))
  {
    hide Decremented;
  }

  lemma SentOnReconnect(co: Coord, i: nat)
    ensures forall m :: m in HandedOff(co, i) ==> m.uuid.None?
  {
    if HandedOff(co, i) != [] {
      HandoffHasNoUuid(co, i, KEYS);
    }
  }

  ghost predicate InOrder(s: System) { ReplyInv(s) && CoverInv(s) }

  lemma StepAlive(s: System, e: Event, u: Uuid)
    requires InOrder(s) && Enabled(s, e) && u in s.puts
    ensures var t := Step(s, e);
            InOrder(t) && u in t.puts && t.puts[u] == s.puts[u] && AliveAt(t, u) <= AliveAt(s, u)
  {
    var t := Step(s, e);
    hide ReplyInv, CoverInv, LinksOk, Step, Enabled, Alive;
    StepCovers(s, e);
    CoverParts(s);
    StepReplies(s, e);
    StaysPut(s, e, u);
    forall i | i in AliveAt(t, u) ensures i in AliveAt(s, u) {
      assert MessagesKnown(s.links[i], s.puts) by {
        assert LinksOk(s) && LinkOk(s.links[i], s.puts);
      }
      StaysLost(s, e, u, i);
    }
  }

  lemma StaysPut(s: System, e: Event, u: Uuid)
    requires Enabled(s, e) && u in s.puts
    ensures |Step(s, e).links| == |s.links| && u in Step(s, e).puts && Step(s, e).puts[u] == s.puts[u]
  {
    hide Written, Ran, Posted, Bump, HandedOff, Delivered;
  }

  lemma {:induction false} RunAlive(s: System, more: seq<Event>, t: System, u: Uuid)
    requires InOrder(s) && u in s.puts && Run(s, more, t)
    ensures InOrder(t) && u in t.puts && t.puts[u] == s.puts[u] && AliveAt(t, u) <= AliveAt(s, u)
    decreases |more|
  {
    if more != [] {
      var last := more[|more| - 1];
      var before :| Run(s, Front(more), before) && Follows(before, last, t);
      assert Enabled(before, last) && t == Step(before, last);
      hide Run, Step, Enabled, InOrder;
      RunAlive(s, Front(more), before, u);
      StepAlive(before, last, u);
    }
  }

  // ----- what can be answered -----

  ghost predicate CanBeAnswered(s: System, u: Uuid) {
    exists more, t :: Run(s, more, t) && t.replies[u] == 1
  }

  /** A peer's write is delivered, unless it was. */
  lemma DeliverAlive(s: System, more: seq<Event>, t: System, u: Uuid, i: nat) returns (more': seq<Event>, t': System)
    requires Run(s, more, t) && u in t.puts && i < |t.links| && Alive(t.links[i], t.puts, u) && u !in t.links[i].acked
    ensures Run(s, more', t') && t'.puts == t.puts && |t'.links| == |t.links|
    ensures u in t'.links[i].up && t'.links[i].acked == t.links[i].acked
    ensures forall j :: 0 <= j < |t.links| && j != i ==> t'.links[j] == t.links[j]
  {
    if u in t.links[i].up {
      more', t' := more, t;
    } else {
      var m := DoWrite(Some(u), Record(t.puts[u].put.key, t.puts[u].put.value, t.puts[u].stamp));
      hide Run, Written;
      Extend(s, more, t, Deliver(i, m));
      more', t' := more + [Deliver(i, m)], Step(t, Deliver(i, m));
    }
  }

  lemma CompleteAlive(s: System, more: seq<Event>, t: System, u: Uuid, i: nat) returns (more': seq<Event>, t': System)
    requires Run(s, more, t) && i < |t.links| && u in t.links[i].up
    ensures Run(s, more', t') && t'.puts == t.puts && |t'.links| == |t.links| && u in t'.links[i].acked
    ensures forall j :: 0 <= j < |t.links| && j != i ==> t'.links[j] == t.links[j]
  {
    hide Run;
    Extend(s, more, t, Complete(i, u));
    more', t' := more + [Complete(i, u)], Step(t, Complete(i, u));
  }

  lemma Arrived(t: System, t': System, u: Uuid, i: nat)
    requires u in t.puts && t'.puts == t.puts && |t'.links| == |t.links| && i < |t.links| && Alive(t.links[i], t.puts, u)
    requires u in t'.links[i].acked && forall j :: 0 <= j < |t.links| && j != i ==> t'.links[j] == t.links[j]
    ensures AliveAt(t', u) == AliveAt(t, u) && Ackers(t'.links, u) == Ackers(t.links, u) + {i}
  {
    assert Alive(t'.links[i], t'.puts, u);
    hide Alive;
    assert forall j: nat :: j in AliveAt(t', u) <==> j in AliveAt(t, u);
    assert forall j: nat :: j in Ackers(t'.links, u) <==> j in Ackers(t.links, u) + {i};
  }

  /** All that was not lost can arrive. */
  lemma {:induction false} AllArrive(s: System, more: seq<Event>, t: System, u: Uuid) returns (more': seq<Event>, t': System)
    requires Run(s, more, t) && u in t.puts
    ensures Run(s, more', t') && u in t'.puts && t'.puts[u] == t.puts[u] && AliveAt(t, u) <= Ackers(t'.links, u)
    decreases |AliveAt(t, u) - Ackers(t.links, u)|
  {
    if AliveAt(t, u) <= Ackers(t.links, u) {
      more', t' := more, t;
    } else {
      var i: nat :| i in AliveAt(t, u) && i !in Ackers(t.links, u);
      var left := AliveAt(t, u) - Ackers(t.links, u);
      var more1, t1 := DeliverAlive(s, more, t, u, i);
      var more2, t2 := CompleteAlive(s, more1, t1, u, i);
      hide Run;
      Arrived(t, t2, u, i);
      more', t' := AllArrive(s, more2, t2, u);
    }
  }

  lemma AnsweredInOrder(s: System, u: Uuid)
    requires InOrder(s) && u in s.puts
    ensures s.replies[u] == if s.puts[u].put.consistency <= |Ackers(s.links, u)| + 1 then 1 else 0
  {
    hide CoverInv;
    assert ReplyOk(s, u);
  }

  /** In every reachable state a put has been or can still be answered if and only if, counting the coordinator, there are as
      many replicas as the client asked for where neither the write nor its acknowledgement was lost. */
  lemma AnswerableIff(s0: System, events: seq<Event>, s: System, u: Uuid)
    requires Fresh(s0) && Run(s0, events, s) && u in s.puts
    ensures CanBeAnswered(s, u) <==> s.puts[u].put.consistency <= |AliveAt(s, u)| + 1
  {
    RunReplies(s0, events, s);
    assert Run(s, [], s);
    hide Run, Fresh, ReplyInv, CoverInv;
    if CanBeAnswered(s, u) {
      var more, t :| Run(s, more, t) && t.replies[u] == 1;
      RunAlive(s, more, t, u);
      AnsweredInOrder(t, u);
      AckersAreAlive(t, u);
      SubsetSize(Ackers(t.links, u), AliveAt(s, u));
    }
    if s.puts[u].put.consistency <= |AliveAt(s, u)| + 1 {
      var more, t := AllArrive(s, [], s, u);
      RunAlive(s, more, t, u);
      AnsweredInOrder(t, u);
      SubsetSize(AliveAt(s, u), Ackers(t.links, u));
    }
  }

  /** So every put that is taken can be answered. */
  lemma EveryPutCanBeAnswered(s0: System, events: seq<Event>, s: System, u: Uuid, m: PutKey, t: nat)
    requires Fresh(s0) && Run(s0, events, s) && Enabled(s, Put(u, m, t))
    ensures CanBeAnswered(Step(s, Put(u, m, t)), u)
  {
    var after := Step(s, Put(u, m, t));
    assert u in after.puts && after.puts[u] == Stamped(m, t) && |after.links| == |s.links|;
    assert m.consistency <= |s.links| + 1;
    Extend(s0, events, s, Put(u, m, t));
    hide Run, Fresh, CanBeAnswered;
    forall i: nat | i < |s.links| ensures Alive(after.links[i], after.puts, u) {
      PutIsSent(s, u, m, t, i);
    }
    hide Step, Enabled, Alive;
    assert AliveAt(after, u) == Below(|s.links|);
    AnswerableIff(s0, events + [Put(u, m, t)], after, u);
  }
}
