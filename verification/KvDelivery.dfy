/** What a handoff after a reconnect guarantees. */
module HandoffDelivery {
  import opened Wrappers
  import opened Lists
  import opened Replicas
  import opened Coordinators
  import opened Handoffs
  import opened Acknowledgements
  import opened HintCounters

  /** A message of a handoff that is as new as t. */
  ghost predicate HandsOff(m: DoWrite, k: nat, t: nat) {
    m.uuid.None? && m.record.key == k && t <= m.record.time
  }

  /** The replica covers the time, or a handed-off write that will is under way to it. */
  ghost predicate Promised(p: Link, k: nat, t: nat) {
    Covers(p.replica, k, t) || exists m :: m in p.down && HandsOff(m, k, t)
  }

  lemma {:induction false} HandoffHas(co: Coord, i: nat, k: nat, n: nat)
    requires i < |co.hints| && n <= |co.hints[i]| && n <= |co.own.slots| && k < n
    requires co.hints[i][k] != 0 && co.own.slots[k].Some?
    ensures var e := co.own.slots[k].value; DoWrite(None, Record(k, e.value, e.time)) in Handoff(co, i, n)
    decreases n
  {
    if k < n - 1 {
      HandoffHas(co, i, k, n - 1);
    }
  }

  /** Every message of a handoff is the slot of a key with a hint. */
  ghost predicate IsHintedSlot(co: Coord, i: nat, k: nat, m: DoWrite) {
    && i < |co.hints| && k < |co.hints[i]| && co.hints[i][k] != 0
    && k < |co.own.slots| && co.own.slots[k].Some?
    && m == DoWrite(None, Record(k, co.own.slots[k].value.value, co.own.slots[k].value.time))
  }

  lemma {:induction false} HandoffHasOnly(co: Coord, i: nat, n: nat, m: DoWrite) returns (k: nat)
    requires i < |co.hints| && n <= |co.hints[i]| && n <= |co.own.slots| && m in Handoff(co, i, n)
    ensures k < n && IsHintedSlot(co, i, k, m)
    decreases n
  {
    if m in Handoff(co, i, n - 1) {
      k := HandoffHasOnly(co, i, n - 1, m);
    } else {
      k := n - 1;
    }
  }

  ghost predicate KeysRise(h: seq<DoWrite>, n: nat) {
    && (forall a, b :: 0 <= a < b < |h| ==> h[a].record.key < h[b].record.key)
    && (forall a :: 0 <= a < |h| ==> h[a].record.key < n)
  }

  lemma OneMoreKey(h: seq<DoWrite>, m: DoWrite, n: nat)
    requires KeysRise(h, n) && m.record.key == n
    ensures KeysRise(h + [m], n + 1)
  {
  }

  lemma LaterKey(h: seq<DoWrite>, n: nat)
    requires KeysRise(h, n)
    ensures KeysRise(h, n + 1)
  {
  }

  /** In order of the keys, so that no slot is sent twice. */
  lemma {:induction false} HandoffInOrder(co: Coord, i: nat, n: nat)
    requires i < |co.hints| && n <= |co.hints[i]| && n <= |co.own.slots|
    ensures KeysRise(Handoff(co, i, n), n)
    decreases n
  {
    if n > 0 {
      HandoffInOrder(co, i, n - 1);
      hide KeysRise;
      var before, after := Handoff(co, i, n - 1), Handoff(co, i, n);
      if after != before {
        assert after == before + [after[|after| - 1]];
        OneMoreKey(before, after[|after| - 1], n - 1);
      } else {
        LaterKey(before, n - 1);
      }
    }
  }

  lemma AckedIsCovered(s0: System, events: seq<Event>, s: System, i: nat, u: Uuid)
    requires HintsFresh(s0) && Run(s0, events, s) && i < |s.links| && u in s.puts
    ensures s.puts[u].put.key < KEYS
    ensures u in s.links[i].acked ==> Covers(s.links[i].replica, s.puts[u].put.key, s.puts[u].stamp)
  {
    assert Fresh(s0);
    hide HintsFresh, Fresh, Run, ReplyInv, CoverInv, Covers;
    RunReplies(s0, events, s);
    CoverParts(s);
    assert LinkOk(s.links[i], s.puts);
    hide LinksOk, OwnOk;
    assert UuidOk(s.links[i], s.puts, u);
  }

  /** A loss of a handed-off write to peer i. */
  predicate LosesHandoff(e: Event, i: nat) {
    e.LoseWrite? && e.peer == i && e.message.uuid.None?
  }

  lemma DeliveredPromise(p: Link, m: DoWrite, k: nat, t: nat)
    requires Promised(p, k, t) && m in p.down && k < |p.replica.slots|
    ensures Promised(Delivered(p, m), k, t)
  {
    PostedStillCovers(p.replica, m.record);
    WrittenCovers(p.replica, m.record);
    hide Written;
    if !Covers(p.replica, k, t) {
      var x :| x in p.down && HandsOff(x, k, t);
      if x != m {
        assert x in Delivered(p, m).down;
      } else {
        CoversEarlier(Written(p.replica, m.record), k, m.record.time, t);
      }
    }
  }

  lemma CoversEarlier(r: State, k: nat, later: nat, t: nat)
    requires Covers(r, k, later) && t <= later
    ensures Covers(r, k, t)
  {
  }

  lemma PromiseStays(p: Link, q: Link, k: nat, t: nat)
    requires Promised(p, k, t) && Keeps(p.replica, q.replica) && k < |p.replica.slots|
    requires forall m :: m in p.down && m.uuid.None? ==> m in q.down
    ensures Promised(q, k, t)
  {
    hide Covers;
    if !Covers(p.replica, k, t) {
      var m :| m in p.down && HandsOff(m, k, t);
      assert m in q.down;
    }
  }

  /** What any event but a loss does to a peer that is not delivered a write. */
  lemma OtherLinkKeeps(s: System, e: Event, i: nat)
    requires Enabled(s, e) && i < |s.links| && !LosesHandoff(e, i) && !(e.Deliver? && e.peer == i)
    ensures |Step(s, e).links| == |s.links| && Keeps(s.links[i].replica, Step(s, e).links[i].replica)
    ensures forall m :: m in s.links[i].down && m.uuid.None? ==> m in Step(s, e).links[i].down
  {
    KeepsItself(s.links[i].replica);
    hide Written, HandedOff, Covers, Keeps;
    match e {
      case PeerTask(j) => RanStillCovers(s.links[j].replica);
      case PeerWrite(j, r) => PostedStillCovers(s.links[j].replica, r);
      case Complete(j, u) => hide OnComplete, CompletesPut;
      case _ =>
    }
    hide Ran, Posted;
  }

  lemma StepPromises(s: System, e: Event, i: nat, k: nat, t: nat)
    requires Enabled(s, e) && i < |s.links| && !LosesHandoff(e, i)
    requires Promised(s.links[i], k, t) && k < |s.links[i].replica.slots|
    ensures |Step(s, e).links| == |s.links| && Promised(Step(s, e).links[i], k, t)
    ensures |Step(s, e).links[i].replica.slots| == |s.links[i].replica.slots|
  {
    if e.Deliver? && e.peer == i {
      PostedStillCovers(s.links[i].replica, e.message.record);
      hide Covers, Promised;
      DeliveredPromise(s.links[i], e.message, k, t);
    } else {
      hide Covers, Promised;
      OtherLinkKeeps(s, e, i);
      hide Step, Enabled;
      PromiseStays(s.links[i], Step(s, e).links[i], k, t);
    }
  }

  lemma {:induction false} RunPromises(s: System, events: seq<Event>, t: System, i: nat, k: nat, time: nat)
    requires Run(s, events, t) && i < |s.links| && forall e :: e in events ==> !LosesHandoff(e, i)
    requires Promised(s.links[i], k, time) && k < |s.links[i].replica.slots|
    ensures |t.links| == |s.links| && Promised(t.links[i], k, time)
    ensures |t.links[i].replica.slots| == |s.links[i].replica.slots|
    decreases |events|
  {
    if events != [] {
      var last := events[|events| - 1];
      var u :| Run(s, Front(events), u) && Follows(u, last, t);
      assert Enabled(u, last) && t == Step(u, last) && last in events;
      hide Run, Promised, Step, Enabled;
      RunPromises(s, Front(events), u, i, k, time);
      StepPromises(u, last, i, k, time);
    }
  }

  /** No handed-off write is under way to the peer. */
  ghost predicate HandoffArrived(p: Link) {
    forall m :: m in p.down ==> m.uuid.Some?
  }

  lemma HandoffSizes(s0: System, events: seq<Event>, s: System, i: nat)
    requires HintsFresh(s0) && Run(s0, events, s) && i < |s.links|
    ensures Enabled(s, Reconnect(i))
    ensures var r := Step(s, Reconnect(i)); |r.links| == |s.links| && |r.links[i].replica.slots| == KEYS
  {
    RunReplies(s0, events, s);
    CoverParts(s);
    assert LinkOk(s.links[i], s.puts);
  }

  // ----- exactly when a reconnect makes a peer cover a timestamp -----

  /** What can be seen at the reconnect: the peer covers the timestamp, or an earlier handoff that does is still
      under way, or the key has a hint and the coordinator's slot is as new. */
  ghost predicate WillCover(s: System, i: nat, k: nat, t: nat)
    requires i < |s.links|
  {
    || Promised(s.links[i], k, t)
    || (i < |s.co.hints| && k < |s.co.hints[i]| && s.co.hints[i][k] != 0
        && k < |s.co.own.slots| && s.co.own.slots[k].Some? && t <= s.co.own.slots[k].value.time)
  }

  ghost predicate LosesNoHandoff(events: seq<Event>, i: nat) { forall e :: e in events ==> !LosesHandoff(e, i) }

  ghost predicate CoveredOnArrival(t: System, i: nat, k: nat, time: nat) {
    i < |t.links| && (HandoffArrived(t.links[i]) ==> Covers(t.links[i].replica, k, time))
  }

  /** However things go on after the reconnect, once the handoff has arrived the peer covers the timestamp. */
  ghost predicate AlwaysCovers(r: System, i: nat, k: nat, time: nat) {
    forall after, t :: Run(r, after, t) && LosesNoHandoff(after, i) ==> CoveredOnArrival(t, i, k, time)
  }

  /** A write that is older, or of another key, covers nothing more. */
  lemma StillUncovered(r: State, x: Record, k: nat, t: nat)
    requires !Covers(r, k, t) && !(x.key == k && t <= x.time)
    ensures !Covers(Written(r, x), k, t)
  {
  }

  lemma StillUnpromised(p: Link, m: DoWrite, k: nat, t: nat)
    requires !Promised(p, k, t) && m in p.down && m.uuid.None?
    ensures !Promised(Delivered(p, m), k, t)
  {
    assert !HandsOff(m, k, t);
    StillUncovered(p.replica, m.record, k, t);
    hide Covers, Written;
    assert forall x :: x in Delivered(p, m).down ==> x in p.down;
  }

  /** A peer that is promised nothing as new can get its whole handoff and cover nothing as new. */
  lemma {:induction false} EndsUncovered(r: System, before: seq<Event>, s: System, i: nat, k: nat, t: nat)
    returns (events: seq<Event>, u: System)
    requires Run(r, before, s) && LosesNoHandoff(before, i) && i < |s.links| && !Promised(s.links[i], k, t)
    ensures Run(r, events, u) && LosesNoHandoff(events, i) && !CoveredOnArrival(u, i, k, t)
    decreases |s.links[i].down|
  {
    hide Run, Covers, HandsOff;
    if HandoffArrived(s.links[i]) {
      events, u := before, s;
    } else {
      var m :| m in s.links[i].down && m.uuid.None?;
      var e := Deliver(i, m);
      var v := Step(s, e);
      assert v.links[i] == Delivered(s.links[i], m) && |v.links| == |s.links|;
      Extend(r, before, s, e);
      StillUnpromised(s.links[i], m, k, t);
      hide Step, Enabled, Promised, Written;
      assert |v.links[i].down| < |s.links[i].down|;
      events, u := EndsUncovered(r, before + [e], v, i, k, t);
    }
  }

  /** What the reconnect sends, and what was promised before. */
  lemma PromisedIff(s: System, i: nat, k: nat, t: nat)
    requires i < |s.links| && s.co.hinted && Sized(s.co.hints, |s.links|) && |s.co.own.slots| == KEYS && k < KEYS
    ensures Enabled(s, Reconnect(i)) && |Step(s, Reconnect(i)).links| == |s.links|
    ensures Promised(Step(s, Reconnect(i)).links[i], k, t) <==> WillCover(s, i, k, t)
  {
    var p, q, sent := s.links[i], Step(s, Reconnect(i)).links[i], HandedOff(s.co, i);
    assert q == p.(down := p.down + multiset(sent)) && sent == Handoff(s.co, i, KEYS);
    hide Step, Covers, Handoff, HandedOff;
    assert forall m :: m in q.down <==> m in p.down || m in sent;
    if s.co.hints[i][k] != 0 && s.co.own.slots[k].Some? && t <= s.co.own.slots[k].value.time {
      HandoffHas(s.co, i, k, KEYS);
      var e := s.co.own.slots[k].value;
      assert HandsOff(DoWrite(None, Record(k, e.value, e.time)), k, t);
    }
    if m :| m in sent && HandsOff(m, k, t) {
      var j := HandoffHasOnly(s.co, i, KEYS, m);
    }
  }

  lemma ReconnectFacts(s0: System, events: seq<Event>, s: System, i: nat)
    requires HintsFresh(s0) && Run(s0, events, s) && i < |s.links|
    ensures s.co.hinted && Sized(s.co.hints, |s.links|) && |s.co.own.slots| == KEYS && |s.links[i].replica.slots| == KEYS
  {
    assert Fresh(s0);
    hide HintsFresh, Fresh, Run, ReplyInv;
    RunReplies(s0, events, s);
    CoverParts(s);
    assert LinkOk(s.links[i], s.puts);
    hide LinksOk, CoverInv;
    RunCounts(s0, events, s);
  }

  lemma PromiseCovers(r: System, i: nat, k: nat, time: nat)
    requires i < |r.links| && Promised(r.links[i], k, time) && k < |r.links[i].replica.slots|
    ensures AlwaysCovers(r, i, k, time)
  {
    hide Run, Covers, LosesHandoff;
    forall after, t | Run(r, after, t) && LosesNoHandoff(after, i) ensures CoveredOnArrival(t, i, k, time) {
      RunPromises(r, after, t, i, k, time);
      if HandoffArrived(t.links[i]) {
        assert forall m :: m in t.links[i].down ==> !HandsOff(m, k, time);
      }
    }
  }

  lemma UnpromisedMisses(r: System, i: nat, k: nat, time: nat)
    requires i < |r.links| && !Promised(r.links[i], k, time)
    ensures !AlwaysCovers(r, i, k, time)
  {
    assert Run(r, [], r);
    hide Run, Promised, CoveredOnArrival, LosesHandoff;
    var events, u := EndsUncovered(r, [], r, i, k, time);
  }

  /** At any reachable state, whatever waits at the coordinator: after a reconnect of peer i, however things go
      on without a further loss of a handoff, the peer covers a timestamp of a key once its handoff has arrived,
      if and only if it was to be seen at the reconnect. Puts the peer acknowledged are among these. */
  lemma HandoffCoversIff(s0: System, events: seq<Event>, s: System, i: nat, k: nat, time: nat)
    requires HintsFresh(s0) && Run(s0, events, s) && i < |s.links| && k < KEYS
    ensures Enabled(s, Reconnect(i))
    ensures AlwaysCovers(Step(s, Reconnect(i)), i, k, time) <==> WillCover(s, i, k, time)
    ensures forall u :: u in s.links[i].acked && u in s.puts ==> WillCover(s, i, s.puts[u].put.key, s.puts[u].stamp)
  {
    ReconnectFacts(s0, events, s, i);
    PromisedIff(s, i, k, time);
    HandoffSizes(s0, events, s, i);
    forall u | u in s.links[i].acked && u in s.puts
      ensures WillCover(s, i, s.puts[u].put.key, s.puts[u].stamp)
    {
      AckedIsCovered(s0, events, s, i, u);
    }
    hide HintsFresh, Run, Step, WillCover, Promised, Covers, Sized;
    var r := Step(s, Reconnect(i));
    if Promised(r.links[i], k, time) {
      PromiseCovers(r, i, k, time);
    } else {
      UnpromisedMisses(r, i, k, time);
    }
  }

  /** Neither a hint for the peer nor a write of the coordinator waits, as far as this key goes. */
  ghost predicate NothingWaits(co: Coord, i: nat, k: nat) {
    NoHintWaits(co.hintQueue, i, k) && forall r :: r in co.own.queue ==> r.key != k
  }

  lemma SlotIsNew(s0: System, events: seq<Event>, s: System, u: Uuid)
    requires Fresh(s0) && Run(s0, events, s) && u in s.puts && forall r :: r in s.co.own.queue ==> r.key != s.puts[u].put.key
    ensures var k := s.puts[u].put.key;
            k < KEYS && |s.co.own.slots| == KEYS && s.co.own.slots[k].Some? && s.puts[u].stamp <= s.co.own.slots[k].value.time
  {
    hide Fresh, Run, ReplyInv, CoverInv, LinksOk;
    RunReplies(s0, events, s);
    CoverParts(s);
  }

  lemma HintStands(s0: System, events: seq<Event>, s: System, i: nat, u: Uuid)
    requires HintsFresh(s0) && Run(s0, events, s) && i < |s.links| && u in s.puts && u !in s.links[i].acked
    requires s.puts[u].put.key < KEYS && NoHintWaits(s.co.hintQueue, i, s.puts[u].put.key)
    ensures Sized(s.co.hints, |s.links|) && s.co.hints[i][s.puts[u].put.key] != 0
  {
    var k := s.puts[u].put.key;
    assert StartsPositive(s0);
    hide HintsFresh, Run, NoHintWaits;
    HintsCountUnacked(s0, events, s, i, k);
    assert s0.co.hints[i][k] >= 0;
    assert u in Unacked(s.links[i], s.puts, k);
    hide Unacked;
  }

  /** Then a put that was not acknowledged has a hint, and the coordinator's slot is as new. */
  lemma UnackedIsHinted(s0: System, events: seq<Event>, s: System, i: nat, u: Uuid)
    requires HintsFresh(s0) && Run(s0, events, s) && i < |s.links| && u in s.puts && u !in s.links[i].acked
    requires NothingWaits(s.co, i, s.puts[u].put.key)
    ensures WillCover(s, i, s.puts[u].put.key, s.puts[u].stamp)
  {
    assert Fresh(s0);
    hide HintsFresh, Fresh, Run, Promised, NoHintWaits;
    SlotIsNew(s0, events, s, u);
    HintStands(s0, events, s, i, u);
  }

  /** So a reconnect makes the peer cover every put the coordinator took before, of which nothing waits there:
      once the handoff has arrived the peer's slot, or a write waiting there, is at least as new. */
  lemma HandoffCompletes(s0: System, events: seq<Event>, s: System, i: nat, u: Uuid)
    requires HintsFresh(s0) && Run(s0, events, s) && i < |s.links| && u in s.puts
    requires u in s.links[i].acked || NothingWaits(s.co, i, s.puts[u].put.key)
    ensures Enabled(s, Reconnect(i))
    ensures AlwaysCovers(Step(s, Reconnect(i)), i, s.puts[u].put.key, s.puts[u].stamp)
  {
    hide HintsFresh, Run, AlwaysCovers, WillCover, Step, NothingWaits;
    AckedIsCovered(s0, events, s, i, u);
    if u !in s.links[i].acked {
      UnackedIsHinted(s0, events, s, i, u);
    }
    HandoffCoversIff(s0, events, s, i, s.puts[u].put.key, s.puts[u].stamp);
  }

  // ----- a put that still waits -----

  function OnePut(): PutKey { PutKey(0, 0, "v", 1) }

  /** The client is answered at once, the hint is counted, the write to the peer is lost. */
  function PutLost(): seq<Event> {
    [Put(1, OnePut(), 5), HintTask, LoseWrite(0, DoWrite(Some(1), RecordOf(OnePut(), 5)))]
  }

  lemma PutPosted(s: System)
    requires s == FirstStart(1)
    ensures Enabled(s, Put(1, OnePut(), 5))
    ensures var t := Step(s, Put(1, OnePut(), 5));
            && t.co.own.slots == Empty() && t.co.hintQueue == [AddHint(0, 0)] && t.co.hints == s.co.hints
            && t.links == [Link(EmptyReplica(), multiset{DoWrite(Some(1), RecordOf(OnePut(), 5))}, multiset{}, {})]
            && 1 in t.puts && t.puts[1] == Stamped(OnePut(), 5) && t.replies[1] == 1
  {
    assert AddsFor(1, 0) == [AddHint(0, 0)] by {
      assert AddsFor(0, 0) == [];
    }
    var m := DoWrite(Some(1), RecordOf(OnePut(), 5));
    assert s.links == [Link(EmptyReplica(), multiset{}, multiset{}, {})];
    assert Sent(s.links[0], m) == Link(EmptyReplica(), multiset{m}, multiset{}, {});
    assert SentToAll(s.links, m) == [Sent(s.links[0], m)];
  }

  lemma NothingCovered(p: Link)
    requires p == Link(EmptyReplica(), multiset{}, multiset{}, {})
    ensures !Promised(p, 0, 5)
  {
  }

  lemma HintCounted(s: System)
    requires s.co.hintQueue == [AddHint(0, 0)]
    ensures Enabled(s, HintTask)
    ensures var t := Step(s, HintTask);
            t.co.own == s.co.own && t.links == s.links && t.puts == s.puts && t.replies == s.replies
  {
    hide Bump, InRange;
  }

  lemma WriteLost(s: System, m: DoWrite)
    requires s.links == [Link(EmptyReplica(), multiset{m}, multiset{}, {})]
    ensures Enabled(s, LoseWrite(0, m))
    ensures var t := Step(s, LoseWrite(0, m));
            && t.co == s.co && t.puts == s.puts && t.replies == s.replies
            && t.links == [Link(EmptyReplica(), multiset{}, multiset{}, {})]
  {
    assert m in multiset{m};
    assert multiset{m} - multiset{m} == multiset{};
    hide EmptyReplica;
  }

  lemma PutRuns() returns (s: System)
    ensures Run(FirstStart(1), PutLost(), s)
    ensures s.links == [Link(EmptyReplica(), multiset{}, multiset{}, {})] && s.co.own.slots == Empty()
    ensures 1 in s.puts && s.puts[1] == Stamped(OnePut(), 5) && s.replies[1] == 1
  {
    var m := DoWrite(Some(1), RecordOf(OnePut(), 5));
    var s0, put, lose := FirstStart(1), Put(1, OnePut(), 5), LoseWrite(0, m);
    assert Run(s0, [], s0);
    hide Run, FirstStart, OnePut, EmptyReplica, Empty, Step, Enabled, RecordOf;
    PutPosted(s0);
    var s1 := Step(s0, put);
    Extend(s0, [], s0, put);
    HintCounted(s1);
    var s2 := Step(s1, HintTask);
    Extend(s0, [] + [put], s1, HintTask);
    WriteLost(s2, m);
    s := Step(s2, lose);
    Extend(s0, [] + [put] + [HintTask], s2, lose);
    InOrder(put, HintTask, lose);
    assert PutLost() == [put, HintTask, lose];
  }

  lemma InOrder<T>(a: T, b: T, c: T)
    ensures [] + [a] + [b] + [c] == [a, b, c]
  {
  }

  lemma NothingWillCover(s: System)
    requires s.links == [Link(EmptyReplica(), multiset{}, multiset{}, {})] && s.co.own.slots == Empty()
    ensures !WillCover(s, 0, 0, 5)
  {
    NothingCovered(s.links[0]);
  }

  /** The put still waits on the coordinator's strand: a reconnect now hands nothing over, though the client was
      answered and the hint stands. */
  lemma WaitingPutIsMissed() returns (s: System)
    ensures HintsFresh(FirstStart(1)) && Run(FirstStart(1), PutLost(), s) && |s.links| == 1
    ensures 1 in s.puts && s.puts[1] == Stamped(OnePut(), 5) && s.replies[1] == 1
    ensures Enabled(s, Reconnect(0)) && !WillCover(s, 0, 0, 5) && !AlwaysCovers(Step(s, Reconnect(0)), 0, 0, 5)
  {
    hide Run, HintsFresh, WillCover, AlwaysCovers, FirstStart, PutLost, Step, EmptyReplica, Empty;
    FirstStartIsFresh(1);
    s := PutRuns();
    NothingWillCover(s);
    HandoffCoversIff(FirstStart(1), PutLost(), s, 0, 0, 5);
  }
}
