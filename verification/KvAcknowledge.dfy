/** What a client's acknowledgement of a put means. */
module Acknowledgements {
  import opened Ranges
  import opened Lists
  import opened Replicas
  import opened Coordinators
  import opened Handoffs

  /** The peers whose acknowledgement of a put has arrived. */
  function Ackers(links: seq<Link>, u: Uuid): (r: set<nat>)
    ensures forall i: nat :: i in r <==> i < |links| && u in links[i].acked
  {
    set i | i in Below(|links|) && u in links[i].acked
  }

  lemma AckersBelow(links: seq<Link>, u: Uuid, i: nat)
    requires i < |links| && u !in links[i].acked
    ensures |Ackers(links, u)| < |links|
  {
    SubsetSize(Ackers(links, u), Below(|links|) - {i});
  }

  /** The unsigned counter after n acknowledgements: it passes below zero once they outnumber what the
      client asked for. */
  function CountAfter(consistency: nat, n: nat): int {
    if n < consistency then consistency - 1 - n else U32 + consistency - 1 - n
  }

  /** Exactly when the client has been answered. */
  predicate Answered(consistency: nat, n: nat) { consistency <= n + 1 }

  ghost predicate ReplyOk(s: System, u: Uuid)
    requires u in s.puts && u in s.co.pending
  {
    var m, n := s.puts[u].put, |Ackers(s.links, u)|;
    && 1 <= m.consistency <= |s.links| + 1
    && s.co.pending[u].key == m.key && s.co.pending[u].stream == m.stream
    && s.co.pending[u].consistency == CountAfter(m.consistency, n)
    && s.replies[u] == if Answered(m.consistency, n) then 1 else 0
  }

  ghost predicate ReplyInv(s: System) {
    && |s.links| < U32 - 1
    && s.puts.Keys == s.co.pending.Keys
    && (forall u :: u in s.replies ==> u in s.puts)
    && forall u :: u in s.puts ==> ReplyOk(s, u)
  }

  /** A put of which nothing was heard. */
  ghost predicate SameFor(s: System, s': System, u: Uuid) {
    && |s'.links| == |s.links|
    && (forall i :: 0 <= i < |s.links| ==> (u in s'.links[i].acked <==> u in s.links[i].acked))
    && s'.replies[u] == s.replies[u]
    && u in s.puts && u in s'.puts && s'.puts[u] == s.puts[u]
    && u in s.co.pending && u in s'.co.pending && s'.co.pending[u] == s.co.pending[u]
  }

  lemma ReplyStays(s: System, s': System, u: Uuid)
    requires SameFor(s, s', u) && ReplyOk(s, u)
    ensures ReplyOk(s', u)
  {
    assert Ackers(s'.links, u) == Ackers(s.links, u);
  }

  /** Only put u may have changed. */
  ghost predicate OnlyFor(s: System, s': System, u: Uuid) {
    && |s'.links| == |s.links|
    && s'.puts.Keys == s.puts.Keys + {u} && s'.co.pending.Keys == s.co.pending.Keys + {u}
    && (forall x :: x in s.puts && x != u ==> SameFor(s, s', x))
    && (forall x :: x in s'.replies ==> x in s.replies || x == u)
  }

  lemma OneReplyChanged(s: System, s': System, u: Uuid)
    requires ReplyInv(s) && OnlyFor(s, s', u) && u in s'.puts && u in s'.co.pending && ReplyOk(s', u)
    ensures ReplyInv(s')
  {
    hide ReplyOk, SameFor;
    forall x | x in s.puts && x != u ensures ReplyOk(s', x) {
      ReplyStays(s, s', x);
    }
  }

  lemma NeverHeardOf(s: System, u: Uuid)
    requires LinksOk(s) && u !in s.puts
    ensures Ackers(s.links, u) == {}
  {
    forall i | 0 <= i < |s.links| ensures u !in s.links[i].acked {
      assert LinkOk(s.links[i], s.puts);
    }
  }

  lemma PutEffect(s: System, u: Uuid, m: PutKey, t: nat)
    requires Enabled(s, Put(u, m, t)) && u !in s.co.pending
    ensures var s' := Step(s, Put(u, m, t));
            && s'.puts == s.puts[u := Stamped(m, t)]
            && s'.co.pending == s.co.pending[u := Pending(m.stream, m.key, Decremented(m.consistency))]
            && s'.replies == (if m.consistency == 1 then s.replies + multiset{u} else s.replies)
            && |s'.links| == |s.links|
            && forall i :: 0 <= i < |s.links| ==> s'.links[i].acked == s.links[i].acked
  {
    hide Written;
  }

  lemma FirstReply(s: System, u: Uuid, m: PutKey, t: nat)
    requires ReplyInv(s) && LinksOk(s) && Enabled(s, Put(u, m, t))
    ensures var s' := Step(s, Put(u, m, t)); u in s'.puts && u in s'.co.pending && ReplyOk(s', u)
  {
    var s' := Step(s, Put(u, m, t));
    PutEffect(s, u, m, t);
    NeverHeardOf(s, u);
    hide LinksOk, Step;
    assert Ackers(s'.links, u) == Ackers(s.links, u);
    assert s.replies[u] == 0;
  }

  lemma PutOthers(s: System, s': System, x: Uuid)
    requires |s'.links| == |s.links| && forall i :: 0 <= i < |s.links| ==> s'.links[i].acked == s.links[i].acked
    requires x in s.puts && x in s'.puts && s'.puts[x] == s.puts[x] && x in s.co.pending && x in s'.co.pending
    requires s'.co.pending[x] == s.co.pending[x] && s'.replies[x] == s.replies[x]
    ensures SameFor(s, s', x)
  {
  }

  lemma PutOnly(s: System, u: Uuid, m: PutKey, t: nat)
    requires ReplyInv(s) && Enabled(s, Put(u, m, t))
    ensures OnlyFor(s, Step(s, Put(u, m, t)), u)
  {
    var s' := Step(s, Put(u, m, t));
    hide ReplyOk, Step, SameFor;
    assert u !in s.puts && s.puts.Keys == s.co.pending.Keys;
    hide ReplyInv;
    PutEffect(s, u, m, t);
    hide Enabled;
    PutSame(s, s', u);
  }

  lemma PutSame(s: System, s': System, u: Uuid)
    requires |s'.links| == |s.links| && forall i :: 0 <= i < |s.links| ==> s'.links[i].acked == s.links[i].acked
    requires s.puts.Keys == s.co.pending.Keys && u !in s.puts
    requires u in s'.puts && s'.puts == s.puts[u := s'.puts[u]]
    requires u in s'.co.pending && s'.co.pending == s.co.pending[u := s'.co.pending[u]]
    requires s'.replies == s.replies || s'.replies == s.replies + multiset{u}
    ensures OnlyFor(s, s', u)
  {
    hide SameFor;
    forall x | x in s.puts ensures SameFor(s, s', x) {
      PutOthers(s, s', x);
    }
  }

  lemma PutReplies(s: System, u: Uuid, m: PutKey, t: nat)
    requires ReplyInv(s) && LinksOk(s) && Enabled(s, Put(u, m, t))
    ensures ReplyInv(Step(s, Put(u, m, t)))
  {
    hide LinksOk, ReplyOk, Step, Enabled, OnlyFor, ReplyInv;
    FirstReply(s, u, m, t);
    PutOnly(s, u, m, t);
    OneReplyChanged(s, Step(s, Put(u, m, t)), u);
  }

  lemma OneMoreAcker(s: System, i: nat, u: Uuid)
    requires i < |s.links| && u !in s.links[i].acked
    ensures var links := s.links[i := Acknowledged(s.links[i], u)];
            && |Ackers(links, u)| == |Ackers(s.links, u)| + 1
            && forall x: Uuid :: x != u ==> Ackers(links, x) == Ackers(s.links, x)
  {
    var links := s.links[i := Acknowledged(s.links[i], u)];
    assert Ackers(links, u) == Ackers(s.links, u) + {i};
  }

  lemma CompleteEffect(s: System, i: nat, u: Uuid)
    requires Enabled(s, Complete(i, u)) && u in s.co.pending
    ensures var s', p := Step(s, Complete(i, u)), s.co.pending[u];
            && s'.puts == s.puts && s'.links == s.links[i := Acknowledged(s.links[i], u)]
            && s'.co.pending == s.co.pending[u := p.(consistency := Decremented(p.consistency))]
            && s'.replies == if p.consistency == 1 then s.replies + multiset{u} else s.replies
  {
  }

  /** One acknowledgement more: the wrapped counter stands at one only at the right moment. */
  lemma CountDown(c: nat, n: nat, peers: nat)
    requires 1 <= c <= peers + 1 && n < peers < U32 - 1
    ensures CountAfter(c, n) >= 0 && CountAfter(c, n + 1) == Decremented(CountAfter(c, n))
    ensures CountAfter(c, n) == 1 <==> c == n + 2
  {
  }

  lemma CompletedReply(s: System, i: nat, u: Uuid)
    requires ReplyInv(s) && Enabled(s, Complete(i, u)) && u in s.puts && u !in s.links[i].acked
    ensures var s' := Step(s, Complete(i, u)); u in s'.co.pending && ReplyOk(s', u)
  {
    CompleteEffect(s, i, u);
    assert ReplyOk(s, u);
    OneMoreAcker(s, i, u);
    AckersBelow(s.links, u, i);
    hide Acknowledged, Ackers, Step, ReplyInv;
    CountDown(s.puts[u].put.consistency, |Ackers(s.links, u)|, |s.links|);
    hide CountAfter;
  }

  lemma CompleteOthers(s: System, s': System, i: nat, u: Uuid, x: Uuid)
    requires x != u && i < |s.links| && s'.links == s.links[i := Acknowledged(s.links[i], u)] && s'.puts == s.puts
    requires x in s.puts && x in s.co.pending && x in s'.co.pending && s'.co.pending[x] == s.co.pending[x]
    requires s'.replies[x] == s.replies[x]
    ensures SameFor(s, s', x)
  {
  }

  lemma AckIsNew(s: System, i: nat, u: Uuid)
    requires LinksOk(s) && i < |s.links| && u in s.links[i].up
    ensures u in s.puts && u !in s.links[i].acked
  {
    assert LinkOk(s.links[i], s.puts);
    AckLink(s.links[i], s.puts, u);
  }

  lemma CompleteOnly(s: System, i: nat, u: Uuid)
    requires s.puts.Keys == s.co.pending.Keys && Enabled(s, Complete(i, u)) && u in s.puts
    ensures OnlyFor(s, Step(s, Complete(i, u)), u)
  {
    var s' := Step(s, Complete(i, u));
    CompleteEffect(s, i, u);
    assert i < |s.links|;
    hide ReplyOk, Step, Enabled, SameFor, Acknowledged, Decremented;
    forall x | x in s.puts && x != u ensures SameFor(s, s', x) {
      CompleteOthers(s, s', i, u, x);
    }
  }

  lemma CompleteReplies(s: System, i: nat, u: Uuid)
    requires ReplyInv(s) && LinksOk(s) && Enabled(s, Complete(i, u))
    ensures ReplyInv(Step(s, Complete(i, u)))
  {
    hide LinksOk, ReplyOk, Step, OnlyFor;
    AckIsNew(s, i, u);
    CompletedReply(s, i, u);
    CompleteOnly(s, i, u);
    assert u in Step(s, Complete(i, u)).puts by {
      CompleteEffect(s, i, u);
    }
    hide ReplyInv, Enabled;
    OneReplyChanged(s, Step(s, Complete(i, u)), u);
  }

  /** What no other event touches. */
  ghost predicate SameHistory(s: System, s': System) {
    && s'.puts == s.puts && s'.replies == s.replies && s'.co.pending == s.co.pending && |s'.links| == |s.links|
    && forall i :: 0 <= i < |s.links| ==> s'.links[i].acked == s.links[i].acked
  }

  predicate OwnEvent(e: Event) { e.OwnTask? || e.OwnWrite? || e.HintTask? }

  lemma OwnEventKeepsHistory(s: System, e: Event)
    requires Enabled(s, e) && OwnEvent(e)
    ensures SameHistory(s, Step(s, e)) && Step(s, e).links == s.links
  {
    hide Ran, Posted, Bump, InRange;
  }

  lemma LinkEventKeepsHistory(s: System, e: Event)
    requires Enabled(s, e) && !e.Put? && !e.Complete? && !OwnEvent(e)
    ensures SameHistory(s, Step(s, e)) && Step(s, e).co == s.co
  {
    hide Ran, Posted, HandedOff, Written;
    var q := Step(s, e).links[e.peer];
    assert Step(s, e) == s.(links := s.links[e.peer := q]);
    assert q.acked == s.links[e.peer].acked;
    hide Step;
  }

  lemma OtherReplies(s: System, e: Event)
    requires ReplyInv(s) && Enabled(s, e) && !e.Put? && !e.Complete?
    ensures ReplyInv(Step(s, e))
  {
    var s' := Step(s, e);
    if OwnEvent(e) {
      OwnEventKeepsHistory(s, e);
    } else {
      LinkEventKeepsHistory(s, e);
    }
    hide Step, Enabled, ReplyOk;
    forall x | x in s'.puts ensures ReplyOk(s', x) {
      ReplyStays(s, s', x);
    }
  }

  lemma StepReplies(s: System, e: Event)
    requires ReplyInv(s) && LinksOk(s) && Enabled(s, e)
    ensures ReplyInv(Step(s, e))
  {
    hide ReplyInv, LinksOk, Step;
    match e
    case Put(u, m, t) => PutReplies(s, u, m, t);
    case Complete(i, u) => CompleteReplies(s, i, u);
    case _ => OtherReplies(s, e);
  }

  /** A coordinator that has taken no put yet; its replica and its peers' may hold anything. */
  ghost predicate Fresh(s: System) {
    && s.puts == map[] && s.co.pending == map[] && s.replies == multiset{} && |s.links| < U32 - 1
    && |s.co.own.slots| == KEYS
    && forall i :: 0 <= i < |s.links| ==>
         var p := s.links[i];
         |p.replica.slots| == KEYS && p.up == multiset{} && p.acked == {} && forall m :: m in p.down ==> m.uuid.None?
  }

  lemma FreshOk(s: System)
    requires Fresh(s)
    ensures ReplyInv(s) && CoverInv(s)
  {
  }

  lemma {:induction false} RunReplies(s0: System, events: seq<Event>, s: System)
    requires Fresh(s0) && Run(s0, events, s)
    ensures ReplyInv(s) && CoverInv(s)
    decreases |events|
  {
    if events == [] {
      FreshOk(s);
    } else {
      var last := events[|events| - 1];
      var u :| Run(s0, Front(events), u) && Follows(u, last, s);
      assert Enabled(u, last) && s == Step(u, last);
      hide Fresh, Run, ReplyInv, CoverInv, Step, Enabled;
      RunReplies(s0, Front(events), u);
      StepCovers(u, last);
      assert LinksOk(u) by {
        CoverParts(u);
      }
      StepReplies(u, last);
    }
  }

  lemma CoverParts(s: System)
    requires CoverInv(s)
    ensures LinksOk(s) && OwnOk(s.co.own, s.puts)
  {
  }

  /** In every run each put is answered at most once, and it is answered if and only if the client asked
      for one copy or so many acknowledgements have arrived, each from another peer. The coordinator
      and every peer that acknowledged cover the put from then on. */
  lemma AcknowledgedPuts(s0: System, events: seq<Event>, s: System, u: Uuid)
    requires Fresh(s0) && Run(s0, events, s) && u in s.puts
    ensures var m, stamp := s.puts[u].put, s.puts[u].stamp;
            && s.replies[u] == (if m.consistency <= |Ackers(s.links, u)| + 1 then 1 else 0)
            && Covers(s.co.own, m.key, stamp)
            && forall i :: i in Ackers(s.links, u) ==> Covers(s.links[i].replica, m.key, stamp)
  {
    RunReplies(s0, events, s);
    hide Fresh, Run, Covers;
    assert ReplyOk(s, u);
    forall i | i in Ackers(s.links, u)
      ensures Covers(s.links[i].replica, s.puts[u].put.key, s.puts[u].stamp)
    {
      assert LinkOk(s.links[i], s.puts) && UuidOk(s.links[i], s.puts, u);
    }
  }

  /** The events that answer a put. */
  ghost predicate Answers(s: System, e: Event, u: Uuid) {
    || (e.Put? && e.uuid == u && e.put.consistency == 1)
    || (e.Complete? && e.uuid == u && u in s.puts && s.puts[u].put.consistency == |Ackers(s.links, u)| + 2)
  }

  lemma PutAnswers(s: System, e: Event, u: Uuid)
    requires ReplyInv(s) && Enabled(s, e) && e.Put?
    ensures Step(s, e).replies[u] == s.replies[u] + if Answers(s, e, u) then 1 else 0
  {
    assert e.uuid !in s.co.pending;
    hide ReplyInv, Step;
    PutEffect(s, e.uuid, e.put, e.stamp);
  }

  lemma CompleteAnswers(s: System, e: Event, u: Uuid)
    requires ReplyInv(s) && LinksOk(s) && Enabled(s, e) && e.Complete?
    ensures Step(s, e).replies[u] == s.replies[u] + if Answers(s, e, u) then 1 else 0
  {
    CompletedAt(s, e.peer, e.uuid);
    hide ReplyInv, LinksOk, Step;
    CompleteEffect(s, e.peer, e.uuid);
    hide Enabled;
  }

  lemma OthersAnswerNothing(s: System, e: Event, u: Uuid)
    requires Enabled(s, e) && !e.Put? && !e.Complete?
    ensures Step(s, e).replies == s.replies && !Answers(s, e, u)
  {
    hide Step;
    if OwnEvent(e) {
      OwnEventKeepsHistory(s, e);
    } else {
      LinkEventKeepsHistory(s, e);
    }
  }

  /** The moment of the answer: the put itself when one copy is enough, otherwise the acknowledgement that
      makes up the number asked for, and no other event. */
  lemma AnsweredAt(s0: System, events: seq<Event>, s: System, e: Event, u: Uuid)
    requires Fresh(s0) && Run(s0, events, s) && Enabled(s, e)
    ensures Step(s, e).replies[u] == s.replies[u] + if Answers(s, e, u) then 1 else 0
  {
    hide Fresh, Run, CoverInv, ReplyInv, LinksOk, Step, Enabled, Answers;
    RunReplies(s0, events, s);
    CoverParts(s);
    if e.Put? {
      PutAnswers(s, e, u);
    } else if e.Complete? {
      CompleteAnswers(s, e, u);
    } else {
      OthersAnswerNothing(s, e, u);
    }
  }

  lemma CompletedAt(s: System, i: nat, u: Uuid)
    requires ReplyInv(s) && LinksOk(s) && Enabled(s, Complete(i, u))
    ensures u in s.puts && u in s.co.pending
    ensures CompletesPut(s.co, u) <==> s.puts[u].put.consistency == |Ackers(s.links, u)| + 2
  {
    AckIsNew(s, i, u);
    hide LinksOk;
    AckersBelow(s.links, u, i);
    assert ReplyOk(s, u);
    hide Ackers;
  }
}
