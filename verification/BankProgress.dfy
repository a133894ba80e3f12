/** A snapshot round makes progress, ends, and does so after a fixed number of markers. */
module SnapshotProgress {
  import opened Wrappers
  import opened Ranges
  import opened Transfers
  import opened Snapshots
  import opened Branches
  import opened Network
  import opened ChannelCut
  import opened Cut
  import opened SnapshotResults
  import Mesh

  /** The links whose marker of this round has been sent, and those whose marker has been consumed. */
  function SentLinks(s: Net): set<Link> { set l | l in s.links && Recorded(s, l.src) }

  function ClosedLinks(s: Net): set<Link> { set l | l in s.links && IsClosed(ViewOf(s, l)) }

  function RecordedBranches(s: Net): set<nat> { set i | i in Below(|s.branches|) && Recorded(s, i) }

  /** What happened since the last InitSnapshot: markers sent, markers consumed, branches that recorded. */
  datatype Tally = Tally(sent: nat, consumed: nat, recorded: multiset<nat>)

  function Count(t: Tally, s: Net, e: Event): Tally
    requires Enabled(s, e)
  {
    match e
    case InitSnapshot(p) => Tally(|s.branches| - 1, 0, multiset{p})
    case SendMoney(_, _) => t
    case Deliver(l) =>
      if s.links[l][0].Transfer? then t
      else if StartsSnapshot(s.branches[l.dst], s.links[l][0].id)
      then Tally(t.sent + |s.branches| - 1, t.consumed + 1, t.recorded + multiset{l.dst})
      else t.(consumed := t.consumed + 1)
  }

  function TallyOf(s: Net, es: seq<Event>): Tally
    requires Run(s, es).Some?
    decreases |es|
  {
    if es == [] then Tally(0, 0, multiset{})
    else
      var front := es[..|es| - 1];
      Count(TallyOf(s, front), Run(s, front).value, es[|es| - 1])
  }

  // ----- counting links -----

  function OutLinks(n: nat, d: nat): set<Link> { set l | l in Links(n) && l.src == d }

  lemma {:induction false} CountOut(d: nat, ps: set<nat>)
    ensures |set j | j in ps :: Link(d, j)| == |ps|
    decreases ps
  {
    if ps != {} {
      var p :| p in ps;
      CountOut(d, ps - {p});
      assert (set j | j in ps :: Link(d, j)) == (set j | j in ps - {p} :: Link(d, j)) + {Link(d, p)};
    }
  }

  lemma OutLinksSize(n: nat, d: nat)
    requires d < n
    ensures |OutLinks(n, d)| == n - 1
  {
    CountOut(d, Mesh.PeersOf(n, d));
    assert OutLinks(n, d) == set j | j in Mesh.PeersOf(n, d) :: Link(d, j);
    assert Mesh.PeersOf(n, d) == Below(n) - {d};
  }

  function LinksFrom(n: nat, k: nat): set<Link> { set l | l in Links(n) && l.src < k }

  lemma LinksFromNext(n: nat, k: nat)
    requires 0 < k <= n
    ensures LinksFrom(n, k) == LinksFrom(n, k - 1) + OutLinks(n, k - 1) && LinksFrom(n, k - 1) !! OutLinks(n, k - 1)
  {
  }

  lemma {:induction false} LinksBelow(n: nat, k: nat)
    requires k <= n
    ensures |LinksFrom(n, k)| == k * (n - 1)
    decreases k
  {
    if k > 0 {
      LinksBelow(n, k - 1);
      OutLinksSize(n, k - 1);
      LinksFromNext(n, k);
      hide LinksFrom, OutLinks;
      assert k * (n - 1) == (k - 1) * (n - 1) + (n - 1);
    }
  }

  lemma LinksSize(n: nat)
    ensures |Links(n)| == n * (n - 1)
  {
    LinksBelow(n, n);
    assert Links(n) == LinksFrom(n, n);
  }

  // ----- what each event does to the sets -----

  ghost predicate Tallied(s: Net, t: Tally) {
    && t.sent == |SentLinks(s)| && t.consumed == |ClosedLinks(s)|
    && t.recorded == multiset(RecordedBranches(s))
  }

  lemma SameSets(s: Net, s': Net)
    requires s'.links.Keys == s.links.Keys && |s'.branches| == |s.branches|
    requires forall i :: 0 <= i < |s.branches| ==> Recorded(s', i) == Recorded(s, i)
    requires forall l :: l in s.links ==> l.src < |s.branches| && IsClosed(ViewOf(s', l)) == IsClosed(ViewOf(s, l))
    ensures SentLinks(s') == SentLinks(s) && ClosedLinks(s') == ClosedLinks(s)
    ensures RecordedBranches(s') == RecordedBranches(s)
  {
  }

  lemma PaySets(s: Net, l: Link, a: nat)
    requires WellFormed(s) && Enabled(s, SendMoney(l, a))
    ensures var s' := Step(s, SendMoney(l, a));
            SentLinks(s') == SentLinks(s) && ClosedLinks(s') == ClosedLinks(s) && RecordedBranches(s') == RecordedBranches(s)
  {
    var s' := Step(s, SendMoney(l, a));
    PayKeepsRecorded(s, l, a);
    forall k | k in s.links
      ensures IsClosed(ViewOf(s', k)) == IsClosed(ViewOf(s, k))
    {
      SameView(s, s', k);
    }
    SameSets(s, s');
  }

  lemma TakeSets(s: Net, l: Link)
    requires WellFormed(s) && Enabled(s, Deliver(l)) && s.links[l][0].Transfer? && HasRoom(s, l)
    ensures var s' := Step(s, Deliver(l));
            SentLinks(s') == SentLinks(s) && ClosedLinks(s') == ClosedLinks(s) && RecordedBranches(s') == RecordedBranches(s)
  {
    var s' := Step(s, Deliver(l));
    TakeKeepsRecorded(s, l);
    forall k | k in s.links
      ensures IsClosed(ViewOf(s', k)) == IsClosed(ViewOf(s, k))
    {
      TakeView(s, l, k);
    }
    SameSets(s, s');
  }

  lemma MarkerRecords(s: Net, l: Link)
    requires CurrentMarker(s, l)
    ensures RecordedBranches(Step(s, Deliver(l))) == RecordedBranches(s) + {l.dst}
    ensures SentLinks(Step(s, Deliver(l))) == SentLinks(s) + OutLinks(|s.branches|, l.dst)
  {
    var s' := Step(s, Deliver(l));
    MarkerOnBranch(s.branches[l.dst], l.src, s.round, Mesh.PeersOf(|s.branches|, l.dst));
    assert s'.links.Keys == s.links.Keys;
    assert forall i :: 0 <= i < |s.branches| ==> (Recorded(s', i) <==> Recorded(s, i) || i == l.dst);
  }

  lemma MarkerCloses(s: Net, l: Link)
    requires CurrentMarker(s, l)
    ensures ClosedLinks(Step(s, Deliver(l))) == ClosedLinks(s) + {l}
    ensures Step(s, Deliver(l)).links.Keys == s.links.Keys
  {
    var s' := Step(s, Deliver(l));
    assert s'.links.Keys == s.links.Keys;
    forall k | k in s.links
      ensures IsClosed(ViewOf(s', k)) == (IsClosed(ViewOf(s, k)) || k == l)
    {
      MarkerClosed(s, l, k);
    }
  }

  /** A marker about to be delivered is current, and its channel is still open. */
  lemma MarkerFindsOpen(s: Net, l: Link, c: Bank)
    requires CutInv(s, c) && Enabled(s, Deliver(l)) && s.links[l][0].Marker?
    ensures CurrentMarker(s, l) && l !in ClosedLinks(s)
  {
    MarkerIsCurrent(s, l, c);
    MarkerIsFit(s, l, c);
  }

  lemma MarkerClosed(s: Net, l: Link, k: Link)
    requires CurrentMarker(s, l) && k in s.links
    ensures IsClosed(ViewOf(Step(s, Deliver(l)), k)) == (IsClosed(ViewOf(s, k)) || k == l)
  {
    if k.dst == l.dst {
      MarkerViewReceiver(s, l, k);
    } else {
      MarkerViewElsewhere(s, l, k);
    }
  }

  lemma InitSets(s: Net, p: nat)
    requires WellFormed(s) && Enabled(s, InitSnapshot(p))
    ensures var s' := Step(s, InitSnapshot(p));
            SentLinks(s') == OutLinks(|s.branches|, p) && ClosedLinks(s') == {} && RecordedBranches(s') == {p}
  {
    var s' := Step(s, InitSnapshot(p));
    InitAccounts(s, p);
    forall k | k in s.links
      ensures !IsClosed(ViewOf(s', k))
    {
      assert SnapshotFits(s.branches[k.src], Mesh.PeersOf(|s.branches|, k.src), s.round);
      assert SnapshotFits(s.branches[k.dst], Mesh.PeersOf(|s.branches|, k.dst), s.round);
      InitView(s, p, k);
    }
  }

  lemma MarkerConsumed(s: Net, l: Link)
    requires CurrentMarker(s, l) && l !in ClosedLinks(s)
    ensures |ClosedLinks(Step(s, Deliver(l)))| == |ClosedLinks(s)| + 1
  {
    MarkerCloses(s, l);
    hide Step, CurrentMarker, ClosedLinks;
  }

  lemma MarkerSends(s: Net, l: Link)
    requires CurrentMarker(s, l)
    ensures var s' := Step(s, Deliver(l));
            && |SentLinks(s')| == |SentLinks(s)| + (if Recorded(s, l.dst) then 0 else |s.branches| - 1)
            && multiset(RecordedBranches(s')) ==
               multiset(RecordedBranches(s)) + if Recorded(s, l.dst) then multiset{} else multiset{l.dst}
  {
    assert s.Valid() && l.dst < |s.branches|;
    hide Step, CurrentMarker, SentLinks, RecordedBranches, OutLinks, Recorded;
    MarkerRecords(s, l);
    RecordingTwice(s, l.dst);
  }

  lemma CountMarker(s: Net, l: Link, t: Tally)
    requires CurrentMarker(s, l) && l !in ClosedLinks(s) && Tallied(s, t)
    ensures Tallied(Step(s, Deliver(l)), Count(t, s, Deliver(l)))
  {
    hide Step, Count, CurrentMarker, ClosedLinks, SentLinks, RecordedBranches, Recorded;
    CountOfMarker(s, l, t);
    MarkerConsumed(s, l);
    MarkerSends(s, l);
  }

  lemma CountOfMarker(s: Net, l: Link, t: Tally)
    requires CurrentMarker(s, l)
    ensures Count(t, s, Deliver(l)) ==
            if Recorded(s, l.dst) then t.(consumed := t.consumed + 1)
            else Tally(t.sent + |s.branches| - 1, t.consumed + 1, t.recorded + multiset{l.dst})
  {
  }

  /** Recording a branch adds its n - 1 links the first time and nothing after that. */
  lemma RecordingTwice(s: Net, d: nat)
    requires s.Valid() && d < |s.branches|
    ensures |SentLinks(s) + OutLinks(|s.branches|, d)| ==
            |SentLinks(s)| + if Recorded(s, d) then 0 else |s.branches| - 1
    ensures multiset(RecordedBranches(s) + {d}) ==
            multiset(RecordedBranches(s)) + if Recorded(s, d) then multiset{} else multiset{d}
  {
    var out := OutLinks(|s.branches|, d);
    OutLinksSize(|s.branches|, d);
    assert d in RecordedBranches(s) <==> Recorded(s, d);
    WithOne(RecordedBranches(s), d);
    assert if Recorded(s, d) then out <= SentLinks(s) else SentLinks(s) !! out;
    hide SentLinks, OutLinks, RecordedBranches, Recorded;
    UnionSize(SentLinks(s), out);
  }

  lemma WithOne<T>(a: set<T>, x: T)
    ensures multiset(a + {x}) == multiset(a) + if x in a then multiset{} else multiset{x}
  {
    if x in a {
      assert a + {x} == a;
    }
  }

  lemma UnionSize<T>(a: set<T>, b: set<T>)
    ensures b <= a ==> |a + b| == |a|
    ensures a !! b ==> |a + b| == |a| + |b|
  {
    if b <= a {
      assert a + b == a;
    }
  }

  lemma CountKeeps(s: Net, e: Event, start: Bank, h: History, t: Tally)
    requires Inv(s, start, h) && Enabled(s, e) && Tallied(s, t)
    ensures Tallied(Step(s, e), Count(t, s, e))
  {
    match e
    case SendMoney(l, a) => PaySets(s, l, a);
    case InitSnapshot(p) =>
      InitSets(s, p);
      OutLinksSize(|s.branches|, p);
    case Deliver(l) =>
      if s.links[l][0].Transfer? {
        assert HasRoom(s, l) by {
          NoOverflow(s, start, h, l);
        }
        TakeSets(s, l);
      } else {
        assert CurrentMarker(s, l) && l !in ClosedLinks(s) by {
          MarkerFindsOpen(s, l, CutOf(start, h));
        }
        CountMarker(s, l, t);
      }
  }

  lemma {:induction false} TallyKeeps(n: nat, share: nat, es: seq<Event>)
    requires n * share < U64 && Run(Initial(n, share), es).Some?
    ensures Tallied(Run(Initial(n, share), es).value, TallyOf(Initial(n, share), es))
    decreases |es|
  {
    var s0 := Initial(n, share);
    if es == [] {
      assert SentLinks(s0) == {} && ClosedLinks(s0) == {} && RecordedBranches(s0) == {};
    } else {
      var front := es[..|es| - 1];
      TallyKeeps(n, share, front);
      RunKeeps(n, share, front);
      CountKeeps(Run(s0, front).value, es[|es| - 1], Start(n, share), HistoryOf(s0, front), TallyOf(s0, front));
    }
  }

  // ----- the end of a round -----

  /** A round is over exactly when its snapshot is done: every branch has recorded and no marker is
      under way if and only if every branch's channels are all closed, so that none throws. */
  lemma DoneIffOver(s: Net, c: Bank)
    requires CutInv(s, c) && 0 < s.round
    ensures SnapshotDone(s, s.round) <==> RoundOver(s)
    ensures SnapshotDone(s, s.round) ==> ClosedLinks(s) == s.links.Keys && SentLinks(s) == s.links.Keys
  {
    if SnapshotDone(s, s.round) {
      forall l | l in s.links
        ensures IsClosed(ViewOf(s, l)) && MarkerIds(s.links[l]) == []
      {
        DoneReportsChannel(s, c, l);
        assert Fits(ViewOf(s, l), s.round, c.transit[l]);
      }
    }
    if RoundOver(s) {
      forall i | 0 <= i < |s.branches|
        ensures Recorded(s, i) && AllCompleted(s.branches[i].snapshot.value)
      {
        OverClosesAll(s, c, i);
      }
    }
  }

  lemma OverClosesAll(s: Net, c: Bank, i: nat)
    requires CutInv(s, c) && 0 < s.round && RoundOver(s) && i < |s.branches| && Recorded(s, i)
    ensures AllCompleted(s.branches[i].snapshot.value)
  {
    assert SnapshotFits(s.branches[i], Mesh.PeersOf(|s.branches|, i), s.round);
    forall p | p in s.branches[i].snapshot.value.states
      ensures s.branches[i].snapshot.value.states[p].Completed?
    {
      assert Fits(ViewOf(s, Link(p, i)), s.round, c.transit[Link(p, i)]);
      assert Recorded(s, p);
    }
  }

  /** In each round each branch records exactly once, and when the snapshot is done exactly n * (n - 1)
      markers have been sent and as many consumed. */
  lemma MarkersOfARound(n: nat, share: nat, es: seq<Event>)
    requires n * share < U64 && Run(Initial(n, share), es).Some?
    requires var s := Run(Initial(n, share), es).value; 0 < s.round && SnapshotDone(s, s.round)
    ensures var t := TallyOf(Initial(n, share), es);
            t.sent == n * (n - 1) && t.consumed == n * (n - 1) && t.recorded == multiset(Below(n))
  {
    RunKeeps(n, share, es);
    TallyKeeps(n, share, es);
    var s, h := Run(Initial(n, share), es).value, HistoryOf(Initial(n, share), es);
    PlayKeepsValid(Start(n, share), h.all);
    DoneIffOver(s, CutOf(Start(n, share), h));
    assert RecordedBranches(s) == Below(n);
    LinksSize(n);
  }

  /** The number of channels still open bounds the marker deliveries left in the round. */
  function OpenLinks(s: Net): nat { |s.links.Keys - ClosedLinks(s)| }

  lemma OneLess<T>(all: set<T>, a: set<T>, x: T)
    requires x in all && x !in a
    ensures |all - (a + {x})| == |all - a| - 1
  {
    assert all - a == (all - (a + {x})) + {x};
  }

  lemma MarkersDecrease(s: Net, l: Link, c: Bank)
    requires CutInv(s, c) && Enabled(s, Deliver(l)) && s.links[l][0].Marker?
    ensures OpenLinks(Step(s, Deliver(l))) == OpenLinks(s) - 1
  {
    assert CurrentMarker(s, l) && l !in ClosedLinks(s) by {
      MarkerFindsOpen(s, l, c);
    }
    var s' := Step(s, Deliver(l));
    assert ClosedLinks(s') == ClosedLinks(s) + {l} && s'.links.Keys == s.links.Keys by {
      MarkerCloses(s, l);
    }
    hide Step, CutInv, ClosedLinks;
    OneLess(s.links.Keys, ClosedLinks(s), l);
  }

  /** While some branch has recorded and the snapshot is not done, a marker is under way. */
  lemma MarkerUnderWay(s: Net, c: Bank, p: nat) returns (l: Link)
    requires CutInv(s, c) && 0 < s.round && Recorded(s, p) && !SnapshotDone(s, s.round)
    ensures l in s.links && MarkerIds(s.links[l]) != []
  {
    DoneIffOver(s, c);
    if i :| 0 <= i < |s.branches| && !Recorded(s, i) {
      l := Link(p, i);
      assert Fits(ViewOf(s, l), s.round, c.transit[l]);
    } else {
      l :| l in s.links && MarkerIds(s.links[l]) != [];
    }
  }

  lemma RunLast(s: Net, es: seq<Event>)
    requires es != []
    ensures Run(s, es) ==
            match Run(s, es[..|es| - 1])
            case None => None
            case Some(t) => if Enabled(t, es[|es| - 1]) then Some(Step(t, es[|es| - 1])) else None
  {
  }

  lemma {:induction false} RunPrepend(s: Net, e: Event, es: seq<Event>)
    requires Enabled(s, e)
    ensures Run(s, [e] + es) == Run(Step(s, e), es)
    decreases |es|
  {
    if es == [] {
      assert [e] + es == [e];
      assert [e][..0] == [];
    } else {
      var all := [e] + es;
      assert all[..|all| - 1] == [e] + es[..|es| - 1] && all[|all| - 1] == es[|es| - 1];
      RunLast(s, all);
      RunLast(Step(s, e), es);
      hide Run, Step, Enabled;
      RunPrepend(s, e, es[..|es| - 1]);
    }
  }

  predicate AllDeliveries(es: seq<Event>) { forall k :: 0 <= k < |es| ==> es[k].Deliver? }

  lemma DeliverFirst(s: Net, l: Link, es: seq<Event>)
    requires Enabled(s, Deliver(l)) && AllDeliveries(es)
    ensures AllDeliveries([Deliver(l)] + es) && Run(s, [Deliver(l)] + es) == Run(Step(s, Deliver(l)), es)
  {
    RunPrepend(s, Deliver(l), es);
  }

  /** From every state of a started round, delivering what is under way can finish the snapshot. */
  lemma {:induction false} CanFinish(s: Net, start: Bank, h: History, p: nat) returns (es: seq<Event>)
    requires Inv(s, start, h) && 0 < s.round && Recorded(s, p)
    ensures AllDeliveries(es) && Run(s, es).Some? && Run(s, es).value.round == s.round
    ensures SnapshotDone(Run(s, es).value, s.round)
    decreases OpenLinks(s), 1, 0
  {
    if SnapshotDone(s, s.round) {
      es := [];
    } else {
      var l := MarkerUnderWay(s, CutOf(start, h), p);
      es := FinishThrough(s, start, h, p, l);
    }
  }

  /** Delivering the head of a link with a marker keeps what is recorded and brings the marker nearer. */
  lemma DeliverTowards(s: Net, start: Bank, h: History, p: nat, l: Link)
    requires Inv(s, start, h) && 0 < s.round && Recorded(s, p)
    requires l in s.links && MarkerIds(s.links[l]) != []
    ensures Enabled(s, Deliver(l))
    ensures var s' := Step(s, Deliver(l));
            && s'.round == s.round && Recorded(s', p)
            && (OpenLinks(s') < OpenLinks(s)
                || (OpenLinks(s') == OpenLinks(s) && s.links[l][0].Transfer? && l in s'.links
                    && MarkerIds(s'.links[l]) != [] && |s'.links[l]| < |s.links[l]|))
  {
    if s.links[l][0].Transfer? {
      assert HasRoom(s, l) by {
        NoOverflow(s, start, h, l);
      }
      TakeKeepsRecorded(s, l);
      TakeSets(s, l);
    } else {
      MarkersDecrease(s, l, CutOf(start, h));
      MarkerInCut(s, l, CutOf(start, h));
    }
  }

  lemma {:induction false} FinishThrough(s: Net, start: Bank, h: History, p: nat, l: Link) returns (es: seq<Event>)
    requires Inv(s, start, h) && 0 < s.round && Recorded(s, p)
    requires l in s.links && MarkerIds(s.links[l]) != []
    ensures AllDeliveries(es) && Run(s, es).Some? && Run(s, es).value.round == s.round
    ensures SnapshotDone(Run(s, es).value, s.round)
    decreases OpenLinks(s), 0, |s.links[l]|
  {
    DeliverTowards(s, start, h, p, l);
    var e, s' := Deliver(l), Step(s, Deliver(l));
    assert Inv(s', start, Advance(h, s, e)) by {
      StepKeeps(s, e, start, h);
    }
    var rest;
    if OpenLinks(s') < OpenLinks(s) {
      rest := CanFinish(s', start, Advance(h, s, e), p);
    } else {
      rest := FinishThrough(s', start, Advance(h, s, e), p, l);
    }
    es := [e] + rest;
    DeliverFirst(s, l, rest);
  }

  // ----- the initiator -----

  /** Once a round has begun some branch has recorded it. */
  lemma {:induction false} SomeoneRecorded(n: nat, share: nat, es: seq<Event>) returns (p: nat)
    requires n * share < U64 && Run(Initial(n, share), es).Some?
    requires 0 < Run(Initial(n, share), es).value.round
    ensures Recorded(Run(Initial(n, share), es).value, p)
    decreases |es|
  {
    var s0, front, e := Initial(n, share), es[..|es| - 1], es[|es| - 1];
    var s := Run(s0, front).value;
    RunKeeps(n, share, front);
    match e
    case InitSnapshot(q) =>
      p := q;
    case SendMoney(l, a) =>
      p := SomeoneRecorded(n, share, front);
      PayKeepsRecorded(s, l, a);
    case Deliver(l) =>
      p := SomeoneRecorded(n, share, front);
      if s.links[l][0].Transfer? {
        TakeKeepsRecorded(s, l);
      } else {
        MarkerInCut(s, l, CutOf(Start(n, share), HistoryOf(s0, front)));
      }
  }

  /** Every run that has begun a round can be continued, by deliveries alone, to a finished snapshot. */
  lemma EveryRoundCanFinish(n: nat, share: nat, es: seq<Event>) returns (more: seq<Event>)
    requires n * share < U64 && Run(Initial(n, share), es).Some?
    requires 0 < Run(Initial(n, share), es).value.round
    ensures var s := Run(Initial(n, share), es).value;
            && AllDeliveries(more) && Run(s, more).Some?
            && SnapshotDone(Run(s, more).value, s.round)
  {
    var p := SomeoneRecorded(n, share, es);
    RunKeeps(n, share, es);
    more := CanFinish(Run(Initial(n, share), es).value, Start(n, share), HistoryOf(Initial(n, share), es), p);
  }

  /** Snapshots that all carry one id carry the current round's. */
  lemma DoneIsCurrent(n: nat, share: nat, es: seq<Event>, id: nat)
    requires 0 < n && n * share < U64 && Run(Initial(n, share), es).Some?
    requires SnapshotDone(Run(Initial(n, share), es).value, id)
    ensures id == Run(Initial(n, share), es).value.round
  {
    RunKeeps(n, share, es);
    var s := Run(Initial(n, share), es).value;
    PlayKeepsValid(Start(n, share), HistoryOf(Initial(n, share), es).all);
    assert SnapshotFits(s.branches[0], Mesh.PeersOf(n, 0), s.round);
    var p := SomeoneRecorded(n, share, es);
  }

  // ----- and then the next one -----

  lemma {:induction false} RunAppend(s: Net, a: seq<Event>, b: seq<Event>)
    requires Run(s, a).Some?
    ensures Run(s, a + b) == Run(Run(s, a).value, b)
    decreases |b|
  {
    if b == [] {
      assert a + b == a;
    } else {
      assert (a + b)[..|a + b| - 1] == a + b[..|b| - 1];
      RunAppend(s, a, b[..|b| - 1]);
    }
  }

  lemma StepSize(s: Net, e: Event)
    requires Enabled(s, e)
    ensures |Step(s, e).branches| == |s.branches|
  {
    hide OnTransfer, OnMarker, OnInitSnapshot, StartsSnapshot, FloodLinks, RoundOver;
  }

  lemma {:induction false} RunSize(n: nat, share: nat, es: seq<Event>)
    requires Run(Initial(n, share), es).Some?
    ensures |Run(Initial(n, share), es).value.branches| == n
    decreases |es|
  {
    if es != [] {
      RunLast(Initial(n, share), es);
      hide Run, Initial, Step, Enabled;
      RunSize(n, share, es[..|es| - 1]);
      StepSize(Run(Initial(n, share), es[..|es| - 1]).value, es[|es| - 1]);
    }
  }

  lemma DoneIsOver(n: nat, share: nat, es: seq<Event>, id: nat)
    requires 0 < n && n * share < U64 && Run(Initial(n, share), es).Some? && 0 < id
    requires SnapshotDone(Run(Initial(n, share), es).value, id)
    ensures RoundOver(Run(Initial(n, share), es).value) && Run(Initial(n, share), es).value.round == id
  {
    hide Run, Initial, SnapshotDone, RoundOver;
    DoneIsCurrent(n, share, es, id);
    RunKeeps(n, share, es);
    DoneIffOver(Run(Initial(n, share), es).value, CutOf(Start(n, share), HistoryOf(Initial(n, share), es)));
  }

  /** A begun round is brought to its end; where none was begun nothing is needed. */
  lemma CanGetOver(n: nat, share: nat, es: seq<Event>) returns (more: seq<Event>)
    requires 0 < n && n * share < U64 && Run(Initial(n, share), es).Some?
    ensures AllDeliveries(more) && Run(Initial(n, share), es + more).Some?
    ensures var t := Run(Initial(n, share), es + more).value;
            RoundOver(t) && |t.branches| == n && t.round == Run(Initial(n, share), es).value.round
  {
    hide Run, Initial;
    if 0 < Run(Initial(n, share), es).value.round {
      hide SnapshotDone, RoundOver, AllDeliveries;
      more := EveryRoundCanFinish(n, share, es);
      RunAppend(Initial(n, share), es, more);
      DoneIsOver(n, share, es + more, Run(Initial(n, share), es).value.round);
    } else {
      more := [];
      assert es + [] == es;
    }
    RunSize(n, share, es + more);
  }

  /** From every reachable state any branch can be asked for another snapshot, and deliveries alone complete it. */
  lemma AlwaysAnotherSnapshot(n: nat, share: nat, es: seq<Event>, p: nat) returns (before: seq<Event>, after: seq<Event>)
    requires n * share < U64 && Run(Initial(n, share), es).Some? && p < n
    ensures AllDeliveries(before) && AllDeliveries(after)
    ensures var all := es + before + [InitSnapshot(p)] + after;
            && Run(Initial(n, share), all).Some?
            && var t := Run(Initial(n, share), all).value;
               t.round == Run(Initial(n, share), es).value.round + 1 && SnapshotDone(t, t.round)
  {
    var s0 := Initial(n, share);
    before := CanGetOver(n, share, es);
    var u := Run(s0, es + before).value;
    assert Enabled(u, InitSnapshot(p));
    var begun := es + before + [InitSnapshot(p)];
    assert begun[..|begun| - 1] == es + before;
    assert Run(s0, begun) == Some(Step(u, InitSnapshot(p)));
    assert Step(u, InitSnapshot(p)).round == u.round + 1;
    hide Initial, Run, Step, SnapshotDone, AllDeliveries, Enabled;
    after := EveryRoundCanFinish(n, share, begun);
    RunAppend(s0, begun, after);
    DoneIsCurrent(n, share, begun + after, u.round + 1);
  }
}
