/** A round ends after a number of deliveries that is known beforehand, whatever their order. */
module SnapshotTermination {
  import opened Wrappers
  import opened Ranges
  import opened Sums
  import opened Transfers
  import opened Snapshots
  import opened Branches
  import opened Network
  import opened ChannelCut
  import opened Cut
  import opened SnapshotResults
  import opened SnapshotProgress

  function Lengths(links: map<Link, seq<Message>>): (r: map<Link, nat>)
    ensures r.Keys == links.Keys
  {
    map l | l in links :: |links[l]|
  }

  /** The messages under way and the markers still to be sent. */
  ghost function Pending(s: Net): int {
    Sum(Lengths(s.links)) + |s.links.Keys| - |SentLinks(s)|
  }

  function Bumped(m: map<Link, nat>, keys: set<Link>): (r: map<Link, nat>)
    ensures r.Keys == m.Keys
  {
    map k | k in m :: m[k] + if k in keys then 1 else 0
  }

  lemma {:induction false} SumBumped(m: map<Link, nat>, keys: set<Link>)
    requires keys <= m.Keys
    ensures Sum(Bumped(m, keys)) == Sum(m) + |keys|
    decreases keys
  {
    if keys == {} {
      assert Bumped(m, keys) == m;
    } else {
      var x :| x in keys;
      var fewer := Bumped(m, keys - {x});
      SumBumped(m, keys - {x});
      SumUpdate(fewer, x, fewer[x] + 1);
      assert Bumped(m, keys) == fewer[x := fewer[x] + 1];
    }
  }

  lemma TakenLengths(links: map<Link, seq<Message>>, l: Link)
    requires l in links && links[l] != []
    ensures Sum(Lengths(links[l := links[l][1..]])) == Sum(Lengths(links)) - 1
  {
    SumUpdate(Lengths(links), l, |links[l]| - 1);
    assert Lengths(links[l := links[l][1..]]) == Lengths(links)[l := |links[l]| - 1];
  }

  lemma FloodedLengths(links: map<Link, seq<Message>>, n: nat, src: nat, id: nat)
    requires links.Keys == Links(n) && src < n
    ensures Sum(Lengths(FloodLinks(links, src, id))) == Sum(Lengths(links)) + n - 1
  {
    OutLinksSize(n, src);
    FloodBumps(links, n, src, id);
    hide Lengths, FloodLinks, OutLinks, Sum;
    SumBumped(Lengths(links), OutLinks(n, src));
  }

  lemma FloodBumps(links: map<Link, seq<Message>>, n: nat, src: nat, id: nat)
    requires links.Keys == Links(n)
    ensures OutLinks(n, src) <= links.Keys
    ensures Lengths(FloodLinks(links, src, id)) == Bumped(Lengths(links), OutLinks(n, src))
  {
  }

  /** What a delivery does to the channels. */
  lemma DeliveredLinks(s: Net, l: Link)
    requires s.Valid() && Enabled(s, Deliver(l))
    ensures var rest := s.links[l := s.links[l][1..]];
            Step(s, Deliver(l)).links ==
            if s.links[l][0].Marker? && StartsSnapshot(s.branches[l.dst], s.links[l][0].id)
            then FloodLinks(rest, l.dst, s.links[l][0].id) else rest
  {
    hide FloodLinks, OnTransfer, OnMarker, StartsSnapshot;
  }

  lemma TransferCounts(s: Net, start: Bank, h: History, l: Link)
    requires Inv(s, start, h) && Enabled(s, Deliver(l)) && s.links[l][0].Transfer?
    ensures Pending(Step(s, Deliver(l))) == Pending(s) - 1
    ensures forall p :: Recorded(s, p) ==> Recorded(Step(s, Deliver(l)), p)
  {
    assert WellFormed(s) && s.Valid();
    NoOverflow(s, start, h, l);
    hide Inv, WellFormed;
    DeliveredLinks(s, l);
    TakenLengths(s.links, l);
    TakeSets(s, l);
    TakeKeepsRecorded(s, l);
    hide Step, HasRoom, SentLinks, Lengths;
  }

  lemma MarkerFacts(s: Net, start: Bank, h: History, l: Link)
    requires Inv(s, start, h) && Enabled(s, Deliver(l)) && s.links[l][0].Marker?
    ensures s.Valid() && CurrentMarker(s, l)
    ensures StartsSnapshot(s.branches[l.dst], s.links[l][0].id) <==> !Recorded(s, l.dst)
    ensures forall p :: Recorded(s, p) ==> Recorded(Step(s, Deliver(l)), p)
  {
    var c := CutOf(start, h);
    assert CutInv(s, c);
    hide RunInv;
    MarkerFindsOpen(s, l, c);
    MarkerInCut(s, l, c);
    hide CutInv, Step;
  }

  lemma MarkerCounts(s: Net, start: Bank, h: History, l: Link)
    requires Inv(s, start, h) && Enabled(s, Deliver(l)) && s.links[l][0].Marker?
    ensures Pending(Step(s, Deliver(l))) == Pending(s) - 1
    ensures forall p :: Recorded(s, p) ==> Recorded(Step(s, Deliver(l)), p)
  {
    hide Inv, CurrentMarker, Recorded, StartsSnapshot, Step, SentLinks, Lengths, FloodLinks;
    MarkerFacts(s, start, h, l);
    DeliveredLinks(s, l);
    TakenLengths(s.links, l);
    MarkerSends(s, l);
    if !Recorded(s, l.dst) {
      FloodedLengths(s.links[l := s.links[l][1..]], |s.branches|, l.dst, s.links[l][0].id);
    }
    StepShape(s, Deliver(l));
  }

  /** Each delivery leaves exactly one less. */
  lemma DeliveryCounts(s: Net, start: Bank, h: History, l: Link)
    requires Inv(s, start, h) && Enabled(s, Deliver(l))
    ensures Pending(Step(s, Deliver(l))) == Pending(s) - 1 && Step(s, Deliver(l)).round == s.round
    ensures forall p :: Recorded(s, p) ==> Recorded(Step(s, Deliver(l)), p)
    ensures Inv(Step(s, Deliver(l)), start, Advance(h, s, Deliver(l)))
  {
    hide Inv, Pending, Recorded, Step;
    StepKeeps(s, Deliver(l), start, h);
    StepShape(s, Deliver(l));
    if s.links[l][0].Transfer? {
      TransferCounts(s, start, h, l);
    } else {
      MarkerCounts(s, start, h, l);
    }
  }

  lemma {:induction false} DeliveriesCount(s: Net, start: Bank, h: History, more: seq<Event>, p: nat) returns (g: History)
    requires Inv(s, start, h) && AllDeliveries(more) && Run(s, more).Some? && Recorded(s, p)
    ensures var t := Run(s, more).value;
            Inv(t, start, g) && |more| + Pending(t) == Pending(s) && t.round == s.round && Recorded(t, p)
    decreases |more|
  {
    if more == [] {
      g := h;
    } else {
      var front, e := more[..|more| - 1], more[|more| - 1];
      RunLast(s, more);
      assert e.Deliver? && AllDeliveries(front);
      var t := Run(s, front).value;
      hide Inv, Pending, Recorded, Step, Run, Enabled, Advance;
      g := DeliveriesCount(s, start, h, front, p);
      DeliveryCounts(t, start, g, e.link);
      g := Advance(g, t, e);
    }
  }

  /** Nothing can be delivered any more. */
  predicate AllEmpty(s: Net) { forall l :: l in s.links ==> s.links[l] == [] }

  lemma EmptyIsDone(s: Net, c: Bank, p: nat)
    requires CutInv(s, c) && 0 < s.round && Recorded(s, p) && AllEmpty(s)
    ensures SnapshotDone(s, s.round)
  {
    if !SnapshotDone(s, s.round) {
      var l := MarkerUnderWay(s, c, p);
    }
  }

  lemma EmptyIffNothingPending(s: Net, c: Bank, p: nat)
    requires CutInv(s, c) && 0 < s.round && Recorded(s, p)
    ensures AllEmpty(s) <==> Pending(s) == 0
  {
    if AllEmpty(s) {
      EmptyIsDone(s, c, p);
      DoneIffOver(s, c);
      hide CutInv, SnapshotDone, SentLinks;
      SumConstant(Lengths(s.links), {}, 0);
    } else {
      hide CutInv;
      var l :| l in s.links && s.links[l] != [];
      SumBounds(Lengths(s.links), l);
      SentIsPart(s);
    }
  }

  lemma SentIsPart(s: Net)
    ensures |SentLinks(s)| <= |s.links.Keys|
  {
    SubsetSize(SentLinks(s), s.links.Keys);
  }

  /** Every continuation of a started round by deliveries alone has at most as many as are pending; there is
      nothing left to deliver exactly after that many, and then the snapshot is done. */
  lemma EveryDeliveryRunFinishes(n: nat, share: nat, es: seq<Event>, more: seq<Event>)
    requires n * share < U64 && Run(Initial(n, share), es).Some? && 0 < Run(Initial(n, share), es).value.round
    requires AllDeliveries(more) && Run(Run(Initial(n, share), es).value, more).Some?
    ensures var s := Run(Initial(n, share), es).value;
            var t := Run(s, more).value;
            && |more| + Pending(t) == Pending(s) && Pending(t) >= 0
            && (AllEmpty(t) <==> |more| == Pending(s))
            && (AllEmpty(t) ==> SnapshotDone(t, s.round))
  {
    var s := Run(Initial(n, share), es).value;
    var t := Run(s, more).value;
    var p := SomeoneRecorded(n, share, es);
    RunKeeps(n, share, es);
    hide Initial, Run;
    var h := DeliveriesCount(s, Start(n, share), HistoryOf(Initial(n, share), es), more, p);
    assert CutInv(t, CutOf(Start(n, share), h));
    hide Inv, CutInv, Recorded, SnapshotDone;
    EmptyIffNothingPending(t, CutOf(Start(n, share), h), p);
    SentIsPart(t);
    if AllEmpty(t) {
      EmptyIsDone(t, CutOf(Start(n, share), h), p);
    }
  }
}
