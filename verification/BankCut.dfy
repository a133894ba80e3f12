/** One channel seen through a snapshot round: which messages belong to the cut, and which do not. */
module ChannelCut {
  import opened Wrappers
  import opened Transfers
  import opened Snapshots
  import opened Branches
  import opened Network

  /** A link as the invariant sees it: whether its sender has recorded, the state of its recording
      at the receiver (None before the receiver records), and its queue. */
  datatype LinkView = LinkView(sent: bool, recording: Option<ChannelState>, queue: seq<Message>)

  predicate IsClosed(v: LinkView) { v.recording.Some? && v.recording.value.Completed? }

  /** The queue holds exactly one marker, of this round, from the sender's recording until the
      receiver closes the channel; and the cut's channel content shows as what was recorded, as what
      is queued ahead of the marker, or as both. */
  ghost predicate Fits(v: LinkView, round: nat, inCut: seq<nat>) {
    && MarkerIds(v.queue) == (if v.sent && !IsClosed(v) then [round] else [])
    && (IsClosed(v) ==> v.sent)
    && match v.recording
       case None => inCut == BeforeMarker(v.queue)
       case Some(Recording(t)) => t + SeqSum(BeforeMarker(v.queue)) == SeqSum(inCut)
       case Some(Completed(t)) => t == SeqSum(inCut)
  }

  lemma TransferSent(v: LinkView, round: nat, inCut: seq<nat>, a: nat)
    requires Fits(v, round, inCut)
    ensures Fits(v.(queue := v.queue + [Transfer(a)]), round, if v.sent then inCut else inCut + [a])
  {
    AppendMessage(v.queue, Transfer(a));
    SeqSumConcat(BeforeMarker(v.queue), [a]);
    SeqSumConcat(inCut, [a]);
    assert SeqSum([a]) == a;
    assert BeforeMarker(v.queue) + [] == BeforeMarker(v.queue);
  }

  function Received(recording: Option<ChannelState>, a: nat): Option<ChannelState> {
    match recording
    case Some(Recording(t)) => Some(Recording(t + a))
    case _ => recording
  }

  lemma TransferReceived(v: LinkView, round: nat, inCut: seq<nat>)
    requires Fits(v, round, inCut) && v.queue != [] && v.queue[0].Transfer?
    ensures v.recording.None? ==> inCut != [] && inCut[0] == v.queue[0].amount
    ensures Fits(LinkView(v.sent, Received(v.recording, v.queue[0].amount), v.queue[1..]), round,
                 if v.recording.None? then inCut[1..] else inCut)
  {
  }

  lemma MarkerReceived(v: LinkView, round: nat, inCut: seq<nat>)
    requires Fits(v, round, inCut) && v.queue != [] && v.queue[0].Marker?
    ensures v.queue[0].id == round && v.sent && !IsClosed(v)
    ensures var t := if v.recording.None? then 0 else v.recording.value.transferred;
            Fits(LinkView(true, Some(Completed(t)), v.queue[1..]), round, inCut)
  {
    assert MarkerIds(v.queue)[0] == v.queue[0].id;
  }

  lemma SenderRecords(v: LinkView, round: nat, inCut: seq<nat>)
    requires Fits(v, round, inCut) && !v.sent
    ensures Fits(LinkView(true, v.recording, v.queue + [Marker(round)]), round, inCut)
  {
    AppendMessage(v.queue, Marker(round));
    assert BeforeMarker(v.queue) + [] == BeforeMarker(v.queue);
  }

  lemma ReceiverRecords(v: LinkView, round: nat, inCut: seq<nat>)
    requires Fits(v, round, inCut) && v.recording.None?
    ensures Fits(v.(recording := Some(Recording(0))), round, inCut)
  {
  }

  /** A quiet channel enters a new round with its whole content in the cut. */
  lemma NewRound(queue: seq<Message>, round: nat)
    requires MarkerIds(queue) == []
    ensures Fits(LinkView(false, None, queue), round, Amounts(queue))
  {
    NoMarker(queue);
  }
}

/** The snapshot is a state of the bank: the invariant behind it, and what follows from it. */
module Cut {
  import opened Wrappers
  import opened Sums
  import opened Transfers
  import opened Snapshots
  import opened Branches
  import opened Network
  import opened ChannelCut
  import Mesh

  /** The moves of a run, and the same moves sorted: those of branches that had not recorded the
      current round when they made them, then the others. */
  datatype History = History(all: seq<Move>, pre: seq<Move>, post: seq<Move>)

  function Sorted(s: Net, h: History, m: Move): History {
    if Recorded(s, Actor(m)) then History(h.all + [m], h.pre, h.post + [m])
    else History(h.all + [m], h.pre + [m], h.post)
  }

  function Advance(h: History, s: Net, e: Event): History
    requires Enabled(s, e)
  {
    match MoveOf(s, e)
    case None => if e.InitSnapshot? then History(h.all, h.all, []) else h
    case Some(m) => Sorted(s, h, m)
  }

  function HistoryOf(s: Net, es: seq<Event>): History
    requires Run(s, es).Some?
    decreases |es|
  {
    if es == [] then History([], [], [])
    else
      var front := es[..|es| - 1];
      Advance(HistoryOf(s, front), Run(s, front).value, es[|es| - 1])
  }

  // ----- the invariant -----

  ghost predicate SnapshotFits(b: BranchState, peers: set<Name>, round: nat) {
    b.snapshot.Some? ==> 0 < b.snapshot.value.id <= round && b.snapshot.value.states.Keys == peers
  }

  ghost predicate WellFormed(s: Net) {
    && s.Valid()
    && forall i :: 0 <= i < |s.branches| ==> SnapshotFits(s.branches[i], Mesh.PeersOf(|s.branches|, i), s.round)
  }

  function ViewOf(s: Net, l: Link): LinkView
    requires l in s.links
  {
    LinkView(Recorded(s, l.src), RecordingOf(s, l), s.links[l])
  }

  function RecordingOf(s: Net, l: Link): Option<ChannelState> {
    if Recorded(s, l.dst) && l.src in s.branches[l.dst].snapshot.value.states
    then Some(s.branches[l.dst].snapshot.value.states[l.src])
    else None
  }

  /** What the cut says of branch i's balance. */
  function CutMoney(s: Net, i: nat): nat
    requires i < |s.branches|
  {
    if Recorded(s, i) then s.branches[i].snapshot.value.balance else s.branches[i].money
  }

  ghost predicate AccountsFit(s: Net, c: Bank)
    requires |c.money| == |s.branches|
  {
    forall i :: 0 <= i < |s.branches| ==> c.money[i] == CutMoney(s, i)
  }

  ghost predicate LinksFit(s: Net, c: Bank) {
    c.transit.Keys == s.links.Keys && forall l :: l in s.links ==> Fits(ViewOf(s, l), s.round, c.transit[l])
  }

  /** The cut c says of every account and every channel what the snapshots and the queues show. */
  ghost predicate CutInv(s: Net, c: Bank) {
    && WellFormed(s)
    && c.Valid() && |c.money| == |s.branches|
    && AccountsFit(s, c) && LinksFit(s, c)
  }

  /** Both orders of the moves lead to the money in the network, the sorted one through the cut. */
  ghost predicate RunInv(s: Net, start: Bank, h: History) {
    && start.Valid() && Total(start) < U64
    && Play(start, h.all) == Some(MoneyIn(s))
    && Play(start, h.pre).Some?
    && Play(CutOf(start, h), h.post) == Some(MoneyIn(s))
    && (forall k :: 0 <= k < |h.post| ==> Recorded(s, Actor(h.post[k])))
  }

  ghost function CutOf(start: Bank, h: History): Bank
    requires Play(start, h.pre).Some?
  {
    Play(start, h.pre).value
  }

  ghost predicate Inv(s: Net, start: Bank, h: History) {
    RunInv(s, start, h) && CutInv(s, CutOf(start, h))
  }

  /** No event adds or removes channels, and only InitSnapshot begins a round. */
  lemma StepShape(s: Net, e: Event)
    requires Enabled(s, e)
    ensures Step(s, e).links.Keys == s.links.Keys
    ensures Step(s, e).round == if e.InitSnapshot? then s.round + 1 else s.round
  {
    hide OnTransfer, OnMarker, OnInitSnapshot, StartsSnapshot;
  }

  // ----- what one event does to the money of the network -----

  /** Neither the credit nor the recording of the next transfer on l wraps around. */
  predicate HasRoom(s: Net, l: Link)
    requires l in s.links && l.dst < |s.branches| && s.links[l] != [] && s.links[l][0].Transfer?
  {
    && s.branches[l.dst].money + s.links[l][0].amount < U64
    && (RecordingOf(s, l).Some? && RecordingOf(s, l).value.Recording? ==>
          RecordingOf(s, l).value.transferred + s.links[l][0].amount < U64)
  }

  lemma FloodKeepsAmounts(links: map<Link, seq<Message>>, src: nat, id: nat, l: Link)
    requires l in links
    ensures Amounts(FloodLinks(links, src, id)[l]) == Amounts(links[l])
  {
    AppendMessage(links[l], Marker(id));
  }

  lemma PayStep(s: Net, l: Link, a: nat)
    requires s.Valid() && Enabled(s, SendMoney(l, a))
    ensures CanMove(MoneyIn(s), Pay(l, a)) && MoneyIn(Step(s, SendMoney(l, a))) == DoMove(MoneyIn(s), Pay(l, a))
  {
    var s' := Step(s, SendMoney(l, a));
    AppendMessage(s.links[l], Transfer(a));
    assert MoneyIn(s').money == DoMove(MoneyIn(s), Pay(l, a)).money;
    assert MoneyIn(s').transit == DoMove(MoneyIn(s), Pay(l, a)).transit;
  }

  lemma TakeStep(s: Net, l: Link)
    requires s.Valid() && Enabled(s, Deliver(l)) && s.links[l][0].Transfer?
    requires HasRoom(s, l)
    ensures CanMove(MoneyIn(s), Take(l)) && MoneyIn(Step(s, Deliver(l))) == DoMove(MoneyIn(s), Take(l))
  {
    var s' := Step(s, Deliver(l));
    assert Amounts(s.links[l]) == [s.links[l][0].amount] + Amounts(s.links[l][1..]);
    hide Amounts;
    assert MoneyIn(s').money == DoMove(MoneyIn(s), Take(l)).money;
    assert MoneyIn(s').transit == DoMove(MoneyIn(s), Take(l)).transit;
  }

  lemma InitStep(s: Net, p: nat)
    requires s.Valid() && Enabled(s, InitSnapshot(p))
    ensures MoneyIn(Step(s, InitSnapshot(p))) == MoneyIn(s)
  {
    var s' := Step(s, InitSnapshot(p));
    assert MoneyIn(s').money == MoneyIn(s).money;
    forall l | l in s.links
      ensures Amounts(s'.links[l]) == Amounts(s.links[l])
    {
      FloodKeepsAmounts(s.links, p, s.round + 1, l);
    }
    assert MoneyIn(s').transit == MoneyIn(s).transit;
  }

  lemma MarkerStepLinks(s: Net, l: Link)
    requires s.Valid() && Enabled(s, Deliver(l)) && s.links[l][0].Marker?
    ensures var s' := Step(s, Deliver(l));
            s'.links.Keys == s.links.Keys && forall k :: k in s.links ==> Amounts(s'.links[k]) == Amounts(s.links[k])
  {
    var s', rest := Step(s, Deliver(l)), s.links[l := s.links[l][1..]];
    assert Amounts(s.links[l]) == Amounts(rest[l]);
    hide Amounts;
    forall k | k in s.links
      ensures Amounts(s'.links[k]) == Amounts(s.links[k])
    {
      FloodKeepsAmounts(rest, l.dst, s.links[l][0].id, k);
    }
  }

  lemma MarkerStep(s: Net, l: Link)
    requires s.Valid() && Enabled(s, Deliver(l)) && s.links[l][0].Marker?
    ensures MoneyIn(Step(s, Deliver(l))) == MoneyIn(s)
  {
    var s' := Step(s, Deliver(l));
    assert MoneyIn(s').money == MoneyIn(s).money;
    MarkerStepLinks(s, l);
    hide Step, Enabled, Amounts;
    assert MoneyIn(s').transit == MoneyIn(s).transit;
  }

  /** What one account and one channel hold is at most the total. */
  lemma TwoSlotsBound(b: Bank, i: nat, l: Link)
    requires b.Valid() && i < |b.money| && l in Links(|b.money|)
    ensures b.money[i] + SeqSum(b.transit[l]) <= Total(b)
  {
    var m := Ledger(b);
    assert m[Account(i)] == b.money[i] && m[InTransit(l)] == SeqSum(b.transit[l]);
    hide Sum, Ledger;
    SumBoundsTwo(m, Account(i), InTransit(l));
  }

  lemma RunTotal(s: Net, start: Bank, h: History)
    requires RunInv(s, start, h)
    ensures MoneyIn(s).Valid() && Total(MoneyIn(s)) < U64
  {
    hide MoneyIn, Play, Total;
    PlayConserves(start, h.all);
  }

  lemma QueueHolds(s: Net, l: Link)
    requires l in s.links && s.links[l] != [] && s.links[l][0].Transfer?
    ensures s.links[l][0].amount <= SeqSum(MoneyIn(s).transit[l])
  {
  }

  lemma CreditFits(s: Net, start: Bank, h: History, l: Link)
    requires RunInv(s, start, h) && s.Valid() && l in s.links && s.links[l] != [] && s.links[l][0].Transfer?
    ensures l.dst < |s.branches| && s.branches[l.dst].money + s.links[l][0].amount < U64
  {
    RunTotal(s, start, h);
    QueueHolds(s, l);
    var b := MoneyIn(s);
    assert b.money[l.dst] == s.branches[l.dst].money;
    hide MoneyIn, SeqSum, Total, RunInv;
    TwoSlotsBound(b, l.dst, l);
  }

  lemma RecordingFits(s: Net, start: Bank, h: History, l: Link)
    requires Inv(s, start, h) && l in s.links && s.links[l] != [] && s.links[l][0].Transfer? && l.dst < |s.branches|
    ensures RecordingOf(s, l).Some? && RecordingOf(s, l).value.Recording? ==>
              RecordingOf(s, l).value.transferred + s.links[l][0].amount < U64
  {
    if RecordingOf(s, l).Some? && RecordingOf(s, l).value.Recording? {
      CutTotal(s, start, h, l);
      hide Inv, Fits, SeqSum, Total, CutOf;
      var c := CutOf(start, h);
      ChannelBound(c, l);
      FittingRecording(ViewOf(s, l), s.round, c.transit[l]);
    }
  }

  lemma CutTotal(s: Net, start: Bank, h: History, l: Link)
    requires Inv(s, start, h) && l in s.links
    ensures Play(start, h.pre).Some? && CutOf(start, h).Valid() && Total(CutOf(start, h)) < U64
    ensures l in CutOf(start, h).transit && Fits(ViewOf(s, l), s.round, CutOf(start, h).transit[l])
  {
    hide CutInv;
    assert RunInv(s, start, h) && CutInv(s, CutOf(start, h));
    hide Play, Total;
    PlayConserves(start, h.pre);
    CutFits(s, CutOf(start, h), l);
  }

  lemma CutFits(s: Net, c: Bank, l: Link)
    requires CutInv(s, c) && l in s.links
    ensures l in c.transit && Fits(ViewOf(s, l), s.round, c.transit[l])
  {
  }

  lemma ChannelBound(b: Bank, l: Link)
    requires b.Valid() && l in b.transit
    ensures SeqSum(b.transit[l]) <= Total(b)
  {
    var m := Ledger(b);
    assert m[InTransit(l)] == SeqSum(b.transit[l]);
    hide Sum, Ledger;
    SumBounds(m, InTransit(l));
  }

  /** What is recorded, and the transfer about to be, belong to the cut's channel. */
  lemma FittingRecording(v: LinkView, round: nat, inCut: seq<nat>)
    requires Fits(v, round, inCut) && v.queue != [] && v.queue[0].Transfer?
    requires v.recording.Some? && v.recording.value.Recording?
    ensures v.recording.value.transferred + v.queue[0].amount <= SeqSum(inCut)
  {
  }

  /** Totals bound everything that is credited or recorded. */
  lemma NoOverflow(s: Net, start: Bank, h: History, l: Link)
    requires Inv(s, start, h) && l in s.links
    requires s.links[l] != [] && s.links[l][0].Transfer?
    ensures HasRoom(s, l)
  {
    CreditFits(s, start, h, l);
    RecordingFits(s, start, h, l);
  }

  // ----- every event keeps the invariant -----

  /** A new move is played after 'post' if its branch has recorded, and else can be played before it. */
  lemma SortMove(s: Net, start: Bank, h: History, m: Move)
    requires RunInv(s, start, h) && CanMove(MoneyIn(s), m)
    requires !Recorded(s, Actor(m)) ==> CanMove(CutOf(start, h), m)
    ensures Play(start, Sorted(s, h, m).all) == Some(DoMove(MoneyIn(s), m))
    ensures Play(start, Sorted(s, h, m).pre) ==
            Some(if Recorded(s, Actor(m)) then CutOf(start, h) else DoMove(CutOf(start, h), m))
    ensures Play(CutOf(start, Sorted(s, h, m)), Sorted(s, h, m).post) == Some(DoMove(MoneyIn(s), m))
    ensures forall k :: 0 <= k < |Sorted(s, h, m).post| ==> Recorded(s, Actor(Sorted(s, h, m).post[k]))
  {
    var c := CutOf(start, h);
    PlayAppend(start, h.all, m);
    if Recorded(s, Actor(m)) {
      PlayAppend(c, h.post, m);
    } else {
      PlayAppend(start, h.pre, m);
      MoveToFront(c, h.post, m);
    }
  }

  /** The cut after a move: a branch that has recorded no longer changes it. */
  function CutAfter(s: Net, c: Bank, m: Move): Bank
    requires !Recorded(s, Actor(m)) ==> CanMove(c, m)
  {
    if Recorded(s, Actor(m)) then c else DoMove(c, m)
  }

  /** A link's view depends on the snapshots at its ends, the round and its queue alone. */
  lemma SameView(s: Net, s': Net, k: Link)
    requires k in s.links && k in s'.links && k.src < |s.branches| && k.dst < |s.branches|
    requires |s'.branches| == |s.branches| && s'.round == s.round
    requires s'.branches[k.src].snapshot == s.branches[k.src].snapshot
    requires s'.branches[k.dst].snapshot == s.branches[k.dst].snapshot
    ensures ViewOf(s', k) == ViewOf(s, k).(queue := s'.links[k])
  {
  }

  lemma PayOnAccount(s: Net, l: Link, a: nat, i: nat)
    requires s.Valid() && Enabled(s, SendMoney(l, a)) && i < |s.branches|
    ensures Step(s, SendMoney(l, a)).branches[i].snapshot == s.branches[i].snapshot
    ensures CutMoney(Step(s, SendMoney(l, a)), i) ==
            CutMoney(s, i) - if i == l.src && !Recorded(s, i) then a else 0
  {
  }

  lemma PayFromCut(s: Net, l: Link, a: nat, c: Bank)
    requires CutInv(s, c) && Enabled(s, SendMoney(l, a)) && !Recorded(s, l.src)
    ensures CanMove(c, Pay(l, a))
  {
    assert c.money[l.src] == CutMoney(s, l.src);
  }

  lemma PayAccounts(s: Net, l: Link, a: nat, c: Bank)
    requires WellFormed(s) && Enabled(s, SendMoney(l, a))
    requires |c.money| == |s.branches| && AccountsFit(s, c)
    requires !Recorded(s, l.src) ==> CanMove(c, Pay(l, a))
    ensures WellFormed(Step(s, SendMoney(l, a)))
    ensures AccountsFit(Step(s, SendMoney(l, a)), CutAfter(s, c, Pay(l, a)))
  {
    var s', c' := Step(s, SendMoney(l, a)), CutAfter(s, c, Pay(l, a));
    forall i | 0 <= i < |s.branches|
      ensures SnapshotFits(s'.branches[i], Mesh.PeersOf(|s.branches|, i), s.round)
      ensures c'.money[i] == CutMoney(s', i)
    {
      assert SnapshotFits(s.branches[i], Mesh.PeersOf(|s.branches|, i), s.round);
      assert c.money[i] == CutMoney(s, i);
      PayOnAccount(s, l, a, i);
    }
  }

  lemma PayOnLink(s: Net, l: Link, a: nat, c: Bank, k: Link)
    requires s.Valid() && Enabled(s, SendMoney(l, a)) && k in s.links
    requires k in c.transit && Fits(ViewOf(s, k), s.round, c.transit[k])
    requires !Recorded(s, l.src) ==> CanMove(c, Pay(l, a))
    ensures Fits(ViewOf(Step(s, SendMoney(l, a)), k), s.round, CutAfter(s, c, Pay(l, a)).transit[k])
  {
    var s', c' := Step(s, SendMoney(l, a)), CutAfter(s, c, Pay(l, a));
    var v, x := ViewOf(s, k), c.transit[k];
    SameView(s, s', k);
    if k == l {
      TransferSent(v, s.round, x, a);
      assert ViewOf(s', k) == v.(queue := v.queue + [Transfer(a)]);
      assert c'.transit[k] == if v.sent then x else x + [a];
    } else {
      assert ViewOf(s', k) == v && c'.transit[k] == x;
    }
  }

  lemma PayLinks(s: Net, l: Link, a: nat, c: Bank)
    requires s.Valid() && Enabled(s, SendMoney(l, a))
    requires c.transit.Keys == s.links.Keys && LinksFit(s, c)
    requires !Recorded(s, l.src) ==> CanMove(c, Pay(l, a))
    ensures LinksFit(Step(s, SendMoney(l, a)), CutAfter(s, c, Pay(l, a)))
  {
    var s', c' := Step(s, SendMoney(l, a)), CutAfter(s, c, Pay(l, a));
    assert c'.transit.Keys == c.transit.Keys;
    hide Step, Enabled, ViewOf, Fits, CutAfter, CanMove, Recorded;
    StepShape(s, SendMoney(l, a));
    forall k | k in s.links
      ensures Fits(ViewOf(s', k), s.round, c'.transit[k])
    {
      PayOnLink(s, l, a, c, k);
    }
  }

  lemma PayInCut(s: Net, l: Link, a: nat, c: Bank)
    requires CutInv(s, c) && Enabled(s, SendMoney(l, a))
    ensures !Recorded(s, l.src) ==> CanMove(c, Pay(l, a))
    ensures CutInv(Step(s, SendMoney(l, a)), CutAfter(s, c, Pay(l, a)))
  {
    if !Recorded(s, l.src) {
      PayFromCut(s, l, a, c);
    }
    var s', c' := Step(s, SendMoney(l, a)), CutAfter(s, c, Pay(l, a));
    assert c'.Valid() && |c'.money| == |s'.branches|;
    assert WellFormed(s') && AccountsFit(s', c') by {
      PayAccounts(s, l, a, c);
    }
    assert LinksFit(s', c') by {
      PayLinks(s, l, a, c);
    }
  }

  lemma TakeOnAccount(s: Net, l: Link, i: nat)
    requires s.Valid() && Enabled(s, Deliver(l)) && s.links[l][0].Transfer? && i < |s.branches|
    requires HasRoom(s, l)
    requires SnapshotFits(s.branches[i], Mesh.PeersOf(|s.branches|, i), s.round)
    ensures SnapshotFits(Step(s, Deliver(l)).branches[i], Mesh.PeersOf(|s.branches|, i), s.round)
    ensures CutMoney(Step(s, Deliver(l)), i) ==
            CutMoney(s, i) + if i == l.dst && !Recorded(s, i) then s.links[l][0].amount else 0
  {
    if i == l.dst {
      TakeKeepsSnapshot(s.branches[i], l.src, s.links[l][0].amount);
    }
  }

  /** What a branch that has not recorded takes next is what its channel of the cut holds next. */
  lemma TakeFromCut(s: Net, l: Link, c: Bank)
    requires CutInv(s, c) && Enabled(s, Deliver(l)) && s.links[l][0].Transfer? && !Recorded(s, l.dst)
    ensures CanMove(c, Take(l)) && c.transit[l][0] == s.links[l][0].amount
  {
    assert Fits(ViewOf(s, l), s.round, c.transit[l]);
    TransferReceived(ViewOf(s, l), s.round, c.transit[l]);
  }

  lemma TakeAccounts(s: Net, l: Link, c: Bank)
    requires WellFormed(s) && Enabled(s, Deliver(l)) && s.links[l][0].Transfer? && HasRoom(s, l)
    requires |c.money| == |s.branches| && AccountsFit(s, c)
    requires !Recorded(s, l.dst) ==> CanMove(c, Take(l)) && c.transit[l][0] == s.links[l][0].amount
    ensures WellFormed(Step(s, Deliver(l)))
    ensures AccountsFit(Step(s, Deliver(l)), CutAfter(s, c, Take(l)))
  {
    var s', c' := Step(s, Deliver(l)), CutAfter(s, c, Take(l));
    forall i | 0 <= i < |s.branches|
      ensures SnapshotFits(s'.branches[i], Mesh.PeersOf(|s.branches|, i), s.round)
      ensures c'.money[i] == CutMoney(s', i)
    {
      assert SnapshotFits(s.branches[i], Mesh.PeersOf(|s.branches|, i), s.round);
      assert c.money[i] == CutMoney(s, i);
      TakeOnAccount(s, l, i);
    }
  }

  /** A transfer changes at most one channel state of the snapshot held. */
  lemma TakeKeepsSnapshot(b: BranchState, from: Name, amount: nat)
    ensures OnTransfer(b, from, amount).snapshot.Some? <==> b.snapshot.Some?
    ensures b.snapshot.Some? ==>
      var t, t' := b.snapshot.value, OnTransfer(b, from, amount).snapshot.value;
      t'.id == t.id && t'.balance == t.balance && t'.states.Keys == t.states.Keys
  {
  }

  lemma TakeOnLink(s: Net, l: Link, c: Bank, k: Link)
    requires WellFormed(s) && Enabled(s, Deliver(l)) && s.links[l][0].Transfer? && k in s.links
    requires HasRoom(s, l)
    requires k in c.transit && Fits(ViewOf(s, k), s.round, c.transit[k])
    requires !Recorded(s, l.dst) ==> CanMove(c, Take(l))
    ensures Fits(ViewOf(Step(s, Deliver(l)), k), s.round, CutAfter(s, c, Take(l)).transit[k])
  {
    var s', c' := Step(s, Deliver(l)), CutAfter(s, c, Take(l));
    var v, x := ViewOf(s, k), c.transit[k];
    TakeView(s, l, k);
    if k == l {
      assert v.recording.None? <==> !Recorded(s, l.dst);
      TransferReceived(v, s.round, x);
      assert c'.transit[k] == if v.recording.None? then x[1..] else x;
    } else {
      assert ViewOf(s', k) == v && c'.transit[k] == x;
    }
  }

  lemma TakeLinks(s: Net, l: Link, c: Bank)
    requires WellFormed(s) && Enabled(s, Deliver(l)) && s.links[l][0].Transfer? && HasRoom(s, l)
    requires c.transit.Keys == s.links.Keys && LinksFit(s, c)
    requires !Recorded(s, l.dst) ==> CanMove(c, Take(l))
    ensures LinksFit(Step(s, Deliver(l)), CutAfter(s, c, Take(l)))
  {
    var s', c' := Step(s, Deliver(l)), CutAfter(s, c, Take(l));
    assert c'.transit.Keys == c.transit.Keys && s.links[l] != [];
    hide Step, Enabled, WellFormed, ViewOf, Fits, CutAfter, HasRoom, CanMove, Recorded;
    StepShape(s, Deliver(l));
    forall k | k in s.links
      ensures Fits(ViewOf(s', k), s.round, c'.transit[k])
    {
      TakeOnLink(s, l, c, k);
    }
  }

  lemma TakeInCut(s: Net, l: Link, c: Bank)
    requires CutInv(s, c) && Enabled(s, Deliver(l)) && s.links[l][0].Transfer? && HasRoom(s, l)
    ensures !Recorded(s, l.dst) ==> CanMove(c, Take(l))
    ensures CutInv(Step(s, Deliver(l)), CutAfter(s, c, Take(l)))
  {
    if !Recorded(s, l.dst) {
      TakeFromCut(s, l, c);
    }
    var s', c' := Step(s, Deliver(l)), CutAfter(s, c, Take(l));
    assert c'.Valid() && |c'.money| == |s'.branches|;
    assert WellFormed(s') && AccountsFit(s', c') by {
      TakeAccounts(s, l, c);
    }
    assert LinksFit(s', c') by {
      TakeLinks(s, l, c);
    }
  }

  /** Delivering a transfer shows on its own link only. */
  lemma TakeView(s: Net, l: Link, k: Link)
    requires WellFormed(s) && Enabled(s, Deliver(l)) && s.links[l][0].Transfer? && k in s.links
    requires HasRoom(s, l)
    ensures ViewOf(Step(s, Deliver(l)), k) ==
            if k == l
            then LinkView(Recorded(s, l.src), Received(RecordingOf(s, l), s.links[l][0].amount), s.links[l][1..])
            else ViewOf(s, k)
  {
    var s' := Step(s, Deliver(l));
    if k.dst != l.dst {
      if k.src != l.dst {
        SameView(s, s', k);
      }
    } else {
      assert Recorded(s', k.dst) == Recorded(s, k.dst);
    }
  }

  /** The marker that arrives is this round's, and it starts a snapshot where there is none yet. */
  lemma MarkerIsCurrent(s: Net, l: Link, c: Bank)
    requires CutInv(s, c) && Enabled(s, Deliver(l)) && s.links[l][0].Marker?
    ensures s.links[l][0].id == s.round && Recorded(s, l.src) && !IsClosed(ViewOf(s, l))
    ensures StartsSnapshot(s.branches[l.dst], s.round) <==> !Recorded(s, l.dst)
  {
    assert Fits(ViewOf(s, l), s.round, c.transit[l]);
    MarkerReceived(ViewOf(s, l), s.round, c.transit[l]);
  }

  function AfterMarker(b: BranchState, started: bool, p: Name, from: Name): ChannelState
    requires !started ==> b.snapshot.Some? && p in b.snapshot.value.states
  {
    var before := if started then Recording(0) else b.snapshot.value.states[p];
    if p == from then Completed(before.transferred) else before
  }

  /** The receiver's branch after this round's marker arrives on l. */
  lemma MarkerOnBranch(b: BranchState, from: Name, round: nat, peers: set<Name>)
    requires SnapshotFits(b, peers, round) && from in peers && 0 < round
    ensures var b', started := OnMarker(b, from, round, peers), StartsSnapshot(b, round);
            && SnapshotFits(b', peers, round) && b'.snapshot.Some? && b'.snapshot.value.id == round
            && b'.money == b.money
            && b'.snapshot.value.balance == (if started then b.money else b.snapshot.value.balance)
            && (forall p :: p in peers ==>
                  b'.snapshot.value.states[p] == AfterMarker(b, started, p, from))
  {
  }

  /** What is needed to know of a marker about to be delivered. */
  ghost predicate CurrentMarker(s: Net, l: Link) {
    && s.Valid() && Enabled(s, Deliver(l)) && s.links[l][0] == Marker(s.round) && 0 < s.round
    && SnapshotFits(s.branches[l.dst], Mesh.PeersOf(|s.branches|, l.dst), s.round)
  }

  lemma MarkerIsFit(s: Net, l: Link, c: Bank)
    requires CutInv(s, c) && Enabled(s, Deliver(l)) && s.links[l][0].Marker?
    ensures CurrentMarker(s, l) && Recorded(s, l.src)
  {
    MarkerIsCurrent(s, l, c);
    assert SnapshotFits(s.branches[l.src], Mesh.PeersOf(|s.branches|, l.src), s.round);
    assert SnapshotFits(s.branches[l.dst], Mesh.PeersOf(|s.branches|, l.dst), s.round);
  }

  lemma MarkerOnAccount(s: Net, l: Link, i: nat)
    requires CurrentMarker(s, l) && i < |s.branches|
    requires SnapshotFits(s.branches[i], Mesh.PeersOf(|s.branches|, i), s.round)
    ensures SnapshotFits(Step(s, Deliver(l)).branches[i], Mesh.PeersOf(|s.branches|, i), s.round)
    ensures CutMoney(Step(s, Deliver(l)), i) == CutMoney(s, i)
    ensures Recorded(Step(s, Deliver(l)), i) <==> Recorded(s, i) || i == l.dst
  {
    if i == l.dst {
      MarkerOnBranch(s.branches[i], l.src, s.round, Mesh.PeersOf(|s.branches|, i));
    }
  }

  lemma MarkerAccounts(s: Net, l: Link, c: Bank)
    requires WellFormed(s) && CurrentMarker(s, l)
    requires |c.money| == |s.branches| && AccountsFit(s, c)
    ensures WellFormed(Step(s, Deliver(l)))
    ensures AccountsFit(Step(s, Deliver(l)), c)
    ensures forall i :: 0 <= i < |s.branches| ==> (Recorded(Step(s, Deliver(l)), i) <==> Recorded(s, i) || i == l.dst)
  {
    var s' := Step(s, Deliver(l));
    forall i | 0 <= i < |s.branches|
      ensures SnapshotFits(s'.branches[i], Mesh.PeersOf(|s.branches|, i), s.round)
      ensures c.money[i] == CutMoney(s', i)
      ensures Recorded(s', i) <==> Recorded(s, i) || i == l.dst
    {
      assert SnapshotFits(s.branches[i], Mesh.PeersOf(|s.branches|, i), s.round);
      assert c.money[i] == CutMoney(s, i);
      MarkerOnAccount(s, l, i);
    }
  }

  /** The queues after a marker arrives on l. */
  lemma MarkerOnQueue(s: Net, l: Link, k: Link)
    requires CurrentMarker(s, l) && k in s.links
    ensures var q := if k == l then s.links[k][1..] else s.links[k];
            Step(s, Deliver(l)).links[k] == if k.src == l.dst && !Recorded(s, l.dst) then q + [Marker(s.round)] else q
  {
  }

  function Closing(v: LinkView): LinkView
    requires v.queue != []
  {
    LinkView(v.sent, Some(Completed(if v.recording.None? then 0 else v.recording.value.transferred)), v.queue[1..])
  }

  lemma MarkerViewReceiver(s: Net, l: Link, k: Link)
    requires CurrentMarker(s, l) && k in s.links && k.dst == l.dst
    ensures ViewOf(Step(s, Deliver(l)), k) ==
            if k == l then Closing(ViewOf(s, k))
            else if Recorded(s, l.dst) then ViewOf(s, k)
            else ViewOf(s, k).(recording := Some(Recording(0)))
  {
    MarkerOnQueue(s, l, k);
    MarkerOnBranch(s.branches[l.dst], l.src, s.round, Mesh.PeersOf(|s.branches|, l.dst));
    var s' := Step(s, Deliver(l));
    assert Recorded(s', k.src) == Recorded(s, k.src);
    assert Recorded(s', l.dst);
    assert RecordingOf(s', k) ==
           Some(AfterMarker(s.branches[l.dst], StartsSnapshot(s.branches[l.dst], s.round), k.src, l.src));
  }

  lemma MarkerViewElsewhere(s: Net, l: Link, k: Link)
    requires CurrentMarker(s, l) && k in s.links && k.dst != l.dst
    ensures ViewOf(Step(s, Deliver(l)), k) ==
            if k.src == l.dst && !Recorded(s, l.dst)
            then LinkView(true, RecordingOf(s, k), s.links[k] + [Marker(s.round)])
            else ViewOf(s, k)
  {
    MarkerOnQueue(s, l, k);
    MarkerOnBranch(s.branches[l.dst], l.src, s.round, Mesh.PeersOf(|s.branches|, l.dst));
    var s' := Step(s, Deliver(l));
    assert RecordingOf(s', k) == RecordingOf(s, k);
  }

  lemma MarkerOnLink(s: Net, l: Link, k: Link, inCut: seq<nat>)
    requires CurrentMarker(s, l) && k in s.links && Fits(ViewOf(s, k), s.round, inCut)
    ensures Fits(ViewOf(Step(s, Deliver(l)), k), s.round, inCut)
  {
    var v := ViewOf(s, k);
    if k.dst == l.dst {
      MarkerViewReceiver(s, l, k);
      if k == l {
        MarkerReceived(v, s.round, inCut);
      } else if !Recorded(s, l.dst) {
        ReceiverRecords(v, s.round, inCut);
      }
    } else {
      MarkerViewElsewhere(s, l, k);
      if k.src == l.dst && !Recorded(s, l.dst) {
        SenderRecords(v, s.round, inCut);
      }
    }
  }

  lemma MarkerLinks(s: Net, l: Link, c: Bank)
    requires CurrentMarker(s, l) && c.transit.Keys == s.links.Keys && LinksFit(s, c)
    ensures LinksFit(Step(s, Deliver(l)), c)
  {
    var s' := Step(s, Deliver(l));
    assert Enabled(s, Deliver(l));
    hide Step, Enabled, ViewOf, Fits, CurrentMarker;
    StepShape(s, Deliver(l));
    forall k | k in s.links
      ensures Fits(ViewOf(s', k), s.round, c.transit[k])
    {
      MarkerOnLink(s, l, k, c.transit[k]);
    }
  }

  lemma MarkerInCut(s: Net, l: Link, c: Bank)
    requires CutInv(s, c) && Enabled(s, Deliver(l)) && s.links[l][0].Marker?
    ensures CutInv(Step(s, Deliver(l)), c)
    ensures forall i :: 0 <= i < |s.branches| ==> (Recorded(Step(s, Deliver(l)), i) <==> Recorded(s, i) || i == l.dst)
  {
    var s' := Step(s, Deliver(l));
    MarkerIsFit(s, l, c);
    MarkerAccounts(s, l, c);
    assert LinksFit(s', c) by {
      MarkerLinks(s, l, c);
    }
  }

  // ----- a new round -----

  lemma RoundStartsQuiet(s: Net, c: Bank, l: Link)
    requires CutInv(s, c) && RoundOver(s) && l in s.links
    ensures MarkerIds(s.links[l]) == []
  {
    if s.round == 0 {
      assert SnapshotFits(s.branches[l.src], Mesh.PeersOf(|s.branches|, l.src), s.round);
      assert Fits(ViewOf(s, l), s.round, c.transit[l]);
    }
  }

  lemma InitAccounts(s: Net, p: nat)
    requires WellFormed(s) && Enabled(s, InitSnapshot(p))
    ensures WellFormed(Step(s, InitSnapshot(p)))
    ensures AccountsFit(Step(s, InitSnapshot(p)), MoneyIn(s))
    ensures forall i :: 0 <= i < |s.branches| ==> (Recorded(Step(s, InitSnapshot(p)), i) <==> i == p)
  {
    var s' := Step(s, InitSnapshot(p));
    forall i | 0 <= i < |s.branches|
      ensures SnapshotFits(s'.branches[i], Mesh.PeersOf(|s.branches|, i), s'.round)
      ensures MoneyIn(s).money[i] == CutMoney(s', i)
      ensures Recorded(s', i) <==> i == p
    {
      assert SnapshotFits(s.branches[i], Mesh.PeersOf(|s.branches|, i), s.round);
    }
  }

  lemma InitView(s: Net, p: nat, k: Link)
    requires s.Valid() && Enabled(s, InitSnapshot(p)) && k in s.links
    requires SnapshotFits(s.branches[k.src], Mesh.PeersOf(|s.branches|, k.src), s.round)
    requires SnapshotFits(s.branches[k.dst], Mesh.PeersOf(|s.branches|, k.dst), s.round)
    ensures ViewOf(Step(s, InitSnapshot(p)), k) ==
            LinkView(k.src == p,
                     if k.dst == p then Some(Recording(0)) else None,
                     if k.src == p then s.links[k] + [Marker(s.round + 1)] else s.links[k])
  {
    var s' := Step(s, InitSnapshot(p));
    assert Recorded(s', k.src) <==> k.src == p;
    assert Recorded(s', k.dst) <==> k.dst == p;
  }

  lemma InitOnLink(s: Net, p: nat, k: Link)
    requires WellFormed(s) && Enabled(s, InitSnapshot(p)) && k in s.links && MarkerIds(s.links[k]) == []
    ensures Fits(ViewOf(Step(s, InitSnapshot(p)), k), s.round + 1, Amounts(s.links[k]))
  {
    var q, round := s.links[k], s.round + 1;
    assert SnapshotFits(s.branches[k.src], Mesh.PeersOf(|s.branches|, k.src), s.round);
    assert SnapshotFits(s.branches[k.dst], Mesh.PeersOf(|s.branches|, k.dst), s.round);
    InitView(s, p, k);
    NewRound(q, round);
    if k.src == p {
      SenderRecords(LinkView(false, None, q), round, Amounts(q));
    } else if k.dst == p {
      ReceiverRecords(LinkView(false, None, q), round, Amounts(q));
    }
  }

  lemma InitLinks(s: Net, p: nat, c: Bank)
    requires WellFormed(s) && Enabled(s, InitSnapshot(p))
    requires forall k :: k in s.links ==> MarkerIds(s.links[k]) == []
    requires c.transit.Keys == s.links.Keys && forall k :: k in s.links ==> c.transit[k] == Amounts(s.links[k])
    ensures LinksFit(Step(s, InitSnapshot(p)), c)
  {
    var s' := Step(s, InitSnapshot(p));
    hide Step, Enabled, WellFormed, ViewOf, Fits, MarkerIds, Amounts;
    StepShape(s, InitSnapshot(p));
    forall k | k in s'.links
      ensures Fits(ViewOf(s', k), s'.round, c.transit[k])
    {
      InitOnLink(s, p, k);
    }
  }

  lemma InitInCut(s: Net, p: nat, c: Bank)
    requires CutInv(s, c) && Enabled(s, InitSnapshot(p))
    ensures CutInv(Step(s, InitSnapshot(p)), MoneyIn(s))
  {
    var s' := Step(s, InitSnapshot(p));
    assert WellFormed(s') && AccountsFit(s', MoneyIn(s)) by {
      InitAccounts(s, p);
    }
    assert LinksFit(s', MoneyIn(s)) by {
      forall k | k in s.links
        ensures MarkerIds(s.links[k]) == []
      {
        RoundStartsQuiet(s, c, k);
      }
      InitLinks(s, p, MoneyIn(s));
    }
  }

  // ----- runs -----

  lemma StepKeeps(s: Net, e: Event, start: Bank, h: History)
    requires Inv(s, start, h) && Enabled(s, e)
    ensures Inv(Step(s, e), start, Advance(h, s, e))
  {
    match e
    case SendMoney(l, a) => PayKeeps(s, l, a, start, h);
    case InitSnapshot(p) => InitKeeps(s, p, start, h);
    case Deliver(l) =>
      if s.links[l][0].Transfer? {
        TakeKeeps(s, l, start, h);
      } else {
        MarkerKeeps(s, l, start, h);
      }
  }

  /** The run part of the invariant after a move, given that no branch forgets its recording. */
  lemma RunExtends(s: Net, s': Net, start: Bank, h: History, m: Move)
    requires RunInv(s, start, h) && CanMove(MoneyIn(s), m) && MoneyIn(s') == DoMove(MoneyIn(s), m)
    requires !Recorded(s, Actor(m)) ==> CanMove(CutOf(start, h), m)
    requires forall i :: 0 <= i < |s.branches| ==> Recorded(s', i) == Recorded(s, i)
    ensures RunInv(s', start, Sorted(s, h, m))
    ensures CutOf(start, Sorted(s, h, m)) == CutAfter(s, CutOf(start, h), m)
  {
    SortMove(s, start, h, m);
  }

  lemma PayKeepsRecorded(s: Net, l: Link, a: nat)
    requires s.Valid() && Enabled(s, SendMoney(l, a))
    ensures forall i :: 0 <= i < |s.branches| ==> Recorded(Step(s, SendMoney(l, a)), i) == Recorded(s, i)
  {
  }

  lemma TakeKeepsRecorded(s: Net, l: Link)
    requires s.Valid() && Enabled(s, Deliver(l)) && s.links[l][0].Transfer?
    ensures forall i :: 0 <= i < |s.branches| ==> Recorded(Step(s, Deliver(l)), i) == Recorded(s, i)
  {
    TakeKeepsSnapshot(s.branches[l.dst], l.src, s.links[l][0].amount);
  }

  lemma PayKeeps(s: Net, l: Link, a: nat, start: Bank, h: History)
    requires Inv(s, start, h) && Enabled(s, SendMoney(l, a))
    ensures Inv(Step(s, SendMoney(l, a)), start, Sorted(s, h, Pay(l, a)))
  {
    var s', m := Step(s, SendMoney(l, a)), Pay(l, a);
    PayInCut(s, l, a, CutOf(start, h));
    assert RunInv(s', start, Sorted(s, h, m)) && CutOf(start, Sorted(s, h, m)) == CutAfter(s, CutOf(start, h), m) by {
      PayStep(s, l, a);
      PayKeepsRecorded(s, l, a);
      RunExtends(s, s', start, h, m);
    }
  }

  lemma TakeKeeps(s: Net, l: Link, start: Bank, h: History)
    requires Inv(s, start, h) && Enabled(s, Deliver(l)) && s.links[l][0].Transfer?
    ensures Inv(Step(s, Deliver(l)), start, Sorted(s, h, Take(l)))
  {
    var s', m := Step(s, Deliver(l)), Take(l);
    NoOverflow(s, start, h, l);
    TakeInCut(s, l, CutOf(start, h));
    assert RunInv(s', start, Sorted(s, h, m)) && CutOf(start, Sorted(s, h, m)) == CutAfter(s, CutOf(start, h), m) by {
      TakeStep(s, l);
      TakeKeepsRecorded(s, l);
      RunExtends(s, s', start, h, m);
    }
  }

  lemma MarkerKeeps(s: Net, l: Link, start: Bank, h: History)
    requires Inv(s, start, h) && Enabled(s, Deliver(l)) && s.links[l][0].Marker?
    ensures Inv(Step(s, Deliver(l)), start, h)
  {
    MarkerStep(s, l);
    MarkerInCut(s, l, CutOf(start, h));
  }

  lemma InitKeeps(s: Net, p: nat, start: Bank, h: History)
    requires Inv(s, start, h) && Enabled(s, InitSnapshot(p))
    ensures Inv(Step(s, InitSnapshot(p)), start, History(h.all, h.all, []))
  {
    InitStep(s, p);
    InitInCut(s, p, CutOf(start, h));
  }

  lemma InitialInv(n: nat, share: nat)
    requires n * share < U64
    ensures Inv(Initial(n, share), Start(n, share), History([], [], []))
  {
    var s, b := Initial(n, share), Start(n, share);
    StartTotal(n, share);
    assert MoneyIn(s).money == b.money;
    assert MoneyIn(s).transit == b.transit;
  }

  /** Every schedule keeps the invariant. */
  lemma {:induction false} RunKeeps(n: nat, share: nat, es: seq<Event>)
    requires n * share < U64 && Run(Initial(n, share), es).Some?
    ensures Inv(Run(Initial(n, share), es).value, Start(n, share), HistoryOf(Initial(n, share), es))
    decreases |es|
  {
    if es == [] {
      InitialInv(n, share);
    } else {
      var front := es[..|es| - 1];
      RunKeeps(n, share, front);
      StepKeeps(Run(Initial(n, share), front).value, es[|es| - 1], Start(n, share), HistoryOf(Initial(n, share), front));
    }
  }
}
