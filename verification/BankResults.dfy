/** What every schedule of the bank guarantees. */
module SnapshotResults {
  import opened Wrappers
  import opened Sums
  import opened Transfers
  import opened Snapshots
  import opened Branches
  import opened Network
  import opened ChannelCut
  import opened Cut
  import Mesh

  /** Every branch holds the snapshot 'id' and has closed all its channels. */
  predicate SnapshotDone(s: Net, id: nat) {
    forall i :: 0 <= i < |s.branches| ==>
      && s.branches[i].snapshot.Some? && s.branches[i].snapshot.value.id == id
      && AllCompleted(s.branches[i].snapshot.value)
  }

  /** What the snapshots of a network report, slot by slot. */
  function Reported(s: Net, x: Slot): nat {
    match x
    case Account(i) =>
      if i < |s.branches| && s.branches[i].snapshot.Some? then s.branches[i].snapshot.value.balance else 0
    case InTransit(l) =>
      if l.dst < |s.branches| && s.branches[l.dst].snapshot.Some? && l.src in s.branches[l.dst].snapshot.value.states
      then s.branches[l.dst].snapshot.value.states[l.src].transferred else 0
  }

  function Report(s: Net): map<Slot, nat> {
    map x | x in Slots(|s.branches|) :: Reported(s, x)
  }

  // ----- conservation -----

  /** At every reachable state balances plus transfers under way add up to what the controller dealt
      out, and so no credit and no recording wraps around. */
  lemma MoneyConserved(n: nat, share: nat, es: seq<Event>)
    requires n * share < U64 && Run(Initial(n, share), es).Some?
    ensures var s := Run(Initial(n, share), es).value;
            && MoneyIn(s).Valid() && Total(MoneyIn(s)) == n * share
            && forall l :: l in s.links && s.links[l] != [] && s.links[l][0].Transfer? ==>
                 l.dst < |s.branches| && HasRoom(s, l)
  {
    RunKeeps(n, share, es);
    var s, h := Run(Initial(n, share), es).value, HistoryOf(Initial(n, share), es);
    StartTotal(n, share);
    PlayConserves(Start(n, share), h.all);
    forall l | l in s.links && s.links[l] != [] && s.links[l][0].Transfer?
      ensures l.dst < |s.branches| && HasRoom(s, l)
    {
      NoOverflow(s, Start(n, share), h, l);
    }
  }

  /** The even split of a 64-bit balance never exceeds it. */
  lemma ShareFits(balance: nat, n: nat)
    requires n > 0 && balance < U64
    ensures n * (balance / n) < U64
  {
  }

  // ----- the snapshot is a state the bank could have passed through -----

  /** The moves of one branch, in order. */
  function ByBranch(ms: seq<Move>, p: nat): seq<Move> {
    if ms == [] then []
    else ByBranch(ms[..|ms| - 1], p) + if Actor(ms[|ms| - 1]) == p then [ms[|ms| - 1]] else []
  }

  lemma ByBranchAppend(ms: seq<Move>, m: Move, p: nat)
    ensures ByBranch(ms + [m], p) == ByBranch(ms, p) + if Actor(m) == p then [m] else []
  {
    assert (ms + [m])[..|ms|] == ms;
  }

  lemma {:induction false} ByBranchConcat(xs: seq<Move>, ys: seq<Move>, p: nat)
    ensures ByBranch(xs + ys, p) == ByBranch(xs, p) + ByBranch(ys, p)
    decreases |ys|
  {
    if ys == [] {
      assert xs + ys == xs;
    } else {
      var front := ys[..|ys| - 1];
      assert (xs + ys)[..|xs + ys| - 1] == xs + front;
      ByBranchConcat(xs, front, p);
    }
  }

  lemma {:induction false} NoMovesOf(ms: seq<Move>, p: nat)
    requires forall k :: 0 <= k < |ms| ==> Actor(ms[k]) != p
    ensures ByBranch(ms, p) == []
    decreases |ms|
  {
    if ms != [] {
      NoMovesOf(ms[..|ms| - 1], p);
    }
  }

  lemma SortingOneMove(s: Net, h: History, m: Move, p: nat)
    requires ByBranch(h.pre + h.post, p) == ByBranch(h.all, p)
    requires !Recorded(s, Actor(m)) ==> forall k :: 0 <= k < |h.post| ==> Actor(h.post[k]) != Actor(m)
    ensures ByBranch(Sorted(s, h, m).pre + Sorted(s, h, m).post, p) == ByBranch(h.all + [m], p)
  {
    ByBranchAppend(h.all, m, p);
    if Recorded(s, Actor(m)) {
      ByBranchAppend(h.pre + h.post, m, p);
      assert h.pre + (h.post + [m]) == h.pre + h.post + [m];
    } else {
      NoMovesOf(h.post, Actor(m));
      ByBranchConcat(h.pre, h.post, p);
      ByBranchAppend(h.pre, m, p);
      ByBranchConcat(h.pre + [m], h.post, p);
      if p != Actor(m) {
        assert ByBranch(h.pre, p) + [] == ByBranch(h.pre, p);
      }
    }
  }

  /** Sorting the moves keeps the order of each branch's own moves. */
  lemma {:induction false} SortKeepsBranchOrder(n: nat, share: nat, es: seq<Event>, p: nat)
    requires n * share < U64 && Run(Initial(n, share), es).Some?
    ensures HistoryOf(Initial(n, share), es).all == MovesOf(Initial(n, share), es)
    ensures var h := HistoryOf(Initial(n, share), es); ByBranch(h.pre + h.post, p) == ByBranch(h.all, p)
    decreases |es|
  {
    if es != [] {
      var s0, front, e := Initial(n, share), es[..|es| - 1], es[|es| - 1];
      var t, g := Run(s0, front).value, HistoryOf(s0, front);
      SortKeepsBranchOrder(n, share, front, p);
      match MoveOf(t, e)
      case None =>
        assert g.all + [] == g.all;
      case Some(m) =>
        assert forall k :: 0 <= k < |g.post| ==> Recorded(t, Actor(g.post[k])) by {
          RunKeeps(n, share, front);
        }
        SortingOneMove(t, g, m, p);
    }
  }

  lemma DoneReportsAccount(s: Net, c: Bank, i: nat)
    requires CutInv(s, c) && SnapshotDone(s, s.round) && i < |s.branches|
    ensures Reported(s, Account(i)) == c.money[i]
  {
    assert c.money[i] == CutMoney(s, i);
  }

  lemma DoneReportsChannel(s: Net, c: Bank, l: Link)
    requires CutInv(s, c) && SnapshotDone(s, s.round) && l in s.links
    ensures IsClosed(ViewOf(s, l))
    ensures Reported(s, InTransit(l)) == SeqSum(c.transit[l])
  {
    assert SnapshotFits(s.branches[l.dst], Mesh.PeersOf(|s.branches|, l.dst), s.round);
    assert AllCompleted(s.branches[l.dst].snapshot.value);
    CutFits(s, c, l);
    hide CutInv, SnapshotDone, SeqSum;
  }

  /** The cut's ledger is what a finished snapshot reports. */
  lemma DoneReportsCut(s: Net, c: Bank)
    requires CutInv(s, c) && SnapshotDone(s, s.round)
    ensures Report(s) == Ledger(c)
  {
    forall x | x in Slots(|s.branches|)
      ensures Reported(s, x) == Held(c, x)
    {
      match x
      case Account(i) => DoneReportsAccount(s, c, i);
      case InTransit(l) => DoneReportsChannel(s, c, l);
    }
  }

  /** The moves made before event k of the run come first in this list. */
  ghost predicate MadeBefore(s0: Net, es: seq<Event>, k: nat, ms: seq<Move>) {
    k <= |es| && Run(s0, es[..k]).Some? && MovesOf(s0, es[..k]) <= ms
  }

  lemma {:induction false} HistoryHasAll(s0: Net, es: seq<Event>)
    requires Run(s0, es).Some?
    ensures HistoryOf(s0, es).all == MovesOf(s0, es)
    decreases |es|
  {
    if es != [] {
      HistoryHasAll(s0, es[..|es| - 1]);
    }
  }

  /** What was done before an event stays in front of what is done later. */
  lemma {:induction false} MovesGrow(s0: Net, es: seq<Event>, k: nat)
    requires Run(s0, es).Some? && k <= |es|
    ensures MadeBefore(s0, es, k, MovesOf(s0, es))
    decreases |es|
  {
    if k == |es| {
      assert es[..k] == es;
    } else {
      assert es[..|es| - 1][..k] == es[..k];
      MovesGrow(s0, es[..|es| - 1], k);
    }
  }

  /** The front part only grows, and a new round puts all that was done there. */
  lemma HistoryGrows(s0: Net, es: seq<Event>)
    requires Run(s0, es).Some? && es != []
    ensures Run(s0, es[..|es| - 1]).Some?
    ensures var h, g := HistoryOf(s0, es[..|es| - 1]), HistoryOf(s0, es);
            if es[|es| - 1].InitSnapshot? then g.pre == h.all else h.pre <= g.pre
  {
  }

  lemma StillMadeBefore(s0: Net, es: seq<Event>, k: nat, ms: seq<Move>, more: seq<Move>)
    requires es != [] && k < |es| && MadeBefore(s0, es[..|es| - 1], k, ms) && ms <= more
    ensures MadeBefore(s0, es, k, more)
  {
    hide Run, MovesOf;
    assert es[..|es| - 1][..k] == es[..k];
  }

  /** Everything done before a round began belongs to the part sorted to the front. */
  lemma {:induction false} RoundFollowsMoves(s0: Net, es: seq<Event>, k: nat)
    requires Run(s0, es).Some? && k < |es| && es[k].InitSnapshot?
    ensures MadeBefore(s0, es, k, HistoryOf(s0, es).pre)
    decreases |es|
  {
    var front := es[..|es| - 1];
    HistoryGrows(s0, es);
    hide HistoryOf, MovesOf, Run, MadeBefore;
    if es[|es| - 1].InitSnapshot? {
      HistoryHasAll(s0, front);
      MovesGrow(s0, front, k);
      StillMadeBefore(s0, es, k, MovesOf(s0, front), HistoryOf(s0, es).pre);
    } else {
      RoundFollowsMoves(s0, front, k);
      StillMadeBefore(s0, es, k, HistoryOf(s0, front).pre, HistoryOf(s0, es).pre);
    }
  }

  /** Chandy and Lamport's theorem. When a snapshot is done, what it reports is a state of the bank
      that lies between the beginning of the round and the present: the moves of the run can be
      re-ordered, each branch's own moves staying in order and those made before it recorded coming
      first, so that they pass through exactly that state. */
  lemma SnapshotIsReachable(n: nat, share: nat, es: seq<Event>)
    returns (pre: seq<Move>, post: seq<Move>, cut: Bank)
    requires n * share < U64 && Run(Initial(n, share), es).Some?
    requires var s := Run(Initial(n, share), es).value; SnapshotDone(s, s.round)
    ensures var s := Run(Initial(n, share), es).value;
            && cut.Valid() && Ledger(cut) == Report(s)
            && Play(Start(n, share), pre) == Some(cut)
            && Play(cut, post) == Some(MoneyIn(s))
            && Play(Start(n, share), MovesOf(Initial(n, share), es)) == Some(MoneyIn(s))
            && forall p :: ByBranch(pre + post, p) == ByBranch(MovesOf(Initial(n, share), es), p)
    ensures var h := HistoryOf(Initial(n, share), es); pre == h.pre && post == h.post
    ensures forall k :: 0 <= k < |es| && es[k].InitSnapshot? ==> MadeBefore(Initial(n, share), es, k, pre)
  {
    var s, h := Run(Initial(n, share), es).value, HistoryOf(Initial(n, share), es);
    RunKeeps(n, share, es);
    pre, post, cut := h.pre, h.post, CutOf(Start(n, share), h);
    DoneReportsCut(s, cut);
    forall p
      ensures h.all == MovesOf(Initial(n, share), es) && ByBranch(pre + post, p) == ByBranch(h.all, p)
    {
      SortKeepsBranchOrder(n, share, es, p);
    }
    SortKeepsBranchOrder(n, share, es, 0);
    forall k | 0 <= k < |es| && es[k].InitSnapshot?
      ensures MadeBefore(Initial(n, share), es, k, pre)
    {
      RoundFollowsMoves(Initial(n, share), es, k);
    }
  }

  /** When a snapshot is done its balances and in-transit amounts add up to the controller's total. */
  lemma SnapshotTotal(n: nat, balance: nat, es: seq<Event>)
    requires n > 0 && balance < U64 && Run(Initial(n, balance / n), es).Some?
    requires var s := Run(Initial(n, balance / n), es).value; SnapshotDone(s, s.round)
    ensures Sum(Report(Run(Initial(n, balance / n), es).value)) == n * (balance / n)
  {
    ShareFits(balance, n);
    hide Run, Initial, Report, Sum, SnapshotDone;
    ShareTotal(n, balance / n, es);
  }

  lemma ShareTotal(n: nat, share: nat, es: seq<Event>)
    requires n * share < U64 && Run(Initial(n, share), es).Some?
    requires var s := Run(Initial(n, share), es).value; SnapshotDone(s, s.round)
    ensures Sum(Report(Run(Initial(n, share), es).value)) == n * share
  {
    StartTotal(n, share);
    hide Run, Initial, Start, Report, Sum, Play, HistoryOf, MovesOf, ByBranch, MadeBefore, SnapshotDone;
    var pre, post, cut := SnapshotIsReachable(n, share, es);
    PlayConserves(Start(n, share), pre);
  }

  // ----- which transfers a snapshot counts -----

  /** The amounts paid into link l, in order, and how many of them were taken out. */
  function PaidInto(ms: seq<Move>, l: Link): seq<nat> {
    if ms == [] then []
    else
      var m := ms[|ms| - 1];
      PaidInto(ms[..|ms| - 1], l) + if m.Pay? && m.link == l then [m.amount] else []
  }

  function TakenFrom(ms: seq<Move>, l: Link): nat {
    if ms == [] then 0
    else
      var m := ms[|ms| - 1];
      TakenFrom(ms[..|ms| - 1], l) + if m.Take? && m.link == l then 1 else 0
  }

  /** A channel is a FIFO: it holds what was paid in, less as many from the front as were taken. */
  lemma {:induction false} ChannelIsFifo(n: nat, share: nat, ms: seq<Move>, l: Link)
    requires Play(Start(n, share), ms).Some? && l in Links(n)
    ensures TakenFrom(ms, l) <= |PaidInto(ms, l)|
    ensures l in Play(Start(n, share), ms).value.transit
    ensures Play(Start(n, share), ms).value.transit[l] == PaidInto(ms, l)[TakenFrom(ms, l)..]
    decreases |ms|
  {
    if ms != [] {
      var front, m := ms[..|ms| - 1], ms[|ms| - 1];
      assert ms == front + [m];
      PlayPrefix(Start(n, share), front, m);
      ChannelIsFifo(n, share, front, l);
    }
  }

  lemma {:induction false} PlayPrefix(b: Bank, ms: seq<Move>, m: Move)
    requires Play(b, ms + [m]).Some?
    ensures Play(b, ms).Some? && CanMove(Play(b, ms).value, m)
    ensures Play(b, ms + [m]) == Some(DoMove(Play(b, ms).value, m))
    decreases |ms|
  {
    if ms == [] {
      assert ms + [m] == [m];
      assert [m][1..] == [];
    } else {
      assert (ms + [m])[1..] == ms[1..] + [m];
      PlayPrefix(DoMove(b, ms[0]), ms[1..], m);
    }
  }

  /** At every reachable state, with 'pre' the moves made by branches before they recorded: what the
      receiver has recorded on a channel, plus the transfers queued there ahead of the marker, is
      exactly what the sender paid in before recording less what the receiver took before recording;
      and everything the receiver had taken by then was paid in before the sender recorded. */
  lemma ConsistentCut(n: nat, share: nat, es: seq<Event>, l: Link)
    requires n * share < U64 && Run(Initial(n, share), es).Some? && l in Links(n)
    ensures var s, pre := Run(Initial(n, share), es).value, HistoryOf(Initial(n, share), es).pre;
            && l in s.links && TakenFrom(pre, l) <= |PaidInto(pre, l)|
            && var counted := PaidInto(pre, l)[TakenFrom(pre, l)..];
               match RecordingOf(s, l)
               case None => BeforeMarker(s.links[l]) == counted
               case Some(Recording(t)) => t + SeqSum(BeforeMarker(s.links[l])) == SeqSum(counted)
               case Some(Completed(t)) => t == SeqSum(counted)
  {
    RunKeeps(n, share, es);
    var s, h := Run(Initial(n, share), es).value, HistoryOf(Initial(n, share), es);
    PlayKeepsValid(Start(n, share), h.pre);
    ChannelIsFifo(n, share, h.pre, l);
    assert Fits(ViewOf(s, l), s.round, CutOf(Start(n, share), h).transit[l]);
  }
}
