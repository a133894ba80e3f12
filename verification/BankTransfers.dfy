/** The money movements alone: what a run of the bank does once snapshots are forgotten. */
module Transfers {
  import opened Wrappers
  import opened Sums

  /** The directed FIFO channel from branch src to branch dst. */
  datatype Link = Link(src: nat, dst: nat)

  function Links(n: nat): (ls: set<Link>)
    ensures forall l :: l in ls <==> l.src < n && l.dst < n && l.src != l.dst
  {
    set i, j | 0 <= i < n && 0 <= j < n && i != j :: Link(i, j)
  }

  /** A global state of the money: one balance per branch, amounts in transit per channel. */
  datatype Bank = Bank(money: seq<nat>, transit: map<Link, seq<nat>>) {
    ghost predicate Valid() { transit.Keys == Links(|money|) }
  }

  datatype Move = Pay(link: Link, amount: nat) | Take(link: Link)

  /** The branch at which a move happens. */
  function Actor(m: Move): nat { if m.Pay? then m.link.src else m.link.dst }

  predicate CanMove(b: Bank, m: Move) {
    && m.link in b.transit
    && m.link.src < |b.money| && m.link.dst < |b.money| && m.link.src != m.link.dst
    && (m.Pay? ==> m.amount <= b.money[m.link.src])
    && (m.Take? ==> b.transit[m.link] != [])
  }

  function DoMove(b: Bank, m: Move): Bank
    requires CanMove(b, m)
  {
    var l := m.link;
    var q := b.transit[l];
    match m
    case Pay(_, a) => Bank(b.money[l.src := b.money[l.src] - a], b.transit[l := q + [a]])
    case Take(_) => Bank(b.money[l.dst := b.money[l.dst] + q[0]], b.transit[l := q[1..]])
  }

  /** Plays a list of moves; None when some move is not possible where it stands. */
  function Play(b: Bank, ms: seq<Move>): Option<Bank>
    decreases |ms|
  {
    if ms == [] then Some(b)
    else if CanMove(b, ms[0]) then Play(DoMove(b, ms[0]), ms[1..])
    else None
  }

  lemma {:induction false} PlayAppend(b: Bank, ms: seq<Move>, m: Move)
    requires Play(b, ms).Some? && CanMove(Play(b, ms).value, m)
    ensures Play(b, ms + [m]) == Some(DoMove(Play(b, ms).value, m))
    decreases |ms|
  {
    if ms == [] {
      assert ms + [m] == [m];
      assert Play(DoMove(b, m), [m][1..]) == Some(DoMove(b, m));
    } else {
      assert (ms + [m])[1..] == ms[1..] + [m];
      PlayAppend(DoMove(b, ms[0]), ms[1..], m);
    }
  }

  lemma {:induction false} PlayConcat(b: Bank, xs: seq<Move>, ys: seq<Move>)
    requires Play(b, xs).Some?
    ensures Play(b, xs + ys) == Play(Play(b, xs).value, ys)
    decreases |xs|
  {
    if xs == [] {
      assert xs + ys == ys;
    } else {
      assert (xs + ys)[1..] == xs[1..] + ys;
      PlayConcat(DoMove(b, xs[0]), xs[1..], ys);
    }
  }

  lemma {:induction false} PlayKeepsValid(b: Bank, ms: seq<Move>)
    requires b.Valid() && Play(b, ms).Some?
    ensures Play(b, ms).value.Valid() && |Play(b, ms).value.money| == |b.money|
    decreases |ms|
  {
    if ms != [] {
      PlayKeepsValid(DoMove(b, ms[0]), ms[1..]);
    }
  }

  lemma DiamondTransit(b: Bank, e: Move, f: Move)
    requires CanMove(b, e) && CanMove(b, f) && Actor(e) != Actor(f)
    ensures CanMove(DoMove(b, f), e) && CanMove(DoMove(b, e), f)
    ensures DoMove(DoMove(b, f), e).transit == DoMove(DoMove(b, e), f).transit
  {
    var x := DoMove(DoMove(b, f), e).transit;
    var y := DoMove(DoMove(b, e), f).transit;
    assert x[e.link] == y[e.link] && x[f.link] == y[f.link];
  }

  /** Moves of different branches that are both possible now can be done in either order. */
  lemma Diamond(b: Bank, e: Move, f: Move)
    requires CanMove(b, e) && CanMove(b, f) && Actor(e) != Actor(f)
    ensures CanMove(DoMove(b, f), e) && CanMove(DoMove(b, e), f)
    ensures DoMove(DoMove(b, f), e) == DoMove(DoMove(b, e), f)
  {
    DiamondTransit(b, e, f);
    var x := DoMove(DoMove(b, f), e);
    var y := DoMove(DoMove(b, e), f);
    assert x.money == y.money;
  }

  /** A move possible before 'post' by a branch that is idle during 'post' can be moved to the front. */
  lemma {:induction false} MoveToFront(b: Bank, post: seq<Move>, e: Move)
    requires Play(b, post).Some? && CanMove(b, e)
    requires forall k :: 0 <= k < |post| ==> Actor(post[k]) != Actor(e)
    ensures CanMove(Play(b, post).value, e)
    ensures Play(DoMove(b, e), post) == Some(DoMove(Play(b, post).value, e))
    decreases |post|
  {
    if post != [] {
      Diamond(b, e, post[0]);
      MoveToFront(DoMove(b, post[0]), post[1..], e);
    }
  }

  // ----- conservation -----

  function SeqSum(s: seq<nat>): nat { if s == [] then 0 else s[0] + SeqSum(s[1..]) }

  lemma {:induction false} SeqSumConcat(s: seq<nat>, t: seq<nat>)
    ensures SeqSum(s + t) == SeqSum(s) + SeqSum(t)
    decreases |s|
  {
    if s == [] {
      assert s + t == t;
    } else {
      assert (s + t)[1..] == s[1..] + t;
      SeqSumConcat(s[1..], t);
    }
  }

  /** The places money can be in. */
  datatype Slot = Account(branch: nat) | InTransit(link: Link)

  function Slots(n: nat): (ss: set<Slot>)
    ensures forall s :: s in ss <==> (s.Account? && s.branch < n) || (s.InTransit? && s.link in Links(n))
  {
    (set i | 0 <= i < n :: Account(i)) + (set l | l in Links(n) :: InTransit(l))
  }

  function Held(b: Bank, s: Slot): nat
    requires b.Valid() && s in Slots(|b.money|)
  {
    match s
    case Account(i) => b.money[i]
    case InTransit(l) => SeqSum(b.transit[l])
  }

  function Ledger(b: Bank): map<Slot, nat>
    requires b.Valid()
  {
    map s | s in Slots(|b.money|) :: Held(b, s)
  }

  ghost function Total(b: Bank): nat
    requires b.Valid()
  {
    Sum(Ledger(b))
  }

  lemma MoveConserves(b: Bank, m: Move)
    requires b.Valid() && CanMove(b, m)
    ensures DoMove(b, m).Valid() && Total(DoMove(b, m)) == Total(b)
  {
    var l, b' := m.link, DoMove(b, m);
    var q := b.transit[l];
    var account := Account(if m.Pay? then l.src else l.dst);
    MoveHeld(b, m);
    if m.Pay? {
      SumMove(Ledger(b), Ledger(b'), account, InTransit(l), m.amount);
    } else {
      SumMove(Ledger(b), Ledger(b'), InTransit(l), account, q[0]);
    }
  }

  /** A move changes the mover's account and the channel by opposite amounts and nothing else. */
  lemma MoveHeld(b: Bank, m: Move)
    requires b.Valid() && CanMove(b, m)
    ensures DoMove(b, m).Valid() && |DoMove(b, m).money| == |b.money|
    ensures m.Pay? ==> SeqSum(DoMove(b, m).transit[m.link]) == SeqSum(b.transit[m.link]) + m.amount
    ensures m.Take? ==> SeqSum(DoMove(b, m).transit[m.link]) + b.transit[m.link][0] == SeqSum(b.transit[m.link])
    ensures forall s :: s in Slots(|b.money|) && s != Account(Actor(m)) && s != InTransit(m.link)
              ==> Held(DoMove(b, m), s) == Held(b, s)
  {
    if m.Pay? {
      SeqSumConcat(b.transit[m.link], [m.amount]);
      assert SeqSum([m.amount]) == m.amount;
    }
  }

  /** Money is neither made nor lost by any possible list of moves. */
  lemma {:induction false} PlayConserves(b: Bank, ms: seq<Move>)
    requires b.Valid() && Play(b, ms).Some?
    ensures Play(b, ms).value.Valid() && Total(Play(b, ms).value) == Total(b)
    decreases |ms|
  {
    if ms != [] {
      MoveConserves(b, ms[0]);
      PlayConserves(DoMove(b, ms[0]), ms[1..]);
    }
  }

  /** The starting state: every branch has the same balance and nothing is in transit. */
  function Start(n: nat, balance: nat): Bank {
    Bank(seq(n, i => balance), map l | l in Links(n) :: [])
  }

  lemma StartTotal(n: nat, balance: nat)
    ensures Start(n, balance).Valid() && Total(Start(n, balance)) == n * balance
  {
    var accounts := set i | 0 <= i < n :: Account(i);
    CountAccounts(n);
    SumConstant(Ledger(Start(n, balance)), accounts, balance);
  }

  lemma {:induction false} CountAccounts(n: nat)
    ensures |set i | 0 <= i < n :: Account(i)| == n
  {
    if n > 0 {
      CountAccounts(n - 1);
      var smaller := set i | 0 <= i < n - 1 :: Account(i);
      assert (set i | 0 <= i < n :: Account(i)) == smaller + {Account(n - 1)};
      assert Account(n - 1) !in smaller;
    }
  }
}
