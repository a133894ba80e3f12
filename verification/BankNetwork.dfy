/** The bank as a whole: n branches over a full mesh of FIFO channels, and the controller's rounds. */
module Network {
  import opened Wrappers
  import opened Lists
  import opened Transfers
  import opened Snapshots
  import opened Branches
  import Mesh

  /** round is the controller's snapshot id: 0 before the first snapshot. */
  datatype Net = Net(branches: seq<BranchState>, links: map<Link, seq<Message>>, round: nat) {
    ghost predicate Valid() { links.Keys == Links(|branches|) }
  }

  /** What the scheduler may choose next. */
  datatype Event =
    | SendMoney(link: Link, amount: nat)
    | Deliver(link: Link)
    | InitSnapshot(branch: nat)

  /** Branch i holds the snapshot of the current round. */
  predicate Recorded(s: Net, i: nat) {
    i < |s.branches| && s.branches[i].snapshot.Some? && s.branches[i].snapshot.value.id == s.round
  }

  function MarkerIds(q: seq<Message>): seq<nat> {
    if q == [] then []
    else (if q[0].Marker? then [q[0].id] else []) + MarkerIds(q[1..])
  }

  /** The controller spaces its rounds so that one is over before the next begins. */
  predicate RoundOver(s: Net) {
    s.round == 0
    || ((forall i :: 0 <= i < |s.branches| ==> Recorded(s, i))
        && (forall l :: l in s.links ==> MarkerIds(s.links[l]) == []))
  }

  predicate Enabled(s: Net, e: Event) {
    match e
    case SendMoney(l, a) => l in s.links && l.src < |s.branches| && 0 < a <= s.branches[l.src].money
    case Deliver(l) => l in s.links && l.dst < |s.branches| && s.links[l] != []
    case InitSnapshot(p) => p < |s.branches| && RoundOver(s)
  }

  /** Branch src hands the marker to each of its channels. */
  function FloodLinks(links: map<Link, seq<Message>>, src: nat, id: nat): map<Link, seq<Message>> {
    map l | l in links :: if l.src == src then links[l] + [Marker(id)] else links[l]
  }

  function Step(s: Net, e: Event): Net
    requires Enabled(s, e)
  {
    var n := |s.branches|;
    match e
    case SendMoney(l, a) =>
      var b := s.branches[l.src];
      s.(branches := s.branches[l.src := b.(money := b.money - a)],
         links := s.links[l := s.links[l] + [Transfer(a)]])
    case InitSnapshot(p) =>
      Net(s.branches[p := OnInitSnapshot(s.branches[p], s.round + 1, Mesh.PeersOf(n, p))],
          FloodLinks(s.links, p, s.round + 1),
          s.round + 1)
    case Deliver(l) =>
      var b := s.branches[l.dst];
      var rest := s.links[l := s.links[l][1..]];
      match s.links[l][0]
      case Transfer(a) => s.(branches := s.branches[l.dst := OnTransfer(b, l.src, a)], links := rest)
      case Marker(id) =>
        s.(branches := s.branches[l.dst := OnMarker(b, l.src, id, Mesh.PeersOf(n, l.dst))],
           links := if StartsSnapshot(b, id) then FloodLinks(rest, l.dst, id) else rest)
  }

  /** The controller gives each of n branches an equal share and no message is under way. */
  function Initial(n: nat, share: nat): Net {
    Net(seq(n, i => BranchState(share, None)), map l | l in Links(n) :: [], 0)
  }

  /** Runs a schedule; None when some event is not possible where it stands. */
  function Run(s: Net, es: seq<Event>): Option<Net>
    decreases |es|
  {
    if es == [] then Some(s)
    else
      match Run(s, es[..|es| - 1])
      case None => None
      case Some(t) => if Enabled(t, es[|es| - 1]) then Some(Step(t, es[|es| - 1])) else None
  }

  // ----- the money in a network state -----

  function Amounts(q: seq<Message>): seq<nat> {
    if q == [] then []
    else (if q[0].Transfer? then [q[0].amount] else []) + Amounts(q[1..])
  }

  /** The amounts ahead of the first marker. */
  function BeforeMarker(q: seq<Message>): seq<nat> {
    if q == [] || q[0].Marker? then [] else [q[0].amount] + BeforeMarker(q[1..])
  }

  function MoneyIn(s: Net): Bank {
    Bank(seq(|s.branches|, i requires 0 <= i < |s.branches| => s.branches[i].money),
         map l | l in s.links :: Amounts(s.links[l]))
  }

  /** The money movement an event makes, if it makes one. */
  function MoveOf(s: Net, e: Event): Option<Move>
    requires Enabled(s, e)
  {
    match e
    case SendMoney(l, a) => Some(Pay(l, a))
    case Deliver(l) => if s.links[l][0].Transfer? then Some(Take(l)) else None
    case InitSnapshot(_) => None
  }

  /** The money movements of a run, in order. */
  function MovesOf(s: Net, es: seq<Event>): seq<Move>
    requires Run(s, es).Some?
    decreases |es|
  {
    if es == [] then []
    else
      var front := es[..|es| - 1];
      MovesOf(s, front) + MoveList(MoveOf(Run(s, front).value, es[|es| - 1]))
  }

  function MoveList(m: Option<Move>): seq<Move> {
    match m
    case None => []
    case Some(x) => [x]
  }

  // ----- the channels of one branch -----

  /** The outgoing channels of branch p, by the branch at the other end. */
  function ChannelsAt(links: map<Link, seq<Message>>, p: nat): map<Name, seq<Message>> {
    map l | l in links && l.src == p :: l.dst := links[l]
  }

  /** Flooding in the network is what a branch does to its own channels, and touches no other branch's. */
  lemma FloodIsFlooded(links: map<Link, seq<Message>>, p: nat, id: nat, q: nat)
    ensures ChannelsAt(FloodLinks(links, p, id), q) ==
            if q == p then Flooded(ChannelsAt(links, p), id) else ChannelsAt(links, q)
    ensures forall l :: l in links ==> FloodLinks(links, p, id)[l] == links[l] + if l.src == p then [Marker(id)] else []
  {
  }

  /** So is sending: any amount up to the balance can be paid into any channel, and goes there alone. */
  lemma SendIsSent(s: Net, l: Link, amount: nat, q: nat)
    requires l in s.links && l.src < |s.branches| && 0 < amount <= s.branches[l.src].money
    ensures Enabled(s, SendMoney(l, amount))
    ensures Step(s, SendMoney(l, amount)).branches[l.src].money == s.branches[l.src].money - amount
    ensures var before, now := ChannelsAt(s.links, q), ChannelsAt(Step(s, SendMoney(l, amount)).links, q);
            now == if q == l.src then before[l.dst := before[l.dst] + [Transfer(amount)]] else before
  {
  }

  // ----- queues -----

  lemma {:induction false} AppendAmount(q: seq<Message>, m: Message)
    ensures Amounts(q + [m]) == Amounts(q) + if m.Transfer? then [m.amount] else []
    decreases |q|
  {
    AppendDrop(q, m);
    if q != [] {
      AppendAmount(q[1..], m);
      ConcatAssociates(if q[0].Transfer? then [q[0].amount] else [], Amounts(q[1..]), if m.Transfer? then [m.amount] else []);
    }
  }

  lemma {:induction false} AppendId(q: seq<Message>, m: Message)
    ensures MarkerIds(q + [m]) == MarkerIds(q) + if m.Marker? then [m.id] else []
    decreases |q|
  {
    AppendDrop(q, m);
    if q != [] {
      AppendId(q[1..], m);
      ConcatAssociates(if q[0].Marker? then [q[0].id] else [], MarkerIds(q[1..]), if m.Marker? then [m.id] else []);
    }
  }

  lemma {:induction false} AppendBefore(q: seq<Message>, m: Message)
    ensures BeforeMarker(q + [m]) ==
            BeforeMarker(q) + if m.Transfer? && MarkerIds(q) == [] then [m.amount] else []
    decreases |q|
  {
    AppendDrop(q, m);
    if q != [] {
      AppendBefore(q[1..], m);
    }
  }

  lemma AppendMessage(q: seq<Message>, m: Message)
    ensures Amounts(q + [m]) == Amounts(q) + if m.Transfer? then [m.amount] else []
    ensures MarkerIds(q + [m]) == MarkerIds(q) + if m.Marker? then [m.id] else []
    ensures BeforeMarker(q + [m]) ==
            BeforeMarker(q) + if m.Transfer? && MarkerIds(q) == [] then [m.amount] else []
  {
    AppendAmount(q, m);
    AppendId(q, m);
    AppendBefore(q, m);
  }

  lemma {:induction false} NoMarker(q: seq<Message>)
    requires MarkerIds(q) == []
    ensures BeforeMarker(q) == Amounts(q)
    decreases |q|
  {
    if q != [] {
      NoMarker(q[1..]);
    }
  }
}
