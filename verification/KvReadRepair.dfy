/** One round of read repair for a key: a coordinator asks every peer for its copy and sends the newer
    of two copies to whoever lacks it. Messages arrive in any order, and at every replica a write waits
    on the log's strand before it reaches the slot. */
module ReadRepair {
  import opened Wrappers
  import opened Lists
  import opened Replicas

  /** A replica's copy of the key: the slot, the writes waiting on its strand, the writes under way to it. */
  datatype Copy = Copy(slot: Slot, queue: seq<Element>, writes: multiset<Element>)

  datatype Peer = Peer(copy: Copy, asked: bool, answer: Option<Element>)

  datatype Round = Round(own: Copy, peers: seq<Peer>)

  /** A write is posted to the strand unless the slot is already as new. */
  function Write(slot: Slot, queue: seq<Element>, e: Element): seq<Element> {
    if slot.Some? && e.time <= slot.value.time then queue else queue + [e]
  }

  // ----- one key of a replica -----

  /** The waiting elements of one key. */
  function KeyQueue(queue: seq<Record>, k: nat): seq<Element> {
    if queue == [] then []
    else (if queue[0].key == k then [Element(queue[0].value, queue[0].time)] else []) + KeyQueue(queue[1..], k)
  }

  lemma {:induction false} KeyQueueAppend(queue: seq<Record>, r: Record, k: nat)
    ensures KeyQueue(queue + [r], k) == KeyQueue(queue, k) + if r.key == k then [Element(r.value, r.time)] else []
    decreases |queue|
  {
    AppendDrop(queue, r);
    if queue != [] {
      KeyQueueAppend(queue[1..], r, k);
      ConcatAssociates(if queue[0].key == k then [Element(queue[0].value, queue[0].time)] else [],
                       KeyQueue(queue[1..], k), if r.key == k then [Element(r.value, r.time)] else []);
    }
  }

  /** A write to a replica is a write to its key alone. */
  lemma WrittenOnKey(s: State, r: Record, k: nat)
    requires r.key < |s.slots| && k < |s.slots|
    ensures Written(s, r).slots == s.slots
    ensures KeyQueue(Written(s, r).queue, k) ==
            if r.key == k then Write(s.slots[k], KeyQueue(s.queue, k), Element(r.value, r.time)) else KeyQueue(s.queue, k)
  {
    KeyQueueAppend(s.queue, r, k);
    assert KeyQueue(s.queue, k) + [] == KeyQueue(s.queue, k);
  }

  /** A task of the strand offers the oldest waiting element of its key, and leaves the other keys alone. */
  lemma RanOnKey(s: State, k: nat)
    requires s.queue != [] && s.queue[0].key < |s.slots| && k < |s.slots|
    ensures var t, waiting := Ran(s), KeyQueue(s.queue, k);
            if s.queue[0].key == k then
              waiting != [] && t.slots[k] == Offer(s.slots[k], waiting[0]) && KeyQueue(t.queue, k) == waiting[1..]
            else t.slots[k] == s.slots[k] && KeyQueue(t.queue, k) == waiting
  {
  }

  // ----- the round -----

  datatype Place = Own | Remote(peer: nat)

  predicate IsPlace(s: Round, w: Place) { w.Remote? ==> w.peer < |s.peers| }

  function At(s: Round, w: Place): Copy
    requires IsPlace(s, w)
  {
    if w.Own? then s.own else s.peers[w.peer].copy
  }

  function WithCopy(s: Round, w: Place, c: Copy): (t: Round)
    requires IsPlace(s, w)
    ensures |t.peers| == |s.peers| && At(t, w) == c
    ensures forall v :: IsPlace(s, v) && v != w ==> At(t, v) == At(s, v)
    ensures forall i :: 0 <= i < |s.peers| ==> t.peers[i].asked == s.peers[i].asked && t.peers[i].answer == s.peers[i].answer
  {
    if w.Own? then s.(own := c) else s.(peers := s.peers[w.peer := s.peers[w.peer].(copy := c)])
  }

  datatype Action = Adopt | SendBack | Leave

  /** The coordinator compares its copy with a peer's. */
  function Compare(mine: Slot, theirs: Element): Action {
    if mine.None? || mine.value.time < theirs.time then Adopt
    else if theirs.time < mine.value.time || mine.value.value != theirs.value then SendBack
    else Leave
  }

  function WriteTo(c: Copy, e: Element): Copy { c.(queue := Write(c.slot, c.queue, e)) }

  function Sent(c: Copy, e: Element): Copy { c.(writes := c.writes + multiset{e}) }

  function Delivered(c: Copy, e: Element): Copy { WriteTo(c.(writes := c.writes - multiset{e}), e) }

  function RanTask(c: Copy): Copy
    requires c.queue != []
  {
    c.(slot := Offer(c.slot, c.queue[0]), queue := c.queue[1..])
  }

  function SentToAll(peers: seq<Peer>, e: Element): (r: seq<Peer>)
    ensures |r| == |peers| && forall i :: 0 <= i < |r| ==> r[i] == peers[i].(copy := Sent(peers[i].copy, e))
  {
    seq(|peers|, i requires 0 <= i < |peers| => peers[i].(copy := Sent(peers[i].copy, e)))
  }

  function Cleared(s: Round, i: nat): Round
    requires i < |s.peers|
  {
    s.(peers := s.peers[i := s.peers[i].(answer := None)])
  }

  function Answered(s: Round, i: nat): Round
    requires i < |s.peers| && s.peers[i].answer.Some?
  {
    var e, c := s.peers[i].answer.value, Cleared(s, i);
    match Compare(s.own.slot, e)
    case Adopt => Round(WriteTo(s.own, e), SentToAll(c.peers, e))
    case SendBack => WithCopy(c, Remote(i), Sent(At(c, Remote(i)), s.own.slot.value))
    case Leave => c
  }

  function Asked(s: Round, i: nat): Round
    requires i < |s.peers|
  {
    s.(peers := s.peers[i := s.peers[i].(asked := false, answer := Some(ReadOf(s.peers[i].copy.slot)))])
  }

  datatype Event = Ask(peer: nat) | Answer(peer: nat) | Deliver(place: Place, element: Element) | RunTask(place: Place)

  predicate Enabled(s: Round, e: Event) {
    match e
    case Ask(i) => i < |s.peers| && s.peers[i].asked && s.peers[i].answer.None?
    case Answer(i) => i < |s.peers| && s.peers[i].answer.Some?
    case Deliver(w, x) => IsPlace(s, w) && x in At(s, w).writes
    case RunTask(w) => IsPlace(s, w) && At(s, w).queue != []
  }

  function Step(s: Round, e: Event): (t: Round)
    requires Enabled(s, e)
    ensures |t.peers| == |s.peers|
  {
    match e
    case Ask(i) => Asked(s, i)
    case Answer(i) => Answered(s, i)
    case Deliver(w, x) => WithCopy(s, w, Delivered(At(s, w), x))
    case RunTask(w) => WithCopy(s, w, RanTask(At(s, w)))
  }

  ghost predicate Follows(s: Round, e: Event, t: Round) { Enabled(s, e) && t == Step(s, e) }

  /** t follows from s by these events. */
  ghost predicate Run(s: Round, events: seq<Event>, t: Round)
    decreases |events|
  {
    if events == [] then s == t
    else
      exists u :: Run(s, Front(events), u) && Follows(u, events[|events| - 1], t)
  }

  lemma Extend(s0: Round, events: seq<Event>, s: Round, e: Event)
    requires Run(s0, events, s) && Enabled(s, e)
    ensures Run(s0, events + [e], Step(s, e))
  {
    assert Front(events + [e]) == events;
    assert Follows(s, e, Step(s, e));
  }

  /** The round starts: every peer is about to be asked. Earlier writes may still wait or be under way. */
  ghost predicate Started(s: Round) {
    forall i :: 0 <= i < |s.peers| ==> s.peers[i].asked && s.peers[i].answer.None?
  }

  predicate Done(p: Peer) { !p.asked && p.answer.None? }

  predicate Still(c: Copy) { c.queue == [] && c.writes == multiset{} }

  /** Nothing is under way any more. */
  predicate Quiet(s: Round) {
    Still(s.own) && forall i :: 0 <= i < |s.peers| ==> Done(s.peers[i]) && Still(s.peers[i].copy)
  }

  // ----- what a step does -----

  /** A peer's part in the questions changes only when it is asked or its answer is dealt with. */
  lemma StepAsks(s: Round, e: Event, i: nat)
    requires Enabled(s, e) && i < |s.peers|
    ensures var p, p' := s.peers[i], Step(s, e).peers[i];
            && p'.asked == (p.asked && e != Ask(i))
            && p'.answer == if e == Ask(i) then Some(ReadOf(p.copy.slot)) else if e == Answer(i) then None else p.answer
  {
  }

  /** What an event does to the copy at one place. */
  function CopyAfter(s: Round, e: Event, w: Place): Copy
    requires Enabled(s, e) && IsPlace(s, w)
  {
    match e
    case Ask(_) => At(s, w)
    case Answer(i) =>
      var x := s.peers[i].answer.value;
      (match Compare(s.own.slot, x)
       case Adopt => if w.Own? then WriteTo(s.own, x) else Sent(At(s, w), x)
       case SendBack => if w == Remote(i) then Sent(At(s, w), s.own.slot.value) else At(s, w)
       case Leave => At(s, w))
    case Deliver(v, x) => if w == v then Delivered(At(s, w), x) else At(s, w)
    case RunTask(v) => if w == v then RanTask(At(s, w)) else At(s, w)
  }

  lemma StepCopies(s: Round, e: Event, w: Place)
    requires Enabled(s, e) && IsPlace(s, w)
    ensures IsPlace(Step(s, e), w) && At(Step(s, e), w) == CopyAfter(s, e, w)
  {
  }

  /** An answer: a newer copy is written here and sent to every peer; an older one, or another value under the same
      timestamp, is answered with the own copy; nobody else hears anything. */
  lemma AnswerSends(s: Round, i: nat, j: nat)
    requires Enabled(s, Answer(i)) && j < |s.peers|
    ensures var mine, e, t := s.own.slot, s.peers[i].answer.value, Step(s, Answer(i));
            && t.own.slot == s.own.slot && t.own.writes == s.own.writes
            && t.own.queue == s.own.queue + (if mine.None? || mine.value.time < e.time then [e] else [])
            && t.peers[j].copy.slot == s.peers[j].copy.slot && t.peers[j].copy.queue == s.peers[j].copy.queue
            && t.peers[j].copy.writes == s.peers[j].copy.writes +
               if mine.None? || mine.value.time < e.time then multiset{e}
               else if j == i && (e.time < mine.value.time || e.value != mine.value.value) then multiset{mine.value}
               else multiset{}
  {
  }

  /** The coordinator or a peer takes a write in, or its strand installs one; nothing else changes. */
  lemma PlaceMoves(s: Round, w: Place, x: Element, v: Place)
    requires IsPlace(s, w) && IsPlace(s, v)
    ensures Enabled(s, Deliver(w, x)) ==>
              var c, t := At(s, w), Step(s, Deliver(w, x));
              && At(t, w).slot == c.slot && At(t, w).writes + multiset{x} == c.writes
              && At(t, w).queue == c.queue + (if c.slot.Some? && x.time <= c.slot.value.time then [] else [x])
              && (v != w ==> At(t, v) == At(s, v))
    ensures Enabled(s, RunTask(w)) ==>
              var c, t := At(s, w), Step(s, RunTask(w));
              && At(t, w).writes == c.writes && [c.queue[0]] + At(t, w).queue == c.queue
              && At(t, w).slot == (if c.slot.Some? && c.queue[0].time <= c.slot.value.time then c.slot else Some(c.queue[0]))
              && (v != w ==> At(t, v) == At(s, v))
  {
  }

  // ----- no element comes out of nowhere -----

  ghost predicate Holds(c: Copy, e: Element) {
    e == ReadOf(c.slot) || e in c.queue || e in c.writes
  }

  /** What the replicas held at the start, an absent element counting as the empty value at time 0. */
  ghost predicate HeldAtStart(s0: Round, e: Element) {
    exists w :: IsPlace(s0, w) && Holds(At(s0, w), e)
  }

  ghost predicate CopyKnown(s0: Round, c: Copy) {
    forall e :: Holds(c, e) ==> HeldAtStart(s0, e)
  }

  ghost predicate Known(s0: Round, s: Round) {
    && (forall w :: IsPlace(s, w) ==> CopyKnown(s0, At(s, w)))
    && (forall i :: 0 <= i < |s.peers| && s.peers[i].answer.Some? ==> HeldAtStart(s0, s.peers[i].answer.value))
  }

  /** A copy comes to hold at most the one element it is given. */
  lemma CopyHolds(c: Copy, x: Element, e: Element)
    ensures Holds(WriteTo(c, x), e) ==> Holds(c, e) || e == x
    ensures Holds(Sent(c, x), e) ==> Holds(c, e) || e == x
    ensures x in c.writes && Holds(Delivered(c, x), e) ==> Holds(c, e)
    ensures c.queue != [] && Holds(RanTask(c), e) ==> Holds(c, e)
  {
  }

  lemma StepKnowsCopy(s0: Round, s: Round, e: Event, w: Place)
    requires Known(s0, s) && Enabled(s, e) && IsPlace(s, w)
    ensures CopyKnown(s0, CopyAfter(s, e, w))
  {
    assert CopyKnown(s0, At(s, w)) && CopyKnown(s0, s.own) by {
      assert At(s, Own) == s.own;
    }
    var x := match e
      case Answer(i) =>
        (if Compare(s.own.slot, s.peers[i].answer.value).SendBack? then s.own.slot.value else s.peers[i].answer.value)
      case Deliver(_, y) => y
      case _ => ReadOf(s.own.slot);
    assert e.Answer? ==> HeldAtStart(s0, x) by {
      assert Holds(s.own, ReadOf(s.own.slot));
    }
    hide HeldAtStart, Holds, Known;
    forall y | Holds(CopyAfter(s, e, w), y) ensures HeldAtStart(s0, y) {
      CopyHolds(At(s, w), x, y);
    }
  }

  lemma StepKnows(s0: Round, s: Round, e: Event)
    requires Known(s0, s) && Enabled(s, e)
    ensures Known(s0, Step(s, e))
  {
    var t := Step(s, e);
    forall w | IsPlace(t, w) ensures CopyKnown(s0, At(t, w)) {
      StepCopies(s, e, w);
      StepKnowsCopy(s0, s, e, w);
    }
    forall i | 0 <= i < |t.peers| && t.peers[i].answer.Some? ensures HeldAtStart(s0, t.peers[i].answer.value) {
      StepAsks(s, e, i);
      assert CopyKnown(s0, At(s, Remote(i)));
      assert Holds(At(s, Remote(i)), ReadOf(s.peers[i].copy.slot));
    }
  }

  lemma {:induction false} RunKnows(s0: Round, events: seq<Event>, s: Round)
    requires Started(s0) && Run(s0, events, s)
    ensures Known(s0, s) && |s.peers| == |s0.peers|
    decreases |events|
  {
    if events != [] {
      var last := events[|events| - 1];
      var u :| Run(s0, Front(events), u) && Follows(u, last, s);
      hide Known, Started, Run, Step;
      RunKnows(s0, Front(events), u);
      StepKnows(s0, u, last);
    }
  }

  // ----- what a copy is bound to reach -----

  function TimeOf(slot: Slot): nat { ReadOf(slot).time }

  /** The copy has, or will have once what waits or is under way arrives, an element as new as t. */
  ghost predicate Reaches(c: Copy, t: nat) {
    t <= TimeOf(c.slot) || (exists e :: e in c.queue && t <= e.time) || (exists e :: e in c.writes && t <= e.time)
  }

  lemma WriteReaches(c: Copy, x: Element, t: nat)
    ensures Reaches(WriteTo(c, x), t) <==> Reaches(c, t) || t <= x.time
  {
    var d := WriteTo(c, x);
    if d != c {
      assert x in d.queue && forall e :: e in c.queue ==> e in d.queue;
    }
  }

  lemma SentReaches(c: Copy, x: Element, t: nat)
    ensures Reaches(Sent(c, x), t) <==> Reaches(c, t) || t <= x.time
  {
    var d := Sent(c, x);
    assert x in d.writes && forall e :: e in c.writes ==> e in d.writes;
  }

  lemma DeliveredReaches(c: Copy, x: Element, t: nat)
    requires x in c.writes
    ensures Reaches(Delivered(c, x), t) <==> Reaches(c, t)
  {
    var d := c.(writes := c.writes - multiset{x});
    WriteReaches(d, x, t);
    assert forall e :: e in c.writes ==> e == x || e in d.writes;
    assert forall e :: e in d.writes ==> e in c.writes;
  }

  lemma RanReaches(c: Copy, t: nat)
    requires c.queue != []
    ensures Reaches(RanTask(c), t) <==> Reaches(c, t)
    ensures TimeOf(c.slot) <= TimeOf(RanTask(c).slot)
  {
    var d := RanTask(c);
    assert forall e :: e in c.queue <==> e == c.queue[0] || e in d.queue;
  }

  /** A copy that reaches whatever it did, and whose slot is no older. */
  ghost predicate Improves(c: Copy, d: Copy) {
    TimeOf(c.slot) <= TimeOf(d.slot) && forall t: nat :: Reaches(c, t) ==> Reaches(d, t)
  }

  lemma StepImproves(s: Round, e: Event, w: Place)
    requires Enabled(s, e) && IsPlace(s, w)
    ensures Improves(At(s, w), CopyAfter(s, e, w))
  {
    var c := At(s, w);
    hide Reaches;
    match e
    case Ask(_) =>
    case Answer(i) =>
      var x := if Compare(s.own.slot, s.peers[i].answer.value).SendBack? then s.own.slot.value else s.peers[i].answer.value;
      forall t: nat ensures Reaches(c, t) ==> Reaches(WriteTo(c, x), t) && Reaches(Sent(c, x), t) {
        WriteReaches(c, x, t);
        SentReaches(c, x, t);
      }
    case Deliver(v, x) =>
      if v == w {
        forall t: nat ensures Reaches(c, t) ==> Reaches(Delivered(c, x), t) {
          DeliveredReaches(c, x, t);
        }
      }
    case RunTask(v) =>
      if v == w {
        forall t: nat ensures Reaches(c, t) ==> Reaches(RanTask(c), t) {
          RanReaches(c, t);
        }
        RanReaches(c, 0);
      }
  }

  // ----- it comes to an end -----

  function CopyWork(c: Copy): nat { 2 * |c.writes| + |c.queue| }

  /** What a peer still has to do, n being the number of peers. */
  function Work(p: Peer, n: nat): nat {
    (if p.asked then 2 * n + 3 else 0) + (if p.answer.Some? then 2 * n + 2 else 0) + CopyWork(p.copy)
  }

  function TotalWork(peers: seq<Peer>, n: nat): nat {
    if peers == [] then 0 else TotalWork(peers[..|peers| - 1], n) + Work(peers[|peers| - 1], n)
  }

  function Left(s: Round): nat { CopyWork(s.own) + TotalWork(s.peers, |s.peers|) }

  lemma {:induction false} WorkUpdate(peers: seq<Peer>, n: nat, i: nat, q: Peer)
    requires i < |peers|
    ensures TotalWork(peers[i := q], n) + Work(peers[i], n) == TotalWork(peers, n) + Work(q, n)
    decreases |peers|
  {
    var last := |peers| - 1;
    if i == last {
      assert peers[i := q][..last] == peers[..last];
    } else {
      WorkUpdate(peers[..last], n, i, q);
      assert peers[i := q][..last] == peers[..last][i := q];
    }
  }

  lemma {:induction false} WorkToAll(peers: seq<Peer>, n: nat, e: Element)
    ensures TotalWork(SentToAll(peers, e), n) == TotalWork(peers, n) + 2 * |peers|
    decreases |peers|
  {
    if peers != [] {
      var last := |peers| - 1;
      WorkToAll(peers[..last], n, e);
      assert SentToAll(peers, e)[..last] == SentToAll(peers[..last], e);
    }
  }

  lemma CopyWorks(s: Round, w: Place, c: Copy)
    requires IsPlace(s, w)
    ensures Left(WithCopy(s, w, c)) + CopyWork(At(s, w)) == Left(s) + CopyWork(c)
  {
    if w.Remote? {
      WorkUpdate(s.peers, |s.peers|, w.peer, s.peers[w.peer].(copy := c));
    }
  }

  lemma AnswerWorks(s: Round, i: nat)
    requires Enabled(s, Answer(i))
    ensures Left(Step(s, Answer(i))) < Left(s)
  {
    var n, e, c := |s.peers|, s.peers[i].answer.value, Cleared(s, i);
    WorkUpdate(s.peers, n, i, c.peers[i]);
    assert Left(c) + 2 * n + 2 == Left(s);
    match Compare(s.own.slot, e)
    case Adopt => WorkToAll(c.peers, n, e);
    case SendBack => CopyWorks(c, Remote(i), Sent(At(c, Remote(i)), s.own.slot.value));
    case Leave =>
  }

  /** Every step leaves less to do. */
  lemma StepWorks(s: Round, e: Event)
    requires Enabled(s, e)
    ensures Left(Step(s, e)) < Left(s)
  {
    match e
    case Ask(i) => WorkUpdate(s.peers, |s.peers|, i, Asked(s, i).peers[i]);
    case Answer(i) => AnswerWorks(s, i);
    case Deliver(w, x) => CopyWorks(s, w, Delivered(At(s, w), x));
    case RunTask(w) => CopyWorks(s, w, RanTask(At(s, w)));
  }

  lemma Busy(s: Round, w: Place) returns (e: Event)
    requires IsPlace(s, w) && !Still(At(s, w))
    ensures Enabled(s, e) && (e == RunTask(w) || (e.Deliver? && e.place == w))
  {
    if At(s, w).queue != [] {
      e := RunTask(w);
    } else {
      var x :| x in At(s, w).writes;
      e := Deliver(w, x);
    }
  }

  /** Nothing blocks: as long as something is under way, some step is possible; and the coordinator's own
      writes, then the answers, then the questions can be dealt with first. */
  lemma NotQuietMoves(s: Round) returns (e: Event)
    requires !Quiet(s)
    ensures Enabled(s, e)
    ensures e.Ask? || e.Answer? ==> Still(s.own)
    ensures (e.Deliver? || e.RunTask?) && e.place.Remote? ==> forall i :: 0 <= i < |s.peers| ==> Done(s.peers[i])
  {
    if !Still(s.own) {
      e := Busy(s, Own);
    } else if i: nat :| i < |s.peers| && !Done(s.peers[i]) {
      e := if s.peers[i].answer.Some? then Answer(i) else Ask(i);
    } else {
      var i: nat :| i < |s.peers| && !Still(s.peers[i].copy);
      e := Busy(s, Remote(i));
    }
  }

  /** A run takes no more steps than there was work at the start. */
  lemma {:induction false} RoundEnds(s0: Round, events: seq<Event>, s: Round)
    requires Run(s0, events, s)
    ensures |events| + Left(s) <= Left(s0)
    decreases |events|
  {
    if events != [] {
      var last := events[|events| - 1];
      var u :| Run(s0, Front(events), u) && Follows(u, last, s);
      RoundEnds(s0, Front(events), u);
      StepWorks(u, last);
    }
  }

  // ----- what the ends are compared with -----

  /** The greatest timestamp anywhere at the start: in a slot, waiting, or under way. */
  ghost predicate IsNewest(s0: Round, newest: nat) {
    && (exists e :: HeldAtStart(s0, e) && e.time == newest)
    && (forall e :: HeldAtStart(s0, e) ==> e.time <= newest)
  }

  ghost predicate AllAt(s: Round, t: nat) {
    forall w :: IsPlace(s, w) ==> TimeOf(At(s, w).slot) == t
  }

  ghost predicate AllRead(s: Round, e: Element) {
    forall w :: IsPlace(s, w) ==> ReadOf(At(s, w).slot) == e
  }
}
