/** When a round of read repair brings every replica to the same value. */
module RepairValues {
  import opened Wrappers
  import opened Lists
  import opened Replicas
  import opened ReadRepair
  import opened RepairTimes

  /** What an absent copy answers. */
  function Blank(): Element { Element("", 0) }

  // ----- which value a copy will have under the greatest timestamp -----

  /** The first waiting element as new as t. */
  function FirstAt(queue: seq<Element>, t: nat): Option<Element> {
    if queue == [] then None else if t <= queue[0].time then Some(queue[0]) else FirstAt(queue[1..], t)
  }

  /** The element a copy is bound to end with: the slot's, else the first waiting one. */
  function Pinned(c: Copy, t: nat): Option<Element> {
    if c.slot.Some? && t <= c.slot.value.time then Some(c.slot.value) else FirstAt(c.queue, t)
  }

  /** An element the copy may end with: the one it is bound to, else any that is under way to it. */
  ghost predicate Candidate(c: Copy, t: nat, e: Element) {
    match Pinned(c, t)
    case Some(x) => e == x
    case None => e in c.writes && t <= e.time
  }

  /** What a caller can check at the start: no two replicas may end with different elements under the
      greatest timestamp. */
  ghost predicate Agree(s0: Round, newest: nat) {
    forall v, w, a, b ::
      (IsPlace(s0, v) && IsPlace(s0, w) && v != w && Candidate(At(s0, v), newest, a) && Candidate(At(s0, w), newest, b))
      ==> a == b
  }

  lemma {:induction false} FirstAtAppend(queue: seq<Element>, x: Element, t: nat)
    ensures FirstAt(queue + [x], t) ==
            if FirstAt(queue, t).Some? then FirstAt(queue, t) else if t <= x.time then Some(x) else None
    decreases |queue|
  {
    AppendDrop(queue, x);
    if queue != [] && queue[0].time < t {
      FirstAtAppend(queue[1..], x, t);
    }
  }

  /** All elements of a copy are no newer than t. */
  ghost predicate UpTo(c: Copy, t: nat) { forall e :: Holds(c, e) ==> e.time <= t }

  lemma WritePins(c: Copy, x: Element, t: nat)
    ensures Pinned(c, t).Some? ==> Pinned(WriteTo(c, x), t) == Pinned(c, t)
    ensures Pinned(c, t).None? ==> Pinned(WriteTo(c, x), t) == if t <= x.time then Some(x) else None
  {
    FirstAtAppend(c.queue, x, t);
  }

  lemma RanPins(c: Copy, t: nat)
    requires c.queue != [] && UpTo(c, t)
    ensures Pinned(RanTask(c), t) == Pinned(c, t)
  {
    assert Holds(c, c.queue[0]);
  }

  /** A bound copy stays so, and no copy gets a candidate but the element it is given. */
  lemma CopyCandidates(c: Copy, x: Element, t: nat, e: Element)
    requires UpTo(c, t)
    ensures Candidate(WriteTo(c, x), t, e) ==> Candidate(c, t, e) || (e == x && t <= x.time)
    ensures Candidate(Sent(c, x), t, e) ==> Candidate(c, t, e) || (e == x && t <= x.time)
    ensures x in c.writes && Candidate(Delivered(c, x), t, e) ==> Candidate(c, t, e)
    ensures c.queue != [] && Candidate(RanTask(c), t, e) ==> Candidate(c, t, e)
  {
    hide UpTo, Holds;
    WritePins(c, x, t);
    if x in c.writes {
      WritePins(c.(writes := c.writes - multiset{x}), x, t);
      assert forall y :: y in c.writes - multiset{x} ==> y in c.writes;
    }
    if c.queue != [] {
      RanPins(c, t);
    }
    hide WriteTo;
  }

  lemma CopyStaysPinned(c: Copy, x: Element, t: nat)
    requires UpTo(c, t) && Pinned(c, t).Some?
    ensures Pinned(WriteTo(c, x), t) == Pinned(c, t) && Pinned(Sent(c, x), t) == Pinned(c, t)
    ensures Pinned(Delivered(c, x), t) == Pinned(c, t)
    ensures c.queue != [] ==> Pinned(RanTask(c), t) == Pinned(c, t)
  {
    hide UpTo;
    WritePins(c, x, t);
    WritePins(c.(writes := c.writes - multiset{x}), x, t);
    if c.queue != [] {
      RanPins(c, t);
    }
  }

  lemma KnownUpTo(s0: Round, s: Round, w: Place, newest: nat)
    requires Known(s0, s) && IsNewest(s0, newest) && IsPlace(s, w)
    ensures UpTo(At(s, w), newest)
  {
    assert CopyKnown(s0, At(s, w));
    hide Holds, HeldAtStart;
  }

  lemma StepPins(s: Round, e: Event, w: Place, t: nat)
    requires Enabled(s, e) && IsPlace(s, w) && UpTo(At(s, w), t) && Pinned(At(s, w), t).Some?
    ensures IsPlace(Step(s, e), w) && Pinned(At(Step(s, e), w), t) == Pinned(At(s, w), t)
  {
    StepCopies(s, e, w);
    hide Step, Pinned, UpTo;
    match e
    case Ask(_) =>
    case Answer(i) =>
      CopyStaysPinned(At(s, w), s.peers[i].answer.value, t);
      if Compare(s.own.slot, s.peers[i].answer.value).SendBack? {
        CopyStaysPinned(At(s, w), s.own.slot.value, t);
      }
    case Deliver(v, x) => CopyStaysPinned(At(s, w), x, t);
    case RunTask(v) => CopyStaysPinned(At(s, w), ReadOf(s.own.slot), t);
  }

  // ----- agreeing candidates lead to one value -----

  /** Whatever may still become the element under t at some replica, or is answered, is v. */
  ghost predicate OnlyValue(s: Round, t: nat, v: Element) {
    && (forall w, e :: IsPlace(s, w) && Candidate(At(s, w), t, e) ==> e == v)
    && (forall i :: 0 <= i < |s.peers| && s.peers[i].answer.Some? && t <= s.peers[i].answer.value.time ==>
          s.peers[i].answer.value == v)
  }

  lemma SlotIsOnly(s: Round, w: Place, t: nat, v: Element)
    requires OnlyValue(s, t, v) && IsPlace(s, w) && t <= TimeOf(At(s, w).slot)
    requires At(s, w).slot.Some? || 0 < t || v == Blank()
    ensures ReadOf(At(s, w).slot) == v
  {
    if At(s, w).slot.Some? {
      assert Candidate(At(s, w), t, ReadOf(At(s, w).slot));
    }
  }

  lemma StepOnlyAt(s: Round, e: Event, w: Place, t: nat, v: Element, x: Element)
    requires OnlyValue(s, t, v) && Enabled(s, e) && IsPlace(s, w) && UpTo(At(s, w), t)
    requires Candidate(CopyAfter(s, e, w), t, x)
    ensures x == v
  {
    var c := At(s, w);
    if Candidate(c, t, x) {
    } else {
      hide Candidate, UpTo;
      match e
      case Ask(_) =>
      case Answer(i) =>
        CopyCandidates(c, s.peers[i].answer.value, t, x);
        if Compare(s.own.slot, s.peers[i].answer.value).SendBack? {
          CopyCandidates(c, s.own.slot.value, t, x);
          assert At(s, Own) == s.own;
          if t <= TimeOf(s.own.slot) {
            SlotIsOnly(s, Own, t, v);
          }
        }
      case Deliver(u, y) => CopyCandidates(c, y, t, x);
      case RunTask(u) => CopyCandidates(c, x, t, x);
    }
  }

  lemma StepOnly(s0: Round, s: Round, e: Event, t: nat, v: Element)
    requires Known(s0, s) && IsNewest(s0, t) && OnlyValue(s, t, v) && Enabled(s, e)
    requires 0 < t || v == Blank()
    ensures OnlyValue(Step(s, e), t, v)
  {
    var s' := Step(s, e);
    hide Known, IsNewest, Candidate, Step;
    forall w, x | IsPlace(s', w) && Candidate(At(s', w), t, x) ensures x == v {
      StepCopies(s, e, w);
      KnownUpTo(s0, s, w, t);
      StepOnlyAt(s, e, w, t, v, x);
    }
    forall i | 0 <= i < |s'.peers| && s'.peers[i].answer.Some? && t <= s'.peers[i].answer.value.time
      ensures s'.peers[i].answer.value == v
    {
      StepAsks(s, e, i);
      if e == Ask(i) {
        SlotIsOnly(s, Remote(i), t, v);
      }
    }
  }

  lemma {:induction false} RunOnly(s0: Round, events: seq<Event>, s: Round, t: nat, v: Element)
    requires Started(s0) && IsNewest(s0, t) && Run(s0, events, s) && (0 < t || v == Blank())
    requires forall w, e :: IsPlace(s0, w) && Candidate(At(s0, w), t, e) ==> e == v
    ensures OnlyValue(s, t, v)
    decreases |events|
  {
    if events != [] {
      var last := events[|events| - 1];
      var u :| Run(s0, Front(events), u) && Follows(u, last, s);
      hide Started, IsNewest, Known, Run, Step, Candidate, OnlyValue;
      RunOnly(s0, Front(events), u, t, v);
      RunKnows(s0, Front(events), u);
      StepOnly(s0, u, last, t, v);
    }
  }

  /** A copy that reaches t has a candidate. */
  lemma {:induction false} FirstAtFinds(queue: seq<Element>, t: nat)
    ensures FirstAt(queue, t).None? <==> forall e :: e in queue ==> e.time < t
    decreases |queue|
  {
    if queue != [] && queue[0].time < t {
      FirstAtFinds(queue[1..], t);
      assert forall e :: e in queue ==> e == queue[0] || e in queue[1..];
    }
  }

  lemma SomeCandidate(c: Copy, t: nat) returns (e: Element)
    requires Reaches(c, t) && 0 < t
    ensures Candidate(c, t, e)
  {
    FirstAtFinds(c.queue, t);
    if Pinned(c, t).Some? {
      e := Pinned(c, t).value;
    } else {
      e :| e in c.writes && t <= e.time;
    }
  }

  /** When the round converges and there are peers, some replica is bound to its element, or every replica has
      a candidate. */
  lemma CandidateElsewhere(s0: Round, newest: nat, w: Place) returns (v: Place, e: Element)
    requires 0 < newest && Converges(s0, newest) && s0.peers != [] && IsPlace(s0, w) && Pinned(At(s0, w), newest).None?
    ensures IsPlace(s0, v) && v != w && Candidate(At(s0, v), newest, e)
  {
    if forall u :: IsPlace(s0, u) ==> Reaches(At(s0, u), newest) {
      v := if w.Own? then Remote(0) else Own;
    } else if newest <= TimeOf(s0.own.slot) {
      v := Own;
      assert At(s0, Own) == s0.own;
    } else {
      var i: nat :| i < |s0.peers| && newest <= TimeOf(s0.peers[i].copy.slot);
      v := Remote(i);
    }
    e := SomeCandidate(At(s0, v), newest);
  }

  /** Replicas that agree with each other agree with themselves. */
  lemma OneValue(s0: Round, newest: nat, v: Place, a: Element, w: Place, b: Element)
    requires 0 < newest && Converges(s0, newest) && Agree(s0, newest) && s0.peers != []
    requires IsPlace(s0, v) && IsPlace(s0, w) && Candidate(At(s0, v), newest, a) && Candidate(At(s0, w), newest, b)
    ensures a == b
  {
    if v == w && Pinned(At(s0, w), newest).None? {
      hide Converges;
      var u, c := CandidateElsewhere(s0, newest, w);
      hide Candidate;
      assert a == c && b == c;
    }
  }

  lemma AllAtReadsOne(s: Round, t: nat, v: Element)
    requires AllAt(s, t) && OnlyValue(s, t, v) && (0 < t || v == Blank())
    ensures AllRead(s, v)
  {
    hide OnlyValue;
    forall w | IsPlace(s, w) ensures ReadOf(At(s, w).slot) == v {
      SlotIsOnly(s, w, t, v);
    }
  }

  lemma AloneReads(s: Round)
    requires s.peers == []
    ensures AllRead(s, ReadOf(s.own.slot))
  {
  }

  /** Some replica has a candidate from the start: one that holds the greatest timestamp. */
  lemma StartCandidate(s0: Round, newest: nat) returns (w: Place, v: Element)
    requires IsNewest(s0, newest) && 0 < newest
    ensures IsPlace(s0, w) && Candidate(At(s0, w), newest, v) && Reaches(At(s0, w), newest)
  {
    var e :| HeldAtStart(s0, e) && e.time == newest;
    w :| IsPlace(s0, w) && Holds(At(s0, w), e);
    v := SomeCandidate(At(s0, w), newest);
  }

  lemma AgreeConverges(s0: Round, events: seq<Event>, s: Round, newest: nat) returns (v: Element)
    requires Started(s0) && Run(s0, events, s) && Quiet(s) && IsNewest(s0, newest) && newest > 0
    requires Converges(s0, newest) && Agree(s0, newest)
    ensures AllRead(s, v)
  {
    RunKnows(s0, events, s);
    if s.peers == [] {
      v := ReadOf(s.own.slot);
      AloneReads(s);
    } else {
      var w;
      w, v := StartCandidate(s0, newest);
      hide Started, Run, Quiet, IsNewest, Converges, Agree, Candidate, Known, AllAt, AllRead;
      forall u, e | IsPlace(s0, u) && Candidate(At(s0, u), newest, e) ensures e == v {
        OneValue(s0, newest, u, e, w, v);
      }
      RunOnly(s0, events, s, newest, v);
      RepairConverges(s0, events, s, newest);
      AllAtReadsOne(s, newest, v);
    }
  }

  // ----- two candidates that differ can both come true -----

  ghost predicate Bounds(s: Round, w: Place, t: nat, e: Element) {
    IsPlace(s, w) && Pinned(At(s, w), t) == Some(e)
  }

  lemma StepBounds(s0: Round, s: Round, e: Event, w: Place, t: nat, x: Element)
    requires Known(s0, s) && IsNewest(s0, t) && Enabled(s, e) && Bounds(s, w, t, x)
    ensures Bounds(Step(s, e), w, t, x)
  {
    KnownUpTo(s0, s, w, t);
    StepPins(s, e, w, t);
  }

  /** A candidate can be delivered first, while everything else stays as it is. */
  lemma Land(s0: Round, before: seq<Event>, s: Round, w: Place, t: nat, e: Element) returns (events: seq<Event>, u: Round)
    requires Run(s0, before, s) && IsPlace(s, w) && Candidate(At(s, w), t, e)
    ensures Run(s0, events, u) && Bounds(u, w, t, e)
    ensures forall v :: IsPlace(s, v) && v != w ==> IsPlace(u, v) && At(u, v) == At(s, v)
  {
    hide Run;
    if Pinned(At(s, w), t).Some? {
      events, u := before, s;
    } else {
      Extend(s0, before, s, Deliver(w, e));
      events, u := before + [Deliver(w, e)], Step(s, Deliver(w, e));
      WritePins(At(s, w).(writes := At(s, w).writes - multiset{e}), e, t);
    }
  }

  /** Two replicas bound to their elements remain so until the round ends. */
  lemma {:induction false} EndsBound(s0: Round, before: seq<Event>, s: Round, v: Place, a: Element, w: Place, b: Element, t: nat)
    returns (events: seq<Event>, u: Round)
    requires Started(s0) && Run(s0, before, s) && IsNewest(s0, t) && Bounds(s, v, t, a) && Bounds(s, w, t, b)
    ensures Run(s0, events, u) && Quiet(u) && Bounds(u, v, t, a) && Bounds(u, w, t, b)
    decreases Left(s)
  {
    if Quiet(s) {
      events, u := before, s;
    } else {
      hide Started, Run, IsNewest, Bounds, Step, Quiet, Known;
      var e := NotQuietMoves(s);
      RunKnows(s0, before, s);
      StepBounds(s0, s, e, v, t, a);
      StepBounds(s0, s, e, w, t, b);
      StepWorks(s, e);
      Extend(s0, before, s, e);
      events, u := EndsBound(s0, before + [e], Step(s, e), v, a, w, b, t);
    }
  }

  lemma BoundReads(s: Round, w: Place, t: nat, e: Element)
    requires Bounds(s, w, t, e) && Quiet(s)
    ensures ReadOf(At(s, w).slot) == e
  {
    assert Still(At(s, w));
  }

  lemma DifferentReads(s0: Round, v: Place, a: Element, w: Place, b: Element, t: nat)
    returns (events: seq<Event>, s: Round)
    requires Started(s0) && IsNewest(s0, t) && IsPlace(s0, v) && IsPlace(s0, w) && v != w && a != b
    requires Candidate(At(s0, v), t, a) && Candidate(At(s0, w), t, b)
    ensures Run(s0, events, s) && Quiet(s) && forall e :: !AllRead(s, e)
  {
    assert Run(s0, [], s0);
    hide Started, Run, IsNewest, Candidate;
    var first, s1 := Land(s0, [], s0, v, t, a);
    var second, s2 := Land(s0, first, s1, w, t, b);
    assert Bounds(s2, v, t, a);
    hide Bounds, Quiet;
    events, s := EndsBound(s0, second, s2, v, a, w, b, t);
    BoundReads(s, v, t, a);
    BoundReads(s, w, t, b);
    BoundPlace(s, v, t, a);
    BoundPlace(s, w, t, b);
  }

  lemma BoundPlace(s: Round, w: Place, t: nat, e: Element)
    requires Bounds(s, w, t, e)
    ensures IsPlace(s, w)
  {
  }

  // ----- the result -----

  /** In every run that comes to an end all replicas read the same. */
  ghost predicate AlwaysSame(s0: Round) {
    forall events, s :: Run(s0, events, s) && Quiet(s) ==> SameRead(s)
  }

  ghost predicate SameRead(s: Round) { exists e :: AllRead(s, e) }

  lemma {:induction false} RunImproves(s0: Round, events: seq<Event>, s: Round, w: Place, t: nat)
    requires Run(s0, events, s) && IsPlace(s0, w) && Reaches(At(s0, w), t)
    ensures IsPlace(s, w) && Reaches(At(s, w), t)
    decreases |events|
  {
    if events != [] {
      var last := events[|events| - 1];
      var u :| Run(s0, Front(events), u) && Follows(u, last, s);
      hide Run, Step, Reaches;
      RunImproves(s0, Front(events), u, w, t);
      StepCopies(u, last, w);
      StepImproves(u, last, w);
    }
  }

  /** Replicas that read the same all have the greatest timestamp, since one of them must. */
  lemma SameReadIsNewest(s0: Round, events: seq<Event>, s: Round, newest: nat)
    requires Started(s0) && Run(s0, events, s) && Quiet(s) && IsNewest(s0, newest) && 0 < newest && SameRead(s)
    ensures AllAt(s, newest)
  {
    var w, x := StartCandidate(s0, newest);
    RunImproves(s0, events, s, w, newest);
    RunKnows(s0, events, s);
    var e :| AllRead(s, e);
    assert Still(At(s, w));
    assert newest <= TimeOf(At(s, w).slot);
    hide Known, IsNewest, Run, Quiet, Candidate, Started, Reaches;
    SlotsUpTo(s0, s, w, newest);
  }

  lemma AlwaysSameConverges(s0: Round, newest: nat)
    requires Started(s0) && IsNewest(s0, newest) && 0 < newest && AlwaysSame(s0)
    ensures Converges(s0, newest)
  {
    hide Started, IsNewest, Run, Quiet, AllAt, SameRead, Converges;
    forall events, s | Run(s0, events, s) && Quiet(s) ensures AllAt(s, newest) {
      SameReadIsNewest(s0, events, s, newest);
    }
    ConvergesIff(s0, newest);
  }

  lemma DisagreeDiffers(s0: Round, newest: nat)
    requires Started(s0) && IsNewest(s0, newest) && !Agree(s0, newest)
    ensures !AlwaysSame(s0)
  {
    var v, w, a, b :| IsPlace(s0, v) && IsPlace(s0, w) && v != w
                      && Candidate(At(s0, v), newest, a) && Candidate(At(s0, w), newest, b) && a != b;
    hide Started, IsNewest, Run, Quiet, Candidate, AllRead;
    var events, s := DifferentReads(s0, v, a, w, b, newest);
    assert !SameRead(s);
  }

  /** Above time 0, in every run all replicas end with the same value if and only if the round converges and no
      two of them may end with different elements: two values under one timestamp are never reconciled. */
  lemma SameAboveZeroIff(s0: Round, newest: nat)
    requires Started(s0) && IsNewest(s0, newest) && 0 < newest
    ensures AlwaysSame(s0) <==> Converges(s0, newest) && Agree(s0, newest)
  {
    hide Started, IsNewest, Run, Quiet, Converges, Agree, AllRead;
    if Converges(s0, newest) && Agree(s0, newest) {
      forall events, s | Run(s0, events, s) && Quiet(s) ensures SameRead(s) {
        var v := AgreeConverges(s0, events, s, newest);
      }
    }
    hide AlwaysSame;
    if !Agree(s0, newest) {
      DisagreeDiffers(s0, newest);
    }
    if AlwaysSame(s0) {
      AlwaysSameConverges(s0, newest);
    }
  }

  /** Two replicas with different values under one timestamp keep them. */
  function Tied(): Round {
    Round(Copy(Some(Element("a", 1)), [], multiset{}), [Peer(Copy(Some(Element("b", 1)), [], multiset{}), true, None)])
  }

  lemma TiesStay()
    ensures Started(Tied()) && IsNewest(Tied(), 1) && Converges(Tied(), 1) && !AlwaysSame(Tied())
  {
    var s, a, b := Tied(), Element("a", 1), Element("b", 1);
    assert At(s, Own) == s.own && At(s, Remote(0)) == s.peers[0].copy;
    assert Holds(At(s, Own), a);
    assert forall w :: IsPlace(s, w) ==> w == Own || w == Remote(0);
    assert Candidate(At(s, Own), 1, a) && Candidate(At(s, Remote(0)), 1, b);
    assert IsNewest(s, 1) && Started(s);
    hide IsNewest, Started, AlwaysSame, Candidate;
    SameAboveZeroIff(s, 1);
  }
}
