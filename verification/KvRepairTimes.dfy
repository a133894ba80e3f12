/** When a round of read repair brings every replica to the greatest timestamp. */
module RepairTimes {
  import opened Wrappers
  import opened Lists
  import opened Replicas
  import opened ReadRepair

  /** What a caller can check at the start: every replica has the timestamp already, in its slot, waiting or
      under way; or the coordinator's slot has it; or the coordinator has it nowhere and some peer's slot
      has it. */
  ghost predicate Converges(s0: Round, newest: nat) {
    || (forall w :: IsPlace(s0, w) ==> Reaches(At(s0, w), newest))
    || newest <= TimeOf(s0.own.slot)
    || (!Reaches(s0.own, newest) && exists i :: 0 <= i < |s0.peers| && newest <= TimeOf(s0.peers[i].copy.slot))
  }

  // ----- the three ways to reach it -----

  ghost predicate AllReach(s: Round, t: nat) {
    forall w :: IsPlace(s, w) ==> Reaches(At(s, w), t)
  }

  /** A peer that is dealt with is bound to reach what the coordinator's slot has. */
  ghost predicate Served(p: Peer, t: nat) {
    && (p.answer.Some? ==> p.answer.value.time <= TimeOf(p.copy.slot))
    && (Done(p) ==> Reaches(p.copy, t))
  }

  ghost predicate OwnHas(s: Round, t: nat) {
    t <= TimeOf(s.own.slot) && forall i :: 0 <= i < |s.peers| ==> Served(s.peers[i], t)
  }

  /** The coordinator takes the timestamp over from peer x, if from anybody, and then everybody is sent it. */
  ghost predicate PeerHas(s: Round, x: nat, t: nat) {
    && x < |s.peers| && t <= TimeOf(s.peers[x].copy.slot)
    && (s.peers[x].answer.Some? ==> t <= s.peers[x].answer.value.time)
    && (Done(s.peers[x]) ==> Reaches(s.own, t))
    && (Reaches(s.own, t) ==> AllReach(s, t))
  }

  lemma AllReachKept(s: Round, e: Event, t: nat)
    requires AllReach(s, t) && Enabled(s, e)
    ensures AllReach(Step(s, e), t)
  {
    var s' := Step(s, e);
    hide Reaches, Step;
    forall w | IsPlace(s', w) ensures Reaches(At(s', w), t) {
      StepCopies(s, e, w);
      StepImproves(s, e, w);
    }
  }

  /** Whoever is answered by the coordinator's slot, or has answered with as much, is served. */
  lemma AnswerServes(s: Round, i: nat, t: nat)
    requires Enabled(s, Answer(i)) && t <= TimeOf(s.own.slot)
    requires s.peers[i].answer.value.time <= TimeOf(s.peers[i].copy.slot)
    ensures Reaches(CopyAfter(s, Answer(i), Remote(i)), t)
  {
    var c, x := At(s, Remote(i)), s.peers[i].answer.value;
    match Compare(s.own.slot, x)
    case Adopt => SentReaches(c, x, t);
    case SendBack => SentReaches(c, s.own.slot.value, t);
    case Leave =>
  }

  lemma ServedKept(s: Round, e: Event, i: nat, t: nat)
    requires OwnHas(s, t) && Enabled(s, e) && i < |s.peers|
    ensures Served(Step(s, e).peers[i], t)
  {
    assert Served(s.peers[i], t);
    StepAsks(s, e, i);
    StepCopies(s, e, Remote(i));
    StepImproves(s, e, Remote(i));
    if e == Answer(i) {
      AnswerServes(s, i, t);
    }
    hide Reaches, Step;
  }

  lemma OwnHasKept(s: Round, e: Event, t: nat)
    requires OwnHas(s, t) && Enabled(s, e)
    ensures OwnHas(Step(s, e), t)
  {
    var s' := Step(s, e);
    StepCopies(s, e, Own);
    StepImproves(s, e, Own);
    assert t <= TimeOf(s'.own.slot);
    hide Step, Served;
    forall i | 0 <= i < |s'.peers| ensures Served(s'.peers[i], t) {
      ServedKept(s, e, i, t);
    }
  }

  /** The coordinator comes to reach a timestamp only by taking over an answer, which it sends to all. */
  lemma OwnReachesByAnswer(s: Round, e: Event, t: nat)
    requires Enabled(s, e) && !Reaches(s.own, t) && Reaches(CopyAfter(s, e, Own), t)
    ensures e.Answer? && t <= s.peers[e.peer].answer.value.time
    ensures Compare(s.own.slot, s.peers[e.peer].answer.value) == Adopt
  {
    match e
    case Ask(_) =>
    case Answer(i) => WriteReaches(s.own, s.peers[i].answer.value, t);
    case Deliver(w, x) =>
      if w.Own? {
        DeliveredReaches(s.own, x, t);
      }
    case RunTask(w) =>
      if w.Own? {
        RanReaches(s.own, t);
      }
  }

  lemma AdoptReachesAll(s: Round, i: nat, t: nat)
    requires Enabled(s, Answer(i)) && t <= s.peers[i].answer.value.time
    requires Compare(s.own.slot, s.peers[i].answer.value) == Adopt
    ensures AllReach(Step(s, Answer(i)), t)
  {
    var s', x := Step(s, Answer(i)), s.peers[i].answer.value;
    hide Step, Reaches;
    forall w | IsPlace(s', w) ensures Reaches(At(s', w), t) {
      StepCopies(s, Answer(i), w);
      WriteReaches(At(s, w), x, t);
      SentReaches(At(s, w), x, t);
    }
  }

  lemma OwnSpreads(s: Round, e: Event, t: nat)
    requires Enabled(s, e) && (Reaches(s.own, t) ==> AllReach(s, t)) && Reaches(Step(s, e).own, t)
    ensures AllReach(Step(s, e), t)
  {
    StepCopies(s, e, Own);
    hide Step, AllReach;
    if Reaches(s.own, t) {
      AllReachKept(s, e, t);
    } else {
      OwnReachesByAnswer(s, e, t);
      AdoptReachesAll(s, e.peer, t);
    }
  }

  /** The answer of a peer that has the timestamp makes the coordinator reach it. */
  lemma AnswerIsTaken(s: Round, i: nat, t: nat)
    requires Enabled(s, Answer(i)) && t <= s.peers[i].answer.value.time
    ensures Reaches(CopyAfter(s, Answer(i), Own), t)
  {
    WriteReaches(s.own, s.peers[i].answer.value, t);
  }

  lemma PeerHasKept(s: Round, e: Event, x: nat, t: nat)
    requires PeerHas(s, x, t) && Enabled(s, e)
    ensures PeerHas(Step(s, e), x, t)
  {
    var s' := Step(s, e);
    StepAsks(s, e, x);
    StepCopies(s, e, Remote(x));
    StepImproves(s, e, Remote(x));
    StepCopies(s, e, Own);
    StepImproves(s, e, Own);
    if e == Answer(x) {
      AnswerIsTaken(s, x, t);
    }
    hide Step, AllReach;
    if Reaches(s'.own, t) {
      OwnSpreads(s, e, t);
    }
    hide Reaches;
  }

  /** One of the three ways holds all along. */
  ghost predicate Bound(s: Round, t: nat) {
    AllReach(s, t) || OwnHas(s, t) || exists x :: PeerHas(s, x, t)
  }

  lemma BoundAtStart(s0: Round, t: nat)
    requires Started(s0) && Converges(s0, t)
    ensures Bound(s0, t)
  {
    hide Reaches;
    if i: nat :| i < |s0.peers| && !Reaches(s0.own, t) && t <= TimeOf(s0.peers[i].copy.slot) {
      assert PeerHas(s0, i, t);
    }
  }

  lemma BoundKept(s: Round, e: Event, t: nat)
    requires Bound(s, t) && Enabled(s, e)
    ensures Bound(Step(s, e), t)
  {
    hide AllReach, OwnHas, PeerHas, Step;
    if AllReach(s, t) {
      AllReachKept(s, e, t);
    } else if OwnHas(s, t) {
      OwnHasKept(s, e, t);
    } else {
      var x: nat :| PeerHas(s, x, t);
      PeerHasKept(s, e, x, t);
    }
  }

  lemma {:induction false} RunBound(s0: Round, events: seq<Event>, s: Round, t: nat)
    requires Started(s0) && Converges(s0, t) && Run(s0, events, s)
    ensures Bound(s, t)
    decreases |events|
  {
    hide Bound, Converges;
    if events == [] {
      BoundAtStart(s0, t);
    } else {
      var last := events[|events| - 1];
      var u :| Run(s0, Front(events), u) && Follows(u, last, s);
      hide Started, Run, Step;
      RunBound(s0, Front(events), u, t);
      BoundKept(u, last, t);
    }
  }

  lemma QuietReaches(s: Round, t: nat)
    requires Bound(s, t) && Quiet(s)
    ensures forall w :: IsPlace(s, w) ==> t <= TimeOf(At(s, w).slot)
  {
    forall w | IsPlace(s, w) ensures t <= TimeOf(At(s, w).slot) {
      assert Still(At(s, w));
      assert w.Remote? ==> Done(s.peers[w.peer]);
      if x: nat :| PeerHas(s, x, t) {
        assert Done(s.peers[x]);
      }
    }
  }

  lemma SlotsUpTo(s0: Round, s: Round, w: Place, newest: nat)
    requires Known(s0, s) && IsNewest(s0, newest) && IsPlace(s, w)
    ensures TimeOf(At(s, w).slot) <= newest && HeldAtStart(s0, ReadOf(At(s, w).slot))
  {
    assert CopyKnown(s0, At(s, w)) && Holds(At(s, w), ReadOf(At(s, w).slot));
  }

  /** Whatever the order in which everything happened, once nothing is under way every replica has the
      greatest timestamp, with a value some replica had under it at the start. */
  lemma RepairConverges(s0: Round, events: seq<Event>, s: Round, newest: nat)
    requires Started(s0) && Run(s0, events, s) && Quiet(s) && IsNewest(s0, newest) && Converges(s0, newest)
    ensures AllAt(s, newest)
    ensures forall w :: IsPlace(s, w) ==> HeldAtStart(s0, ReadOf(At(s, w).slot))
  {
    RunBound(s0, events, s, newest);
    RunKnows(s0, events, s);
    QuietReaches(s, newest);
    hide HeldAtStart, Known, IsNewest, Bound, Run;
    forall w | IsPlace(s, w)
      ensures TimeOf(At(s, w).slot) == newest && HeldAtStart(s0, ReadOf(At(s, w).slot))
    {
      SlotsUpTo(s0, s, w, newest);
    }
  }

  // ----- otherwise some run misses it -----

  ghost predicate NobodyAsked(s: Round) { forall i :: 0 <= i < |s.peers| ==> Done(s.peers[i]) }

  ghost predicate NobodyOffers(s: Round, t: nat) {
    forall i :: 0 <= i < |s.peers| ==>
      TimeOf(s.peers[i].copy.slot) < t && (s.peers[i].answer.Some? ==> s.peers[i].answer.value.time < t)
  }

  /** The replica at w lacks the timestamp, and the coordinator will not send it there any more: w is done,
      and no answer that has the timestamp is still to come, or the coordinator has it first. */
  ghost predicate Missed(s: Round, w: Place, t: nat) {
    && IsPlace(s, w) && !Reaches(At(s, w), t)
    && (w.Remote? ==> Done(s.peers[w.peer]))
    && (NobodyAsked(s) || NobodyOffers(s, t) || Reaches(s.own, t))
  }

  /** No answer is newer than t. */
  ghost predicate AnswersUpTo(s: Round, t: nat) {
    forall i :: 0 <= i < |s.peers| && s.peers[i].answer.Some? ==> s.peers[i].answer.value.time <= t
  }

  /** An event in an order that leaves w without: the coordinator's own writes first, then answers and
      questions, then everything else. */
  ghost predicate Orderly(s: Round, e: Event) {
    && Enabled(s, e)
    && (e.Ask? || e.Answer? ==> Still(s.own))
    && ((e.Deliver? || e.RunTask?) && e.place.Remote? ==> NobodyAsked(s))
  }

  /** A task or a delivery changes nobody's reach. */
  lemma WorkReaches(s: Round, e: Event, w: Place, t: nat)
    requires Enabled(s, e) && (e.Deliver? || e.RunTask?) && IsPlace(s, w)
    ensures Reaches(CopyAfter(s, e, w), t) <==> Reaches(At(s, w), t)
  {
    if e.place == w {
      if e.Deliver? {
        DeliveredReaches(At(s, w), e.element, t);
      } else {
        RanReaches(At(s, w), t);
      }
    }
  }

  lemma WorkAsks(s: Round, e: Event)
    requires Enabled(s, e) && (e.Deliver? || e.RunTask?)
    ensures forall i :: 0 <= i < |s.peers| ==>
              Step(s, e).peers[i].asked == s.peers[i].asked && Step(s, e).peers[i].answer == s.peers[i].answer
    ensures e.place.Own? ==> Step(s, e).peers == s.peers
  {
    hide Delivered, RanTask;
  }

  lemma WorkMisses(s: Round, e: Event, w: Place, t: nat)
    requires Missed(s, w, t) && Orderly(s, e) && (e.Deliver? || e.RunTask?)
    ensures Missed(Step(s, e), w, t)
  {
    hide Reaches, Step, CopyAfter;
    WorkAsks(s, e);
    StepCopies(s, e, w);
    StepCopies(s, e, Own);
    WorkReaches(s, e, w, t);
    WorkReaches(s, e, Own, t);
    hide Enabled;
  }

  lemma AskMisses(s: Round, i: nat, w: Place, t: nat)
    requires Missed(s, w, t) && Enabled(s, Ask(i))
    ensures Missed(Step(s, Ask(i)), w, t)
  {
    var s' := Step(s, Ask(i));
    hide Reaches;
    assert At(s', w) == At(s, w) && s'.own == s.own;
    assert !NobodyAsked(s);
  }

  /** A too old answer brings nobody to t. */
  lemma OldAnswerMisses(s: Round, i: nat, w: Place, t: nat)
    requires Enabled(s, Answer(i)) && IsPlace(s, w) && w != Remote(i) && !Reaches(At(s, w), t)
    requires s.peers[i].answer.value.time < t
    ensures !Reaches(CopyAfter(s, Answer(i), w), t)
  {
    var x := s.peers[i].answer.value;
    WriteReaches(s.own, x, t);
    SentReaches(At(s, w), x, t);
    hide Reaches;
  }

  /** Nor is an answer taken over when the coordinator's slot has as much. */
  lemma NotTaken(s: Round, i: nat, t: nat)
    requires Enabled(s, Answer(i)) && Still(s.own) && Reaches(s.own, t) && 0 < t && s.peers[i].answer.value.time <= t
    ensures Compare(s.own.slot, s.peers[i].answer.value) != Adopt
  {
  }

  lemma OwnDiffers(s: Round, w: Place, t: nat)
    requires IsPlace(s, w) && !Reaches(At(s, w), t)
    ensures 0 < t && (Reaches(s.own, t) ==> w.Remote?)
  {
  }

  /** What an answer that is not taken over, or is too old, does at w. */
  lemma AnswerMissesAt(s: Round, i: nat, w: Place, t: nat)
    requires Missed(s, w, t) && Orderly(s, Answer(i)) && AnswersUpTo(s, t)
    ensures !Reaches(CopyAfter(s, Answer(i), w), t)
  {
    assert !NobodyAsked(s) && w != Remote(i) && s.peers[i].answer.value.time <= t;
    assert NobodyOffers(s, t) ==> s.peers[i].answer.value.time < t;
    OwnDiffers(s, w, t);
    hide NobodyOffers, NobodyAsked, Reaches, AnswersUpTo;
    if Reaches(s.own, t) {
      NotTaken(s, i, t);
    } else {
      OldAnswerMisses(s, i, w, t);
    }
  }

  /** Dealing with an answer takes nothing from the others and changes no slot. */
  lemma AnswerKeepsOffers(s: Round, i: nat, t: nat)
    requires Enabled(s, Answer(i)) && NobodyOffers(s, t)
    ensures NobodyOffers(Step(s, Answer(i)), t)
  {
    var s' := Step(s, Answer(i));
    hide Step, CopyAfter;
    forall j | 0 <= j < |s'.peers|
      ensures TimeOf(s'.peers[j].copy.slot) < t && (s'.peers[j].answer.Some? ==> s'.peers[j].answer.value.time < t)
    {
      StepAsks(s, Answer(i), j);
      StepCopies(s, Answer(i), Remote(j));
      AnswerKeepsSlot(s, i, j);
    }
  }

  lemma AnswerKeepsSlot(s: Round, i: nat, j: nat)
    requires Enabled(s, Answer(i)) && j < |s.peers|
    ensures CopyAfter(s, Answer(i), Remote(j)).slot == s.peers[j].copy.slot
  {
  }

  lemma AnswerMisses(s: Round, i: nat, w: Place, t: nat)
    requires Missed(s, w, t) && Orderly(s, Answer(i)) && AnswersUpTo(s, t)
    ensures Missed(Step(s, Answer(i)), w, t)
  {
    AnswerMissesAt(s, i, w, t);
    StepCopies(s, Answer(i), w);
    StepCopies(s, Answer(i), Own);
    StepImproves(s, Answer(i), Own);
    assert !NobodyAsked(s);
    hide Reaches, Step, CopyAfter, Orderly, AnswersUpTo, NobodyAsked;
    if w.Remote? {
      StepAsks(s, Answer(i), w.peer);
    }
    if NobodyOffers(s, t) {
      AnswerKeepsOffers(s, i, t);
    }
    hide NobodyOffers;
  }

  lemma StepMisses(s: Round, e: Event, w: Place, t: nat)
    requires Missed(s, w, t) && Orderly(s, e) && AnswersUpTo(s, t)
    ensures Missed(Step(s, e), w, t)
  {
    hide Missed, AnswersUpTo, Step;
    match e
    case Ask(i) => AskMisses(s, i, w, t);
    case Answer(i) => AnswerMisses(s, i, w, t);
    case _ => WorkMisses(s, e, w, t);
  }

  lemma KnownAnswers(s0: Round, s: Round, newest: nat)
    requires Known(s0, s) && IsNewest(s0, newest)
    ensures AnswersUpTo(s, newest)
  {
  }

  /** From a state in which w is missed the round can come to its end with w still missed. */
  lemma {:induction false} EndsMissed(s0: Round, before: seq<Event>, s: Round, w: Place, newest: nat)
    returns (events: seq<Event>, t: Round)
    requires Started(s0) && Run(s0, before, s) && IsNewest(s0, newest) && Missed(s, w, newest)
    ensures Run(s0, events, t) && Quiet(t) && Missed(t, w, newest)
    decreases Left(s)
  {
    if Quiet(s) {
      events, t := before, s;
    } else {
      hide Started, Run, IsNewest, Missed, Step, Quiet;
      var e := NotQuietMoves(s);
      RunKnows(s0, before, s);
      KnownAnswers(s0, s, newest);
      assert Orderly(s, e);
      StepMisses(s, e, w, newest);
      StepWorks(s, e);
      Extend(s0, before, s, e);
      events, t := EndsMissed(s0, before + [e], Step(s, e), w, newest);
    }
  }

  lemma MissedAtEnd(s: Round, w: Place, t: nat)
    requires Missed(s, w, t) && Quiet(s)
    ensures !AllAt(s, t)
  {
    assert Still(At(s, w));
  }

  /** Peer j, which lacks the timestamp, is asked and dealt with before anybody else. */
  lemma ServeFirst(s0: Round, j: nat, newest: nat) returns (s: Round)
    requires Started(s0) && j < |s0.peers| && !Converges(s0, newest) && !Reaches(s0.peers[j].copy, newest)
    ensures Run(s0, [Ask(j), Answer(j)], s) && Missed(s, Remote(j), newest)
  {
    var s1 := Step(s0, Ask(j));
    s := Step(s1, Answer(j));
    assert Run(s0, [], s0) && [] + [Ask(j)] == [Ask(j)] && [Ask(j)] + [Answer(j)] == [Ask(j), Answer(j)];
    Extend(s0, [], s0, Ask(j));
    Extend(s0, [Ask(j)], s1, Answer(j));
    hide Run;
    ServedFirstMisses(s0, j, newest);
  }

  lemma AskedFirst(s0: Round, j: nat, newest: nat)
    requires Started(s0) && j < |s0.peers| && !Converges(s0, newest) && !Reaches(s0.peers[j].copy, newest)
    ensures Enabled(s0, Ask(j))
    ensures var s1 := Step(s0, Ask(j));
            && Enabled(s1, Answer(j)) && s1.own == s0.own && At(s1, Remote(j)) == At(s0, Remote(j))
            && s1.peers[j].answer.value.time < newest && TimeOf(s1.own.slot) < newest
            && (NobodyOffers(s1, newest) || Reaches(s1.own, newest))
  {
  }

  lemma ServedFirstMisses(s0: Round, j: nat, newest: nat)
    requires Started(s0) && j < |s0.peers| && !Converges(s0, newest) && !Reaches(s0.peers[j].copy, newest)
    ensures Enabled(s0, Ask(j)) && Enabled(Step(s0, Ask(j)), Answer(j))
    ensures Missed(Step(Step(s0, Ask(j)), Answer(j)), Remote(j), newest)
  {
    hide Reaches, Converges, Step, NobodyOffers;
    AskedFirst(s0, j, newest);
    var s1 := Step(s0, Ask(j));
    var s2, c, x := Step(s1, Answer(j)), At(s1, Remote(j)), s1.peers[j].answer.value;
    StepAsks(s0, Ask(j), j);
    StepAsks(s1, Answer(j), j);
    StepCopies(s1, Answer(j), Remote(j));
    StepCopies(s1, Answer(j), Own);
    StepImproves(s1, Answer(j), Own);
    SentReaches(c, x, newest);
    if Compare(s1.own.slot, x).SendBack? {
      SentReaches(c, s1.own.slot.value, newest);
    }
    assert !Reaches(At(s2, Remote(j)), newest) && Done(s2.peers[j]);
    assert Reaches(s1.own, newest) ==> Reaches(s2.own, newest);
    hide CopyAfter;
    if NobodyOffers(s1, newest) {
      AnswerKeepsOffers(s1, j, newest);
    }
  }

  /** Every run that comes to an end leaves every replica at the timestamp. */
  ghost predicate AlwaysConverges(s0: Round, newest: nat) {
    forall events, s :: Run(s0, events, s) && Quiet(s) ==> AllAt(s, newest)
  }

  lemma OwnMissed(s0: Round, newest: nat)
    requires Started(s0) && !Converges(s0, newest) && !Reaches(s0.own, newest)
    ensures Missed(s0, Own, newest)
  {
  }

  lemma SomeRunMisses(s0: Round, newest: nat) returns (events: seq<Event>, s: Round)
    requires Started(s0) && IsNewest(s0, newest) && !Converges(s0, newest)
    ensures Run(s0, events, s) && Quiet(s) && !AllAt(s, newest)
  {
    var w :| IsPlace(s0, w) && !Reaches(At(s0, w), newest);
    hide Converges, Reaches, Started, IsNewest, Missed;
    if w.Own? {
      OwnMissed(s0, newest);
      events, s := EndsMissed(s0, [], s0, w, newest);
    } else {
      var u := ServeFirst(s0, w.peer, newest);
      events, s := EndsMissed(s0, [Ask(w.peer), Answer(w.peer)], u, w, newest);
    }
    MissedAtEnd(s, w, newest);
  }

  /** Every run ends with all replicas at the greatest timestamp if and only if one of the three conditions
      holds at the start. */
  lemma ConvergesIff(s0: Round, newest: nat)
    requires Started(s0) && IsNewest(s0, newest)
    ensures AlwaysConverges(s0, newest) <==> Converges(s0, newest)
  {
    hide Converges, IsNewest, AllAt, Started, Run, Quiet;
    if Converges(s0, newest) {
      forall events, s | Run(s0, events, s) && Quiet(s) ensures AllAt(s, newest) {
        RepairConverges(s0, events, s, newest);
      }
    } else {
      var events, s := SomeRunMisses(s0, newest);
    }
  }

  /** With nothing waiting and no write under way at the start, the round always converges. */
  lemma DrainedConverges(s0: Round, newest: nat)
    requires IsNewest(s0, newest) && forall w :: IsPlace(s0, w) ==> Still(At(s0, w))
    ensures Converges(s0, newest)
  {
    var e :| HeldAtStart(s0, e) && e.time == newest;
    var w :| IsPlace(s0, w) && Holds(At(s0, w), e);
    assert Still(At(s0, w)) && Still(At(s0, Own));
  }

  // ----- a start that does not converge -----

  /** The coordinator holds a at time 1 with z at time 9 waiting; its peers hold a and b at time 5. */
  function Waiting(): Round { WaitingWith(Copy(Some(A()), [Z()], multiset{}), Held(A()), true, Held(B()), true) }

  function A(): Element { Element("a", 1) }
  function B(): Element { Element("b", 5) }
  function Z(): Element { Element("z", 9) }

  function Held(e: Element): Copy { Copy(Some(e), [], multiset{}) }

  function WaitingWith(own: Copy, p: Copy, askP: bool, q: Copy, askQ: bool): Round {
    Round(own, [Peer(p, askP, None), Peer(q, askQ, None)])
  }

  lemma WaitingHolds(e: Element)
    ensures HeldAtStart(Waiting(), e) <==> e == A() || e == B() || e == Z()
  {
    var s := Waiting();
    assert At(s, Own) == s.own && At(s, Remote(0)) == Held(A()) && At(s, Remote(1)) == Held(B());
    assert Holds(At(s, Own), A()) && Holds(At(s, Own), Z()) && Holds(At(s, Remote(1)), B());
    assert forall w :: IsPlace(s, w) ==> w == Own || w == Remote(0) || w == Remote(1);
  }

  lemma WaitingDoesNotConverge()
    ensures Started(Waiting()) && IsNewest(Waiting(), 9) && !Converges(Waiting(), 9)
  {
    WaitingHolds(Z());
    forall e ensures HeldAtStart(Waiting(), e) ==> e.time <= 9 {
      WaitingHolds(e);
    }
    assert !Reaches(At(Waiting(), Remote(0)), 9);
    assert Z() in Waiting().own.queue && Reaches(Waiting().own, 9);
  }

  /** One event more, its outcome known. */
  lemma Then(s0: Round, before: seq<Event>, s: Round, e: Event, t: Round) returns (events: seq<Event>)
    requires Run(s0, before, s) && Follows(s, e, t)
    ensures Run(s0, events, t)
  {
    hide Run;
    Extend(s0, before, s, e);
    events := before + [e];
  }

  /** The first peer's copy equals the coordinator's slot: it is sent nothing. Then the waiting write runs. */
  lemma FirstPeerIsLeft()
    ensures Follows(Waiting(), Ask(0), FirstAsked()) && Follows(FirstAsked(), Answer(0), FirstDone())
    ensures Follows(FirstDone(), RunTask(Own), WrittenFirst())
  {
  }

  function FirstAsked(): Round {
    Round(Copy(Some(A()), [Z()], multiset{}), [Peer(Held(A()), false, Some(A())), Peer(Held(B()), true, None)])
  }

  function FirstDone(): Round { WaitingWith(Copy(Some(A()), [Z()], multiset{}), Held(A()), false, Held(B()), true) }

  function WrittenFirst(): Round { WaitingWith(Held(Z()), Held(A()), false, Held(B()), true) }

  /** Only now is the second peer asked, too late for its element to be taken over. */
  lemma SecondPeerIsTold()
    ensures Follows(WrittenFirst(), Ask(1), SecondAsked()) && Follows(SecondAsked(), Answer(1), SecondTold())
  {
  }

  function SecondAsked(): Round {
    Round(Held(Z()), [Peer(Held(A()), false, None), Peer(Held(B()), false, Some(B()))])
  }

  function SecondTold(): Round { WaitingWith(Held(Z()), Held(A()), false, Sent(Held(B()), Z()), false) }

  lemma SecondPeerWrites()
    ensures Follows(SecondTold(), Deliver(Remote(1), Z()), SecondWaits())
    ensures Follows(SecondWaits(), RunTask(Remote(1)), MissedFirst())
  {
    assert Z() in Sent(Held(B()), Z()).writes;
    assert Delivered(Sent(Held(B()), Z()), Z()) == Copy(Some(B()), [Z()], multiset{});
    assert RanTask(Copy(Some(B()), [Z()], multiset{})) == Held(Z());
  }

  function SecondWaits(): Round {
    WaitingWith(Held(Z()), Held(A()), false, Copy(Some(B()), [Z()], multiset{}), false)
  }

  function MissedFirst(): Round { WaitingWith(Held(Z()), Held(A()), false, Held(Z()), false) }

  lemma MissedFirstEnds()
    ensures Quiet(MissedFirst()) && TimeOf(At(MissedFirst(), Remote(0)).slot) == 1
  {
  }

  /** A write still waiting at the coordinator is invisible to the copy it compares: the first peer ends
      with neither that write nor the newer element the second peer had. */
  lemma WaitingWriteIsMissed() returns (events: seq<Event>)
    ensures Run(Waiting(), events, MissedFirst()) && Quiet(MissedFirst())
    ensures TimeOf(At(MissedFirst(), Remote(0)).slot) == 1
  {
    var s0 := Waiting();
    assert Run(s0, [], s0);
    hide Run, Follows, Waiting, FirstAsked, FirstDone, WrittenFirst, SecondAsked, SecondTold, SecondWaits, Z, A, B;
    FirstPeerIsLeft();
    SecondPeerIsTold();
    SecondPeerWrites();
    MissedFirstEnds();
    hide MissedFirst, Quiet;
    events := Then(s0, [], s0, Ask(0), FirstAsked());
    events := Then(s0, events, FirstAsked(), Answer(0), FirstDone());
    events := Then(s0, events, FirstDone(), RunTask(Own), WrittenFirst());
    events := Then(s0, events, WrittenFirst(), Ask(1), SecondAsked());
    events := Then(s0, events, SecondAsked(), Answer(1), SecondTold());
    events := Then(s0, events, SecondTold(), Deliver(Remote(1), Z()), SecondWaits());
    events := Then(s0, events, SecondWaits(), RunTask(Remote(1)), MissedFirst());
  }
}
