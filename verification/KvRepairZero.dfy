/** A round of read repair for a key that nobody holds under a timestamp above 0. There an absent copy answers
    with an element as new as any, the blank one, so that it can spread. */
module RepairAtZero {
  import opened Wrappers
  import opened Lists
  import opened Replicas
  import opened ReadRepair
  import opened RepairTimes
  import opened RepairValues

  ghost predicate OnlyBlank(s0: Round) {
    forall w, e :: IsPlace(s0, w) && Candidate(At(s0, w), 0, e) ==> e == Blank()
  }

  ghost predicate AllPinned(s0: Round) { forall w :: IsPlace(s0, w) ==> Pinned(At(s0, w), 0).Some? }

  ghost predicate AllPeersHold(s0: Round) { forall i :: 0 <= i < |s0.peers| ==> s0.peers[i].copy.slot.Some? }

  /** What a caller can check at the start, beside agreement: there are no peers; or nobody can end with anything
      but the blank element; or the coordinator's slot is filled; or every replica is bound to its element; or
      every peer's slot is filled. */
  ghost predicate Settles(s0: Round) {
    s0.peers == [] || OnlyBlank(s0) || s0.own.slot.Some? || AllPinned(s0) || AllPeersHold(s0)
  }

  /** Some element will be left in the copy. */
  ghost predicate HasCandidate(c: Copy) { exists e :: Candidate(c, 0, e) }

  lemma QuietCandidate(c: Copy)
    requires HasCandidate(c) && Still(c)
    ensures c.slot.Some?
  {
  }

  lemma PinnedHas(c: Copy)
    ensures Pinned(c, 0).Some? || c.writes != multiset{} ==> HasCandidate(c)
    ensures HasCandidate(c) ==> Pinned(c, 0).Some? || c.writes != multiset{}
  {
    if Pinned(c, 0).Some? {
      assert Candidate(c, 0, Pinned(c, 0).value);
    } else if e :| e in c.writes {
      assert Candidate(c, 0, e);
    }
  }

  /** A copy that has a candidate keeps one. */
  lemma CandidateKept(s: Round, e: Event, w: Place)
    requires Enabled(s, e) && IsPlace(s, w) && UpTo(At(s, w), 0) && HasCandidate(At(s, w))
    ensures HasCandidate(CopyAfter(s, e, w))
  {
    var c, d := At(s, w), CopyAfter(s, e, w);
    PinnedHas(c);
    PinnedHas(d);
    if Pinned(c, 0).Some? {
      StepPins(s, e, w, 0);
      StepCopies(s, e, w);
    } else {
      UnpinnedKept(s, e, w);
    }
  }

  lemma UnpinnedKept(s: Round, e: Event, w: Place)
    requires Enabled(s, e) && IsPlace(s, w) && At(s, w).writes != multiset{} && Pinned(At(s, w), 0).None?
    ensures Pinned(CopyAfter(s, e, w), 0).Some? || CopyAfter(s, e, w).writes != multiset{}
  {
    var c := At(s, w);
    assert c.queue != [] ==> FirstAt(c.queue, 0) == Some(c.queue[0]);
    if e.Deliver? && e.place == w {
      WritePins(c.(writes := c.writes - multiset{e.element}), e.element, 0);
    }
  }

  // ----- every replica bound to one element -----

  ghost predicate AllBound(s: Round, v: Element) {
    forall w :: IsPlace(s, w) ==> Bounds(s, w, 0, v)
  }

  lemma StepAllBound(s0: Round, s: Round, e: Event, v: Element)
    requires Known(s0, s) && IsNewest(s0, 0) && Enabled(s, e) && AllBound(s, v)
    ensures AllBound(Step(s, e), v)
  {
    var s' := Step(s, e);
    hide Known, IsNewest, Bounds, Step;
    forall w | IsPlace(s', w) ensures Bounds(s', w, 0, v) {
      StepBounds(s0, s, e, w, 0, v);
    }
  }

  // ----- the coordinator's slot filled -----

  /** The coordinator holds v; a peer's answer is blank or its copy is bound; a peer dealt with has a candidate. */
  ghost predicate OwnFilled(s: Round, v: Element) {
    && s.own.slot == Some(v) && v != Blank() && v.time == 0
    && (forall w, e :: IsPlace(s, w) && Candidate(At(s, w), 0, e) ==> e == v)
    && forall i :: 0 <= i < |s.peers| ==>
         && (Done(s.peers[i]) ==> HasCandidate(s.peers[i].copy))
         && (s.peers[i].answer.Some? ==> s.peers[i].answer.value == Blank() || s.peers[i].copy.slot.Some?)
  }

  ghost predicate TimesZero(s: Round) {
    && (forall w :: IsPlace(s, w) ==> UpTo(At(s, w), 0))
    && forall i :: 0 <= i < |s.peers| && s.peers[i].answer.Some? ==> s.peers[i].answer.value.time == 0
  }

  lemma KnownTimesZero(s0: Round, s: Round)
    requires Known(s0, s) && IsNewest(s0, 0)
    ensures TimesZero(s)
  {
    forall w | IsPlace(s, w) ensures UpTo(At(s, w), 0) {
      KnownUpTo(s0, s, w, 0);
    }
  }

  lemma SlotStays(s: Round, e: Event, w: Place)
    requires Enabled(s, e) && IsPlace(s, w) && UpTo(At(s, w), 0) && At(s, w).slot.Some?
    ensures CopyAfter(s, e, w).slot == At(s, w).slot
  {
    assert e == RunTask(w) ==> Holds(At(s, w), At(s, w).queue[0]);
  }

  /** With the coordinator's slot filled nothing is taken over. */
  lemma FilledTakesNothing(s: Round, i: nat, v: Element)
    requires Enabled(s, Answer(i)) && s.own.slot == Some(v) && s.peers[i].answer.value.time == 0
    ensures Compare(s.own.slot, s.peers[i].answer.value) != Adopt
    ensures v.time == 0 && v != Blank() && s.peers[i].answer.value == Blank() ==>
              Compare(s.own.slot, s.peers[i].answer.value) == SendBack
  {
  }

  lemma FilledCandidates(s: Round, e: Event, v: Element, w: Place, x: Element)
    requires OwnFilled(s, v) && TimesZero(s) && Enabled(s, e) && IsPlace(s, w) && Candidate(CopyAfter(s, e, w), 0, x)
    ensures x == v
  {
    var c := At(s, w);
    assert UpTo(c, 0);
    if e.Answer? {
      FilledTakesNothing(s, e.peer, v);
    }
    var y := if e.Deliver? then e.element else v;
    assert Candidate(c, 0, x) ==> x == v;
    hide Candidate, UpTo;
    CopyCandidates(c, y, 0, x);
  }

  lemma FilledServes(s: Round, e: Event, v: Element, i: nat)
    requires OwnFilled(s, v) && TimesZero(s) && Enabled(s, e) && i < |s.peers|
    ensures Done(Step(s, e).peers[i]) ==> HasCandidate(Step(s, e).peers[i].copy)
    ensures var p := Step(s, e).peers[i]; p.answer.Some? ==> p.answer.value == Blank() || p.copy.slot.Some?
  {
    var c, d := s.peers[i].copy, CopyAfter(s, e, Remote(i));
    StepAsks(s, e, i);
    StepCopies(s, e, Remote(i));
    assert UpTo(At(s, Remote(i)), 0);
    if c.slot.Some? {
      SlotStays(s, e, Remote(i));
      PinnedHas(d);
    }
    if e == Answer(i) {
      FilledTakesNothing(s, i, v);
      PinnedHas(d);
    } else if HasCandidate(c) {
      CandidateKept(s, e, Remote(i));
    }
    hide Step, CopyAfter, HasCandidate, Candidate;
  }

  lemma StepFilled(s: Round, e: Event, v: Element)
    requires OwnFilled(s, v) && TimesZero(s) && Enabled(s, e)
    ensures OwnFilled(Step(s, e), v)
  {
    var s' := Step(s, e);
    StepCopies(s, e, Own);
    assert UpTo(At(s, Own), 0) && At(s', Own) == s'.own;
    SlotStays(s, e, Own);
    assert v != Blank() && v.time == 0;
    hide Step, CopyAfter, Candidate, HasCandidate, OwnFilled, TimesZero;
    forall w, x | IsPlace(s', w) && Candidate(At(s', w), 0, x) ensures x == v {
      StepCopies(s, e, w);
      FilledCandidates(s, e, v, w, x);
    }
    forall i | 0 <= i < |s'.peers|
      ensures Done(s'.peers[i]) ==> HasCandidate(s'.peers[i].copy)
      ensures s'.peers[i].answer.Some? ==> s'.peers[i].answer.value == Blank() || s'.peers[i].copy.slot.Some?
    {
      FilledServes(s, e, v, i);
    }
    hide Done;
    FilledAgain(s', v);
  }

  lemma FilledAgain(s: Round, v: Element)
    requires s.own.slot == Some(v) && v != Blank() && v.time == 0
    requires forall w, e :: IsPlace(s, w) && Candidate(At(s, w), 0, e) ==> e == v
    requires forall i :: 0 <= i < |s.peers| && Done(s.peers[i]) ==> HasCandidate(s.peers[i].copy)
    requires forall i :: 0 <= i < |s.peers| && s.peers[i].answer.Some? ==>
               s.peers[i].answer.value == Blank() || s.peers[i].copy.slot.Some?
    ensures OwnFilled(s, v)
  {
  }

  lemma FilledReads(s: Round, v: Element)
    requires OwnFilled(s, v) && Quiet(s)
    ensures AllRead(s, v)
  {
    forall w | IsPlace(s, w) ensures ReadOf(At(s, w).slot) == v {
      assert Still(At(s, w));
      PinnedHas(At(s, w));
      if w.Remote? {
        assert HasCandidate(s.peers[w.peer].copy);
        QuietCandidate(At(s, w));
      }
      assert Candidate(At(s, w), 0, ReadOf(At(s, w).slot));
    }
  }

  // ----- every peer's slot filled -----

  ghost predicate PeersFilled(s: Round, v: Element) {
    && s.peers != []
    && (forall i :: 0 <= i < |s.peers| ==>
          s.peers[i].copy.slot == Some(v) && (s.peers[i].answer.Some? ==> s.peers[i].answer.value == v))
    && (forall e :: Candidate(s.own, 0, e) ==> e == v)
    && ((exists i :: 0 <= i < |s.peers| && Done(s.peers[i])) ==> HasCandidate(s.own))
  }

  lemma FilledPeerStays(s: Round, e: Event, v: Element, i: nat)
    requires PeersFilled(s, v) && TimesZero(s) && Enabled(s, e) && i < |s.peers|
    ensures var p := Step(s, e).peers[i]; p.copy.slot == Some(v) && (p.answer.Some? ==> p.answer.value == v)
  {
    StepAsks(s, e, i);
    StepCopies(s, e, Remote(i));
    assert UpTo(At(s, Remote(i)), 0);
    SlotStays(s, e, Remote(i));
    hide Step, CopyAfter;
  }

  lemma PeersFilledOwn(s: Round, e: Event, v: Element, x: Element)
    requires PeersFilled(s, v) && TimesZero(s) && Enabled(s, e) && Candidate(CopyAfter(s, e, Own), 0, x)
    ensures x == v
  {
    assert UpTo(At(s, Own), 0);
    var y := if e.Deliver? then e.element else v;
    assert Candidate(s.own, 0, x) ==> x == v;
    hide Candidate, UpTo;
    CopyCandidates(s.own, y, 0, x);
  }

  /** A peer's answer is taken over, unless the coordinator's slot is filled already. */
  lemma AnswerFills(s: Round, i: nat)
    requires Enabled(s, Answer(i))
    ensures HasCandidate(CopyAfter(s, Answer(i), Own))
  {
    var d := CopyAfter(s, Answer(i), Own);
    WritePins(s.own, s.peers[i].answer.value, 0);
    PinnedHas(d);
  }

  lemma OwnCandidateKept(s: Round, e: Event)
    requires Enabled(s, e) && UpTo(s.own, 0) && HasCandidate(s.own)
    ensures HasCandidate(CopyAfter(s, e, Own))
  {
    assert At(s, Own) == s.own;
    CandidateKept(s, e, Own);
  }

  lemma StepPeersFilled(s: Round, e: Event, v: Element)
    requires PeersFilled(s, v) && TimesZero(s) && Enabled(s, e)
    ensures PeersFilled(Step(s, e), v)
  {
    var s' := Step(s, e);
    StepCopies(s, e, Own);
    assert UpTo(At(s, Own), 0) && At(s', Own) == s'.own;
    if i: nat :| i < |s'.peers| && Done(s'.peers[i]) {
      StepAsks(s, e, i);
      if e == Answer(i) {
        AnswerFills(s, i);
      } else {
        assert Done(s.peers[i]);
        OwnCandidateKept(s, e);
      }
    }
    hide Step, CopyAfter, Candidate, HasCandidate, TimesZero, UpTo;
    forall x | Candidate(s'.own, 0, x) ensures x == v {
      PeersFilledOwn(s, e, v, x);
    }
    forall i | 0 <= i < |s'.peers|
      ensures s'.peers[i].copy.slot == Some(v) && (s'.peers[i].answer.Some? ==> s'.peers[i].answer.value == v)
    {
      FilledPeerStays(s, e, v, i);
    }
  }

  lemma PeersFilledReads(s: Round, v: Element)
    requires PeersFilled(s, v) && Quiet(s)
    ensures AllRead(s, v)
  {
    assert Done(s.peers[0]);
    QuietCandidate(s.own);
    assert Candidate(s.own, 0, ReadOf(s.own.slot));
  }

  // ----- these conditions suffice -----

  /** One of the ways in which all replicas come to read v. */
  ghost predicate Settling(s: Round, v: Element) {
    || (v == Blank() && OnlyValue(s, 0, v))
    || AllBound(s, v) || OwnFilled(s, v) || PeersFilled(s, v)
  }

  lemma StepSettling(s0: Round, s: Round, e: Event, v: Element)
    requires Known(s0, s) && IsNewest(s0, 0) && Settling(s, v) && Enabled(s, e)
    ensures Settling(Step(s, e), v)
  {
    hide Known, IsNewest, OnlyValue, AllBound, OwnFilled, PeersFilled, Step, TimesZero;
    KnownTimesZero(s0, s);
    if v == Blank() && OnlyValue(s, 0, v) {
      StepOnly(s0, s, e, 0, v);
    } else if AllBound(s, v) {
      StepAllBound(s0, s, e, v);
    } else if OwnFilled(s, v) {
      StepFilled(s, e, v);
    } else {
      StepPeersFilled(s, e, v);
    }
  }

  lemma {:induction false} RunSettling(s0: Round, events: seq<Event>, s: Round, v: Element)
    requires Started(s0) && IsNewest(s0, 0) && Settling(s0, v) && Run(s0, events, s)
    ensures Settling(s, v) && Known(s0, s)
    decreases |events|
  {
    RunKnows(s0, events, s);
    if events != [] {
      var last := events[|events| - 1];
      var u :| Run(s0, Front(events), u) && Follows(u, last, s);
      hide Started, IsNewest, Known, Run, Step, Settling;
      RunSettling(s0, Front(events), u, v);
      StepSettling(s0, u, last, v);
    }
  }

  lemma BlankReads(s: Round, w: Place)
    requires OnlyValue(s, 0, Blank()) && IsPlace(s, w)
    ensures ReadOf(At(s, w).slot) == Blank()
  {
    SlotIsOnly(s, w, 0, Blank());
  }

  lemma SettledReads(s: Round, v: Element)
    requires Settling(s, v) && Quiet(s)
    ensures AllRead(s, v)
  {
    hide OnlyValue, OwnFilled, PeersFilled, Bounds, AllBound, Quiet;
    if OwnFilled(s, v) {
      FilledReads(s, v);
    } else if PeersFilled(s, v) {
      PeersFilledReads(s, v);
    } else if AllBound(s, v) {
      BoundAllRead(s, v);
    } else {
      forall w | IsPlace(s, w) ensures ReadOf(At(s, w).slot) == v {
        BlankReads(s, w);
      }
    }
  }

  lemma BoundAllRead(s: Round, v: Element)
    requires AllBound(s, v) && Quiet(s)
    ensures AllRead(s, v)
  {
    hide Bounds, Quiet;
    forall w | IsPlace(s, w) ensures ReadOf(At(s, w).slot) == v {
      BoundReads(s, w, 0, v);
    }
  }

  /** The element all will read. */
  lemma SettlingAtStart(s0: Round) returns (v: Element)
    requires Started(s0) && IsNewest(s0, 0) && Agree(s0, 0) && Settles(s0) && s0.peers != []
    ensures Settling(s0, v)
  {
    assert At(s0, Own) == s0.own;
    if OnlyBlank(s0) {
      v := Blank();
    } else if s0.own.slot.Some? {
      v := s0.own.slot.value;
      FilledStart(s0, v);
    } else if AllPinned(s0) {
      v := Pinned(At(s0, Own), 0).value;
      PinnedStart(s0, v);
    } else {
      v := s0.peers[0].copy.slot.value;
      PeersFilledStart(s0, v);
    }
  }

  lemma FilledStart(s0: Round, v: Element)
    requires Started(s0) && IsNewest(s0, 0) && Agree(s0, 0) && !OnlyBlank(s0) && s0.own.slot == Some(v)
    ensures OwnFilled(s0, v)
  {
    assert At(s0, Own) == s0.own && Candidate(s0.own, 0, v) && Holds(s0.own, v);
    assert HeldAtStart(s0, v);
    hide IsNewest, HeldAtStart;
    forall w, e | IsPlace(s0, w) && Candidate(At(s0, w), 0, e) ensures e == v {
      if w != Own {
        hide Candidate;
      }
    }
    hide Candidate;
    assert v.time == 0 by {
      ZeroTime(s0, v);
    }
  }

  lemma ZeroTime(s0: Round, e: Element)
    requires IsNewest(s0, 0) && HeldAtStart(s0, e)
    ensures e.time == 0
  {
    hide HeldAtStart;
  }

  lemma PinnedStart(s0: Round, v: Element)
    requires AllPinned(s0) && Agree(s0, 0) && Pinned(At(s0, Own), 0) == Some(v)
    ensures AllBound(s0, v)
  {
    forall w | IsPlace(s0, w) ensures Bounds(s0, w, 0, v) {
      assert Candidate(At(s0, w), 0, Pinned(At(s0, w), 0).value) && Candidate(At(s0, Own), 0, v);
    }
  }

  lemma PeersFilledStart(s0: Round, v: Element)
    requires Started(s0) && Agree(s0, 0) && AllPeersHold(s0) && s0.peers != [] && s0.peers[0].copy.slot == Some(v)
    ensures PeersFilled(s0, v)
  {
    assert IsPlace(s0, Remote(0)) && Candidate(At(s0, Remote(0)), 0, v);
    forall i | 0 <= i < |s0.peers| ensures s0.peers[i].copy.slot == Some(v) {
      assert Candidate(At(s0, Remote(i)), 0, s0.peers[i].copy.slot.value);
    }
    assert At(s0, Own) == s0.own;
    hide Candidate;
  }

  lemma SettlesReadsSame(s0: Round)
    requires Started(s0) && IsNewest(s0, 0) && Agree(s0, 0) && Settles(s0)
    ensures AlwaysSame(s0)
  {
    hide Started, IsNewest, Agree, Settles, Settling, Run, Quiet, AllRead;
    forall events, s | Run(s0, events, s) && Quiet(s) ensures SameRead(s) {
      RunKnows(s0, events, s);
      if s0.peers == [] {
        AloneReads(s);
      } else {
        var v := SettlingAtStart(s0);
        RunSettling(s0, events, s, v);
        SettledReads(s, v);
      }
    }
  }

  // ----- and one of them is needed -----

  /** Two replicas bound to different elements end so. */
  lemma EndsDifferent(s0: Round, before: seq<Event>, s: Round, v: Place, a: Element, w: Place, b: Element)
    requires Started(s0) && IsNewest(s0, 0) && Run(s0, before, s)
    requires Bounds(s, v, 0, a) && Bounds(s, w, 0, b) && a != b
    ensures !AlwaysSame(s0)
  {
    hide Started, IsNewest, Run, Quiet, Bounds, AllRead;
    var events, t := EndsBound(s0, before, s, v, a, w, b, 0);
    BoundReads(t, v, 0, a);
    BoundReads(t, w, 0, b);
    BoundPlace(t, v, 0, a);
    BoundPlace(t, w, 0, b);
    DifferentIsNotSame(t, v, w);
  }

  lemma DifferentIsNotSame(s: Round, v: Place, w: Place)
    requires IsPlace(s, v) && IsPlace(s, w) && ReadOf(At(s, v).slot) != ReadOf(At(s, w).slot)
    ensures !SameRead(s)
  {
  }

  /** Peer j, whose slot is empty, is asked and dealt with while the coordinator's slot is empty too: the blank
      element is taken over and sent to everybody. */
  lemma AskEmpty(s0: Round, before: seq<Event>, s: Round, j: nat) returns (events: seq<Event>, t: Round)
    requires Run(s0, before, s) && j < |s.peers| && s.peers[j].asked && s.peers[j].answer.None?
    requires s.peers[j].copy.slot.None? && s.own.slot.None?
    ensures Run(s0, events, t) && |t.peers| == |s.peers| && t.own == WriteTo(s.own, Blank())
    ensures forall i :: 0 <= i < |s.peers| ==> t.peers[i].copy == Sent(s.peers[i].copy, Blank())
  {
    hide Run;
    Extend(s0, before, s, Ask(j));
    var u := Step(s, Ask(j));
    Extend(s0, before + [Ask(j)], u, Answer(j));
    events, t := before + [Ask(j)] + [Answer(j)], Step(u, Answer(j));
    AskedEmpty(s, j);
  }

  lemma AskedEmpty(s: Round, j: nat)
    requires j < |s.peers| && s.peers[j].asked && s.peers[j].answer.None?
    requires s.peers[j].copy.slot.None? && s.own.slot.None?
    ensures Enabled(s, Ask(j)) && Enabled(Step(s, Ask(j)), Answer(j))
    ensures var t := Step(Step(s, Ask(j)), Answer(j));
            && t.own == WriteTo(s.own, Blank())
            && forall i :: 0 <= i < |s.peers| ==> t.peers[i].copy == Sent(s.peers[i].copy, Blank())
  {
    var u := Step(s, Ask(j));
    assert u.own == s.own && u.peers[j].answer == Some(Blank());
    assert forall i :: 0 <= i < |s.peers| ==> u.peers[i].copy == s.peers[i].copy;
  }

  /** The coordinator is bound to an element other than the blank one, which is still waiting; a peer that is
      bound to nothing can get the blank one. */
  lemma BlankSpreads(s0: Round, before: seq<Event>, s: Round, x: nat, c: Element)
    requires Started(s0) && IsNewest(s0, 0) && Run(s0, before, s)
    requires s.own.slot.None? && Bounds(s, Own, 0, c) && c != Blank()
    requires x < |s.peers| && s.peers[x].asked && s.peers[x].answer.None? && Pinned(s.peers[x].copy, 0).None?
    ensures !AlwaysSame(s0)
  {
    hide Started, IsNewest, Run, AlwaysSame, Bounds, Candidate, WriteTo, Sent, Pinned;
    UnboundIsEmpty(s.peers[x].copy);
    var events, t := AskEmpty(s0, before, s, x);
    BlankUnderWay(s, t, x, c);
    LandsApart(s0, events, t, Own, c, x, Blank());
  }

  lemma UnboundIsEmpty(c: Copy)
    requires Pinned(c, 0).None?
    ensures c.slot.None?
  {
  }

  lemma BlankUnderWay(s: Round, t: Round, x: nat, c: Element)
    requires Bounds(s, Own, 0, c) && x < |s.peers| && Pinned(s.peers[x].copy, 0).None?
    requires |t.peers| == |s.peers| && t.own == WriteTo(s.own, Blank()) && t.peers[x].copy == Sent(s.peers[x].copy, Blank())
    ensures Bounds(t, Own, 0, c) && Candidate(t.peers[x].copy, 0, Blank())
  {
    WritePins(s.own, Blank(), 0);
    hide WriteTo, FirstAt;
  }

  /** A replica bound to one element, and a peer that another can still come to. */
  lemma LandsApart(s0: Round, events: seq<Event>, t: Round, v: Place, c: Element, x: nat, e: Element)
    requires Started(s0) && IsNewest(s0, 0) && Run(s0, events, t) && Bounds(t, v, 0, c) && v != Remote(x) && c != e
    requires x < |t.peers| && Candidate(t.peers[x].copy, 0, e)
    ensures !AlwaysSame(s0)
  {
    hide Started, IsNewest, Run, AlwaysSame, Candidate;
    BoundPlace(t, v, 0, c);
    assert At(t, Remote(x)) == t.peers[x].copy;
    var later, u := Land(s0, events, t, Remote(x), 0, e);
    assert Bounds(u, v, 0, c);
    hide Bounds;
    EndsDifferent(s0, later, u, v, c, Remote(x), e);
  }

  /** The coordinator is bound to nothing and takes the blank element over, while a peer can get another one. */
  lemma BlankTaken(s0: Round, j: nat, r: nat, e: Element)
    requires Started(s0) && IsNewest(s0, 0) && Pinned(s0.own, 0).None? && j < |s0.peers| && s0.peers[j].copy.slot.None?
    requires r < |s0.peers| && Candidate(s0.peers[r].copy, 0, e) && e != Blank()
    ensures !AlwaysSame(s0)
  {
    assert Run(s0, [], s0);
    UnboundIsEmpty(s0.own);
    assert s0.peers[j].asked && s0.peers[j].answer.None?;
    hide Started, IsNewest, Run, AlwaysSame;
    var events, t := AskEmpty(s0, [], s0, j);
    BlankBinds(s0, t, r, e);
    hide Candidate, WriteTo, Sent, Pinned, Bounds;
    LandsApart(s0, events, t, Own, Blank(), r, e);
  }

  lemma BlankBinds(s: Round, t: Round, r: nat, e: Element)
    requires Pinned(s.own, 0).None? && r < |s.peers| && Candidate(s.peers[r].copy, 0, e)
    requires |t.peers| == |s.peers| && t.own == WriteTo(s.own, Blank()) && t.peers[r].copy == Sent(s.peers[r].copy, Blank())
    ensures Bounds(t, Own, 0, Blank()) && Candidate(t.peers[r].copy, 0, e)
  {
    WritePins(s.own, Blank(), 0);
    hide WriteTo, FirstAt;
  }

  /** A write under way to the coordinator arrives first; nothing else changes. */
  lemma LandOwn(s0: Round, e: Element) returns (events: seq<Event>, u: Round)
    requires Started(s0) && Pinned(s0.own, 0).None? && Candidate(s0.own, 0, e)
    ensures Run(s0, events, u) && Bounds(u, Own, 0, e) && u.own.slot.None? && u.peers == s0.peers
  {
    assert Run(s0, [], s0);
    hide Run;
    Extend(s0, [], s0, Deliver(Own, e));
    events, u := [] + [Deliver(Own, e)], Step(s0, Deliver(Own, e));
    WritePins(s0.own.(writes := s0.own.writes - multiset{e}), e, 0);
  }

  /** The coordinator's element, when it is bound to one, is not the blank one. */
  lemma OwnIsNotBlank(s0: Round, r: Place, e: Element, c: Element)
    requires Agree(s0, 0) && IsPlace(s0, r) && Candidate(At(s0, r), 0, e) && e != Blank() && Pinned(s0.own, 0) == Some(c)
    ensures c != Blank()
  {
    assert At(s0, Own) == s0.own && Candidate(At(s0, Own), 0, c);
  }

  lemma UnsettledPinned(s0: Round, r: Place, e: Element)
    requires Started(s0) && IsNewest(s0, 0) && Agree(s0, 0) && !Settles(s0) && Pinned(s0.own, 0).Some?
    requires IsPlace(s0, r) && Candidate(At(s0, r), 0, e) && e != Blank()
    ensures !AlwaysSame(s0)
  {
    var c := Pinned(s0.own, 0).value;
    OwnIsNotBlank(s0, r, e, c);
    assert At(s0, Own) == s0.own;
    var w :| IsPlace(s0, w) && Pinned(At(s0, w), 0).None?;
    assert Run(s0, [], s0) && Bounds(s0, Own, 0, c);
    assert s0.peers[w.peer].asked && s0.peers[w.peer].answer.None?;
    hide Started, IsNewest, Run, AlwaysSame, Agree, Bounds;
    BlankSpreads(s0, [], s0, w.peer, c);
  }

  lemma UnsettledUnpinned(s0: Round, r: Place, e: Element)
    requires Started(s0) && IsNewest(s0, 0) && Agree(s0, 0) && !Settles(s0) && Pinned(s0.own, 0).None?
    requires IsPlace(s0, r) && Candidate(At(s0, r), 0, e) && e != Blank()
    ensures !AlwaysSame(s0)
  {
    var j: nat :| j < |s0.peers| && s0.peers[j].copy.slot.None?;
    hide IsNewest, AlwaysSame, Settles;
    if r.Remote? {
      hide Started, Agree;
      BlankTaken(s0, j, r.peer, e);
    } else if Pinned(s0.peers[j].copy, 0).Some? {
      PeerAgrees(s0, j, e);
      hide Started, Agree;
      BlankTaken(s0, j, j, e);
    } else {
      assert s0.peers[j].asked && s0.peers[j].answer.None? && Candidate(s0.own, 0, e);
      var events, u := LandOwn(s0, e);
      hide Started, Agree, Bounds, Run;
      BlankSpreads(s0, events, u, j, e);
    }
  }

  lemma PeerAgrees(s0: Round, j: nat, e: Element)
    requires Agree(s0, 0) && j < |s0.peers| && Candidate(s0.own, 0, e) && Pinned(s0.peers[j].copy, 0).Some?
    ensures Candidate(s0.peers[j].copy, 0, e)
  {
    assert At(s0, Own) == s0.own && IsPlace(s0, Remote(j)) && At(s0, Remote(j)) == s0.peers[j].copy;
    assert Candidate(At(s0, Remote(j)), 0, Pinned(s0.peers[j].copy, 0).value);
  }

  lemma UnsettledDiffers(s0: Round)
    requires Started(s0) && IsNewest(s0, 0) && Agree(s0, 0) && !Settles(s0)
    ensures !AlwaysSame(s0)
  {
    var r, e :| IsPlace(s0, r) && Candidate(At(s0, r), 0, e) && e != Blank();
    hide Started, IsNewest, Agree, Settles, Candidate, AlwaysSame;
    if Pinned(s0.own, 0).Some? {
      UnsettledPinned(s0, r, e);
    } else {
      UnsettledUnpinned(s0, r, e);
    }
  }

  // ----- the result -----

  lemma SameAtZeroIff(s0: Round)
    requires Started(s0) && IsNewest(s0, 0)
    ensures AlwaysSame(s0) <==> Agree(s0, 0) && Settles(s0)
  {
    hide Started, IsNewest, Agree, Settles, AlwaysSame;
    if Agree(s0, 0) && Settles(s0) {
      SettlesReadsSame(s0);
    } else if !Agree(s0, 0) {
      DisagreeDiffers(s0, 0);
    } else {
      UnsettledDiffers(s0);
    }
  }

  /** In every run all replicas end with the same value if and only if no two of them may end with different
      elements under the greatest timestamp, and the round converges; or, when that timestamp is 0, settles. */
  lemma SameValueIff(s0: Round, newest: nat)
    requires Started(s0) && IsNewest(s0, newest)
    ensures AlwaysSame(s0) <==> Agree(s0, newest) && (if newest == 0 then Settles(s0) else Converges(s0, newest))
  {
    hide Started, IsNewest, Agree, Settles, Converges, AlwaysSame;
    if newest == 0 {
      SameAtZeroIff(s0);
    } else {
      SameAboveZeroIff(s0, newest);
    }
  }

  /** So a key that no replica has, anywhere, stays so for all. */
  lemma AbsentKeySettles(s0: Round)
    requires forall w :: IsPlace(s0, w) ==> At(s0, w) == Copy(None, [], multiset{})
    ensures Agree(s0, 0) && Settles(s0)
  {
  }
}
