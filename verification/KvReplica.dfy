/** One replica: slots guarded by timestamps, a log, and the strand on which records wait to be logged. */
module Replicas {
  import opened Wrappers

  const KEYS: nat := 256

  datatype Element = Element(value: string, time: nat)

  datatype Record = Record(key: nat, value: string, time: nat)

  type Slot = Option<Element>

  /** An element replaces what a slot holds only when it is strictly newer. */
  function Offer(slot: Slot, e: Element): Slot {
    if slot.Some? && e.time <= slot.value.time then slot else Some(e)
  }

  function Apply(slot: Slot, r: Record): Slot { Offer(slot, Element(r.value, r.time)) }

  /** What a reader is told: an absent element counts as the empty value at time 0. */
  function ReadOf(slot: Slot): Element {
    if slot.None? then Element("", 0) else slot.value
  }

  /** A slot after the records of its key among these, one after another. */
  function Fold(slot: Slot, records: seq<Record>, k: nat): Slot
    decreases |records|
  {
    if records == [] then slot
    else
      var before, last := Fold(slot, records[..|records| - 1], k), records[|records| - 1];
      if last.key == k then Apply(before, last) else before
  }

  /** Record i is the first of those with the greatest timestamp among the records of key k. */
  ghost predicate IsFirstNewest(records: seq<Record>, k: nat, i: nat) {
    && i < |records| && records[i].key == k
    && (forall j :: 0 <= j < |records| && records[j].key == k ==> records[j].time <= records[i].time)
    && (forall j :: 0 <= j < i && records[j].key == k ==> records[j].time < records[i].time)
  }

  /** A slot holds what the log says: the first newest record of its key, or nothing if there is none. */
  ghost predicate SlotMatchesLog(records: seq<Record>, k: nat, slot: Slot) {
    match slot
    case None => forall j :: 0 <= j < |records| ==> records[j].key != k
    case Some(e) => exists i: nat :: IsFirstNewest(records, k, i) && e == Element(records[i].value, records[i].time)
  }

  /** There is only one such content. */
  lemma SlotIsUnique(records: seq<Record>, k: nat, a: Slot, b: Slot)
    requires SlotMatchesLog(records, k, a) && SlotMatchesLog(records, k, b)
    ensures a == b
  {
    if a.Some? && b.Some? {
      var i: nat :| IsFirstNewest(records, k, i) && a.value == Element(records[i].value, records[i].time);
      var j: nat :| IsFirstNewest(records, k, j) && b.value == Element(records[j].value, records[j].time);
      assert !(i < j) && !(j < i);
    }
  }

  /** Taking records in one at a time leaves the first newest. */
  lemma {:induction false} FoldMatchesLog(records: seq<Record>, k: nat)
    ensures SlotMatchesLog(records, k, Fold(None, records, k))
    decreases |records|
  {
    if records != [] {
      var n := |records| - 1;
      FoldMatchesLog(records[..n], k);
      OneMoreRecord(records[..n], records[n], k, Fold(None, records[..n], k));
      assert records == records[..n] + [records[n]];
    }
  }

  lemma OneMoreRecord(records: seq<Record>, r: Record, k: nat, slot: Slot)
    requires SlotMatchesLog(records, k, slot)
    ensures SlotMatchesLog(records + [r], k, if r.key == k then Apply(slot, r) else slot)
  {
    var all := records + [r];
    assert all[|records|] == r && forall j :: 0 <= j < |records| ==> all[j] == records[j];
    if slot.Some? {
      var i: nat :| IsFirstNewest(records, k, i) && slot.value == Element(records[i].value, records[i].time);
      if r.key == k && slot.value.time < r.time {
        assert IsFirstNewest(all, k, |records|);
      } else {
        assert IsFirstNewest(all, k, i);
      }
    } else if r.key == k {
      assert IsFirstNewest(all, k, |records|);
    }
  }

  lemma {:induction false} FoldConcat(slot: Slot, a: seq<Record>, b: seq<Record>, k: nat)
    ensures Fold(slot, a + b, k) == Fold(Fold(slot, a, k), b, k)
    decreases |b|
  {
    if b == [] {
      assert a + b == a;
    } else {
      assert (a + b)[..|a + b| - 1] == a + b[..|b| - 1];
      FoldConcat(slot, a, b[..|b| - 1], k);
    }
  }

  ghost predicate NoneNewer(slot: Slot, records: seq<Record>, k: nat) {
    forall j :: 0 <= j < |records| && records[j].key == k ==> slot.Some? && records[j].time <= slot.value.time
  }

  lemma {:induction false} FoldOfOld(slot: Slot, records: seq<Record>, k: nat)
    requires NoneNewer(slot, records, k)
    ensures Fold(slot, records, k) == slot
    decreases |records|
  {
    if records != [] {
      FoldOfOld(slot, records[..|records| - 1], k);
    }
  }

  /** Records that were all taken in once change nothing the second time. */
  lemma FoldTwice(records: seq<Record>, k: nat)
    ensures Fold(Fold(None, records, k), records, k) == Fold(None, records, k)
  {
    FoldMatchesLog(records, k);
    FoldOfOld(Fold(None, records, k), records, k);
  }

  lemma Repeated(early: seq<Record>, later: seq<Record>, k: nat)
    requires early <= later
    ensures Fold(None, early + later, k) == Fold(None, later, k)
  {
    var rest := later[|early|..];
    assert later == early + rest;
    FoldConcat(None, early, later, k);
    FoldConcat(Fold(None, early, k), early, rest, k);
    FoldConcat(None, early, rest, k);
    FoldTwice(early, k);
  }

  // ----- the replica as a state machine -----

  datatype State = State(slots: seq<Slot>, log: seq<Record>, queue: seq<Record>)

  function Empty(): seq<Slot> { seq(KEYS, k => None) }

  /** A write went past the pre-check, possibly on an outdated slot, and waits on the strand. */
  function Posted(s: State, r: Record): State { s.(queue := s.queue + [r]) }

  /** A write as seen by one thread: it is posted unless the slot is already as new. */
  function Written(s: State, r: Record): State {
    if r.key < |s.slots| && s.slots[r.key].Some? && r.time <= s.slots[r.key].value.time then s else Posted(s, r)
  }

  /** The strand runs its oldest task: the record is appended to the log, then offered to its slot. */
  function Ran(s: State): State {
    if s.queue == [] || s.queue[0].key >= |s.slots| then s
    else
      var r := s.queue[0];
      State(s.slots[r.key := Apply(s.slots[r.key], r)], s.log + [r], s.queue[1..])
  }

  /** The process stops, losing slots and waiting records, and starts again: replay finds every slot
      empty, so every record of the log is posted once more. */
  function Restarted(s: State): State { State(Empty(), s.log, s.log) }

  datatype ReplicaEvent = Post(record: Record) | Task | Restart

  function After(s: State, e: ReplicaEvent): State {
    match e
    case Post(r) => Posted(s, r)
    case Task => Ran(s)
    case Restart => Restarted(s)
  }

  /** Any interleaving of posted writes, strand tasks and restarts. */
  function RunAll(s: State, events: seq<ReplicaEvent>): State
    decreases |events|
  {
    if events == [] then s else After(RunAll(s, events[..|events| - 1]), events[|events| - 1])
  }

  predicate KeysInRange(records: seq<Record>) {
    forall j :: 0 <= j < |records| ==> records[j].key < KEYS
  }

  predicate PostsInRange(events: seq<ReplicaEvent>) {
    forall j :: 0 <= j < |events| && events[j].Post? ==> events[j].record.key < KEYS
  }

  /** The first 'start' records were in the log when the process last started; the later ones are what
      the slots hold, and together with the waiting ones they begin with the first ones again. */
  ghost predicate StartedAt(s: State, start: nat) {
    && |s.slots| == KEYS && start <= |s.log|
    && KeysInRange(s.log) && KeysInRange(s.queue)
    && s.log[..start] <= s.log[start..] + s.queue
    && forall k :: 0 <= k < KEYS ==> s.slots[k] == Fold(None, s.log[start..], k)
  }

  ghost predicate Inv(s: State) { exists start: nat :: StartedAt(s, start) }

  lemma RanKeeps(s: State, start: nat)
    requires StartedAt(s, start)
    ensures StartedAt(Ran(s), start)
  {
    if s.queue != [] {
      var r, t := s.queue[0], Ran(s);
      assert t.log[start..] == s.log[start..] + [r] && t.log[..start] == s.log[..start];
      assert t.log[start..] + t.queue == s.log[start..] + s.queue by {
        assert s.queue == [r] + t.queue;
      }
      forall k | 0 <= k < KEYS ensures t.slots[k] == Fold(None, t.log[start..], k) {
        assert t.log[start..][..|t.log[start..]| - 1] == s.log[start..];
      }
    }
  }

  lemma RestartKeeps(s: State, start: nat)
    requires StartedAt(s, start)
    ensures StartedAt(Restarted(s), |s.log|)
  {
    assert s.log[|s.log|..] == [] && [] + s.log == s.log;
  }

  lemma PostKeeps(s: State, start: nat, r: Record)
    requires StartedAt(s, start) && r.key < KEYS
    ensures StartedAt(Posted(s, r), start)
  {
    assert s.log[start..] + (s.queue + [r]) == (s.log[start..] + s.queue) + [r];
  }

  lemma {:induction false} RunKeeps(s: State, events: seq<ReplicaEvent>)
    requires Inv(s) && PostsInRange(events)
    ensures Inv(RunAll(s, events))
    decreases |events|
  {
    if events != [] {
      var before, e := RunAll(s, events[..|events| - 1]), events[|events| - 1];
      RunKeeps(s, events[..|events| - 1]);
      var start: nat :| StartedAt(before, start);
      match e
      case Post(r) => PostKeeps(before, start, r);
      case Task => RanKeeps(before, start);
      case Restart => RestartKeeps(before, start);
    }
  }

  /** With nothing waiting, each slot holds the first newest record of its key in the whole log. */
  lemma DrainedMatchesLog(s: State, k: nat)
    requires Inv(s) && s.queue == [] && k < KEYS
    ensures |s.slots| == KEYS && SlotMatchesLog(s.log, k, s.slots[k])
  {
    var start: nat :| StartedAt(s, start);
    assert s.log[start..] + [] == s.log[start..];
    assert s.log == s.log[..start] + s.log[start..];
    Repeated(s.log[..start], s.log[start..], k);
    FoldMatchesLog(s.log, k);
  }

  /** Slots refine the log: in every run from an empty replica, whatever the interleaving of writes and
      the number of restarts, whenever nothing waits. */
  lemma StoreRefinesLog(events: seq<ReplicaEvent>, k: nat)
    requires PostsInRange(events) && k < KEYS
    ensures var s := RunAll(State(Empty(), [], []), events);
            |s.slots| == KEYS && (s.queue == [] ==> SlotMatchesLog(s.log, k, s.slots[k]))
  {
    var start := State(Empty(), [], []);
    assert StartedAt(start, 0);
    RunKeeps(start, events);
    var s := RunAll(start, events);
    if s.queue == [] {
      DrainedMatchesLog(s, k);
    }
  }

  /** The strand runs until nothing waits. */
  function Drain(s: State): State
    requires |s.slots| == KEYS && KeysInRange(s.queue)
    decreases |s.queue|
  {
    if s.queue == [] then s else Drain(Ran(s))
  }

  lemma {:induction false} DrainEffect(s: State, k: nat)
    requires |s.slots| == KEYS && KeysInRange(s.queue) && k < KEYS
    ensures Drain(s).log == s.log + s.queue && Drain(s).queue == []
    ensures |Drain(s).slots| == KEYS && Drain(s).slots[k] == Fold(s.slots[k], s.queue, k)
    decreases |s.queue|
  {
    if s.queue == [] {
      assert s.log + [] == s.log;
    } else {
      var r, rest := s.queue[0], s.queue[1..];
      DrainEffect(Ran(s), k);
      assert s.queue == [r] + rest;
      FoldConcat(s.slots[k], [r], rest, k);
      assert s.log + [r] + rest == s.log + s.queue;
      assert [r][..0] == [];
    }
  }

  /** A restart with replay, once drained, holds the first newest records of the log as the crash left
      it, only what was still waiting being lost; with nothing waiting every slot is as before. The log
      then has every record twice. */
  lemma RestartIsTransparent(s: State, k: nat)
    requires Inv(s) && k < KEYS
    ensures |s.slots| == KEYS && KeysInRange(s.log)
    ensures var t := Drain(Restarted(s));
            && t.log == s.log + s.log && t.queue == [] && |t.slots| == KEYS
            && SlotMatchesLog(s.log, k, t.slots[k])
            && (s.queue == [] ==> t.slots[k] == s.slots[k])
  {
    var start: nat :| StartedAt(s, start);
    DrainEffect(Restarted(s), k);
    FoldMatchesLog(s.log, k);
    if s.queue == [] {
      DrainedMatchesLog(s, k);
      SlotIsUnique(s.log, k, s.slots[k], Fold(None, s.log, k));
    }
  }

  // ----- what an accepted write is worth -----

  /** The slot, or a waiting record, is at least as new as t: the slot joined with the queue. */
  ghost predicate Covers(s: State, k: nat, t: nat) {
    || (k < |s.slots| && s.slots[k].Some? && t <= s.slots[k].value.time)
    || (exists j :: 0 <= j < |s.queue| && s.queue[j].key == k && t <= s.queue[j].time)
  }

  lemma WrittenCovers(s: State, r: Record)
    ensures Covers(Written(s, r), r.key, r.time)
  {
    if Written(s, r) != s {
      assert Written(s, r).queue[|s.queue|] == r;
    }
  }

  lemma CoversKept(s: State, e: ReplicaEvent, k: nat, t: nat)
    requires Covers(s, k, t) && k < |s.slots| && !e.Restart?
    ensures Covers(After(s, e), k, t)
  {
    var s' := After(s, e);
    if j :| 0 <= j < |s.queue| && s.queue[j].key == k && t <= s.queue[j].time {
      if e.Post? || s' == s {
        assert s'.queue[j] == s.queue[j];
      } else if j > 0 {
        assert s'.queue[j - 1] == s.queue[j];
      }
    }
  }

  class Replica {
    const store: array<Slot>
    var log: seq<Record>
    var queue: seq<Record>

    ghost predicate Valid()
      reads this, store
    {
      store.Length == KEYS && KeysInRange(log) && KeysInRange(queue)
    }

    ghost function View(): State
      reads this, store
    {
      State(store[..], log, queue)
    }

    /** Opens a log file that holds these records and posts them all again. */
    constructor (file: seq<Record>)
      requires KeysInRange(file)
      ensures Valid() && fresh(store) && View() == Restarted(State([], file, []))
      ensures store.Length == 256 && (forall k :: 0 <= k < 256 ==> store[k] == None) && log == file && queue == file
    {
      store := new Slot[KEYS](i => None);
      log := file;
      queue := [];
      new;
      assert store[..] == Empty();
      ReplayAll(file);
    }

    /** The replay handler writes each record; with every slot empty none is held back. */
    method ReplayAll(file: seq<Record>)
      requires Valid() && KeysInRange(file) && queue == [] && store[..] == Empty()
      modifies this`queue
      ensures Valid() && queue == file
    {
      for i := 0 to |file|
        invariant Valid() && queue == file[..i] && log == old(log) && store[..] == Empty()
      {
        assert store[file[i].key] == store[..][file[i].key] == None;
        Write(file[i].key, file[i].value, file[i].time);
        assert file[..i + 1] == file[..i] + [file[i]];
      }
      assert file[..|file|] == file;
    }

    method Read(key: nat) returns (e: Slot)
      requires Valid() && key < KEYS
      ensures e == store[key] == View().slots[key]
    {
      e := store[key];
    }

    /** Posts the record unless the slot is already as new; either way the replica then covers it. */
    method Write(key: nat, value: string, time: nat)
      requires Valid() && key < KEYS
      modifies this`queue
      ensures Valid()
      ensures queue == old(queue) + if store[key].Some? && time <= store[key].value.time then [] else [Record(key, value, time)]
      ensures View() == Written(old(View()), Record(key, value, time))
      ensures Covers(View(), key, time)
    {
      var current := store[key];
      if current.Some? && time <= current.value.time {
        return;
      }
      queue := queue + [Record(key, value, time)];
      assert queue[|queue| - 1].key == key;
    }

    /** One task of the strand. The exchange may fail spuriously any number of times; it then reads the
        slot again and compares the timestamps again. */
    method RunTask(spurious: nat)
      requires Valid() && queue != []
      modifies this, store
      ensures log == old(log) + [old(queue)[0]] && queue == old(queue)[1..]
      ensures var r := old(queue)[0];
              && (forall k :: 0 <= k < 256 && k != r.key ==> store[k] == old(store[k]))
              && store[r.key] == if old(store[r.key]).Some? && r.time <= old(store[r.key]).value.time then old(store[r.key])
                                 else Some(Element(r.value, r.time))
      ensures Valid() && View() == Ran(old(View()))
    {
      var r := queue[0];
      queue := queue[1..];
      log := log + [r];
      var dest, failures := store[r.key], spurious;
      while true
        invariant dest == store[r.key] && store[..] == old(store[..])
        invariant log == old(log) + [r] && queue == old(queue)[1..] && r == old(queue)[0] && r.key < KEYS
        decreases failures
      {
        if dest.Some? && r.time <= dest.value.time {
          break;
        }
        if failures == 0 {
          store[r.key] := Some(Element(r.value, r.time));
          break;
        }
        failures := failures - 1;
        dest := store[r.key];
      }
      assert store[..] == Ran(old(View())).slots;
    }
  }
}
