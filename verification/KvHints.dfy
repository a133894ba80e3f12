/** The hint counters: how many puts on a key a peer has not acknowledged. */
module HintCounters {
  import opened Lists
  import opened Replicas
  import opened Coordinators
  import opened Handoffs
  import opened Acknowledgements

  function Delta(h: Hint, i: nat, k: nat): int {
    if h.replica != i || h.key != k then 0 else if h.AddHint? then 1 else -1
  }

  /** Hints added less hints dropped. */
  function Net(hs: seq<Hint>, i: nat, k: nat): int
    decreases |hs|
  {
    if hs == [] then 0 else Net(hs[..|hs| - 1], i, k) + Delta(hs[|hs| - 1], i, k)
  }

  lemma {:induction false} NetConcat(a: seq<Hint>, b: seq<Hint>, i: nat, k: nat)
    ensures Net(a + b, i, k) == Net(a, i, k) + Net(b, i, k)
    decreases |b|
  {
    if b == [] {
      assert a + b == a;
    } else {
      assert (a + b)[..|a + b| - 1] == a + b[..|b| - 1];
      NetConcat(a, b[..|b| - 1], i, k);
    }
  }

  lemma NetOne(a: seq<Hint>, h: Hint, i: nat, k: nat)
    ensures Net(a + [h], i, k) == Net(a, i, k) + Delta(h, i, k)
  {
    assert (a + [h])[..|a|] == a;
  }

  lemma {:induction false} NetOfAdds(n: nat, key: nat, i: nat, k: nat)
    ensures Net(AddsFor(n, key), i, k) == if i < n && k == key then 1 else 0
    decreases n
  {
    if n > 0 {
      var adds, h := AddsFor(n - 1, key), AddHint(n - 1, key);
      assert AddsFor(n, key) == adds + [h];
      hide Net, AddsFor;
      NetOfAdds(n - 1, key, i, k);
      NetOne(adds, h, i, k);
    }
  }

  ghost predicate Sized(hints: seq<seq<int>>, rows: nat) {
    |hints| == rows && forall i :: 0 <= i < rows ==> |hints[i]| == KEYS
  }

  ghost predicate AllInRange(hints: seq<seq<int>>, records: seq<Hint>) {
    forall j :: 0 <= j < |records| ==> InRange(records[j], hints)
  }

  /** Replaying a log adds up its hints: a restarted coordinator counts what it had logged. */
  lemma {:induction false} ReplayCounts(hints: seq<seq<int>>, records: seq<Hint>, rows: nat, i: nat, k: nat)
    requires Sized(hints, rows) && AllInRange(hints, records) && i < rows && k < KEYS
    ensures Sized(Replayed(hints, records), rows)
    ensures Replayed(hints, records)[i][k] == hints[i][k] + Net(records, i, k)
    decreases |records|
  {
    if records != [] {
      var front := records[..|records| - 1];
      ReplayCounts(hints, front, rows, i, k);
      assert InRange(records[|records| - 1], hints);
    }
  }

  /** The puts on key k that a peer has not acknowledged. */
  function Unacked(p: Link, puts: map<Uuid, Stamped>, k: nat): (r: set<Uuid>)
    ensures forall u :: u in r <==> u in puts && puts[u].put.key == k && u !in p.acked
  {
    set u | u in puts && puts[u].put.key == k && u !in p.acked
  }

  /** No run of the hints still waiting makes the count negative. */
  ghost predicate StaysPositive(base: int, queue: seq<Hint>, i: nat, k: nat) {
    forall n :: 0 <= n <= |queue| ==> base + Net(queue[..n], i, k) >= 0
  }

  ghost predicate CounterOk(start: int, co: Coord, p: Link, puts: map<Uuid, Stamped>, i: nat, k: nat)
    requires i < |co.hints| && k < |co.hints[i]|
  {
    && co.hints[i][k] + Net(co.hintQueue, i, k) == start + |Unacked(p, puts, k)|
    && StaysPositive(co.hints[i][k], co.hintQueue, i, k)
  }

  ghost predicate CountersOk(s0: System, s: System)
    requires Sized(s0.co.hints, |s.links|) && Sized(s.co.hints, |s.links|)
  {
    forall i, k :: 0 <= i < |s.links| && 0 <= k < KEYS ==>
      CounterOk(s0.co.hints[i][k], s.co, s.links[i], s.puts, i, k)
  }

  ghost predicate HintInv(s0: System, s: System) {
    && s.co.hinted && Sized(s0.co.hints, |s.links|) && Sized(s.co.hints, |s.links|)
    && AllInRange(s.co.hints, s.co.hintQueue)
    && CountersOk(s0, s)
  }

  lemma CounterAfterPut(start: int, co: Coord, co': Coord, p: Link, p': Link, puts: map<Uuid, Stamped>, u: Uuid, st: Stamped,
                        i: nat, k: nat)
    requires i < |co.hints| && k < |co.hints[i]| && CounterOk(start, co, p, puts, i, k)
    requires u !in puts && u !in p.acked && p'.acked == p.acked
    requires co'.hints == co.hints && co'.hintQueue == co.hintQueue + AddsFor(|co.hints|, st.put.key)
    ensures CounterOk(start, co', p', puts[u := st], i, k)
  {
    var adds, q := AddsFor(|co.hints|, st.put.key), co.hintQueue;
    NetConcat(q, adds, i, k);
    NetOfAdds(|co.hints|, st.put.key, i, k);
    PutPositive(co.hints[i][k], q, |co.hints|, st.put.key, i, k);
    UnackedAfterPut(p, p', puts, u, st, k);
    hide StaysPositive, Net, Unacked, AddsFor;
  }

  lemma UnackedAfterPut(p: Link, p': Link, puts: map<Uuid, Stamped>, u: Uuid, st: Stamped, k: nat)
    requires u !in puts && u !in p.acked && p'.acked == p.acked
    ensures |Unacked(p', puts[u := st], k)| == |Unacked(p, puts, k)| + if st.put.key == k then 1 else 0
  {
    var before, after := Unacked(p, puts, k), Unacked(p', puts[u := st], k);
    assert after == if st.put.key == k then before + {u} else before;
  }

  lemma PutHints(s: System, u: Uuid, m: PutKey, t: nat)
    requires Enabled(s, Put(u, m, t)) && s.co.hinted
    ensures var s' := Step(s, Put(u, m, t));
            && s'.co.hinted && s'.co.hints == s.co.hints && s'.co.hintQueue == s.co.hintQueue + AddsFor(|s.co.hints|, m.key)
            && s'.puts == s.puts[u := Stamped(m, t)] && |s'.links| == |s.links|
            && forall i :: 0 <= i < |s.links| ==> s'.links[i].acked == s.links[i].acked
  {
    hide Written;
  }

  lemma {:induction false} PutPositive(base: int, q: seq<Hint>, rows: nat, key: nat, i: nat, k: nat)
    requires StaysPositive(base, q, i, k)
    ensures StaysPositive(base, q + AddsFor(rows, key), i, k)
    decreases rows
  {
    if rows == 0 {
      assert q + [] == q;
    } else {
      var adds, h := AddsFor(rows - 1, key), AddHint(rows - 1, key);
      PutPositive(base, q, rows - 1, key, i, k);
      NonNegative(base, q + adds, i, k);
      OnePositive(base, q + adds, h, i, k);
      assert q + AddsFor(rows, key) == q + adds + [h];
    }
  }

  lemma NonNegative(base: int, q: seq<Hint>, i: nat, k: nat)
    requires StaysPositive(base, q, i, k)
    ensures base + Net(q, i, k) >= 0
  {
    assert q[..|q|] == q;
  }

  lemma OnePositive(base: int, q: seq<Hint>, h: Hint, i: nat, k: nat)
    requires StaysPositive(base, q, i, k) && base + Net(q, i, k) + Delta(h, i, k) >= 0
    ensures StaysPositive(base, q + [h], i, k)
  {
    NetOne(q, h, i, k);
    hide Net, Delta;
    forall n | 0 <= n <= |q + [h]| ensures base + Net((q + [h])[..n], i, k) >= 0 {
      PrefixOfAppend(q, h, n);
    }
  }

  lemma UnackedAfterAck(p: Link, puts: map<Uuid, Stamped>, u: Uuid, acks: bool, k: nat)
    requires u in puts && (acks ==> u !in p.acked)
    ensures |Unacked(p, puts, k)| ==
            |Unacked(if acks then Acknowledged(p, u) else p, puts, k)| + if acks && puts[u].put.key == k then 1 else 0
  {
    var before, after := Unacked(p, puts, k), Unacked(if acks then Acknowledged(p, u) else p, puts, k);
    if acks && puts[u].put.key == k {
      assert before == after + {u} && u !in after;
    } else {
      assert before == after;
    }
  }

  lemma CompleteCounter(start: int, co: Coord, p: Link, puts: map<Uuid, Stamped>, u: Uuid, from: nat, i: nat, k: nat)
    requires co.hinted && i < |co.hints| && k < |co.hints[i]| && start >= 0
    requires u in puts && u in co.pending && co.pending[u].key == puts[u].put.key
    requires from == i ==> u !in p.acked
    requires CounterOk(start, co, p, puts, i, k)
    ensures CounterOk(start, OnComplete(co, u, from), if from == i then Acknowledged(p, u) else p, puts, i, k)
  {
    hide StaysPositive, Net, Unacked, Acknowledged;
    var h, q := DropHint(from, co.pending[u].key), co.hintQueue;
    NetOne(q, h, i, k);
    UnackedAfterAck(p, puts, u, from == i, k);
    OnePositive(co.hints[i][k], q, h, i, k);
  }

  lemma BumpAt(hints: seq<seq<int>>, h: Hint, i: nat, k: nat)
    requires InRange(h, hints) && i < |hints| && k < |hints[i]|
    ensures Bump(hints, h)[i][k] == hints[i][k] + Delta(h, i, k)
  {
  }

  lemma TaskCounter(start: int, co: Coord, p: Link, puts: map<Uuid, Stamped>, i: nat, k: nat)
    requires co.hintQueue != [] && InRange(co.hintQueue[0], co.hints) && i < |co.hints| && k < |co.hints[i]|
    requires CounterOk(start, co, p, puts, i, k)
    ensures CounterOk(start, OnHintTask(co), p, puts, i, k)
  {
    var h, rest := co.hintQueue[0], co.hintQueue[1..];
    BumpAt(co.hints, h, i, k);
    NetFirst(co.hintQueue, i, k);
    var base := co.hints[i][k];
    forall n | 0 <= n <= |rest| ensures base + Delta(h, i, k) + Net(rest[..n], i, k) >= 0 {
      assert co.hintQueue[..n + 1][1..] == rest[..n];
      NetFirst(co.hintQueue[..n + 1], i, k);
    }
  }

  lemma NetFirst(hs: seq<Hint>, i: nat, k: nat)
    requires hs != []
    ensures Net(hs, i, k) == Delta(hs[0], i, k) + Net(hs[1..], i, k)
  {
    assert hs == [hs[0]] + hs[1..] && [] + [hs[0]] == [hs[0]];
    NetConcat([hs[0]], hs[1..], i, k);
    NetOne([], hs[0], i, k);
  }

  // ----- every step -----

  ghost predicate StartsPositive(s0: System) {
    forall i, k :: 0 <= i < |s0.co.hints| && 0 <= k < |s0.co.hints[i]| ==> s0.co.hints[i][k] >= 0
  }

  lemma InRangeKept(hints: seq<seq<int>>, hints': seq<seq<int>>, rows: nat, records: seq<Hint>)
    requires Sized(hints, rows) && Sized(hints', rows) && AllInRange(hints, records)
    ensures AllInRange(hints', records)
  {
    forall j | 0 <= j < |records| ensures InRange(records[j], hints') {
      assert InRange(records[j], hints);
    }
  }

  lemma PutCounters(s0: System, s: System, u: Uuid, m: PutKey, t: nat)
    requires HintInv(s0, s) && Enabled(s, Put(u, m, t))
    requires forall i :: 0 <= i < |s.links| ==> u !in s.links[i].acked
    requires Step(s, Put(u, m, t)).co.hints == s.co.hints && |Step(s, Put(u, m, t)).links| == |s.links|
    ensures CountersOk(s0, Step(s, Put(u, m, t)))
  {
    var s' := Step(s, Put(u, m, t));
    hide CounterOk, Step;
    PutHints(s, u, m, t);
    forall i, k | 0 <= i < |s.links| && 0 <= k < KEYS
      ensures CounterOk(s0.co.hints[i][k], s'.co, s'.links[i], s'.puts, i, k)
    {
      assert CounterOk(s0.co.hints[i][k], s.co, s.links[i], s.puts, i, k);
      CounterAfterPut(s0.co.hints[i][k], s.co, s'.co, s.links[i], s'.links[i], s.puts, u, Stamped(m, t), i, k);
    }
  }

  lemma NeverAcked(s: System, u: Uuid)
    requires LinksOk(s) && u !in s.puts
    ensures forall i :: 0 <= i < |s.links| ==> u !in s.links[i].acked
  {
    NeverHeardOf(s, u);
    forall i | 0 <= i < |s.links| ensures u !in s.links[i].acked {
      assert i !in Ackers(s.links, u);
    }
  }

  lemma PutCounts(s0: System, s: System, u: Uuid, m: PutKey, t: nat)
    requires HintInv(s0, s) && LinksOk(s) && Enabled(s, Put(u, m, t))
    ensures HintInv(s0, Step(s, Put(u, m, t)))
  {
    hide CountersOk, LinksOk, Step;
    PutHints(s, u, m, t);
    AddsForAll(|s.co.hints|, m.key);
    NeverAcked(s, u);
    PutCounters(s0, s, u, m, t);
    assert m.key < KEYS;
    hide Enabled;
  }

  lemma CompleteCounters(s0: System, s: System, s': System, from: nat, u: Uuid)
    requires HintInv(s0, s) && StartsPositive(s0) && from < |s.links| && u !in s.links[from].acked
    requires u in s.puts && u in s.co.pending && s.co.pending[u].key == s.puts[u].put.key
    requires s'.co == OnComplete(s.co, u, from) && s'.puts == s.puts
    requires s'.links == s.links[from := Acknowledged(s.links[from], u)]
    ensures CountersOk(s0, s')
  {
    hide CounterOk, Acknowledged;
    forall i, k | 0 <= i < |s.links| && 0 <= k < KEYS
      ensures CounterOk(s0.co.hints[i][k], s'.co, s'.links[i], s'.puts, i, k)
    {
      assert CounterOk(s0.co.hints[i][k], s.co, s.links[i], s.puts, i, k);
      CompleteCounter(s0.co.hints[i][k], s.co, s.links[i], s.puts, u, from, i, k);
    }
  }

  lemma CompletedKey(s: System, from: nat, u: Uuid)
    requires ReplyInv(s) && LinksOk(s) && Enabled(s, Complete(from, u))
    ensures u in s.puts && u in s.co.pending && u !in s.links[from].acked
    ensures s.co.pending[u].key == s.puts[u].put.key < KEYS
  {
    AckIsNew(s, from, u);
    assert LinkOk(s.links[from], s.puts) && ReplyOk(s, u);
  }

  lemma CompleteHints(s: System, from: nat, u: Uuid)
    requires Enabled(s, Complete(from, u)) && u in s.co.pending
    ensures var s' := Step(s, Complete(from, u));
            && s'.co == OnComplete(s.co, u, from) && s'.puts == s.puts
            && s'.links == s.links[from := Acknowledged(s.links[from], u)]
  {
  }

  lemma CompleteCounts(s0: System, s: System, from: nat, u: Uuid)
    requires HintInv(s0, s) && StartsPositive(s0) && ReplyInv(s) && LinksOk(s) && Enabled(s, Complete(from, u))
    ensures HintInv(s0, Step(s, Complete(from, u)))
  {
    var s' := Step(s, Complete(from, u));
    assert from < |s.links|;
    hide CountersOk, LinksOk, Acknowledged, ReplyInv, Step;
    CompletedKey(s, from, u);
    CompleteHints(s, from, u);
    hide Enabled;
    CompleteCounters(s0, s, s', from, u);
    assert s'.co.hintQueue == s.co.hintQueue + [DropHint(from, s.puts[u].put.key)];
  }

  lemma TaskCounts(s0: System, s: System)
    requires HintInv(s0, s) && Enabled(s, HintTask)
    ensures HintInv(s0, Step(s, HintTask))
  {
    var s' := Step(s, HintTask);
    hide CounterOk;
    assert s'.co == OnHintTask(s.co) && s'.links == s.links && s'.puts == s.puts;
    hide Step, Bump;
    forall i, k | 0 <= i < |s.links| && 0 <= k < KEYS
      ensures CounterOk(s0.co.hints[i][k], s'.co, s'.links[i], s'.puts, i, k)
    {
      assert CounterOk(s0.co.hints[i][k], s.co, s.links[i], s.puts, i, k);
      TaskCounter(s0.co.hints[i][k], s.co, s.links[i], s.puts, i, k);
    }
    InRangeKept(s.co.hints, s'.co.hints, |s.links|, s.co.hintQueue);
    assert forall j :: 0 <= j < |s'.co.hintQueue| ==> s'.co.hintQueue[j] == s.co.hintQueue[j + 1];
  }

  /** A counter depends on the hints, the waiting hints, the puts and what the peer acknowledged. */
  lemma CounterSame(start: int, co: Coord, co': Coord, p: Link, p': Link, puts: map<Uuid, Stamped>, i: nat, k: nat)
    requires i < |co.hints| && k < |co.hints[i]| && CounterOk(start, co, p, puts, i, k)
    requires co'.hints == co.hints && co'.hintQueue == co.hintQueue && p'.acked == p.acked
    ensures CounterOk(start, co', p', puts, i, k)
  {
    hide StaysPositive;
    assert Unacked(p', puts, k) == Unacked(p, puts, k);
  }

  lemma SameCounts(s0: System, s: System, s': System)
    requires HintInv(s0, s) && SameHistory(s, s')
    requires s'.co.hinted == s.co.hinted && s'.co.hints == s.co.hints && s'.co.hintQueue == s.co.hintQueue
    ensures HintInv(s0, s')
  {
    hide CounterOk;
    forall i, k | 0 <= i < |s.links| && 0 <= k < KEYS
      ensures CounterOk(s0.co.hints[i][k], s'.co, s'.links[i], s'.puts, i, k)
    {
      assert CounterOk(s0.co.hints[i][k], s.co, s.links[i], s.puts, i, k);
      CounterSame(s0.co.hints[i][k], s.co, s'.co, s.links[i], s'.links[i], s.puts, i, k);
    }
  }

  lemma OtherCounts(s0: System, s: System, e: Event)
    requires HintInv(s0, s) && Enabled(s, e) && !e.Put? && !e.Complete? && !e.HintTask?
    ensures HintInv(s0, Step(s, e))
  {
    var s' := Step(s, e);
    hide HintInv, SameHistory;
    if OwnEvent(e) {
      OwnEventKeepsHistory(s, e);
      assert s'.co.hinted == s.co.hinted && s'.co.hints == s.co.hints && s'.co.hintQueue == s.co.hintQueue;
    } else {
      LinkEventKeepsHistory(s, e);
    }
    hide Step, Enabled;
    SameCounts(s0, s, s');
  }

  lemma StepCounts(s0: System, s: System, e: Event)
    requires HintInv(s0, s) && StartsPositive(s0) && ReplyInv(s) && LinksOk(s) && Enabled(s, e)
    ensures HintInv(s0, Step(s, e))
  {
    hide HintInv, ReplyInv, LinksOk, Step;
    match e
    case Put(u, m, t) => PutCounts(s0, s, u, m, t);
    case Complete(i, u) => CompleteCounts(s0, s, i, u);
    case HintTask => TaskCounts(s0, s);
    case _ => OtherCounts(s0, s, e);
  }

  /** A coordinator in handoff mode that has replayed its hint log and taken no put yet. */
  ghost predicate HintsFresh(s0: System) {
    Fresh(s0) && s0.co.hinted && s0.co.hintQueue == [] && Sized(s0.co.hints, |s0.links|) && StartsPositive(s0)
  }

  lemma FreshCounts(s0: System)
    requires HintsFresh(s0)
    ensures HintInv(s0, s0)
  {
    assert s0.puts == map[];
    hide Fresh;
    forall i, k | 0 <= i < |s0.links| && 0 <= k < KEYS
      ensures CounterOk(s0.co.hints[i][k], s0.co, s0.links[i], s0.puts, i, k)
    {
      assert Unacked(s0.links[i], s0.puts, k) == {};
    }
  }

  lemma {:induction false} RunCounts(s0: System, events: seq<Event>, s: System)
    requires HintsFresh(s0) && Run(s0, events, s)
    ensures HintInv(s0, s)
    decreases |events|
  {
    if events == [] {
      FreshCounts(s0);
    } else {
      var last := events[|events| - 1];
      var u :| Run(s0, Front(events), u) && Follows(u, last, s);
      assert Fresh(s0) && StartsPositive(s0) && Enabled(u, last) && s == Step(u, last);
      hide HintsFresh, Fresh, Run, HintInv, ReplyInv, CoverInv, Step, Enabled, StartsPositive;
      RunCounts(s0, Front(events), u);
      RunReplies(s0, Front(events), u);
      CoverParts(u);
      StepCounts(s0, u, last);
    }
  }

  /** No hint for this peer and key waits. */
  ghost predicate NoHintWaits(queue: seq<Hint>, i: nat, k: nat) {
    forall h :: h in queue ==> h.replica != i || h.key != k
  }

  lemma {:induction false} NetOfOthers(queue: seq<Hint>, i: nat, k: nat)
    requires NoHintWaits(queue, i, k)
    ensures Net(queue, i, k) == 0
    decreases |queue|
  {
    if queue != [] {
      assert queue[|queue| - 1] in queue;
      NetOfOthers(queue[..|queue| - 1], i, k);
    }
  }

  /** In every run no counter ever falls below zero; and whenever no hint for the peer and key waits, the counter
      exceeds what it started with by exactly the number of puts on the key that the peer has not acknowledged. */
  lemma HintsCountUnacked(s0: System, events: seq<Event>, s: System, i: nat, k: nat)
    requires HintsFresh(s0) && Run(s0, events, s) && i < |s.links| && k < KEYS
    ensures Sized(s.co.hints, |s.links|) && Sized(s0.co.hints, |s.links|)
    ensures s.co.hints[i][k] >= 0
    ensures NoHintWaits(s.co.hintQueue, i, k) ==>
              s.co.hints[i][k] == s0.co.hints[i][k] + |Unacked(s.links[i], s.puts, k)|
  {
    RunCounts(s0, events, s);
    hide HintsFresh, Run;
    assert CounterOk(s0.co.hints[i][k], s.co, s.links[i], s.puts, i, k);
    assert s.co.hintQueue[..0] == [];
    if NoHintWaits(s.co.hintQueue, i, k) {
      NetOfOthers(s.co.hintQueue, i, k);
    }
  }

  // ----- the log accounts for the counters -----

  /** Every hint in the log has a counter, and each counter is what was logged for it. */
  ghost predicate LogAccounts(hints: seq<seq<int>>, hintLog: seq<Hint>, rows: nat) {
    && Sized(hints, rows) && AllInRange(hints, hintLog)
    && forall i, k :: 0 <= i < rows && 0 <= k < KEYS ==> hints[i][k] == Net(hintLog, i, k)
  }

  lemma LoggedAndCounted(hints: seq<seq<int>>, hintLog: seq<Hint>, rows: nat, h: Hint)
    requires LogAccounts(hints, hintLog, rows) && InRange(h, hints)
    ensures LogAccounts(Bump(hints, h), hintLog + [h], rows)
  {
    var hints', log' := Bump(hints, h), hintLog + [h];
    assert Sized(hints', rows);
    forall j | 0 <= j < |log'| ensures InRange(log'[j], hints') {
      assert InRange(log'[j], hints);
    }
    hide InRange, Bump, Delta, Net;
    forall i, k | 0 <= i < rows && 0 <= k < KEYS ensures hints'[i][k] == Net(log', i, k) {
      BumpAt(hints, h, i, k);
      NetOne(hintLog, h, i, k);
    }
  }

  lemma StepLogs(s: System, e: Event)
    requires LogAccounts(s.co.hints, s.co.hintLog, |s.links|) && Enabled(s, e)
    ensures var t := Step(s, e); |t.links| == |s.links| && LogAccounts(t.co.hints, t.co.hintLog, |t.links|)
  {
    hide Written, Ran, Posted, HandedOff, Bump, LogAccounts;
    if e.HintTask? && InRange(s.co.hintQueue[0], s.co.hints) {
      LoggedAndCounted(s.co.hints, s.co.hintLog, |s.links|, s.co.hintQueue[0]);
    }
  }

  lemma {:induction false} RunLogs(s0: System, events: seq<Event>, s: System)
    requires LogAccounts(s0.co.hints, s0.co.hintLog, |s0.links|) && Run(s0, events, s)
    ensures |s.links| == |s0.links| && LogAccounts(s.co.hints, s.co.hintLog, |s.links|)
    decreases |events|
  {
    if events != [] {
      var last := events[|events| - 1];
      var u :| Run(s0, Front(events), u) && Follows(u, last, s);
      assert Enabled(u, last) && s == Step(u, last);
      hide Run, Step, Enabled, LogAccounts;
      RunLogs(s0, Front(events), u);
      StepLogs(u, last);
    }
  }

  function NoHints(rows: nat): (r: seq<seq<int>>)
    ensures Sized(r, rows) && forall i, k :: 0 <= i < rows && 0 <= k < 256 ==> r[i][k] == 0
  {
    seq(rows, i => seq(KEYS, k => 0))
  }

  /** Counters agree where the log says so. */
  lemma ReplayGivesBack(hints: seq<seq<int>>, hintLog: seq<Hint>, rows: nat)
    requires LogAccounts(hints, hintLog, rows)
    ensures AllInRange(NoHints(rows), hintLog) && Replayed(NoHints(rows), hintLog) == hints
  {
    var zeros := NoHints(rows);
    InRangeKept(hints, zeros, rows, hintLog);
    hide InRange, Net, NoHints;
    var again := Replayed(zeros, hintLog);
    forall i | 0 <= i < rows ensures again[i] == hints[i] {
      forall k | 0 <= k < KEYS ensures |again[i]| == KEYS && again[i][k] == hints[i][k] {
        ReplayCounts(zeros, hintLog, rows, i, k);
      }
      assert |again[i]| == KEYS;
    }
  }

  /** In every run from counters the log accounts for, every counter is at all times what was logged for it,
      and a coordinator that restarts then, with counters at zero, counts the whole log up to the same. */
  lemma HintsSurvive(s0: System, events: seq<Event>, s: System)
    requires LogAccounts(s0.co.hints, s0.co.hintLog, |s0.links|) && Run(s0, events, s)
    ensures |s.co.hints| == |s.links|
    ensures forall i, k :: 0 <= i < |s.links| && 0 <= k < 256 ==>
              |s.co.hints[i]| == 256 && s.co.hints[i][k] == Net(s.co.hintLog, i, k)
    ensures AllInRange(NoHints(|s.links|), s.co.hintLog) && Replayed(NoHints(|s.links|), s.co.hintLog) == s.co.hints
  {
    RunLogs(s0, events, s);
    ReplayGivesBack(s.co.hints, s.co.hintLog, |s.links|);
  }

  /** The coordinator's process stops and starts again. Counters and slots come from the logs; what waited or was under
      way is lost, and so is the memory of the puts. */
  function Restart(s: System): System
    requires AllInRange(NoHints(|s.links|), s.co.hintLog)
  {
    System(Coord(true, Restarted(s.co.own), map[], Replayed(NoHints(|s.links|), s.co.hintLog), [], s.co.hintLog),
           seq(|s.links|, i requires 0 <= i < |s.links| => Link(s.links[i].replica, multiset{}, multiset{}, {})),
           map[], multiset{})
  }

  /** A restart at any moment of a run again meets what the runs start from, with every counter as it was, whatever
      the number of restarts before. */
  lemma RestartIsFresh(s0: System, events: seq<Event>, s: System)
    requires HintsFresh(s0) && LogAccounts(s0.co.hints, s0.co.hintLog, |s0.links|) && Run(s0, events, s)
    ensures AllInRange(NoHints(|s.links|), s.co.hintLog)
    ensures var t := Restart(s);
            && HintsFresh(t) && LogAccounts(t.co.hints, t.co.hintLog, |t.links|) && t.co.hints == s.co.hints
            && forall i :: 0 <= i < |s.links| ==> t.links[i].replica == s.links[i].replica
  {
    assert Fresh(s0);
    HintsSurvive(s0, events, s);
    RunLogs(s0, events, s);
    RunReplies(s0, events, s);
    CoverParts(s);
    forall i | 0 <= i < |s.links| ensures |s.links[i].replica.slots| == KEYS {
      assert LinkOk(s.links[i], s.puts);
    }
    hide HintsFresh, Run, LogAccounts, LinksOk, CoverInv, Net;
    assert |s.links| < U32 - 1;
    forall i, k | 0 <= i < |s.links| && 0 <= k < KEYS ensures |s.co.hints[i]| == KEYS && s.co.hints[i][k] >= 0 {
      HintsCountUnacked(s0, events, s, i, k);
    }
    FreshAgain(s);
  }

  lemma FreshAgain(s: System)
    requires |s.links| < U32 - 1 && Sized(s.co.hints, |s.links|)
    requires forall i, k :: 0 <= i < |s.links| && 0 <= k < KEYS ==> s.co.hints[i][k] >= 0
    requires forall i :: 0 <= i < |s.links| ==> |s.links[i].replica.slots| == KEYS
    requires AllInRange(NoHints(|s.links|), s.co.hintLog) && Replayed(NoHints(|s.links|), s.co.hintLog) == s.co.hints
    ensures HintsFresh(Restart(s))
  {
  }

  // ----- such systems exist -----

  function EmptyReplica(): State { State(Empty(), [], []) }

  /** A coordinator and n peers at their first start. */
  function FirstStart(n: nat): System {
    System(Coord(true, EmptyReplica(), map[], seq(n, i => seq(KEYS, k => 0)), [], []),
           seq(n, i => Link(EmptyReplica(), multiset{}, multiset{}, {})), map[], multiset{})
  }

  lemma FirstStartIsFresh(n: nat)
    requires n < U32 - 1
    ensures HintsFresh(FirstStart(n))
    ensures var co := FirstStart(n).co; LogAccounts(co.hints, co.hintLog, n)
  {
  }
}
