/** Length-prefixed frames: an 8-byte big-endian size, then the body. */
module Frames {
  import opened Arithmetic

  type byte = x: int | 0 <= x < 256

  const HEADER_LENGTH: nat := 8

  function Pow256(k: nat): (p: nat)
    ensures p > 0
  {
    if k == 0 then 1 else 256 * Pow256(k - 1)
  }

  /** The k low-order bytes of n, most significant first. */
  function BigEndian(n: nat, k: nat): (s: seq<byte>)
    ensures |s| == k
  {
    if k == 0 then [] else BigEndian(n / 256, k - 1) + [n % 256]
  }

  function Value(s: seq<byte>): nat {
    if s == [] then 0 else 256 * Value(s[..|s| - 1]) + s[|s| - 1]
  }

  lemma {:induction false} ValueOfBigEndian(n: nat, k: nat)
    requires n < Pow256(k)
    ensures Value(BigEndian(n, k)) == n
    decreases k
  {
    if k > 0 {
      ValueOfBigEndian(n / 256, k - 1);
      assert BigEndian(n, k)[..k - 1] == BigEndian(n / 256, k - 1);
    }
  }

  lemma {:induction false} BigEndianOfValue(s: seq<byte>)
    ensures BigEndian(Value(s), |s|) == s && Value(s) < Pow256(|s|)
    decreases |s|
  {
    if s != [] {
      BigEndianOfValue(s[..|s| - 1]);
      assert Value(s) / 256 == Value(s[..|s| - 1]) && Value(s) % 256 == s[|s| - 1];
      assert s == s[..|s| - 1] + [s[|s| - 1]];
    }
  }

  lemma DivDiv(n: nat, p: nat)
    requires p > 0
    ensures n / 256 / p == n / (256 * p)
  {
    var q, r := n / 256, n % 256;
    var a, b := q / p, q % p;
    assert n == 256 * (a * p + b) + r;
    assert n == a * (256 * p) + (256 * b + r) by {
      assert 256 * (a * p) == a * (256 * p);
    }
    assert 256 * b + r < 256 * p;
    QuotientIs(n, 256 * p, a, 256 * b + r);
  }

  /** Byte i counts for 256^(k - 1 - i). */
  lemma {:induction false} BigEndianBytes(n: nat, k: nat)
    ensures forall i :: 0 <= i < k ==> BigEndian(n, k)[i] == n / Pow256(k - 1 - i) % 256
    decreases k
  {
    if k > 0 {
      BigEndianBytes(n / 256, k - 1);
      forall i | 0 <= i < k ensures BigEndian(n, k)[i] == n / Pow256(k - 1 - i) % 256 {
        if i < k - 1 {
          assert BigEndian(n, k)[i] == BigEndian(n / 256, k - 1)[i];
          DivDiv(n, Pow256(k - 2 - i));
        } else {
          assert Pow256(0) == 1;
        }
      }
    }
  }

  lemma EightBytes()
    ensures Pow256(8) == 0x1_0000_0000_0000_0000 && Pow256(0) == 1
  {
    assert Pow256(1) == 0x100 && Pow256(2) == 0x1_0000 && Pow256(3) == 0x100_0000 && Pow256(4) == 0x1_0000_0000;
    assert Pow256(5) == 0x100_0000_0000 && Pow256(6) == 0x1_0000_0000_0000 && Pow256(7) == 0x100_0000_0000_0000;
  }

  /** A body whose size fits in a size_t. */
  predicate Sendable(body: seq<byte>) { |body| < Pow256(HEADER_LENGTH) }

  function Frame(body: seq<byte>): seq<byte> { BigEndian(|body|, HEADER_LENGTH) + body }

  function FrameAll(bodies: seq<seq<byte>>): seq<byte> {
    if bodies == [] then [] else Frame(bodies[0]) + FrameAll(bodies[1..])
  }

  lemma {:induction false} FrameAllAppend(bodies: seq<seq<byte>>, body: seq<byte>)
    ensures FrameAll(bodies + [body]) == FrameAll(bodies) + Frame(body)
    decreases |bodies|
  {
    if bodies == [] {
      assert bodies + [body] == [body];
      assert FrameAll([body]) == Frame(body) + FrameAll([]);
      assert FrameAll([]) == [];
    } else {
      assert (bodies + [body])[1..] == bodies[1..] + [body];
      FrameAllAppend(bodies[1..], body);
    }
  }

  /** The first frame of a stream can be told from its first bytes. */
  lemma FrameIsPrefixFree(x: seq<byte>, y: seq<byte>, xs: seq<byte>, ys: seq<byte>)
    requires Sendable(x) && Sendable(y)
    requires Frame(x) + xs <= Frame(y) + ys
    ensures x == y && xs <= ys
  {
    var a, b := Frame(x) + xs, Frame(y) + ys;
    assert a[..HEADER_LENGTH] == BigEndian(|x|, HEADER_LENGTH);
    assert b[..HEADER_LENGTH] == BigEndian(|y|, HEADER_LENGTH);
    ValueOfBigEndian(|x|, HEADER_LENGTH);
    ValueOfBigEndian(|y|, HEADER_LENGTH);
    assert a[..HEADER_LENGTH] == b[..HEADER_LENGTH];
    var n := HEADER_LENGTH + |x|;
    assert a[HEADER_LENGTH..n] == x && b[HEADER_LENGTH..n] == y;
    assert a[n..] == xs && b[n..] == ys;
  }

  /** Frames that begin a stream of frames are the stream's first frames. */
  lemma {:induction false} UniqueFraming(xs: seq<seq<byte>>, rest: seq<byte>, ys: seq<seq<byte>>)
    requires forall x :: x in xs ==> Sendable(x)
    requires forall y :: y in ys ==> Sendable(y)
    requires FrameAll(xs) + rest <= FrameAll(ys)
    ensures xs <= ys && rest <= FrameAll(ys[|xs|..])
    decreases |xs|
  {
    if xs != [] {
      assert ys != [];
      assert FrameAll(xs) + rest == Frame(xs[0]) + (FrameAll(xs[1..]) + rest);
      FrameIsPrefixFree(xs[0], ys[0], FrameAll(xs[1..]) + rest, FrameAll(ys[1..]));
      UniqueFraming(xs[1..], rest, ys[1..]);
      assert xs == [xs[0]] + xs[1..] && ys == [ys[0]] + ys[1..];
      assert ys[|xs|..] == ys[1..][|xs[1..]|..];
    } else {
      assert FrameAll(xs) + rest == rest && ys[0..] == ys;
    }
  }

  /** The message header as the two programs hold it. */
  class Header {
    var bodySize: nat
    const bytes: array<byte>

    ghost predicate Valid()
      reads this
    {
      bytes.Length == HEADER_LENGTH
    }

    constructor ()
      ensures Valid() && fresh(bytes) && bodySize == 0
    {
      bodySize := 0;
      bytes := new byte[HEADER_LENGTH](i => 0);
    }

    method Encode()
      requires Valid()
      modifies bytes
      ensures bytes.Length == 8 && forall i :: 0 <= i < 8 ==> bytes[i] == bodySize / Pow256(7 - i) % 256
      ensures bytes[..] == BigEndian(bodySize, HEADER_LENGTH)
    {
      BigEndianBytes(bodySize, HEADER_LENGTH);
      var net := BigEndian(bodySize, HEADER_LENGTH);
      forall i | 0 <= i < HEADER_LENGTH {
        bytes[i] := net[i];
      }
    }

    method SetBodySize(size: nat)
      requires Valid()
      modifies this`bodySize, bytes
      ensures bodySize == size && bytes.Length == 8
      ensures forall i :: 0 <= i < 8 ==> bytes[i] == size / Pow256(7 - i) % 256
      ensures bytes[..] == BigEndian(size, HEADER_LENGTH)
    {
      bodySize := size;
      Encode();
    }

    method Decode()
      requires Valid()
      modifies this`bodySize
      ensures bodySize < 0x1_0000_0000_0000_0000 && bytes.Length == 8
      ensures forall i :: 0 <= i < 8 ==> bytes[i] == bodySize / Pow256(7 - i) % 256
      ensures BigEndian(bodySize, HEADER_LENGTH) == bytes[..] && bodySize < Pow256(HEADER_LENGTH)
    {
      BigEndianOfValue(bytes[..]);
      BigEndianBytes(Value(bytes[..]), HEADER_LENGTH);
      EightBytes();
      bodySize := Value(bytes[..]);
    }
  }
}

/** The two ends of a connection while it lives. */
module Channels {
  import opened Frames

  /** The sending end: a queue of bodies of which only the first may be on its way. */
  class Sender {
    var queue: seq<seq<byte>>
    var writes: nat            // writes started and not yet completed
    var wire: seq<byte>        // everything handed to the socket
    ghost var sent: seq<seq<byte>>

    /** At most one write is outstanding; the wire holds the frames of all messages but the queued ones
        behind the one being written. */
    ghost predicate Valid()
      reads this
    {
      && writes == (if queue == [] then 0 else 1)
      && |queue| <= |sent| && queue == sent[|sent| - |queue|..]
      && wire == FrameAll(sent[..|sent| - |queue| + writes])
    }

    constructor ()
      ensures Valid() && sent == []
    {
      queue, writes, wire, sent := [], 0, [], [];
    }

    method DoSend(header: Header)
      requires header.Valid() && queue != []
      modifies this`writes, this`wire, header`bodySize, header.bytes
      ensures header.bodySize == |queue[0]| && header.bytes.Length == 8
      ensures forall i :: 0 <= i < 8 ==> header.bytes[i] == |queue[0]| / Pow256(7 - i) % 256
      ensures wire == old(wire) + header.bytes[..] + queue[0]
      ensures writes == old(writes) + 1 && wire == old(wire) + Frame(queue[0])
    {
      header.SetBodySize(|queue[0]|);
      wire := wire + header.bytes[..] + queue[0];
      assert wire == old(wire) + Frame(queue[0]);
      writes := writes + 1;
    }

    method Send(body: seq<byte>, header: Header)
      requires Valid() && header.Valid()
      modifies this, header`bodySize, header.bytes
      ensures Valid() && sent == old(sent) + [body] && queue == old(queue) + [body]
      ensures wire == old(wire) + if old(queue) == [] then Frame(body) else []
    {
      var empty := queue == [];
      queue := queue + [body];
      sent := sent + [body];
      if empty {
        assert sent[..|sent|] == old(sent)[..|old(sent)|] + [body];
        FrameAllAppend(old(sent), body);
        assert old(sent)[..|old(sent)|] == old(sent);
        DoSend(header);
      } else {
        assert sent[..|sent| - |queue| + 1] == old(sent)[..|old(sent)| - |old(queue)| + 1];
      }
    }

    /** The completion handler of a write. */
    method WriteCompleted(header: Header)
      requires Valid() && header.Valid() && writes == 1
      modifies this`queue, this`writes, this`wire, header`bodySize, header.bytes
      ensures Valid() && sent == old(sent) && queue == old(queue)[1..]
    {
      ghost var k := |sent| - |queue|;
      queue := queue[1..];
      writes := 0;
      if queue != [] {
        assert sent[..k + 2] == sent[..k + 1] + [queue[0]];
        FrameAllAppend(sent[..k + 1], queue[0]);
        DoSend(header);
      }
    }
  }

  datatype Awaiting = AwaitHeader | AwaitBody(size: nat)

  /** The bytes the receiver has taken off the stream or holds, behind the frames it has handled. */
  function Unfinished(awaiting: Awaiting, pending: seq<byte>): seq<byte> {
    if awaiting.AwaitHeader? then pending else BigEndian(awaiting.size, HEADER_LENGTH) + pending
  }

  /** The receiving end: each read completes once all the bytes it asked for have come. */
  class Receiver {
    var pending: seq<byte>
    var awaiting: Awaiting
    var handled: seq<seq<byte>>
    ghost var received: seq<byte>

    function Needed(): nat
      reads this
    {
      if awaiting.AwaitHeader? then HEADER_LENGTH else awaiting.size
    }

    /** The stream so far is the frames handled, the header read if any, and the bytes not yet used. */
    ghost predicate Consistent()
      reads this
    {
      && (forall m :: m in handled ==> Sendable(m))
      && (awaiting.AwaitBody? ==> awaiting.size < Pow256(HEADER_LENGTH))
      && received == FrameAll(handled) + Unfinished(awaiting, pending)
    }

    /** Between arrivals the receiver waits for bytes that have not come. */
    ghost predicate Valid()
      reads this
    {
      Consistent() && |pending| < Needed()
    }

    constructor ()
      ensures Valid() && received == [] && handled == []
    {
      pending, awaiting, handled, received := [], AwaitHeader, [], [];
    }

    /** The completion handler of a header read. */
    method HeaderRead(header: Header)
      requires Consistent() && header.Valid() && awaiting.AwaitHeader? && |pending| >= HEADER_LENGTH
      modifies this`awaiting, this`pending, header`bodySize, header.bytes
      ensures Consistent() && awaiting.AwaitBody? && pending == old(pending)[HEADER_LENGTH..]
    {
      forall i | 0 <= i < HEADER_LENGTH {
        header.bytes[i] := pending[i];
      }
      assert header.bytes[..] == pending[..HEADER_LENGTH];
      header.Decode();
      assert pending == BigEndian(header.bodySize, HEADER_LENGTH) + pending[HEADER_LENGTH..];
      awaiting, pending := AwaitBody(header.bodySize), pending[HEADER_LENGTH..];
    }

    /** The completion handler of a body read. */
    method BodyRead()
      requires Consistent() && awaiting.AwaitBody? && |pending| >= awaiting.size
      modifies this`awaiting, this`pending, this`handled
      ensures Consistent() && awaiting.AwaitHeader? && pending == old(pending)[old(awaiting.size)..]
      ensures handled == old(handled) + [old(pending)[..old(awaiting.size)]]
    {
      var body := pending[..awaiting.size];
      FrameAllAppend(handled, body);
      assert Unfinished(awaiting, pending) == Frame(body) + pending[awaiting.size..];
      assert FrameAll(handled + [body]) + pending[awaiting.size..] == FrameAll(handled) + Unfinished(awaiting, pending);
      handled := handled + [body];
      awaiting, pending := AwaitHeader, pending[awaiting.size..];
    }

    /** Bytes arrive, split in any way. */
    method Arrive(chunk: seq<byte>, header: Header)
      requires Valid() && header.Valid()
      modifies this, header`bodySize, header.bytes
      ensures Valid() && received == old(received) + chunk && old(handled) <= handled
    {
      assert FrameAll(handled) + Unfinished(awaiting, pending) + chunk ==
             FrameAll(handled) + Unfinished(awaiting, pending + chunk);
      pending := pending + chunk;
      received := received + chunk;
      while |pending| >= Needed()
        invariant Consistent() && header.Valid() && old(handled) <= handled
        invariant received == old(received) + chunk
        decreases |pending|, if awaiting.AwaitBody? then 1 else 0
      {
        if awaiting.AwaitHeader? {
          HeaderRead(header);
        } else {
          BodyRead();
        }
      }
    }
  }

  /** Bytes that begin the frames of some messages but do not complete the first of them. */
  lemma NotYetWhole(awaiting: Awaiting, pending: seq<byte>, next: seq<byte>, coming: seq<seq<byte>>)
    requires |pending| < if awaiting.AwaitHeader? then HEADER_LENGTH else awaiting.size
    requires awaiting.AwaitBody? ==> awaiting.size < Pow256(HEADER_LENGTH)
    requires Sendable(next) && (coming != [] ==> coming[0] == next)
    requires Unfinished(awaiting, pending) <= FrameAll(coming)
    ensures |Unfinished(awaiting, pending)| < |Frame(next)|
  {
    if awaiting.AwaitBody? {
      var u := Unfinished(awaiting, pending);
      assert FrameAll(coming)[..HEADER_LENGTH] == BigEndian(|next|, HEADER_LENGTH);
      assert u[..HEADER_LENGTH] == BigEndian(awaiting.size, HEADER_LENGTH);
      assert u[..HEADER_LENGTH] == FrameAll(coming)[..HEADER_LENGTH];
      ValueOfBigEndian(|next|, HEADER_LENGTH);
      ValueOfBigEndian(awaiting.size, HEADER_LENGTH);
    }
  }

  /** Whatever part of the wire has come, the receiver has handled exactly the messages whose frames
      have come whole, in the order they were sent. */
  lemma ReceiverHandlesPrefix(s: Sender, r: Receiver)
    requires s.Valid() && r.Valid() && r.received <= s.wire
    requires forall m :: m in s.sent ==> Sendable(m)
    ensures r.handled <= s.sent
    ensures |FrameAll(r.handled)| <= |r.received|
    ensures |r.handled| < |s.sent| ==> |r.received| < |FrameAll(r.handled + [s.sent[|r.handled|]])|
  {
    var known := s.sent[..|s.sent| - |s.queue| + s.writes];
    UniqueFraming(r.handled, Unfinished(r.awaiting, r.pending), known);
    if |r.handled| < |s.sent| {
      var next := s.sent[|r.handled|];
      FrameAllAppend(r.handled, next);
      NotYetWhole(r.awaiting, r.pending, next, known[|r.handled|..]);
    }
  }
}
