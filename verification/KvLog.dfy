/** The append-only log of the key-value store and its replay. */
module Logs {
  import opened Frames
  import opened Lists

  const FIRST_BUFFER: nat := 32

  function Zeros(n: nat): seq<byte> { seq(n, i => 0) }

  /** The read buffer after a body of this size is read from what is left of the file. */
  function BufferAfter(rest: seq<byte>, size: nat, buffer: seq<byte>): (r: seq<byte>)
    ensures |r| >= size
  {
    var space := if size > |buffer| then Zeros(size) else buffer;
    if |rest| < size then rest + space[|rest|..] else rest[..size] + space[size..]
  }

  /** The bodies replay hands to its handler for the bytes left in the file, given the buffer it reads
      bodies into. A short header ends the replay; a short body is handed over, padded with whatever
      the buffer held, and ends it too. */
  function Replayed(file: seq<byte>, buffer: seq<byte>): seq<seq<byte>>
    decreases |file|
  {
    if |file| < HEADER_LENGTH then []
    else
      var size := Value(file[..HEADER_LENGTH]);
      var rest := file[HEADER_LENGTH..];
      var after := BufferAfter(rest, size, buffer);
      [after[..size]] + if |rest| < size then [] else Replayed(rest[size..], after)
  }

  /** One turn of the replay. */
  lemma ReplayTurn(file: seq<byte>, buffer: seq<byte>, size: nat, after: seq<byte>, tail: seq<seq<byte>>)
    requires |file| >= HEADER_LENGTH && size == Value(file[..HEADER_LENGTH])
    requires after == BufferAfter(file[HEADER_LENGTH..], size, buffer)
    requires tail == if |file| - HEADER_LENGTH < size then [] else Replayed(file[HEADER_LENGTH..][size..], after)
    ensures Replayed(file, buffer) == [after[..size]] + tail
  {
  }

  class Log {
    var file: seq<byte>

    constructor ()
      ensures file == []
    {
      file := [];
    }

    /** Appends one record; the completion handler runs after it is flushed. */
    method WriteUpdate(body: seq<byte>, header: Header)
      requires header.Valid()
      modifies this, header`bodySize, header.bytes
      ensures header.bodySize == |body| && header.bytes.Length == 8
      ensures forall i :: 0 <= i < 8 ==> header.bytes[i] == |body| / Pow256(7 - i) % 256
      ensures file == old(file) + header.bytes[..] + body
      ensures file == old(file) + Frame(body)
    {
      header.SetBodySize(|body|);
      file := file + header.bytes[..];
      file := file + body;
      assert file == old(file) + Frame(body);
    }

    /** Reads one body into the buffer, which grows when the body does not fit. */
    method ReadBody(position: nat, size: nat, buffer: array<byte>) returns (buffer': array<byte>, read: nat)
      requires position <= |file|
      modifies buffer
      ensures buffer' == buffer || fresh(buffer')
      ensures buffer'.Length == if size > buffer.Length then size else buffer.Length
      ensures read == if |file| - position < size then |file| - position else size
      ensures forall i :: 0 <= i < read ==> buffer'[i] == file[position + i]
      ensures forall i :: read <= i < buffer'.Length ==> buffer'[i] == if size > buffer.Length then 0 else old(buffer[i])
      ensures buffer'[..] == BufferAfter(file[position..], size, old(buffer[..]))
    {
      buffer' := buffer;
      if size > buffer.Length {
        buffer' := new byte[size](i => 0);
        assert buffer'[..] == Zeros(size);
      }
      ghost var space := buffer'[..];
      read := if |file| - position < size then |file| - position else size;
      forall i | 0 <= i < read {
        buffer'[i] := file[position + i];
      }
      assert buffer'[..] == file[position..][..read] + space[read..];
    }

    method ReadHeader(position: nat, header: Header)
      requires header.Valid() && position + HEADER_LENGTH <= |file|
      modifies header`bodySize, header.bytes
      ensures header.bodySize == Value(file[position..][..HEADER_LENGTH])
    {
      forall i | 0 <= i < HEADER_LENGTH {
        header.bytes[i] := file[position + i];
      }
      assert header.bytes[..] == file[position..][..HEADER_LENGTH];
      header.Decode();
      ValueOfBigEndian(header.bodySize, HEADER_LENGTH);
    }

    /** One turn: a header, then the body it announces; a short body ends the replay. */
    method ReadRecord(position: nat, header: Header, buffer: array<byte>)
      returns (body: seq<byte>, next: nat, good: bool, buffer': array<byte>)
      requires header.Valid() && position + HEADER_LENGTH <= |file| && buffer != header.bytes
      modifies header`bodySize, header.bytes, buffer
      ensures buffer' == buffer || fresh(buffer')
      ensures position < next <= |file|
      ensures Replayed(file[position..], old(buffer[..])) ==
              [body] + if good then Replayed(file[next..], buffer'[..]) else []
    {
      ghost var rest, before := file[position..], buffer[..];
      hide Replayed, BufferAfter, Value;
      ReadHeader(position, header);
      DropDrop(file, position, HEADER_LENGTH);
      var size, read := header.bodySize, 0;
      buffer', read := ReadBody(position + HEADER_LENGTH, size, buffer);
      ghost var after := buffer'[..];
      good, next := read == size, position + HEADER_LENGTH + read;
      body := buffer'[..size];
      assert body == after[..size];
      DropDrop(file, position + HEADER_LENGTH, read);
      ReplayTurn(rest, before, size, after, if good then Replayed(file[next..], after) else []);
    }

    method ReplayLog(header: Header) returns (handled: seq<seq<byte>>)
      requires header.Valid()
      modifies header`bodySize, header.bytes
      ensures handled == Replayed(file, Zeros(32))
    {
      handled := [];
      var position := 0;
      var good := true;
      var buffer := new byte[FIRST_BUFFER](i => 0);
      assert buffer[..] == Zeros(FIRST_BUFFER) && file[0..] == file;
      ghost var left := Replayed(file, Zeros(FIRST_BUFFER));
      while good
        invariant header.Valid() && fresh(buffer) && 0 <= position <= |file|
        invariant left == if good then Replayed(file[position..], buffer[..]) else []
        invariant Replayed(file, Zeros(FIRST_BUFFER)) == handled + left
        decreases |file| - position, good
      {
        if position + HEADER_LENGTH > |file| {
          break;
        }
        var body;
        body, position, good, buffer := ReadRecord(position, header, buffer);
        ghost var tail := if good then Replayed(file[position..], buffer[..]) else [];
        ConcatAssociates(handled, [body], tail);
        handled := handled + [body];
        left := tail;
      }
    }
  }

  lemma ReplayOfOneRecord(body: seq<byte>, tail: seq<byte>, buffer: seq<byte>)
    requires Sendable(body)
    ensures Replayed(Frame(body) + tail, buffer) ==
            [body] + Replayed(tail, BufferAfter(body + tail, |body|, buffer))
  {
    var file := Frame(body) + tail;
    assert file[..HEADER_LENGTH] == BigEndian(|body|, HEADER_LENGTH);
    assert file[HEADER_LENGTH..] == body + tail;
    ValueOfBigEndian(|body|, HEADER_LENGTH);
    assert (body + tail)[..|body|] == body && (body + tail)[|body|..] == tail;
    assert BufferAfter(body + tail, |body|, buffer)[..|body|] == body;
  }

  /** Whole records are handed over one by one, whatever the buffer holds. */
  lemma {:induction false} ReplayOfRecords(bodies: seq<seq<byte>>, tail: seq<byte>, buffer: seq<byte>) returns (later: seq<byte>)
    requires forall b :: b in bodies ==> Sendable(b)
    ensures Replayed(FrameAll(bodies) + tail, buffer) == bodies + Replayed(tail, later)
    decreases |bodies|
  {
    if bodies == [] {
      assert FrameAll(bodies) + tail == tail;
      assert bodies + Replayed(tail, buffer) == Replayed(tail, buffer);
      later := buffer;
    } else {
      var rest := FrameAll(bodies[1..]) + tail;
      assert FrameAll(bodies) + tail == Frame(bodies[0]) + rest;
      ReplayOfOneRecord(bodies[0], rest, buffer);
      later := ReplayOfRecords(bodies[1..], tail, BufferAfter(bodies[0] + rest, |bodies[0]|, buffer));
      ConcatAssociates([bodies[0]], bodies[1..], Replayed(tail, later));
      assert [bodies[0]] + bodies[1..] == bodies;
    }
  }

  /** What replay makes of a record cut within its body: the rest is what the buffer held, or zeros. */
  lemma ReplayOfTorn(last: seq<byte>, cut: nat, buffer: seq<byte>)
    requires Sendable(last) && HEADER_LENGTH <= cut < |Frame(last)|
    ensures var torn := Replayed(Frame(last)[..cut], buffer);
            && |torn| == 1 && |torn[0]| == |last| && torn[0][..cut - HEADER_LENGTH] == last[..cut - HEADER_LENGTH]
            && forall i :: cut - HEADER_LENGTH <= i < |last| ==> torn[0][i] == if |last| > |buffer| then 0 else buffer[i]
  {
    var tail := Frame(last)[..cut];
    assert tail[..HEADER_LENGTH] == BigEndian(|last|, HEADER_LENGTH);
    ValueOfBigEndian(|last|, HEADER_LENGTH);
    assert tail[HEADER_LENGTH..] == last[..cut - HEADER_LENGTH];
  }

  /** A log whose last record was cut short replays to exactly its whole records if and only if the cut
      left less than a header; a record cut within its body is handed over torn. */
  lemma ReplayOfCutLog(bodies: seq<seq<byte>>, last: seq<byte>, cut: nat)
    requires (forall b :: b in bodies ==> Sendable(b)) && Sendable(last)
    requires cut < |Frame(last)|
    ensures Replayed(FrameAll(bodies) + Frame(last)[..cut], Zeros(FIRST_BUFFER)) == bodies <==> cut < HEADER_LENGTH
    ensures HEADER_LENGTH <= cut ==>
      var all := Replayed(FrameAll(bodies) + Frame(last)[..cut], Zeros(FIRST_BUFFER));
      && |all| == |bodies| + 1 && all[..|bodies|] == bodies
      && |all[|bodies|]| == |last| && all[|bodies|][..cut - HEADER_LENGTH] == last[..cut - HEADER_LENGTH]
  {
    var tail := Frame(last)[..cut];
    var later := ReplayOfRecords(bodies, tail, Zeros(FIRST_BUFFER));
    if cut < HEADER_LENGTH {
      assert bodies + [] == bodies;
    } else {
      ReplayOfTorn(last, cut, later);
      hide Replayed, FrameAll, Frame;
      var torn := Replayed(tail, later);
      assert (bodies + torn)[..|bodies|] == bodies && (bodies + torn)[|bodies|] == torn[0];
    }
  }

  /** A log that was never cut replays to its records. */
  lemma ReplayOfWholeLog(bodies: seq<seq<byte>>)
    requires forall b :: b in bodies ==> Sendable(b)
    ensures Replayed(FrameAll(bodies), Zeros(FIRST_BUFFER)) == bodies
  {
    var later := ReplayOfRecords(bodies, [], Zeros(FIRST_BUFFER));
    assert FrameAll(bodies) + [] == FrameAll(bodies);
    assert bodies + [] == bodies;
  }
}
