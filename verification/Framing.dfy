/** Length-prefixed frames on the observer socket, split at any chunk boundaries. */

module Framing {
  type Byte = b: int | 0 <= b < 256

  const MAX_BROKER_FRAME_BYTES := 256 * 1024

  /** A big-endian 32-bit length. */
  function Prefix(size: nat): (r: seq<Byte>)
    requires size < 0x1_0000_0000
    ensures |r| == 4
  {
    [Octet(size / 0x100_0000), Octet(size / 0x1_0000), Octet(size / 0x100), Octet(size)]
  }

  function Octet(value: nat): Byte {
    value % 0x100
  }

  function ReadSize(buffer: seq<Byte>): nat
    requires |buffer| >= 4
  {
    var a: int, b: int, c: int, d: int := buffer[0], buffer[1], buffer[2], buffer[3];
    ((a * 0x100 + b) * 0x100 + c) * 0x100 + d
  }

  lemma SizeRoundTrip(size: nat, rest: seq<Byte>)
    requires size < 0x1_0000_0000
    ensures ReadSize(Prefix(size) + rest) == size
  {
    var all := Prefix(size) + rest;
    assert all[0] == Octet(size / 0x100_0000) && all[1] == Octet(size / 0x1_0000) && all[2] == Octet(size / 0x100) && all[3] == Octet(size);
    Octets(size);
  }

  lemma Octets(size: nat)
    requires size < 0x1_0000_0000
    ensures var a: int, b: int, c: int, d: int := Octet(size / 0x100_0000), Octet(size / 0x1_0000), Octet(size / 0x100), Octet(size);
            ((a * 0x100 + b) * 0x100 + c) * 0x100 + d == size
  {
    assert size == size / 0x100 * 0x100 + size % 0x100;
    assert size / 0x100 == size / 0x1_0000 * 0x100 + size / 0x100 % 0x100;
    assert size / 0x1_0000 == size / 0x100_0000 * 0x100 + size / 0x1_0000 % 0x100;
  }

  predicate Sendable(payload: seq<Byte>) {
    0 < |payload| <= MAX_BROKER_FRAME_BYTES
  }

  function Frame(payload: seq<Byte>): seq<Byte>
    requires Sendable(payload)
  {
    Prefix(|payload|) + payload
  }

  function Frames(payloads: seq<seq<Byte>>): seq<Byte>
    requires forall p :: p in payloads ==> Sendable(p)
  {
    if payloads == [] then [] else Frame(payloads[0]) + Frames(payloads[1..])
  }

  // ----- reading -----

  datatype Outcome = Outcome(values: seq<seq<Byte>>, buffer: seq<Byte>, valid: bool)

  predicate BadSize(buffer: seq<Byte>)
    requires |buffer| >= 4
  {
    ReadSize(buffer) == 0 || ReadSize(buffer) > MAX_BROKER_FRAME_BYTES
  }

  predicate Incomplete(buffer: seq<Byte>) {
    |buffer| < 4 || (!BadSize(buffer) && |buffer| < ReadSize(buffer) + 4)
  }

  /** Everything a buffer holds: the payloads in order, then what is left over,
      which is incomplete or starts with a size that is refused. */
  function Parse(buffer: seq<Byte>): Outcome
    decreases |buffer|
  {
    if Incomplete(buffer) then Outcome([], buffer, true)
    else if BadSize(buffer) then Outcome([], buffer, false)
    else
      var size := ReadSize(buffer);
      After([buffer[4..size + 4]], Parse(buffer[size + 4..]))
  }

  function After(values: seq<seq<Byte>>, outcome: Outcome): Outcome {
    Outcome(values + outcome.values, outcome.buffer, outcome.valid)
  }

  class Stream {
    var buffer: seq<Byte>

    constructor ()
      ensures buffer == []
    {
      buffer := [];
    }

    /** Hands on every complete payload; an invalid size ends the stream after
        the payloads before it. The size check that follows the loop is kept,
        and cannot fail. */
    method ConsumeObserverFrames(chunk: seq<Byte>) returns (values: seq<seq<Byte>>, valid: bool)
      modifies this
      ensures values == Parse(old(buffer) + chunk).values
      ensures buffer == Parse(old(buffer) + chunk).buffer
      ensures valid == Parse(old(buffer) + chunk).valid
    {
      buffer := buffer + chunk;
      values := [];
      ghost var whole := Parse(buffer);
      while |buffer| >= 4
        invariant values + Parse(buffer).values == whole.values
        invariant Parse(buffer).buffer == whole.buffer && Parse(buffer).valid == whole.valid
        decreases |buffer|
      {
        var size := ReadSize(buffer);
        if size == 0 || size > MAX_BROKER_FRAME_BYTES { return values, false; }
        if |buffer| < size + 4 { break; }
        var payload := buffer[4..size + 4];
        values := values + [payload];
        buffer := buffer[size + 4..];
      }
      assert Incomplete(buffer);
      valid := |buffer| <= MAX_BROKER_FRAME_BYTES + 4;
    }
  }

  // ----- chunks do not matter -----

  lemma ParseLeavesIncomplete(buffer: seq<Byte>)
    ensures Parse(buffer).valid ==> Incomplete(Parse(buffer).buffer) && |Parse(buffer).buffer| < MAX_BROKER_FRAME_BYTES + 4
    decreases |buffer|
  {
    if !Incomplete(buffer) && !BadSize(buffer) { ParseLeavesIncomplete(buffer[ReadSize(buffer) + 4..]); }
  }

  lemma ParseStep(payload: seq<Byte>, rest: seq<Byte>)
    requires Sendable(payload)
    ensures Parse(Frame(payload) + rest) == After([payload], Parse(rest))
  {
    var all := Frame(payload) + rest;
    SizeRoundTrip(|payload|, payload + rest);
    assert all == Prefix(|payload|) + (payload + rest);
    assert all[4..|payload| + 4] == payload;
    assert all[|payload| + 4..] == rest;
  }

  /** A complete, valid buffer starts with the frame of its first payload. */
  lemma FirstFrame(buffer: seq<Byte>)
    requires !Incomplete(buffer) && !BadSize(buffer)
    ensures var size := ReadSize(buffer);
            Sendable(buffer[4..size + 4]) && buffer == Frame(buffer[4..size + 4]) + buffer[size + 4..]
  {
    var size := ReadSize(buffer);
    assert buffer[4..size + 4] + buffer[size + 4..] == buffer[4..];
    SizePrefix(buffer);
    assert buffer == buffer[..4] + buffer[4..];
  }

  lemma SizePrefix(buffer: seq<Byte>)
    requires |buffer| >= 4
    ensures ReadSize(buffer) < 0x1_0000_0000 && Prefix(ReadSize(buffer)) == buffer[..4]
  {
    var size := ReadSize(buffer);
    var a: int, b: int, c: int := buffer[0], buffer[1], buffer[2];
    assert size / 0x100 == (a * 0x100 + b) * 0x100 + c;
    assert size / 0x1_0000 == a * 0x100 + b;
    assert size / 0x100_0000 == a;
  }

  /** Parsing more bytes continues from what parsing the first ones left. */
  lemma {:induction false} ParseMore(buffer: seq<Byte>, more: seq<Byte>)
    ensures var first := Parse(buffer);
            if first.valid
            then Parse(buffer + more) == After(first.values, Parse(first.buffer + more))
            else Parse(buffer + more).values == first.values && !Parse(buffer + more).valid
    decreases |buffer|
  {
    if Incomplete(buffer) {
      assert After([], Parse(buffer + more)) == Parse(buffer + more);
    } else if BadSize(buffer) {
      assert ReadSize(buffer + more) == ReadSize(buffer);
    } else {
      var size := ReadSize(buffer);
      var payload, rest := buffer[4..size + 4], buffer[size + 4..];
      ParseMore(rest, more);
      MoreFrame(buffer, payload, rest, more);
      AfterTwice([payload], Parse(rest).values, Parse(Parse(rest).buffer + more));
    }
  }

  /** A first frame comes out the same whatever follows. */
  lemma MoreFrame(buffer: seq<Byte>, payload: seq<Byte>, rest: seq<Byte>, more: seq<Byte>)
    requires !Incomplete(buffer) && !BadSize(buffer)
    requires payload == buffer[4..ReadSize(buffer) + 4] && rest == buffer[ReadSize(buffer) + 4..]
    ensures Parse(buffer) == After([payload], Parse(rest))
    ensures Parse(buffer + more) == After([payload], Parse(rest + more))
  {
    FirstFrame(buffer);
    ParseStep(payload, rest);
    ParseStep(payload, rest + more);
    Regroup(Frame(payload), rest, more);
  }

  lemma Regroup(a: seq<Byte>, b: seq<Byte>, c: seq<Byte>)
    ensures (a + b) + c == a + (b + c)
  {
  }

  lemma AfterTwice(a: seq<seq<Byte>>, b: seq<seq<Byte>>, outcome: Outcome)
    ensures After(a, After(b, outcome)) == After(a + b, outcome)
  {
    assert a + (b + outcome.values) == a + b + outcome.values;
  }

  function Joined(chunks: seq<seq<Byte>>): seq<Byte> {
    if chunks == [] then [] else Joined(chunks[..|chunks| - 1]) + chunks[|chunks| - 1]
  }

  /** Chunk after chunk; nothing is read after an invalid size. */
  function Fed(chunks: seq<seq<Byte>>): Outcome {
    if chunks == [] then Outcome([], [], true)
    else
      var before := Fed(chunks[..|chunks| - 1]);
      if !before.valid then before
      else
        var step := Parse(before.buffer + chunks[|chunks| - 1]);
        step.(values := before.values + step.values)
  }

  /** However the bytes are cut into chunks, the same payloads come out in the
      same order, with the same bytes left over or the same refusal. */
  lemma {:induction false} ChunksDoNotMatter(chunks: seq<seq<Byte>>)
    ensures var whole := Parse(Joined(chunks));
            && Fed(chunks).values == whole.values
            && Fed(chunks).valid == whole.valid
            && (whole.valid ==> Fed(chunks).buffer == whole.buffer)
    decreases |chunks|
  {
    if chunks != [] {
      var shorter := chunks[..|chunks| - 1];
      ChunksDoNotMatter(shorter);
      ParseMore(Joined(shorter), chunks[|chunks| - 1]);
    }
  }

  // ----- what was framed comes out -----

  /** A proper prefix of a frame. */
  ghost predicate Partial(buffer: seq<Byte>, payload: seq<Byte>) {
    Sendable(payload) && |buffer| < |Frame(payload)| && buffer == Frame(payload)[..|buffer|]
  }

  lemma PartialIncomplete(buffer: seq<Byte>, payload: seq<Byte>)
    requires Partial(buffer, payload)
    ensures Incomplete(buffer)
  {
    if |buffer| >= 4 {
      assert buffer[..4] == Prefix(|payload|);
      SizeRoundTrip(|payload|, buffer[4..]);
      assert buffer == Prefix(|payload|) + buffer[4..];
    }
  }

  lemma {:induction false} ParseFrames(payloads: seq<seq<Byte>>, tail: seq<Byte>)
    requires forall p :: p in payloads ==> Sendable(p)
    ensures Parse(Frames(payloads) + tail) == After(payloads, Parse(tail))
    decreases |payloads|
  {
    if payloads == [] {
      assert Frames(payloads) + tail == tail;
      assert After([], Parse(tail)) == Parse(tail);
    } else {
      var p, rest := payloads[0], payloads[1..];
      assert forall q :: q in rest ==> q in payloads;
      ParseFrames(rest, tail);
      ParseStep(p, Frames(rest) + tail);
      Regroup(Frame(p), Frames(rest), tail);
      AfterTwice([p], rest, Parse(tail));
      assert [p] + rest == payloads;
    }
  }

  /** The big-endian value of the first four bytes. */
  ghost predicate Announces(buffer: seq<Byte>, size: nat) {
    && |buffer| >= 4
    && var a: int, b: int, c: int, d: int := buffer[0], buffer[1], buffer[2], buffer[3];
       size == 16777216 * a + 65536 * b + 256 * c + d
  }

  /** A frame is the length of its payload, big-endian in four bytes, and the
      payload. */
  lemma FrameIs(payload: seq<Byte>)
    requires Sendable(payload)
    ensures |Frame(payload)| == |payload| + 4 && Announces(Frame(payload), |payload|) && Frame(payload)[4..] == payload
  {
    SizeRoundTrip(|payload|, payload);
  }

  /** Every stream is the frames of the payloads that come out of it and what is left
      over: an incomplete frame, or where it is refused bytes that announce no
      payload or one of more than 256 KiB. */
  lemma {:induction false} ParseSplits(buffer: seq<Byte>)
    ensures var parsed := Parse(buffer);
            && (forall p :: p in parsed.values ==> Sendable(p))
            && buffer == Frames(parsed.values) + parsed.buffer
            && if parsed.valid
               then |parsed.buffer| < 4 || exists size: nat :: Announces(parsed.buffer, size) && 0 < size <= 262144 && |parsed.buffer| < size + 4
               else exists size: nat :: Announces(parsed.buffer, size) && (size == 0 || size > 262144)
    decreases |buffer|
  {
    if |buffer| >= 4 { assert Announces(buffer, ReadSize(buffer)); }
    if !Incomplete(buffer) && !BadSize(buffer) {
      var size := ReadSize(buffer);
      var payload, rest := buffer[4..size + 4], buffer[size + 4..];
      var parsed := Parse(rest);
      FirstFrame(buffer);
      ParseSplits(rest);
      assert Parse(buffer) == After([payload], parsed);
      FramesFirst(payload, parsed.values);
      Regroup(Frame(payload), Frames(parsed.values), parsed.buffer);
    } else {
      assert Frames([]) + buffer == buffer;
    }
  }

  lemma FramesFirst(payload: seq<Byte>, payloads: seq<seq<Byte>>)
    requires Sendable(payload) && forall p :: p in payloads ==> Sendable(p)
    ensures Frames([payload] + payloads) == Frame(payload) + Frames(payloads)
  {
    assert ([payload] + payloads)[1..] == payloads;
  }

  /** A size that is not allowed ends the stream after the payloads before it. */
  lemma BadSizeRefused(payloads: seq<seq<Byte>>, rest: seq<Byte>, size: nat, chunks: seq<seq<Byte>>)
    requires forall p :: p in payloads ==> Sendable(p)
    requires Announces(rest, size) && (size == 0 || size > 262144) && Joined(chunks) == Frames(payloads) + rest
    ensures Fed(chunks).values == payloads && !Fed(chunks).valid
  {
    ChunksDoNotMatter(chunks);
    ParseFrames(payloads, rest);
    assert ReadSize(rest) == size;
    assert payloads + [] == payloads;
  }

  /** Any sendable payloads, framed, sent and received in any chunks, with a part
      of one more frame behind them: exactly those payloads come out, in order,
      and exactly that part is kept. */
  lemma FramesArrive(payloads: seq<seq<Byte>>, part: seq<Byte>, next: seq<Byte>, chunks: seq<seq<Byte>>)
    requires forall p :: p in payloads ==> Sendable(p)
    requires Partial(part, next) && Joined(chunks) == Frames(payloads) + part
    ensures Fed(chunks) == Outcome(payloads, part, true)
  {
    ChunksDoNotMatter(chunks);
    ParseFrames(payloads, part);
    PartialIncomplete(part, next);
    assert payloads + [] == payloads;
  }

  /** Every stretch of a framed stream is whole frames and a part of the next. */
  lemma {:induction false} PrefixOfFrames(payloads: seq<seq<Byte>>, n: nat) returns (k: nat, part: seq<Byte>)
    requires forall p :: p in payloads ==> Sendable(p)
    requires n < |Frames(payloads)|
    ensures k < |payloads| && Partial(part, payloads[k])
    ensures Frames(payloads)[..n] == Frames(payloads[..k]) + part
    decreases |payloads|
  {
    var p := payloads[0];
    var frame := Frame(p);
    assert forall q :: q in payloads[1..] ==> q in payloads;
    if n < |frame| {
      k, part := 0, frame[..n];
      assert payloads[..0] == [];
      assert Frames(payloads)[..n] == frame[..n];
      assert [] + part == part;
    } else {
      var rest;
      rest, part := PrefixOfFrames(payloads[1..], n - |frame|);
      k := rest + 1;
      assert payloads[..k] == [p] + payloads[1..][..rest];
      assert payloads[..k][1..] == payloads[1..][..rest];
      assert Frames(payloads)[..n] == frame + Frames(payloads[1..])[..n - |frame|];
      assert frame + (Frames(payloads[1..][..rest]) + part) == (frame + Frames(payloads[1..][..rest])) + part;
    }
  }

  /** At any moment of receiving a framed stream in any chunks, the payloads that
      came out are the ones whose frames have fully arrived, in order, and the
      buffer is the part of the next frame that has. */
  lemma StreamSoFar(payloads: seq<seq<Byte>>, n: nat, chunks: seq<seq<Byte>>) returns (k: nat)
    requires forall p :: p in payloads ==> Sendable(p)
    requires n <= |Frames(payloads)| && Joined(chunks) == Frames(payloads)[..n]
    ensures k <= |payloads| && Fed(chunks).valid && Fed(chunks).values == payloads[..k]
    ensures if k == |payloads| then Fed(chunks).buffer == [] else Partial(Fed(chunks).buffer, payloads[k])
  {
    if n == |Frames(payloads)| {
      k := |payloads|;
      assert payloads[..k] == payloads && Frames(payloads)[..n] == Frames(payloads) + [];
      assert Partial([], [0]);
      FramesArrive(payloads, [], [0], chunks);
    } else {
      var part;
      k, part := PrefixOfFrames(payloads, n);
      assert forall p :: p in payloads[..k] ==> p in payloads;
      FramesArrive(payloads[..k], part, payloads[k], chunks);
    }
  }
}
