/** Text as Unicode scalar values, its UTF-8 form, and cutting the form on a
    character boundary (RFC 3629, section 3). */

module Utf8 {
  type Scalar = n: int | 0 <= n <= 0x10FFFF && !(0xD800 <= n <= 0xDFFF)
  type Text = seq<Scalar>
  type Byte = b: int | 0 <= b < 256

  function Width(s: Scalar): nat {
    if s < 0x80 then 1 else if s < 0x800 then 2 else if s < 0x1_0000 then 3 else 4
  }

  function Tail(n: int): Byte {
    0x80 + n % 0x40
  }

  function Encoded(s: Scalar): (bytes: seq<Byte>)
    ensures |bytes| == Width(s)
  {
    var n: int := s;
    if n < 0x80 then [n]
    else if n < 0x800 then [0xC0 + n / 0x40, Tail(n)]
    else if n < 0x1_0000 then [0xE0 + n / 0x1000, Tail(n / 0x40), Tail(n)]
    else [0xF0 + n / 0x4_0000, Tail(n / 0x1000), Tail(n / 0x40), Tail(n)]
  }

  /** The scalar values that fit into `bytes` bytes. */
  function Capacity(bytes: nat): int {
    match bytes case 0 => 0 case 1 => 0x80 case 2 => 0x800 case 3 => 0x1_0000 case _ => 0x11_0000
  }

  /** Every character takes the fewest bytes that it fits into. */
  lemma ShortestForm(s: Scalar)
    ensures 1 <= |Encoded(s)| <= 4 && s < Capacity(|Encoded(s)|)
    ensures forall k :: 0 <= k < |Encoded(s)| ==> Capacity(k) <= s
  {
  }

  predicate Continuation(b: Byte) {
    0x80 <= b < 0xC0
  }

  /** Only the first byte of a character is not a continuation byte. */
  lemma Boundaries(s: Scalar)
    ensures !Continuation(Encoded(s)[0])
    ensures forall i :: 1 <= i < Width(s) ==> Continuation(Encoded(s)[i])
  {
  }

  function Encode(text: Text): seq<Byte> {
    if text == [] then [] else Encoded(text[0]) + Encode(text[1..])
  }

  function Bytes(text: Text): nat {
    if text == [] then 0 else Width(text[0]) + Bytes(text[1..])
  }

  lemma {:induction false} EncodeSize(text: Text)
    ensures |Encode(text)| == Bytes(text)
  {
    if text != [] { EncodeSize(text[1..]); }
  }

  lemma {:induction false} BytesAppend(a: Text, b: Text)
    ensures Bytes(a + b) == Bytes(a) + Bytes(b)
  {
    if a == [] {
      assert a + b == b;
    } else {
      assert (a + b)[1..] == a[1..] + b;
      BytesAppend(a[1..], b);
    }
  }

  // ----- decoding -----

  function LeadWidth(b: Byte): nat {
    if b < 0x80 then 1 else if b < 0xE0 then 2 else if b < 0xF0 then 3 else 4
  }

  function Low(b: Byte): int {
    b - 0x80
  }

  function DecodedOne(bytes: seq<Byte>): int
    requires bytes != [] && |bytes| >= LeadWidth(bytes[0])
  {
    var b: int := bytes[0];
    match LeadWidth(bytes[0])
    case 1 => b
    case 2 => (b - 0xC0) * 0x40 + Low(bytes[1])
    case 3 => (b - 0xE0) * 0x1000 + Low(bytes[1]) * 0x40 + Low(bytes[2])
    case _ => (b - 0xF0) * 0x4_0000 + Low(bytes[1]) * 0x1000 + Low(bytes[2]) * 0x40 + Low(bytes[3])
  }

  lemma DecodesOne(s: Scalar, rest: seq<Byte>)
    ensures var all := Encoded(s) + rest;
            LeadWidth(all[0]) == Width(s) && DecodedOne(all) == s
  {
    var n: int := s;
    var all := Encoded(s) + rest;
    assert all[0] == Encoded(s)[0];
    if n < 0x80 {
    } else if n < 0x800 {
      assert all[1] == Encoded(s)[1];
    } else if n < 0x1_0000 {
      assert all[1] == Encoded(s)[1] && all[2] == Encoded(s)[2];
      assert n / 0x1000 == n / 0x40 / 0x40;
    } else {
      assert all[1] == Encoded(s)[1] && all[2] == Encoded(s)[2] && all[3] == Encoded(s)[3];
      assert n / 0x1000 == n / 0x40 / 0x40 && n / 0x4_0000 == n / 0x1000 / 0x40;
    }
  }

  /** Decodes bytes that are the encoding of some text. */
  method Decode(bytes: seq<Byte>, ghost text: Text) returns (decoded: Text)
    requires bytes == Encode(text)
    ensures decoded == text
  {
    decoded := [];
    var i := 0;
    ghost var k := 0;
    while i < |bytes|
      invariant 0 <= k <= |text| && 0 <= i <= |bytes|
      invariant bytes[i..] == Encode(text[k..]) && decoded == text[..k]
      decreases |bytes| - i
    {
      DecodesOne(text[k], Encode(text[k..][1..]));
      assert bytes[i] == bytes[i..][0];
      var n := DecodedOne(bytes[i..]);
      decoded := decoded + [n];
      assert bytes[i + LeadWidth(bytes[i])..] == bytes[i..][LeadWidth(bytes[i])..];
      assert text[k..][1..] == text[k + 1..];
      i := i + LeadWidth(bytes[i]);
      k := k + 1;
    }
    assert text[..k] == text;
  }

  // ----- cutting -----

  /** Where the byte form is cut: the longest tail of whole characters that fits. */
  function CutAt(text: Text, maxBytes: nat): (k: nat)
    ensures k <= |text|
  {
    if Bytes(text) <= maxBytes then 0 else 1 + CutAt(text[1..], maxBytes)
  }

  lemma {:induction false} CutFits(text: Text, maxBytes: nat)
    ensures var k := CutAt(text, maxBytes);
            && Bytes(text[k..]) <= maxBytes
            && (k > 0 ==> Bytes(text[k - 1..]) > maxBytes)
  {
    if Bytes(text) <= maxBytes {
      assert text[0..] == text;
    } else {
      var k := CutAt(text[1..], maxBytes);
      CutFits(text[1..], maxBytes);
      assert text[k + 1..] == text[1..][k..];
      if k > 0 { assert text[k..] == text[1..][k - 1..]; } else { assert text[0..] == text; }
    }
  }

  /** Starts at the last `maxBytes` bytes and skips forward to the next byte that
      begins a character: what is left is text, the longest tail that fits. */
  method Utf8Tail(text: Text, maxBytes: nat) returns (tail: Text)
    ensures tail == text[CutAt(text, maxBytes)..]
    ensures Bytes(tail) <= maxBytes
  {
    var source := Encode(text);
    EncodeSize(text);
    CutFits(text, maxBytes);
    if |source| <= maxBytes { return text; }
    ghost var k := CutAt(text, maxBytes);
    ghost var boundary := |source| - Bytes(text[k..]);
    CutBoundary(text, maxBytes);
    var start := |source| - maxBytes;
    while start < |source| && Continuation(source[start])
      invariant |source| - maxBytes <= start <= boundary
    {
      start := start + 1;
    }
    EncodeJoin(text[..k], text[k..]);
    assert text == text[..k] + text[k..];
    EncodeSize(text[..k]);
    EncodeSize(text[k..]);
    assert source[start..] == Encode(text[k..]);
    tail := Decode(source[start..], text[k..]);
  }

  /** Between the earliest start that fits and the boundary there are only
      continuation bytes, and none at the boundary. */
  lemma CutBoundary(text: Text, maxBytes: nat)
    requires Bytes(text) > maxBytes
    ensures var source := Encode(text);
            var boundary := |source| - Bytes(text[CutAt(text, maxBytes)..]);
            && |source| == Bytes(text) && |source| - maxBytes <= boundary <= |source|
            && (forall i :: |source| - maxBytes <= i < boundary ==> Continuation(source[i]))
            && (boundary < |source| ==> !Continuation(source[boundary]))
  {
    var k := CutAt(text, maxBytes);
    CutFits(text, maxBytes);
    var front, last, rest := text[..k - 1], text[k - 1], text[k..];
    assert text == front + ([last] + rest);
    assert text[k - 1..] == [last] + rest;
    EncodeJoin(front, [last] + rest);
    EncodeSize(text);
    EncodeSize(rest);
    EncodeSize(front);
    BytesAppend(front, [last] + rest);
    assert ([last] + rest)[1..] == rest;
    Boundaries(last);
    BoundaryBytes(Encode(front), Encoded(last), Encode(rest), maxBytes);
    if rest != [] { RestStarts(rest); }
  }

  lemma RestStarts(rest: Text)
    requires rest != []
    ensures Encode(rest) != [] && !Continuation(Encode(rest)[0])
  {
    Boundaries(rest[0]);
  }

  /** A cut inside a character meets only its continuation bytes. */
  lemma BoundaryBytes(front: seq<Byte>, last: seq<Byte>, rest: seq<Byte>, maxBytes: nat)
    requires |rest| <= maxBytes < |last| + |rest|
    requires forall i :: 1 <= i < |last| ==> Continuation(last[i])
    ensures var source := front + (last + rest);
            var boundary := |source| - |rest|;
            && (forall i :: |source| - maxBytes <= i < boundary ==> Continuation(source[i]))
            && (boundary < |source| ==> source[boundary] == rest[0])
  {
    var source := front + (last + rest);
    forall i | |source| - maxBytes <= i < |source| - |rest| ensures Continuation(source[i]) {
      assert source[i] == last[i - |front|];
    }
  }

  lemma {:induction false} EncodeJoin(a: Text, b: Text)
    ensures Encode(a + b) == Encode(a) + Encode(b)
  {
    if a == [] {
      assert a + b == b;
    } else {
      assert (a + b)[1..] == a[1..] + b;
      EncodeJoin(a[1..], b);
    }
  }
}
