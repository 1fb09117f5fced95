/** The frame format both languages share, and `DecodeFromBytes`, the function that says what a
    byte string starts with.  `Frames` iterates it; the stream decoders are proved against it. */
module WireFormat {
  type Byte = x: int | 0 <= x < 256
  type Bytes = seq<Byte>
  type Int32 = x: int | -0x8000_0000 <= x < 0x8000_0000
  type Int16 = x: int | -0x8000 <= x < 0x8000

  const MAGIC: Int32 := 0x4F565753
  const VERSION: Byte := 1
  const HEADER_LENGTH := 12
  const MAX_BODY: Int32 := 10 * 1024 * 1024

  const TYPE_DATA: Byte := 3
  const TYPE_CLOSE_CONNECTION: Byte := 7

  /** `body` is empty where the original holds no body at all: both write and read the same. */
  datatype Header = Header(magic: Int32, version: Byte, kind: Byte, length: Int32, reserved: Int16)
  datatype Message = Message(header: Header, body: Bytes)

  // ---------- fields, big-endian, negative numbers in two's complement ----------

  function PutInt32(v: Int32): Bytes {
    var u := if v < 0 then v + 0x1_0000_0000 else v;
    [u / 0x100 / 0x100 / 0x100, u / 0x100 / 0x100 % 0x100, u / 0x100 % 0x100, u % 0x100]
  }

  function PutInt16(v: Int16): Bytes {
    var u := if v < 0 then v + 0x1_0000 else v;
    [u / 0x100, u % 0x100]
  }

  function GetInt32(b: Bytes): Int32
    requires |b| >= 4
  {
    var u := ((b[0] as int * 0x100 + b[1] as int) * 0x100 + b[2] as int) * 0x100 + b[3] as int;
    if u >= 0x8000_0000 then u - 0x1_0000_0000 else u
  }

  function GetInt16(b: Bytes): Int16
    requires |b| >= 2
  {
    var u := b[0] as int * 0x100 + b[1] as int;
    if u >= 0x8000 then u - 0x1_0000 else u
  }

  lemma Int32RoundTrips(v: Int32, b: Bytes)
    requires |b| == 4
    ensures |PutInt32(v)| == 4 && GetInt32(PutInt32(v)) == v
    ensures PutInt32(GetInt32(b)) == b
  {
    var u := ((b[0] as int * 0x100 + b[1] as int) * 0x100 + b[2] as int) * 0x100 + b[3] as int;
    assert u / 0x100 == (b[0] as int * 0x100 + b[1] as int) * 0x100 + b[2] as int;
    assert u / 0x100 / 0x100 == b[0] as int * 0x100 + b[1] as int;
  }

  lemma Int16RoundTrips(v: Int16, b: Bytes)
    requires |b| == 2
    ensures |PutInt16(v)| == 2 && GetInt16(PutInt16(v)) == v
    ensures PutInt16(GetInt16(b)) == b
  {
  }

  // ---------- headers and frames ----------

  function HeaderBytes(h: Header): (b: Bytes)
    ensures |b| == HEADER_LENGTH
  {
    PutInt32(h.magic) + [h.version, h.kind] + PutInt32(h.length) + PutInt16(h.reserved)
  }

  function ParseHeader(b: Bytes): Header
    requires |b| >= HEADER_LENGTH
  {
    Header(GetInt32(b[0..4]), b[4], b[5], GetInt32(b[6..10]), GetInt16(b[10..12]))
  }

  /** The number that bytes, the most significant first, stand for. */
  function BigEndian(b: Bytes): nat {
    if b == [] then 0 else BigEndian(b[..|b| - 1]) * 0x100 + b[|b| - 1] as int
  }

  lemma BigEndianOfTwo(b: Bytes)
    requires |b| == 2
    ensures BigEndian(b) == b[0] as int * 0x100 + b[1] as int
  {
    var first := b[..1];
    assert |first| == 1 && first[0] == b[0] && BigEndian(first[..0]) == 0;
    assert BigEndian(first) == b[0] as int;
  }

  lemma BigEndianOfFour(b: Bytes)
    requires |b| == 4
    ensures BigEndian(b) == ((b[0] as int * 0x100 + b[1] as int) * 0x100 + b[2] as int) * 0x100 + b[3] as int
  {
    assert b[..3][..2] == b[..2];
    BigEndianOfTwo(b[..2]);
  }

  /** The layout on the wire: magic number, version, type, length and reserved field in this order, in
      big-endian two's complement. */
  lemma HeaderLayout(h: Header)
    ensures var b := HeaderBytes(h);
      && BigEndian(b[0..4]) == h.magic % 0x1_0000_0000 && b[4] == h.version && b[5] == h.kind
      && BigEndian(b[6..10]) == h.length % 0x1_0000_0000 && BigEndian(b[10..12]) == h.reserved % 0x1_0000
  {
    var b := HeaderBytes(h);
    assert b[0..4] == PutInt32(h.magic) && b[6..10] == PutInt32(h.length) && b[10..12] == PutInt16(h.reserved);
    Int32Layout(h.magic);
    Int32Layout(h.length);
    BigEndianOfTwo(PutInt16(h.reserved));
  }

  lemma Int32Layout(v: Int32)
    ensures |PutInt32(v)| == 4 && BigEndian(PutInt32(v)) == v % 0x1_0000_0000
  {
    var u := if v < 0 then v + 0x1_0000_0000 else v;
    assert u == (u / 0x100) * 0x100 + u % 0x100;
    assert u / 0x100 == (u / 0x100 / 0x100) * 0x100 + u / 0x100 % 0x100;
    assert u / 0x100 / 0x100 == (u / 0x100 / 0x100 / 0x100) * 0x100 + u / 0x100 / 0x100 % 0x100;
    BigEndianOfFour(PutInt32(v));
  }

  lemma HeaderRoundTrips(h: Header, b: Bytes)
    requires |b| >= HEADER_LENGTH
    ensures ParseHeader(HeaderBytes(h)) == h
    ensures HeaderBytes(ParseHeader(b)) == b[..HEADER_LENGTH]
  {
    var e := HeaderBytes(h);
    assert e[0..4] == PutInt32(h.magic) && e[6..10] == PutInt32(h.length) && e[10..12] == PutInt16(h.reserved);
    Int32RoundTrips(h.magic, b[0..4]);
    Int32RoundTrips(h.length, b[6..10]);
    Int16RoundTrips(h.reserved, b[10..12]);
    assert b[..HEADER_LENGTH] == b[0..4] + [b[4], b[5]] + b[6..10] + b[10..12];
  }

  /** What both decoders insist on. */
  predicate Acceptable(h: Header) { h.magic == MAGIC && 0 <= h.length <= MAX_BODY }

  predicate WellFormed(m: Message) { Acceptable(m.header) && m.header.length == |m.body| }

  /** Header and body as they are: what a stream encoder puts on the wire. */
  function Encoding(m: Message): Bytes { HeaderBytes(m.header) + m.body }

  // ---------- decoding one frame ----------

  datatype Decoded = Frame(message: Message, consumed: nat) | ShortHeader | BadMagic | BadLength | ShortBody

  function DecodeFromBytes(data: Bytes): (d: Decoded)
    ensures d.Frame? ==> HEADER_LENGTH <= d.consumed <= |data| && WellFormed(d.message)
  {
    if |data| < HEADER_LENGTH then ShortHeader
    else
      var header := ParseHeader(data);
      if header.magic != MAGIC then BadMagic
      else if header.length < 0 || header.length > MAX_BODY then BadLength
      else if |data| < HEADER_LENGTH + header.length then ShortBody
      else Frame(Message(header, data[HEADER_LENGTH..HEADER_LENGTH + header.length]), HEADER_LENGTH + header.length)
  }

  lemma ParseIgnoresTail(data: Bytes, tail: Bytes)
    requires |data| >= HEADER_LENGTH
    ensures ParseHeader(data + tail) == ParseHeader(data)
  {
    assert (data + tail)[0..4] == data[0..4] && (data + tail)[6..10] == data[6..10]
      && (data + tail)[10..12] == data[10..12];
  }

  /** More bytes never change a verdict that was reached: only an incomplete frame can go on. */
  lemma VerdictIsStable(data: Bytes, tail: Bytes)
    ensures var d := DecodeFromBytes(data);
      d.Frame? || d.BadMagic? || d.BadLength? ==> DecodeFromBytes(data + tail) == d
  {
    if |data| >= HEADER_LENGTH {
      ParseIgnoresTail(data, tail);
      var n := HEADER_LENGTH + ParseHeader(data).length;
      if HEADER_LENGTH <= n <= |data| { assert (data + tail)[HEADER_LENGTH..n] == data[HEADER_LENGTH..n]; }
    }
  }

  /** Decoding undoes encoding exactly when the header tells the truth about the body. */
  lemma DecodesIff(m: Message)
    requires Acceptable(m.header)
    ensures DecodeFromBytes(Encoding(m)) == Frame(m, |Encoding(m)|) <==> m.header.length == |m.body|
  {
    var e := Encoding(m);
    HeaderRoundTrips(m.header, HeaderBytes(m.header));
    ParseIgnoresTail(HeaderBytes(m.header), m.body);
    assert e[HEADER_LENGTH..] == m.body;
    if m.header.length == |m.body| { assert e[HEADER_LENGTH..HEADER_LENGTH + m.header.length] == m.body; }
  }

  /** With a header that promises less than the body has, the frame is cut off there. */
  lemma DecodesUpToLength(m: Message)
    requires m.header.magic == MAGIC && m.header.length <= |m.body|
    ensures DecodeFromBytes(Encoding(m)) ==
              if Acceptable(m.header)
              then Frame(Message(m.header, m.body[..m.header.length]), HEADER_LENGTH + m.header.length)
              else BadLength
  {
    HeaderRoundTrips(m.header, HeaderBytes(m.header));
    ParseIgnoresTail(HeaderBytes(m.header), m.body);
    var e := Encoding(m);
    if Acceptable(m.header) {
      assert e[HEADER_LENGTH..] == m.body;
      assert e[HEADER_LENGTH..HEADER_LENGTH + m.header.length] == m.body[..m.header.length];
    }
  }

  /** A decoded frame, encoded again, is the bytes it was decoded from. */
  lemma ReencodingRestoresBytes(data: Bytes)
    requires DecodeFromBytes(data).Frame?
    ensures var d := DecodeFromBytes(data); Encoding(d.message) == data[..d.consumed]
  {
    HeaderRoundTrips(ParseHeader(data), data);
  }

  /** Bytes start with a frame if and only if they start with the encoding of a well-formed message. */
  lemma FrameIff(data: Bytes)
    ensures DecodeFromBytes(data).Frame? <==> exists m :: WellFormed(m) && Encoding(m) <= data
  {
    if DecodeFromBytes(data).Frame? {
      ReencodingRestoresBytes(data);
      assert Encoding(DecodeFromBytes(data).message) <= data;
    }
    forall m | WellFormed(m) && Encoding(m) <= data
      ensures DecodeFromBytes(data).Frame?
    {
      DecodesIff(m);
      VerdictIsStable(Encoding(m), data[|Encoding(m)|..]);
      assert Encoding(m) + data[|Encoding(m)|..] == data;
    }
  }

  /** A header is refused if and only if no further bytes could ever make a frame of it. */
  lemma RefusedIff(data: Bytes)
    requires |data| >= HEADER_LENGTH
    ensures var d := DecodeFromBytes(data);
      d.BadMagic? || d.BadLength? <==> forall tail :: !DecodeFromBytes(data + tail).Frame?
  {
    var d := DecodeFromBytes(data);
    if d.BadMagic? || d.BadLength? {
      forall tail
        ensures !DecodeFromBytes(data + tail).Frame?
      {
        VerdictIsStable(data, tail);
      }
    } else {
      var tail: Bytes := seq(MAX_BODY, _ => 0);
      ParseIgnoresTail(data, tail);
      assert DecodeFromBytes(data + tail).Frame?;
    }
  }

  /** The magic number is checked first. */
  lemma BadMagicIff(data: Bytes)
    requires |data| >= HEADER_LENGTH
    ensures DecodeFromBytes(data).BadMagic? <==> BigEndian(data[0..4]) != MAGIC
    ensures DecodeFromBytes(data).BadLength? <==>
              BigEndian(data[0..4]) == MAGIC && BigEndian(data[6..10]) > MAX_BODY
  {
    BigEndianOfFour(data[0..4]);
    BigEndianOfFour(data[6..10]);
  }

  // ---------- decoding a stream ----------

  /** `bad`: a header was refused, and nothing after it is decoded. */
  datatype Stream = Stream(messages: seq<Message>, rest: Bytes, bad: bool)

  /** `s`, decoded after `ms`. */
  function After(ms: seq<Message>, s: Stream): Stream { s.(messages := ms + s.messages) }

  lemma AfterAppends(ms: seq<Message>, more: seq<Message>, s: Stream)
    ensures After(ms, After(more, s)) == After(ms + more, s) && After([], s) == s
  {
    assert ms + (more + s.messages) == (ms + more) + s.messages && [] + s.messages == s.messages;
  }

  function Frames(data: Bytes): Stream
    decreases |data|
  {
    var d := DecodeFromBytes(data);
    if d.Frame? then
      var later := Frames(data[d.consumed..]);
      After([d.message], later)
    else Stream([], data, d.BadMagic? || d.BadLength?)
  }

  function EncodeAll(ms: seq<Message>): Bytes {
    if ms == [] then [] else Encoding(ms[0]) + EncodeAll(ms[1..])
  }

  /** Decoding may stop and go on anywhere: what comes after is decoded from the rest. */
  lemma {:induction false} FramesContinue(data: Bytes, more: Bytes)
    ensures var f := Frames(data);
      if f.bad then Frames(data + more).messages == f.messages && Frames(data + more).bad
      else Frames(data + more) == After(f.messages, Frames(f.rest + more))
    decreases |data|
  {
    var d := DecodeFromBytes(data);
    VerdictIsStable(data, more);
    if d.Frame? {
      var f := Frames(data[d.consumed..]);
      FramesContinue(data[d.consumed..], more);
      assert (data + more)[d.consumed..] == data[d.consumed..] + more;
      AfterAppends([d.message], f.messages, Frames(f.rest + more));
    } else {
      AfterAppends([], [], Frames(data + more));
    }
  }

  lemma FirstFrame(m: Message, tail: Bytes)
    requires WellFormed(m)
    ensures Frames(Encoding(m) + tail) == After([m], Frames(tail))
  {
    var e := Encoding(m);
    DecodesIff(m);
    VerdictIsStable(e, tail);
    assert (e + tail)[|e|..] == tail;
  }

  /** Frames round-trip: the messages come back in order, and what follows them is decoded as if
      it stood alone. */
  lemma {:induction false} FramesOfEncodings(ms: seq<Message>, tail: Bytes)
    requires forall i | 0 <= i < |ms| :: WellFormed(ms[i])
    ensures Frames(EncodeAll(ms) + tail) == After(ms, Frames(tail))
    decreases |ms|
  {
    if ms == [] {
      assert EncodeAll(ms) + tail == tail;
      AfterAppends([], [], Frames(tail));
    } else {
      var after := EncodeAll(ms[1..]) + tail;
      assert EncodeAll(ms) + tail == Encoding(ms[0]) + after;
      FirstFrame(ms[0], after);
      FramesOfEncodings(ms[1..], tail);
      AfterAppends([ms[0]], ms[1..], Frames(tail));
      assert [ms[0]] + ms[1..] == ms;
    }
  }

  lemma NoBytesNoFrames(data: Bytes)
    requires |data| == 0
    ensures Frames(data) == Stream([], data, false)
  {
  }

  lemma ListRoundTrips(ms: seq<Message>, data: Bytes)
    requires (forall i | 0 <= i < |ms| :: WellFormed(ms[i])) && data == EncodeAll(ms)
    ensures Frames(data).messages == ms && !Frames(data).bad && |Frames(data).rest| == 0
  {
    hide DecodeFromBytes; hide Encoding; hide WellFormed;
    var tail := data[|data|..];
    assert data + tail == data;
    FramesOfEncodings(ms, tail);
    NoBytesNoFrames(tail);
    assert ms + Frames(tail).messages == ms;
  }

  /** The other way round: every byte string is the encoding of the messages decoded from it and
      the rest that was not. */
  lemma {:induction false} FramesAccountForAllBytes(data: Bytes)
    ensures data == EncodeAll(Frames(data).messages) + Frames(data).rest
    decreases |data|
  {
    var d := DecodeFromBytes(data);
    if d.Frame? {
      ReencodingRestoresBytes(data);
      FramesAccountForAllBytes(data[d.consumed..]);
      var later := Frames(data[d.consumed..]);
      assert ([d.message] + later.messages)[1..] == later.messages;
    }
  }
}
