/** The packet inside a data or close message: the connection ID with its length in two bytes,
    then the payload.  Both languages build it in place; both parse it. */
module DataPackets {
  import opened Wrappers
  import opened WireFormat
  import Go = GoCodec

  /** IDs are the bytes of the ID string. */
  datatype DataPacket = DataPacket(connectionId: Bytes, data: Bytes)

  /** Only the low 16 bits of the length are written. */
  function Packet(id: Bytes, data: Bytes): Bytes { [|id| / 0x100 % 0x100, |id| % 0x100] + id + data }

  /** Narrowing to 32 bits, as a Go conversion does. */
  function ToInt32(n: nat): Int32 {
    var u := n % 0x1_0000_0000;
    if u >= 0x8000_0000 then u - 0x1_0000_0000 else u
  }

  function PacketMessage(kind: Byte, body: Bytes): Message {
    Message(Header(MAGIC, VERSION, kind, ToInt32(|body|), 0), body)
  }

  /** `ParseDataPacket`; the Java parsers below add their own checks. */
  function ParsePacket(body: Bytes): Option<DataPacket> {
    if |body| < 2 then None
    else
      var n := body[0] as int * 0x100 + body[1] as int;
      if 2 + n > |body| then None else Some(DataPacket(body[2..2 + n], body[2 + n..]))
  }

  function ParseDataPacket(m: Message): Option<DataPacket> {
    if m.header.kind != TYPE_DATA then None else ParsePacket(m.body)
  }

  function ParseCloseConnectionId(m: Message): Option<Bytes> {
    if |m.body| < 2 then None
    else
      var n := m.body[0] as int * 0x100 + m.body[1] as int;
      if 2 + n > |m.body| then None else Some(m.body[2..2 + n])
  }

  // ---------- building in place ----------

  method Fill(id: Bytes, data: Bytes) returns (body: array<Byte>)
    ensures fresh(body) && body[..] == Packet(id, data)
  {
    body := new Byte[2 + |id| + |data|](_ => 0);
    body[0] := |id| / 0x100 % 0x100;
    body[1] := |id| % 0x100;
    Go.WriteInto(body, 2, id);
    Go.WriteInto(body, 2 + |id|, data);
  }

  /** Go's `NewDataMessageWithConnectionID`. */
  method NewDataMessage(id: Bytes, data: Bytes) returns (m: Message)
    ensures m == PacketMessage(TYPE_DATA, Packet(id, data))
    ensures m.header == Header(MAGIC, VERSION, TYPE_DATA, ToInt32(2 + |id| + |data|), 0)
  {
    var body := Fill(id, data);
    return PacketMessage(TYPE_DATA, body[..]);
  }

  method NewCloseConnectionMessage(id: Bytes) returns (m: Message)
    ensures m == PacketMessage(TYPE_CLOSE_CONNECTION, Packet(id, []))
    ensures m.header == Header(MAGIC, VERSION, TYPE_CLOSE_CONNECTION, ToInt32(2 + |id|), 0)
  {
    var body := Fill(id, []);
    return PacketMessage(TYPE_CLOSE_CONNECTION, body[..]);
  }

  /** Java's `dataWithConnectionId`: an array cannot be longer than 2^31 - 1 bytes, so asking for
      more throws. */
  method DataWithConnectionId(id: Bytes, payload: Bytes) returns (m: Option<Message>)
    ensures m == if 2 + |id| + |payload| < 0x8000_0000
          then Some(PacketMessage(TYPE_DATA, Packet(id, payload))) else None
    ensures m.Some? ==> m.value.header == Header(MAGIC, VERSION, TYPE_DATA, 2 + |id| + |payload|, 0)
  {
    if 2 + |id| + |payload| >= 0x8000_0000 { return None; }
    var body := Fill(id, payload);
    return Some(Message(Header(MAGIC, VERSION, TYPE_DATA, body.Length, 0), body[..]));
  }

  // ---------- round trips ----------

  /** Where ID and payload are, and how the ID's length is written. */
  lemma PacketLayout(id: Bytes, data: Bytes)
    ensures var p := Packet(id, data);
      && BigEndian(p[..2]) == |id| % 0x1_0000 && p[2..2 + |id|] == id && p[2 + |id|..] == data
  {
    var p := Packet(id, data);
    BigEndianOfTwo(p[..2]);
    assert |id| % 0x1_0000 == (|id| / 0x100 % 0x100) * 0x100 + |id| % 0x100;
  }

  /** A packet parses back exactly when the ID's length fits its two bytes. */
  lemma PacketRoundTripsIff(id: Bytes, data: Bytes)
    ensures ParsePacket(Packet(id, data)) == Some(DataPacket(id, data)) <==> |id| <= 65535
  {
    var p := Packet(id, data);
    var n := p[0] as int * 0x100 + p[1] as int;
    assert n == |id| % 0x1_0000;
    if |id| <= 65535 {
      assert p[2..2 + n] == id && p[2 + n..] == data;
    } else {
      assert 2 + n <= |p| && |p[2..2 + n]| == n < |id|;
    }
  }

  /** What parses was built by nobody else: the packet's bytes are recovered from its parts. */
  lemma ParsedPacketsAreCanonical(body: Bytes)
    ensures var r := ParsePacket(body);
      if r.Some? then |r.value.connectionId| <= 65535 && Packet(r.value.connectionId, r.value.data) == body
      else forall id: Bytes, data: Bytes | |id| <= 65535 :: Packet(id, data) != body
  {
    var r := ParsePacket(body);
    if r.Some? {
      var n := body[0] as int * 0x100 + body[1] as int;
      assert body == body[..2] + body[2..2 + n] + body[2 + n..];
      assert body[..2] == [n / 0x100 % 0x100, n % 0x100];
    } else {
      forall id: Bytes, data: Bytes | |id| <= 65535 ensures Packet(id, data) != body { PacketRoundTripsIff(id, data); }
    }
  }

  lemma NarrowedIsNoLonger(n: nat)
    ensures ToInt32(n) <= n && (ToInt32(n) == n <==> n < 0x8000_0000)
    ensures (n - ToInt32(n)) % 0x1_0000_0000 == 0
  {
  }

  /** A packet's message through the frame codec, whatever its size: a body of 2^31 bytes or more
      has a wrapped length in its header, and is refused or cut off there. */
  lemma PacketFrames(kind: Byte, id: Bytes, data: Bytes)
    ensures var m := PacketMessage(kind, Packet(id, data));
      DecodeFromBytes(Encoding(m)) ==
        if Acceptable(m.header)
        then Frame(Message(m.header, m.body[..m.header.length]), HEADER_LENGTH + m.header.length)
        else BadLength
  {
    var m := PacketMessage(kind, Packet(id, data));
    NarrowedIsNoLonger(|m.body|);
    DecodesUpToLength(m);
  }

  lemma ParsedSize(body: Bytes)
    ensures var r := ParsePacket(body); r.Some? ==> |body| == 2 + |r.value.connectionId| + |r.value.data|
  {
  }

  /** The tunnel's data path from one language to the other: build, encode, decode, parse.  The ID
      and the payload arrive exactly when the ID fits its length field and the body fits a frame. */
  lemma DataArrivesIff(id: Bytes, data: Bytes)
    ensures var d := DecodeFromBytes(Encoding(PacketMessage(TYPE_DATA, Packet(id, data))));
      d.Frame? && ParseDataPacket(d.message) == Some(DataPacket(id, data))
        && d.message.header == Header(MAGIC, VERSION, TYPE_DATA, 2 + |id| + |data|, 0) <==>
          |id| <= 65535 && 2 + |id| + |data| <= MAX_BODY
    ensures var d := DecodeFromBytes(Encoding(PacketMessage(TYPE_DATA, Packet(id, data))));
      d.Frame? && ParseDataPacket(d.message) == Some(DataPacket(id, data)) ==>
        |id| <= 65535 && 2 + |id| + |data| <= MAX_BODY
  {
    hide DecodeFromBytes; hide Encoding; hide ParsePacket;
    var body := Packet(id, data);
    NarrowedIsNoLonger(|body|);
    PacketRoundTripsIff(id, data);
    PacketFrames(TYPE_DATA, id, data);
    var length := ToInt32(|body|);
    if length == |body| {
      assert body[..length] == body;
    } else if 0 <= length <= MAX_BODY {
      ParsedSize(body[..length]);
    }
  }

  /** A close notification's ID is taken without looking at the rest, so it arrives exactly when
      it fits its length field and the frame, as long as that is, still covers it. */
  lemma CloseArrivesIff(kind: Byte, id: Bytes, data: Bytes)
    ensures var d := DecodeFromBytes(Encoding(PacketMessage(kind, Packet(id, data))));
      d.Frame? && ParseCloseConnectionId(d.message) == Some(id) <==>
        |id| <= 65535 && 2 + |id| <= ToInt32(2 + |id| + |data|) <= MAX_BODY
    ensures var d := DecodeFromBytes(Encoding(PacketMessage(kind, Packet(id, data))));
      d.Frame? ==> d.message.header == Header(MAGIC, VERSION, kind, ToInt32(2 + |id| + |data|), 0)
  {
    hide DecodeFromBytes; hide Encoding;
    PacketFrames(kind, id, data);
    var p := Packet(id, data);
    NarrowedIsNoLonger(|p|);
    var length := ToInt32(|p|);
    if 2 <= length <= MAX_BODY {
      var body := p[..length];
      var n := body[0] as int * 0x100 + body[1] as int;
      assert n == |id| % 0x1_0000;
      if n == |id| {
        if 2 + n <= length { assert body[2..2 + n] == id; }
      } else if 2 + n <= length {
        assert |body[2..2 + n]| == n < |id|;
      }
    }
  }

  /** What a built close notification is on the other side: a frame of the close type with its ID, which
      the Go client's parser takes for a packet without payload and the Java data parser refuses. */
  lemma CloseNotificationArrivesIff(id: Bytes, none: Bytes)
    requires |none| == 0
    ensures var d := DecodeFromBytes(Encoding(PacketMessage(TYPE_CLOSE_CONNECTION, Packet(id, none))));
      |id| <= 65535 <==>
        && d.Frame? && d.message.header == Header(MAGIC, VERSION, TYPE_CLOSE_CONNECTION, ToInt32(2 + |id|), 0)
        && ParseCloseConnectionId(d.message) == Some(id) && ParsePacket(d.message.body) == Some(DataPacket(id, none))
        && ParseDataPacket(d.message).None?
  {
    hide DecodeFromBytes; hide Encoding; hide ParsePacket;
    CloseArrivesIff(TYPE_CLOSE_CONNECTION, id, none);
    PacketFrames(TYPE_CLOSE_CONNECTION, id, none);
    PacketRoundTripsIff(id, none);
    NarrowedIsNoLonger(2 + |id|);
    var body := Packet(id, none);
    assert body[..|body|] == body;
  }
}
