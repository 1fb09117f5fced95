/** The Java server's codec: an encoder that appends field by field and checks nothing, and an
    incremental decoder that marks the reader index, reads ahead and resets when a frame is not
    complete yet. */
module JavaCodec {
  import opened Wrappers
  import opened WireFormat
  import Go = GoCodec

  /** `ByteBuf` as far as the codec uses it. */
  class ByteBuf {
    var bytes: Bytes
    var readerIndex: nat
    var marked: nat

    ghost predicate Valid()
      reads this
    {
      readerIndex <= |bytes| && marked <= |bytes|
    }

    function Readable(): Bytes
      requires Valid()
      reads this
    {
      bytes[readerIndex..]
    }

    constructor ()
      ensures Valid() && |bytes| == 0
    {
      bytes, readerIndex, marked := [], 0, 0;
    }

    method MarkReaderIndex()
      requires Valid()
      modifies this`marked
      ensures Valid() && marked == readerIndex
    {
      marked := readerIndex;
    }

    method ResetReaderIndex()
      requires Valid()
      modifies this`readerIndex
      ensures Valid() && readerIndex == marked
    {
      readerIndex := marked;
    }

    method ReadBytes(n: nat) returns (r: Bytes)
      requires Valid() && n <= |Readable()|
      modifies this`readerIndex
      ensures Valid() && readerIndex == old(readerIndex) + n && r == old(Readable())[..n]
          && Readable() == old(Readable())[n..]
    {
      r := bytes[readerIndex..readerIndex + n];
      readerIndex := readerIndex + n;
    }

    method WriteBytes(more: Bytes)
      requires Valid()
      modifies this`bytes
      ensures Valid() && bytes == old(bytes) + more && Readable() == old(Readable()) + more
    {
      bytes := bytes + more;
    }
  }

  method WriteHeader(h: Header, out: ByteBuf)
    requires out.Valid()
    modifies out`bytes
    ensures out.Valid() && out.bytes == old(out.bytes) + HeaderBytes(h)
  {
    hide PutInt32; hide PutInt16;
    out.WriteBytes(PutInt32(h.magic));
    out.WriteBytes([h.version]);
    out.WriteBytes([h.kind]);
    out.WriteBytes(PutInt32(h.length));
    out.WriteBytes(PutInt16(h.reserved));
  }

  /** `MessageEncoder.encode`; a missing message writes nothing. */
  method Encode(m: Option<Message>, out: ByteBuf)
    requires out.Valid()
    modifies out
    ensures out.Valid() && out.readerIndex == old(out.readerIndex)
    ensures out.bytes == old(out.bytes) + if m.None? then [] else Encoding(m.value)
  {
    if m.None? { return; }
    WriteHeader(m.value.header, out);
    if |m.value.body| > 0 { out.WriteBytes(m.value.body); }
  }

  lemma HeaderInTwoParts(all: Bytes)
    requires |all| >= HEADER_LENGTH
    ensures var after := all[4..];
      ParseHeader(all) == Header(GetInt32(all[..4]), after[0], after[1], GetInt32(after[2..6]), GetInt16(after[6..8]))
  {
    var after := all[4..];
    assert all[..4] == all[0..4] && after[2..6] == all[6..10] && after[6..8] == all[10..12];
  }

  /** The fields after the magic number. */
  method ReadFields(buf: ByteBuf, magic: Int32) returns (h: Header)
    requires buf.Valid() && |buf.Readable()| >= 8
    modifies buf`readerIndex
    ensures buf.Valid() && buf.readerIndex == old(buf.readerIndex) + 8
    ensures var after := old(buf.Readable());
      h == Header(magic, after[0], after[1], GetInt32(after[2..6]), GetInt16(after[6..8]))
  {
    ghost var after := buf.Readable();
    var version := buf.ReadBytes(1);
    var kind := buf.ReadBytes(1);
    var length := buf.ReadBytes(4);
    var reserved := buf.ReadBytes(2);
    assert version == after[0..1] && kind == after[1..2] && length == after[2..6] && reserved == after[6..8];
    h := Header(magic, version[0], kind[0], GetInt32(length), GetInt16(reserved));
  }

  /** The decoder of one channel.  `received` is history: every byte delivered so far. */
  class MessageDecoder {
    const cumulation: ByteBuf
    var out: seq<Message>
    var closed: bool
    ghost var received: Bytes

    /** What has been decoded is what the frames of all bytes received are, whatever the
        deliveries were; and the channel is closed exactly when a header was refused. */
    ghost predicate Valid()
      reads this, cumulation
    {
      && cumulation.Valid()
      && out == Frames(received).messages && closed == Frames(received).bad
      && (!closed ==> cumulation.Readable() == Frames(received).rest)
    }

    constructor ()
      ensures Valid() && |received| == 0 && fresh(cumulation)
    {
      var buf := new ByteBuf();
      NoBytesNoFrames(buf.bytes);
      cumulation := buf;
      out, closed, received := [], false, buf.bytes;
    }

    /** `decode`: one attempt at one frame. */
    method DecodeOne()
      requires cumulation.Valid() && !closed
      modifies this`out, this`closed, cumulation`readerIndex, cumulation`marked
      ensures cumulation.Valid()
      ensures var d := DecodeFromBytes(old(cumulation.Readable()));
        && out == old(out) + (if d.Frame? then [d.message] else [])
        && closed == (d.BadMagic? || d.BadLength?)
        && (!closed ==> cumulation.Readable() == old(cumulation.Readable())[if d.Frame? then d.consumed else 0..])
    {
      var buf := cumulation;
      ghost var all := buf.Readable();
      if |buf.Readable()| < HEADER_LENGTH { return; }
      buf.MarkReaderIndex();
      HeaderInTwoParts(all);
      var magic := buf.ReadBytes(4);
      if GetInt32(magic) != MAGIC {
        closed := true;
        return;
      }
      var h := ReadFields(buf, GetInt32(magic));
      if h.length < 0 || h.length > MAX_BODY {
        closed := true;
        return;
      }
      assert buf.Readable() == all[HEADER_LENGTH..];
      if |buf.Readable()| < h.length {
        buf.ResetReaderIndex();
        return;
      }
      var body: Bytes := [];
      if h.length > 0 { body := buf.ReadBytes(h.length); }
      assert all[HEADER_LENGTH..][..h.length] == all[HEADER_LENGTH..HEADER_LENGTH + h.length];
      out := out + [Message(h, body)];
    }

    /** A delivery: the bytes are appended, and decoding goes on while it makes progress.  A closed
        channel takes nothing. */
    method ChannelRead(chunk: Bytes)
      requires Valid()
      modifies this`out, this`closed, this`received, cumulation
      ensures Valid() && received == old(received) + chunk
    {
      FramesContinue(received, chunk);
      ghost var before := Frames(received);
      received := received + chunk;
      if closed { return; }
      cumulation.WriteBytes(chunk);
      ghost var unread := cumulation.Readable();
      var stuck := false;
      while !closed && !stuck
        invariant cumulation.Valid() && received == old(received) + chunk
        invariant Frames(received) == After(out, Frames(unread))
        invariant closed ==> Frames(unread).bad && Frames(unread).messages == []
        invariant !closed ==> cumulation.Readable() == unread
        invariant stuck ==> !Frames(unread).bad && Frames(unread).messages == [] && Frames(unread).rest == unread
        decreases !closed, !stuck, |unread|
      {
        var produced, readable := |out|, |cumulation.Readable()|;
        ghost var d := DecodeFromBytes(unread);
        ghost var decoded := out;
        DecodeOne();
        stuck := |out| == produced && !closed && |cumulation.Readable()| == readable;
        if d.Frame? {
          AfterAppends(decoded, [d.message], Frames(unread[d.consumed..]));
          unread := unread[d.consumed..];
        }
      }
    }
  }

  method FeedAll(decoder: MessageDecoder, chunks: seq<Bytes>)
    requires decoder.Valid()
    modifies decoder`out, decoder`closed, decoder`received, decoder.cumulation
    ensures decoder.Valid() && decoder.received == old(decoder.received) + Go.Flatten(chunks)
  {
    hide Frames; hide ByteBuf.Valid;
    var i := 0;
    assert chunks[..0] == [];
    while i < |chunks|
      invariant 0 <= i <= |chunks| && decoder.Valid()
      invariant decoder.received + Go.Flatten(chunks[i..]) == old(decoder.received) + Go.Flatten(chunks)
    {
      ghost var before := decoder.received;
      decoder.ChannelRead(chunks[i]);
      Go.FlattenFrom(chunks, i, before);
      i := i + 1;
    }
    assert decoder.received + Go.Flatten(chunks[i..]) == decoder.received;
  }

  /** Any split of the bytes of well-formed messages is decoded to exactly those messages. */
  method DecodeChunks(ghost ms: seq<Message>, chunks: seq<Bytes>) returns (messages: seq<Message>, closed: bool)
    requires forall i | 0 <= i < |ms| :: WellFormed(ms[i])
    requires Go.Flatten(chunks) == EncodeAll(ms)
    ensures messages == ms && !closed
  {
    var decoder := new MessageDecoder();
    FeedAll(decoder, chunks);
    ListRoundTrips(ms, decoder.received);
    return decoder.out, decoder.closed;
  }
}
