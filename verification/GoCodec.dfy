/** The Go client's codec: the buffer encoder, the stream encoder, and the stream decoder over a
    reader that hands out bytes in pieces of any size. */
module GoCodec {
  import opened Wrappers
  import opened WireFormat

  /** The body as far as it fits into `n` bytes, zeroes after it. */
  function Fitted(body: Bytes, n: nat): (r: Bytes)
    ensures |r| == n
  {
    if n <= |body| then body[..n] else body + seq(n - |body|, _ => 0)
  }

  /** `bytes` put over `s` from `at` on. */
  function Overwritten(s: Bytes, at: nat, bytes: Bytes): (r: Bytes)
    requires at + |bytes| <= |s|
    ensures |r| == |s|
  {
    s[..at] + bytes + s[at + |bytes|..]
  }

  method WriteInto(buf: array<Byte>, at: nat, bytes: Bytes)
    requires at + |bytes| <= buf.Length
    modifies buf
    ensures buf[..] == Overwritten(old(buf[..]), at, bytes)
  {
    ghost var was := buf[..];
    var i := 0;
    while i < |bytes|
      invariant 0 <= i <= |bytes|
      invariant forall k | 0 <= k < buf.Length :: buf[k] == if at <= k < at + i then bytes[k - at] else was[k]
    {
      buf[at + i] := bytes[i];
      i := i + 1;
    }
    assert forall k | 0 <= k < buf.Length :: buf[..][k] == Overwritten(was, at, bytes)[k];
  }

  lemma FilledBody(header: Bytes, zeros: Bytes, body: Bytes, fits: nat)
    requires fits == (if |body| < |zeros| then |body| else |zeros|) && forall i | 0 <= i < |zeros| :: zeros[i] == 0
    ensures Overwritten(header + zeros, |header|, body[..fits]) == header + Fitted(body, |zeros|)
  {
    assert body[..fits] + zeros[fits..] == Fitted(body, |zeros|);
    assert (header + zeros)[|header| + fits..] == zeros[fits..];
  }

  method WriteHeader(buf: array<Byte>, h: Header)
    requires buf.Length >= HEADER_LENGTH
    modifies buf
    ensures buf[..] == HeaderBytes(h) + old(buf[HEADER_LENGTH..])
  {
    ghost var was := buf[..];
    WriteInto(buf, 0, PutInt32(h.magic));
    buf[4] := h.version;
    buf[5] := h.kind;
    WriteInto(buf, 6, PutInt32(h.length));
    WriteInto(buf, 10, PutInt16(h.reserved));
    assert buf[..] ==
      PutInt32(h.magic) + [h.version, h.kind] + PutInt32(h.length) + PutInt16(h.reserved) + was[HEADER_LENGTH..];
  }

  /** A buffer of `12 + Length` bytes, filled in place; a negative `Length` makes it too short for
      the header, which panics.  Neither the magic number nor the body's length is checked. */
  method EncodeToBytes(m: Message) returns (r: Option<Bytes>)
    ensures r == if m.header.length < 0 then None else Some(HeaderBytes(m.header) + Fitted(m.body, m.header.length))
  {
    var h := m.header;
    if h.length < 0 { return None; }
    var n: nat := HEADER_LENGTH + h.length;
    var buf := new Byte[n](_ => 0);
    WriteHeader(buf, h);
    ghost var zeros := buf[HEADER_LENGTH..];
    var fits := if |m.body| < h.length then |m.body| else h.length;
    WriteInto(buf, HEADER_LENGTH, m.body[..fits]);
    FilledBody(HeaderBytes(h), zeros, m.body, fits);
    return Some(buf[..]);
  }

  /** The two encoders agree exactly when the header tells the truth about the body. */
  lemma EncodersAgreeIff(m: Message)
    requires m.header.length >= 0
    ensures HeaderBytes(m.header) + Fitted(m.body, m.header.length) == Encoding(m) <==> m.header.length == |m.body|
  {
    if m.header.length == |m.body| { assert Fitted(m.body, m.header.length) == m.body; }
  }

  /** `Encoder`: appends to its writer, or refuses the header and writes nothing. */
  class Encoder {
    var written: Bytes

    constructor ()
      ensures written == []
    {
      written := [];
    }

    method Encode(m: Message) returns (ok: bool)
      modifies this
      ensures ok == Acceptable(m.header)
      ensures written == if ok then old(written) + Encoding(m) else old(written)
    {
      if m.header.magic != MAGIC { return false; }
      if m.header.length < 0 || m.header.length > MAX_BODY { return false; }
      var header := new Byte[HEADER_LENGTH](_ => 0);
      WriteHeader(header, m.header);
      written := written + header[..];
      if |m.body| > 0 { written := written + m.body; }
      return true;
    }
  }

  function Flatten(chunks: seq<Bytes>): Bytes {
    if chunks == [] then [] else chunks[0] + Flatten(chunks[1..])
  }

  lemma FlattenFrom(chunks: seq<Bytes>, i: nat, before: Bytes)
    requires i < |chunks|
    ensures before + Flatten(chunks[i..]) == (before + chunks[i]) + Flatten(chunks[i + 1..])
  {
    assert chunks[i..][1..] == chunks[i + 1..];
    assert before + (chunks[i] + Flatten(chunks[i + 1..])) == (before + chunks[i]) + Flatten(chunks[i + 1..]);
  }

  datatype Read = Got(message: Message) | Refused(why: Decoded)

  /** `Decoder` and the reader under it.  The chunks stand for whatever sizes the network delivers;
      after the last one the reader is at its end. */
  class Decoder {
    var chunks: seq<Bytes>

    ghost function Unread(): Bytes
      reads this
    {
      Flatten(chunks)
    }

    constructor (chunks: seq<Bytes>)
      ensures this.chunks == chunks
    {
      this.chunks := chunks;
    }

    /** One `Read`: at most `max` bytes, no more than one delivery. */
    method ReadSome(max: nat) returns (got: Bytes)
      requires chunks != [] && max > 0
      modifies this
      ensures got + Unread() == old(Unread()) && |got| <= max
      ensures |chunks| <= |old(chunks)| && (|got| > 0 || |chunks| < |old(chunks)|)
    {
      if |chunks[0]| <= max {
        got := chunks[0];
        chunks := chunks[1..];
      } else {
        got := chunks[0][..max];
        ghost var rest := chunks[0][max..];
        assert chunks[0] == got + rest;
        assert got + (rest + Flatten(chunks[1..])) == chunks[0] + Flatten(chunks[1..]);
        chunks := chunks[0 := chunks[0][max..]];
      }
    }

    /** `io.ReadFull`: `n` bytes, or everything there was. */
    method ReadFull(n: nat) returns (got: Bytes, ok: bool)
      modifies this
      ensures ok == (|old(Unread())| >= n)
      ensures got + Unread() == old(Unread()) && |got| == if ok then n else |old(Unread())|
    {
      got := [];
      while |got| < n && chunks != []
        invariant got + Unread() == old(Unread()) && |got| <= n
        decreases n - |got|, |chunks|
      {
        ghost var before := Unread();
        var more := ReadSome(n - |got|);
        assert got + before == (got + more) + Unread();
        got := got + more;
      }
      ok := |got| == n;
    }

    /** One frame off the stream: the same verdict as `DecodeFromBytes` on all that is to come,
        however it is split, and exactly the frame's bytes taken off. */
    method Decode() returns (r: Read)
      modifies this
      ensures var d := DecodeFromBytes(old(Unread()));
        r == if d.Frame? then Got(d.message) else Refused(d)
      ensures var d := DecodeFromBytes(old(Unread()));
        d.Frame? ==> Unread() == old(Unread())[d.consumed..]
      ensures var d := DecodeFromBytes(old(Unread()));
        d.ShortHeader? || d.ShortBody? ==> Unread() == []
    {
      ghost var all := Unread();
      var header, ok := ReadFull(HEADER_LENGTH);
      if !ok {
        assert |all| == |header| + |Unread()|;
        return Refused(ShortHeader);
      }
      ghost var afterHeader := Unread();
      ParseIgnoresTail(header, afterHeader);
      var h := ParseHeader(header);
      if h.magic != MAGIC { return Refused(BadMagic); }
      if h.length < 0 || h.length > MAX_BODY { return Refused(BadLength); }
      assert all[HEADER_LENGTH..] == afterHeader;
      var body: Bytes := [];
      if h.length > 0 {
        body, ok := ReadFull(h.length);
        if !ok {
          assert |afterHeader| == |body| + |Unread()|;
          return Refused(ShortBody);
        }
      }
      assert afterHeader == body + Unread();
      assert all[HEADER_LENGTH..HEADER_LENGTH + h.length] == body;
      assert all[HEADER_LENGTH + h.length..] == Unread();
      return Got(Message(h, body));
    }
  }

  /** The read loop: frames until the first refusal.  Whatever the deliveries, it sees exactly the
      frames `DecodeFromBytes` finds one after the other. */
  method ReadAll(chunks: seq<Bytes>) returns (messages: seq<Message>, last: Decoded)
    ensures messages == Frames(Flatten(chunks)).messages
    ensures !last.Frame? && Frames(Flatten(chunks)).bad == (last.BadMagic? || last.BadLength?)
  {
    var decoder := new Decoder(chunks);
    messages := [];
    ghost var all := Flatten(chunks);
    var r := decoder.Decode();
    ghost var unread := all;
    while r.Got?
      invariant Frames(all) == After(messages, Frames(unread))
      invariant var d := DecodeFromBytes(unread);
        r == if d.Frame? then Got(d.message) else Refused(d)
      invariant DecodeFromBytes(unread).Frame? ==> decoder.Unread() == unread[DecodeFromBytes(unread).consumed..]
      decreases |unread|
    {
      AfterAppends(messages, [r.message], Frames(decoder.Unread()));
      messages := messages + [r.message];
      unread := decoder.Unread();
      r := decoder.Decode();
    }
    last := r.why;
  }
}
