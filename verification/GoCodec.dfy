/**
 The Go encoder and decoder (server/go/message.go).
 */
module GoCodec {
  import opened Wire

  /** readString16 (message.go:42-58): moves the offset past a 2-byte length and the text after it. */
  method ReadString16(data: Bytes, offset: nat) returns (str: Bytes, next: nat, ok: bool)
    requires offset <= |data|
    ensures ok <==> Field(W2, data, offset).Some? && ValidUtf8(Field(W2, data, offset).value.0)
    ensures ok ==> Field(W2, data, offset) == Some((str, next))
  {
    hide ValidUtf8, ReadU8, ReadU16;
    str, next := [], offset;
    if |data| - next < 2 {
      return str, next, false;
    }
    var length := ReadU16(data, next);
    next := next + 2;
    if |data| - next < length {
      return str, next, false;
    }
    str := data[next..next + length];
    if !ValidUtf8(str) {
      return [], next, false;
    }
    next := next + length;
    ok := true;
  }

  /** readString8 (message.go:61-77). */
  method ReadString8(data: Bytes, offset: nat) returns (str: Bytes, next: nat, ok: bool)
    requires offset <= |data|
    ensures ok <==> Field(W1, data, offset).Some? && ValidUtf8(Field(W1, data, offset).value.0)
    ensures ok ==> Field(W1, data, offset) == Some((str, next))
  {
    hide ValidUtf8, ReadU8, ReadU16;
    str, next := [], offset;
    if |data| - next < 1 {
      return str, next, false;
    }
    var length := ReadU8(data, next);
    next := next + 1;
    if |data| - next < length {
      return str, next, false;
    }
    str := data[next..next + length];
    if !ValidUtf8(str) {
      return [], next, false;
    }
    next := next + length;
    ok := true;
  }

  /** readPayload32 (message.go:80-92). */
  method ReadPayload32(data: Bytes, offset: nat) returns (payload: Bytes, next: nat, ok: bool)
    requires offset <= |data|
    ensures ok <==> Field(W4, data, offset).Some?
    ensures ok ==> Field(W4, data, offset) == Some((payload, next))
  {
    payload, next := [], offset;
    if |data| - next < 4 {
      return payload, next, false;
    }
    var length := ReadU32(data, next);
    next := next + 4;
    if |data| - next < length {
      return payload, next, false;
    }
    payload := data[next..next + length];
    next := next + length;
    ok := true;
  }

  /** BytesToMessageWithLimit (message.go:100-136): accepts exactly the text frames within the limit. */
  method BytesToMessageWithLimit(data: Bytes, maxSize: int) returns (r: Option<Message>)
    ensures forall m :: r == Some(m) <==> IsFrame(data, m) && TextFields(m) && (maxSize <= 0 || |data| <= maxSize)
  {
    StrictExact(data);
    if |data| < HEADER_OVERHEAD {
      ShortFrames(data);
      return None;
    }
    if maxSize > 0 && |data| > maxSize {
      return None;
    }
    hide StrictlyDecodes, IsFrame, Field, ValidUtf8;
    r := Fields(data);
  }

  /** The part of the decoder after its size checks. */
  method Fields(data: Bytes) returns (r: Option<Message>)
    requires |data| >= HEADER_OVERHEAD
    ensures r == Strict(data)
  {
    hide Field, ValidUtf8;
    var offset := 0;
    var version := data[offset];
    offset := offset + 1;
    var flags := data[offset];
    offset := offset + 1;
    var room, event, dst, src, payload, ok;
    room, offset, ok := ReadString16(data, offset);
    if !ok {
      return None;
    }
    event, offset, ok := ReadString16(data, offset);
    if !ok {
      return None;
    }
    dst, offset, ok := ReadString8(data, offset);
    if !ok {
      return None;
    }
    src, offset, ok := ReadString8(data, offset);
    if !ok {
      return None;
    }
    payload, offset, ok := ReadPayload32(data, offset);
    if !ok {
      return None;
    }
    if offset != |data| {
      return None;
    }
    r := Some(Message(version, flags, room, event, dst, src, payload));
  }

  lemma ShortFrames(data: Bytes)
    requires |data| < HEADER_OVERHEAD
    ensures forall m :: !IsFrame(data, m)
  {
    forall m
      ensures |Serialize(m)| >= HEADER_OVERHEAD
    {
      FrameLength(m);
    }
  }

  /** copy(buf[offset:], src). */
  method Copy(buf: array<byte>, offset: nat, src: Bytes)
    requires offset + |src| <= buf.Length
    modifies buf
    ensures buf[..offset + |src|] == old(buf[..offset]) + src
  {
    var i := 0;
    while i < |src|
      invariant i <= |src|
      invariant buf[..offset] == old(buf[..offset])
      invariant buf[offset..offset + i] == src[..i]
    {
      buf[offset + i] := src[i];
      assert buf[offset..offset + i + 1] == buf[offset..offset + i] + [src[i]];
      i := i + 1;
    }
    assert buf[..offset + |src|] == buf[..offset] + buf[offset..offset + |src|];
  }

  /** The two statements that write one field: its length prefix, then its bytes. */
  method PutField(buf: array<byte>, offset: nat, w: Width, v: Bytes) returns (next: nat)
    requires offset + Size(w) + |v| <= buf.Length
    modifies buf
    ensures next == offset + Size(w) + |v|
    ensures buf[..next] == old(buf[..offset]) + Framed(w, v)
  {
    hide Prefix, Cut;
    Copy(buf, offset, Prefix(w, Cut(w, |v|)));
    Copy(buf, offset + Size(w), v);
    next := offset + Size(w) + |v|;
  }

  /** Bytes (message.go:139-173): one buffer of the final size, filled by a moving offset. */
  method Encode(msg: Message) returns (buf: array<byte>)
    ensures fresh(buf) && buf[..] == Serialize(Versioned(msg))
  {
    hide Framed;
    var totalLen := HEADER_OVERHEAD + |msg.room| + |msg.event| + |msg.dst| + |msg.src| + |msg.payload|;
    buf := new byte[totalLen];
    var version := msg.version;
    if version == 0 {
      version := PROTOCOL_VERSION;
    }
    buf[0] := version;
    buf[1] := msg.flags;
    assert buf[..2] == [version, msg.flags];
    var offset := PutField(buf, 2, W2, msg.room);
    offset := PutField(buf, offset, W2, msg.event);
    offset := PutField(buf, offset, W1, msg.dst);
    offset := PutField(buf, offset, W1, msg.src);
    offset := PutField(buf, offset, W4, msg.payload);
    assert buf[..] == buf[..offset];
  }

  lemma VersionByte(m: Message)
    ensures |Serialize(m)| >= 2 && Serialize(m)[0] == m.version
    ensures Serialize(m)[0 := PROTOCOL_VERSION] == Serialize(m.(version := PROTOCOL_VERSION))
  {
    hide Framed;
    var rest := Serialize(m)[1..];
    assert Serialize(m) == [m.version] + rest;
    assert Serialize(m.(version := PROTOCOL_VERSION)) == [PROTOCOL_VERSION] + rest;
  }

  /** A message decodes to itself exactly if its lengths fit, its text is UTF-8 and its version is not 0. */
  method RoundTrip(msg: Message) returns (r: Option<Message>)
    ensures r == Some(msg) <==> InRange(msg) && TextFields(msg) && msg.version != 0
  {
    var buf := Encode(msg);
    r := BytesToMessageWithLimit(buf[..], 0);
    VersionByte(msg);
    VersionByte(Versioned(msg));
    hide Serialize;
  }

  /** Re-encoding an accepted frame gives it back, up to a version byte of 0. */
  method Reencode(data: Bytes, maxSize: int) returns (again: Option<Bytes>)
    ensures again.Some? <==> Strict(data).Some? && (maxSize <= 0 || |data| <= maxSize)
    ensures again.Some? ==> |data| >= HEADER_OVERHEAD
    ensures again.Some? ==> again.value == if data[0] != 0 then data else data[0 := PROTOCOL_VERSION]
  {
    var r := BytesToMessageWithLimit(data, maxSize);
    StrictExact(data);
    if r.None? {
      return None;
    }
    var buf := Encode(r.value);
    FrameLength(r.value);
    VersionByte(r.value);
    hide Serialize;
    return Some(buf[..]);
  }
}
