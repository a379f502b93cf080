/**
 The Node codec (server/node/message.js) and the Python codec (client/python/roomer.py). Both walk an
 offset; Node keeps whatever bytes the text fields hold and reads a version byte of 0 as 1.
 */
module ScriptCodecs {
  import opened Wire
  import Go = GoCodec

  /** The lengths that make the encoders raise, and a payload whose length does not fit its prefix. */
  predicate Refused(m: Message) {
    |m.room| > 65535 || |m.event| > 65535 || |m.dst| > 255 || |m.src| > 255 || |m.payload| > 0xFFFF_FFFF
  }

  lemma RefusedOutOfRange(m: Message)
    ensures Refused(m) <==> !InRange(m)
  {
  }

  // ---------------------------------------------------------------- Node

  /** create_message (message.js:65-71): a version that is not positive becomes the current one. */
  function CreateMessage(room: Bytes, event: Bytes, dst: Bytes, src: Bytes, payload: Bytes, version: byte,
      flags: byte): Message {
    Message(if version > 0 then version else PROTOCOL_VERSION, flags, room, event, dst, src, payload)
  }

  /** encode (message.js:95-157). */
  method NodeEncode(m: Message) returns (r: Option<Bytes>)
    ensures r == if InRange(m) then Some(Serialize(m)) else None
  {
    RefusedOutOfRange(m);
    if |m.room| > 65535 || |m.event| > 65535 || |m.dst| > 255 || |m.src| > 255 {
      return None;
    }
    if |m.payload| > 0xFFFF_FFFF {
      return None;
    }
    hide Framed;
    var buf := new byte[HEADER_OVERHEAD + |m.room| + |m.event| + |m.dst| + |m.src| + |m.payload|];
    buf[0] := m.version;
    buf[1] := m.flags;
    assert buf[..2] == [m.version, m.flags];
    var offset := Go.PutField(buf, 2, W2, m.room);
    offset := Go.PutField(buf, offset, W2, m.event);
    offset := Go.PutField(buf, offset, W1, m.dst);
    offset := Go.PutField(buf, offset, W1, m.src);
    offset := Go.PutField(buf, offset, W4, m.payload);
    assert buf[..] == buf[..offset];
    r := Some(buf[..]);
  }

  /**
   decode_message (message.js:213-297): accepts exactly the frames within the limit, whatever bytes their
   text fields hold.
   */
  method NodeDecode(data: Bytes, maxMessageSize: int) returns (r: Option<Message>)
    ensures forall m :: r == Some(m) <==>
              (maxMessageSize <= 0 || |data| <= maxMessageSize) && exists f :: IsFrame(data, f) && m == Versioned(f)
  {
    FrameScanned(data);
    if |data| < HEADER_OVERHEAD {
      Go.ShortFrames(data);
      return None;
    }
    if maxMessageSize > 0 && |data| > maxMessageSize {
      return None;
    }
    hide IsFrame, Field;
    r := NodeFields(data);
    if r.Some? {
      assert IsFrame(data, Scan(data).value.0);
    }
  }

  method NodeFields(data: Bytes) returns (r: Option<Message>)
    requires |data| >= HEADER_OVERHEAD
    ensures r == match Scan(data)
                 case None => None
                 case Some((m, end)) => if end == |data| then Some(Versioned(m)) else None
  {
    var offset := 0;
    var version := data[offset];
    offset := offset + 1;
    var flags := data[offset];
    offset := offset + 1;
    var roomLen := ReadU16(data, offset);
    offset := offset + 2;
    if offset + roomLen > |data| {
      return None;
    }
    var room := data[offset..offset + roomLen];
    offset := offset + roomLen;
    assert Field(W2, data, 2) == Some((room, offset));
    ghost var o1 := offset;
    if offset + 2 > |data| {
      return None;
    }
    var eventLen := ReadU16(data, offset);
    offset := offset + 2;
    if offset + eventLen > |data| {
      return None;
    }
    var event := data[offset..offset + eventLen];
    offset := offset + eventLen;
    assert Field(W2, data, o1) == Some((event, offset));
    ghost var o2 := offset;
    if offset + 1 > |data| {
      return None;
    }
    var dstLen := ReadU8(data, offset);
    offset := offset + 1;
    if offset + dstLen > |data| {
      return None;
    }
    var dst := data[offset..offset + dstLen];
    offset := offset + dstLen;
    assert Field(W1, data, o2) == Some((dst, offset));
    ghost var o3 := offset;
    if offset + 1 > |data| {
      return None;
    }
    var srcLen := ReadU8(data, offset);
    offset := offset + 1;
    if offset + srcLen > |data| {
      return None;
    }
    var src := data[offset..offset + srcLen];
    offset := offset + srcLen;
    assert Field(W1, data, o3) == Some((src, offset));
    ghost var o4 := offset;
    if offset + 4 > |data| {
      return None;
    }
    var payloadLen := ReadU32(data, offset);
    offset := offset + 4;
    if offset + payloadLen != |data| {
      return None;
    }
    var payload := data[offset..offset + payloadLen];
    assert Field(W4, data, o4) == Some((payload, |data|));
    r := Some(CreateMessage(room, event, dst, src, payload, version, flags));
  }

  // ---------------------------------------------------------------- Python

  /** encode_message (roomer.py:69-156). */
  method PythonEncode(m: Message) returns (r: Option<Bytes>)
    ensures r == if InRange(m) then Some(Serialize(m)) else None
  {
    RefusedOutOfRange(m);
    if |m.room| > 65535 || |m.event| > 65535 || |m.dst| > 255 || |m.src| > 255 || |m.payload| > 0xFFFF_FFFF {
      return None;
    }
    hide Framed, Prefix, Cut;
    var buf := new byte[HEADER_OVERHEAD + |m.room| + |m.event| + |m.dst| + |m.src| + |m.payload|];
    buf[0] := m.version;
    buf[1] := m.flags;
    assert buf[..2] == [m.version, m.flags];
    var offset := PackField(buf, 2, W2, m.room);
    offset := PackField(buf, offset, W2, m.event);
    offset := PackField(buf, offset, W1, m.dst);
    offset := PackField(buf, offset, W1, m.src);
    offset := PackField(buf, offset, W4, m.payload);
    assert buf[..] == buf[..offset];
    r := Some(buf[..]);
  }

  /** struct.pack_into of the length, then a slice assignment if there is anything to assign. */
  method PackField(buf: array<byte>, offset: nat, w: Width, v: Bytes) returns (next: nat)
    requires offset + Size(w) + |v| <= buf.Length && |v| < Limit(w)
    modifies buf
    ensures next == offset + Size(w) + |v|
    ensures buf[..next] == old(buf[..offset]) + Framed(w, v)
  {
    hide Prefix, Cut;
    Go.Copy(buf, offset, Prefix(w, |v|));
    next := offset + Size(w);
    if |v| > 0 {
      Go.Copy(buf, next, v);
      next := next + |v|;
    }
  }

  /** decode_message (roomer.py:159-227): accepts exactly the text frames. */
  method PythonDecode(data: Bytes) returns (r: Option<Message>)
    ensures StrictlyDecodes(data, r)
  {
    StrictExact(data);
    if |data| < HEADER_OVERHEAD {
      Go.ShortFrames(data);
      return None;
    }
    hide StrictlyDecodes, IsFrame, Field, ValidUtf8;
    r := PythonFields(data);
  }

  method PythonFields(data: Bytes) returns (r: Option<Message>)
    requires |data| >= HEADER_OVERHEAD
    ensures r == Strict(data)
  {
    hide Field, ValidUtf8;
    var offset := 0;
    var version, flags := data[0], data[1];
    var room, event, dst, src, payload, ok;
    room, offset, ok := UnpackText(data, 2, W2);
    if !ok {
      return None;
    }
    event, offset, ok := UnpackText(data, offset, W2);
    if !ok {
      return None;
    }
    dst, offset, ok := UnpackText(data, offset, W1);
    if !ok {
      return None;
    }
    src, offset, ok := UnpackText(data, offset, W1);
    if !ok {
      return None;
    }
    payload, ok := UnpackPayload(data, offset);
    if !ok {
      return None;
    }
    r := Some(Message(version, flags, room, event, dst, src, payload));
  }

  /** The statements that read the payload, which has to end the frame. */
  method UnpackPayload(data: Bytes, start: nat) returns (payload: Bytes, ok: bool)
    requires start <= |data|
    ensures ok <==> Field(W4, data, start).Some? && Field(W4, data, start).value.1 == |data|
    ensures ok ==> Field(W4, data, start).value.0 == payload
  {
    payload, ok := [], false;
    if start + 4 > |data| {
      return;
    }
    var payloadLen := ReadU32(data, start);
    var offset := start + 4;
    if offset + payloadLen != |data| {
      return;
    }
    payload, ok := data[offset..offset + payloadLen], true;
  }

  /** The statements that read one text field; `decode` raises on malformed UTF-8 and the handler returns None. */
  method UnpackText(data: Bytes, start: nat, w: Width) returns (text: Bytes, offset: nat, ok: bool)
    requires start <= |data|
    ensures ok <==> Field(w, data, start).Some? && ValidUtf8(Field(w, data, start).value.0)
    ensures ok ==> Field(w, data, start) == Some((text, offset))
  {
    text, offset, ok := [], start, false;
    if offset + Size(w) > |data| {
      return;
    }
    var length := ReadPrefix(w, data, offset);
    offset := offset + Size(w);
    if offset + length > |data| {
      return;
    }
    text := data[offset..offset + length];
    ok := ValidUtf8(text);
    offset := offset + length;
  }
}
