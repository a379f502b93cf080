/**
 The browser client's encoder and decoder (client/roomer.js), which drive a byte cursor.
 */
module BrowserCodec {
  import opened Wire
  import opened ByteCursor

  function KindOf(w: Width): Kind {
    match w case W1 => Uint8 case W2 => Uint16 case W4 => Uint32
  }

  lemma NaturalPair(a: Bytes, n: nat)
    requires n < 0x1_0000
    ensures Natural(a + U16(n)) == 0x1_0000 * Natural(a) + n
  {
    var b := a + U16(n);
    assert b[..|a| + 1] == a + [(n / 0x100) as byte] && b[..|a| + 1][..|a|] == a;
    assert Natural(b[..|a| + 1]) == 0x100 * Natural(a) + n / 0x100;
  }

  lemma PrefixNatural(w: Width, n: nat)
    requires n < Limit(w)
    ensures Natural(Prefix(w, n)) == n
    decreases Size(w)
  {
    match w
    case W1 => assert Natural([]) == 0;
    case W2 =>
      NaturalPair([], n);
      assert [] + U16(n) == U16(n);
    case W4 =>
      PrefixNatural(W2, n / 0x1_0000);
      NaturalPair(U16(n / 0x1_0000), n % 0x1_0000);
  }

  /** What the cursor writes and reads big-endian is the format's length prefix. */
  lemma PrefixWritten(w: Width, n: nat)
    requires n < Limit(w)
    ensures 0 <= n <= Max(KindOf(w)) && EncodeInt(KindOf(w), false, n) == Prefix(w, n)
  {
    hide Natural, Digits, Prefix, Power;
    Powers();
    PrefixNatural(w, n);
    NaturalInverse(Prefix(w, n), n);
  }

  lemma PrefixRead(w: Width, b: Bytes, i: nat)
    requires i + Size(w) <= |b|
    ensures DecodeInt(KindOf(w), false, b[i..i + Size(w)]) == ReadPrefix(w, b, i)
  {
    hide EncodeInt, DecodeInt, Prefix, ReadPrefix;
    var n := ReadPrefix(w, b, i);
    PrefixWritten(w, n);
    PrefixInverse(w, b, i, n);
    IntInverse(KindOf(w), false, b[i..i + Size(w)], n);
  }

  // ---------------------------------------------------------------- encoding

  /** The cursor is on a buffer of its own, filled with `done` so far. */
  ghost predicate Filled(data: Cursor, done: Bytes)
    reads data, data.buffer
  {
    && data.Valid() && data.offset == 0 && data.length == data.buffer.Length
    && data.cursor == Whole(|done|) && |done| <= data.length && data.buffer[..|done|] == done
  }

  lemma FilledOn(b: Bytes, done: Bytes, src: Bytes)
    requires |done| + |src| <= |b| && done <= b
    ensures done + src <= Splice(b, |done|, src)
  {
  }

  method Put(data: Cursor, ghost done: Bytes, w: Width, n: int) returns (ok: bool)
    requires Filled(data, done)
    modifies data`cursor, data.buffer
    ensures ok <==> 0 <= n < Limit(w) && |done| + Size(w) <= data.length
    ensures ok ==> Filled(data, done + Prefix(w, n))
  {
    hide EncodeInt, Prefix, Index, Moved, Checks;
    WholeMoves(data.length, |done|, Size(w));
    ghost var was := data.buffer[..];
    if 0 <= n < Limit(w) {
      PrefixWritten(w, n);
    }
    ok := data.WriteInt(KindOf(w), n, false);
    if ok {
      FilledOn(was, done, Prefix(w, n));
      assert forall k :: 0 <= k <= data.length ==> data.buffer[..k] == data.buffer[..][..k];
    }
  }

  method PutBytes(data: Cursor, ghost done: Bytes, bytes: Bytes) returns (ok: bool)
    requires Filled(data, done)
    modifies data`cursor, data.buffer
    ensures ok <==> |done| + |bytes| <= data.length
    ensures ok ==> Filled(data, done + bytes)
  {
    var encoded := new byte[|bytes|](i requires 0 <= i < |bytes| => bytes[i]);
    assert encoded[..] == bytes;
    hide Index, Moved, Checks;
    WholeMoves(data.length, |done|, |bytes|);
    ghost var was := data.buffer[..];
    ok := data.WriteBytes(Uint8Array(encoded, 0, |bytes|));
    if ok {
      FilledOn(was, done, bytes);
      assert forall k :: 0 <= k <= data.length ==> data.buffer[..k] == data.buffer[..][..k];
    }
  }

  /** The two calls that write one text field. */
  method PutText(data: Cursor, ghost done: Bytes, w: Width, text: Bytes) returns (ok: bool)
    requires Filled(data, done) && |text| < Limit(w)
    modifies data`cursor, data.buffer
    ensures ok <==> |done| + Size(w) + |text| <= data.length
    ensures ok ==> Filled(data, done + Framed(w, text))
  {
    ok := Put(data, done, w, |text|);
    if ok {
      ok := PutBytes(data, done + Prefix(w, |text|), text);
      assert done + Prefix(w, |text|) + text == done + Framed(w, text);
    }
  }

  /**
   new_message (roomer.js:106-180), from the encoded strings on: throws exactly if a length or the flags do
   not fit, and otherwise fills a buffer of the computed size to its end.
   */
  method NewMessage(room: Bytes, event: Bytes, dst: Bytes, src: Bytes, payload: Bytes, flags: Option<int>)
    returns (r: Option<Uint8Array>)
    ensures var f := if flags.Some? then flags.value else 0;
            var fits := 0 <= f <= 255 && InRange(Message(PROTOCOL_VERSION, 0, room, event, dst, src, payload));
            && (r.Some? <==> fits)
            && (fits ==> r.value.Valid() && fresh(r.value.buffer) && r.value.length == r.value.buffer.Length)
            && (fits ==>
                  r.value.Contents() == Serialize(Message(PROTOCOL_VERSION, f as byte, room, event, dst, src, payload)))
  {
    hide Framed, Prefix, Filled;
    if |room| > 65535 || |event| > 65535 || |dst| > 255 || |src| > 255 {
      return None;
    }
    var buffer := new byte[HEADER_OVERHEAD + |room| + |event| + |dst| + |src| + |payload|];
    var data := new Cursor(buffer, 0, buffer.Length);
    var f := if flags.Some? then flags.value else 0;
    var ok := Header(data, f);
    if !ok {
      return None;
    }
    ghost var done: Bytes := [PROTOCOL_VERSION, f as byte];
    ok := PutText(data, done, W2, room);
    done := done + Framed(W2, room);
    ok := PutText(data, done, W2, event);
    done := done + Framed(W2, event);
    ok := PutText(data, done, W1, dst);
    done := done + Framed(W1, dst);
    ok := PutText(data, done, W1, src);
    done := done + Framed(W1, src);
    ok := PutPayload(data, done, payload);
    if !ok {
      return None;
    }
    assert done + Framed(W4, payload) ==
        Serialize(Message(PROTOCOL_VERSION, f as byte, room, event, dst, src, payload));
    r := TakeAll(data, done + Framed(W4, payload));
  }

  /** The version and the flags. */
  method Header(data: Cursor, flags: int) returns (ok: bool)
    requires data.Valid() && data.offset == 0 && data.length == data.buffer.Length >= 2 && data.cursor == Whole(0)
    modifies data`cursor, data.buffer
    ensures ok <==> 0 <= flags <= 255
    ensures ok ==> Filled(data, [PROTOCOL_VERSION, flags as byte])
  {
    ok := Put(data, [], W1, PROTOCOL_VERSION as int);
    ok := Put(data, Prefix(W1, 1), W1, flags);
    if ok {
      assert Prefix(W1, 1) + Prefix(W1, flags) == [PROTOCOL_VERSION, flags as byte];
      assert [] + Prefix(W1, 1) == Prefix(W1, 1);
    }
  }

  /** The payload's length, then the payload if there is any. */
  method PutPayload(data: Cursor, ghost done: Bytes, payload: Bytes) returns (ok: bool)
    requires Filled(data, done) && |done| + 4 + |payload| <= data.length
    modifies data`cursor, data.buffer
    ensures ok <==> |payload| < Limit(W4)
    ensures ok ==> Filled(data, done + Framed(W4, payload))
  {
    ok := Put(data, done, W4, |payload|);
    if ok {
      assert done + Prefix(W4, |payload|) + payload == done + Framed(W4, payload);
      if |payload| > 0 {
        ok := PutBytes(data, done + Prefix(W4, |payload|), payload);
      }
    }
  }

  /** rewind, then getBytes of all there is. */
  method TakeAll(data: Cursor, ghost done: Bytes) returns (r: Option<Uint8Array>)
    requires Filled(data, done) && |done| == data.length
    modifies data`cursor
    ensures r == Some(Uint8Array(data.buffer, 0, data.length))
    ensures r.value.Contents() == done
  {
    data.Rewind();
    FloorsFit(data.length, data.cursor, Whole(data.length));
    r := data.GetBytes(None);
  }

  // ---------------------------------------------------------------- decoding

  /** A length and what it counts, read through the cursor, which stands at `start`. */
  method GetField(data: Cursor, ghost start: nat, w: Width) returns (v: Option<Bytes>, ghost next: nat)
    requires data.Valid() && data.offset == 0 && data.length == data.buffer.Length
    requires data.cursor == Whole(start) && start <= data.length
    modifies data`cursor
    ensures data.Valid()
    ensures v.Some? <==> Field(w, data.buffer[..], start).Some?
    ensures v.Some? ==> Field(w, data.buffer[..], start) == Some((v.value, next)) && data.cursor == Whole(next)
  {
    hide DecodeInt, ReadPrefix, Index, Moved, Checks;
    WholeMoves(data.length, start, Size(w));
    next := start;
    var len := data.GetInt(KindOf(w), false);
    if len.None? {
      return None, next;
    }
    assert data.buffer[start..start + Size(w)] == data.buffer[..][start..start + Size(w)];
    PrefixRead(w, data.buffer[..], start);
    WholeMoves(data.length, start + Size(w), len.value);
    var bytes := data.GetBytes(Some(Whole(len.value)));
    if bytes.None? {
      return None, next;
    }
    next := start + Size(w) + len.value;
    v := Some(bytes.value.buffer[bytes.value.from..bytes.value.from + bytes.value.length]);
    assert v.value == data.buffer[..][start + Size(w)..next];
  }

  /**
   The onmessage decoder (roomer.js:384-407): the message at the start of the data, whatever follows it and
   whatever bytes the text holds.
   */
  method OnMessage(buffer: array<byte>) returns (packet: Option<Message>)
    ensures packet == match Scan(buffer[..]) case None => None case Some((m, _)) => Some(m)
  {
    hide Field;
    ScanLength(buffer[..]);
    var data := new Cursor(buffer, 0, buffer.Length);
    if data.length < HEADER_OVERHEAD {
      return None;
    }
    var version := data.GetInt(Uint8, false);
    PrefixRead(W1, buffer[..], 0);
    var flags := data.GetInt(Uint8, false);
    PrefixRead(W1, buffer[..], 1);
    assert buffer[0..1] == buffer[..][0..1] && buffer[1..2] == buffer[..][1..2];
    ghost var at: nat;
    var room, event, dst, src, payload;
    room, at := GetField(data, 2, W2);
    if room.None? {
      return None;
    }
    event, at := GetField(data, at, W2);
    if event.None? {
      return None;
    }
    dst, at := GetField(data, at, W1);
    if dst.None? {
      return None;
    }
    src, at := GetField(data, at, W1);
    if src.None? {
      return None;
    }
    payload, at := GetField(data, at, W4);
    if payload.None? {
      return None;
    }
    packet := Some(Message(version.value as byte, flags.value as byte, room.value, event.value, dst.value, src.value,
                           payload.value));
  }
}
