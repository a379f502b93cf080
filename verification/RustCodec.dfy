/**
 The Rust encoder and decoder (server/rust/src/message.rs): the decoder consumes its buffer from the
 front, the encoder appends to one.
 */
module RustCodec {
  import opened Wire

  datatype FrameError =
    | BufferUnderflow(expected: nat, actual: nat)
    | TruncatedPayload(expected: nat, actual: nat)
    | InvalidUtf8(field: string)
    | TrailingBytes(remaining: nat)

  datatype Result = Ok(message: Message) | Err(error: FrameError)

  /** `bytes::Bytes`: a view that shrinks from the front as it is read. */
  class Buf {
    ghost const all: Bytes
    ghost var taken: nat
    var data: Bytes

    ghost predicate Valid()
      reads this
    {
      taken <= |all| && data == all[taken..]
    }

    constructor (all: Bytes)
      ensures Valid() && taken == 0 && this.all == all && data == all
    {
      this.all, this.taken, this.data := all, 0, all;
    }

    method GetU8() returns (n: nat)
      requires Valid() && |data| >= 1
      modifies this
      ensures Valid() && taken == old(taken) + 1 && n == ReadU8(all, old(taken)) < 0x100
    {
      n := data[0] as nat;
      data, taken := data[1..], taken + 1;
    }

    method GetU16() returns (n: nat)
      requires Valid() && |data| >= 2
      modifies this
      ensures Valid() && taken == old(taken) + 2 && n == ReadU16(all, old(taken))
    {
      n := 0x100 * (data[0] as nat) + (data[1] as nat);
      data, taken := data[2..], taken + 2;
    }

    method GetU32() returns (n: nat)
      requires Valid() && |data| >= 4
      modifies this
      ensures Valid() && taken == old(taken) + 4 && n == ReadU32(all, old(taken))
    {
      n := 0x1_0000 * (0x100 * (data[0] as nat) + (data[1] as nat)) + (0x100 * (data[2] as nat) + (data[3] as nat));
      data, taken := data[4..], taken + 4;
    }

    method SplitTo(n: nat) returns (front: Bytes)
      requires Valid() && n <= |data|
      modifies this
      ensures Valid() && taken == old(taken) + n && front == all[old(taken)..taken]
    {
      front := data[..n];
      data, taken := data[n..], taken + n;
    }

    /** The four statements that read one text or payload field: underflow check, length, truncation check, split. */
    method GetField(w: Width) returns (v: Bytes, failure: Option<FrameError>)
      requires Valid()
      modifies this
      ensures Valid()
      ensures failure.None? <==> Field(w, all, old(taken)).Some?
      ensures failure.None? ==> Field(w, all, old(taken)) == Some((v, taken))
      ensures failure.Some? ==> !failure.value.TrailingBytes?
    {
      v := [];
      if |data| < Size(w) {
        return v, Some(BufferUnderflow(Size(w), |data|));
      }
      var len;
      match w {
        case W1 => len := GetU8();
        case W2 => len := GetU16();
        case W4 => len := GetU32();
      }
      if |data| < len {
        return v, Some(TruncatedPayload(len, |data|));
      }
      v := SplitTo(len);
      failure := None;
    }
  }

  ghost predicate TooBig(data: Bytes, maxSize: nat) {
    maxSize > 0 && |data| > maxSize
  }

  /**
   decode_strict_with_limit (message.rs:155-275): accepts exactly the text frames within the limit, and
   reports trailing bytes exactly when a text frame is followed by more.
   */
  method DecodeStrictWithLimit(data: Bytes, maxSize: nat) returns (r: Result)
    ensures forall m :: r == Ok(m) <==> IsFrame(data, m) && TextFields(m) && !TooBig(data, maxSize)
    ensures forall k :: r == Err(TrailingBytes(k)) <==>
              && Scan(data).Some? && TextFields(Scan(data).value.0) && !TooBig(data, maxSize)
              && k == |data| - Scan(data).value.1 > 0
  {
    StrictExact(data);
    ScanLength(data);
    if |data| < HEADER_OVERHEAD {
      return Err(BufferUnderflow(HEADER_OVERHEAD, |data|));
    }
    if maxSize > 0 && |data| > maxSize {
      return Err(TruncatedPayload(maxSize, |data|));
    }
    hide IsFrame, Field, ValidUtf8;
    r := Fields(data);
  }

  method Fields(data: Bytes) returns (r: Result)
    requires |data| >= HEADER_OVERHEAD
    ensures forall m :: r == Ok(m) <==> Strict(data) == Some(m)
    ensures forall k :: r == Err(TrailingBytes(k)) <==>
              Scan(data).Some? && TextFields(Scan(data).value.0) && k == |data| - Scan(data).value.1 > 0
  {
    hide Field, ValidUtf8;
    var buf := new Buf(data);
    var version := buf.GetU8();
    var flags := buf.GetU8();
    var room, failure := buf.GetField(W2);
    if failure.Some? {
      return Err(failure.value);
    }
    if !ValidUtf8(room) {
      return Err(InvalidUtf8("room"));
    }
    var event;
    event, failure := buf.GetField(W2);
    if failure.Some? {
      return Err(failure.value);
    }
    if !ValidUtf8(event) {
      return Err(InvalidUtf8("event"));
    }
    var dst;
    dst, failure := buf.GetField(W1);
    if failure.Some? {
      return Err(failure.value);
    }
    if !ValidUtf8(dst) {
      return Err(InvalidUtf8("dst"));
    }
    var src;
    src, failure := buf.GetField(W1);
    if failure.Some? {
      return Err(failure.value);
    }
    if !ValidUtf8(src) {
      return Err(InvalidUtf8("src"));
    }
    var payload;
    payload, failure := buf.GetField(W4);
    if failure.Some? {
      return Err(failure.value);
    }
    if |buf.data| > 0 {
      return Err(TrailingBytes(|buf.data|));
    }
    r := Ok(Message(version as byte, flags as byte, room, event, dst, src, payload));
  }

  /** encode (message.rs:283-317): the version byte is written as it is. */
  method Encode(m: Message) returns (buf: Bytes)
    ensures buf == Serialize(m)
  {
    hide Cut;
    buf := [];
    buf := buf + [m.version];
    buf := buf + [m.flags];
    buf := buf + U16(Cut(W2, |m.room|)) + m.room;
    buf := buf + U16(Cut(W2, |m.event|)) + m.event;
    assert buf == [m.version, m.flags] + Framed(W2, m.room) + Framed(W2, m.event);
    buf := buf + U8(Cut(W1, |m.dst|)) + m.dst;
    buf := buf + U8(Cut(W1, |m.src|)) + m.src;
    assert buf == [m.version, m.flags] + Framed(W2, m.room) + Framed(W2, m.event) + Framed(W1, m.dst) +
        Framed(W1, m.src);
    buf := buf + U32(Cut(W4, |m.payload|)) + m.payload;
  }

  /** Rust decodes what it encodes, version 0 included, exactly if the lengths fit and the text is UTF-8. */
  method RoundTrip(m: Message) returns (r: Result)
    ensures r == Ok(m) <==> InRange(m) && TextFields(m)
  {
    var buf := Encode(m);
    r := DecodeStrictWithLimit(buf, 0);
    hide Serialize;
  }

  /** Re-encoding an accepted frame gives it back. */
  method Reencode(data: Bytes, maxSize: nat) returns (again: Option<Bytes>)
    ensures again.Some? <==> Strict(data).Some? && !TooBig(data, maxSize)
    ensures again.Some? ==> again.value == data
  {
    var r := DecodeStrictWithLimit(data, maxSize);
    StrictExact(data);
    if r.Err? {
      return None;
    }
    var buf := Encode(r.message);
    return Some(buf);
  }
}
