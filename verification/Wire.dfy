/**
 The wire format all servers and clients share (README.md:93-117), as a serializer and a scanner that
 are each other's inverse. Strings are their UTF-8 bytes.
 */
module Wire {
  newtype byte = x: int | 0 <= x < 256

  type Bytes = seq<byte>

  datatype Option<+T> = None | Some(value: T)

  datatype Message = Message(version: byte, flags: byte, room: Bytes, event: Bytes, dst: Bytes, src: Bytes,
      payload: Bytes)

  const HEADER_OVERHEAD := 12
  const PROTOCOL_VERSION: byte := 1

  /** Every length fits its prefix. */
  predicate InRange(m: Message) {
    && |m.room| < 0x1_0000
    && |m.event| < 0x1_0000
    && |m.dst| < 0x100
    && |m.src| < 0x100
    && |m.payload| < 0x1_0000_0000
  }

  // ---------------------------------------------------------------- big-endian lengths

  function U8(n: nat): (b: Bytes)
    requires n < 0x100
    ensures |b| == 1
  {
    [n as byte]
  }

  function U16(n: nat): (b: Bytes)
    requires n < 0x1_0000
    ensures |b| == 2
  {
    [(n / 0x100) as byte, (n % 0x100) as byte]
  }

  function U32(n: nat): (b: Bytes)
    requires n < 0x1_0000_0000
    ensures |b| == 4
  {
    U16(n / 0x1_0000) + U16(n % 0x1_0000)
  }

  function ReadU8(b: Bytes, i: nat): nat
    requires i + 1 <= |b|
  {
    b[i] as nat
  }

  function ReadU16(b: Bytes, i: nat): (n: nat)
    requires i + 2 <= |b|
    ensures n < 0x1_0000
  {
    0x100 * (b[i] as nat) + (b[i + 1] as nat)
  }

  function ReadU32(b: Bytes, i: nat): (n: nat)
    requires i + 4 <= |b|
    ensures n < 0x1_0000_0000
  {
    0x1_0000 * ReadU16(b, i) + ReadU16(b, i + 2)
  }

  lemma U16Inverse(b: Bytes, i: nat, n: nat)
    requires i + 2 <= |b| && n < 0x1_0000
    ensures ReadU16(b, i) == n <==> b[i..i + 2] == U16(n)
  {
  }

  lemma U32Inverse(b: Bytes, i: nat, n: nat)
    requires i + 4 <= |b| && n < 0x1_0000_0000
    ensures ReadU32(b, i) == n <==> b[i..i + 4] == U32(n)
  {
    U16Inverse(b, i, n / 0x1_0000);
    U16Inverse(b, i + 2, n % 0x1_0000);
    assert b[i..i + 4] == b[i..i + 2] + b[i + 2..i + 4];
    assert b[i..i + 4][..2] == b[i..i + 2] && b[i..i + 4][2..] == b[i + 2..i + 4];
    assert U32(n)[..2] == U16(n / 0x1_0000) && U32(n)[2..] == U16(n % 0x1_0000);
  }

  // ---------------------------------------------------------------- length-prefixed fields

  /** A length prefix of `width` bytes: 1, 2 or 4. */
  datatype Width = W1 | W2 | W4

  function Size(w: Width): nat {
    match w case W1 => 1 case W2 => 2 case W4 => 4
  }

  function Limit(w: Width): nat {
    match w case W1 => 0x100 case W2 => 0x1_0000 case W4 => 0x1_0000_0000
  }

  function Prefix(w: Width, n: nat): (b: Bytes)
    requires n < Limit(w)
    ensures |b| == Size(w)
  {
    match w case W1 => U8(n) case W2 => U16(n) case W4 => U32(n)
  }

  function ReadPrefix(w: Width, b: Bytes, i: nat): (n: nat)
    requires i + Size(w) <= |b|
    ensures n < Limit(w)
  {
    match w case W1 => ReadU8(b, i) case W2 => ReadU16(b, i) case W4 => ReadU32(b, i)
  }

  lemma PrefixInverse(w: Width, b: Bytes, i: nat, n: nat)
    requires i + Size(w) <= |b| && n < Limit(w)
    ensures ReadPrefix(w, b, i) == n <==> b[i..i + Size(w)] == Prefix(w, n)
  {
    match w
    case W1 =>
    case W2 => U16Inverse(b, i, n);
    case W4 => U32Inverse(b, i, n);
  }

  /** The field at offset `i`: its bytes and the offset after it. */
  function Field(w: Width, b: Bytes, i: nat): (f: Option<(Bytes, nat)>)
    ensures f.Some? ==> i + Size(w) <= f.value.1 <= |b|
  {
    if i + Size(w) > |b| then None
    else
      var end := i + Size(w) + ReadPrefix(w, b, i);
      if end > |b| then None else Some((b[i + Size(w)..end], end))
  }

  /** What a conversion to the prefix's width leaves of a length. */
  function Cut(w: Width, n: nat): (r: nat)
    ensures r < Limit(w)
    ensures n < Limit(w) ==> r == n
  {
    n % Limit(w)
  }

  /** A field as the encoders write it: a length too big for its prefix is cut to the prefix's width. */
  function Framed(w: Width, v: Bytes): (f: Bytes)
    ensures |f| == Size(w) + |v|
  {
    Prefix(w, Cut(w, |v|)) + v
  }

  predicate At(b: Bytes, i: nat, v: Bytes) {
    i + |v| <= |b| && b[i..i + |v|] == v
  }

  /** Scanning a field gives `v` exactly if the bytes there are the serialized `v`. */
  lemma FieldInverse(w: Width, b: Bytes, i: nat, v: Bytes, end: nat)
    ensures Field(w, b, i) == Some((v, end)) <==>
              |v| < Limit(w) && i + Size(w) + |v| == end && At(b, i, Framed(w, v))
  {
    hide Cut, Prefix, ReadPrefix;
    if i + Size(w) + |v| == end <= |b| && |v| < Limit(w) {
      PrefixInverse(w, b, i, |v|);
      SplitField(b, i, Prefix(w, |v|), v);
    }
  }

  lemma SplitField(b: Bytes, i: nat, prefix: Bytes, v: Bytes)
    ensures At(b, i, prefix + v) <==> At(b, i, prefix) && At(b, i + |prefix|, v)
  {
    var k, end := i + |prefix|, i + |prefix| + |v|;
    if end <= |b| {
      assert b[i..end] == b[i..k] + b[k..end];
      assert b[i..end][..|prefix|] == b[i..k] && b[i..end][|prefix|..] == b[k..end];
      assert (prefix + v)[..|prefix|] == prefix && (prefix + v)[|prefix|..] == v;
    }
  }

  // ---------------------------------------------------------------- frames

  function Serialize(m: Message): Bytes {
    [m.version, m.flags] + Framed(W2, m.room) + Framed(W2, m.event) + Framed(W1, m.dst) + Framed(W1, m.src)
    + Framed(W4, m.payload)
  }

  /** The message at the start of `b` and the offset after it: the fields in order, nothing else checked. */
  function Scan(b: Bytes): Option<(Message, nat)> {
    if |b| < 2 then None else
    var room := Field(W2, b, 2);
    if room.None? then None else
    var event := Field(W2, b, room.value.1);
    if event.None? then None else
    var dst := Field(W1, b, event.value.1);
    if dst.None? then None else
    var src := Field(W1, b, dst.value.1);
    if src.None? then None else
    var payload := Field(W4, b, src.value.1);
    if payload.None? then None else
    Some((Message(b[0], b[1], room.value.0, event.value.0, dst.value.0, src.value.0, payload.value.0), payload.value.1))
  }

  /** Where the fields of a message start in its frame. */
  function Offsets(m: Message): (nat, nat, nat, nat, nat) {
    var e := 2 + 2 + |m.room|;
    var d := e + 2 + |m.event|;
    var s := d + 1 + |m.dst|;
    var p := s + 1 + |m.src|;
    (e, d, s, p, p + 4 + |m.payload|)
  }

  /** A frame is its two header bytes and its five fields, each in its place. */
  predicate InPlace(b: Bytes, m: Message) {
    var (e, d, s, p, end) := Offsets(m);
    && [m.version, m.flags] <= b
    && At(b, 2, Framed(W2, m.room))
    && At(b, e, Framed(W2, m.event))
    && At(b, d, Framed(W1, m.dst))
    && At(b, s, Framed(W1, m.src))
    && At(b, p, Framed(W4, m.payload))
  }

  lemma StartsWith(b: Bytes, x: Bytes, y: Bytes)
    ensures x + y <= b <==> x <= b && At(b, |x|, y)
  {
    if x <= b && |x| + |y| <= |b| {
      assert b[..|x| + |y|] == x + b[|x|..|x| + |y|];
    }
    if x + y <= b {
      assert b[..|x| + |y|] == x + y;
      assert (x + y)[..|x|] == x && (x + y)[|x|..] == y;
    }
  }

  lemma StartsWith3(b: Bytes, x: Bytes, y: Bytes, z: Bytes)
    ensures x + y + z <= b <==> x <= b && At(b, |x|, y) && At(b, |x| + |y|, z)
  {
    StartsWith(b, x, y);
    StartsWith(b, x + y, z);
  }

  lemma PlaceFields(b: Bytes, m: Message)
    ensures |Serialize(m)| == Offsets(m).4
    ensures InPlace(b, m) <==> Serialize(m) <= b
  {
    hide Framed, At;
    var head: Bytes := [m.version, m.flags];
    var room, event, dst, src, payload :=
      Framed(W2, m.room), Framed(W2, m.event), Framed(W1, m.dst), Framed(W1, m.src), Framed(W4, m.payload);
    StartsWith3(b, head, room, event);
    var front := head + room + event;
    StartsWith3(b, front, dst, src);
    StartsWith(b, front + dst + src, payload);
  }

  /** The scanner inverts the serializer: it finds `m` up to `end` exactly if `b` starts with `m`'s frame. */
  lemma ScanExact(b: Bytes, m: Message, end: nat)
    ensures Scan(b) == Some((m, end)) <==> InRange(m) && |Serialize(m)| == end && Serialize(m) <= b
  {
    if InRange(m) && |Serialize(m)| == end && Serialize(m) <= b {
      ScanFinds(b, m);
    }
    if Scan(b) == Some((m, end)) {
      ScanSound(b, m, end);
    }
  }

  lemma ScanFinds(b: Bytes, m: Message)
    requires InRange(m) && Serialize(m) <= b
    ensures Scan(b) == Some((m, |Serialize(m)|))
  {
    hide Field, Framed, Serialize, At;
    PlaceFields(b, m);
    var (e, d, s, p, last) := Offsets(m);
    FieldInverse(W2, b, 2, m.room, e);
    FieldInverse(W2, b, e, m.event, d);
    FieldInverse(W1, b, d, m.dst, s);
    FieldInverse(W1, b, s, m.src, p);
    FieldInverse(W4, b, p, m.payload, last);
  }

  lemma ScanSound(b: Bytes, m: Message, end: nat)
    requires Scan(b) == Some((m, end))
    ensures InRange(m) && |Serialize(m)| == end && Serialize(m) <= b
  {
    hide Field, Framed, Serialize, At;
    var room := Field(W2, b, 2).value;
    FieldInverse(W2, b, 2, m.room, room.1);
    var event := Field(W2, b, room.1).value;
    FieldInverse(W2, b, room.1, m.event, event.1);
    var dst := Field(W1, b, event.1).value;
    FieldInverse(W1, b, event.1, m.dst, dst.1);
    var src := Field(W1, b, dst.1).value;
    FieldInverse(W1, b, dst.1, m.src, src.1);
    FieldInverse(W4, b, src.1, m.payload, end);
    PlaceFields(b, m);
  }

  /** No frame starts another: a byte string starts with the frame of one message only. */
  lemma PrefixFree(b: Bytes, m: Message, m': Message)
    requires InRange(m) && InRange(m') && Serialize(m) <= b && Serialize(m') <= b
    ensures m == m'
  {
    ScanExact(b, m, |Serialize(m)|);
    ScanExact(b, m', |Serialize(m')|);
  }

  /** A frame has at least the header's bytes. */
  lemma FrameLength(m: Message)
    ensures |Serialize(m)| == HEADER_OVERHEAD + |m.room| + |m.event| + |m.dst| + |m.src| + |m.payload|
  {
  }

  /** A string with a frame at its start is at least a header long. */
  lemma ScanLength(b: Bytes)
    ensures Scan(b).Some? ==> HEADER_OVERHEAD <= |b| && Scan(b).value.1 <= |b|
  {
    if Scan(b).Some? {
      var (m, end) := Scan(b).value;
      ScanExact(b, m, end);
      FrameLength(m);
    }
  }

  // ---------------------------------------------------------------- text

  predicate Continuation(b: byte) {
    0x80 <= b <= 0xBF
  }

  /** The length of the well-formed sequence `b` starts with, or 0: section 4 of RFC 3629. */
  function SequenceLength(b: Bytes): (n: nat)
    ensures n <= |b|
  {
    if |b| == 0 then 0
    else if b[0] <= 0x7F then 1
    else if |b| < 2 || !Continuation(b[1]) then 0
    else if 0xC2 <= b[0] <= 0xDF then 2
    else if |b| < 3 || !Continuation(b[2]) then 0
    else if b[0] == 0xE0 then (if 0xA0 <= b[1] then 3 else 0)
    else if b[0] == 0xED then (if b[1] <= 0x9F then 3 else 0)
    else if 0xE1 <= b[0] <= 0xEF then 3
    else if |b| < 4 || !Continuation(b[3]) then 0
    else if b[0] == 0xF0 then (if 0x90 <= b[1] then 4 else 0)
    else if b[0] == 0xF4 then (if b[1] <= 0x8F then 4 else 0)
    else if 0xF1 <= b[0] <= 0xF3 then 4
    else 0
  }

  predicate ValidUtf8(b: Bytes)
    decreases |b|
  {
    b == [] || (SequenceLength(b) > 0 && ValidUtf8(b[SequenceLength(b)..]))
  }

  predicate TextFields(m: Message) {
    ValidUtf8(m.room) && ValidUtf8(m.event) && ValidUtf8(m.dst) && ValidUtf8(m.src)
  }

  // ---------------------------------------------------------------- what decoders accept

  /** `b` is exactly the frame of `m`. */
  predicate IsFrame(b: Bytes, m: Message) {
    InRange(m) && b == Serialize(m)
  }

  /** A decoder that insists on the whole string and on UTF-8 text. */
  ghost predicate StrictlyDecodes(b: Bytes, r: Option<Message>) {
    forall m :: r == Some(m) <==> IsFrame(b, m) && TextFields(m)
  }

  /** The whole-string, text-only reading of `b`, as a function. */
  function Strict(b: Bytes): Option<Message> {
    match Scan(b)
    case None => None
    case Some((m, end)) => if end == |b| && TextFields(m) then Some(m) else None
  }

  lemma StrictExact(b: Bytes)
    ensures StrictlyDecodes(b, Strict(b))
  {
    FrameScanned(b);
  }

  /** What is left for a decoder to do once it has scanned the fields. */
  lemma FrameScanned(b: Bytes)
    ensures forall m :: IsFrame(b, m) <==> Scan(b) == Some((m, |b|))
  {
    forall m
      ensures IsFrame(b, m) <==> Scan(b) == Some((m, |b|))
    {
      ScanExact(b, m, |b|);
    }
  }

  /** A version byte of 0 stands for the current version. */
  function Versioned(m: Message): Message {
    m.(version := if m.version == 0 then PROTOCOL_VERSION else m.version)
  }
}
