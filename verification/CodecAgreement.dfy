/**
 The five decoders and encoders side by side on one input: where they agree and where they do not.
 */
module CodecAgreement {
  import opened Wire
  import Go = GoCodec
  import Rust = RustCodec
  import Script = ScriptCodecs
  import Browser = BrowserCodec

  /** What each implementation makes of the same bytes. */
  datatype Readings = Readings(go: Option<Message>, rust: Option<Message>, python: Option<Message>,
                               node: Option<Message>, browser: Option<Message>)

  /** Each decoder on `data`, with no size limit in force. */
  method DecodeGo(data: Bytes) returns (r: Option<Message>)
    ensures r == Strict(data)
  {
    r := Go.BytesToMessageWithLimit(data, 0);
    StrictUnique(data, r);
  }

  method DecodeRust(data: Bytes) returns (r: Option<Message>)
    ensures r == Strict(data)
  {
    var rust := Rust.DecodeStrictWithLimit(data, 0);
    r := if rust.Ok? then Some(rust.message) else None;
    StrictUnique(data, r);
  }

  method DecodePython(data: Bytes) returns (r: Option<Message>)
    ensures r == Strict(data)
  {
    r := Script.PythonDecode(data);
    StrictUnique(data, r);
  }

  method DecodeNode(data: Bytes) returns (r: Option<Message>)
    ensures r == match Scan(data)
                 case None => None
                 case Some((f, end)) => if end == |data| then Some(Versioned(f)) else None
  {
    r := Script.NodeDecode(data, 0);
    NodeUnique(data, r);
  }

  method DecodeBrowser(data: Bytes) returns (r: Option<Message>)
    ensures r == match Scan(data) case None => None case Some((m, _)) => Some(m)
  {
    hide Scan;
    var buffer := new byte[|data|](i requires 0 <= i < |data| => data[i]);
    assert buffer[..] == data;
    r := Browser.OnMessage(buffer);
  }

  /**
   All five on the same bytes. Go, Rust and Python agree; Node accepts what the browser reads to the last
   byte, with version 0 as 1; the three accept what Node accepts with UTF-8 text.
   */
  method Decode(data: Bytes) returns (r: Readings)
    ensures r.go == r.rust == r.python
    ensures r.node.Some? <==> r.browser.Some? && |Serialize(r.browser.value)| == |data|
    ensures r.node.Some? ==> r.node.value == Versioned(r.browser.value)
    ensures r.go == if r.node.Some? && TextFields(r.browser.value) then r.browser else None
    ensures r.browser.Some? ==> Serialize(r.browser.value) <= data
  {
    hide TextFields, Serialize, Scan;
    var go := DecodeGo(data);
    var rust := DecodeRust(data);
    var python := DecodePython(data);
    var node := DecodeNode(data);
    var browser := DecodeBrowser(data);
    r := Readings(go, rust, python, node, browser);
    ScanBounds(data);
  }

  lemma StrictUnique(data: Bytes, r: Option<Message>)
    requires StrictlyDecodes(data, r)
    ensures r == Strict(data)
  {
    StrictExact(data);
  }

  lemma NodeUnique(data: Bytes, r: Option<Message>)
    requires forall m :: r == Some(m) <==> exists f :: IsFrame(data, f) && m == Versioned(f)
    ensures r == match Scan(data)
                 case None => None
                 case Some((f, end)) => if end == |data| then Some(Versioned(f)) else None
  {
    FrameScanned(data);
    if Scan(data).Some? && Scan(data).value.1 == |data| {
      assert IsFrame(data, Scan(data).value.0);
    }
  }

  lemma ScanBounds(data: Bytes)
    ensures Scan(data).Some? ==>
              Serialize(Scan(data).value.0) <= data && |Serialize(Scan(data).value.0)| == Scan(data).value.1
  {
    if Scan(data).Some? {
      ScanExact(data, Scan(data).value.0, Scan(data).value.1);
    }
  }

  /** What each implementation writes for the same message. */
  datatype Writings = Writings(go: Bytes, rust: Bytes, python: Option<Bytes>, node: Option<Bytes>,
      browser: Option<Bytes>)

  /**
   All five encoders on `m`. In range they agree but for a version of 0, which Go alone replaces, and a
   browser that always writes the current version. Out of range only Go and Rust write anything, and no
   decoder reads it back as `m`; it may be read as another message (`CutFrameMisread`).
   */
  method Encode(m: Message) returns (w: Writings)
    ensures w.rust == Serialize(m) && w.go == Serialize(Versioned(m))
    ensures w.python == w.node == if InRange(m) then Some(w.rust) else None
    ensures w.browser.Some? <==> InRange(m)
    ensures InRange(m) && m.version == PROTOCOL_VERSION ==>
        Some(w.go) == Some(w.rust) == w.python == w.node == w.browser
    ensures !InRange(m) ==> Strict(w.rust) != Some(m) && Strict(w.go) != Some(m)
  {
    var go := Go.Encode(m);
    var rust := Rust.Encode(m);
    var python := Script.PythonEncode(m);
    var node := Script.NodeEncode(m);
    var browser := Browser.NewMessage(m.room, m.event, m.dst, m.src, m.payload, Some(m.flags as int));
    var packet: Option<Bytes> := None;
    if browser.Some? {
      packet := Some(browser.value.buffer[browser.value.from..browser.value.from + browser.value.length]);
    }
    w := Writings(go[..], rust, python, node, packet);
    StrictInRange(w.rust, m);
    StrictInRange(w.go, m);
    hide Serialize, Strict;
  }

  lemma StrictInRange(b: Bytes, m: Message)
    ensures Strict(b) == Some(m) ==> InRange(m)
  {
    StrictExact(b);
  }

  function Zeros(n: nat): (b: Bytes)
    ensures |b| == n
  {
    seq(n, i => 0)
  }

  lemma {:induction false} AsciiIsText(b: Bytes)
    requires forall i :: 0 <= i < |b| ==> b[i] <= 0x7F
    ensures ValidUtf8(b)
  {
    if b != [] {
      AsciiIsText(b[1..]);
    }
  }

  /** A destination of 256 bytes whose first five are a source length and a payload length. */
  function LongDst(): (b: Bytes)
    ensures |b| == 256
  {
    [0, 0, 0, 1, 0] + Zeros(251)
  }

  /**
   What Go and Rust write for a message that does not fit can be a well-formed frame of another message: the
   length of the destination is cut to 0, and its bytes are read as the fields that follow.
   */
  lemma CutFrameMisread() returns (m: Message, other: Message)
    ensures !InRange(m) && TextFields(m)
    ensures m != other && Strict(Serialize(m)) == Some(other)
  {
    m := Message(PROTOCOL_VERSION, 0, [], [], LongDst(), [], []);
    other := Message(PROTOCOL_VERSION, 0, [], [], [], [], Zeros(256));
    AsciiIsText(LongDst());
    assert ValidUtf8([]);
    CutBytes(m, other);
    StrictExact(Serialize(m));
  }

  lemma CutBytes(m: Message, other: Message)
    requires m == Message(PROTOCOL_VERSION, 0, [], [], LongDst(), [], [])
    requires other == Message(PROTOCOL_VERSION, 0, [], [], [], [], Zeros(256))
    ensures Serialize(m) == Serialize(other)
  {
    var head: Bytes := [PROTOCOL_VERSION, 0] + [0, 0] + [0, 0] + [0];
    assert Framed(W2, []) == [0, 0] && Framed(W1, []) == [0] && Framed(W4, []) == [0, 0, 0, 0];
    assert Framed(W1, LongDst()) == [0] + LongDst();
    assert Framed(W4, Zeros(256)) == [0, 0, 1, 0] + Zeros(256);
    hide Framed;
    assert Serialize(m) == head + (LongDst() + [0] + [0, 0, 0, 0]);
    assert Serialize(other) == head + ([0] + ([0, 0, 1, 0] + Zeros(256)));
    assert LongDst() + [0] + [0, 0, 0, 0] == [0] + ([0, 0, 1, 0] + Zeros(256));
  }
}
