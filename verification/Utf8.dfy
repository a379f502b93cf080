/**
 What well-formed text is, from the other side: the byte strings that encode a sequence of Unicode scalar
 values (section 3 of RFC 3629). Every decoder that checks its text accepts exactly these.
 */
module Utf8 {
  import opened Wire

  /** A code point that is not a surrogate. */
  predicate Scalar(c: nat) {
    c <= 0x10_FFFF && !(0xD800 <= c <= 0xDFFF)
  }

  predicate Scalars(cs: seq<nat>) {
    forall i :: 0 <= i < |cs| ==> Scalar(cs[i])
  }

  /** Six bits of a code point, `shift` being a power of 64. */
  function Six(c: nat, shift: nat): byte
    requires shift > 0
  {
    (0x80 + c / shift % 0x40) as byte
  }

  function Encode(c: nat): (b: Bytes)
    requires Scalar(c)
    ensures 1 <= |b| <= 4
  {
    if c < 0x80 then [c as byte]
    else if c < 0x800 then [(0xC0 + c / 0x40) as byte, Six(c, 1)]
    else if c < 0x1_0000 then [(0xE0 + c / 0x1000) as byte, Six(c, 0x40), Six(c, 1)]
    else [(0xF0 + c / 0x4_0000) as byte, Six(c, 0x1000), Six(c, 0x40), Six(c, 1)]
  }

  function EncodeAll(cs: seq<nat>): Bytes
    requires Scalars(cs)
  {
    if cs == [] then [] else Encode(cs[0]) + EncodeAll(cs[1..])
  }

  /** The scalar value whose encoding a well-formed sequence is. */
  function Decode(b: Bytes): nat {
    match SequenceLength(b)
    case 0 => 0
    case 1 => b[0] as nat
    case 2 => (b[0] as nat - 0xC0) * 0x40 + (b[1] as nat - 0x80)
    case 3 => (b[0] as nat - 0xE0) * 0x1000 + (b[1] as nat - 0x80) * 0x40 + (b[2] as nat - 0x80)
    case _ =>
      (b[0] as nat - 0xF0) * 0x4_0000 + (b[1] as nat - 0x80) * 0x1000
      + (b[2] as nat - 0x80) * 0x40 + (b[3] as nat - 0x80)
  }

  /** A string that starts with the encoding of a scalar value starts with a well-formed sequence of its length. */
  lemma EncodingFormed(c: nat, rest: Bytes)
    requires Scalar(c)
    ensures SequenceLength(Encode(c) + rest) == |Encode(c)|
  {
    var b := Encode(c) + rest;
    assert forall i :: 0 <= i < |Encode(c)| ==> b[i] == Encode(c)[i];
  }

  lemma Digits(high: nat, low: nat)
    requires low < 0x40
    ensures (high * 0x40 + low) / 0x40 == high && (high * 0x40 + low) % 0x40 == low
  {
  }

  lemma Formed3(b: Bytes)
    requires SequenceLength(b) == 3
    ensures Scalar(Decode(b)) && b[..3] == Encode(Decode(b))
  {
    var high := (b[0] as nat - 0xE0) * 0x40 + (b[1] as nat - 0x80);
    Digits(b[0] as nat - 0xE0, b[1] as nat - 0x80);
    Digits(high, b[2] as nat - 0x80);
    assert Decode(b) == high * 0x40 + (b[2] as nat - 0x80);
    assert Decode(b) / 0x1000 == high / 0x40;
    assert b[..3] == [b[0], b[1], b[2]];
  }

  lemma Formed4(b: Bytes)
    requires SequenceLength(b) == 4
    ensures Scalar(Decode(b)) && b[..4] == Encode(Decode(b))
  {
    var high := (b[0] as nat - 0xF0) * 0x40 + (b[1] as nat - 0x80);
    var mid := high * 0x40 + (b[2] as nat - 0x80);
    Digits(b[0] as nat - 0xF0, b[1] as nat - 0x80);
    Digits(high, b[2] as nat - 0x80);
    Digits(mid, b[3] as nat - 0x80);
    assert Decode(b) == mid * 0x40 + (b[3] as nat - 0x80);
    assert Decode(b) / 0x1000 == mid / 0x40 && Decode(b) / 0x4_0000 == high / 0x40;
    assert 0x1_0000 <= Decode(b) < 0x11_0000;
    assert b[..4] == [b[0], b[1], b[2], b[3]];
  }

  /** And a well-formed sequence is the encoding of a scalar value. */
  lemma FormedEncodes(b: Bytes)
    requires SequenceLength(b) > 0
    ensures Scalar(Decode(b)) && b[..SequenceLength(b)] == Encode(Decode(b))
  {
    match SequenceLength(b)
    case 1 => assert b[..1] == [b[0]];
    case 2 =>
      Digits(b[0] as nat - 0xC0, b[1] as nat - 0x80);
      assert b[..2] == [b[0], b[1]];
    case 3 => Formed3(b);
    case _ => Formed4(b);
  }

  lemma {:induction false} EncodedIsText(cs: seq<nat>)
    requires Scalars(cs)
    ensures ValidUtf8(EncodeAll(cs))
  {
    hide Encode, SequenceLength;
    if cs != [] {
      EncodedIsText(cs[1..]);
      EncodingFormed(cs[0], EncodeAll(cs[1..]));
      assert EncodeAll(cs)[|Encode(cs[0])|..] == EncodeAll(cs[1..]);
    }
  }

  lemma {:induction false} TextIsEncoded(b: Bytes) returns (cs: seq<nat>)
    requires ValidUtf8(b)
    ensures Scalars(cs) && b == EncodeAll(cs)
    decreases |b|
  {
    hide Encode, SequenceLength, Decode;
    if b == [] {
      cs := [];
    } else {
      var n := SequenceLength(b);
      var rest := TextIsEncoded(b[n..]);
      FormedEncodes(b);
      cs := [Decode(b)] + rest;
      assert cs[1..] == rest && b == b[..n] + b[n..];
    }
  }

  /** A byte string is text exactly if it encodes a sequence of scalar values. */
  lemma TextExact(b: Bytes)
    ensures ValidUtf8(b) <==> exists cs :: Scalars(cs) && b == EncodeAll(cs)
  {
    if ValidUtf8(b) {
      var cs := TextIsEncoded(b);
    }
    if cs :| Scalars(cs) && b == EncodeAll(cs) {
      EncodedIsText(cs);
    }
  }

  /** And of one only. */
  lemma {:induction false} OneReading(cs: seq<nat>, ds: seq<nat>)
    requires Scalars(cs) && Scalars(ds) && EncodeAll(cs) == EncodeAll(ds)
    ensures cs == ds
  {
    hide Encode, SequenceLength;
    if cs != [] && ds != [] {
      var x, y := EncodeAll(cs[1..]), EncodeAll(ds[1..]);
      EncodingFormed(cs[0], x);
      EncodingFormed(ds[0], y);
      var b := Encode(cs[0]) + x;
      assert b[..|Encode(cs[0])|] == Encode(cs[0]) && b[|Encode(cs[0])|..] == x;
      assert b == Encode(ds[0]) + y;
      assert b[..|Encode(ds[0])|] == Encode(ds[0]) && b[|Encode(ds[0])|..] == y;
      OneScalar(cs[0], ds[0]);
      OneReading(cs[1..], ds[1..]);
      assert cs == [cs[0]] + cs[1..] && ds == [ds[0]] + ds[1..];
    }
  }

  lemma OneScalar(c: nat, d: nat)
    requires Scalar(c) && Scalar(d) && Encode(c) == Encode(d)
    ensures c == d
  {
    EncodingFormed(c, []);
    EncodingFormed(d, []);
    Decoded(c);
    Decoded(d);
  }

  lemma Decoded(c: nat)
    requires Scalar(c)
    ensures Decode(Encode(c)) == c
  {
    EncodingFormed(c, []);
    assert Encode(c) + [] == Encode(c);
    if 0x80 <= c {
      assert c == c / 0x40 * 0x40 + c % 0x40;
      assert c / 0x40 / 0x40 == c / 0x1000 && c / 0x1000 / 0x40 == c / 0x4_0000;
      assert c / 0x40 == c / 0x1000 * 0x40 + c / 0x40 % 0x40;
      assert c / 0x1000 == c / 0x4_0000 * 0x40 + c / 0x1000 % 0x40;
    }
  }
}
