/**
 The browser client's byte cursor (client/bytecursor.js): a position that moves through a view of a
 shared buffer. A thrown exception is `None` or `false`, and changes neither the cursor nor the buffer.
 Positions and sizes are numbers as the language has them: also fractions, and NaN, for which no comparison
 holds.
 */
module ByteCursor {
  import opened Wire

  // ---------------------------------------------------------------- integers as bytes

  /** The integer formats the cursor reads and writes. */
  datatype Kind = Uint8 | Int8 | Uint16 | Int16 | Uint32 | Int32 | BigUint64 | BigInt64

  function Count(kind: Kind): nat {
    match kind
    case Uint8 | Int8 => 1
    case Uint16 | Int16 => 2
    case Uint32 | Int32 => 4
    case BigUint64 | BigInt64 => 8
  }

  predicate Signed(kind: Kind) {
    kind.Int8? || kind.Int16? || kind.Int32? || kind.BigInt64?
  }

  /** The ranges the writers check (bytecursor.js:594-704). */
  function Min(kind: Kind): int {
    match kind
    case Uint8 | Uint16 | Uint32 | BigUint64 => 0
    case Int8 => -128
    case Int16 => -32768
    case Int32 => -2147483648
    case BigInt64 => -9223372036854775808
  }

  function Max(kind: Kind): int {
    match kind
    case Uint8 => 255
    case Int8 => 127
    case Uint16 => 65535
    case Int16 => 32767
    case Uint32 => 4294967295
    case Int32 => 2147483647
    case BigUint64 => 18446744073709551615
    case BigInt64 => 9223372036854775807
  }

  function Power(k: nat): (p: nat)
    ensures p > 0
  {
    if k == 0 then 1 else 256 * Power(k - 1)
  }

  /** The number a big-endian byte string stands for. */
  function Natural(b: Bytes): (n: nat)
    ensures n < Power(|b|)
  {
    if b == [] then 0 else 256 * Natural(b[..|b| - 1]) + b[|b| - 1] as nat
  }

  /** The `k` low-order base-256 digits of `n`, most significant first. */
  function Digits(n: nat, k: nat): (b: Bytes)
    ensures |b| == k
  {
    if k == 0 then [] else Digits(n / 256, k - 1) + [(n % 256) as byte]
  }

  lemma {:induction false} NaturalInverse(b: Bytes, n: nat)
    requires n < Power(|b|)
    ensures Natural(b) == n <==> b == Digits(n, |b|)
  {
    if b != [] {
      var k := |b| - 1;
      NaturalInverse(b[..k], n / 256);
      assert b == b[..k] + [b[k]];
      assert Digits(n, |b|)[..k] == Digits(n / 256, k);
    }
  }

  function Reverse(b: Bytes): (r: Bytes)
    ensures |r| == |b|
  {
    seq(|b|, i requires 0 <= i < |b| => b[|b| - 1 - i])
  }

  /** Byte order: most significant first unless `little`. */
  function Ordered(b: Bytes, little: bool): (r: Bytes)
    ensures |r| == |b|
  {
    if little then Reverse(b) else b
  }

  /** Two's complement. */
  function EncodeInt(kind: Kind, little: bool, v: int): (b: Bytes)
    requires Min(kind) <= v <= Max(kind)
    ensures |b| == Count(kind)
  {
    var size := Count(kind);
    Powers();
    Ordered(Digits(if v < 0 then v + Power(size) else v, size), little)
  }

  function DecodeInt(kind: Kind, little: bool, b: Bytes): (v: int)
    requires |b| == Count(kind)
    ensures Min(kind) <= v <= Max(kind)
  {
    var n := Natural(Ordered(b, little));
    Powers();
    if Signed(kind) && n > Max(kind) then n - Power(|b|) else n
  }

  lemma Powers()
    ensures Power(1) == 0x100 && Power(2) == 0x1_0000 && Power(4) == 0x1_0000_0000 &&
        Power(8) == 0x1_0000_0000_0000_0000
  {
    assert Power(3) == 256 * Power(2);
    assert Power(5) == 256 * Power(4);
    assert Power(7) == 256 * Power(6);
  }

  lemma OrderedInverse(b: Bytes, d: Bytes, little: bool)
    ensures Ordered(b, little) == d <==> b == Ordered(d, little)
  {
    assert Reverse(Reverse(b)) == b && Reverse(Reverse(d)) == d;
  }

  /** Reading and writing an integer are inverse, in every format and byte order. */
  lemma IntInverse(kind: Kind, little: bool, b: Bytes, v: int)
    requires |b| == Count(kind) && Min(kind) <= v <= Max(kind)
    ensures DecodeInt(kind, little, b) == v <==> b == EncodeInt(kind, little, v)
  {
    hide Natural, Digits, Ordered, Power;
    Powers();
    var n: nat := if v < 0 then v + Power(|b|) else v;
    NaturalInverse(Ordered(b, little), n);
    OrderedInverse(b, Digits(n, |b|), little);
  }

  lemma Quotients(n: int, p: nat)
    requires p > 0
    ensures n / 256 / p == n / (256 * p)
  {
    var q, r := n / (256 * p), n % (256 * p);
    assert n == q * (256 * p) + r && 0 <= r < 256 * p;
    assert r / 256 < p by { assert 256 * (r / 256) <= r; }
    assert n / 256 == q * p + r / 256;
    Divides(q, r / 256, p);
  }

  lemma {:induction false} Multiples(e: nat, p: nat)
    ensures e > 0 ==> e * p >= p
  {
    if e > 1 {
      Multiples(e - 1, p);
      assert e * p == (e - 1) * p + p;
    }
  }

  lemma Divides(q: int, r: nat, p: nat)
    requires r < p
    ensures (q * p + r) / p == q
  {
    var x := q * p + r;
    var d, m := x / p, x % p;
    assert x == d * p + m && 0 <= m < p;
    if d >= q {
      assert (d - q) * p == r - m;
      Multiples(d - q, p);
    } else {
      assert (q - d) * p == m - r;
      Multiples(q - d, p);
    }
  }

  lemma {:induction false} DigitAt(n: nat, size: nat, k: nat)
    requires k < size
    ensures Digits(n, size)[size - 1 - k] as nat == n / Power(k) % 256
  {
    if k > 0 {
      DigitAt(n / 256, size - 1, k - 1);
      Quotients(n, Power(k - 1));
    }
  }

  lemma {:induction false} PowersAdd(j: nat, k: nat)
    ensures Power(j + k) == Power(j) * Power(k)
  {
    if j > 0 {
      PowersAdd(j - 1, k);
      assert Power(j + k) == 256 * (Power(j - 1) * Power(k));
    }
  }

  /** Whole multiples of 256 more make no difference to a digit. */
  lemma SameDigit(v: int, size: nat, k: nat)
    requires k < size
    ensures (v + Power(size)) / Power(k) % 256 == v / Power(k) % 256
  {
    hide Power;
    PowersAdd(size - k, k);
    var p, more := Power(k), Power(size - k - 1);
    NextPower(size - k - 1);
    AddMultiple(v, p, more);
  }

  lemma NextPower(k: nat)
    ensures Power(k + 1) == 256 * Power(k)
  {
  }

  lemma AddMultiple(v: int, p: nat, more: nat)
    requires p > 0
    ensures (v + 256 * more * p) / p % 256 == v / p % 256
  {
    var q, r := v / p, v % p;
    assert v == q * p + r;
    assert v + 256 * more * p == (q + 256 * more) * p + r;
    Divides(q + 256 * more, r, p);
  }

  /**
   What the bytes are: the `k`-th in order of significance is the `k`-th base-256 digit of the integer, rounding
   down, which for negative ones is two's complement; and little-endian is least significant first.
   */
  lemma BytesAre(kind: Kind, little: bool, v: int, k: nat)
    requires Min(kind) <= v <= Max(kind) && k < Count(kind)
    ensures EncodeInt(kind, little, v)[if little then k else Count(kind) - 1 - k] as int == v / Power(k) % 256
  {
    hide Digits, Power;
    Powers();
    var size := Count(kind);
    DigitAt(if v < 0 then v + Power(size) else v, size, k);
    SameDigit(v, size, k);
  }

  // ---------------------------------------------------------------- numbers

  datatype Number = Num(value: real) | NaN

  function Add(a: Number, b: Number): Number {
    if a.Num? && b.Num? then Num(a.value + b.value) else NaN
  }

  function Subtract(a: Number, b: Number): Number {
    if a.Num? && b.Num? then Num(a.value - b.value) else NaN
  }

  predicate Below(a: Number, b: Number) {
    a.Num? && b.Num? && a.value < b.value
  }

  function Whole(n: int): Number {
    Num(n as real)
  }

  /** What the view and the array constructor make of a number: fractions are cut off, and NaN is 0. */
  function Index(n: Number): nat {
    if n.Num? && n.value >= 0.0 then n.value.Floor else 0
  }

  // ---------------------------------------------------------------- positions

  /** check (bytecursor.js:236-252) passes. */
  predicate Checks(length: nat, pos: Number, size: Number) {
    !Below(pos, Whole(0)) && !Below(size, Whole(0)) && !Below(Whole(length), Add(pos, size))
  }

  datatype Move = Rewind | Seek(arg: Number) | Skip(arg: Number) | Advance(arg: Number)

  /** Where a move leaves the cursor; a move that throws leaves it where it was. */
  function Moved(length: nat, cursor: Number, m: Move): Number {
    match m
    case Rewind => Whole(0)
    case Seek(pos) => if Checks(length, pos, Whole(0)) then pos else cursor
    case Skip(n) => if Checks(length, Add(cursor, n), Whole(0)) then Add(cursor, n) else cursor
    case Advance(size) => if Checks(length, cursor, size) then Add(cursor, size) else cursor
  }

  function Walk(length: nat, moves: seq<Move>): Number {
    if moves == [] then Whole(0) else Moved(length, Walk(length, moves[..|moves| - 1]), moves[|moves| - 1])
  }

  predicate InView(length: nat, cursor: Number) {
    cursor.Num? && 0.0 <= cursor.value <= length as real
  }

  predicate TakesNaN(m: Move) {
    !m.Rewind? && m.arg.NaN?
  }

  lemma MovedInView(length: nat, cursor: Number, m: Move)
    requires InView(length, cursor)
    ensures InView(length, Moved(length, cursor, m)) <==> !TakesNaN(m)
  {
  }

  /** The cursor has been in the view all along exactly if no move was given NaN. */
  lemma {:induction false} RangeIff(length: nat, moves: seq<Move>)
    ensures (forall i :: 0 <= i <= |moves| ==> InView(length, Walk(length, moves[..i]))) <==>
        (forall m :: m in moves ==> !TakesNaN(m))
  {
    if moves == [] {
      assert Walk(length, moves[..0]) == Whole(0);
    } else {
      var n := |moves| - 1;
      var front := moves[..n];
      RangeIff(length, front);
      assert moves == front + [moves[n]];
      forall i | 0 <= i <= n
        ensures moves[..i] == front[..i]
      {
      }
      assert front[..n] == front && moves[..n + 1] == moves;
      if InView(length, Walk(length, front)) {
        MovedInView(length, Walk(length, front), moves[n]);
      }
      assert Walk(length, moves[..n + 1]) == Moved(length, Walk(length, front), moves[n]);
    }
  }

  // ---------------------------------------------------------------- the cursor

  /** `src` put at `at`, everything else as it was. */
  function Splice(b: Bytes, at: nat, src: Bytes): (r: Bytes)
    requires at + |src| <= |b|
    ensures |r| == |b| && r[at..at + |src|] == src
    ensures forall i :: 0 <= i < |b| && !(at <= i < at + |src|) ==> r[i] == b[i]
  {
    b[..at] + src + b[at + |src|..]
  }

  /** A Uint8Array: a window on a buffer, not a copy. */
  datatype Uint8Array = Uint8Array(buffer: array<byte>, from: nat, length: nat) {
    ghost predicate Valid() {
      from + length <= buffer.Length
    }

    ghost function Contents(): Bytes
      requires Valid()
      reads buffer
    {
      buffer[from..from + length]
    }
  }

  class Cursor {
    const buffer: array<byte>
    const offset: nat
    const length: nat
    var cursor: Number

    ghost predicate Valid()
      reads this
    {
      offset + length <= buffer.Length && (cursor.Num? ==> InView(length, cursor))
    }

    /** The bytes of the view. */
    ghost function View(): (b: Bytes)
      requires Valid()
      reads this, buffer
      ensures |b| == length
    {
      buffer[offset..offset + length]
    }

    constructor (buffer: array<byte>, offset: nat, length: nat)
      requires offset + length <= buffer.Length
      ensures Valid() && this.buffer == buffer && this.offset == offset && this.length == length && cursor == Whole(0)
    {
      this.buffer, this.offset, this.length, this.cursor := buffer, offset, length, Whole(0);
    }

    /** bytecursor (bytecursor.js:179-220): the view defaults to the rest of the buffer. */
    static method Make(buffer: array<byte>, viewOffset: int, viewLength: Option<int>) returns (c: Option<Cursor>)
      ensures c.Some? <==>
                && 0 <= viewOffset <= buffer.Length
                && (viewLength.Some? ==> viewLength.value >= 0 && viewOffset + viewLength.value <= buffer.Length)
      ensures c.Some? ==> fresh(c.value) && c.value.Valid() && c.value.cursor == Whole(0) && c.value.buffer == buffer
      ensures c.Some? ==> c.value.offset == viewOffset
      ensures c.Some? ==> c.value.length == if viewLength.Some? then viewLength.value else buffer.Length - viewOffset
    {
      if viewOffset < 0 || viewOffset > buffer.Length {
        return None;
      }
      var actual := buffer.Length - viewOffset;
      if viewLength.Some? {
        if viewLength.value < 0 || viewOffset + viewLength.value > buffer.Length {
          return None;
        }
        actual := viewLength.value;
      }
      var cursor := new Cursor(buffer, viewOffset, actual);
      return Some(cursor);
    }

    /** check (bytecursor.js:236-252): a range that is out of bounds fails, one with NaN in it never does. */
    method Check(pos: Number, size: Number) returns (ok: bool)
      requires Valid()
      ensures ok == Checks(length, pos, size)
      ensures pos.Num? && size.Num? ==>
          (ok <==> 0.0 <= pos.value && 0.0 <= size.value && pos.value + size.value <= length as real)
    {
      if Below(pos, Whole(0)) {
        return false;
      }
      if Below(size, Whole(0)) {
        return false;
      }
      return !Below(Whole(length), Add(pos, size));
    }

    /** advance (bytecursor.js:262-267). */
    method Advance(size: Number) returns (pos: Option<Number>)
      requires Valid()
      modifies this`cursor
      ensures Valid() && cursor == Moved(length, old(cursor), Move.Advance(size))
      ensures pos == if Checks(length, old(cursor), size) then Some(old(cursor)) else None
      ensures cursor == if pos.Some? then Add(old(cursor), size) else old(cursor)
    {
      var ok := Check(cursor, size);
      if !ok {
        return None;
      }
      pos := Some(cursor);
      cursor := Add(cursor, size);
    }

    method Rewind()
      requires Valid()
      modifies this`cursor
      ensures Valid() && cursor == Whole(0)
    {
      cursor := Whole(0);
    }

    /** seek (bytecursor.js:300-304): the end of the view is a position too, and so, unchecked, is NaN. */
    method Seek(pos: Number) returns (ok: bool)
      requires Valid()
      modifies this`cursor
      ensures Valid() && cursor == Moved(length, old(cursor), Move.Seek(pos))
      ensures ok <==> pos.NaN? || InView(length, pos)
      ensures cursor == if ok then pos else old(cursor)
    {
      ok := Check(pos, Whole(0));
      if ok {
        cursor := pos;
      }
    }

    /** skip (bytecursor.js:315-319). */
    method Skip(n: Number) returns (ok: bool)
      requires Valid()
      modifies this`cursor
      ensures Valid() && cursor == Moved(length, old(cursor), Move.Skip(n))
      ensures ok <==> Add(old(cursor), n).NaN? || InView(length, Add(old(cursor), n))
      ensures cursor == if ok then Add(old(cursor), n) else old(cursor)
    {
      ok := Check(Add(cursor, n), Whole(0));
      if ok {
        cursor := Add(cursor, n);
      }
    }

    /** eof (bytecursor.js:327-329): at the end, but never past it; NaN is not at the end. */
    method Eof() returns (end: bool)
      requires Valid()
      ensures end <==> cursor == Whole(length)
    {
      return cursor.Num? && !Below(cursor, Whole(length));
    }

    /** Where in the buffer the array constructor starts for a position: NaN makes it the buffer's own start. */
    function Start(pos: Number): nat {
      if pos.NaN? then 0 else offset + Index(pos)
    }

    /** getBytes (bytecursor.js:381-391): a window on the buffer; by default, the rest of the view. */
    method GetBytes(len: Option<Number>) returns (bytes: Option<Uint8Array>)
      requires Valid()
      modifies this`cursor
      ensures var size := if len.Some? then len.value else Subtract(Whole(length), old(cursor));
              && Valid() && cursor == Moved(length, old(cursor), Move.Advance(size))
              && (bytes.Some? ==>
                    bytes.value == Uint8Array(buffer, Start(old(cursor)), Index(size)) && bytes.value.Valid())
              && (bytes.Some? <==>
                    Checks(length, old(cursor), size) && Start(old(cursor)) + Index(size) <= buffer.Length)
              && (old(cursor).Num? ==> (bytes.Some? <==> Checks(length, old(cursor), size)))
    {
      var size := if len.Some? then len.value else Subtract(Whole(length), cursor);
      FloorsFit(length, cursor, size);
      var pos := Advance(size);
      if pos.None? {
        return None;
      }
      var from, count := Start(pos.value), Index(size);
      if from + count > buffer.Length {
        return None;
      }
      return Some(Uint8Array(buffer, from, count));
    }

    /** The write at `at` in the buffer. */
    method Store(at: nat, src: Bytes)
      requires at + |src| <= buffer.Length
      modifies buffer
      ensures buffer[..] == Splice(old(buffer[..]), at, src)
    {
      forall i | 0 <= i < |src| {
        buffer[at + i] := src[i];
      }
    }

    /** writeBytes (bytecursor.js:400-411). The source may overlap the place it is written to. */
    method WriteBytes(bytes: Uint8Array) returns (ok: bool)
      requires Valid() && bytes.Valid()
      modifies this`cursor, buffer
      ensures Valid() && cursor == Moved(length, old(cursor), Move.Advance(Whole(bytes.length)))
      ensures ok <==> if old(cursor).Num? then old(cursor).value + bytes.length as real <= length as real
                      else bytes.length <= buffer.Length
      ensures ok ==> Start(old(cursor)) + bytes.length <= buffer.Length
      ensures buffer[..] ==
              if ok then Splice(old(buffer[..]), Start(old(cursor)), old(bytes.Contents())) else old(buffer[..])
    {
      FloorsFit(length, cursor, Whole(bytes.length));
      var pos := Advance(Whole(bytes.length));
      if pos.None? {
        return false;
      }
      var from := Start(pos.value);
      if from + bytes.length > buffer.Length {
        return false;
      }
      Store(from, bytes.buffer[bytes.from..bytes.from + bytes.length]);
      return true;
    }

    /** There is room for `size` bytes at the cursor; the view itself takes NaN for its start. */
    predicate Fits(size: nat)
      reads this
    {
      if cursor.Num? then cursor.value + size as real <= length as real else size <= length
    }

    /** The integer getters (bytecursor.js:480-558). */
    method GetInt(kind: Kind, little: bool) returns (v: Option<int>)
      requires Valid()
      modifies this`cursor
      ensures Valid() && cursor == Moved(length, old(cursor), Move.Advance(Whole(Count(kind))))
      ensures v.Some? <==> old(Fits(Count(kind)))
      ensures v.Some? ==>
                var at := offset + Index(old(cursor));
                at + Count(kind) <= buffer.Length && v.value == DecodeInt(kind, little, buffer[at..at + Count(kind)])
    {
      hide DecodeInt;
      FloorsFit(length, cursor, Whole(Count(kind)));
      var pos := Advance(Whole(Count(kind)));
      if pos.None? {
        return None;
      }
      var index := Index(pos.value);
      if index + Count(kind) > length {
        return None;
      }
      var at := offset + index;
      return Some(DecodeInt(kind, little, buffer[at..at + Count(kind)]));
    }

    /** The integer writers (bytecursor.js:594-704): the value is checked before the position. */
    method WriteInt(kind: Kind, v: int, little: bool) returns (ok: bool)
      requires Valid()
      modifies this`cursor, buffer
      ensures Valid()
      ensures ok <==> Min(kind) <= v <= Max(kind) && old(Fits(Count(kind)))
      ensures cursor == if ok then Moved(length, old(cursor), Move.Advance(Whole(Count(kind)))) else old(cursor)
      ensures ok ==> offset + Index(old(cursor)) + Count(kind) <= buffer.Length
      ensures buffer[..] ==
              if ok then Splice(old(buffer[..]), offset + Index(old(cursor)), EncodeInt(kind, little, v))
              else old(buffer[..])
    {
      hide EncodeInt;
      if v < Min(kind) || v > Max(kind) {
        return false;
      }
      FloorsFit(length, cursor, Whole(Count(kind)));
      var pos := Advance(Whole(Count(kind)));
      if pos.None? {
        return false;
      }
      var index := Index(pos.value);
      if index + Count(kind) > length {
        return false;
      }
      Store(offset + index, EncodeInt(kind, little, v));
      return true;
    }

    /** What was written is read back from the same place, and the cursor ends where the write left it. */
    method Reread(kind: Kind, v: int, little: bool) returns (r: Option<int>)
      requires Valid()
      modifies this`cursor, buffer
      ensures Valid()
      ensures r == if Min(kind) <= v <= Max(kind) && old(Fits(Count(kind))) then Some(v) else None
      ensures cursor == if r.Some? then Moved(length, old(cursor), Move.Advance(Whole(Count(kind)))) else old(cursor)
      ensures var at := offset + Index(old(cursor));
              forall i :: 0 <= i < buffer.Length && !(at <= i < at + Count(kind)) ==> buffer[i] == old(buffer[i])
    {
      hide EncodeInt, DecodeInt;
      ghost var was := buffer[..];
      var start := cursor;
      var ok := WriteInt(kind, v, little);
      assert forall i :: 0 <= i < buffer.Length ==> buffer[i] == buffer[..][i] && old(buffer[i]) == was[i];
      if !ok {
        return None;
      }
      ghost var at := offset + Index(start);
      IntInverse(kind, little, buffer[at..at + Count(kind)], v);
      assert buffer[at..at + Count(kind)] == EncodeInt(kind, little, v);
      ok := Seek(start);
      r := GetInt(kind, little);
    }
  }

  /** Cutting off fractions keeps a checked range inside the view. */
  lemma FloorsFit(length: nat, pos: Number, size: Number)
    ensures pos.Num? && size.Num? && Checks(length, pos, size) ==> Index(pos) + Index(size) <= length
    ensures pos.Num? && size.NaN? && InView(length, pos) ==> Index(pos) + Index(size) <= length
    ensures forall n: nat :: Index(Whole(n)) == n
  {
  }

  /** At whole positions the cursor counts as one expects. */
  lemma WholeMoves(length: nat, start: nat, size: nat)
    ensures Index(Whole(start)) == start && Index(Whole(size)) == size
    ensures Checks(length, Whole(start), Whole(size)) <==> start + size <= length
    ensures start as real + size as real <= length as real <==> start + size <= length
    ensures Moved(length, Whole(start), Move.Advance(Whole(size))) ==
        Whole(if start + size <= length then start + size else start)
  {
  }
}
