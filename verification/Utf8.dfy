/**
  Well-formed UTF-8 as RFC 3629 defines it (section 4), with its meaning: a byte
  string is well-formed exactly if it encodes a sequence of scalar values, and then
  it encodes only that one.
 */
module Utf8 {
  type Byte = n: int | 0 <= n < 256

  type Bytes = seq<Byte>

  type Scalar = n: int | 0 <= n < 0xD800 || 0xE000 <= n < 0x110000

  /** The last six bits in a continuation byte, and putting them back. */
  function Low(c: nat): Byte {
    0x80 + c % 64
  }

  function Join(high: nat, b: Byte): nat
    requires Tail(b)
  {
    high * 64 + (b - 0x80)
  }

  lemma SixBits(c: nat, b: Byte)
    ensures Tail(Low(c)) && Join(c / 64, Low(c)) == c
    ensures Tail(b) ==> Join(c, b) / 64 == c && Low(Join(c, b)) == b
  {
  }

  function Encode(c: Scalar): (b: Bytes)
    ensures b != []
  {
    if c < 0x80 then [c]
    else if c < 0x800 then [0xC0 + c / 64, Low(c)]
    else if c < 0x10000 then [0xE0 + c / 64 / 64, Low(c / 64), Low(c)]
    else [0xF0 + c / 64 / 64 / 64, Low(c / 64 / 64), Low(c / 64), Low(c)]
  }

  function EncodeAll(cs: seq<Scalar>): Bytes {
    if cs == [] then [] else Encode(cs[0]) + EncodeAll(cs[1..])
  }

  predicate Tail(b: Byte) {
    0x80 <= b < 0xC0
  }

  /** The range of the second byte narrows after four lead bytes. */
  predicate Second(lead: Byte, b: Byte) {
    Tail(b)
    && (lead == 0xE0 ==> 0xA0 <= b) && (lead == 0xED ==> b < 0xA0)
    && (lead == 0xF0 ==> 0x90 <= b) && (lead == 0xF4 ==> b < 0x90)
  }

  /** How many bytes the well-formed character at the front has; 0 if there is none. */
  function Length(b: Bytes): (n: nat)
    ensures n <= 4 && n <= |b|
  {
    if b == [] then 0
    else if b[0] < 0x80 then 1
    else if 0xC2 <= b[0] < 0xE0 && 1 < |b| && Tail(b[1]) then 2
    else if 0xE0 <= b[0] < 0xF0 && 2 < |b| && Second(b[0], b[1]) && Tail(b[2]) then 3
    else if 0xF0 <= b[0] < 0xF5 && 3 < |b| && Second(b[0], b[1]) && Tail(b[2]) && Tail(b[3]) then 4
    else 0
  }

  predicate WellFormed(b: Bytes) {
    b == [] || (Length(b) > 0 && WellFormed(b[Length(b)..]))
  }

  function DecodeOne(b: Bytes): Scalar
    requires Length(b) > 0
  {
    match Length(b)
    case 1 => b[0]
    case 2 => Join(b[0] as int - 0xC0, b[1])
    case 3 => Join(Join(b[0] as int - 0xE0, b[1]), b[2])
    case _ => Join(Join(Join(b[0] as int - 0xF0, b[1]), b[2]), b[3])
  }

  function Decode(b: Bytes): seq<Scalar>
    requires WellFormed(b)
  {
    if b == [] then [] else [DecodeOne(b)] + Decode(b[Length(b)..])
  }

  lemma EncodedOne(c: Scalar, rest: Bytes)
    ensures var b := Encode(c) + rest;
            Length(b) == |Encode(c)| && DecodeOne(b) == c && b[Length(b)..] == rest
  {
    var b := Encode(c) + rest;
    assert b[|Encode(c)|..] == rest;
    SixBits(c, 0x80);
    SixBits(c / 64, 0x80);
    SixBits(c / 64 / 64, 0x80);
    hide Low, Join;
  }

  lemma DecodedOne(b: Bytes)
    requires Length(b) > 0
    ensures Encode(DecodeOne(b)) == b[..Length(b)]
  {
    match Length(b)
    case 1 =>
    case 2 =>
      SixBits(b[0] as int - 0xC0, b[1]);
    case 3 =>
      SixBits(b[0] as int - 0xE0, b[1]);
      SixBits(Join(b[0] as int - 0xE0, b[1]), b[2]);
    case _ =>
      SixBits(b[0] as int - 0xF0, b[1]);
      SixBits(Join(b[0] as int - 0xF0, b[1]), b[2]);
      SixBits(Join(Join(b[0] as int - 0xF0, b[1]), b[2]), b[3]);
  }

  /** What is encoded is well-formed and decodes to itself. */
  lemma {:induction false} EncodedIsWellFormed(cs: seq<Scalar>)
    ensures WellFormed(EncodeAll(cs)) && Decode(EncodeAll(cs)) == cs
  {
    if cs != [] {
      EncodedIsWellFormed(cs[1..]);
      EncodedOne(cs[0], EncodeAll(cs[1..]));
    }
  }

  /** What is well-formed is an encoding. */
  lemma {:induction false} WellFormedIsEncoded(b: Bytes)
    requires WellFormed(b)
    ensures EncodeAll(Decode(b)) == b
  {
    if b != [] {
      WellFormedIsEncoded(b[Length(b)..]);
      DecodedOne(b);
      assert b == b[..Length(b)] + b[Length(b)..];
    }
  }

  /** An ASCII byte is never inside another character, so text may be cut there. */
  lemma {:induction false} CutAtAscii(a: Bytes, c: Byte, b: Bytes)
    requires c < 0x80 && WellFormed(a + [c] + b)
    ensures WellFormed(a) && WellFormed(b)
    decreases |a|
  {
    var s := a + [c] + b;
    var n := Length(s);
    if a == [] {
      assert s[1..] == b;
    } else {
      assert s[|a|] == c && n <= |a|;
      assert Length(a) == n;
      assert s[n..] == a[n..] + [c] + b;
      CutAtAscii(a[n..], c, b);
    }
  }

  lemma {:induction false} AsciiBefore(ascii: Bytes, b: Bytes)
    requires (forall i | 0 <= i < |ascii| :: ascii[i] < 0x80) && WellFormed(b)
    ensures WellFormed(ascii + b)
  {
    if ascii == [] {
      assert ascii + b == b;
    } else {
      AsciiBefore(ascii[1..], b);
      assert (ascii + b)[1..] == ascii[1..] + b;
    }
  }
}
