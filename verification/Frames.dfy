/** RESP3 frames, as far as the client looks inside them. */
module Frames {
  import opened Prelude

  newtype byte = x: int | 0 <= x < 256

  type Bytes = seq<byte>

  /** `Other` stands for the frame kinds that no conversion accepts (HELLO and chunked strings). */
  datatype Frame =
    | Null
    | SimpleString(data: Bytes)
    | BlobString(data: Bytes)
    | VerbatimString(data: Bytes)
    | BigNumber(data: Bytes)
    | SimpleError(data: Bytes)
    | BlobError(data: Bytes)
    | Number(n: int)
    | Double(d: real)
    | Boolean(b: bool)
    | Array(items: seq<Frame>)
    | Push(items: seq<Frame>)
    | Set(items: seq<Frame>)
    | Map(entries: seq<Entry>)
    | Other

  /** A map frame lists its entries in the iteration order of the hash map behind it. */
  datatype Entry = Entry(key: Frame, value: Frame)

  predicate IsError(f: Frame) {
    f.SimpleError? || f.BlobError?
  }

  /** The length of the well-formed UTF-8 sequence that starts `b`, or 0 (table 3-7 of the Unicode standard). */
  function Utf8Head(b: Bytes): (n: nat)
    requires b != []
    ensures n <= |b|
  {
    var c := b[0];
    if c < 0x80 then 1
    else if 0xC2 <= c <= 0xDF && |b| >= 2 && Continues(b[1]) then 2
    else if 0xE0 <= c <= 0xEF && |b| >= 3 && Continues(b[1]) && Continues(b[2])
            && (c == 0xE0 ==> b[1] >= 0xA0) && (c == 0xED ==> b[1] <= 0x9F) then 3
    else if 0xF0 <= c <= 0xF4 && |b| >= 4 && Continues(b[1]) && Continues(b[2]) && Continues(b[3])
            && (c == 0xF0 ==> b[1] >= 0x90) && (c == 0xF4 ==> b[1] <= 0x8F) then 4
    else 0
  }

  predicate Continues(b: byte) {
    0x80 <= b <= 0xBF
  }

  predicate ValidUtf8(b: Bytes) {
    b == [] || (Utf8Head(b) > 0 && ValidUtf8(b[Utf8Head(b)..]))
  }

  lemma {:induction false} AsciiIsUtf8(b: Bytes)
    requires forall i :: 0 <= i < |b| ==> b[i] < 0x80
    ensures ValidUtf8(b)
  {
    if b != [] {
      AsciiIsUtf8(b[1..]);
    }
  }

  // ---- UTF-8 is the encoding of code points ----

  predicate IsScalar(c: nat) {
    c < 0xD800 || 0xE000 <= c < 0x11_0000
  }

  /** The encoding of one code point (table 3-6 of the Unicode standard). */
  function Encode(c: nat): Bytes
    requires IsScalar(c)
  {
    if c < 0x80 then [c as byte]
    else if c < 0x800 then [(0xC0 + c / 64) as byte, Low(c)]
    else if c < 0x1_0000 then [(0xE0 + c / 4096) as byte, Low(c / 64), Low(c)]
    else [(0xF0 + c / 262144) as byte, Low(c / 4096), Low(c / 64), Low(c)]
  }

  /** The lowest six bits, marked as a continuation. */
  function Low(c: nat): byte {
    (0x80 + c % 64) as byte
  }

  ghost predicate AllScalars(cs: seq<nat>) {
    forall i :: 0 <= i < |cs| ==> IsScalar(cs[i])
  }

  function EncodeAll(cs: seq<nat>): Bytes
    requires forall i :: 0 <= i < |cs| ==> IsScalar(cs[i])
  {
    if cs == [] then [] else Encode(cs[0]) + EncodeAll(cs[1..])
  }

  lemma HeadOfEncoded(c: nat, rest: Bytes)
    requires IsScalar(c)
    ensures Utf8Head(Encode(c) + rest) == |Encode(c)| > 0
  {
    var b := Encode(c) + rest;
    assert forall i :: 0 <= i < |Encode(c)| ==> b[i] == Encode(c)[i];
    if 0x800 <= c < 0x1_0000 {
      assert c / 4096 == 0 ==> c / 64 % 64 >= 32;
      assert c / 4096 == 13 ==> c / 64 % 64 < 32;
    } else if c >= 0x1_0000 {
      assert c / 262144 == 0 ==> c / 4096 % 64 >= 16;
      assert c / 262144 == 4 ==> c / 4096 % 64 < 16;
    }
  }

  lemma SixBits(x: nat, y: nat)
    requires y < 64
    ensures (x * 64 + y) / 64 == x && (x * 64 + y) % 64 == y
  {
  }

  lemma TwoBytes(b: Bytes) returns (c: nat)
    requires |b| == 2 && 0xC2 <= b[0] <= 0xDF && Continues(b[1])
    ensures IsScalar(c) && Encode(c) == b
  {
    var x, y := b[0] as nat - 0xC0, b[1] as nat - 0x80;
    c := x * 64 + y;
    SixBits(x, y);
  }

  lemma ThreeBytes(b: Bytes) returns (c: nat)
    requires |b| == 3 && 0xE0 <= b[0] <= 0xEF && Continues(b[1]) && Continues(b[2])
    requires (b[0] == 0xE0 ==> b[1] >= 0xA0) && (b[0] == 0xED ==> b[1] <= 0x9F)
    ensures IsScalar(c) && Encode(c) == b
  {
    var x, y, z := b[0] as nat - 0xE0, b[1] as nat - 0x80, b[2] as nat - 0x80;
    var high := x * 64 + y;
    c := high * 64 + z;
    SixBits(x, y);
    SixBits(high, z);
    assert c / 4096 == x;
  }

  lemma FourBytes(b: Bytes) returns (c: nat)
    requires |b| == 4 && 0xF0 <= b[0] <= 0xF4 && Continues(b[1]) && Continues(b[2]) && Continues(b[3])
    requires (b[0] == 0xF0 ==> b[1] >= 0x90) && (b[0] == 0xF4 ==> b[1] <= 0x8F)
    ensures IsScalar(c) && Encode(c) == b
  {
    var w, x, y, z := b[0] as nat - 0xF0, b[1] as nat - 0x80, b[2] as nat - 0x80, b[3] as nat - 0x80;
    var top := w * 64 + x;
    var high := top * 64 + y;
    c := high * 64 + z;
    SixBits(w, x);
    SixBits(top, y);
    SixBits(high, z);
    assert c / 4096 == top && c / 262144 == w;
  }

  /** The code point of a head. */
  lemma HeadIsEncoded(b: Bytes) returns (c: nat)
    requires b != [] && Utf8Head(b) > 0
    ensures IsScalar(c) && Encode(c) == b[..Utf8Head(b)]
  {
    var n := Utf8Head(b);
    if n == 1 {
      c := b[0] as nat;
    } else if n == 2 {
      c := TwoBytes(b[..2]);
    } else if n == 3 {
      c := ThreeBytes(b[..3]);
    } else {
      c := FourBytes(b[..4]);
    }
  }

  lemma EncodeAllCons(c: nat, cs: seq<nat>)
    requires IsScalar(c) && AllScalars(cs)
    ensures AllScalars([c] + cs) && EncodeAll([c] + cs) == Encode(c) + EncodeAll(cs)
  {
    assert ([c] + cs)[1..] == cs;
  }

  lemma {:induction false} EncodedIsValid(cs: seq<nat>)
    requires AllScalars(cs)
    ensures ValidUtf8(EncodeAll(cs))
  {
    if cs != [] {
      var rest := EncodeAll(cs[1..]);
      HeadOfEncoded(cs[0], rest);
      assert (Encode(cs[0]) + rest)[|Encode(cs[0])|..] == rest;
      EncodedIsValid(cs[1..]);
    }
  }

  lemma {:induction false} ValidIsEncoded(b: Bytes) returns (cs: seq<nat>)
    requires ValidUtf8(b)
    ensures AllScalars(cs) && EncodeAll(cs) == b
  {
    cs := [];
    if b != [] {
      var n := Utf8Head(b);
      var c := HeadIsEncoded(b);
      var rest := ValidIsEncoded(b[n..]);
      EncodeAllCons(c, rest);
      cs := [c] + rest;
      assert b == b[..n] + b[n..];
    }
  }

  /** A byte string is text exactly if it encodes some code points. */
  lemma ValidIffEncoded(b: Bytes)
    ensures ValidUtf8(b) <==> exists cs :: AllScalars(cs) && EncodeAll(cs) == b
  {
    if ValidUtf8(b) {
      var cs := ValidIsEncoded(b);
    }
    forall cs | AllScalars(cs) && EncodeAll(cs) == b
      ensures ValidUtf8(b)
    {
      EncodedIsValid(cs);
    }
  }

  /** The text of a string-like frame. */
  function AsStr(f: Frame): Option<Bytes> {
    match f
    case SimpleError(data) => Some(data)
    case SimpleString(data) => TextOf(data)
    case BlobString(data) => TextOf(data)
    case VerbatimString(data) => TextOf(data)
    case BigNumber(data) => TextOf(data)
    case BlobError(data) => TextOf(data)
    case _ => None
  }

  function TextOf(data: Bytes): Option<Bytes> {
    if ValidUtf8(data) then Some(data) else None
  }
}
