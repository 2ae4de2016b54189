/** What a rune is: the bytes of a scalar value in UTF-8 (section 3 of RFC 3629),
    or any single byte that begins no such encoding. */
module Utf8 {
  import opened Seqs
  import opened Chunking

  predicate Scalar(r: int) { 0 <= r < 0xD800 || 0xE000 <= r <= 0x10FFFF }

  function Encode(r: int): (t: Text)
    requires Scalar(r)
    ensures 1 <= |t| <= 4
  {
    if r < 0x80 then [r]
    else if r < 0x800 then [0xC0 + r / 64, 0x80 + r % 64]
    else if r < 0x1_0000 then [0xE0 + r / 4096, 0x80 + r / 64 % 64, 0x80 + r % 64]
    else [0xF0 + r / 0x4_0000, 0x80 + r / 4096 % 64, 0x80 + r / 64 % 64, 0x80 + r % 64]
  }

  lemma Digits(r: nat)
    ensures r / 64 % 64 == r / 64 - 64 * (r / 4096) && r / 4096 % 64 == r / 4096 - 64 * (r / 0x4_0000)
  {
  }

  /** An encoding is read as one rune, whatever follows. */
  lemma EncodedWidth(r: int, u: Text)
    requires Scalar(r)
    ensures Width(Encode(r) + u) == |Encode(r)|
  {
    var t := Encode(r) + u;
    Digits(r);
    assert forall k :: 0 <= k < |Encode(r)| ==> t[k] == Encode(r)[k];
  }

  lemma TwoBytesDecode(t: Text) returns (r: int)
    requires TwoBytes(t)
    ensures Scalar(r) && Encode(r) == t[..2]
  {
    var a: int, b: int := t[0] as int - 0xC0, t[1] as int - 0x80;
    r := 64 * a + b;
    assert r / 64 == a && r % 64 == b;
  }

  lemma ThreeBytesDecode(t: Text) returns (r: int)
    requires ThreeBytes(t)
    ensures Scalar(r) && Encode(r) == t[..3]
  {
    var a: int, b: int, c: int := t[0] as int - 0xE0, t[1] as int - 0x80, t[2] as int - 0x80;
    var high := 64 * a + b;
    r := 64 * high + c;
    assert r / 64 == high && r % 64 == c && high / 64 == a && high % 64 == b;
    Nested(r);
  }

  lemma FourBytesDecode(t: Text) returns (r: int)
    requires FourBytes(t)
    ensures Scalar(r) && Encode(r) == t[..4]
  {
    var a: int, b: int, c: int, d: int := t[0] as int - 0xF0, t[1] as int - 0x80, t[2] as int - 0x80, t[3] as int - 0x80;
    var high := 64 * a + b;
    var middle := 64 * high + c;
    r := 64 * middle + d;
    assert r / 64 == middle && r % 64 == d && middle / 64 == high && middle % 64 == c && high / 64 == a && high % 64 == b;
    Nested(r);
  }

  lemma Nested(r: nat)
    ensures r / 4096 == r / 64 / 64 && r / 0x4_0000 == r / 64 / 64 / 64
  {
  }

  /** A text begins with a rune of n > 1 bytes exactly if it begins with the
      encoding of a scalar value of that length. */
  lemma WidthIff(t: Text, n: nat)
    requires t != [] && n > 1
    ensures Width(t) == n <==> exists r :: Scalar(r) && |Encode(r)| == n && Encode(r) <= t
  {
    if Width(t) == n {
      var r: int;
      if n == 2 {
        r := TwoBytesDecode(t);
      } else if n == 3 {
        r := ThreeBytesDecode(t);
      } else {
        r := FourBytesDecode(t);
      }
      assert Encode(r) <= t;
    }
    forall r | Scalar(r) && |Encode(r)| == n && Encode(r) <= t
      ensures Width(t) == n
    {
      assert t == Encode(r) + t[|Encode(r)|..];
      EncodedWidth(r, t[|Encode(r)|..]);
    }
  }

  function EncodeAll(rs: seq<int>): Text
    requires forall i :: 0 <= i < |rs| ==> Scalar(rs[i])
  {
    if rs == [] then [] else Encode(rs[0]) + EncodeAll(rs[1..])
  }

  /** Valid text has as many runes as scalar values. */
  lemma {:induction false} RunesOfValid(rs: seq<int>)
    requires forall i :: 0 <= i < |rs| ==> Scalar(rs[i])
    ensures Runes(GoDecoder, EncodeAll(rs)) == |rs|
    decreases |rs|
  {
    if rs != [] {
      var head, rest := Encode(rs[0]), EncodeAll(rs[1..]);
      EncodedWidth(rs[0], rest);
      Halves(head, rest);
      RunesOfValid(rs[1..]);
      assert Step(GoDecoder, head + rest) == |head|;
    }
  }

  /** A byte that begins no encoding counts as one rune. */
  lemma RunesOfInvalid(b: Byte, u: Text)
    requires forall r :: Scalar(r) ==> !(Encode(r) <= [b] + u)
    ensures Runes(GoDecoder, [b] + u) == 1 + Runes(GoDecoder, u)
  {
    var t := [b] + u;
    if Width(t) > 1 {
      WidthIff(t, Width(t));
    }
    Halves([b], u);
    assert Step(GoDecoder, t) == 1;
  }
}
