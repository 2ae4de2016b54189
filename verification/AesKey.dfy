/** The three forms of a media key on the wire, hexadecimal, base64 of the key
    and base64 of its hexadecimal form, and the one decoder for them. */
module AesKey {
  import opened Seqs
  import opened Aes

  type Codes = string   // text on the wire, one character a byte

  // ----- hexadecimal (section 8 of RFC 4648) -----

  function HexDigit(n: nat): char
    requires n < 16
  {
    "0123456789abcdef"[n]
  }

  /** The value of a digit in either case, or -1. */
  function HexValue(c: char): (n: int)
    ensures -1 <= n < 16
  {
    if '0' <= c <= '9' then c as int - '0' as int
    else if 'a' <= c <= 'f' then c as int - 'a' as int + 10
    else if 'A' <= c <= 'F' then c as int - 'A' as int + 10
    else -1
  }

  function EncodeHex(b: Bytes): (t: Codes)
    ensures |t| == 2 * |b|
  {
    if b == [] then "" else [HexDigit(b[0] / 16), HexDigit(b[0] % 16)] + EncodeHex(b[1..])
  }

  function DecodeHex(t: Codes): Result {
    if t == "" then Ok([])
    else if |t| == 1 || HexValue(t[0]) == -1 || HexValue(t[1]) == -1 then Err
    else
      match DecodeHex(t[2..])
      case Err => Err
      case Ok(rest) => Ok([HexValue(t[0]) * 16 + HexValue(t[1])] + rest)
  }

  /** 32 hexadecimal digits. */
  predicate HexKey(t: Codes) { |t| == 32 && forall k :: 0 <= k < |t| ==> HexValue(t[k]) != -1 }

  lemma DigitValue(n: nat)
    requires n < 16
    ensures HexValue(HexDigit(n)) == n
  {
  }

  lemma {:induction false} HexRoundTrip(b: Bytes)
    ensures DecodeHex(EncodeHex(b)) == Ok(b)
    ensures forall k :: 0 <= k < 2 * |b| ==> HexValue(EncodeHex(b)[k]) != -1
  {
    if b != [] {
      DigitValue(b[0] / 16);
      DigitValue(b[0] % 16);
      HexRoundTrip(b[1..]);
      assert EncodeHex(b)[2..] == EncodeHex(b[1..]);
    }
  }

  // ----- base64 (section 4 of RFC 4648) -----

  /** The value of a symbol of the alphabet, or -1; sym62 and sym63 are the
      two symbols in which the alphabets differ. */
  function SymbolValue(c: char, sym62: char, sym63: char): (n: int)
    ensures -1 <= n < 64
  {
    if 'A' <= c <= 'Z' then c as int - 'A' as int
    else if 'a' <= c <= 'z' then c as int - 'a' as int + 26
    else if '0' <= c <= '9' then c as int - '0' as int + 52
    else if c == sym62 then 62
    else if c == sym63 then 63
    else -1
  }

  function Symbol(n: nat): (c: char)
    requires n < 64
    ensures SymbolValue(c, '+', '/') == n && c != '=' && c != '\r' && c != '\n'
  {
    if n < 26 then (n + 'A' as int) as char
    else if n < 52 then (n - 26 + 'a' as int) as char
    else if n < 62 then (n - 52 + '0' as int) as char
    else if n == 62 then '+'
    else '/'
  }

  function Group(a: Byte, b: Byte, c: Byte): (t: Codes)
    ensures |t| == 4
  {
    [Symbol(a / 4), Symbol(a % 4 * 16 + b / 16), Symbol(b % 16 * 4 + c / 64), Symbol(c % 64)]
  }

  /** base64.StdEncoding.EncodeToString. */
  function EncodeBase64(b: Bytes): (t: Codes)
    ensures |t| == (|b| + 2) / 3 * 4
  {
    if b == [] then ""
    else if |b| == 1 then Group(b[0], 0, 0)[..2] + "=="
    else if |b| == 2 then Group(b[0], b[1], 0)[..3] + "="
    else Group(b[0], b[1], b[2]) + EncodeBase64(b[3..])
  }

  /** Line ends are skipped before decoding. */
  function WithoutLineEnds(t: Codes): (r: Codes)
    ensures |r| <= |t|
  {
    if t == "" then ""
    else if t[0] == '\r' || t[0] == '\n' then WithoutLineEnds(t[1..])
    else [t[0]] + WithoutLineEnds(t[1..])
  }

  function Value(t: Codes, k: nat, url: bool): int
    requires k < |t|
  {
    if url then SymbolValue(t[k], '-', '_') else SymbolValue(t[k], '+', '/')
  }

  type Sextet = n: int | 0 <= n < 64

  function FirstByte(v: Sextet, w: Sextet): Byte { v * 4 + w / 16 }

  function SecondByte(v: Sextet, w: Sextet): Byte { v % 16 * 16 + w / 4 }

  function ThirdByte(v: Sextet, w: Sextet): Byte { v % 4 * 64 + w }

  /** Groups of four symbols; only the last may be padded. */
  function DecodeGroups(t: Codes, url: bool): Result {
    if t == "" then Ok([])
    else if |t| < 4 || Value(t, 0, url) == -1 || Value(t, 1, url) == -1 then Err
    else
      var first := FirstByte(Value(t, 0, url), Value(t, 1, url));
      if t[2] == '=' then if t[3] == '=' && |t| == 4 then Ok([first]) else Err
      else if Value(t, 2, url) == -1 then Err
      else
        var second := SecondByte(Value(t, 1, url), Value(t, 2, url));
        if t[3] == '=' then if |t| == 4 then Ok([first, second]) else Err
        else if Value(t, 3, url) == -1 then Err
        else
          match DecodeGroups(t[4..], url)
          case Err => Err
          case Ok(rest) => Ok([first, second, ThirdByte(Value(t, 2, url), Value(t, 3, url))] + rest)
  }

  function DecodeBase64(t: Codes, url: bool): Result { DecodeGroups(WithoutLineEnds(t), url) }

  lemma {:induction false} NoLineEnds(b: Bytes)
    ensures forall k :: 0 <= k < |EncodeBase64(b)| ==> EncodeBase64(b)[k] != '\r' && EncodeBase64(b)[k] != '\n'
  {
    if |b| > 2 {
      NoLineEnds(b[3..]);
    }
  }

  lemma {:induction false} NothingSkipped(t: Codes)
    requires forall k :: 0 <= k < |t| ==> t[k] != '\r' && t[k] != '\n'
    ensures WithoutLineEnds(t) == t
  {
    if t != "" {
      NothingSkipped(t[1..]);
    }
  }

  lemma GroupValues(a: Byte, b: Byte, c: Byte, rest: Codes)
    ensures var t := Group(a, b, c) + rest;
      && Value(t, 0, false) == a / 4 && Value(t, 1, false) == a % 4 * 16 + b / 16
      && Value(t, 2, false) == b % 16 * 4 + c / 64 && Value(t, 3, false) == c % 64
      && t[2] != '=' && t[3] != '=' && t[4..] == rest
  {
    Halves(Group(a, b, c), rest);
    var g := Group(a, b, c);
    assert forall k :: 0 <= k < 4 ==> (g + rest)[k] == g[k];
  }

  lemma DecodeStep(t: Codes, v0: Sextet, v1: Sextet, v2: Sextet, v3: Sextet, tail: Bytes)
    requires |t| >= 4 && t[2] != '=' && t[3] != '='
    requires Value(t, 0, false) == v0 && Value(t, 1, false) == v1 && Value(t, 2, false) == v2 && Value(t, 3, false) == v3
    requires DecodeGroups(t[4..], false) == Ok(tail)
    ensures DecodeGroups(t, false) == Ok([FirstByte(v0, v1), SecondByte(v1, v2), ThirdByte(v2, v3)] + tail)
  {
  }

  lemma BytesOfSextets(a: Byte, b: Byte, c: Byte)
    ensures FirstByte(a / 4, a % 4 * 16 + b / 16) == a
    ensures SecondByte(a % 4 * 16 + b / 16, b % 16 * 4 + c / 64) == b
    ensures ThirdByte(b % 16 * 4 + c / 64, c % 64) == c
  {
  }

  lemma GroupDecodes(a: Byte, b: Byte, c: Byte, rest: Codes, tail: Bytes)
    requires DecodeGroups(rest, false) == Ok(tail)
    ensures DecodeGroups(Group(a, b, c) + rest, false) == Ok([a, b, c] + tail)
  {
    GroupValues(a, b, c, rest);
    DecodeStep(Group(a, b, c) + rest, a / 4, a % 4 * 16 + b / 16, b % 16 * 4 + c / 64, c % 64, tail);
    BytesOfSextets(a, b, c);
  }

  lemma LastOne(a: Byte)
    ensures DecodeGroups(EncodeBase64([a]), false) == Ok([a])
  {
    var t := EncodeBase64([a]);
    assert t == [Symbol(a / 4), Symbol(a % 4 * 16), '=', '='];
    assert FirstByte(a / 4, a % 4 * 16) == a;
  }

  lemma LastTwo(a: Byte, b: Byte)
    ensures DecodeGroups(EncodeBase64([a, b]), false) == Ok([a, b])
  {
    var t := EncodeBase64([a, b]);
    assert t == [Symbol(a / 4), Symbol(a % 4 * 16 + b / 16), Symbol(b % 16 * 4), '='];
    BytesOfSextets(a, b, 0);
  }

  lemma EncodeStep(b: Bytes)
    requires |b| > 2
    ensures EncodeBase64(b) == Group(b[0], b[1], b[2]) + EncodeBase64(b[3..])
  {
  }

  lemma MoreGroups(b: Bytes)
    requires |b| > 2 && DecodeGroups(EncodeBase64(b[3..]), false) == Ok(b[3..])
    ensures DecodeGroups(EncodeBase64(b), false) == Ok(b)
  {
    EncodeStep(b);
    GroupDecodes(b[0], b[1], b[2], EncodeBase64(b[3..]), b[3..]);
    ThreeAndRest(b);
  }

  lemma ThreeAndRest(b: Bytes)
    requires |b| > 2
    ensures [b[0], b[1], b[2]] + b[3..] == b
  {
  }

  lemma OneOrTwo(b: Bytes)
    ensures |b| == 1 ==> b == [b[0]]
    ensures |b| == 2 ==> b == [b[0], b[1]]
  {
  }

  lemma ShortRoundTrip(b: Bytes)
    requires 1 <= |b| <= 2
    ensures DecodeGroups(EncodeBase64(b), false) == Ok(b)
  {
    OneOrTwo(b);
    if |b| == 1 {
      LastOne(b[0]);
    } else {
      LastTwo(b[0], b[1]);
    }
  }

  lemma {:induction false} GroupsRoundTrip(b: Bytes)
    ensures DecodeGroups(EncodeBase64(b), false) == Ok(b)
  {
    if |b| > 2 {
      GroupsRoundTrip(b[3..]);
      MoreGroups(b);
    } else if |b| > 0 {
      ShortRoundTrip(b);
    }
  }

  lemma Base64RoundTrip(b: Bytes)
    ensures DecodeBase64(EncodeBase64(b), false) == Ok(b)
  {
    NoLineEnds(b);
    NothingSkipped(EncodeBase64(b));
    GroupsRoundTrip(b);
  }

  // ----- keys -----

  function TextBytes(t: Codes): (b: Bytes)
    requires forall k :: 0 <= k < |t| ==> t[k] as int < 0x100
    ensures |b| == |t| && forall k :: 0 <= k < |t| ==> b[k] == t[k] as int
  {
    seq(|t|, i requires 0 <= i < |t| => t[i] as int)
  }

  function BytesText(b: Bytes): (t: Codes)
    ensures |t| == |b| && forall k :: 0 <= k < |b| ==> t[k] == b[k] as char
  {
    seq(|b|, i requires 0 <= i < |b| => b[i] as char)
  }

  function DecodedKey(decoded: Bytes): Result {
    if |decoded| == 16 then Ok(decoded)
    else if |decoded| == 32 && HexKey(BytesText(decoded)) then DecodeHex(BytesText(decoded))
    else Err
  }

  function DecodeAesKey(encoded: Codes): Result {
    if HexKey(encoded) then DecodeHex(encoded)
    else
      match DecodeBase64(encoded, false)
      case Ok(decoded) => DecodedKey(decoded)
      case Err =>
        match DecodeBase64(encoded, true)
        case Ok(decoded) => DecodedKey(decoded)
        case Err => Err
  }

  lemma {:induction false} HexIsText(b: Bytes)
    ensures forall k :: 0 <= k < |EncodeHex(b)| ==> EncodeHex(b)[k] as int < 0x80
  {
    if b != [] {
      HexIsText(b[1..]);
    }
  }

  /** Base64 of the hexadecimal form, as media messages carry it. */
  function EncodeAesKeyBase64(key: Bytes): Codes {
    HexIsText(key);
    EncodeBase64(TextBytes(EncodeHex(key)))
  }

  /** Every 16-byte key is recovered from each of the three forms. */
  lemma KeyFromEveryForm(key: Bytes)
    requires |key| == 16
    ensures DecodeAesKey(EncodeHex(key)) == Ok(key)
    ensures DecodeAesKey(EncodeBase64(key)) == Ok(key)
    ensures DecodeAesKey(EncodeAesKeyBase64(key)) == Ok(key)
  {
    HexRoundTrip(key);
    Base64RoundTrip(key);
    HexIsText(key);
    var text := TextBytes(EncodeHex(key));
    Base64RoundTrip(text);
    assert BytesText(text) == EncodeHex(key);
  }

  /** So a text is a form of one key at most, whichever forms are meant. */
  lemma NoAmbiguity(a: Bytes, b: Bytes, t: Codes)
    requires |a| == 16 && |b| == 16
    requires t in [EncodeHex(a), EncodeBase64(a), EncodeAesKeyBase64(a)]
    requires t in [EncodeHex(b), EncodeBase64(b), EncodeAesKeyBase64(b)]
    ensures a == b
  {
    KeyFromEveryForm(a);
    KeyFromEveryForm(b);
  }

  /** Whatever is decoded is a 16-byte key. */
  lemma KeysAreSixteenBytes(t: Codes)
    ensures DecodeAesKey(t).Ok? ==> |DecodeAesKey(t).bytes| == 16
  {
    HexHalves(t);
    if DecodeBase64(t, false).Ok? {
      HexHalves(BytesText(DecodeBase64(t, false).bytes));
    } else if DecodeBase64(t, true).Ok? {
      HexHalves(BytesText(DecodeBase64(t, true).bytes));
    }
  }

  lemma {:induction false} HexHalves(t: Codes)
    ensures DecodeHex(t).Ok? ==> 2 * |DecodeHex(t).bytes| == |t|
  {
    if |t| > 1 {
      HexHalves(t[2..]);
    }
  }
}
