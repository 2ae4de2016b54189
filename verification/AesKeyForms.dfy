/** Other spellings of a media key that are read alike, and texts that are no
    key at all. */
module AesKeyForms {
  import opened Seqs
  import opened Aes
  import opened AesKey

  // ----- hexadecimal in either case -----

  function Upper(c: char): char { if 'a' <= c <= 'z' then (c as int - 32) as char else c }

  predicate SameButCase(t: Codes, u: Codes) { |t| == |u| && forall k :: 0 <= k < |t| ==> u[k] == t[k] || u[k] == Upper(t[k]) }

  lemma SpelledValue(c: char, d: char)
    requires ('0' <= c <= '9' || 'a' <= c <= 'f') && (d == c || d == Upper(c))
    ensures HexValue(d) == HexValue(c) != -1
  {
  }

  lemma HexIsDecoded(u: Codes)
    requires HexKey(u)
    ensures DecodeAesKey(u) == DecodeHex(u)
  {
  }

  lemma {:induction false} LowerDigits(b: Bytes)
    ensures forall k :: 0 <= k < |EncodeHex(b)| ==> '0' <= EncodeHex(b)[k] <= '9' || 'a' <= EncodeHex(b)[k] <= 'f'
  {
    if b != [] {
      LowerDigits(b[1..]);
    }
  }

  lemma {:induction false} SameValues(t: Codes, u: Codes)
    requires |t| == |u| && forall k :: 0 <= k < |t| ==> HexValue(u[k]) == HexValue(t[k])
    ensures DecodeHex(u) == DecodeHex(t)
    decreases |t|
  {
    if |t| > 1 {
      SameValues(t[2..], u[2..]);
    }
  }

  /** Each letter of the hexadecimal form may be written in either case. */
  lemma HexInEitherCase(key: Bytes, u: Codes)
    requires |key| == 16 && SameButCase(EncodeHex(key), u)
    ensures DecodeAesKey(u) == Ok(key)
  {
    var t := EncodeHex(key);
    LowerDigits(key);
    HexRoundTrip(key);
    forall k | 0 <= k < |u| ensures HexValue(u[k]) == HexValue(t[k]) != -1 {
      SpelledValue(t[k], u[k]);
    }
    HexIsDecoded(u);
    SameValues(t, u);
  }

  // ----- the URL-safe alphabet -----

  function UrlChar(c: char): char { if c == '+' then '-' else if c == '/' then '_' else c }

  /** The same text in the URL-safe alphabet. */
  function UrlSafe(t: Codes): (u: Codes)
    ensures |u| == |t| && forall k :: 0 <= k < |t| ==> u[k] == UrlChar(t[k])
  {
    seq(|t|, i requires 0 <= i < |t| => UrlChar(t[i]))
  }

  predicate Standard(t: Codes) { '-' !in t && '_' !in t }

  lemma {:induction false} StandardDecodes(t: Codes)
    ensures DecodeGroups(t, false).Ok? ==> Standard(t)
    decreases |t|
  {
    if |t| >= 4 {
      StandardDecodes(t[4..]);
      assert t == [t[0], t[1], t[2], t[3]] + t[4..];
    }
  }

  lemma UrlValue(t: Codes, k: nat)
    requires k < |t| && t[k] != '-' && t[k] != '_'
    ensures Value(UrlSafe(t), k, true) == Value(t, k, false)
  {
  }

  lemma {:induction false} UrlDecodes(t: Codes)
    requires Standard(t)
    ensures DecodeGroups(UrlSafe(t), true) == DecodeGroups(t, false)
    decreases |t|
  {
    if |t| >= 4 {
      assert UrlSafe(t)[4..] == UrlSafe(t[4..]);
      UrlDecodes(t[4..]);
      UrlValue(t, 0);
      UrlValue(t, 1);
      UrlValue(t, 2);
      UrlValue(t, 3);
    }
  }

  /** Base64 of any bytes may be written in the URL-safe alphabet. */
  lemma UrlSafeIsDecoded(b: Bytes)
    ensures var u := UrlSafe(EncodeBase64(b));
      DecodeBase64(u, false) == Ok(b) || (DecodeBase64(u, false).Err? && DecodeBase64(u, true) == Ok(b))
  {
    var t := EncodeBase64(b);
    NoLineEnds(b);
    NothingSkipped(t);
    NothingSkipped(UrlSafe(t));
    GroupsRoundTrip(b);
    StandardDecodes(t);
    StandardDecodes(UrlSafe(t));
    UrlDecodes(t);
    if Standard(UrlSafe(t)) {
      assert UrlSafe(t) == t;
    }
  }

  lemma NoHexKey(t: Codes)
    requires |t| != 32
    ensures !HexKey(t)
  {
  }

  /** A key in base64, or the base64 of its hexadecimal form, in that alphabet. */
  lemma KeyInUrlSafeForm(key: Bytes)
    requires |key| == 16
    ensures DecodeAesKey(UrlSafe(EncodeBase64(key))) == Ok(key)
    ensures DecodeAesKey(UrlSafe(EncodeAesKeyBase64(key))) == Ok(key)
  {
    HexRoundTrip(key);
    HexIsText(key);
    var text := TextBytes(EncodeHex(key));
    assert BytesText(text) == EncodeHex(key);
    UrlSafeIsDecoded(key);
    UrlSafeIsDecoded(text);
    NoHexKey(UrlSafe(EncodeBase64(key)));
    NoHexKey(UrlSafe(EncodeBase64(text)));
  }

  // ----- line ends -----

  lemma {:induction false} LineEndSkipped(a: Codes, c: char, b: Codes)
    requires c == '\r' || c == '\n'
    ensures WithoutLineEnds(a + ([c] + b)) == WithoutLineEnds(a + b)
  {
    if a == "" {
      assert a + ([c] + b) == [c] + b && a + b == b;
      Halves([c], b);
    } else {
      Uncons(a, [c] + b);
      Uncons(a, b);
      LineEndSkipped(a[1..], c, b);
    }
  }

  /** Base64 may be broken into lines. */
  lemma LinesDoNotMatter(a: Codes, c: char, b: Codes, url: bool)
    requires c == '\r' || c == '\n'
    ensures DecodeBase64(a + ([c] + b), url) == DecodeBase64(a + b, url)
  {
    LineEndSkipped(a, c, b);
  }

  // ----- what is refused -----

  /** Base64 of anything but 16 bytes or 32 hexadecimal digits is no key, unless
      the text itself is 32 hexadecimal digits. */
  lemma OthersRefused(b: Bytes)
    requires |b| != 16 && !HexKey(BytesText(b)) && !HexKey(EncodeBase64(b))
    ensures DecodeAesKey(EncodeBase64(b)).Err?
  {
    Base64RoundTrip(b);
  }
}
