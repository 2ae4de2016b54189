/** Splitting text into chunks of at most `limit` runes, at paragraph breaks,
    line breaks or spaces when one lies far enough in.  Text is a sequence of
    bytes and need not be valid UTF-8. */
module Chunking {
  import opened Seqs
  type Byte = x: int | 0 <= x < 0x100

  type Text = seq<Byte>

  const LineFeed: Byte := 0x0A
  const Blank: Byte := 0x20

  // ----- Go's rune decoding (UTF-8 as in section 3 of RFC 3629) -----

  predicate Between(t: Text, k: nat, low: int, high: int) { k < |t| && low <= t[k] <= high }

  predicate Continues(t: Text, k: nat) { Between(t, k, 0x80, 0xBF) }

  predicate TwoBytes(t: Text) { Between(t, 0, 0xC2, 0xDF) && Continues(t, 1) }

  predicate ThreeBytes(t: Text) {
    && Continues(t, 2)
    && ((Between(t, 0, 0xE0, 0xE0) && Between(t, 1, 0xA0, 0xBF))
        || (Between(t, 0, 0xE1, 0xEC) && Continues(t, 1))
        || (Between(t, 0, 0xED, 0xED) && Between(t, 1, 0x80, 0x9F))
        || (Between(t, 0, 0xEE, 0xEF) && Continues(t, 1)))
  }

  predicate FourBytes(t: Text) {
    && Continues(t, 2) && Continues(t, 3)
    && ((Between(t, 0, 0xF0, 0xF0) && Between(t, 1, 0x90, 0xBF))
        || (Between(t, 0, 0xF1, 0xF3) && Continues(t, 1))
        || (Between(t, 0, 0xF4, 0xF4) && Between(t, 1, 0x80, 0x8F)))
  }

  /** Bytes of the first rune; an invalid byte counts as one rune. */
  function Width(t: Text): (n: nat)
    requires t != []
    ensures 1 <= n <= |t| && n <= 4
  {
    if TwoBytes(t) then 2 else if ThreeBytes(t) then 3 else if FourBytes(t) then 4 else 1
  }

  /** A way to find the bytes of the first rune. */
  datatype Decoder = Decoder(width: Text -> nat)

  const GoDecoder: Decoder := Decoder((t: Text) => if t == [] then 0 else Width(t))

  function Step(d: Decoder, t: Text): (n: nat)
    requires t != []
    ensures 1 <= n <= |t|
  {
    if 1 <= d.width(t) <= |t| then d.width(t) else 1
  }

  /** What the proofs need of a decoder: the bytes after a rune do not change
      it, and an ASCII byte is a rune of its own. */
  ghost predicate Stable(d: Decoder) {
    && (forall t: Text, i: nat :: t != [] && Step(d, t) <= i <= |t| ==> Step(d, t[..i]) == Step(d, t))
    && (forall t: Text, k: nat :: t != [] && k < Step(d, t) && Step(d, t) > 1 ==> t[k] >= 0x80)
  }

  lemma WidthOfPart(t: Text, i: nat)
    requires t != [] && Width(t) <= i <= |t|
    ensures Width(t[..i]) == Width(t)
  {
  }

  lemma GoIsStable()
    ensures Stable(GoDecoder)
  {
    forall t: Text, i: nat | t != [] && Step(GoDecoder, t) <= i <= |t|
      ensures Step(GoDecoder, t[..i]) == Step(GoDecoder, t)
    {
      WidthOfPart(t, i);
    }
  }

  function Runes(d: Decoder, t: Text): nat
    decreases |t|
  {
    if t == [] then 0 else 1 + Runes(d, t[Step(d, t)..])
  }

  /** A rune of t starts, or t ends, at i. */
  predicate Boundary(d: Decoder, t: Text, i: nat)
    decreases |t|
  {
    i == 0 || (t != [] && Step(d, t) <= i && Boundary(d, t[Step(d, t)..], i - Step(d, t)))
  }

  /** The bytes of the first n runes. */
  function Prefix(d: Decoder, t: Text, n: nat): (i: nat)
    ensures i <= |t| && (n > 0 && t != [] ==> i > 0)
    decreases |t|
  {
    if n == 0 || t == [] then 0 else Step(d, t) + Prefix(d, t[Step(d, t)..], n - 1)
  }

  // ----- where to cut -----

  predicate Occurs(t: Text, sep: Text, i: int) { 0 <= i <= |t| - |sep| && t[i..i + |sep|] == sep }

  /** The last occurrence of sep in t at or before i, or -1. */
  function LastBefore(t: Text, sep: Text, i: int): (r: int)
    ensures r == -1 || (0 <= r <= i && Occurs(t, sep, r))
  {
    if i < 0 then -1 else if Occurs(t, sep, i) then i else LastBefore(t, sep, i - 1)
  }

  function LastIndex(t: Text, sep: Text): (r: int)
    ensures r == -1 || Occurs(t, sep, r)
  {
    LastBefore(t, sep, |t|)
  }

  /** An occurrence far enough in to cut after. */
  predicate Far(d: Decoder, prefix: Text, idx: int, limit: nat) {
    0 <= idx <= |prefix| && Runes(d, prefix[..idx]) > limit * 3 / 10
  }

  function Cut(d: Decoder, prefix: Text, limit: nat): (n: nat)
    ensures n <= |prefix| && (prefix != [] ==> n > 0)
  {
    var paragraph := LastIndex(prefix, [LineFeed, LineFeed]);
    var line := LastIndex(prefix, [LineFeed]);
    var blank := LastIndex(prefix, [Blank]);
    if Far(d, prefix, paragraph, limit) then paragraph + 2
    else if Far(d, prefix, line, limit) then line + 1
    else if Far(d, prefix, blank, limit) then blank + 1
    else |prefix|
  }

  /** The chunks of a text that is too long, one by one. */
  function Split(d: Decoder, t: Text, limit: nat): (chunks: seq<Text>)
    requires limit > 0
    decreases |t|
  {
    if t == [] then []
    else if Runes(d, t) <= limit then [t]
    else
      var cut := Cut(d, t[..Prefix(d, t, limit)], limit);
      [t[..cut]] + Split(d, t[cut..], limit)
  }

  function Chunks(d: Decoder, t: Text, limit: int): seq<Text> {
    if limit <= 0 || Runes(d, t) <= limit then [t] else Split(d, t, limit)
  }

  // ----- decoding a part of a text -----

  lemma StepOfPart(d: Decoder, t: Text, i: nat)
    requires Stable(d) && t != [] && Step(d, t) <= i <= |t|
    ensures Step(d, t[..i]) == Step(d, t)
  {
  }

  lemma RunesOfPart(d: Decoder, t: Text, i: nat)
    requires Stable(d) && t != [] && Step(d, t) <= i <= |t|
    ensures Runes(d, t[..i]) == 1 + Runes(d, t[Step(d, t)..][..i - Step(d, t)])
  {
    StepOfPart(d, t, i);
    TakeDrop(t, Step(d, t), i);
  }

  /** Runes are counted on either side of a boundary. */
  lemma {:induction false} RunesSplit(d: Decoder, t: Text, i: nat)
    requires Stable(d) && i <= |t| && Boundary(d, t, i)
    ensures Runes(d, t) == Runes(d, t[..i]) + Runes(d, t[i..])
    decreases |t|
  {
    if i > 0 {
      var w := Step(d, t);
      RunesOfPart(d, t, i);
      RunesSplit(d, t[w..], i - w);
      DropTo(t, w, i);
    } else {
      assert t[..0] == [] && t[0..] == t;
    }
  }

  lemma {:induction false} PrefixIsBoundary(d: Decoder, t: Text, n: nat)
    requires Stable(d)
    ensures Boundary(d, t, Prefix(d, t, n))
    ensures Runes(d, t[..Prefix(d, t, n)]) == if Runes(d, t) < n then Runes(d, t) else n
    decreases |t|
  {
    if n > 0 && t != [] {
      var w, i := Step(d, t), Prefix(d, t, n);
      PrefixIsBoundary(d, t[w..], n - 1);
      RunesOfPart(d, t, i);
    } else {
      assert t[..0] == [];
    }
  }

  /** The bytes of a longer rune are not ASCII. */
  lemma StepBytes(d: Decoder, t: Text)
    requires Stable(d) && t != []
    ensures forall k: nat :: k < Step(d, t) && Step(d, t) > 1 ==> t[k] >= 0x80
  {
  }

  /** An ASCII byte is a rune of its own, whatever surrounds it. */
  lemma {:induction false} AsciiIsBoundary(d: Decoder, t: Text, i: nat)
    requires Stable(d) && i < |t| && t[i] < 0x80
    ensures Boundary(d, t, i) && Boundary(d, t, i + 1)
    decreases |t|
  {
    var w := Step(d, t);
    StepBytes(d, t);
    if i > 0 {
      AsciiIsBoundary(d, t[w..], i - w);
    } else {
      assert Boundary(d, t[w..], 0);
    }
  }

  /** A boundary of a part that ends at a boundary is one of the whole. */
  lemma {:induction false} BoundaryOfPart(d: Decoder, t: Text, end: nat, i: nat)
    requires Stable(d) && end <= |t| && Boundary(d, t, end) && i <= end && Boundary(d, t[..end], i)
    ensures Boundary(d, t, i)
    decreases |t|
  {
    if i > 0 {
      var w := Step(d, t);
      StepOfPart(d, t, end);
      TakeDrop(t, w, end);
      BoundaryOfPart(d, t[w..], end - w, i - w);
    }
  }

  lemma {:induction false} BoundaryJoin(d: Decoder, t: Text, i: nat, j: nat)
    requires i <= |t| && Boundary(d, t, i) && Boundary(d, t[i..], j)
    ensures Boundary(d, t, i + j)
    decreases |t|
  {
    if i > 0 {
      var w := Step(d, t);
      DropTo(t, w, i);
      BoundaryJoin(d, t[w..], i - w, j);
    } else {
      assert t[0..] == t;
    }
  }

  // ----- one cut -----

  /** Every byte of a separator is ASCII. */
  predicate Separator(sep: Text) { sep in [[LineFeed, LineFeed], [LineFeed], [Blank]] }

  lemma SeparatorBytes(t: Text, sep: Text, idx: int)
    requires Separator(sep) && Occurs(t, sep, idx)
    ensures t[idx] < 0x80 && t[idx + |sep| - 1] < 0x80
  {
    var part := t[idx..idx + |sep|];
    assert t[idx] == part[0] && t[idx + |sep| - 1] == part[|sep| - 1];
  }

  /** A part that goes on past an ASCII byte has more runes. */
  lemma MoreRunes(d: Decoder, t: Text, i: nat, end: nat)
    requires Stable(d) && i < end <= |t| && t[i] < 0x80
    ensures Runes(d, t[..end]) >= Runes(d, t[..i])
  {
    var part := t[..end];
    AsciiIsBoundary(d, part, i);
    RunesSplit(d, part, i);
    assert part[..i] == t[..i];
  }

  lemma AfterAscii(d: Decoder, t: Text, idx: nat, end: nat, least: nat)
    requires Stable(d) && idx < end <= |t| && t[idx] < 0x80 && t[end - 1] < 0x80 && Runes(d, t[..idx]) > least
    ensures Boundary(d, t, end) && Runes(d, t[..end]) > least
  {
    AsciiIsBoundary(d, t, end - 1);
    MoreRunes(d, t, idx, end);
  }

  lemma CutAfter(d: Decoder, prefix: Text, sep: Text, idx: int, limit: nat)
    requires Stable(d) && Separator(sep) && Occurs(prefix, sep, idx) && Far(d, prefix, idx, limit)
    ensures Boundary(d, prefix, idx + |sep|) && Runes(d, prefix[..idx + |sep|]) > limit * 3 / 10
  {
    SeparatorBytes(prefix, sep, idx);
    AfterAscii(d, prefix, idx, idx + |sep|, limit * 3 / 10);
  }

  lemma CutFacts(d: Decoder, prefix: Text, limit: nat)
    requires Stable(d) && limit > 0 && Runes(d, prefix) == limit && Boundary(d, prefix, |prefix|)
    ensures Boundary(d, prefix, Cut(d, prefix, limit)) && Runes(d, prefix[..Cut(d, prefix, limit)]) > limit * 3 / 10
  {
    var paragraph := LastIndex(prefix, [LineFeed, LineFeed]);
    var line := LastIndex(prefix, [LineFeed]);
    var blank := LastIndex(prefix, [Blank]);
    if Far(d, prefix, paragraph, limit) {
      CutAfter(d, prefix, [LineFeed, LineFeed], paragraph, limit);
    } else if Far(d, prefix, line, limit) {
      CutAfter(d, prefix, [LineFeed], line, limit);
    } else if Far(d, prefix, blank, limit) {
      CutAfter(d, prefix, [Blank], blank, limit);
    } else {
      assert prefix[..|prefix|] == prefix;
    }
  }

  /** No later occurrence. */
  lemma {:induction false} LastIsLast(t: Text, sep: Text, i: int, k: int)
    requires LastBefore(t, sep, i) < k <= i
    ensures !Occurs(t, sep, k)
    decreases i + 1
  {
    if i >= 0 && !Occurs(t, sep, i) && k < i {
      LastIsLast(t, sep, i - 1, k);
    }
  }

  lemma LaterIsFar(d: Decoder, prefix: Text, sep: Text, k: nat, limit: nat)
    requires Stable(d) && Separator(sep) && Occurs(prefix, sep, k) && Far(d, prefix, k, limit)
    ensures k <= LastIndex(prefix, sep) && Far(d, prefix, LastIndex(prefix, sep), limit)
  {
    var last := LastIndex(prefix, sep);
    if last < k {
      LastIsLast(prefix, sep, |prefix|, k);
    }
    SeparatorBytes(prefix, sep, k);
    if k < last {
      MoreRunes(d, prefix, k, last);
    }
  }

  /** A paragraph break far enough in is preferred to a line break, and that
      to a space; of each kind the last one is taken. */
  lemma CutPreference(d: Decoder, prefix: Text, limit: nat, sep: Text, k: nat)
    requires Stable(d) && Separator(sep) && Occurs(prefix, sep, k) && Far(d, prefix, k, limit)
    requires sep != [LineFeed, LineFeed] ==> !exists i :: Occurs(prefix, [LineFeed, LineFeed], i) && Far(d, prefix, i, limit)
    requires sep == [Blank] ==> !exists i :: Occurs(prefix, [LineFeed], i) && Far(d, prefix, i, limit)
    ensures k + |sep| <= Cut(d, prefix, limit) && Occurs(prefix, sep, Cut(d, prefix, limit) - |sep|)
  {
    LaterIsFar(d, prefix, sep, k, limit);
  }

  lemma EndIsBoundary(d: Decoder, t: Text)
    ensures Boundary(d, t, |t|)
    decreases |t|
  {
    if t != [] {
      EndIsBoundary(d, t[Step(d, t)..]);
    }
  }

  /** A chunk that is cut off ends at a boundary and has a number of runes
      between the two limits. */
  lemma FirstChunk(d: Decoder, t: Text, limit: nat)
    requires Stable(d) && limit > 0 && Runes(d, t) > limit
    ensures var cut := Cut(d, t[..Prefix(d, t, limit)], limit);
      0 < cut <= |t| && Boundary(d, t, cut) && limit * 3 / 10 < Runes(d, t[..cut]) <= limit
  {
    var i := Prefix(d, t, limit);
    var prefix := t[..i];
    var cut := Cut(d, prefix, limit);
    PrefixIsBoundary(d, t, limit);
    EndIsBoundary(d, prefix);
    CutFacts(d, prefix, limit);
    BoundaryOfPart(d, t, i, cut);
    RunesSplit(d, prefix, cut);
    assert prefix[..cut] == t[..cut];
  }

  // ----- all chunks -----

  /** chunks cut t at rune boundaries into pieces of the right sizes. */
  predicate Chunked(d: Decoder, t: Text, chunks: seq<Text>, limit: nat)
    decreases |chunks|
  {
    && chunks != []
    && 0 < Runes(d, chunks[0]) <= limit
    && if |chunks| == 1 then t == chunks[0]
       else
         var cut := |chunks[0]|;
         && limit * 3 / 10 < Runes(d, chunks[0])
         && cut <= |t| && t[..cut] == chunks[0] && Boundary(d, t, cut)
         && Chunked(d, t[cut..], chunks[1..], limit)
  }

  lemma ChunkedCons(d: Decoder, t: Text, cut: nat, rest: seq<Text>, limit: nat)
    requires cut <= |t| && Boundary(d, t, cut) && limit * 3 / 10 < Runes(d, t[..cut]) <= limit
    requires Chunked(d, t[cut..], rest, limit)
    ensures Chunked(d, t, [t[..cut]] + rest, limit)
  {
    assert ([t[..cut]] + rest)[1..] == rest;
  }

  lemma SplitStep(d: Decoder, t: Text, limit: nat, cut: nat)
    requires limit > 0 && Runes(d, t) > limit && cut == Cut(d, t[..Prefix(d, t, limit)], limit)
    ensures cut <= |t| && Split(d, t, limit) == [t[..cut]] + Split(d, t[cut..], limit)
  {
  }

  lemma {:induction false} SplitIsChunked(d: Decoder, t: Text, limit: nat)
    requires Stable(d) && limit > 0 && t != []
    ensures Chunked(d, t, Split(d, t, limit), limit)
    decreases |t|
  {
    if Runes(d, t) > limit {
      var cut := Cut(d, t[..Prefix(d, t, limit)], limit);
      FirstChunk(d, t, limit);
      RunesSplit(d, t, cut);
      SplitStep(d, t, limit, cut);
      SplitIsChunked(d, t[cut..], limit);
      ChunkedCons(d, t, cut, Split(d, t[cut..], limit), limit);
    }
  }

  /** Every text but the empty one is chunked. */
  lemma ChunksAreChunked(d: Decoder, t: Text, limit: nat)
    requires Stable(d) && limit > 0 && t != []
    ensures Chunked(d, t, Chunks(d, t, limit), limit)
  {
    SplitIsChunked(d, t, limit);
  }

  function Join(chunks: seq<Text>): Text {
    if chunks == [] then [] else chunks[0] + Join(chunks[1..])
  }

  lemma {:induction false} ChunkedJoins(d: Decoder, t: Text, chunks: seq<Text>, limit: nat)
    requires Chunked(d, t, chunks, limit)
    ensures Join(chunks) == t
    decreases |chunks|
  {
    if |chunks| > 1 {
      ChunkedJoins(d, t[|chunks[0]|..], chunks[1..], limit);
    }
  }

  /** Nothing is lost or added. */
  lemma ChunksJoin(d: Decoder, t: Text, limit: int)
    requires Stable(d)
    ensures Join(Chunks(d, t, limit)) == t
  {
    if limit > 0 && t != [] {
      ChunksAreChunked(d, t, limit);
      ChunkedJoins(d, t, Chunks(d, t, limit), limit);
    } else {
      assert Chunks(d, t, limit) == [t];
    }
  }

  /** Where chunk k begins in the text. */
  function Start(chunks: seq<Text>, k: nat): nat
    requires k <= |chunks|
  {
    if k == 0 then 0 else |chunks[0]| + Start(chunks[1..], k - 1)
  }

  lemma {:induction false} ChunkedSizes(d: Decoder, t: Text, chunks: seq<Text>, limit: nat, k: nat)
    requires Chunked(d, t, chunks, limit) && k < |chunks|
    ensures 0 < Runes(d, chunks[k]) <= limit && (k + 1 < |chunks| ==> Runes(d, chunks[k]) > limit * 3 / 10)
    ensures Boundary(d, t, Start(chunks, k))
    decreases |chunks|
  {
    if k > 0 {
      var cut := |chunks[0]|;
      ChunkedSizes(d, t[cut..], chunks[1..], limit, k - 1);
      BoundaryJoin(d, t, cut, Start(chunks[1..], k - 1));
    }
  }

  /** Every chunk has at most `limit` runes and starts at a rune boundary of
      the text; all but the last have more than three tenths of the limit. */
  lemma ChunkSizes(d: Decoder, t: Text, limit: nat, k: nat)
    requires Stable(d) && limit > 0 && k < |Chunks(d, t, limit)|
    ensures var chunks := Chunks(d, t, limit);
      && Runes(d, chunks[k]) <= limit
      && (k + 1 < |chunks| ==> Runes(d, chunks[k]) > limit * 3 / 10)
      && Boundary(d, t, Start(chunks, k))
  {
    if t != [] {
      ChunksAreChunked(d, t, limit);
      ChunkedSizes(d, t, Chunks(d, t, limit), limit, k);
    }
  }

  lemma {:induction false} ChunkedCount(d: Decoder, t: Text, chunks: seq<Text>, limit: nat, least: nat)
    requires Stable(d) && Chunked(d, t, chunks, limit) && least == limit * 3 / 10 + 1
    ensures (|chunks| - 1) * least < Runes(d, t)
    decreases |chunks|
  {
    if |chunks| > 1 {
      RunesSplit(d, t, |chunks[0]|);
      ChunkedCount(d, t[|chunks[0]|..], chunks[1..], limit, least);
      OneMore(|chunks| - 1, least);
    }
  }

  lemma OneMore(n: nat, least: nat)
    requires n > 0
    ensures n * least == (n - 1) * least + least
  {
  }

  /** Hence the number of chunks is bounded by the length of the text. */
  lemma ChunkCount(d: Decoder, t: Text, limit: nat)
    requires Stable(d) && limit > 0 && t != []
    ensures 0 < |Chunks(d, t, limit)| && (|Chunks(d, t, limit)| - 1) * (limit * 3 / 10 + 1) < Runes(d, t)
  {
    ChunksAreChunked(d, t, limit);
    ChunkedCount(d, t, Chunks(d, t, limit), limit, limit * 3 / 10 + 1);
  }

  // ----- the chunks, exactly -----

  /** sep stands at k with more than three tenths of the limit before it. */
  ghost predicate FarEnough(d: Decoder, prefix: Text, limit: nat, sep: Text, k: nat) {
    Occurs(prefix, sep, k) && Runes(d, prefix[..k]) > limit * 3 / 10
  }

  ghost predicate Somewhere(d: Decoder, prefix: Text, limit: nat, sep: Text) { exists k: nat :: FarEnough(d, prefix, limit, sep, k) }

  /** cut is after the last sep. */
  ghost predicate AfterLast(d: Decoder, prefix: Text, limit: nat, sep: Text, cut: nat) {
    cut >= |sep| && FarEnough(d, prefix, limit, sep, cut - |sep|) && forall j :: cut - |sep| < j ==> !Occurs(prefix, sep, j)
  }

  /** After the last paragraph break, if one is far enough in; else after the
      last line break; else after the last space; else at the end. */
  ghost predicate CutRule(d: Decoder, prefix: Text, limit: nat, cut: nat) {
    if Somewhere(d, prefix, limit, [LineFeed, LineFeed]) then AfterLast(d, prefix, limit, [LineFeed, LineFeed], cut)
    else if Somewhere(d, prefix, limit, [LineFeed]) then AfterLast(d, prefix, limit, [LineFeed], cut)
    else if Somewhere(d, prefix, limit, [Blank]) then AfterLast(d, prefix, limit, [Blank], cut)
    else cut == |prefix|
  }

  lemma FarIff(d: Decoder, prefix: Text, limit: nat, sep: Text)
    requires Stable(d) && Separator(sep)
    ensures Somewhere(d, prefix, limit, sep) <==> Far(d, prefix, LastIndex(prefix, sep), limit)
    ensures Far(d, prefix, LastIndex(prefix, sep), limit) ==> AfterLast(d, prefix, limit, sep, LastIndex(prefix, sep) + |sep|)
  {
    var last := LastIndex(prefix, sep);
    if k: nat :| FarEnough(d, prefix, limit, sep, k) {
      LaterIsFar(d, prefix, sep, k, limit);
    }
    if last >= 0 {
      forall j | last < j ensures !Occurs(prefix, sep, j) {
        if j <= |prefix| { LastIsLast(prefix, sep, |prefix|, j); }
      }
      assert Far(d, prefix, last, limit) ==> FarEnough(d, prefix, limit, sep, last);
    }
  }

  lemma CutFollowsRule(d: Decoder, prefix: Text, limit: nat)
    requires Stable(d)
    ensures CutRule(d, prefix, limit, Cut(d, prefix, limit))
  {
    FarIff(d, prefix, limit, [LineFeed, LineFeed]);
    FarIff(d, prefix, limit, [LineFeed]);
    FarIff(d, prefix, limit, [Blank]);
  }

  /** What is cut off: part of the first `limit` runes, by the rule. */
  ghost predicate CutOff(d: Decoder, t: Text, limit: nat, i: nat, cut: nat) {
    && cut <= i <= |t| && Boundary(d, t, i) && Runes(d, t[..i]) == limit && 0 < cut && CutRule(d, t[..i], limit, cut)
  }

  /** A text that fits, or has no limit, is one chunk; of any other a piece is
      cut off by the rule, and the rest is chunked alike. */
  lemma ChunksExactly(d: Decoder, t: Text, limit: int)
    requires Stable(d)
    ensures limit <= 0 || Runes(d, t) <= limit ==> Chunks(d, t, limit) == [t]
    ensures limit > 0 && Runes(d, t) > limit ==>
      exists i: nat, cut: nat :: CutOff(d, t, limit, i, cut) && Chunks(d, t, limit) == [t[..cut]] + Chunks(d, t[cut..], limit)
  {
    if limit > 0 && Runes(d, t) > limit {
      var i := Prefix(d, t, limit);
      var cut := Cut(d, t[..i], limit);
      FirstChunk(d, t, limit);
      PrefixIsBoundary(d, t, limit);
      CutFollowsRule(d, t[..i], limit);
      RunesSplit(d, t, cut);
      assert CutOff(d, t, limit, i, cut);
      assert t[cut..] != [];
    }
  }

  // ----- the loops -----

  method RuneLen(d: Decoder, text: Text) returns (count: nat)
    ensures count == Runes(d, text)
  {
    count := 0;
    var idx := 0;
    assert text[0..] == text;
    while idx < |text|
      invariant 0 <= idx <= |text|
      invariant count + Runes(d, text[idx..]) == Runes(d, text)
      decreases |text| - idx
    {
      var w := Step(d, text[idx..]);
      DropDrop(text, idx, w);
      idx := idx + w;
      count := count + 1;
    }
  }

  method FirstRunes(d: Decoder, text: Text, limit: nat) returns (prefix: Text)
    ensures prefix == text[..Prefix(d, text, limit)]
  {
    var count := 0;
    var idx := 0;
    assert text[0..] == text;
    while idx < |text|
      invariant 0 <= idx <= |text| && count <= limit
      invariant idx + Prefix(d, text[idx..], limit - count) == Prefix(d, text, limit)
      decreases |text| - idx
    {
      if count == limit {
        return text[..idx];
      }
      var w := Step(d, text[idx..]);
      DropDrop(text, idx, w);
      idx := idx + w;
      count := count + 1;
    }
    assert text[..|text|] == text;
    return text;
  }

  method FindCut(d: Decoder, prefix: Text, limit: nat) returns (cut: nat)
    ensures cut == Cut(d, prefix, limit)
  {
    cut := |prefix|;
    var idx := LastIndex(prefix, [LineFeed, LineFeed]);
    var n := 0;
    if idx >= 0 {
      n := RuneLen(d, prefix[..idx]);
    }
    if idx >= 0 && n > limit * 3 / 10 {
      return idx + 2;
    }
    idx := LastIndex(prefix, [LineFeed]);
    if idx >= 0 {
      n := RuneLen(d, prefix[..idx]);
    }
    if idx >= 0 && n > limit * 3 / 10 {
      return idx + 1;
    }
    idx := LastIndex(prefix, [Blank]);
    if idx >= 0 {
      n := RuneLen(d, prefix[..idx]);
    }
    if idx >= 0 && n > limit * 3 / 10 {
      return idx + 1;
    }
  }

  method ChunkText(d: Decoder, text: Text, limit: int) returns (chunks: seq<Text>)
    ensures chunks == Chunks(d, text, limit)
  {
    if limit <= 0 {
      return [text];
    }
    var length := RuneLen(d, text);
    if length <= limit {
      return [text];
    }
    chunks := [];
    var rest := text;
    while |rest| > 0
      invariant chunks + Split(d, rest, limit) == Split(d, text, limit)
      decreases |rest|
    {
      length := RuneLen(d, rest);
      if length <= limit {
        return chunks + [rest];
      }
      var prefix := FirstRunes(d, rest, limit);
      var cut := FindCut(d, prefix, limit);
      assert prefix[..cut] == rest[..cut];
      chunks := chunks + [rest[..cut]];
      rest := rest[cut..];
    }
  }

  /** Chunk k fits, is long enough unless it is the last, and starts at a rune
      boundary of the text. */
  predicate ChunkOk(d: Decoder, t: Text, chunks: seq<Text>, limit: nat, k: nat)
    requires k < |chunks|
  {
    && Runes(d, chunks[k]) <= limit
    && (k + 1 < |chunks| ==> Runes(d, chunks[k]) > limit * 3 / 10)
    && Boundary(d, t, Start(chunks, k))
  }

  /** The chunks are the whole text, each has the right size and starts at a
      rune boundary, and there are not too many. */
  ghost predicate GoodChunks(d: Decoder, t: Text, chunks: seq<Text>, limit: nat) {
    && Join(chunks) == t
    && (t != [] ==> (|chunks| - 1) * (limit * 3 / 10 + 1) < Runes(d, t))
    && forall k :: 0 <= k < |chunks| ==> ChunkOk(d, t, chunks, limit, k)
  }

  lemma ChunksAreGood(d: Decoder, t: Text, limit: nat)
    requires Stable(d) && limit > 0
    ensures GoodChunks(d, t, Chunks(d, t, limit), limit)
  {
    var chunks := Chunks(d, t, limit);
    ChunksJoin(d, t, limit);
    if t != [] {
      ChunkCount(d, t, limit);
    }
    forall k | 0 <= k < |chunks| ensures ChunkOk(d, t, chunks, limit, k) {
      ChunkSizes(d, t, limit, k);
    }
  }

  /** All of it for Go's decoder. */
  lemma GoChunks(t: Text, limit: nat)
    requires limit > 0
    ensures GoodChunks(GoDecoder, t, Chunks(GoDecoder, t, limit), limit)
  {
    GoIsStable();
    ChunksAreGood(GoDecoder, t, limit);
  }
}
