/** Which tags survive: a grammar of complete allowed tags, and what prose
    becomes in its terms. */
module LessThanTags {
  import opened Seqs
  import opened LessThan

  // ----- the grammar -----

  /** Attribute text: single bytes and quoted strings. */
  datatype Pieces = Done | Single(c: char, rest: Pieces) | Quoted(mark: char, body: string, rest: Pieces)

  datatype Tag =
    | Bare(name: string)                            // <br>
    | SelfClosing(name: string)                     // <br/>
    | Attributed(name: string, space: char, attributes: Pieces)
    | Closing(name: string, spaces: string)         // </br >

  function PrintPieces(p: Pieces): string {
    match p
    case Done => ""
    case Single(c, rest) => [c] + PrintPieces(rest)
    case Quoted(mark, body, rest) => [mark] + (body + ([mark] + PrintPieces(rest)))
  }

  /** What follows the name. */
  function PrintEnd(tag: Tag): string {
    match tag
    case Bare(_) => ">"
    case SelfClosing(_) => "/>"
    case Attributed(_, space, attributes) => [space] + (PrintPieces(attributes) + ">")
    case Closing(_, spaces) => spaces + ">"
  }

  function PrintStart(tag: Tag): string { if tag.Closing? then "</" else "<" }

  function Print(tag: Tag): string { PrintStart(tag) + (tag.name + PrintEnd(tag)) }

  predicate Mark(c: char) { c == '"' || c == '\'' }

  predicate Proper(p: Pieces) {
    match p
    case Done => true
    case Single(c, rest) => !Mark(c) && c !in ['<', '>', '\n', '\r'] && Proper(rest)
    case Quoted(mark, body, rest) => Mark(mark) && mark !in body && Proper(rest)
  }

  predicate Name(name: string) { AllowedName(name) && forall k :: 0 <= k < |name| ==> IsNameByte(name[k]) }

  /** A complete allowed tag. */
  predicate Allowed(tag: Tag) {
    && Name(tag.name)
    && (tag.Attributed? ==> tag.space in [' ', '\t'] && Proper(tag.attributes))
    && (tag.Closing? ==> forall k :: 0 <= k < |tag.spaces| ==> IsHtmlSpace(tag.spaces[k]))
  }

  // ----- every allowed tag is read to its end -----

  lemma {:induction false} QuotedRead(body: string, mark: char, u: string)
    requires Mark(mark) && mark !in body && AttributesEnd(u, Unquoted) != -1
    ensures AttributesEnd(body + ([mark] + u), mark) == |body| + 1 + AttributesEnd(u, Unquoted)
  {
    var t := body + ([mark] + u);
    if body == "" {
      assert t[1..] == u;
    } else {
      QuotedRead(body[1..], mark, u);
      assert t[1..] == body[1..] + ([mark] + u);
    }
  }

  lemma SingleRead(c: char, x: string)
    requires !Mark(c) && c !in ['<', '>', '\n', '\r'] && AttributesEnd(x, Unquoted) != -1
    ensures AttributesEnd([c] + x, Unquoted) == 1 + AttributesEnd(x, Unquoted)
  {
    Halves([c], x);
  }

  lemma MarkRead(mark: char, x: string)
    requires Mark(mark) && AttributesEnd(x, mark) != -1
    ensures AttributesEnd([mark] + x, Unquoted) == 1 + AttributesEnd(x, mark)
  {
    Halves([mark], x);
  }

  lemma QuotedText(mark: char, body: string, rest: string, end: string)
    ensures ([mark] + (body + ([mark] + rest))) + end == [mark] + (body + ([mark] + (rest + end)))
  {
  }

  lemma {:induction false} PiecesRead(p: Pieces, u: string)
    requires Proper(p)
    ensures AttributesEnd(PrintPieces(p) + (">" + u), Unquoted) == |PrintPieces(p)| + 1
  {
    var end := ">" + u;
    match p
    case Done => assert PrintPieces(p) + end == end;
    case Single(c, rest) =>
      PiecesRead(rest, u);
      SingleRead(c, PrintPieces(rest) + end);
      Associate([c], PrintPieces(rest), end);
    case Quoted(mark, body, rest) =>
      PiecesRead(rest, u);
      QuotedRead(body, mark, PrintPieces(rest) + end);
      MarkRead(mark, body + ([mark] + (PrintPieces(rest) + end)));
      QuotedText(mark, body, PrintPieces(rest), end);
  }

  lemma {:induction false} SpacesRead(s: string, u: string)
    requires (forall k :: 0 <= k < |s| ==> IsHtmlSpace(s[k])) && (u == "" || !IsHtmlSpace(u[0]))
    ensures SpaceEnd(s + u) == |s|
  {
    if s == "" {
      assert s + u == u;
    } else {
      SpacesRead(s[1..], u);
      assert (s + u)[1..] == s[1..] + u;
    }
  }

  lemma {:induction false} NameRead(s: string, u: string)
    requires (forall k :: 0 <= k < |s| ==> IsNameByte(s[k])) && (u == "" || !IsNameByte(u[0]))
    ensures NameEnd(s + u) == |s|
  {
    if s == "" {
      assert s + u == u;
    } else {
      NameRead(s[1..], u);
      assert (s + u)[1..] == s[1..] + u;
    }
  }

  lemma AttributesRead(space: char, p: Pieces, u: string)
    requires Proper(p) && space in [' ', '\t']
    ensures AfterName([space] + (PrintPieces(p) + ">") + u, false) == 1 + |PrintPieces(p)| + 1
  {
    var t := [space] + (PrintPieces(p) + ">") + u;
    PiecesRead(p, u);
    assert t[1..] == PrintPieces(p) + (">" + u);
    assert AttributesEnd(t, Unquoted) == 1 + AttributesEnd(t[1..], Unquoted);
  }

  lemma ClosingRead(spaces: string, u: string)
    requires forall k :: 0 <= k < |spaces| ==> IsHtmlSpace(spaces[k])
    ensures AfterName((spaces + ">") + u, true) == |spaces| + 1
  {
    SpacesRead(spaces, ">" + u);
    assert (spaces + ">") + u == spaces + (">" + u);
  }

  lemma EndRead(tag: Tag, u: string)
    requires Allowed(tag)
    ensures AfterName(PrintEnd(tag) + u, tag.Closing?) == |PrintEnd(tag)|
    ensures !IsNameByte((PrintEnd(tag) + u)[0])
  {
    match tag
    case Bare(_) =>
    case SelfClosing(_) =>
    case Attributed(_, space, attributes) => AttributesRead(space, attributes, u);
    case Closing(_, spaces) => ClosingRead(spaces, u);
  }

  lemma NameFacts(name: string)
    requires Name(name)
    ensures name != "" && IsLetter(name[0])
  {
    assert Lower(name)[0] == LowerByte(name[0]);
  }

  lemma PartsOf(start: string, name: string, end: string)
    ensures var t := start + (name + end);
      t[|start|..] == name + end && t[|start|..|start| + |name|] == name && t[|start| + |name|..] == end
  {
  }

  lemma TagEndOf(t: string, i: nat, j: nat, k: nat)
    requires t != "" && t[0] == '<' && NameStart(t) == i < |t| && IsLetter(t[i])
    requires i <= j <= |t| && NameEnd(t[i..]) == j - i && AllowedName(t[i..j])
    requires AfterName(t[j..], i == 2) == k
    ensures TagEnd(t) == j + k
  {
  }

  lemma StartOf(tag: Tag, t: string, rest: string)
    requires t == PrintStart(tag) + rest && rest != "" && IsLetter(rest[0])
    ensures NameStart(t) == |PrintStart(tag)| && t[0] == '<' && t[|PrintStart(tag)|] == rest[0]
  {
  }

  lemma TagRead(tag: Tag, u: string)
    requires Allowed(tag)
    ensures TagEnd(Print(tag) + u) == |Print(tag)|
  {
    var start, end := PrintStart(tag), PrintEnd(tag) + u;
    var t := start + (tag.name + end);
    Associate(start, tag.name + PrintEnd(tag), u);
    Associate(tag.name, PrintEnd(tag), u);
    NameFacts(tag.name);
    EndRead(tag, u);
    NameRead(tag.name, end);
    PartsOf(start, tag.name, end);
    StartOf(tag, t, tag.name + end);
    TagEndOf(t, |start|, |start| + |tag.name|, |PrintEnd(tag)|);
  }

  // ----- and whatever is read as a tag is one -----

  lemma {:induction false} QuotedParsed(t: string, mark: char) returns (body: string)
    requires Mark(mark) && AttributesEnd(t, mark) != -1
    ensures mark !in body && |body| < |t| && t[..|body| + 1] == body + [mark]
    ensures var n := AttributesEnd(t[|body| + 1..], Unquoted); n != -1 && AttributesEnd(t, mark) == |body| + 1 + n
  {
    if t[0] == mark {
      body := "";
    } else {
      var more := QuotedParsed(t[1..], mark);
      body := [t[0]] + more;
      assert t[1..][|more| + 1..] == t[|body| + 1..];
      assert t[..|body| + 1] == [t[0]] + t[1..][..|more| + 1];
    }
  }

  lemma SinglePrinted(t: string, n: nat, rest: Pieces)
    requires 0 < n <= |t| && t[1..][..n - 1] == PrintPieces(rest) + ">"
    ensures t[..n] == PrintPieces(Single(t[0], rest)) + ">"
  {
    TakeCons(t, n);
    Associate([t[0]], PrintPieces(rest), ">");
  }

  lemma QuotedPrinted(t: string, n: nat, body: string, rest: Pieces)
    requires |body| + 2 <= n <= |t| && t[1..][..|body| + 1] == body + [t[0]]
    requires t[|body| + 2..][..n - |body| - 2] == PrintPieces(rest) + ">"
    ensures t[..n] == PrintPieces(Quoted(t[0], body, rest)) + ">"
  {
    var tail := PrintPieces(rest) + ">";
    TakeCons(t, n);
    DropDrop(t, 1, |body| + 1);
    TakeSplit(t[1..], |body| + 1, n - 1);
    assert t[..n] == [t[0]] + ((body + [t[0]]) + tail);
    QuotedEnds(t[0], body, PrintPieces(rest));
  }

  lemma QuotedEnds(mark: char, body: string, rest: string)
    ensures [mark] + ((body + [mark]) + (rest + ">")) == ([mark] + (body + ([mark] + rest))) + ">"
  {
  }

  lemma {:induction false} PiecesParsed(t: string) returns (p: Pieces)
    requires AttributesEnd(t, Unquoted) != -1
    ensures Proper(p) && t[..AttributesEnd(t, Unquoted)] == PrintPieces(p) + ">"
    decreases |t|
  {
    var n := AttributesEnd(t, Unquoted);
    if t[0] == '>' {
      p := Done;
    } else if Mark(t[0]) {
      var body := QuotedParsed(t[1..], t[0]);
      DropDrop(t, 1, |body| + 1);
      var rest := PiecesParsed(t[|body| + 2..]);
      p := Quoted(t[0], body, rest);
      QuotedPrinted(t, n, body, rest);
    } else {
      var rest := PiecesParsed(t[1..]);
      p := Single(t[0], rest);
      SinglePrinted(t, n, rest);
    }
  }

  lemma {:induction false} NameBytes(t: string)
    ensures forall k :: 0 <= k < NameEnd(t) ==> IsNameByte(t[k])
  {
    if t != "" && IsNameByte(t[0]) {
      NameBytes(t[1..]);
    }
  }

  lemma {:induction false} SpaceBytes(t: string)
    ensures forall k :: 0 <= k < SpaceEnd(t) ==> IsHtmlSpace(t[k])
  {
    if t != "" && IsHtmlSpace(t[0]) {
      SpaceBytes(t[1..]);
    }
  }

  lemma EndParsed(t: string, closing: bool, name: string) returns (tag: Tag)
    requires AfterName(t, closing) != -1 && Name(name)
    ensures Allowed(tag) && tag.name == name && tag.Closing? == closing
    ensures t[..AfterName(t, closing)] == PrintEnd(tag)
  {
    if closing {
      var k := SpaceEnd(t);
      SpaceBytes(t);
      tag := Closing(name, t[..k]);
    } else if t[0] == '>' {
      tag := Bare(name);
    } else if |t| > 1 && t[0] == '/' && t[1] == '>' {
      tag := SelfClosing(name);
    } else {
      var n := AttributesEnd(t, Unquoted);
      var p := PiecesParsed(t[1..]);
      tag := Attributed(name, t[0], p);
      TakeCons(t, n);
    }
  }

  lemma StartPrinted(t: string, tag: Tag)
    requires t != "" && t[0] == '<' && tag.Closing? == (NameStart(t) == 2)
    ensures NameStart(t) <= |t| && t[..NameStart(t)] == PrintStart(tag)
  {
  }

  lemma Parsed(t: string, i: nat, j: nat, n: nat, tag: Tag)
    requires i <= j <= n <= |t| && t[..i] == PrintStart(tag) && t[i..j] == tag.name && t[j..][..n - j] == PrintEnd(tag)
    ensures t[..n] == Print(tag)
  {
    ThreeParts(t, i, j, n);
  }

  lemma TagParsed(t: string) returns (tag: Tag)
    requires t != "" && t[0] == '<' && TagEnd(t) != -1
    ensures Allowed(tag) && t[..TagEnd(t)] == Print(tag)
  {
    var i := NameStart(t);
    var j := i + NameEnd(t[i..]);
    NameBytes(t[i..]);
    tag := EndParsed(t[j..], i == 2, t[i..j]);
    StartPrinted(t, tag);
    Parsed(t, i, j, TagEnd(t), tag);
  }

  lemma ThreeParts(t: string, i: nat, j: nat, n: nat)
    requires i <= j <= n <= |t|
    ensures t[..n] == t[..i] + (t[i..j] + t[j..][..n - j])
  {
  }

  /** A tag is recognised exactly when the text starts with one of the
      grammar, and then to its end. */
  lemma TagEndIff(t: string, n: nat)
    requires t != "" && t[0] == '<'
    ensures TagEnd(t) == n <==> n <= |t| && exists tag :: Allowed(tag) && Print(tag) == t[..n]
  {
    if TagEnd(t) == n {
      var tag := TagParsed(t);
    } else if n <= |t| {
      forall tag | Allowed(tag)
        ensures Print(tag) != t[..n]
      {
        TagRead(tag, t[n..]);
        assert t == t[..n] + t[n..];
      }
    }
  }

  // ----- prose -----

  /** Position i of the text is inside an allowed tag of the text. */
  ghost predicate Covers(text: string, i: nat, from: nat, tag: Tag) {
    Allowed(tag) && from <= i < from + |Print(tag)| <= |text| && text[from..from + |Print(tag)|] == Print(tag)
  }

  ghost predicate InTag(text: string, i: nat) { exists from: nat, tag: Tag :: Covers(text, i, from, tag) }

  lemma InTagLater(p: string, text: string, i: nat)
    requires |p| <= i && InTag(text, i - |p|)
    ensures InTag(p + text, i)
  {
    var from: nat, tag: Tag :| Covers(text, i - |p|, from, tag);
    var n := |Print(tag)|;
    assert (p + text)[|p| + from..|p| + from + n] == text[from..from + n];
    assert Covers(p + text, i, |p| + from, tag);
  }

  lemma InTagNow(t: string, u: string, i: nat)
    requires t != "" && t[0] == '<' && TagEnd(t) != -1 && i < TagEnd(t)
    ensures InTag(t[..TagEnd(t)] + u, i)
  {
    var tag := TagParsed(t);
    var text := t[..TagEnd(t)] + u;
    assert text[0..0 + |Print(tag)|] == Print(tag);
    assert Covers(text, i, 0, tag);
  }

  lemma TurnTag(t: string, i: nat)
    requires t != "" && i < |Turn(t).0| && Turn(t).0[i] == '<'
    ensures t[0] == '<' && TagEnd(t) != -1 && Turn(t).0 == t[..TagEnd(t)]
  {
  }

  /** The text from one turn on, by whether i falls into that turn. */
  lemma RemainingStep(t: string, p: string, rest: string, i: nat)
    requires t != "" && p == Turn(t).0 && rest == t[Turn(t).1..]
    requires i < |Normalized(t)| && Normalized(t)[i] == '<'
    ensures Normalized(t) == p + Normalized(rest)
    ensures i >= |p| ==> i - |p| < |Normalized(rest)| && Normalized(rest)[i - |p|] == '<'
    ensures i < |p| ==> p[i] == '<'
  {
    NormalizedUnfolds(t, p, rest);
  }

  /** Every less-than sign left in prose is inside a complete allowed tag. */
  lemma {:induction false} RemainingInTag(t: string, i: nat)
    requires i < |Normalized(t)| && Normalized(t)[i] == '<'
    ensures InTag(Normalized(t), i)
    decreases |t|
  {
    var p, rest := Turn(t).0, t[Turn(t).1..];
    RemainingStep(t, p, rest, i);
    if i >= |p| {
      RemainingInTag(rest, i - |p|);
      InTagLater(p, Normalized(rest), i);
    } else {
      TurnTag(t, i);
      InTagNow(t, Normalized(rest), i);
    }
  }

  lemma {:induction false} SkipPlain(s: string, u: string)
    requires '<' !in s
    ensures Normalized(s + u) == s + Normalized(u)
  {
    if s == "" {
      assert s + u == u;
    } else {
      var t := s + u;
      SkipPlain(s[1..], u);
      Uncons(s, u);
      NormalizedUnfolds(t, [s[0]], s[1..] + u);
      Associate([s[0]], s[1..], Normalized(u));
      Rejoin(s, 1);
      assert s[..1] == [s[0]];
    }
  }

  lemma TurnAgain(t: string, u: string)
    requires t != "" && t[0] == '<' && TagEnd(t) != -1
    ensures Normalized(t[..TagEnd(t)] + u) == t[..TagEnd(t)] + Normalized(u)
  {
    var tag := TagParsed(t);
    var p := t[..TagEnd(t)];
    TagRead(tag, u);
    var w := p + u;
    assert w[..|p|] == p && w[|p|..] == u;
  }

  lemma {:induction false} NormalizedTwice(t: string)
    ensures Normalized(Normalized(t)) == Normalized(t)
    decreases |t|
  {
    if t != "" {
      var rest := t[Turn(t).1..];
      NormalizedTwice(rest);
      if t[0] == '<' && TagEnd(t) != -1 {
        TurnAgain(t, Normalized(rest));
      } else {
        SkipPlain(Turn(t).0, Normalized(rest));
      }
    }
  }
}
