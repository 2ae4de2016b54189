/** Replacing less-than signs that would be read as broken HTML tags.  Text is
    a sequence of UTF-8 bytes; the loops are proved against functions of the
    text still to be read. */
module LessThan {
  import opened Seqs
  /** U+FF1C in UTF-8. */
  const FullWidth: string := ['\U{EF}', '\U{BC}', '\U{9C}']

  predicate IsLetter(c: char) { 'a' <= c <= 'z' || 'A' <= c <= 'Z' }

  predicate IsNameByte(c: char) { IsLetter(c) || '0' <= c <= '9' || c == '-' || c == ':' }

  predicate IsHtmlSpace(c: char) { c == ' ' || c == '\t' || c == '\n' || c == '\r' }

  function LowerByte(c: char): char { if 'A' <= c <= 'Z' then ((c as int) + 32) as char else c }

  function Lower(s: string): (r: string)
    ensures |r| == |s| && forall k :: 0 <= k < |s| ==> r[k] == LowerByte(s[k])
  {
    seq(|s|, i requires 0 <= i < |s| => LowerByte(s[i]))
  }

  predicate AllowedName(name: string) { Lower(name) in ["a", "br", "div", "span"] }

  // ----- tags -----

  function NameEnd(t: string): (n: nat)
    ensures n <= |t|
  {
    if t != "" && IsNameByte(t[0]) then NameEnd(t[1..]) + 1 else 0
  }

  function SpaceEnd(t: string): (n: nat)
    ensures n <= |t|
  {
    if t != "" && IsHtmlSpace(t[0]) then SpaceEnd(t[1..]) + 1 else 0
  }

  /** No quote is open. */
  const Unquoted: char := '\0'

  /** One past the '>' that closes the attributes at the start of t, or -1. */
  function AttributesEnd(t: string, quote: char): (n: int)
    ensures n == -1 || 0 < n <= |t|
  {
    if t == "" then -1
    else if quote == Unquoted && t[0] == '>' then 1
    else if quote == Unquoted && t[0] in ['<', '\n', '\r'] then -1
    else
      var next :=
        if quote != Unquoted then if t[0] == quote then Unquoted else quote
        else if t[0] in ['\'', '"'] then t[0] else Unquoted;
      var rest := AttributesEnd(t[1..], next);
      if rest == -1 then -1 else rest + 1
  }

  function ClosingEnd(t: string): (n: int)
    ensures n == -1 || 0 < n <= |t|
  {
    var k := SpaceEnd(t);
    if k < |t| && t[k] == '>' then k + 1 else -1
  }

  /** What follows an allowed name. */
  function AfterName(t: string, closing: bool): (n: int)
    ensures n == -1 || 0 < n <= |t|
  {
    if t == "" then -1
    else if t[0] == '>' then 1
    else if !closing && |t| > 1 && t[0] == '/' && t[1] == '>' then 2
    else if !IsHtmlSpace(t[0]) then -1
    else if closing then ClosingEnd(t)
    else AttributesEnd(t, Unquoted)
  }

  /** Where the name of a tag at the start of t begins. */
  function NameStart(t: string): nat { if |t| > 1 && t[1] == '/' then 2 else 1 }

  /** One past the end of the complete allowed tag at the start of t, or -1. */
  function TagEnd(t: string): (n: int)
    requires t != "" && t[0] == '<'
    ensures n == -1 || 1 < n <= |t|
  {
    var i := NameStart(t);
    if i >= |t| || !IsLetter(t[i]) then -1
    else
      var j := i + NameEnd(t[i..]);
      if !AllowedName(t[i..j]) then -1
      else
        var k := AfterName(t[j..], i == 2);
        if k == -1 then -1 else j + k
  }

  // ----- lines -----

  /** One turn over prose: what it writes and how far it reads. */
  function Turn(t: string): (r: (string, nat))
    requires t != ""
    ensures 0 < r.1 <= |t|
  {
    if t[0] != '<' then ([t[0]], 1)
    else if TagEnd(t) == -1 then (FullWidth, 1)
    else (t[..TagEnd(t)], TagEnd(t))
  }

  /** What prose becomes. */
  function Normalized(t: string): string
    decreases |t|
  {
    if t == "" then "" else Turn(t).0 + Normalized(t[Turn(t).1..])
  }

  lemma NormalizedUnfolds(t: string, piece: string, rest: string)
    requires t != "" && Turn(t).0 == piece && t[Turn(t).1..] == rest
    ensures Normalized(t) == piece + Normalized(rest)
  {
  }

  /** A run of at least three fence markers after at most three spaces. */
  datatype Fence = NoFence | Fence(marker: char, length: nat, rest: string)

  function Spaces(t: string): (n: nat)
    ensures n <= |t|
  {
    if t != "" && t[0] == ' ' then Spaces(t[1..]) + 1 else 0
  }

  function RunLength(t: string, marker: char): (n: nat)
    ensures n <= |t|
  {
    if t != "" && t[0] == marker then RunLength(t[1..], marker) + 1 else 0
  }

  function FenceOf(line: string): Fence {
    var i := Spaces(line);
    if i > 3 || i >= |line| || (line[i] != '`' && line[i] != '~') then NoFence
    else
      var n := RunLength(line[i..], line[i]);
      if n < 3 then NoFence else Fence(line[i], n, line[i + n..])
  }

  /** The fence a line opens, if any. */
  function Opens(line: string): Fence {
    var f := FenceOf(line);
    if f.Fence? && f.marker == '`' && '`' in f.rest then NoFence else f
  }

  predicate Closes(line: string, marker: char, length: nat) {
    var f := FenceOf(line);
    f.Fence? && f.marker == marker && f.length >= length && forall k :: 0 <= k < |f.rest| ==> f.rest[k] in [' ', '\t']
  }

  /** A line without its line end. */
  function Trimmed(line: string): string {
    var s := if line != "" && line[|line| - 1] == '\n' then line[..|line| - 1] else line;
    if s != "" && s[|s| - 1] == '\r' then s[..|s| - 1] else s
  }

  /** One past the end of the first line of t. */
  function LineEnd(t: string): (n: nat)
    requires t != ""
    ensures 0 < n <= |t|
  {
    if t[0] == '\n' || |t| == 1 then 1 else LineEnd(t[1..]) + 1
  }

  /** The state between lines: inside a fence of this marker and length. */
  datatype State = Prose | Inside(marker: char, length: nat)

  function Next(state: State, line: string): State {
    match state
    case Inside(marker, length) => if Closes(Trimmed(line), marker, length) then Prose else state
    case Prose => var f := Opens(Trimmed(line)); if f.Fence? then Inside(f.marker, f.length) else Prose
  }

  /** Lines of a fence, its first and last included, are kept. */
  predicate Fenced(state: State, line: string) { state.Inside? || Opens(Trimmed(line)).Fence? }

  function LineOut(state: State, line: string): string { if Fenced(state, line) then line else Normalized(line) }

  function Document(t: string, state: State): string
    decreases |t|
  {
    if t == "" then ""
    else
      var line := t[..LineEnd(t)];
      LineOut(state, line) + Document(t[LineEnd(t)..], Next(state, line))
  }

  // ----- the loops -----

  lemma TagEndFrom(text: string, start: nat, i: nat, j: nat)
    requires start < |text| && text[start] == '<'
    requires i == start + NameStart(text[start..]) && i < |text| && IsLetter(text[i])
    requires j == i + NameEnd(text[i..])
    ensures var n := TagEnd(text[start..]);
      n == if !AllowedName(text[i..j]) || AfterName(text[j..], i == start + 2) == -1 then -1
           else j - start + AfterName(text[j..], i == start + 2)
  {
    var t := text[start..];
    assert t[i - start..] == text[i..] && t[i - start..j - start] == text[i..j] && t[j - start..] == text[j..];
  }

  method HtmlTagEnd(text: string, start: nat) returns (end: int)
    requires start < |text| && text[start] == '<'
    ensures end == TagEndAt(text, start)
  {
    var i := start + 1;
    var closing := false;
    if i < |text| && text[i] == '/' {
      closing := true;
      i := i + 1;
    }
    if i >= |text| || !IsLetter(text[i]) {
      return -1;
    }
    var nameStart := i;
    i := NameLoop(text, i);
    TagEndFrom(text, start, nameStart, i);
    if !AllowedName(text[nameStart..i]) {
      return -1;
    }
    end := AfterNameLoop(text, i, closing);
  }

  method NameLoop(text: string, from: nat) returns (i: nat)
    requires from < |text|
    ensures i == from + NameEnd(text[from..])
  {
    i := from;
    while i < |text| && IsNameByte(text[i])
      invariant from <= i <= |text|
      invariant i + NameEnd(text[i..]) == from + NameEnd(text[from..])
    {
      assert text[i..][1..] == text[i + 1..];
      i := i + 1;
    }
  }

  /** The part of htmlTagEnd after the name. */
  method AfterNameLoop(text: string, from: nat, closing: bool) returns (end: int)
    requires from <= |text|
    ensures end == if AfterName(text[from..], closing) == -1 then -1 else from + AfterName(text[from..], closing)
  {
    var i := from;
    if i >= |text| {
      return -1;
    }
    if text[i] == '>' {
      return i + 1;
    }
    if !closing && text[i] == '/' && i + 1 < |text| && text[i + 1] == '>' {
      return i + 2;
    }
    if !IsHtmlSpace(text[i]) {
      return -1;
    }
    if closing {
      while i < |text| && IsHtmlSpace(text[i])
        invariant from <= i <= |text|
        invariant i + SpaceEnd(text[i..]) == from + SpaceEnd(text[from..])
      {
        assert text[i..][1..] == text[i + 1..];
        i := i + 1;
      }
      return if i < |text| && text[i] == '>' then i + 1 else -1;
    }
    var quote := Unquoted;
    while i < |text|
      invariant from <= i <= |text|
      invariant (AttributesEnd(text[i..], quote) == -1) == (AttributesEnd(text[from..], Unquoted) == -1)
      invariant AttributesEnd(text[i..], quote) != -1 ==>
        i + AttributesEnd(text[i..], quote) == from + AttributesEnd(text[from..], Unquoted)
    {
      var c := text[i];
      assert text[i..][1..] == text[i + 1..];
      if quote != Unquoted {
        if c == quote {
          quote := Unquoted;
        }
      } else {
        match c {
          case '\'' => quote := c;
          case '"' => quote := c;
          case '>' => return i + 1;
          case '<' => return -1;
          case '\n' => return -1;
          case '\r' => return -1;
          case _ =>
        }
      }
      i := i + 1;
    }
    return -1;
  }

  /** What is written so far, followed by the normalized rest, is the whole. */
  ghost predicate Written(line: string, normalized: string, i: nat) {
    i <= |line| && normalized + Normalized(line[i..]) == Normalized(line)
  }

  lemma TurnAt(line: string, i: nat)
    requires i < |line|
    ensures var n := if line[i] == '<' then TagEnd(line[i..]) else 1;
      Turn(line[i..]) == if n == -1 then (FullWidth, 1) else (line[i..i + n], n)
  {
    var t := line[i..];
    if t[0] == '<' {
      assert TagEnd(t) != -1 ==> t[..TagEnd(t)] == line[i..i + TagEnd(t)];
    } else {
      assert line[i..i + 1] == [t[0]];
    }
  }

  lemma WriteTurn(line: string, normalized: string, i: nat, piece: string, end: nat)
    requires i < |line| && Written(line, normalized, i) && end <= |line|
    requires Turn(line[i..]) == (piece, end - i)
    ensures Written(line, normalized + piece, end)
  {
    DropTo(line, i, end);
    NormalizedUnfolds(line[i..], piece, line[end..]);
    Associate(normalized, piece, Normalized(line[end..]));
  }

  lemma WriteByte(line: string, normalized: string, i: nat)
    requires i < |line| && Written(line, normalized, i) && line[i] != '<'
    ensures Written(line, normalized + [line[i]], i + 1)
  {
    WriteTurn(line, normalized, i, [line[i]], i + 1);
  }

  /** The end of the tag at an offset of the text, or -1. */
  function TagEndAt(text: string, start: nat): (end: int)
    requires start < |text| && text[start] == '<'
    ensures end == -1 || start < end <= |text|
  {
    if TagEnd(text[start..]) == -1 then -1 else start + TagEnd(text[start..])
  }

  lemma WriteTag(line: string, normalized: string, i: nat, end: int)
    requires i < |line| && Written(line, normalized, i) && line[i] == '<' && end == TagEndAt(line, i)
    ensures end == -1 ==> Written(line, normalized + FullWidth, i + 1)
    ensures end != -1 ==> i < end <= |line| && Written(line, normalized + line[i..end], end)
  {
    TurnAt(line, i);
    if end == -1 {
      WriteTurn(line, normalized, i, FullWidth, i + 1);
    } else {
      WriteTurn(line, normalized, i, line[i..end], end);
    }
  }

  lemma NothingWritten(line: string)
    ensures Written(line, "", 0)
  {
    assert line[0..] == line;
  }

  lemma AllWritten(line: string, normalized: string)
    requires Written(line, normalized, |line|)
    ensures normalized == Normalized(line)
  {
  }

  method NormalizeLine(line: string) returns (normalized: string)
    ensures normalized == Normalized(line)
  {
    normalized := "";
    var i := 0;
    NothingWritten(line);
    while i < |line|
      invariant Written(line, normalized, i)
      decreases |line| - i
    {
      if line[i] == '<' {
        var end := HtmlTagEnd(line, i);
        WriteTag(line, normalized, i, end);
        if end >= 0 {
          normalized := normalized + line[i..end];
          i := end;
          continue;
        }
        normalized := normalized + FullWidth;
        i := i + 1;
        continue;
      }
      WriteByte(line, normalized, i);
      normalized := normalized + [line[i]];
      i := i + 1;
    }
    AllWritten(line, normalized);
  }

  lemma {:induction false} SpacesFrom(line: string, i: nat)
    requires i <= |line| && forall k :: 0 <= k < i ==> line[k] == ' '
    ensures Spaces(line) == i + Spaces(line[i..])
  {
    if i > 0 {
      SpacesFrom(line[1..], i - 1);
      assert line[1..][i - 1..] == line[i..];
    }
  }

  method FenceRun(line: string) returns (f: Fence)
    ensures f == FenceOf(line)
  {
    var i := 0;
    while i < |line| && i < 4 && line[i] == ' '
      invariant 0 <= i <= 4 && i <= |line|
      invariant forall k :: 0 <= k < i ==> line[k] == ' '
    {
      i := i + 1;
    }
    SpacesFrom(line, i);
    if i > 3 || i >= |line| || (line[i] != '`' && line[i] != '~') {
      return NoFence;
    }
    var marker := line[i];
    var start := i;
    while i < |line| && line[i] == marker
      invariant start <= i <= |line|
      invariant i + RunLength(line[i..], marker) == start + RunLength(line[start..], marker)
    {
      assert line[i..][1..] == line[i + 1..];
      i := i + 1;
    }
    if i - start < 3 {
      return NoFence;
    }
    return Fence(marker, i - start, line[i..]);
  }

  method OpeningFence(line: string) returns (f: Fence)
    ensures f == Opens(line)
  {
    f := FenceRun(line);
    if f.Fence? && f.marker == '`' && '`' in f.rest {
      f := NoFence;
    }
  }

  method IsClosingFence(line: string, marker: char, openingLength: nat) returns (closing: bool)
    ensures closing == Closes(line, marker, openingLength)
  {
    var f := FenceRun(line);
    return f.Fence? && f.marker == marker && f.length >= openingLength
        && forall k :: 0 <= k < |f.rest| ==> f.rest[k] in [' ', '\t'];
  }

  /** strings.IndexByte for a line feed, and the line it ends. */
  method NextLine(text: string, start: nat) returns (end: nat)
    requires start < |text|
    ensures end == start + LineEnd(text[start..])
  {
    end := start;
    while text[end] != '\n' && end + 1 < |text|
      invariant start <= end < |text|
      invariant end + LineEnd(text[end..]) == start + LineEnd(text[start..])
      decreases |text| - end
    {
      assert text[end..][1..] == text[end + 1..];
      end := end + 1;
    }
    end := end + 1;
  }

  ghost predicate DocumentWritten(text: string, normalized: string, start: nat, state: State) {
    start <= |text| && normalized + Document(text[start..], state) == Document(text, Prose)
  }

  lemma DocumentStep(t: string, state: State, line: string, rest: string)
    requires t != "" && line == t[..LineEnd(t)] && rest == t[LineEnd(t)..]
    ensures Document(t, state) == LineOut(state, line) + Document(rest, Next(state, line))
  {
  }

  lemma WriteLine(text: string, normalized: string, start: nat, state: State, end: nat)
    requires start < |text| && DocumentWritten(text, normalized, start, state) && end == start + LineEnd(text[start..])
    ensures DocumentWritten(text, normalized + LineOut(state, text[start..end]), end, Next(state, text[start..end]))
  {
    var t := text[start..];
    var line := text[start..end];
    assert t[..end - start] == line && t[end - start..] == text[end..];
    DocumentStep(t, state, line, text[end..]);
    Associate(normalized, LineOut(state, line), Document(text[end..], Next(state, line)));
  }

  lemma {:induction false} NothingToReplace(t: string)
    requires '<' !in t
    ensures Normalized(t) == t
  {
    if t != "" {
      NothingToReplace(t[1..]);
    }
  }

  /** Without a less-than sign the full scan changes nothing. */
  lemma {:induction false} ShortcutAgrees(t: string, state: State)
    requires '<' !in t
    ensures Document(t, state) == t
    decreases |t|
  {
    if t != "" {
      var n := LineEnd(t);
      NothingToReplace(t[..n]);
      ShortcutAgrees(t[n..], Next(state, t[..n]));
    }
  }

  method NormalizeBareLessThan(text: string) returns (normalized: string)
    ensures normalized == Document(text, Prose)
  {
    if '<' !in text {
      ShortcutAgrees(text, Prose);
      return text;
    }
    normalized := "";
    var fenceMarker: char, fenceLength: nat := '\0', 0;
    var start := 0;
    ghost var state := Prose;
    assert text[0..] == text;
    while start < |text|
      invariant state == if fenceMarker == '\0' then Prose else Inside(fenceMarker, fenceLength)
      invariant DocumentWritten(text, normalized, start, state)
      decreases |text| - start
    {
      var end := NextLine(text, start);
      var line := text[start..end];
      WriteLine(text, normalized, start, state, end);
      state := Next(state, line);
      if fenceMarker != '\0' {
        normalized := normalized + line;
        var closing := IsClosingFence(Trimmed(line), fenceMarker, fenceLength);
        if closing {
          fenceMarker, fenceLength := '\0', 0;
        }
      } else {
        var f := OpeningFence(Trimmed(line));
        if f.Fence? {
          normalized := normalized + line;
          fenceMarker, fenceLength := f.marker, f.length;
        } else {
          var prose := NormalizeLine(line);
          normalized := normalized + prose;
        }
      }
      start := end;
    }
  }
}
