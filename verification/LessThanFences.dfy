/** Which lines open and close a fenced block, by a grammar of printed fence
    lines, and what the document then is: fenced blocks verbatim, prose lines
    normalized one by one, byte by byte. */
module LessThanFences {
  import opened Seqs
  import opened LessThan
  import opened LessThanTags
  import opened LessThanText

  // ----- printed fence lines -----

  function Repeated(c: char, n: nat): string { seq(n, _ => c) }

  predicate IsMarker(c: char) { c == '`' || c == '~' }

  /** How a line may end; only the last line of a text has no line feed. */
  predicate LineBreak(eol: string) { eol in ["", "\r", "\n", "\r\n"] }

  /** At most three spaces and n markers, not followed by another, then tail. */
  ghost predicate FenceText(s: string, marker: char, n: nat, tail: string) {
    IsMarker(marker) && n >= 3 && (tail == "" || tail[0] != marker)
    && exists k: nat :: k <= 3 && s == Repeated(' ', k) + (Repeated(marker, n) + tail)
  }

  lemma {:induction false} SpacesOf(k: nat, u: string)
    requires u == "" || u[0] != ' '
    ensures Spaces(Repeated(' ', k) + u) == k
  {
    var t := Repeated(' ', k) + u;
    if k == 0 {
      assert t == u;
    } else {
      SpacesOf(k - 1, u);
      assert t[1..] == Repeated(' ', k - 1) + u;
    }
  }

  lemma {:induction false} RunOf(c: char, n: nat, u: string)
    requires u == "" || u[0] != c
    ensures RunLength(Repeated(c, n) + u, c) == n
  {
    var t := Repeated(c, n) + u;
    if n == 0 {
      assert t == u;
    } else {
      RunOf(c, n - 1, u);
      assert t[1..] == Repeated(c, n - 1) + u;
    }
  }

  lemma FenceRead(s: string, k: nat, marker: char, n: nat, tail: string)
    requires IsMarker(marker) && n >= 3 && k <= 3 && (tail == "" || tail[0] != marker)
    requires s == Repeated(' ', k) + (Repeated(marker, n) + tail)
    ensures FenceOf(s) == Fence(marker, n, tail)
  {
    var run := Repeated(marker, n) + tail;
    SpacesOf(k, run);
    RunOf(marker, n, tail);
    assert s[k..] == run && run[n..] == tail;
    FenceAt(s, k, run);
  }

  lemma {:induction false} SpacesAre(t: string)
    ensures t[..Spaces(t)] == Repeated(' ', Spaces(t))
    ensures Spaces(t) < |t| ==> t[Spaces(t)] != ' '
  {
    if t != "" && t[0] == ' ' {
      SpacesAre(t[1..]);
      assert t[..Spaces(t)] == [t[0]] + t[1..][..Spaces(t) - 1];
      assert t[..Spaces(t)] == Repeated(' ', Spaces(t));
    }
  }

  lemma {:induction false} RunIs(t: string, c: char)
    ensures t[..RunLength(t, c)] == Repeated(c, RunLength(t, c))
    ensures RunLength(t, c) < |t| ==> t[RunLength(t, c)] != c
  {
    if t != "" && t[0] == c {
      RunIs(t[1..], c);
      assert t[..RunLength(t, c)] == [t[0]] + t[1..][..RunLength(t, c) - 1];
      assert t[..RunLength(t, c)] == Repeated(c, RunLength(t, c));
    }
  }

  lemma FenceParts(s: string, k: nat, marker: char, n: nat)
    requires k <= |s| && n <= |s| - k && s[..k] == Repeated(' ', k) && s[k..][..n] == Repeated(marker, n)
    ensures s == Repeated(' ', k) + (Repeated(marker, n) + s[k..][n..])
  {
    Rejoin(s, k);
    Rejoin(s[k..], n);
  }

  lemma FencePrinted(s: string)
    requires FenceOf(s).Fence?
    ensures FenceText(s, FenceOf(s).marker, FenceOf(s).length, FenceOf(s).rest)
  {
    var k := Spaces(s);
    var run := s[k..];
    SpacesAre(s);
    FenceAt(s, k, run);
    RunIs(run, run[0]);
    FenceParts(s, k, run[0], RunLength(run, run[0]));
  }

  /** A line is recognised as a fence exactly if it is printed like one. */
  lemma FenceIff(s: string, marker: char, n: nat, tail: string)
    ensures FenceOf(s) == Fence(marker, n, tail) <==> FenceText(s, marker, n, tail)
  {
    if FenceText(s, marker, n, tail) {
      var k: nat :| k <= 3 && s == Repeated(' ', k) + (Repeated(marker, n) + tail);
      FenceRead(s, k, marker, n, tail);
    } else if FenceOf(s) == Fence(marker, n, tail) {
      FencePrinted(s);
    }
  }

  // ----- lines -----

  /** A line is a text without line feed and a line break; one carriage return
      before the line feed, or at the end of the text, belongs to the break. */
  predicate Splits(line: string, s: string, eol: string) {
    line == s + eol && '\n' !in s && LineBreak(eol) && (eol in ["", "\n"] ==> s == "" || s[|s| - 1] != '\r')
  }

  /** A text without a last carriage return, if it has one. */
  function Unreturned(s: string): string { if s != "" && s[|s| - 1] == '\r' then s[..|s| - 1] else s }

  lemma TrimmedOfLine(s: string)
    ensures Trimmed(s + "\n") == Unreturned(s)
    ensures s == "" || s[|s| - 1] != '\n' ==> Trimmed(s) == Unreturned(s)
  {
    assert (s + "\n")[..|s|] == s;
  }

  lemma OneReturn(s: string)
    ensures Unreturned(s + "\r") == s
  {
    assert (s + "\r")[..|s|] == s;
  }

  lemma SplitIsTrimmed(line: string, s: string, eol: string)
    requires Splits(line, s, eol)
    ensures Trimmed(line) == s
  {
    if eol == "\r\n" {
      OneReturn(s);
      TrimmedOfLine(s + "\r");
      assert line == (s + "\r") + "\n";
    } else if eol == "\r" {
      OneReturn(s);
      TrimmedOfLine(s + "\r");
    } else {
      TrimmedOfLine(s);
      assert eol == "" ==> line == s;
    }
  }

  /** A line without its line feed, if it has one. */
  function Unfed(line: string): string { if line != "" && line[|line| - 1] == '\n' then line[..|line| - 1] else line }

  lemma UnfedText(line: string)
    requires IsLine(line)
    ensures '\n' !in Unfed(line) && (line == Unfed(line) || line == Unfed(line) + "\n")
  {
  }

  lemma ReturnSplits(line: string, s: string, feed: string)
    requires line == (s + "\r") + feed && '\n' !in s && feed in ["", "\n"]
    ensures Splits(line, s, "\r" + feed)
  {
    Associate(s, "\r", feed);
    assert "\r" + "" == "\r" && "\r" + "\n" == "\r\n";
  }

  lemma LineSplits(line: string) returns (eol: string)
    requires IsLine(line)
    ensures Splits(line, Trimmed(line), eol)
  {
    var s := Unfed(line);
    var feed := if line[|line| - 1] == '\n' then "\n" else "";
    UnfedText(line);
    assert line == s + feed;
    if s != "" && s[|s| - 1] == '\r' {
      eol := "\r" + feed;
      assert s == s[..|s| - 1] + "\r";
      ReturnSplits(line, s[..|s| - 1], feed);
      assert Trimmed(line) == s[..|s| - 1];
    } else {
      eol := feed;
      assert Trimmed(line) == s;
    }
  }

  /** Opens a fence of n markers: an info text may follow, without a backtick
      after backticks. */
  ghost predicate Opener(line: string, marker: char, n: nat) {
    exists s, eol, info :: Splits(line, s, eol) && FenceText(s, marker, n, info) && (marker == '`' ==> '`' !in info)
  }

  predicate Blank(s: string) { forall i :: 0 <= i < |s| ==> s[i] == ' ' || s[i] == '\t' }

  /** Closes a fence of n markers: at least as many of the same, then blanks. */
  ghost predicate Closer(line: string, marker: char, n: nat) {
    exists s, eol, m: nat, blanks :: Splits(line, s, eol) && m >= n && FenceText(s, marker, m, blanks) && Blank(blanks)
  }

  lemma OpenerRead(line: string, marker: char, n: nat)
    requires Opener(line, marker, n)
    ensures Opens(Trimmed(line)).Fence? && Opens(Trimmed(line)).marker == marker && Opens(Trimmed(line)).length == n
  {
    var s, end, info :| Splits(line, s, end) && FenceText(s, marker, n, info) && (marker == '`' ==> '`' !in info);
    SplitIsTrimmed(line, s, end);
    FenceIff(s, marker, n, info);
  }

  lemma IsOpener(line: string, marker: char, n: nat, s: string, eol: string, info: string)
    requires Splits(line, s, eol) && FenceText(s, marker, n, info) && (marker == '`' ==> '`' !in info)
    ensures Opener(line, marker, n)
  {
  }

  lemma OpenerPrinted(line: string)
    requires IsLine(line) && Opens(Trimmed(line)).Fence?
    ensures Opener(line, Opens(Trimmed(line)).marker, Opens(Trimmed(line)).length)
  {
    var eol := LineSplits(line);
    var s := Trimmed(line);
    var f := FenceOf(s);
    FencePrinted(s);
    IsOpener(line, f.marker, f.length, s, eol, f.rest);
  }

  /** A prose line opens a fence exactly if it is printed like an opener. */
  lemma OpensIff(line: string, marker: char, n: nat)
    requires IsLine(line)
    ensures Next(Prose, line) == Inside(marker, n) <==> Opener(line, marker, n)
    ensures Opener(line, marker, n) ==> Fenced(Prose, line)
  {
    if Opener(line, marker, n) {
      OpenerRead(line, marker, n);
    } else if Opens(Trimmed(line)).Fence? {
      OpenerPrinted(line);
    }
  }

  lemma CloserRead(line: string, marker: char, n: nat)
    requires Closer(line, marker, n)
    ensures Closes(Trimmed(line), marker, n)
  {
    var s, end, m: nat, blanks :| Splits(line, s, end) && m >= n && FenceText(s, marker, m, blanks) && Blank(blanks);
    SplitIsTrimmed(line, s, end);
    FenceIff(s, marker, m, blanks);
  }

  lemma IsCloser(line: string, marker: char, n: nat, s: string, eol: string, m: nat, blanks: string)
    requires Splits(line, s, eol) && m >= n && FenceText(s, marker, m, blanks) && Blank(blanks)
    ensures Closer(line, marker, n)
  {
  }

  lemma CloserPrinted(line: string, marker: char, n: nat)
    requires IsLine(line) && Closes(Trimmed(line), marker, n)
    ensures Closer(line, marker, n)
  {
    var eol := LineSplits(line);
    var s := Trimmed(line);
    FencePrinted(s);
    IsCloser(line, marker, n, s, eol, FenceOf(s).length, FenceOf(s).rest);
  }

  /** A line inside a fence closes it exactly if it is printed like a closer;
      otherwise the fence stays open. */
  lemma ClosesIff(line: string, marker: char, n: nat)
    requires IsLine(line)
    ensures Next(Inside(marker, n), line) == if Closer(line, marker, n) then Prose else Inside(marker, n)
  {
    if Closer(line, marker, n) {
      CloserRead(line, marker, n);
    } else if Closes(Trimmed(line), marker, n) {
      CloserPrinted(line, marker, n);
    }
  }

  // ----- blocks -----

  predicate FullLine(line: string) { IsLine(line) && line[|line| - 1] == '\n' }

  lemma FirstLine(line: string, rest: string, state: State)
    requires IsLine(line) && (rest == "" || FullLine(line))
    ensures Document(line + rest, state) == LineOut(state, line) + Document(rest, Next(state, line))
  {
    LineEndOf(line, rest);
    Halves(line, rest);
    DocumentStep(line + rest, state, line, rest);
  }

  function Flat(lines: seq<string>): string { if lines == [] then "" else lines[0] + Flat(lines[1..]) }

  ghost predicate BodyOf(lines: seq<string>, marker: char, n: nat) {
    forall i :: 0 <= i < |lines| ==> FullLine(lines[i]) && !Closer(lines[i], marker, n)
  }

  lemma BodyLineKept(line: string, more: string, rest: string, marker: char, n: nat)
    requires FullLine(line) && !Closer(line, marker, n)
    requires Document(more + rest, Inside(marker, n)) == more + Document(rest, Inside(marker, n))
    ensures Document((line + more) + rest, Inside(marker, n)) == (line + more) + Document(rest, Inside(marker, n))
  {
    ClosesIff(line, marker, n);
    FirstLine(line, more + rest, Inside(marker, n));
    Associate(line, more, rest);
    Associate(line, more, Document(rest, Inside(marker, n)));
  }

  lemma {:induction false} BodyKept(lines: seq<string>, rest: string, marker: char, n: nat)
    requires BodyOf(lines, marker, n)
    ensures Document(Flat(lines) + rest, Inside(marker, n)) == Flat(lines) + Document(rest, Inside(marker, n))
    decreases |lines|
  {
    if lines == [] {
      assert Flat(lines) + rest == rest;
    } else {
      BodyKept(lines[1..], rest, marker, n);
      BodyLineKept(lines[0], Flat(lines[1..]), rest, marker, n);
    }
  }

  /** A fenced block is kept as it is, and what follows its closing line is
      prose again. */
  lemma FencedBlockKept(opener: string, lines: seq<string>, closer: string, rest: string, marker: char, n: nat)
    requires FullLine(opener) && Opener(opener, marker, n) && BodyOf(lines, marker, n)
    requires IsLine(closer) && Closer(closer, marker, n) && (rest == "" || FullLine(closer))
    ensures Document(opener + (Flat(lines) + (closer + rest)), Prose) ==
      opener + (Flat(lines) + (closer + Document(rest, Prose)))
  {
    OpensIff(opener, marker, n);
    FirstLine(opener, Flat(lines) + (closer + rest), Prose);
    BodyKept(lines, closer + rest, marker, n);
    ClosesIff(closer, marker, n);
    FirstLine(closer, rest, Inside(marker, n));
  }

  /** A block that never closes is kept to the end of the text. */
  lemma OpenBlockKept(opener: string, lines: seq<string>, last: string, marker: char, n: nat)
    requires FullLine(opener) && Opener(opener, marker, n) && BodyOf(lines, marker, n) && (last == "" || IsLine(last))
    ensures Document(opener + (Flat(lines) + last), Prose) == opener + (Flat(lines) + last)
  {
    OpensIff(opener, marker, n);
    FirstLine(opener, Flat(lines) + last, Prose);
    BodyKept(lines, last, marker, n);
    if last != "" {
      assert last + "" == last;
      FirstLine(last, "", Inside(marker, n));
    }
  }

  /** A line outside a fence that opens none is normalized, and the next line is
      outside again. */
  lemma ProseLineNormalized(line: string, rest: string)
    requires IsLine(line) && (rest == "" || FullLine(line))
    requires forall marker, n: nat :: !Opener(line, marker, n)
    ensures Document(line + rest, Prose) == Normalized(line) + Document(rest, Prose)
  {
    if Opens(Trimmed(line)).Fence? {
      OpenerPrinted(line);
    }
    FirstLine(line, rest, Prose);
  }

  // ----- within a prose line -----

  lemma OtherByteKept(c: char, u: string)
    requires c != '<'
    ensures Normalized([c] + u) == [c] + Normalized(u)
  {
    Halves([c], u);
    NormalizedUnfolds([c] + u, [c], u);
  }

  lemma AllowedTagKept(tag: Tag, u: string)
    requires Allowed(tag)
    ensures Normalized(Print(tag) + u) == Print(tag) + Normalized(u)
  {
    TagRead(tag, u);
    Halves(Print(tag), u);
    NormalizedUnfolds(Print(tag) + u, Print(tag), u);
  }

  lemma NoTagBegins(t: string)
    requires t != "" && t[0] == '<'
    ensures TagEnd(t) == -1 || exists tag :: Allowed(tag) && Print(tag) <= t
  {
    if TagEnd(t) != -1 {
      var tag := TagParsed(t);
      assert Print(tag) <= t;
    }
  }

  /** A less-than sign is replaced exactly where no allowed tag begins. */
  lemma BareSignReplaced(u: string)
    requires forall tag :: Allowed(tag) ==> !(Print(tag) <= "<" + u)
    ensures Normalized("<" + u) == FullWidth + Normalized(u)
  {
    var t := "<" + u;
    NoTagBegins(t);
    Halves("<", u);
    NormalizedUnfolds(t, FullWidth, u);
  }
}
