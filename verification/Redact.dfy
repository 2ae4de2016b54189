/** The scanner that hides the values of sensitive keys in text that need not
    be valid JSON.  Each loop is proved against a function of the text still
    to be read.  Unquoting a key and classifying it are one parameter: the set
    of quoted bodies that are hidden. */
module Redact {
  import opened Seqs
  const Replacement: string := "\"***\""

  predicate IsSpace(c: char) { c == ' ' || c == '\t' || c == '\n' || c == '\r' }

  /** A byte that ends a value that is neither a string nor nested. */
  predicate IsDelimiter(c: char) { c == ',' || c == '}' || c == ']' || IsSpace(c) }

  // ----- what is left to read -----

  /** Where the string body at the start of t ends: past its closing quote, or
      at the end of the text if there is none. */
  function BodyEnd(t: string, escaped: bool): (r: (nat, bool))
    ensures r.0 <= |t| && (r.1 ==> 0 < r.0)
  {
    if t == "" then (0, false)
    else if !escaped && t[0] == '"' then (1, true)
    else
      var rest := BodyEnd(t[1..], !escaped && t[0] == '\\');
      (rest.0 + 1, rest.1)
  }

  function SpaceEnd(t: string): (n: nat)
    ensures n <= |t|
  {
    if t != "" && IsSpace(t[0]) then SpaceEnd(t[1..]) + 1 else 0
  }

  function AtomEnd(t: string): (n: nat)
    ensures n <= |t|
  {
    if t != "" && !IsDelimiter(t[0]) then AtomEnd(t[1..]) + 1 else 0
  }

  /** Counters of unclosed braces and brackets, and whether inside a string. */
  datatype Depth = Depth(objects: nat, arrays: nat, inString: bool, escaped: bool)

  function Seen(d: Depth, c: char): Depth {
    if d.inString then
      if d.escaped then d.(escaped := false)
      else if c == '\\' then d.(escaped := true)
      else if c == '"' then d.(inString := false)
      else d
    else if c == '"' then d.(inString := true)
    else if c == '{' then d.(objects := d.objects + 1)
    else if c == '[' then d.(arrays := d.arrays + 1)
    else if c == '}' && d.objects > 0 then d.(objects := d.objects - 1)
    else if c == ']' && d.arrays > 0 then d.(arrays := d.arrays - 1)
    else d
  }

  /** Outside a string, reading c leaves nothing open. */
  predicate Closed(d: Depth, c: char) { !d.inString && Seen(d, c).objects == 0 && Seen(d, c).arrays == 0 }

  function NestedEnd(t: string, d: Depth): (n: nat)
    ensures n <= |t|
  {
    if t == "" then 0
    else if Closed(d, t[0]) then 1
    else NestedEnd(t[1..], Seen(d, t[0])) + 1
  }

  const Shallow: Depth := Depth(0, 0, false, false)

  function ValueEnd(t: string): (n: nat)
    ensures n <= |t|
  {
    if t == "" then 0
    else if t[0] == '"' then BodyEnd(t[1..], false).0 + 1
    else if t[0] != '{' && t[0] != '[' then AtomEnd(t)
    else NestedEnd(t, Shallow)
  }

  /** What follows the complete or incomplete string at the start of t. */
  function AfterKey(t: string): string
    requires t != "" && t[0] == '"'
  {
    t[BodyEnd(t[1..], false).0 + 1..]
  }

  predicate ColonNext(t: string) { SpaceEnd(t) < |t| && t[SpaceEnd(t)] == ':' }

  /** A quoted body followed by a colon, which is hidden. */
  predicate HiddenKey(hides: string -> bool, t: string)
    requires t != "" && t[0] == '"'
  {
    BodyEnd(t[1..], false).1 && ColonNext(AfterKey(t)) && hides(t[1..BodyEnd(t[1..], false).0])
  }

  /** Past a colon and the space around it. */
  function PastColon(t: string): (n: nat)
    requires ColonNext(t)
    ensures SpaceEnd(t) < n <= |t|
  {
    SpaceEnd(t) + 1 + SpaceEnd(t[SpaceEnd(t) + 1..])
  }

  /** Where the value of the key at the start of t begins. */
  function ValueStart(t: string): (n: nat)
    requires t != "" && t[0] == '"' && ColonNext(AfterKey(t))
    ensures BodyEnd(t[1..], false).0 + 1 < n <= |t|
  {
    BodyEnd(t[1..], false).0 + 1 + PastColon(AfterKey(t))
  }

  /** One turn of the scanner: what it writes and how far it reads. */
  function Turn(hides: string -> bool, t: string): (r: (string, nat))
    requires t != ""
    ensures 0 < r.1 <= |t|
  {
    if t[0] != '"' then ([t[0]], 1)
    else
      var end := BodyEnd(t[1..], false);
      if !end.1 then (t, |t|)
      else if !HiddenKey(hides, t) then (t[..end.0 + 1], end.0 + 1)
      else (t[..ValueStart(t)] + Replacement, ValueStart(t) + ValueEnd(t[ValueStart(t)..]))
  }

  /** What the scanner makes of the text it has still to read. */
  function Scan(hides: string -> bool, t: string): string
    decreases |t|
  {
    if t == "" then "" else Turn(hides, t).0 + Scan(hides, t[Turn(hides, t).1..])
  }

  // ----- the loops -----

  method JsonStringEnd(input: string, start: nat) returns (end: nat, complete: bool)
    requires start < |input|
    ensures end == start + 1 + BodyEnd(input[start + 1..], false).0 && complete == BodyEnd(input[start + 1..], false).1
    ensures start < end <= |input| && (complete ==> start + 1 < end)
  {
    var escaped := false;
    var offset := start + 1;
    while offset < |input|
      invariant start + 1 <= offset <= |input|
      invariant offset + BodyEnd(input[offset..], escaped).0 == start + 1 + BodyEnd(input[start + 1..], false).0
      invariant BodyEnd(input[offset..], escaped).1 == BodyEnd(input[start + 1..], false).1
    {
      assert input[offset..][1..] == input[offset + 1..];
      if escaped {
        escaped := false;
      } else if input[offset] == '\\' {
        escaped := true;
      } else if input[offset] == '"' {
        return offset + 1, true;
      }
      offset := offset + 1;
    }
    return |input|, false;
  }

  method SkipJsonSpace(input: string, from: nat) returns (offset: nat)
    requires from <= |input|
    ensures offset == from + SpaceEnd(input[from..])
  {
    offset := from;
    while offset < |input| && IsSpace(input[offset])
      invariant from <= offset <= |input|
      invariant offset + SpaceEnd(input[offset..]) == from + SpaceEnd(input[from..])
    {
      assert input[offset..][1..] == input[offset + 1..];
      offset := offset + 1;
    }
  }

  method JsonValueEnd(input: string, start: nat) returns (end: nat)
    requires start <= |input|
    ensures end == start + ValueEnd(input[start..])
  {
    if start >= |input| {
      return start;
    }
    if input[start] == '"' {
      var complete: bool;
      end, complete := JsonStringEnd(input, start);
      assert input[start..][1..] == input[start + 1..];
      UnclosedBody(input[start + 1..], false);
      return if complete then end else |input|;
    }
    if input[start] != '{' && input[start] != '[' {
      end := start;
      while end < |input| && !IsDelimiter(input[end])
        invariant start <= end <= |input|
        invariant end + AtomEnd(input[end..]) == start + AtomEnd(input[start..])
      {
        assert input[end..][1..] == input[end + 1..];
        end := end + 1;
      }
      return;
    }
    end := NestedLoop(input, start);
  }

  lemma {:induction false} UnclosedBody(t: string, escaped: bool)
    ensures !BodyEnd(t, escaped).1 ==> BodyEnd(t, escaped).0 == |t|
  {
    if t != "" && (escaped || t[0] != '"') {
      UnclosedBody(t[1..], !escaped && t[0] == '\\');
    }
  }

  /** The depth-counting loop of jsonValueEnd. */
  method NestedLoop(input: string, start: nat) returns (end: nat)
    requires start < |input|
    ensures end == start + NestedEnd(input[start..], Shallow)
  {
    var objectDepth: nat, arrayDepth: nat := 0, 0;
    var inString, escaped := false, false;
    var offset := start;
    while offset < |input|
      invariant start <= offset <= |input|
      invariant offset + NestedEnd(input[offset..], Depth(objectDepth, arrayDepth, inString, escaped))
                == start + NestedEnd(input[start..], Shallow)
    {
      var current := input[offset];
      assert input[offset..][1..] == input[offset + 1..];
      if inString {
        if escaped {
          escaped := false;
        } else if current == '\\' {
          escaped := true;
        } else if current == '"' {
          inString := false;
        }
      } else {
        match current {
          case '"' => inString := true;
          case '{' => objectDepth := objectDepth + 1;
          case '[' => arrayDepth := arrayDepth + 1;
          case '}' => objectDepth := if objectDepth > 0 then objectDepth - 1 else 0;
          case ']' => arrayDepth := if arrayDepth > 0 then arrayDepth - 1 else 0;
          case _ =>
        }
        if objectDepth == 0 && arrayDepth == 0 {
          return offset + 1;
        }
      }
      offset := offset + 1;
    }
    return |input|;
  }

  // ----- one turn, in offsets of the input -----

  /** A complete string starts at offset; keyEnd is past it and colon past the
      space that follows. */
  ghost predicate KeyShape(input: string, offset: nat, keyEnd: nat, colon: nat) {
    && offset < |input| && input[offset] == '"' && BodyEnd(input[offset + 1..], false).1
    && keyEnd == offset + 1 + BodyEnd(input[offset + 1..], false).0
    && colon == keyEnd + SpaceEnd(input[keyEnd..])
  }

  predicate Hidden(hides: string -> bool, input: string, offset: nat, keyEnd: nat, colon: nat) {
    colon < |input| && input[colon] == ':' && offset < keyEnd - 1 < |input| && hides(input[offset + 1..keyEnd - 1])
  }

  lemma KeyAt(hides: string -> bool, input: string, offset: nat, keyEnd: nat, colon: nat)
    requires KeyShape(input, offset, keyEnd, colon)
    ensures AfterKey(input[offset..]) == input[keyEnd..]
    ensures HiddenKey(hides, input[offset..]) <==> Hidden(hides, input, offset, keyEnd, colon)
  {
    DropDrop(input, offset, 1);
    DropTo(input, offset, keyEnd);
    assert input[offset..][1..keyEnd - offset - 1] == input[offset + 1..keyEnd - 1];
  }

  lemma ColonAt(input: string, keyEnd: nat, colon: nat)
    requires keyEnd <= |input| && ColonNext(input[keyEnd..]) && colon == keyEnd + SpaceEnd(input[keyEnd..])
    ensures PastColon(input[keyEnd..]) == colon + 1 + SpaceEnd(input[colon + 1..]) - keyEnd
  {
    DropTo(input, keyEnd, colon + 1);
  }

  lemma KeyCopied(hides: string -> bool, input: string, offset: nat, keyEnd: nat, colon: nat)
    requires KeyShape(input, offset, keyEnd, colon) && !Hidden(hides, input, offset, keyEnd, colon)
    ensures Turn(hides, input[offset..]) == (input[offset..keyEnd], keyEnd - offset)
  {
    KeyAt(hides, input, offset, keyEnd, colon);
    DropDrop(input, offset, 1);
    DropTake(input, offset, keyEnd);
  }

  lemma StartAt(hides: string -> bool, input: string, offset: nat, keyEnd: nat, colon: nat, start: nat)
    requires KeyShape(input, offset, keyEnd, colon) && Hidden(hides, input, offset, keyEnd, colon)
    requires start == colon + 1 + SpaceEnd(input[colon + 1..])
    ensures HiddenKey(hides, input[offset..]) && ValueStart(input[offset..]) == start - offset
  {
    KeyAt(hides, input, offset, keyEnd, colon);
    DropDrop(input, offset, 1);
    ColonAt(input, keyEnd, colon);
  }

  lemma ValueHidden(hides: string -> bool, input: string, offset: nat, keyEnd: nat, colon: nat, start: nat)
    requires KeyShape(input, offset, keyEnd, colon) && Hidden(hides, input, offset, keyEnd, colon)
    requires start == colon + 1 + SpaceEnd(input[colon + 1..])
    ensures Turn(hides, input[offset..]) ==
      (input[offset..start] + Replacement, start + ValueEnd(input[start..]) - offset)
  {
    StartAt(hides, input, offset, keyEnd, colon, start);
    DropTo(input, offset, start);
    DropTake(input, offset, start);
    ReplacedTurn(hides, input[offset..], input[offset..start], start - offset, input[start..]);
  }

  lemma ReplacedTurn(hides: string -> bool, t: string, head: string, start: nat, value: string)
    requires t != "" && t[0] == '"' && HiddenKey(hides, t) && ValueStart(t) == start
    requires t[..start] == head && t[start..] == value
    ensures Turn(hides, t) == (head + Replacement, start + ValueEnd(value))
  {
  }

  lemma Unterminated(hides: string -> bool, input: string, offset: nat)
    requires offset < |input| && input[offset] == '"' && !BodyEnd(input[offset + 1..], false).1
    ensures Turn(hides, input[offset..]) == (input[offset..], |input| - offset)
  {
    DropDrop(input, offset, 1);
  }

  lemma LastTurn(hides: string -> bool, t: string)
    requires t != "" && t[0] == '"' && !BodyEnd(t[1..], false).1
    ensures Scan(hides, t) == t
  {
    assert Turn(hides, t) == (t, |t|);
    assert t[|t|..] == "";
  }

  /** What is written so far, followed by the scan of the rest, is the scan of
      the whole input. */
  ghost predicate Written(hides: string -> bool, input: string, redacted: string, offset: nat) {
    offset <= |input| && redacted + Scan(hides, input[offset..]) == Scan(hides, input)
  }

  lemma ScanUnfolds(hides: string -> bool, t: string, piece: string, rest: string)
    requires t != "" && Turn(hides, t).0 == piece && t[Turn(hides, t).1..] == rest
    ensures Scan(hides, t) == piece + Scan(hides, rest)
  {
  }

  lemma WriteTurn(hides: string -> bool, input: string, redacted: string, offset: nat, piece: string, next: nat)
    requires offset < next <= |input| && Written(hides, input, redacted, offset)
    requires Turn(hides, input[offset..]) == (piece, next - offset)
    ensures Written(hides, input, redacted + piece, next)
  {
    DropTo(input, offset, next);
    ScanUnfolds(hides, input[offset..], piece, input[next..]);
    Associate(redacted, piece, Scan(hides, input[next..]));
  }

  lemma NothingWritten(hides: string -> bool, input: string)
    ensures Written(hides, input, "", 0)
  {
    assert input[0..] == input;
  }

  lemma AllWritten(hides: string -> bool, input: string, redacted: string)
    requires Written(hides, input, redacted, |input|)
    ensures redacted == Scan(hides, input)
  {
  }

  /** The part of the loop that starts at a quote. */
  method QuoteTurn(hides: string -> bool, input: string, offset: nat) returns (piece: string, next: nat)
    requires offset < |input| && input[offset] == '"'
    ensures offset < next <= |input| && Turn(hides, input[offset..]) == (piece, next - offset)
  {
    var keyEnd, complete := JsonStringEnd(input, offset);
    if !complete {
      Unterminated(hides, input, offset);
      return input[offset..], |input|;
    }
    var colon := SkipJsonSpace(input, keyEnd);
    if colon >= |input| || input[colon] != ':' || !hides(input[offset + 1..keyEnd - 1]) {
      KeyCopied(hides, input, offset, keyEnd, colon);
      return input[offset..keyEnd], keyEnd;
    }
    var valueStart := SkipJsonSpace(input, colon + 1);
    ValueHidden(hides, input, offset, keyEnd, colon, valueStart);
    piece := input[offset..valueStart] + Replacement;
    next := JsonValueEnd(input, valueStart);
  }

  method ReplaceSensitiveJsonFields(hides: string -> bool, input: string) returns (redacted: string)
    ensures redacted == Scan(hides, input)
  {
    redacted := "";
    var offset := 0;
    NothingWritten(hides, input);
    while offset < |input|
      invariant Written(hides, input, redacted, offset)
      decreases |input| - offset
    {
      if input[offset] != '"' {
        WriteTurn(hides, input, redacted, offset, [input[offset]], offset + 1);
        redacted := redacted + [input[offset]];
        offset := offset + 1;
        continue;
      }
      var piece, next := QuoteTurn(hides, input, offset);
      WriteTurn(hides, input, redacted, offset, piece, next);
      redacted := redacted + piece;
      offset := next;
    }
    AllWritten(hides, input, redacted);
  }
}
