/** On well-formed JSON the scanner does what the tree redactor does: the text
    of a value is scanned to the text of the value in which every hidden key's
    value is "***", whitespace untouched. */
module RedactJson {
  import opened Seqs
  import opened Redact

  // ----- JSON texts (sections 2 to 7 of RFC 8259), with their whitespace -----

  datatype Json =
    | Str(body: string)
    | Atom(text: string)
    | Arr(elements: Elements)
    | Obj(members: Members)

  datatype Elements = NoElements(space: string) | Element(before: string, value: Json, after: string, rest: Elements)

  datatype Members =
    | NoMembers(space: string)
    | Member(before: string, key: string, mid: string, gap: string, value: Json, after: string, rest: Members)

  function Quoted(body: string): string { "\"" + body + "\"" }

  function Print(v: Json): string {
    match v
    case Str(body) => Quoted(body)
    case Atom(text) => text
    case Arr(elements) => "[" + PrintElements(elements, true)
    case Obj(members) => "{" + PrintMembers(members, true)
  }

  function Comma(first: bool): string { if first then "" else "," }

  function PrintElements(e: Elements, first: bool): string {
    match e
    case NoElements(space) => space + "]"
    case Element(before, value, after, rest) =>
      Comma(first) + (before + (Print(value) + (after + PrintElements(rest, false))))
  }

  function PrintMembers(m: Members, first: bool): string
    decreases m, 1
  {
    match m
    case NoMembers(space) => space + "}"
    case Member(before, key, mid, gap, value, after, rest) =>
      Comma(first) + (before + (Quoted(key) + (mid + (":" + (gap + PrintTail(m))))))
  }

  /** A member from its value on. */
  function PrintTail(m: Members): string
    requires m.Member?
    decreases m, 0
  {
    Print(m.value) + (m.after + PrintMembers(m.rest, false))
  }

  /** A string body: no bare quote, and every backslash escapes something. */
  predicate Body(b: string) {
    b == "" || (if b[0] == '\\' then |b| >= 2 && Body(b[2..]) else b[0] != '"' && Body(b[1..]))
  }

  predicate Space(s: string) { forall i :: 0 <= i < |s| ==> IsSpace(s[i]) }

  /** A number or a literal name: no structural character, quote or space. */
  predicate Plain(c: char) { !IsDelimiter(c) && c != '"' && c != '{' && c != '[' && c != ':' }

  predicate PlainText(s: string) { s != "" && forall i :: 0 <= i < |s| ==> Plain(s[i]) }

  predicate WellFormed(v: Json) {
    match v
    case Str(body) => Body(body)
    case Atom(text) => PlainText(text)
    case Arr(elements) => WellFormedElements(elements)
    case Obj(members) => WellFormedMembers(members)
  }

  predicate WellFormedElements(e: Elements) {
    match e
    case NoElements(space) => Space(space)
    case Element(before, value, after, rest) => Space(before) && WellFormed(value) && Space(after) && WellFormedElements(rest)
  }

  predicate WellFormedMembers(m: Members) {
    match m
    case NoMembers(space) => Space(space)
    case Member(before, key, mid, gap, value, after, rest) =>
      Space(before) && Body(key) && Space(mid) && Space(gap) && WellFormed(value) && Space(after) && WellFormedMembers(rest)
  }

  // ----- the tree redactor -----

  function Redacted(hides: string -> bool, v: Json): Json {
    match v
    case Str(_) => v
    case Atom(_) => v
    case Arr(elements) => Arr(RedactedElements(hides, elements))
    case Obj(members) => Obj(RedactedMembers(hides, members))
  }

  function RedactedElements(hides: string -> bool, e: Elements): Elements {
    match e
    case NoElements(_) => e
    case Element(before, value, after, rest) => Element(before, Redacted(hides, value), after, RedactedElements(hides, rest))
  }

  function RedactedMembers(hides: string -> bool, m: Members): Members {
    match m
    case NoMembers(_) => m
    case Member(before, key, mid, gap, value, after, rest) =>
      Member(before, key, mid, gap, if hides(key) then Str("***") else Redacted(hides, value), after, RedactedMembers(hides, rest))
  }

  // ----- reading one piece of text -----

  lemma {:induction false} BodyEndsAtQuote(b: string, rest: string)
    requires Body(b)
    ensures BodyEnd(b + "\"" + rest, false) == (|b| + 1, true)
  {
    var t := b + "\"" + rest;
    if b == "" {
    } else if b[0] == '\\' {
      BodyEndsAtQuote(b[2..], rest);
      assert t[1..][1..] == b[2..] + "\"" + rest;
    } else {
      BodyEndsAtQuote(b[1..], rest);
      assert t[1..] == b[1..] + "\"" + rest;
    }
  }

  lemma {:induction false} SpaceEnds(s: string, rest: string)
    requires Space(s) && (rest == "" || !IsSpace(rest[0]))
    ensures SpaceEnd(s + rest) == |s|
  {
    if s == "" {
      assert s + rest == rest;
    } else {
      SpaceEnds(s[1..], rest);
      assert (s + rest)[1..] == s[1..] + rest;
    }
  }

  predicate Ends(rest: string) { rest == "" || IsDelimiter(rest[0]) }

  lemma {:induction false} AtomEnds(text: string, rest: string)
    requires forall i :: 0 <= i < |text| ==> Plain(text[i])
    requires Ends(rest)
    ensures AtomEnd(text + rest) == |text|
  {
    if text == "" {
      assert text + rest == rest;
    } else {
      AtomEnds(text[1..], rest);
      assert (text + rest)[1..] == text[1..] + rest;
    }
  }

  // ----- counting depth over a value -----

  /** The state outside any string, with something open. */
  function Open(objects: nat, arrays: nat): Depth { Depth(objects, arrays, false, false) }

  lemma {:induction false} NestedBody(b: string, rest: string, objects: nat, arrays: nat)
    requires Body(b) && objects + arrays > 0
    ensures NestedEnd(b + "\"" + rest, Depth(objects, arrays, true, false)) == |b| + 1 + NestedEnd(rest, Open(objects, arrays))
  {
    var t := b + "\"" + rest;
    if b == "" {
      assert t[1..] == rest;
    } else if b[0] == '\\' {
      NestedBody(b[2..], rest, objects, arrays);
      assert t[1..][1..] == b[2..] + "\"" + rest;
    } else {
      NestedBody(b[1..], rest, objects, arrays);
      assert t[1..] == b[1..] + "\"" + rest;
    }
  }

  lemma NestedString(b: string, rest: string, objects: nat, arrays: nat)
    requires Body(b) && objects + arrays > 0
    ensures NestedEnd(Quoted(b) + rest, Open(objects, arrays)) == |Quoted(b)| + NestedEnd(rest, Open(objects, arrays))
  {
    NestedBody(b, rest, objects, arrays);
    assert (Quoted(b) + rest)[1..] == b + "\"" + rest;
  }

  /** Text that opens and closes nothing. */
  predicate Neutral(s: string) {
    forall i :: 0 <= i < |s| ==> s[i] != '"' && s[i] != '{' && s[i] != '[' && s[i] != '}' && s[i] != ']'
  }

  lemma {:induction false} NestedNeutral(s: string, rest: string, objects: nat, arrays: nat)
    requires Neutral(s) && objects + arrays > 0
    ensures NestedEnd(s + rest, Open(objects, arrays)) == |s| + NestedEnd(rest, Open(objects, arrays))
  {
    if s == "" {
      assert s + rest == rest;
    } else {
      NestedNeutral(s[1..], rest, objects, arrays);
      assert (s + rest)[1..] == s[1..] + rest;
    }
  }

  lemma NestedKey(lead: string, key: string, colon: string, rest: string, objects: nat, arrays: nat)
    requires Neutral(lead) && Body(key) && Neutral(colon) && objects + arrays > 0
    ensures NestedEnd(lead + (Quoted(key) + (colon + rest)), Open(objects, arrays)) ==
      |lead| + |Quoted(key)| + |colon| + NestedEnd(rest, Open(objects, arrays))
  {
    NestedNeutral(lead, Quoted(key) + (colon + rest), objects, arrays);
    NestedString(key, colon + rest, objects, arrays);
    NestedNeutral(colon, rest, objects, arrays);
  }

  lemma {:induction false} NestedValue(v: Json, rest: string, objects: nat, arrays: nat)
    requires WellFormed(v) && objects + arrays > 0
    ensures NestedEnd(Print(v) + rest, Open(objects, arrays)) == |Print(v)| + NestedEnd(rest, Open(objects, arrays))
    decreases v, 1
  {
    match v
    case Str(body) => NestedString(body, rest, objects, arrays);
    case Atom(text) => NestedNeutral(text, rest, objects, arrays);
    case Arr(elements) =>
      NestedElements(elements, true, rest, objects, arrays);
      NestedOpens('[', PrintElements(elements, true), rest, Open(objects, arrays));
    case Obj(members) =>
      NestedMembers(members, true, rest, objects, arrays);
      NestedOpens('{', PrintMembers(members, true), rest, Open(objects, arrays));
  }

  lemma NestedOpens(c: char, inner: string, rest: string, d: Depth)
    requires (c == '[' || c == '{') && !d.inString
    ensures NestedEnd([c] + inner + rest, d) == 1 + NestedEnd(inner + rest, Seen(d, c))
  {
    assert ([c] + inner + rest)[1..] == inner + rest;
  }

  /** After the closing character, the scan goes on if something is open. */
  function Beyond(rest: string, objects: nat, arrays: nat): nat {
    if objects + arrays > 0 then NestedEnd(rest, Open(objects, arrays)) else 0
  }

  /** One more brace or bracket open than (objects, arrays), the one c closes. */
  function Inside(c: char, objects: nat, arrays: nat): Depth {
    if c == ']' then Open(objects, arrays + 1) else Open(objects + 1, arrays)
  }

  lemma CloserRead(c: char, rest: string, objects: nat, arrays: nat)
    requires c == ']' || c == '}'
    ensures NestedEnd([c] + rest, Inside(c, objects, arrays)) == 1 + Beyond(rest, objects, arrays)
  {
    assert ([c] + rest)[1..] == rest;
  }

  lemma NestedCloses(space: string, c: char, rest: string, objects: nat, arrays: nat)
    requires Space(space) && (c == ']' || c == '}')
    ensures NestedEnd(space + [c] + rest, Inside(c, objects, arrays)) == |space| + 1 + Beyond(rest, objects, arrays)
  {
    var d := Inside(c, objects, arrays);
    NestedNeutral(space, [c] + rest, d.objects, d.arrays);
    CloserRead(c, rest, objects, arrays);
    assert space + [c] + rest == space + ([c] + rest);
  }

  lemma NestedAround(lead: string, value: string, after: string, tail: string, objects: nat, arrays: nat)
    requires Neutral(lead) && Neutral(after) && objects + arrays > 0
    requires NestedEnd(value + (after + tail), Open(objects, arrays)) == |value| + NestedEnd(after + tail, Open(objects, arrays))
    ensures NestedEnd(lead + (value + (after + tail)), Open(objects, arrays)) ==
      |lead| + |value| + |after| + NestedEnd(tail, Open(objects, arrays))
  {
    NestedNeutral(lead, value + (after + tail), objects, arrays);
    NestedNeutral(after, tail, objects, arrays);
  }

  /** The rest of an array from inside it; the closing bracket may be the last
      thing open. */
  lemma {:induction false} NestedElements(e: Elements, first: bool, rest: string, objects: nat, arrays: nat)
    requires WellFormedElements(e)
    ensures NestedEnd(PrintElements(e, first) + rest, Open(objects, arrays + 1)) ==
      |PrintElements(e, first)| + Beyond(rest, objects, arrays)
    decreases e, 0
  {
    match e
    case NoElements(space) => NestedCloses(space, ']', rest, objects, arrays);
    case Element(before, value, after, more) =>
      var tail := PrintElements(more, false) + rest;
      NestedValue(value, after + tail, objects, arrays + 1);
      NestedAround(Comma(first) + before, Print(value), after, tail, objects, arrays + 1);
      NestedElements(more, false, rest, objects, arrays);
      ElementText(e, first, rest);
  }

  lemma {:induction false} NestedTail(m: Members, rest: string, objects: nat, arrays: nat)
    requires m.Member? && WellFormedMembers(m)
    ensures NestedEnd(PrintTail(m) + rest, Open(objects + 1, arrays)) == |PrintTail(m)| + Beyond(rest, objects, arrays)
    decreases m, 0
  {
    var after := m.after + (PrintMembers(m.rest, false) + rest);
    TailText(m, rest);
    NestedValue(m.value, after, objects + 1, arrays);
    NestedNeutral(m.after, PrintMembers(m.rest, false) + rest, objects + 1, arrays);
    NestedMembers(m.rest, false, rest, objects, arrays);
  }

  lemma MemberText(m: Members, first: bool, rest: string)
    requires m.Member?
    ensures PrintMembers(m, first) + rest ==
      (Comma(first) + m.before) + (Quoted(m.key) + ((m.mid + (":" + m.gap)) + (PrintTail(m) + rest)))
    ensures |PrintMembers(m, first)| ==
      |Comma(first) + m.before| + |Quoted(m.key)| + |m.mid + (":" + m.gap)| + |PrintTail(m)|
  {
  }

  lemma {:induction false} NestedMembers(m: Members, first: bool, rest: string, objects: nat, arrays: nat)
    requires WellFormedMembers(m)
    ensures NestedEnd(PrintMembers(m, first) + rest, Open(objects + 1, arrays)) ==
      |PrintMembers(m, first)| + Beyond(rest, objects, arrays)
    decreases m, 1
  {
    match m
    case NoMembers(space) => NestedCloses(space, '}', rest, objects, arrays);
    case Member(before, key, mid, gap, _, _, _) =>
      var lead := Comma(first) + before;
      var colon := mid + (":" + gap);
      MemberText(m, first, rest);
      NestedKey(lead, key, colon, PrintTail(m) + rest, objects + 1, arrays);
      NestedTail(m, rest, objects, arrays);
  }

  lemma StringEnds(body: string, rest: string)
    requires Body(body)
    ensures ValueEnd(Quoted(body) + rest) == |Quoted(body)|
  {
    BodyEndsAtQuote(body, rest);
    assert (Quoted(body) + rest)[1..] == body + "\"" + rest;
  }

  lemma AtomValueEnds(text: string, rest: string)
    requires PlainText(text) && Ends(rest)
    ensures ValueEnd(text + rest) == |text|
  {
    assert Plain(text[0]);
    AtomEnds(text, rest);
  }

  lemma ShallowOpens(c: char, inner: string, rest: string)
    requires (c == '[' || c == '{') && NestedEnd(inner + rest, Seen(Shallow, c)) == |inner|
    ensures ValueEnd([c] + inner + rest) == 1 + |inner|
  {
    NestedOpens(c, inner, rest, Shallow);
  }

  /** The value scanner ends exactly at the end of any value's text, whatever
      braces, brackets and escapes its strings hold. */
  lemma ValueEndsExactly(v: Json, rest: string)
    requires WellFormed(v) && Ends(rest)
    ensures ValueEnd(Print(v) + rest) == |Print(v)|
  {
    match v
    case Str(body) => StringEnds(body, rest);
    case Atom(text) => AtomValueEnds(text, rest);
    case Arr(elements) =>
      NestedElements(elements, true, rest, 0, 0);
      ShallowOpens('[', PrintElements(elements, true), rest);
    case Obj(members) =>
      NestedMembers(members, true, rest, 0, 0);
      ShallowOpens('{', PrintMembers(members, true), rest);
  }

  // ----- the scan of a printed value -----

  lemma CopyTurn(hides: string -> bool, c: char, rest: string)
    requires c != '"'
    ensures Scan(hides, [c] + rest) == [c] + Scan(hides, rest)
  {
    Halves([c], rest);
    ScanUnfolds(hides, [c] + rest, [c], rest);
  }

  lemma {:induction false} ScanCopies(hides: string -> bool, s: string, rest: string)
    requires forall i :: 0 <= i < |s| ==> s[i] != '"'
    ensures Scan(hides, s + rest) == s + Scan(hides, rest)
  {
    if s == "" {
      assert s + rest == rest;
    } else {
      ScanCopies(hides, s[1..], rest);
      CopyTurn(hides, s[0], s[1..] + rest);
      Rejoin(s, 1);
      assert s[..1] == [s[0]];
      Associate([s[0]], s[1..], rest);
      Associate([s[0]], s[1..], Scan(hides, rest));
    }
  }

  lemma KeyText(key: string, rest: string)
    ensures var t := Quoted(key) + rest;
      && t[0] == '"' && t[1..] == key + "\"" + rest && t[1..|key| + 1] == key
      && t[|key| + 2..] == rest && t[..|key| + 2] == Quoted(key)
  {
  }

  lemma KeyFacts(hides: string -> bool, key: string, rest: string)
    requires Body(key)
    ensures var t := Quoted(key) + rest;
      && t[0] == '"' && BodyEnd(t[1..], false) == (|key| + 1, true) && AfterKey(t) == rest
      && (HiddenKey(hides, t) <==> ColonNext(rest) && hides(key))
  {
    KeyText(key, rest);
    BodyEndsAtQuote(key, rest);
  }

  lemma ShownTurn(hides: string -> bool, t: string, n: nat)
    requires t != "" && t[0] == '"' && BodyEnd(t[1..], false) == (n, true) && !HiddenKey(hides, t)
    ensures Turn(hides, t) == (t[..n + 1], n + 1)
  {
  }

  /** A string that is no hidden key is copied. */
  lemma ScanString(hides: string -> bool, b: string, rest: string)
    requires Body(b) && (!ColonNext(rest) || !hides(b))
    ensures Scan(hides, Quoted(b) + rest) == Quoted(b) + Scan(hides, rest)
  {
    var t := Quoted(b) + rest;
    KeyFacts(hides, b, rest);
    KeyText(b, rest);
    ShownTurn(hides, t, |b| + 1);
    ScanUnfolds(hides, t, Quoted(b), rest);
  }

  lemma ColonParts(mid: string, gap: string, tail: string)
    requires Space(mid) && Space(gap) && tail != "" && !IsSpace(tail[0])
    ensures var t := mid + (":" + (gap + tail)); ColonNext(t) && PastColon(t) == |mid| + 1 + |gap|
  {
    var rest := ":" + (gap + tail);
    SpaceEnds(mid, rest);
    Halves(mid, rest);
    Halves(":", gap + tail);
    DropDrop(mid + rest, |mid|, 1);
    SpaceEnds(gap, tail);
  }

  lemma FirstOfValue(value: Json, rest: string)
    requires WellFormed(value)
    ensures Print(value) != "" && !IsSpace((Print(value) + rest)[0])
  {
    if value.Atom? {
      assert Plain(value.text[0]);
    }
  }

  lemma Slices(a: string, b: string, c: string)
    ensures var t := a + (b + c); t[|a|..] == b + c && t[..|a|] == a && t[|a| + |b|..] == c
  {
  }

  lemma HeadText(key: string, mid: string, gap: string, tail: string)
    ensures (Quoted(key) + (mid + (":" + gap))) + tail == Quoted(key) + (mid + (":" + (gap + tail)))
  {
  }

  /** Where the value of a printed hidden key starts. */
  lemma HiddenStart(hides: string -> bool, key: string, mid: string, gap: string, tail: string)
    requires Body(key) && hides(key) && Space(mid) && Space(gap) && tail != "" && !IsSpace(tail[0])
    ensures var head := Quoted(key) + (mid + (":" + gap));
      && (head + tail)[0] == '"' && HiddenKey(hides, head + tail) && ValueStart(head + tail) == |head|
  {
    HeadText(key, mid, gap, tail);
    KeyFacts(hides, key, mid + (":" + (gap + tail)));
    ColonParts(mid, gap, tail);
  }

  lemma HiddenTurn(hides: string -> bool, key: string, mid: string, gap: string, value: Json, rest: string)
    requires Body(key) && hides(key) && Space(mid) && Space(gap) && WellFormed(value) && Ends(rest)
    ensures var head := Quoted(key) + (mid + (":" + gap));
      Turn(hides, head + (Print(value) + rest)) == (head + Replacement, |head| + |Print(value)|)
  {
    var tail := Print(value) + rest;
    var head := Quoted(key) + (mid + (":" + gap));
    FirstOfValue(value, rest);
    HiddenStart(hides, key, mid, gap, tail);
    ValueEndsExactly(value, rest);
    Slices(head, Print(value), rest);
    ReplacedTurn(hides, head + tail, head, |head|, tail);
  }

  /** A hidden key, its colon and its value are rewritten. */
  lemma ScanHidden(hides: string -> bool, key: string, mid: string, gap: string, value: Json, rest: string)
    requires Body(key) && hides(key) && Space(mid) && Space(gap) && WellFormed(value) && Ends(rest)
    ensures var head := Quoted(key) + (mid + (":" + gap));
      Scan(hides, head + (Print(value) + rest)) == head + Replacement + Scan(hides, rest)
  {
    var head := Quoted(key) + (mid + (":" + gap));
    HiddenTurn(hides, key, mid, gap, value, rest);
    Slices(head, Print(value), rest);
    ScanUnfolds(hides, head + (Print(value) + rest), head + Replacement, rest);
  }

  predicate NoQuote(s: string) { forall i :: 0 <= i < |s| ==> s[i] != '"' }

  lemma {:induction false} ScanValue(hides: string -> bool, v: Json, rest: string)
    requires WellFormed(v) && !ColonNext(rest)
    ensures Scan(hides, Print(v) + rest) == Print(Redacted(hides, v)) + Scan(hides, rest)
    decreases v, 1
  {
    match v
    case Str(body) => ScanString(hides, body, rest);
    case Atom(text) => ScanCopies(hides, text, rest);
    case Arr(elements) =>
      ScanElements(hides, elements, true, rest);
      ScanOpens(hides, '[', PrintElements(elements, true), rest);
    case Obj(members) =>
      ScanMembers(hides, members, true, rest);
      ScanOpens(hides, '{', PrintMembers(members, true), rest);
  }

  lemma ScanOpens(hides: string -> bool, c: char, inner: string, rest: string)
    requires c != '"'
    ensures Scan(hides, [c] + inner + rest) == [c] + Scan(hides, inner + rest)
  {
    Associate([c], inner, rest);
    CopyTurn(hides, c, inner + rest);
  }

  lemma SpaceThen(space: string, c: char, rest: string)
    requires Space(space) && !IsSpace(c)
    ensures SpaceEnd(space + ([c] + rest)) == |space| && (space + ([c] + rest))[|space|] == c
  {
    SpaceEnds(space, [c] + rest);
  }

  /** What follows a value inside an array or an object. */
  lemma ElementsFollow(after: string, e: Elements, rest: string)
    requires Space(after) && WellFormedElements(e)
    ensures !ColonNext(after + (PrintElements(e, false) + rest)) && Ends(after + (PrintElements(e, false) + rest))
  {
    var tail := PrintElements(e, false) + rest;
    if e.NoElements? {
      SpaceThen(after + e.space, ']', rest);
      assert after + tail == (after + e.space) + ([']'] + rest);
    } else {
      SpaceThen(after, ',', tail[1..]);
      assert tail == [','] + tail[1..];
    }
  }

  /** Quote-free text around a value and the scan of each part. */
  lemma ScanAround(hides: string -> bool, lead: string, value: string, shown: string, after: string, tail: string)
    requires NoQuote(lead) && NoQuote(after)
    requires Scan(hides, value + (after + tail)) == shown + Scan(hides, after + tail)
    ensures Scan(hides, lead + (value + (after + tail))) == lead + (shown + (after + Scan(hides, tail)))
  {
    ScanCopies(hides, lead, value + (after + tail));
    ScanCopies(hides, after, tail);
  }

  lemma {:induction false} ScanElements(hides: string -> bool, e: Elements, first: bool, rest: string)
    requires WellFormedElements(e)
    ensures Scan(hides, PrintElements(e, first) + rest) == PrintElements(RedactedElements(hides, e), first) + Scan(hides, rest)
    decreases e, 0
  {
    match e
    case NoElements(space) => ScanCopies(hides, space + "]", rest);
    case Element(before, value, after, more) =>
      var tail := PrintElements(more, false) + rest;
      var lead := Comma(first) + before;
      ElementsFollow(after, more, rest);
      ScanValue(hides, value, after + tail);
      ScanAround(hides, lead, Print(value), Print(Redacted(hides, value)), after, tail);
      ScanElements(hides, more, false, rest);
      ElementText(e, first, rest);
      ElementText(RedactedElements(hides, e), first, Scan(hides, rest));
  }

  lemma ElementText(e: Elements, first: bool, rest: string)
    requires e.Element?
    ensures PrintElements(e, first) + rest ==
      (Comma(first) + e.before) + (Print(e.value) + (e.after + (PrintElements(e.rest, false) + rest)))
    ensures |PrintElements(e, first)| ==
      |Comma(first) + e.before| + |Print(e.value)| + |e.after| + |PrintElements(e.rest, false)|
  {
  }

  lemma MembersFollow(after: string, m: Members, rest: string)
    requires Space(after) && WellFormedMembers(m)
    ensures !ColonNext(after + (PrintMembers(m, false) + rest)) && Ends(after + (PrintMembers(m, false) + rest))
  {
    var tail := PrintMembers(m, false) + rest;
    if m.NoMembers? {
      SpaceThen(after + m.space, '}', rest);
      assert after + tail == (after + m.space) + (['}'] + rest);
    } else {
      SpaceThen(after, ',', tail[1..]);
      assert tail == [','] + tail[1..];
    }
  }

  lemma {:induction false} ScanMembers(hides: string -> bool, m: Members, first: bool, rest: string)
    requires WellFormedMembers(m)
    ensures Scan(hides, PrintMembers(m, first) + rest) == PrintMembers(RedactedMembers(hides, m), first) + Scan(hides, rest)
    decreases m, 1
  {
    match m
    case NoMembers(space) => ScanCopies(hides, space + "}", rest);
    case Member(before, key, mid, gap, value, after, more) =>
      var lead := Comma(first) + before;
      MemberText(m, first, rest);
      var r := RedactedMembers(hides, m);
      MemberText(r, first, Scan(hides, rest));
      ScanCopies(hides, lead, Quoted(key) + ((mid + (":" + gap)) + (PrintTail(m) + rest)));
      ScanMember(hides, m, rest);
  }

  lemma TailText(m: Members, rest: string)
    requires m.Member?
    ensures PrintTail(m) + rest == Print(m.value) + (m.after + (PrintMembers(m.rest, false) + rest))
  {
  }

  lemma ScanHiddenMember(hides: string -> bool, m: Members, tail: string)
    requires m.Member? && WellFormedMembers(m) && hides(m.key) && Ends(m.after + tail)
    ensures Scan(hides, Quoted(m.key) + ((m.mid + (":" + m.gap)) + (Print(m.value) + (m.after + tail)))) ==
      Quoted(m.key) + ((m.mid + (":" + m.gap)) + (Replacement + (m.after + Scan(hides, tail))))
  {
    var head := Quoted(m.key) + (m.mid + (":" + m.gap));
    ScanHidden(hides, m.key, m.mid, m.gap, m.value, m.after + tail);
    ScanCopies(hides, m.after, tail);
    Associate(Quoted(m.key), m.mid + (":" + m.gap), Print(m.value) + (m.after + tail));
    Associate(Quoted(m.key), m.mid + (":" + m.gap), Replacement + (m.after + Scan(hides, tail)));
    Associate(head, Replacement, m.after + Scan(hides, tail));
  }

  lemma ScanShownMember(hides: string -> bool, m: Members, shown: string, tail: string)
    requires m.Member? && WellFormedMembers(m) && !hides(m.key)
    requires Scan(hides, Print(m.value) + (m.after + tail)) == shown + Scan(hides, m.after + tail)
    ensures Scan(hides, Quoted(m.key) + ((m.mid + (":" + m.gap)) + (Print(m.value) + (m.after + tail)))) ==
      Quoted(m.key) + ((m.mid + (":" + m.gap)) + (shown + (m.after + Scan(hides, tail))))
  {
    var colon := m.mid + (":" + m.gap);
    ScanString(hides, m.key, colon + (Print(m.value) + (m.after + tail)));
    ScanAround(hides, colon, Print(m.value), shown, m.after, tail);
  }

  /** What a member's value becomes. */
  function ShownValue(hides: string -> bool, m: Members): Json
    requires m.Member?
  {
    if hides(m.key) then Str("***") else Redacted(hides, m.value)
  }

  lemma ConcludeMember(hides: string -> bool, m: Members, rest: string, tail: string)
    requires m.Member? && tail == PrintMembers(m.rest, false) + rest
    requires Scan(hides, tail) == PrintMembers(RedactedMembers(hides, m.rest), false) + Scan(hides, rest)
    requires MemberScanned(hides, m, tail)
    ensures Scan(hides, Quoted(m.key) + ((m.mid + (":" + m.gap)) + (PrintTail(m) + rest))) ==
      Quoted(m.key) + ((m.mid + (":" + m.gap)) + (PrintTail(RedactedMembers(hides, m)) + Scan(hides, rest)))
  {
    TailText(m, rest);
    TailText(RedactedMembers(hides, m), Scan(hides, rest));
  }

  /** The scan of a member from its key on, `tail` being what follows it. */
  predicate MemberScanned(hides: string -> bool, m: Members, tail: string)
    requires m.Member?
  {
    Scan(hides, Quoted(m.key) + ((m.mid + (":" + m.gap)) + (Print(m.value) + (m.after + tail)))) ==
      Quoted(m.key) + ((m.mid + (":" + m.gap)) + (Print(ShownValue(hides, m)) + (m.after + Scan(hides, tail))))
  }

  lemma ReplacementText()
    ensures Print(Str("***")) == Replacement
  {
  }

  lemma HiddenScanned(hides: string -> bool, m: Members, tail: string)
    requires m.Member? && WellFormedMembers(m) && hides(m.key) && Ends(m.after + tail)
    ensures MemberScanned(hides, m, tail)
  {
    ScanHiddenMember(hides, m, tail);
    ReplacementText();
  }

  lemma ShownScanned(hides: string -> bool, m: Members, tail: string)
    requires m.Member? && WellFormedMembers(m) && !hides(m.key)
    requires Scan(hides, Print(m.value) + (m.after + tail)) == Print(Redacted(hides, m.value)) + Scan(hides, m.after + tail)
    ensures MemberScanned(hides, m, tail)
  {
    ScanShownMember(hides, m, Print(Redacted(hides, m.value)), tail);
  }

  /** One member from its key on. */
  lemma {:induction false} ScanMember(hides: string -> bool, m: Members, rest: string)
    requires m.Member? && WellFormedMembers(m)
    ensures Scan(hides, Quoted(m.key) + ((m.mid + (":" + m.gap)) + (PrintTail(m) + rest))) ==
      Quoted(m.key) + ((m.mid + (":" + m.gap)) + (PrintTail(RedactedMembers(hides, m)) + Scan(hides, rest)))
    decreases m, 0
  {
    var tail := PrintMembers(m.rest, false) + rest;
    ScanMembers(hides, m.rest, false, rest);
    MembersFollow(m.after, m.rest, rest);
    if hides(m.key) {
      HiddenScanned(hides, m, tail);
    } else {
      ScanValue(hides, m.value, m.after + tail);
      ShownScanned(hides, m, tail);
    }
    ConcludeMember(hides, m, rest, tail);
  }

  /** On well-formed JSON text the scanner gives the text of the redacted
      tree. */
  lemma ScannerAgreesWithTree(hides: string -> bool, v: Json)
    requires WellFormed(v)
    ensures Scan(hides, Print(v)) == Print(Redacted(hides, v))
  {
    ScanValue(hides, v, "");
    assert Print(v) + "" == Print(v);
    assert Print(Redacted(hides, v)) + "" == Print(Redacted(hides, v));
  }

  // ----- two policies: the scanner's keys and the tree's -----

  /** Every key of v passes the test. */
  predicate Keys(ok: string -> bool, v: Json) {
    match v
    case Str(_) => true
    case Atom(_) => true
    case Arr(elements) => KeysOfElements(ok, elements)
    case Obj(members) => KeysOfMembers(ok, members)
  }

  predicate KeysOfElements(ok: string -> bool, e: Elements) {
    e.NoElements? || (Keys(ok, e.value) && KeysOfElements(ok, e.rest))
  }

  predicate KeysOfMembers(ok: string -> bool, m: Members) {
    m.NoMembers? || (ok(m.key) && Keys(ok, m.value) && KeysOfMembers(ok, m.rest))
  }

  /** Policies that agree where `ok` holds redact a value with such keys alike. */
  ghost predicate AgreeOn(ok: string -> bool, a: string -> bool, b: string -> bool) {
    forall key :: ok(key) ==> a(key) == b(key)
  }

  lemma {:induction false} SameTree(ok: string -> bool, a: string -> bool, b: string -> bool, v: Json)
    requires AgreeOn(ok, a, b) && Keys(ok, v)
    ensures Redacted(a, v) == Redacted(b, v)
  {
    match v
    case Str(_) =>
    case Atom(_) =>
    case Arr(elements) => SameElements(ok, a, b, elements);
    case Obj(members) => SameMembers(ok, a, b, members);
  }

  lemma {:induction false} SameElements(ok: string -> bool, a: string -> bool, b: string -> bool, e: Elements)
    requires AgreeOn(ok, a, b) && KeysOfElements(ok, e)
    ensures RedactedElements(a, e) == RedactedElements(b, e)
  {
    if e.Element? {
      SameTree(ok, a, b, e.value);
      SameElements(ok, a, b, e.rest);
    }
  }

  lemma {:induction false} SameMembers(ok: string -> bool, a: string -> bool, b: string -> bool, m: Members)
    requires AgreeOn(ok, a, b) && KeysOfMembers(ok, m)
    ensures RedactedMembers(a, m) == RedactedMembers(b, m)
  {
    if m.Member? {
      SameTree(ok, a, b, m.value);
      SameMembers(ok, a, b, m.rest);
    }
  }

  /** What a quoted body is read as, or that it cannot be. */
  datatype Read = Unreadable | Key(name: string)

  /** A body that no reader of string literals changes. */
  predicate Verbatim(body: string) { '\\' !in body && '\n' !in body }

  /** The scanner reads a key as a Go literal, the tree as a JSON string.  They
      may differ on escapes; on a value whose keys have none, scanning its text
      gives the text of the redacted tree. */
  lemma ScannerAgreesOnVerbatimKeys(unquote: string -> Read, unescape: string -> string, sensitive: string -> bool, v: Json)
    requires forall body :: Verbatim(body) ==> unquote(body) == Key(body) && unescape(body) == body
    requires WellFormed(v) && Keys(Verbatim, v)
    ensures Scan(body => unquote(body).Key? && sensitive(unquote(body).name), Print(v))
            == Print(Redacted(body => sensitive(unescape(body)), v))
  {
    var scanned, parsed := (body: string) => unquote(body).Key? && sensitive(unquote(body).name),
                           (body: string) => sensitive(unescape(body));
    ScannerAgreesWithTree(scanned, v);
    SameTree(Verbatim, scanned, parsed, v);
  }
}
