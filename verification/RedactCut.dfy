/** Text that is no JSON: cut off, malformed or unclosed.  A hidden key's value
    is hidden to the end of what belongs to it, which for a value that never
    closes is the end of the text. */
module RedactCut {
  import opened Seqs
  import opened Redact
  import opened RedactJson

  // ----- a value that is cut off -----

  function Least(m: nat, n: nat): nat { if m < n then m else n }

  lemma {:induction false} BodyCut(t: string, n: nat, escaped: bool)
    requires n <= |t|
    ensures BodyEnd(t[..n], escaped).0 == Least(n, BodyEnd(t, escaped).0)
    decreases n
  {
    if n > 0 && (escaped || t[0] != '"') {
      BodyCut(t[1..], n - 1, !escaped && t[0] == '\\');
      assert t[..n][1..] == t[1..][..n - 1];
    }
  }

  lemma {:induction false} AtomCut(t: string, n: nat)
    requires n <= |t|
    ensures AtomEnd(t[..n]) == Least(n, AtomEnd(t))
    decreases n
  {
    if n > 0 && !IsDelimiter(t[0]) {
      AtomCut(t[1..], n - 1);
      assert t[..n][1..] == t[1..][..n - 1];
    }
  }

  lemma {:induction false} NestedCut(t: string, n: nat, d: Depth)
    requires n <= |t|
    ensures NestedEnd(t[..n], d) == Least(n, NestedEnd(t, d))
    decreases n
  {
    if n > 0 && !Closed(d, t[0]) {
      NestedCut(t[1..], n - 1, Seen(d, t[0]));
      assert t[..n][1..] == t[1..][..n - 1];
    }
  }

  lemma ValueCut(t: string, n: nat)
    requires n <= |t|
    ensures ValueEnd(t[..n]) == Least(n, ValueEnd(t))
  {
    if n > 0 {
      assert t[..n][1..] == t[1..][..n - 1];
      BodyCut(t[1..], n - 1, false);
      AtomCut(t, n);
      NestedCut(t, n, Shallow);
    }
  }

  // ----- a hidden key and what follows it -----

  /** Everything of the value is read, and something else follows or nothing. */
  lemma HidesRead(hides: string -> bool, key: string, mid: string, gap: string, value: string, rest: string)
    requires Body(key) && hides(key) && Space(mid) && Space(gap)
    requires value + rest == "" || !IsSpace((value + rest)[0])
    requires ValueEnd(value + rest) == |value|
    ensures var head := Quoted(key) + (mid + (":" + gap));
      Scan(hides, head + (value + rest)) == head + Replacement + Scan(hides, rest)
  {
    var head := Quoted(key) + (mid + (":" + gap));
    HeadStart(hides, key, mid, gap, value + rest);
    Slices(head, value, rest);
    ReplacedTurn(hides, head + (value + rest), head, |head|, value + rest);
    ScanUnfolds(hides, head + (value + rest), head + Replacement, rest);
  }

  lemma EmptyTail(mid: string, gap: string)
    requires Space(mid) && Space(gap)
    ensures var t := mid + (":" + gap); ColonNext(t) && PastColon(t) == |t|
  {
    SpaceEnds(mid, ":" + gap);
    Halves(mid, ":" + gap);
    Halves(":", gap);
    DropDrop(mid + (":" + gap), |mid|, 1);
    assert gap + "" == gap;
    SpaceEnds(gap, "");
  }

  /** As HiddenStart, the text may end after the colon. */
  lemma HeadStart(hides: string -> bool, key: string, mid: string, gap: string, tail: string)
    requires Body(key) && hides(key) && Space(mid) && Space(gap) && (tail == "" || !IsSpace(tail[0]))
    ensures var head := Quoted(key) + (mid + (":" + gap));
      && (head + tail)[0] == '"' && HiddenKey(hides, head + tail) && ValueStart(head + tail) == |head|
  {
    var head := Quoted(key) + (mid + (":" + gap));
    if tail == "" {
      KeyFacts(hides, key, mid + (":" + gap));
      EmptyTail(mid, gap);
      assert head + tail == head;
    } else {
      HiddenStart(hides, key, mid, gap, tail);
    }
  }

  /** A log line cut off anywhere inside the value of a hidden key shows nothing
      of that value. */
  lemma CutValueHidden(hides: string -> bool, key: string, mid: string, gap: string, v: Json, n: nat)
    requires Body(key) && hides(key) && Space(mid) && Space(gap) && WellFormed(v) && n <= |Print(v)|
    ensures var head := Quoted(key) + (mid + (":" + gap)); Scan(hides, head + Print(v)[..n]) == head + Replacement
  {
    assert Print(v) + "" == Print(v);
    ValueEndsExactly(v, "");
    ValueCut(Print(v), n);
    FirstOfValue(v, "");
    RestIsHidden(hides, key, mid, gap, Print(v)[..n]);
  }

  /** If all that follows belongs to the value, nothing of it is shown. */
  lemma RestIsHidden(hides: string -> bool, key: string, mid: string, gap: string, value: string)
    requires Body(key) && hides(key) && Space(mid) && Space(gap) && (value == "" || !IsSpace(value[0]))
    requires ValueEnd(value) == |value|
    ensures var head := Quoted(key) + (mid + (":" + gap)); Scan(hides, head + value) == head + Replacement
  {
    assert value + "" == value;
    HidesRead(hides, key, mid, gap, value, "");
    assert Quoted(key) + (mid + (":" + gap)) + Replacement + "" == Quoted(key) + (mid + (":" + gap)) + Replacement;
  }

  // ----- a string that never closes -----

  /** Every quote in u is escaped; a last backslash may escape nothing. */
  predicate Unclosed(u: string) {
    u == "" || (if u[0] == '\\' then |u| == 1 || Unclosed(u[2..]) else u[0] != '"' && Unclosed(u[1..]))
  }

  lemma {:induction false} UnclosedIsRead(u: string)
    requires Unclosed(u)
    ensures BodyEnd(u, false) == (|u|, false)
  {
    if u == "" {
    } else if u[0] == '\\' {
      if |u| > 1 {
        UnclosedIsRead(u[2..]);
        assert u[1..][1..] == u[2..];
      } else {
        assert u[1..] == "";
      }
    } else {
      UnclosedIsRead(u[1..]);
    }
  }

  lemma UnclosedStringHidden(hides: string -> bool, key: string, mid: string, gap: string, u: string)
    requires Body(key) && hides(key) && Space(mid) && Space(gap) && Unclosed(u)
    ensures var head := Quoted(key) + (mid + (":" + gap)); Scan(hides, head + ("\"" + u)) == head + Replacement
  {
    UnclosedIsRead(u);
    assert ("\"" + u)[1..] == u;
    RestIsHidden(hides, key, mid, gap, "\"" + u);
  }

  /** Outside any value such a string is left as it is, to the end. */
  lemma UnclosedStringShown(hides: string -> bool, u: string)
    requires Unclosed(u)
    ensures Scan(hides, "\"" + u) == "\"" + u
  {
    UnclosedIsRead(u);
    assert ("\"" + u)[1..] == u;
    LastTurn(hides, "\"" + u);
  }

  // ----- values without quotes or braces, JSON or not -----

  /** Neither a string nor an object nor an array, up to a delimiter. */
  predicate Bare(x: string) {
    (x != "" ==> x[0] != '"' && x[0] != '{' && x[0] != '[') && forall i :: 0 <= i < |x| ==> !IsDelimiter(x[i])
  }

  lemma {:induction false} BareIsRead(x: string, rest: string)
    requires (forall i :: 0 <= i < |x| ==> !IsDelimiter(x[i])) && Ends(rest)
    ensures AtomEnd(x + rest) == |x|
  {
    if x == "" {
      assert x + rest == rest;
    } else {
      BareIsRead(x[1..], rest);
      assert (x + rest)[1..] == x[1..] + rest;
    }
  }

  /** The value goes up to the delimiter, which is kept; it may be missing. */
  lemma BareValueHidden(hides: string -> bool, key: string, mid: string, gap: string, x: string, rest: string)
    requires Body(key) && hides(key) && Space(mid) && Space(gap) && Bare(x) && Ends(rest)
    requires x == "" && rest != "" ==> !IsSpace(rest[0])
    ensures var head := Quoted(key) + (mid + (":" + gap));
      Scan(hides, head + (x + rest)) == head + Replacement + Scan(hides, rest)
  {
    BareIsRead(x, rest);
    HidesRead(hides, key, mid, gap, x, rest);
  }

  // ----- nested values, JSON or not -----

  /** Text between braces: complete strings, groups, and any other bytes. */
  datatype Junk =
    | Nothing
    | Byte(c: char, rest: Junk)
    | Text(body: string, rest: Junk)
    | Group(brace: bool, inside: Junk, rest: Junk)

  function OpenOf(brace: bool): char { if brace then '{' else '[' }

  function CloseOf(brace: bool): char { if brace then '}' else ']' }

  function PrintJunk(j: Junk): string {
    match j
    case Nothing => ""
    case Byte(c, rest) => [c] + PrintJunk(rest)
    case Text(body, rest) => Quoted(body) + PrintJunk(rest)
    case Group(brace, inside, rest) => [OpenOf(brace)] + (PrintJunk(inside) + ([CloseOf(brace)] + PrintJunk(rest)))
  }

  predicate Shaped(j: Junk) {
    match j
    case Nothing => true
    case Byte(c, rest) => Neutral([c]) && Shaped(rest)
    case Text(body, rest) => Body(body) && Shaped(rest)
    case Group(_, inside, rest) => Shaped(inside) && Shaped(rest)
  }

  lemma {:induction false} JunkIsRead(j: Junk, rest: string, objects: nat, arrays: nat)
    requires Shaped(j) && objects + arrays > 0
    ensures NestedEnd(PrintJunk(j) + rest, Open(objects, arrays)) == |PrintJunk(j)| + NestedEnd(rest, Open(objects, arrays))
    decreases j
  {
    match j
    case Nothing => assert PrintJunk(j) + rest == rest;
    case Byte(c, more) =>
      JunkIsRead(more, rest, objects, arrays);
      NestedNeutral([c], PrintJunk(more) + rest, objects, arrays);
      Associate([c], PrintJunk(more), rest);
    case Text(body, more) =>
      JunkIsRead(more, rest, objects, arrays);
      NestedString(body, PrintJunk(more) + rest, objects, arrays);
      Associate(Quoted(body), PrintJunk(more), rest);
    case Group(brace, inside, more) =>
      JunkIsRead(more, rest, objects, arrays);
      GroupText(brace, PrintJunk(inside), PrintJunk(more), rest);
      var d := Deeper(brace, objects, arrays);
      JunkIsRead(inside, [CloseOf(brace)] + (PrintJunk(more) + rest), d.objects, d.arrays);
      GroupIsRead(brace, PrintJunk(inside), PrintJunk(more) + rest, objects, arrays);
  }

  function Deeper(brace: bool, objects: nat, arrays: nat): Depth {
    if brace then Open(objects + 1, arrays) else Open(objects, arrays + 1)
  }

  lemma GroupText(brace: bool, inside: string, more: string, rest: string)
    ensures ([OpenOf(brace)] + (inside + ([CloseOf(brace)] + more))) + rest ==
      [OpenOf(brace)] + (inside + ([CloseOf(brace)] + (more + rest)))
  {
  }

  lemma GroupOpens(brace: bool, tail: string, objects: nat, arrays: nat)
    ensures NestedEnd([OpenOf(brace)] + tail, Open(objects, arrays)) == 1 + NestedEnd(tail, Deeper(brace, objects, arrays))
  {
    Halves([OpenOf(brace)], tail);
  }

  /** A group, from what its inside was read as. */
  lemma GroupIsRead(brace: bool, inside: string, rest: string, objects: nat, arrays: nat)
    requires var d := Deeper(brace, objects, arrays);
      NestedEnd(inside + ([CloseOf(brace)] + rest), d) == |inside| + NestedEnd([CloseOf(brace)] + rest, d)
    ensures NestedEnd([OpenOf(brace)] + (inside + ([CloseOf(brace)] + rest)), Open(objects, arrays)) ==
      |inside| + 2 + Beyond(rest, objects, arrays)
  {
    GroupOpens(brace, inside + ([CloseOf(brace)] + rest), objects, arrays);
    CloserRead(CloseOf(brace), rest, objects, arrays);
  }

  /** A nested value that closes is hidden up to its closing character. */
  lemma GroupHidden(hides: string -> bool, key: string, mid: string, gap: string, brace: bool, inside: Junk, rest: string)
    requires Body(key) && hides(key) && Space(mid) && Space(gap) && Shaped(inside)
    ensures var head := Quoted(key) + (mid + (":" + gap));
      Scan(hides, head + ((([OpenOf(brace)] + PrintJunk(inside)) + [CloseOf(brace)]) + rest)) == head + Replacement + Scan(hides, rest)
  {
    var value := ([OpenOf(brace)] + PrintJunk(inside)) + [CloseOf(brace)];
    var d := Deeper(brace, 0, 0);
    JunkIsRead(inside, [CloseOf(brace)] + rest, d.objects, d.arrays);
    GroupIsRead(brace, PrintJunk(inside), rest, 0, 0);
    assert value + rest == [OpenOf(brace)] + (PrintJunk(inside) + ([CloseOf(brace)] + rest));
    HidesRead(hides, key, mid, gap, value, rest);
  }

  /** What follows an opening character that is never closed: the text ends
      between pieces, inside a string, or inside another such group. */
  datatype Cut =
    | Here(before: Junk)
    | InString(before: Junk, u: string)
    | InGroup(before: Junk, brace: bool, inner: Cut)

  function PrintCut(x: Cut): string {
    match x
    case Here(before) => PrintJunk(before)
    case InString(before, u) => PrintJunk(before) + ("\"" + u)
    case InGroup(before, brace, inner) => PrintJunk(before) + ([OpenOf(brace)] + PrintCut(inner))
  }

  predicate NeverCloses(x: Cut) {
    match x
    case Here(before) => Shaped(before)
    case InString(before, u) => Shaped(before) && Unclosed(u)
    case InGroup(before, _, inner) => Shaped(before) && NeverCloses(inner)
  }

  lemma {:induction false} UnclosedNested(u: string, objects: nat, arrays: nat)
    requires Unclosed(u) && objects + arrays > 0
    ensures NestedEnd(u, Depth(objects, arrays, true, false)) == |u|
  {
    if u == "" {
    } else if u[0] == '\\' {
      if |u| > 1 {
        UnclosedNested(u[2..], objects, arrays);
        assert u[1..][1..] == u[2..];
      } else {
        assert u[1..] == "";
      }
    } else {
      UnclosedNested(u[1..], objects, arrays);
    }
  }

  lemma {:induction false} CutIsRead(x: Cut, objects: nat, arrays: nat)
    requires NeverCloses(x) && objects + arrays > 0
    ensures NestedEnd(PrintCut(x), Open(objects, arrays)) == |PrintCut(x)|
    decreases x
  {
    match x
    case Here(before) =>
      JunkIsRead(before, "", objects, arrays);
      assert PrintJunk(before) + "" == PrintJunk(before);
    case InString(before, u) =>
      JunkIsRead(before, "\"" + u, objects, arrays);
      UnclosedNested(u, objects, arrays);
      assert ("\"" + u)[1..] == u;
    case InGroup(before, brace, inner) =>
      var d := Deeper(brace, objects, arrays);
      JunkIsRead(before, [OpenOf(brace)] + PrintCut(inner), objects, arrays);
      GroupOpens(brace, PrintCut(inner), objects, arrays);
      CutIsRead(inner, d.objects, d.arrays);
  }

  /** An object or array that never closes is hidden to the end of the text,
      whatever strings and groups it holds. */
  lemma UnclosedGroupHidden(hides: string -> bool, key: string, mid: string, gap: string, brace: bool, x: Cut)
    requires Body(key) && hides(key) && Space(mid) && Space(gap) && NeverCloses(x)
    ensures var head := Quoted(key) + (mid + (":" + gap)); Scan(hides, head + ([OpenOf(brace)] + PrintCut(x))) == head + Replacement
  {
    var d := Deeper(brace, 0, 0);
    CutIsRead(x, d.objects, d.arrays);
    GroupOpens(brace, PrintCut(x), 0, 0);
    RestIsHidden(hides, key, mid, gap, [OpenOf(brace)] + PrintCut(x));
  }
}
