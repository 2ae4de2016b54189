/** What the cleaned agent string is: the default, or products with optional
    comments, as many as fit; and cleaning it again changes nothing. */
module BotAgentGrammar {
  import opened BotAgent

  // ----- the grammar -----

  /** A product and the words of its comment, none if it has no comment. */
  datatype Element = Element(product: string, comment: seq<string>)

  predicate Words(ws: seq<string>) { forall i :: 0 <= i < |ws| ==> Word(ws[i]) }

  /** The words of a comment form "(...)" with nothing but comment characters
      inside. */
  predicate CommentWords(ws: seq<string>) {
    && ws != [] && Words(ws) && Opens(Join(ws)) && Shuts(Join(ws)) && |Join(ws)| >= 2
    && Comment(Join(ws)[1..|Join(ws)| - 1])
  }

  predicate Good(e: Element) { Product(e.product) && (e.comment != [] ==> CommentWords(e.comment)) }

  predicate AllGood(es: seq<Element>) { forall i :: 0 <= i < |es| ==> Good(es[i]) }

  function Text(e: Element): string {
    if e.comment == [] then e.product else e.product + " " + Join(e.comment)
  }

  function Texts(es: seq<Element>): (r: seq<string>)
    ensures |r| == |es| && forall i :: 0 <= i < |es| ==> r[i] == Text(es[i])
  {
    seq(|es|, i requires 0 <= i < |es| => Text(es[i]))
  }

  function Tokens(es: seq<Element>): seq<string> {
    if es == [] then []
    else [es[0].product] + (if es[0].comment == [] then [] else [Join(es[0].comment)]) + Tokens(es[1..])
  }

  function WordsOf(es: seq<Element>): seq<string> {
    if es == [] then [] else [es[0].product] + es[0].comment + WordsOf(es[1..])
  }

  // ----- characters -----

  lemma ProductFacts(p: string)
    requires Product(p)
    ensures Word(p) && !Opens(p) && !Shuts(p) && |p| <= 65
  {
    var i :| 0 <= i < |p| && SlashAt(p, i);
    forall k | 0 <= k < |p|
      ensures !IsSpace(p[k]) && p[k] != '(' && p[k] != ')'
    {
      assert k < i ==> NameChar(p[k]);
      assert k > i ==> VersionChar(p[k]);
    }
  }

  /** An element is at most 132 characters long. */
  lemma ElementLength(e: Element)
    requires Good(e)
    ensures 0 < |Text(e)| <= 132
  {
    ProductFacts(e.product);
  }

  // ----- words and joined text -----

  lemma JoinCons(w: string, ws: seq<string>)
    ensures Join([w] + ws) == if ws == [] then w else w + " " + Join(ws)
  {
    assert ([w] + ws)[1..] == ws;
  }

  lemma {:induction false} WordEnds(w: string, rest: string)
    requires Word(w) && (rest == "" || IsSpace(rest[0]))
    ensures WordEnd(w + rest) == |w|
  {
    if |w| == 1 {
      assert (w + rest)[1..] == rest;
    } else {
      WordEnds(w[1..], rest);
      assert (w + rest)[1..] == w[1..] + rest;
    }
  }

  lemma FieldsOfWord(w: string, rest: string)
    requires Word(w) && (rest == "" || IsSpace(rest[0]))
    ensures Fields(w + rest) == [w] + Fields(rest)
  {
    WordEnds(w, rest);
    assert (w + rest)[..|w|] == w && (w + rest)[|w|..] == rest;
  }

  /** Splitting joined words gives the words back. */
  lemma {:induction false} FieldsOfJoin(ws: seq<string>)
    requires Words(ws)
    ensures Fields(Join(ws)) == ws
  {
    if |ws| == 1 {
      FieldsOfWord(ws[0], "");
      assert ws[0] + "" == ws[0];
    } else if ws != [] {
      FieldsOfJoin(ws[1..]);
      var rest := " " + Join(ws[1..]);
      assert rest[1..] == Join(ws[1..]);
      FieldsOfWord(ws[0], rest);
      assert Join(ws) == ws[0] + rest;
    }
  }

  lemma {:induction false} JoinEnds(ws: seq<string>)
    requires Words(ws) && ws != []
    ensures var t := Join(ws); t != "" && t[0] == ws[0][0] && t[|t| - 1] == ws[|ws| - 1][|ws[|ws| - 1]| - 1]
    ensures !IsSpace(Join(ws)[0]) && !IsSpace(Join(ws)[|Join(ws)| - 1])
  {
    if |ws| > 1 {
      JoinEnds(ws[1..]);
    }
  }

  lemma TrimOfJoin(ws: seq<string>)
    requires Words(ws) && ws != []
    ensures Trim(Join(ws)) == Join(ws)
  {
    JoinEnds(ws);
  }

  lemma {:induction false} JoinConcat(a: seq<string>, b: seq<string>)
    requires a != [] && b != []
    ensures Join(a + b) == Join(a) + " " + Join(b)
  {
    if |a| > 1 {
      JoinConcat(a[1..], b);
      assert (a + b)[1..] == a[1..] + b;
    } else {
      assert (a + b)[1..] == b;
    }
  }

  // ----- what is accepted -----

  /** A token: one word, or the joined words of something that opens. */
  predicate Token(t: string, ws: seq<string>) { ws != [] && Words(ws) && t == Join(ws) && (|ws| > 1 ==> Opens(t)) }

  predicate TokenList(tokens: seq<string>, groups: seq<seq<string>>) {
    |tokens| == |groups| && forall i :: 0 <= i < |tokens| ==> Token(tokens[i], groups[i])
  }

  lemma {:induction false} AbsorbJoins(ws: seq<string>, rest: seq<string>) returns (group: seq<string>)
    requires ws != [] && Words(ws) && Words(rest) && Opens(Join(ws))
    ensures var r := Absorb(Join(ws), rest);
      Token(r.0, group) && Words(r.1)
    decreases |rest|
  {
    if rest == [] || Shuts(Join(ws)) {
      group := ws;
    } else {
      JoinMore(ws, rest[0]);
      JoinEnds(ws);
      group := AbsorbJoins(ws + [rest[0]], rest[1..]);
    }
  }

  lemma TokenListCons(tok: string, group: seq<string>, tokens: seq<string>, groups: seq<seq<string>>)
    requires Token(tok, group) && TokenList(tokens, groups)
    ensures TokenList([tok] + tokens, [group] + groups)
  {
  }

  lemma {:induction false} GlueTokens(words: seq<string>) returns (groups: seq<seq<string>>)
    requires Words(words)
    ensures TokenList(Glue(words), groups)
    decreases |words|
  {
    if words == [] {
      groups := [];
    } else {
      assert Join([words[0]]) == words[0];
      if Opens(words[0]) && !Shuts(words[0]) {
        var r := Absorb(words[0], words[1..]);
        var group := AbsorbJoins([words[0]], words[1..]);
        var more := GlueTokens(r.1);
        TokenListCons(r.0, group, Glue(r.1), more);
        groups := [group] + more;
      } else {
        var more := GlueTokens(words[1..]);
        TokenListCons(words[0], [words[0]], Glue(words[1..]), more);
        groups := [[words[0]]] + more;
      }
    }
  }

  lemma TextsCons(e: Element, es: seq<Element>)
    ensures Texts([e] + es) == [Text(e)] + Texts(es)
  {
  }

  lemma TakenText(pending: string, tok: string, ws: seq<string>)
    requires Takes(pending, tok) && Token(tok, ws) && Product(pending)
    ensures Good(Element(pending, ws)) && Completed(pending, tok) == [Text(Element(pending, ws))]
  {
    assert tok == "(" + tok[1..|tok| - 1] + ")";
    assert pending + " (" + tok[1..|tok| - 1] + ")" == pending + " " + tok;
  }

  lemma {:induction false} AcceptedAreGood(tokens: seq<string>, groups: seq<seq<string>>, pending: string) returns (es: seq<Element>)
    requires TokenList(tokens, groups) && (pending == "" || Product(pending))
    ensures AllGood(es) && Accept(tokens, pending) == Texts(es)
    decreases |tokens|
  {
    if tokens == [] {
      es := if pending == "" then [] else [Element(pending, [])];
    } else {
      var tok := tokens[0];
      var rest := AcceptedAreGood(tokens[1..], groups[1..], Pending(tok));
      if Takes(pending, tok) {
        es := [Element(pending, groups[0])] + rest;
        TakenText(pending, tok, groups[0]);
        TextsCons(Element(pending, groups[0]), rest);
      } else if pending != "" {
        es := [Element(pending, [])] + rest;
        TextsCons(Element(pending, []), rest);
      } else {
        es := rest;
        assert [] + Texts(rest) == Texts(rest);
      }
    }
  }

  // ----- reading elements back -----

  lemma InnerHasNoShut(ws: seq<string>, i: nat)
    requires CommentWords(ws) && i + 1 < |ws|
    ensures !Shuts(Join(ws[..i + 1]))
  {
    var t, p := Join(ws), Join(ws[..i + 1]);
    assert ws == ws[..i + 1] + ws[i + 1..];
    JoinConcat(ws[..i + 1], ws[i + 1..]);
    JoinEnds(ws[..i + 1]);
    var last := |p| - 1;
    assert t[last] == p[last];
    if last > 0 {
      assert t[1..|t| - 1][last - 1] == t[last];
    }
  }

  lemma {:induction false} AbsorbComment(ws: seq<string>, i: nat, rest: seq<string>)
    requires CommentWords(ws) && i < |ws|
    ensures Absorb(Join(ws[..i + 1]), ws[i + 1..] + rest) == (Join(ws), rest)
    decreases |ws| - i
  {
    if i + 1 == |ws| {
      assert ws[..i + 1] == ws && ws[i + 1..] + rest == rest;
    } else {
      InnerHasNoShut(ws, i);
      var more := ws[i + 1..] + rest;
      assert more[0] == ws[i + 1] && more[1..] == ws[i + 2..] + rest;
      JoinMore(ws[..i + 1], ws[i + 1]);
      assert ws[..i + 1] + [ws[i + 1]] == ws[..i + 2];
      AbsorbComment(ws, i + 1, rest);
    }
  }

  lemma GlueComment(ws: seq<string>, rest: seq<string>)
    requires CommentWords(ws)
    ensures Glue(ws + rest) == [Join(ws)] + Glue(rest)
  {
    JoinEnds(ws);
    var all := ws + rest;
    assert all[0] == ws[0] && all[1..] == ws[1..] + rest;
    assert Join(ws[..1]) == ws[0];
    if |ws| > 1 {
      InnerHasNoShut(ws, 0);
      AbsorbComment(ws, 0, rest);
    } else {
      assert ws[1..] + rest == rest;
    }
  }

  lemma GlueProduct(p: string, rest: seq<string>)
    requires Product(p)
    ensures Glue([p] + rest) == [p] + Glue(rest)
  {
    ProductFacts(p);
    assert ([p] + rest)[1..] == rest;
  }

  lemma WordsFirst(es: seq<Element>)
    requires es != []
    ensures WordsOf(es) == [es[0].product] + (es[0].comment + WordsOf(es[1..]))
  {
  }

  lemma GlueRest(e: Element, rest: seq<string>)
    requires Good(e)
    ensures Glue(e.comment + rest) == (if e.comment == [] then [] else [Join(e.comment)]) + Glue(rest)
  {
    if e.comment != [] {
      GlueComment(e.comment, rest);
    } else {
      assert e.comment + rest == rest;
    }
  }

  lemma {:induction false} GlueWords(es: seq<Element>)
    requires AllGood(es)
    ensures Glue(WordsOf(es)) == Tokens(es)
  {
    if es != [] {
      var e, rest := es[0], WordsOf(es[1..]);
      GlueWords(es[1..]);
      WordsFirst(es);
      GlueProduct(e.product, e.comment + rest);
      GlueRest(e, rest);
    }
  }

  lemma AcceptComment(p: string, ws: seq<string>, rest: seq<string>)
    requires Product(p) && CommentWords(ws)
    ensures Accept([Join(ws)] + rest, p) == [Text(Element(p, ws))] + Accept(rest, "")
  {
    var tok := Join(ws);
    ProductFacts(p);
    AcceptUnfolds([tok] + rest, tok, rest, p);
    assert tok == "(" + tok[1..|tok| - 1] + ")";
    assert p + " (" + tok[1..|tok| - 1] + ")" == p + " " + tok;
  }

  lemma AcceptProduct(p: string, rest: seq<string>, pending: string)
    requires Product(p)
    ensures Accept([p] + rest, pending) == Flush(pending) + Accept(rest, p)
  {
    ProductFacts(p);
    AcceptUnfolds([p] + rest, p, rest, pending);
  }

  /** The tokens of one element, and of those after it. */
  lemma TokensCons(e: Element, es: seq<Element>)
    ensures Tokens([e] + es) ==
      if e.comment == [] then [e.product] + Tokens(es) else [e.product] + ([Join(e.comment)] + Tokens(es))
  {
    assert ([e] + es)[1..] == es;
  }

  lemma {:induction false} AcceptTokens(es: seq<Element>, pending: string)
    requires AllGood(es)
    ensures Accept(Tokens(es), pending) == Flush(pending) + Texts(es)
    decreases |es|, 0
  {
    if es != [] {
      var e, rest := es[0], Tokens(es[1..]);
      assert es == [e] + es[1..];
      TokensCons(e, es[1..]);
      TextsCons(e, es[1..]);
      AcceptElement(e, es[1..], pending);
    }
  }

  lemma {:induction false} AcceptElement(e: Element, es: seq<Element>, pending: string)
    requires Good(e) && AllGood(es)
    ensures e.comment == [] ==> Accept([e.product] + Tokens(es), pending) == Flush(pending) + ([Text(e)] + Texts(es))
    ensures e.comment != [] ==>
      Accept([e.product] + ([Join(e.comment)] + Tokens(es)), pending) == Flush(pending) + ([Text(e)] + Texts(es))
    decreases |es|, 1
  {
    var rest := Tokens(es);
    if e.comment == [] {
      AcceptTokens(es, e.product);
      ProductFacts(e.product);
      AcceptProduct(e.product, rest, pending);
    } else {
      AcceptTokens(es, "");
      assert Flush("") + Texts(es) == Texts(es);
      AcceptProduct(e.product, [Join(e.comment)] + rest, pending);
      AcceptComment(e.product, e.comment, rest);
    }
  }

  lemma {:induction false} WordsJoin(es: seq<Element>)
    requires AllGood(es)
    ensures Words(WordsOf(es)) && (es != [] ==> WordsOf(es) != [])
    ensures Join(WordsOf(es)) == Join(Texts(es))
  {
    if es != [] {
      var e, rest := es[0], es[1..];
      WordsJoin(rest);
      ProductFacts(e.product);
      assert es == [e] + rest;
      TextsCons(e, rest);
      var head := [e.product] + e.comment;
      JoinCons(e.product, e.comment);
      JoinCons(Text(e), Texts(rest));
      assert Join(head) == Text(e);
      if rest != [] {
        JoinConcat(head, WordsOf(rest));
      } else {
        assert WordsOf(es) == head;
      }
    }
  }

  lemma SanitizedOf(raw: string, elements: seq<string>)
    requires Trim(raw) == raw && raw != "" && Accept(Glue(Fields(raw)), "") == elements
    requires elements != [] && |Join(elements)| <= MaxLength
    ensures Sanitized(raw) == Join(elements)
  {
    KeptWhole(elements);
  }

  /** Elements that fit are read back as they are. */
  lemma ElementsKept(es: seq<Element>)
    requires es != [] && AllGood(es) && |Join(Texts(es))| <= MaxLength
    ensures Sanitized(Join(Texts(es))) == Join(Texts(es))
  {
    var ws := WordsOf(es);
    WordsJoin(es);
    JoinEnds(ws);
    TrimOfJoin(ws);
    FieldsOfJoin(ws);
    GlueWords(es);
    AcceptTokens(es, "");
    assert Flush("") + Texts(es) == Texts(es);
    SanitizedOf(Join(ws), Texts(es));
  }

  lemma KeptWhole(elements: seq<string>)
    requires |Join(elements)| <= MaxLength
    ensures Longest(elements, |elements|) == |elements| && elements[..|elements|] == elements
  {
    assert elements[..|elements|] == elements;
  }

  // ----- the results -----

  lemma LongestAtLeast(elements: seq<string>, k: nat, m: nat)
    requires m <= k <= |elements| && |Join(elements[..m])| <= MaxLength
    ensures m <= Longest(elements, k)
  {
  }

  lemma FirstFits(es: seq<Element>)
    requires AllGood(es) && es != []
    ensures 0 < Longest(Texts(es), |es|)
  {
    ElementLength(es[0]);
    var texts := Texts(es);
    assert texts[..1] == [Text(es[0])];
    assert Join([Text(es[0])]) == Text(es[0]);
    LongestAtLeast(texts, |es|, 1);
  }

  lemma PrefixTexts(es: seq<Element>, n: nat)
    requires n <= |es|
    ensures Texts(es)[..n] == Texts(es[..n])
  {
  }

  /** The result is the default, or the text of the longest prefix that fits
      of the elements found; such a prefix is never empty. */
  lemma ResultInGrammar(raw: string) returns (es: seq<Element>, n: nat)
    ensures Texts(es) == if Trim(raw) == "" then [] else Accept(Glue(Fields(Trim(raw))), "")
    ensures AllGood(es) && n <= |es| && (es == [] <==> n == 0)
    ensures Sanitized(raw) == if es == [] then Default else Join(Texts(es[..n]))
    ensures |Sanitized(raw)| <= MaxLength
    ensures forall m :: n < m <= |es| ==> |Join(Texts(es[..m]))| > MaxLength
  {
    var trimmed := Trim(raw);
    es, n := [], 0;
    if trimmed != "" {
      var groups := GlueTokens(Fields(trimmed));
      es := AcceptedAreGood(Glue(Fields(trimmed)), groups, "");
      n := Longest(Texts(es), |es|);
      if es != [] {
        FirstFits(es);
      }
      forall m | 0 <= m <= |es|
        ensures Texts(es)[..m] == Texts(es[..m])
      {
        PrefixTexts(es, m);
      }
    }
  }

  /** A single word that is no product leaves nothing. */
  lemma NothingFound(w: string)
    requires Word(w) && !Opens(w) && '/' !in w
    ensures Trim(w) == w && Accept(Glue(Fields(w)), "") == []
  {
    assert Join([w]) == w;
    FieldsOfJoin([w]);
    TrimOfJoin([w]);
    assert Glue([w]) == [w] + Glue([w][1..]);
    assert !Product(w);
    AcceptUnfolds([w], w, [], "");
  }

  lemma DefaultKept()
    ensures Sanitized(Default) == Default
  {
    assert Default == "OpenClaw";
    NothingFound("OpenClaw");
  }

  /** Cleaning a cleaned string changes nothing. */
  lemma SanitizedTwice(raw: string)
    ensures Sanitized(Sanitized(raw)) == Sanitized(raw)
  {
    var es, n := ResultInGrammar(raw);
    if es == [] {
      DefaultKept();
    } else {
      ElementsKept(es[..n]);
    }
  }
}
