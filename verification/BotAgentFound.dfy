/** What the cleaning of an agent string finds, for any input: the words,
    whatever white space is around them; the groups that comments are glued
    to; and of the tokens exactly the products, each with the comment that
    follows it. */
module BotAgentFound {
  import opened Seqs
  import opened BotAgent
  import opened BotAgentGrammar

  // ----- characters, by code point -----

  /** The code points with Unicode's White_Space property. */
  predicate WhiteSpace(n: int) {
    9 <= n <= 13 || n in [32, 133, 160, 5760, 8232, 8233, 8239, 8287, 12288] || 8192 <= n <= 8202
  }

  /** ASCII digits, capital and small letters, '-', '.' and '_'. */
  predicate NameCode(n: int) { 48 <= n <= 57 || 65 <= n <= 90 || 97 <= n <= 122 || n in [45, 46, 95] }

  lemma CharsByCode(c: char)
    ensures IsSpace(c) <==> WhiteSpace(c as int)
    ensures NameChar(c) <==> NameCode(c as int)
    ensures VersionChar(c) <==> NameCode(c as int) || c == '+'
    ensures CommentChar(c) <==> 32 <= c as int <= 126 && c != '(' && c != ')'
  {
  }

  predicate NameText(s: string) { 1 <= |s| <= 32 && forall k :: 0 <= k < |s| ==> NameCode(s[k] as int) }

  predicate VersionText(s: string) { 1 <= |s| <= 32 && forall k :: 0 <= k < |s| ==> NameCode(s[k] as int) || s[k] == '+' }

  ghost predicate NamedVersion(t: string) { exists name, version :: NameText(name) && VersionText(version) && t == name + ("/" + version) }

  lemma ProductSplits(t: string, i: nat)
    requires SlashAt(t, i)
    ensures NamedVersion(t)
  {
    var name, version := t[..i], t[i + 1..];
    forall k | 0 <= k < |name| ensures NameCode(name[k] as int) { CharsByCode(t[k]); }
    forall k | 0 <= k < |version| ensures NameCode(version[k] as int) || version[k] == '+' { CharsByCode(t[i + 1 + k]); }
    assert NameText(name) && VersionText(version) && t == name + ("/" + version);
  }

  lemma PartsAreProduct(name: string, version: string)
    requires NameText(name) && VersionText(version)
    ensures Product(name + ("/" + version))
  {
    var t := name + ("/" + version);
    forall k | 0 <= k < |name| ensures NameChar(t[k]) { CharsByCode(name[k]); }
    forall k | |name| < k < |t| ensures VersionChar(t[k]) { CharsByCode(version[k - |name| - 1]); }
    assert SlashAt(t, |name|);
  }

  /** A product is a name and a version of 1 to 32 characters each around a
      slash; a comment is 1 to 64 printable ASCII characters but parentheses. */
  lemma ProductAndCommentIff(t: string)
    ensures Product(t) <==> NamedVersion(t)
    ensures Comment(t) <==> 1 <= |t| <= 64 && forall k :: 0 <= k < |t| ==> 32 <= t[k] as int <= 126 && t[k] != '(' && t[k] != ')'
  {
    if Product(t) {
      var i :| 0 <= i < |t| && SlashAt(t, i);
      ProductSplits(t, i);
    }
    if NamedVersion(t) {
      var name, version :| NameText(name) && VersionText(version) && t == name + ("/" + version);
      PartsAreProduct(name, version);
    }
    forall k | 0 <= k < |t| ensures CommentChar(t[k]) <==> 32 <= t[k] as int <= 126 && t[k] != '(' && t[k] != ')' {
      CharsByCode(t[k]);
    }
  }

  // ----- words -----

  /** White space is skipped, and a word goes up to the next. */
  lemma FieldsExactly(c: char, w: string, t: string)
    ensures IsSpace(c) ==> Fields([c] + t) == Fields(t)
    ensures Word(w) && (t == "" || IsSpace(t[0])) ==> Fields(w + t) == [w] + Fields(t)
  {
    Halves([c], t);
    if Word(w) && (t == "" || IsSpace(t[0])) {
      FieldsOfWord(w, t);
    }
  }

  lemma {:induction false} FieldsOfTrimLeft(t: string)
    ensures Fields(TrimLeft(t)) == Fields(t)
  {
    if t != "" && IsSpace(t[0]) {
      FieldsOfTrimLeft(t[1..]);
    }
  }

  lemma {:induction false} WordEndBefore(t: string, c: char)
    requires IsSpace(c)
    ensures WordEnd(t + [c]) == WordEnd(t)
  {
    if t != "" {
      Uncons(t, [c]);
      if !IsSpace(t[0]) { WordEndBefore(t[1..], c); }
    } else {
      assert t + [c] == [c];
    }
  }

  lemma {:induction false} FieldsBefore(t: string, c: char)
    requires IsSpace(c)
    ensures Fields(t + [c]) == Fields(t)
    decreases |t|
  {
    if t == "" {
      assert t + [c] == [c] && [c][1..] == "";
    } else if IsSpace(t[0]) {
      Uncons(t, [c]);
      FieldsBefore(t[1..], c);
    } else {
      var n := WordEnd(t);
      WordEndBefore(t, c);
      assert (t + [c])[0] == t[0] && (t + [c])[..n] == t[..n] && (t + [c])[n..] == t[n..] + [c];
      FieldsBefore(t[n..], c);
    }
  }

  lemma SnocSpace(t: string, s: string, c: char)
    requires t == s + [c] && IsSpace(c)
    ensures t[..|t| - 1] == s && TrimRight(t) == TrimRight(s) && Fields(t) == Fields(s)
  {
    assert t[|t| - 1] == c && t[..|t| - 1] == s;
    FieldsBefore(s, c);
  }

  lemma {:induction false} FieldsOfTrimRight(t: string)
    ensures Fields(TrimRight(t)) == Fields(t)
  {
    if t != "" && IsSpace(t[|t| - 1]) {
      var s, c := t[..|t| - 1], t[|t| - 1];
      assert t == s + [c];
      SnocSpace(t, s, c);
      FieldsOfTrimRight(s);
    }
  }

  lemma {:induction false} TrimRightEnds(t: string)
    ensures TrimRight(t) == "" || !IsSpace(TrimRight(t)[|TrimRight(t)| - 1])
  {
    if t != "" && IsSpace(t[|t| - 1]) {
      TrimRightEnds(t[..|t| - 1]);
    }
  }

  lemma {:induction false} SomeWord(t: string)
    requires t != "" && !IsSpace(t[|t| - 1])
    ensures Fields(t) != []
  {
    if IsSpace(t[0]) {
      SomeWord(t[1..]);
    }
  }

  lemma FieldsOfTrimmed(raw: string)
    ensures Fields(Trim(raw)) == Fields(raw)
    ensures Trim(raw) == "" <==> Fields(raw) == []
  {
    FieldsOfTrimLeft(raw);
    FieldsOfTrimRight(TrimLeft(raw));
    TrimRightEnds(TrimLeft(raw));
    if Trim(raw) != "" { SomeWord(Trim(raw)); }
  }

  /** Only the words count: white space around and between them does not. */
  lemma OnlyWordsCount(a: string, b: string)
    requires Fields(a) == Fields(b)
    ensures Sanitized(a) == Sanitized(b)
  {
    FieldsOfTrimmed(a);
    FieldsOfTrimmed(b);
  }

  // ----- groups -----

  /** A word alone, or the words from one that opens a parenthesis to the first
      that ends with a closing one, or to the last word. */
  predicate GroupOf(g: seq<string>, last: bool) {
    && g != []
    && if Opens(g[0]) && !Shuts(g[0]) then
         (forall k :: 0 < k < |g| ==> !Shuts(Join(g[..k]))) && (last || Shuts(Join(g)))
       else |g| == 1
  }

  function Concat(groups: seq<seq<string>>): seq<string> { if groups == [] then [] else groups[0] + Concat(groups[1..]) }

  ghost predicate GroupsOf(words: seq<string>, groups: seq<seq<string>>) {
    && Concat(groups) == words
    && forall i :: 0 <= i < |groups| ==> GroupOf(groups[i], i == |groups| - 1)
  }

  ghost predicate Glued(tokens: seq<string>, groups: seq<seq<string>>) {
    |tokens| == |groups| && forall i :: 0 <= i < |tokens| ==> tokens[i] == Join(groups[i])
  }

  /** Absorbing goes on from the words taken so far. */
  lemma {:induction false} AbsorbTakes(taken: seq<string>, rest: seq<string>) returns (g: seq<string>)
    requires taken != [] && forall k :: 0 < k < |taken| ==> !Shuts(Join(taken[..k]))
    ensures var r := Absorb(Join(taken), rest);
      && g + r.1 == taken + rest && |taken| <= |g| && g[..|taken|] == taken && r.0 == Join(g)
      && (forall k :: 0 < k < |g| ==> !Shuts(Join(g[..k]))) && (r.1 == [] || Shuts(Join(g)))
    decreases |rest|
  {
    if rest == [] || Shuts(Join(taken)) {
      g := taken;
    } else {
      var more := taken + [rest[0]];
      JoinConcat(taken, [rest[0]]);
      assert Join([rest[0]]) == rest[0];
      assert forall k :: 0 < k < |taken| ==> more[..k] == taken[..k];
      assert more[..|taken|] == taken;
      g := AbsorbTakes(more, rest[1..]);
      assert more + rest[1..] == taken + rest;
      assert g[..|taken|] == g[..|more|][..|taken|];
    }
  }

  lemma GroupsCons(g: seq<string>, words: seq<string>, groups: seq<seq<string>>)
    requires GroupsOf(words, groups) && GroupOf(g, groups == [])
    ensures GroupsOf(g + words, [g] + groups)
  {
    assert ([g] + groups)[1..] == groups;
    forall i | 0 <= i < |[g] + groups| ensures GroupOf(([g] + groups)[i], i == |[g] + groups| - 1) {
      if i > 0 { assert ([g] + groups)[i] == groups[i - 1]; }
    }
  }

  lemma EmptyConcat(groups: seq<seq<string>>)
    requires Concat(groups) == [] && forall i :: 0 <= i < |groups| ==> groups[i] != []
    ensures groups == []
  {
  }

  /** The tokens are the groups of the words, in order, none left out. */
  lemma {:induction false} GlueGroups(words: seq<string>) returns (groups: seq<seq<string>>)
    ensures GroupsOf(words, groups) && Glued(Glue(words), groups)
    decreases |words|
  {
    if words == [] {
      groups := [];
    } else {
      var g, rest := [words[0]], words[1..];
      assert Join([words[0]]) == words[0];
      if Opens(words[0]) && !Shuts(words[0]) {
        g := AbsorbTakes([words[0]], words[1..]);
        assert g[0] == g[..1][0];
        rest := Absorb(words[0], words[1..]).1;
      }
      var more := GlueGroups(rest);
      assert rest == [] ==> more == [] by { if rest == [] { EmptyConcat(more); } }
      groups := [g] + more;
      GroupsCons(g, rest, more);
      assert g + rest == words;
    }
  }

  // ----- products -----

  predicate IsComment(tok: string) { |tok| >= 2 && Opens(tok) && Shuts(tok) && Comment(tok[1..|tok| - 1]) }

  /** The first token with the comment that follows it, if one does. */
  function Commented(tokens: seq<string>): string
    requires tokens != []
  {
    if |tokens| > 1 && IsComment(tokens[1]) then tokens[0] + " " + tokens[1] else tokens[0]
  }

  /** The products among the tokens, in order, each with its comment. */
  function Found(tokens: seq<string>): seq<string> {
    if tokens == [] then []
    else (if Product(tokens[0]) then [Commented(tokens)] else []) + Found(tokens[1..])
  }

  lemma CommentText(tok: string)
    requires |tok| >= 2 && Opens(tok) && Shuts(tok)
    ensures tok == "(" + tok[1..|tok| - 1] + ")"
  {
  }

  lemma {:induction false} AcceptIsFound(tokens: seq<string>, pending: string)
    requires pending == "" || Product(pending)
    ensures Accept(tokens, pending) == if pending == "" then Found(tokens) else [Commented([pending] + tokens)] + Found(tokens)
    decreases |tokens|
  {
    if tokens != [] {
      var tok := tokens[0];
      AcceptIsFound(tokens[1..], Pending(tok));
      if Product(tok) { ProductFacts(tok); }
      if pending != "" && IsComment(tok) {
        CommentText(tok);
        assert pending + " (" + tok[1..|tok| - 1] + ")" == pending + " " + tok;
      }
      assert [tok] + tokens[1..] == tokens;
      FoundCons(tokens);
    }
  }

  lemma FoundCons(tokens: seq<string>)
    requires tokens != []
    ensures Found(tokens) == (if Product(tokens[0]) then [Commented(tokens)] else []) + Found(tokens[1..])
  {
  }

  /** From the input to the elements, for any input: what is cleaned are the
      products found among the groups of its words, and nothing if there are
      none. */
  lemma SanitizesWhatIsFound(raw: string) returns (groups: seq<seq<string>>, tokens: seq<string>, n: nat)
    ensures GroupsOf(Fields(raw), groups) && Glued(tokens, groups)
    ensures n <= |Found(tokens)| && |Join(Found(tokens)[..n])| <= MaxLength
    ensures forall m :: n < m <= |Found(tokens)| ==> |Join(Found(tokens)[..m])| > MaxLength
    ensures Sanitized(raw) == if n == 0 then Default else Join(Found(tokens)[..n])
  {
    groups := GlueGroups(Fields(raw));
    tokens := Glue(Fields(raw));
    FieldsOfTrimmed(raw);
    AcceptIsFound(tokens, "");
    n := Longest(Found(tokens), |Found(tokens)|);
    if Fields(raw) == [] {
      assert tokens == [];
    }
  }
}
