/** Cleaning a user-supplied agent string into products with optional
    comments.  Text is a sequence of code points; everything accepted is
    ASCII, so its length in characters is its length in bytes. */
module BotAgent {
  import opened Seqs
  const Default: string := "OpenClaw"
  const MaxLength: nat := 256

  // ----- characters and tokens -----

  /** unicode.IsSpace. */
  predicate IsSpace(c: char) {
    c in ['\t', '\n', '\U{0B}', '\U{0C}', '\r', ' ', '\U{85}', '\U{A0}', '\U{1680}', '\U{2028}', '\U{2029}', '\U{202F}',
          '\U{205F}', '\U{3000}']
    || '\U{2000}' <= c <= '\U{200A}'
  }

  predicate NameChar(c: char) {
    'A' <= c <= 'Z' || 'a' <= c <= 'z' || '0' <= c <= '9' || c in ['_', '.', '-']
  }

  predicate VersionChar(c: char) { NameChar(c) || c == '+' }

  predicate CommentChar(c: char) { ' ' <= c <= '\'' || '*' <= c <= '~' }

  predicate SlashAt(t: string, i: nat) {
    && i < |t| && t[i] == '/' && 1 <= i <= 32 && 1 <= |t| - i - 1 <= 32
    && (forall k :: 0 <= k < i ==> NameChar(t[k]))
    && (forall k :: i < k < |t| ==> VersionChar(t[k]))
  }

  /** name/version, 1 to 32 characters each. */
  predicate Product(t: string) { exists i :: 0 <= i < |t| && SlashAt(t, i) }

  predicate Comment(t: string) { 1 <= |t| <= 64 && forall k :: 0 <= k < |t| ==> CommentChar(t[k]) }

  predicate Opens(t: string) { t != "" && t[0] == '(' }

  predicate Shuts(t: string) { t != "" && t[|t| - 1] == ')' }

  predicate Word(t: string) { t != "" && forall k :: 0 <= k < |t| ==> !IsSpace(t[k]) }

  // ----- library functions -----

  function WordEnd(t: string): (n: nat)
    ensures n <= |t| && (n < |t| ==> IsSpace(t[n]))
    ensures forall k :: 0 <= k < n ==> !IsSpace(t[k])
  {
    if t != "" && !IsSpace(t[0]) then WordEnd(t[1..]) + 1 else 0
  }

  /** strings.Fields. */
  function Fields(t: string): (ws: seq<string>)
    ensures forall i :: 0 <= i < |ws| ==> Word(ws[i])
    decreases |t|
  {
    if t == "" then []
    else if IsSpace(t[0]) then Fields(t[1..])
    else [t[..WordEnd(t)]] + Fields(t[WordEnd(t)..])
  }

  function TrimLeft(t: string): string { if t != "" && IsSpace(t[0]) then TrimLeft(t[1..]) else t }

  function TrimRight(t: string): string { if t != "" && IsSpace(t[|t| - 1]) then TrimRight(t[..|t| - 1]) else t }

  /** strings.TrimSpace. */
  function Trim(t: string): string { TrimRight(TrimLeft(t)) }

  /** strings.Join with a space. */
  function Join(ws: seq<string>): string {
    if ws == [] then "" else if |ws| == 1 then ws[0] else ws[0] + " " + Join(ws[1..])
  }

  // ----- the specification -----

  /** acc and the following words up to one that ends with a parenthesis. */
  function Absorb(acc: string, rest: seq<string>): (r: (string, seq<string>))
    ensures |r.1| <= |rest|
    decreases |rest|
  {
    if rest == [] || Shuts(acc) then (acc, rest) else Absorb(acc + " " + rest[0], rest[1..])
  }

  /** Words of a comment glued together. */
  function Glue(words: seq<string>): seq<string>
    decreases |words|
  {
    if words == [] then []
    else if Opens(words[0]) && !Shuts(words[0]) then
      var r := Absorb(words[0], words[1..]);
      [r.0] + Glue(r.1)
    else [words[0]] + Glue(words[1..])
  }

  function Flush(pending: string): seq<string> { if pending == "" then [] else [pending] }

  /** A comment token that the product before it takes. */
  predicate Takes(pending: string, tok: string) {
    Opens(tok) && Shuts(tok) && pending != "" && Comment(tok[1..|tok| - 1])
  }

  /** What one token completes, after the product `pending`. */
  function Completed(pending: string, tok: string): seq<string> {
    if Takes(pending, tok) then [pending + " (" + tok[1..|tok| - 1] + ")"] else Flush(pending)
  }

  /** The product that is pending after a token. */
  function Pending(tok: string): string {
    if !(Opens(tok) && Shuts(tok)) && Product(tok) then tok else ""
  }

  /** The elements found in tokens after the product `pending`. */
  function Accept(tokens: seq<string>, pending: string): seq<string>
    decreases |tokens|
  {
    if tokens == [] then Flush(pending) else Completed(pending, tokens[0]) + Accept(tokens[1..], Pending(tokens[0]))
  }

  /** The length of the longest prefix of the first k elements that fits. */
  function Longest(elements: seq<string>, k: nat): (n: nat)
    requires k <= |elements|
    ensures n <= k && |Join(elements[..n])| <= MaxLength
    ensures forall m :: n < m <= k ==> |Join(elements[..m])| > MaxLength
  {
    if k == 0 || |Join(elements[..k])| <= MaxLength then k else Longest(elements, k - 1)
  }

  function Sanitized(raw: string): string {
    var trimmed := Trim(raw);
    if trimmed == "" then Default
    else
      var elements := Accept(Glue(Fields(trimmed)), "");
      var n := Longest(elements, |elements|);
      if n == 0 then Default else Join(elements[..n])
  }

  // ----- the loops -----

  lemma NextWord(rawTokens: seq<string>, i: nat)
    requires i < |rawTokens|
    ensures rawTokens[i..] != [] && rawTokens[i..][0] == rawTokens[i] && rawTokens[i..][1..] == rawTokens[i + 1..]
  {
  }

  method Tokenize(rawTokens: seq<string>) returns (tokens: seq<string>)
    ensures tokens == Glue(rawTokens)
  {
    tokens := [];
    var i := 0;
    assert rawTokens[0..] == rawTokens;
    while i < |rawTokens|
      invariant 0 <= i <= |rawTokens|
      invariant tokens + Glue(rawTokens[i..]) == Glue(rawTokens)
    {
      var tok := rawTokens[i];
      ghost var before, words, was := tokens, rawTokens[i + 1..], i;
      NextWord(rawTokens, i);
      if Opens(tok) && !Shuts(tok) {
        var acc := tok;
        while i + 1 < |rawTokens| && !Shuts(acc)
          invariant was <= i < |rawTokens|
          invariant Absorb(acc, rawTokens[i + 1..]) == Absorb(tok, words)
        {
          i := i + 1;
          NextWord(rawTokens, i);
          acc := acc + " " + rawTokens[i];
        }
        tokens := tokens + [acc];
      } else {
        tokens := tokens + [tok];
      }
      i := i + 1;
      Associate(before, [tokens[|before|]], Glue(rawTokens[i..]));
    }
  }

  ghost predicate Accepted(tokens: seq<string>, i: nat, pending: string, accepted: seq<string>) {
    i <= |tokens| && accepted + Accept(tokens[i..], pending) == Accept(tokens, "")
  }

  lemma AcceptUnfolds(tokens: seq<string>, tok: string, rest: seq<string>, pending: string)
    requires tokens == [tok] + rest
    ensures Accept(tokens, pending) == Completed(pending, tok) + Accept(rest, Pending(tok))
  {
    assert tokens[1..] == rest;
  }

  lemma AcceptStep(tokens: seq<string>, i: nat, pending: string, accepted: seq<string>, more: seq<string>, next: string)
    requires i < |tokens| && Accepted(tokens, i, pending, accepted)
    requires next == Pending(tokens[i]) && more == accepted + Completed(pending, tokens[i])
    ensures Accepted(tokens, i + 1, next, more)
  {
    AcceptUnfolds(tokens[i..], tokens[i], tokens[i + 1..], pending);
    Associate(accepted, Completed(pending, tokens[i]), Accept(tokens[i + 1..], next));
  }

  lemma Flushed(accepted: seq<string>, pending: string, tok: string)
    requires !Takes(pending, tok)
    ensures accepted + Completed(pending, tok) == if pending != "" then accepted + [pending] else accepted
  {
  }

  lemma AcceptEnds(tokens: seq<string>, pending: string, accepted: seq<string>)
    requires Accepted(tokens, |tokens|, pending, accepted)
    ensures accepted + Flush(pending) == Accept(tokens, "")
  {
  }

  method AcceptLoop(tokens: seq<string>) returns (accepted: seq<string>)
    ensures accepted == Accept(tokens, "")
  {
    accepted := [];
    var pendingProduct := "";
    assert tokens[0..] == tokens;
    for i := 0 to |tokens|
      invariant Accepted(tokens, i, pendingProduct, accepted)
    {
      var tok := tokens[i];
      ghost var before, pending := accepted, pendingProduct;
      if Opens(tok) && Shuts(tok) {
        var inner := tok[1..|tok| - 1];
        if pendingProduct != "" && Comment(inner) {
          accepted := accepted + [pendingProduct + " (" + inner + ")"];
          pendingProduct := "";
          AcceptStep(tokens, i, pending, before, accepted, "");
          continue;
        }
        Flushed(before, pending, tok);
        if pendingProduct != "" {
          accepted := accepted + [pendingProduct];
          pendingProduct := "";
        }
        AcceptStep(tokens, i, pending, before, accepted, "");
        continue;
      }
      Flushed(before, pending, tok);
      if pendingProduct != "" {
        accepted := accepted + [pendingProduct];
        pendingProduct := "";
      }
      if Product(tok) {
        pendingProduct := tok;
      }
      AcceptStep(tokens, i, pending, before, accepted, pendingProduct);
    }
    AcceptEnds(tokens, pendingProduct, accepted);
    if pendingProduct != "" {
      accepted := accepted + [pendingProduct];
    }
  }

  lemma {:induction false} JoinMore(ws: seq<string>, w: string)
    ensures Join(ws + [w]) == if ws == [] then w else Join(ws) + " " + w
  {
    if |ws| > 1 {
      JoinMore(ws[1..], w);
      assert (ws + [w])[1..] == ws[1..] + [w];
    } else if |ws| == 1 {
      assert (ws + [w])[1..] == [w];
    }
  }

  lemma PrefixLength(elements: seq<string>, n: nat)
    requires n < |elements|
    ensures |Join(elements[..n + 1])| == |Join(elements[..n])| + |elements[n]| + if n > 0 then 1 else 0
  {
    assert elements[..n + 1] == elements[..n] + [elements[n]];
    JoinMore(elements[..n], elements[n]);
  }

  lemma {:induction false} LengthGrows(elements: seq<string>, n: nat, m: nat)
    requires n <= m <= |elements|
    ensures |Join(elements[..n])| <= |Join(elements[..m])|
  {
    if n < m {
      PrefixLength(elements, m - 1);
      LengthGrows(elements, n, m - 1);
    }
  }

  /** Dropping trailing elements until the rest fits. */
  method Truncate(accepted: seq<string>) returns (truncated: seq<string>)
    ensures truncated == accepted[..Longest(accepted, |accepted|)]
  {
    truncated := [];
    var length := 0;
    var i := 0;
    while i < |accepted|
      invariant 0 <= i <= |accepted|
      invariant truncated == accepted[..i] && length == |Join(truncated)| <= MaxLength
    {
      var add := |accepted[i]| + if |truncated| > 0 then 1 else 0;
      PrefixLength(accepted, i);
      if length + add > MaxLength {
        forall m | i < m <= |accepted|
          ensures |Join(accepted[..m])| > MaxLength
        {
          LengthGrows(accepted, i + 1, m);
        }
        break;
      }
      truncated := truncated + [accepted[i]];
      length := length + add;
      i := i + 1;
    }
  }

  method SanitizeBotAgent(raw: string) returns (agent: string)
    ensures agent == Sanitized(raw)
  {
    var trimmed := Trim(raw);
    if trimmed == "" {
      return Default;
    }
    var tokens := Tokenize(Fields(trimmed));
    var accepted := AcceptLoop(tokens);
    if |accepted| == 0 {
      return Default;
    }
    var joined := Join(accepted);
    assert accepted[..|accepted|] == accepted;
    if |joined| <= MaxLength {
      return joined;
    }
    var truncated := Truncate(accepted);
    if |truncated| == 0 {
      return Default;
    }
    return Join(truncated);
  }
}
