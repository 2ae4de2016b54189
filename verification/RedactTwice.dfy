/** On every text, well-formed or not, scanning a second time changes nothing:
    each hidden key of the output is followed by the replacement. */
module RedactTwice {
  import opened Seqs
  import opened Redact

  lemma {:induction false} BodyEndOfPrefix(x: string, escaped: bool, u: string)
    requires BodyEnd(x, escaped).1
    ensures var n := BodyEnd(x, escaped).0; BodyEnd(x[..n] + u, escaped) == (n, true)
  {
    var n := BodyEnd(x, escaped).0;
    if escaped || x[0] != '"' {
      BodyEndOfPrefix(x[1..], !escaped && x[0] == '\\', u);
      assert (x[..n] + u)[1..] == x[1..][..n - 1] + u;
    }
  }

  lemma ScanKeepsFirst(hides: string -> bool, t: string)
    requires t != ""
    ensures Scan(hides, t) != "" && Scan(hides, t)[0] == t[0]
    ensures t[0] != '"' ==> Scan(hides, t)[1..] == Scan(hides, t[1..])
  {
    assert Turn(hides, t).0[0] == t[0];
  }

  lemma ColonStep(t: string)
    requires t != ""
    ensures ColonNext(t) <==> if IsSpace(t[0]) then ColonNext(t[1..]) else t[0] == ':'
  {
  }

  lemma {:induction false} ScanKeepsColon(hides: string -> bool, t: string)
    ensures ColonNext(Scan(hides, t)) <==> ColonNext(t)
  {
    if t != "" {
      ScanKeepsFirst(hides, t);
      ColonStep(t);
      ColonStep(Scan(hides, t));
      if IsSpace(t[0]) {
        ScanKeepsColon(hides, t[1..]);
      }
    }
  }

  /** A complete string at the start of t, followed by any other text. */
  lemma SameKey(hides: string -> bool, t: string, n: nat, x: string)
    requires t != "" && t[0] == '"' && BodyEnd(t[1..], false) == (n, true)
    ensures var w := t[..n + 1] + x;
      && w[0] == '"' && BodyEnd(w[1..], false) == (n, true) && AfterKey(w) == x
      && (HiddenKey(hides, w) <==> ColonNext(x) && hides(t[1..n]))
  {
    var lit := t[..n + 1];
    BodyEndOfPrefix(t[1..], false, x);
    Uncons(lit, x);
    assert lit[1..] == t[1..][..n];
    Halves(lit, x);
    assert (lit + x)[1..n] == t[1..n];
  }

  lemma ShownTurn(hides: string -> bool, t: string, n: nat, u: string)
    requires t != "" && t[0] == '"' && BodyEnd(t[1..], false) == (n, true) && !HiddenKey(hides, t)
    requires ColonNext(u) <==> ColonNext(AfterKey(t))
    ensures var lit := t[..n + 1]; Turn(hides, lit + u) == (lit, |lit|)
  {
    SameKey(hides, t, n, u);
    Halves(t[..n + 1], u);
  }

  lemma {:induction false} SpaceEndOfPrefix(x: string, u: string)
    requires u != "" && !IsSpace(u[0])
    ensures SpaceEnd(x[..SpaceEnd(x)] + u) == SpaceEnd(x)
  {
    if x != "" && IsSpace(x[0]) {
      SpaceEndOfPrefix(x[1..], u);
      Uncons(x[..SpaceEnd(x)], u);
      assert x[..SpaceEnd(x)][1..] == x[1..][..SpaceEnd(x[1..])];
    } else {
      assert x[..SpaceEnd(x)] + u == u;
    }
  }

  lemma SamePastColon(x: string, r: string)
    requires ColonNext(x) && r != "" && !IsSpace(r[0])
    ensures var y := x[..PastColon(x)] + r; ColonNext(y) && PastColon(y) == PastColon(x)
  {
    var m, rest := SpaceEnd(x), x[SpaceEnd(x) + 1..];
    var k := SpaceEnd(rest);
    var tail := ":" + (rest[..k] + r);
    SpaceEndOfPrefix(x, tail);
    SpaceEndOfPrefix(rest, r);
    var y := x[..PastColon(x)] + r;
    assert y == x[..m] + tail;
    Halves(x[..m], tail);
    Halves(":", rest[..k] + r);
    DropDrop(y, m, 1);
  }

  lemma ReplacementEnds(u: string)
    ensures ValueEnd(Replacement + u) == |Replacement|
  {
    var t := Replacement + u;
    assert BodyEnd(t[5..], false).0 <= |t|;
    assert t[1..][1..][1..][1..] == t[4..];
    assert BodyEnd(t[4..], false) == (1, true);
    assert BodyEnd(t[1..][1..][1..], false) == (2, true);
    assert BodyEnd(t[1..][1..], false) == (3, true);
    assert BodyEnd(t[1..], false) == (4, true);
  }

  lemma HeadSplits(t: string, n: nat, p: nat, r: string)
    requires n + 1 + p <= |t|
    ensures t[..n + 1 + p] + r == t[..n + 1] + (t[n + 1..][..p] + r)
  {
  }

  lemma SameHead(hides: string -> bool, t: string, n: nat, r: string)
    requires t != "" && t[0] == '"' && BodyEnd(t[1..], false) == (n, true) && HiddenKey(hides, t)
    requires r != "" && !IsSpace(r[0])
    ensures var w := t[..ValueStart(t)] + r; w[0] == '"' && HiddenKey(hides, w) && ValueStart(w) == ValueStart(t)
  {
    var x := AfterKey(t);
    SamePastColon(x, r);
    SameKey(hides, t, n, x[..PastColon(x)] + r);
    HeadSplits(t, n, PastColon(x), r);
  }

  lemma HiddenAgain(hides: string -> bool, t: string, n: nat, u: string)
    requires t != "" && t[0] == '"' && BodyEnd(t[1..], false) == (n, true) && HiddenKey(hides, t)
    ensures var out := t[..ValueStart(t)] + Replacement; Turn(hides, out + u) == (out, |out|)
  {
    var head, r := t[..ValueStart(t)], Replacement + u;
    SameHead(hides, t, n, r);
    Halves(head, r);
    ReplacedTurn(hides, head + r, head, |head|, r);
    ReplacementEnds(u);
    Associate(head, Replacement, u);
  }

  lemma TurnThen(hides: string -> bool, out: string, u: string)
    requires out != "" && Turn(hides, out + u) == (out, |out|)
    ensures Scan(hides, out + u) == out + Scan(hides, u)
  {
    Halves(out, u);
    ScanUnfolds(hides, out + u, out, u);
  }

  lemma {:induction false} ScanTwice(hides: string -> bool, t: string)
    ensures Scan(hides, Scan(hides, t)) == Scan(hides, t)
    decreases |t|
  {
    if t != "" {
      var turn := Turn(hides, t);
      var rest := t[turn.1..];
      var u := Scan(hides, rest);
      ScanTwice(hides, rest);
      if t[0] == '"' && !BodyEnd(t[1..], false).1 {
        LastTurn(hides, t);
      } else {
        TurnAgain(hides, t, u);
        TurnThen(hides, turn.0, u);
      }
    }
  }

  lemma TurnAgain(hides: string -> bool, t: string, u: string)
    requires t != "" && (t[0] == '"' ==> BodyEnd(t[1..], false).1)
    requires u == Scan(hides, t[Turn(hides, t).1..])
    ensures var out := Turn(hides, t).0; out != "" && Turn(hides, out + u) == (out, |out|)
  {
    if t[0] == '"' {
      var n := BodyEnd(t[1..], false).0;
      if HiddenKey(hides, t) {
        HiddenAgain(hides, t, n, u);
      } else {
        ScanKeepsColon(hides, AfterKey(t));
        ShownTurn(hides, t, n, u);
      }
    }
  }
}
