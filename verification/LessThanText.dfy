/** What normalization does to a whole text: it only replaces less-than signs
    of prose, line by line, and doing it twice changes nothing more. */
module LessThanText {
  import opened Seqs
  import opened LessThan
  import opened LessThanTags

  // ----- replacing some less-than signs -----

  /** u is t with some '<' replaced by U+FF1C. */
  predicate Widens(t: string, u: string)
    decreases |t|
  {
    if t == "" then u == ""
    else (u != "" && u[0] == t[0] && Widens(t[1..], u[1..])) || (t[0] == '<' && FullWidth <= u && Widens(t[1..], u[3..]))
  }

  /** U+FF1C read back as '<'. */
  function Restored(t: string): string
    decreases |t|
  {
    if t == "" then "" else if FullWidth <= t then "<" + Restored(t[3..]) else [t[0]] + Restored(t[1..])
  }

  lemma {:induction false} WidensSame(t: string)
    ensures Widens(t, t)
  {
    if t != "" {
      WidensSame(t[1..]);
    }
  }

  lemma {:induction false} WidensJoin(a: string, b: string, c: string, d: string)
    requires Widens(a, b) && Widens(c, d)
    ensures Widens(a + c, b + d)
    decreases |a|
  {
    if a == "" {
      assert a + c == c && b + d == d;
    } else {
      assert (a + c)[1..] == a[1..] + c;
      if b != "" && b[0] == a[0] && Widens(a[1..], b[1..]) {
        WidensJoin(a[1..], b[1..], c, d);
        assert (b + d)[1..] == b[1..] + d;
      } else {
        WidensJoin(a[1..], b[3..], c, d);
        assert (b + d)[3..] == b[3..] + d;
      }
    }
  }

  lemma TurnWidens(t: string)
    requires t != ""
    ensures Widens(t[..Turn(t).1], Turn(t).0)
  {
    WidensSame(t[..Turn(t).1]);
    if t[0] == '<' {
      assert t[..1] == "<" && "<"[1..] == "" && FullWidth[3..] == "";
      assert Widens("<", FullWidth);
    }
  }

  /** Widening a whole from its two parts. */
  lemma WidensWhole(t: string, n: nat, a: string, b: string, u: string)
    requires n <= |t| && u == a + b && Widens(t[..n], a) && Widens(t[n..], b)
    ensures Widens(t, u)
  {
    WidensJoin(t[..n], a, t[n..], b);
    Rejoin(t, n);
  }

  lemma {:induction false} NormalizedWidens(t: string)
    ensures Widens(t, Normalized(t))
    decreases |t|
  {
    if t != "" {
      var n, rest := Turn(t).1, t[Turn(t).1..];
      NormalizedWidens(rest);
      TurnWidens(t);
      NormalizedUnfolds(t, Turn(t).0, rest);
      WidensWhole(t, n, Turn(t).0, Normalized(rest), Normalized(t));
    }
  }

  lemma LineWidens(state: State, line: string)
    ensures Widens(line, LineOut(state, line))
  {
    NormalizedWidens(line);
    WidensSame(line);
  }

  lemma {:induction false} DocumentWidens(t: string, state: State)
    ensures Widens(t, Document(t, state))
    decreases |t|
  {
    if t != "" {
      var n := LineEnd(t);
      var line, rest := t[..n], t[n..];
      var next := Next(state, line);
      DocumentWidens(rest, next);
      LineWidens(state, line);
      DocumentStep(t, state, line, rest);
      WidensWhole(t, n, LineOut(state, line), Document(rest, next), Document(t, state));
    }
  }

  lemma WidensFullWidth(t: string, u: string)
    requires Widens(t, u) && t != "" && t[0] != '<'
    ensures FullWidth <= t <==> FullWidth <= u
    ensures FullWidth <= t ==> Widens(t[3..], u[3..])
  {
    var t1, u1 := t[1..], u[1..];
    assert Widens(t1, u1);
    if t1 != "" && u1 != "" && (t1[0] == '\U{BC}' || u1[0] == '\U{BC}') {
      assert t1[0] == u1[0] && Widens(t1[1..], u1[1..]);
      var t2, u2 := t1[1..], u1[1..];
      assert t2 == t[2..] && u2 == u[2..];
      if t2 != "" && u2 != "" && (t2[0] == '\U{9C}' || u2[0] == '\U{9C}') {
        assert t2[0] == u2[0] && Widens(t2[1..], u2[1..]);
        assert t2[1..] == t[3..] && u2[1..] == u[3..];
      }
    }
  }

  /** Reading U+FF1C as '<' cannot tell the two texts apart. */
  lemma {:induction false} WidensRestores(t: string, u: string)
    requires Widens(t, u)
    ensures Restored(u) == Restored(t)
    decreases |t|
  {
    if t != "" {
      if t[0] == '<' {
        if FullWidth <= u && Widens(t[1..], u[3..]) {
          WidensRestores(t[1..], u[3..]);
        } else {
          WidensRestores(t[1..], u[1..]);
        }
      } else {
        WidensFullWidth(t, u);
        if FullWidth <= t {
          WidensRestores(t[3..], u[3..]);
        } else {
          WidensRestores(t[1..], u[1..]);
        }
      }
    }
  }

  /** Input and output say the same once U+FF1C is read as '<'. */
  lemma NothingElseChanges(t: string)
    ensures Restored(Document(t, Prose)) == Restored(t)
  {
    DocumentWidens(t, Prose);
    WidensRestores(t, Document(t, Prose));
  }

  // ----- lines and fences are recognised alike before and after -----

  lemma {:induction false} SameSpaces(t: string, u: string)
    requires Widens(t, u)
    ensures Spaces(t) == Spaces(u) && Widens(t[Spaces(t)..], u[Spaces(u)..])
    decreases |t|
  {
    if t != "" && u != "" && (t[0] == ' ' || u[0] == ' ') {
      SameSpaces(t[1..], u[1..]);
      assert t[1..][Spaces(t[1..])..] == t[Spaces(t)..];
      assert u[1..][Spaces(u[1..])..] == u[Spaces(u)..];
    }
  }

  lemma {:induction false} SameRun(t: string, u: string, marker: char)
    requires Widens(t, u) && marker != '<' && marker != '\U{EF}'
    ensures RunLength(t, marker) == RunLength(u, marker)
    ensures Widens(t[RunLength(t, marker)..], u[RunLength(u, marker)..])
    decreases |t|
  {
    if t != "" && u != "" && (t[0] == marker || u[0] == marker) {
      SameRun(t[1..], u[1..], marker);
      assert t[1..][RunLength(t[1..], marker)..] == t[RunLength(t, marker)..];
      assert u[1..][RunLength(u[1..], marker)..] == u[RunLength(u, marker)..];
    }
  }

  lemma {:induction false} SameMember(t: string, u: string, c: char)
    requires Widens(t, u) && c !in FullWidth && c != '<'
    ensures c in t <==> c in u
    decreases |t|
  {
    if t != "" {
      if u != "" && u[0] == t[0] && Widens(t[1..], u[1..]) {
        SameMember(t[1..], u[1..], c);
        assert t == [t[0]] + t[1..] && u == [u[0]] + u[1..];
      } else {
        SameMember(t[1..], u[3..], c);
        assert t == [t[0]] + t[1..] && u == FullWidth + u[3..];
      }
    }
  }

  lemma SameMarker(t: string, u: string)
    requires Widens(t, u)
    ensures var c := ['`', '~']; (t != "" && t[0] in c) || (u != "" && u[0] in c) ==> t != "" && u != "" && t[0] == u[0]
  {
  }

  lemma FenceAt(t: string, i: nat, t1: string)
    requires i == Spaces(t) && t1 == t[i..]
    ensures FenceOf(t) ==
      if i > 3 || t1 == "" || t1[0] !in ['`', '~'] || RunLength(t1, t1[0]) < 3 then NoFence
      else Fence(t1[0], RunLength(t1, t1[0]), t1[RunLength(t1, t1[0])..])
  {
    if t1 != "" {
      DropDrop(t, i, RunLength(t1, t1[0]));
    }
  }

  lemma SameFence(t: string, u: string)
    requires Widens(t, u)
    ensures FenceOf(t).Fence? == FenceOf(u).Fence?
    ensures FenceOf(t).Fence? ==> FenceOf(t).marker == FenceOf(u).marker && Widens(FenceOf(t).rest, FenceOf(u).rest)
  {
    SameSpaces(t, u);
    var i := Spaces(t);
    var t1, u1 := t[i..], u[i..];
    FenceAt(t, i, t1);
    FenceAt(u, i, u1);
    SameMarker(t1, u1);
    if t1 != "" && t1[0] in ['`', '~'] {
      SameRun(t1, u1, t1[0]);
    }
  }

  lemma SameOpening(t: string, u: string)
    requires Widens(t, u)
    ensures Opens(t).Fence? == Opens(u).Fence?
  {
    SameFence(t, u);
    if FenceOf(t).Fence? {
      SameMember(FenceOf(t).rest, FenceOf(u).rest, '`');
    }
  }

  /** No line feed but as the last byte. */
  predicate IsLine(t: string) { t != "" && forall k :: 0 <= k < |t| - 1 ==> t[k] != '\n' }

  lemma {:induction false} SameLineEnd(t: string, u: string)
    requires Widens(t, u) && IsLine(t)
    ensures IsLine(u) && (u[|u| - 1] == '\n' <==> t[|t| - 1] == '\n')
    ensures u[|u| - 1] == '\r' <==> t[|t| - 1] == '\r'
    ensures t[|t| - 1] in ['\n', '\r'] ==> Widens(t[..|t| - 1], u[..|u| - 1])
    decreases |t|
  {
    if u[0] == t[0] && Widens(t[1..], u[1..]) {
      if t[1..] != "" {
        SameLineEnd(t[1..], u[1..]);
        assert t[1..][..|t| - 2] == t[..|t| - 1][1..] && u[1..][..|u| - 2] == u[..|u| - 1][1..];
      }
    } else if t[1..] != "" {
      SameLineEnd(t[1..], u[3..]);
      assert t[1..][..|t| - 2] == t[..|t| - 1][1..] && u[3..][..|u| - 4] == u[..|u| - 1][3..];
      assert FullWidth <= u[..|u| - 1];
    }
  }

  lemma SameTrimmed(t: string, u: string)
    requires Widens(t, u) && IsLine(t)
    ensures Widens(Trimmed(t), Trimmed(u))
  {
    SameLineEnd(t, u);
    var t1 := if t[|t| - 1] == '\n' then t[..|t| - 1] else t;
    var u1 := if u[|u| - 1] == '\n' then u[..|u| - 1] else u;
    assert Widens(t1, u1);
    if t1 != "" {
      assert IsLine(t1);
      SameLineEnd(t1, u1);
    }
  }

  /** A prose line opens no fence before and after. */
  lemma SameLine(state: State, line: string)
    requires IsLine(line)
    ensures Fenced(state, LineOut(state, line)) == Fenced(state, line)
    ensures Next(state, LineOut(state, line)) == Next(state, line)
    ensures IsLine(LineOut(state, line))
    ensures var u := LineOut(state, line); u[|u| - 1] == '\n' <==> line[|line| - 1] == '\n'
  {
    var u := LineOut(state, line);
    LineWidens(state, line);
    SameLineEnd(line, u);
    SameTrimmed(line, u);
    SameOpening(Trimmed(line), Trimmed(u));
  }

  // ----- rows -----

  /** A line and whether a fence keeps it. */
  datatype Row = Row(fenced: bool, line: string)

  function Rows(t: string, state: State): seq<Row>
    decreases |t|
  {
    if t == "" then []
    else
      var line := t[..LineEnd(t)];
      [Row(Fenced(state, line), line)] + Rows(t[LineEnd(t)..], Next(state, line))
  }

  function RowOut(row: Row): Row { if row.fenced then row else Row(false, Normalized(row.line)) }

  function RowsOut(rows: seq<Row>): (r: seq<Row>)
    ensures |r| == |rows| && forall k :: 0 <= k < |rows| ==> r[k] == RowOut(rows[k])
  {
    seq(|rows|, i requires 0 <= i < |rows| => RowOut(rows[i]))
  }

  function Text(rows: seq<Row>): string {
    if rows == [] then "" else rows[0].line + Text(rows[1..])
  }

  lemma {:induction false} LineEndOf(line: string, rest: string)
    requires IsLine(line) && (rest == "" || line[|line| - 1] == '\n')
    ensures LineEnd(line + rest) == |line|
  {
    var t := line + rest;
    if |line| > 1 {
      assert t[0] == line[0];
      LineEndOf(line[1..], rest);
      assert t[1..] == line[1..] + rest;
    }
  }

  lemma {:induction false} FirstIsLine(t: string)
    requires t != ""
    ensures IsLine(t[..LineEnd(t)])
    ensures t[LineEnd(t)..] != "" ==> t[LineEnd(t) - 1] == '\n'
  {
    if t[0] != '\n' && |t| > 1 {
      FirstIsLine(t[1..]);
      assert t[..LineEnd(t)][1..] == t[1..][..LineEnd(t[1..])];
    }
  }

  lemma RowsOfJoined(line: string, rest: string, state: State)
    requires IsLine(line) && (rest == "" || line[|line| - 1] == '\n')
    ensures Rows(line + rest, state) == [Row(Fenced(state, line), line)] + Rows(rest, Next(state, line))
  {
    LineEndOf(line, rest);
    var t := line + rest;
    assert t[..|line|] == line && t[|line|..] == rest;
  }

  lemma RowOutOf(state: State, line: string)
    ensures RowOut(Row(Fenced(state, line), line)) == Row(Fenced(state, line), LineOut(state, line))
  {
  }

  lemma RowsOutJoin(row: Row, rows: seq<Row>)
    ensures RowsOut([row] + rows) == [RowOut(row)] + RowsOut(rows)
  {
  }

  lemma RowsOutStep(state: State, line: string, out: string, rows: seq<Row>)
    requires IsLine(line) && (out == "" || line[|line| - 1] == '\n')
    requires Rows(out, Next(state, line)) == RowsOut(rows)
    ensures Rows(LineOut(state, line) + out, state) == RowsOut([Row(Fenced(state, line), line)] + rows)
  {
    SameLine(state, line);
    RowsOfJoined(LineOut(state, line), out, state);
    RowOutOf(state, line);
    RowsOutJoin(Row(Fenced(state, line), line), rows);
  }

  /** Line by line: the output has the input's lines, fenced where they were,
      the fenced ones verbatim and the others normalized. */
  lemma {:induction false} RowsOfOutput(t: string, state: State)
    ensures Rows(Document(t, state), state) == RowsOut(Rows(t, state))
    decreases |t|
  {
    if t != "" {
      var line, rest := t[..LineEnd(t)], t[LineEnd(t)..];
      var next := Next(state, line);
      FirstIsLine(t);
      DocumentStep(t, state, line, rest);
      RowsStep(t, state, line, rest);
      RowsOfOutput(rest, next);
      EmptyIff(rest, next);
      RowsOutStep(state, line, Document(rest, next), Rows(rest, next));
    }
  }

  lemma EmptyIff(t: string, state: State)
    ensures Document(t, state) == "" <==> t == ""
  {
    DocumentWidens(t, state);
  }

  lemma TextJoin(row: Row, rows: seq<Row>)
    ensures Text([row] + rows) == row.line + Text(rows)
  {
    assert ([row] + rows)[1..] == rows;
  }

  lemma RowsStep(t: string, state: State, line: string, rest: string)
    requires t != "" && line == t[..LineEnd(t)] && rest == t[LineEnd(t)..]
    ensures Rows(t, state) == [Row(Fenced(state, line), line)] + Rows(rest, Next(state, line))
  {
  }

  lemma TextStep(row: Row, rows: seq<Row>, rest: string, t: string)
    requires Text(rows) == rest && t == row.line + rest
    ensures Text([row] + rows) == t
  {
    TextJoin(row, rows);
  }

  lemma {:induction false} TextOfRows(t: string, state: State)
    ensures Text(Rows(t, state)) == t
    decreases |t|
  {
    if t != "" {
      var n := LineEnd(t);
      var line, rest := t[..n], t[n..];
      var next := Next(state, line);
      TextOfRows(rest, next);
      RowsStep(t, state, line, rest);
      Rejoin(t, n);
      TextStep(Row(Fenced(state, line), line), Rows(rest, next), rest, t);
    }
  }

  lemma OutputStep(row: Row, rows: seq<Row>, out: string)
    requires Text(RowsOut(rows)) == out
    ensures Text(RowsOut([row] + rows)) == RowOut(row).line + out
  {
    RowsOutJoin(row, rows);
    TextJoin(RowOut(row), RowsOut(rows));
  }

  lemma {:induction false} TextOfOutput(t: string, state: State)
    ensures Text(RowsOut(Rows(t, state))) == Document(t, state)
    decreases |t|
  {
    if t != "" {
      var line, rest := t[..LineEnd(t)], t[LineEnd(t)..];
      var next := Next(state, line);
      TextOfOutput(rest, next);
      RowsStep(t, state, line, rest);
      DocumentStep(t, state, line, rest);
      OutputStep(Row(Fenced(state, line), line), Rows(rest, next), Document(rest, next));
      RowOutOf(state, line);
    }
  }

  lemma RowsOutTwice(rows: seq<Row>)
    ensures RowsOut(RowsOut(rows)) == RowsOut(rows)
  {
    forall k | 0 <= k < |rows|
      ensures RowOut(RowOut(rows[k])) == RowOut(rows[k])
    {
      NormalizedTwice(rows[k].line);
    }
  }

  /** Normalizing twice changes nothing more. */
  lemma NormalizingIsIdempotent(t: string)
    ensures Document(Document(t, Prose), Prose) == Document(t, Prose)
  {
    var u := Document(t, Prose);
    RowsOfOutput(t, Prose);
    TextOfRows(u, Prose);
    TextOfOutput(u, Prose);
    RowsOutTwice(Rows(t, Prose));
  }

  /** A less-than sign left outside the fences is inside an allowed tag. */
  lemma RemainingLessThan(t: string, k: nat, i: nat)
    requires var rows := Rows(Document(t, Prose), Prose);
      k < |rows| && !rows[k].fenced && i < |rows[k].line| && rows[k].line[i] == '<'
    ensures InTag(Rows(Document(t, Prose), Prose)[k].line, i)
  {
    RowsOfOutput(t, Prose);
    RemainingInTag(Rows(t, Prose)[k].line, i);
  }
}
