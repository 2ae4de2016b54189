/** Runs that exist: whatever the server sends can be delivered, from every
    start, and then counts as the sequential fold says. */
module DeliveryRuns {
  import opened Wire
  import opened Replay
  import opened Stores
  import opened Dispatcher
  import opened Delivery
  import opened DeliveryOrder
  import opened DeliveryAccounting
  import opened DeliveryProgress
  import opened DeliveryDurability
  import opened DeliveryRefinement

  // ----- runs one after the other -----

  lemma PrefixOfJoin<T>(a: seq<T>, b: seq<T>)
    requires b != []
    ensures var n := |b| - 1; (a + b)[..|a + b| - 1] == a + b[..n] && (a + b)[|a + b| - 1] == b[n]
  {
  }

  lemma {:induction false} RunsJoin(cfg: Config, start: World, first: seq<Op>, second: seq<Op>)
    requires Run(cfg, start, first).Some?
    ensures Run(cfg, start, first + second) == Run(cfg, Run(cfg, start, first).value, second)
    decreases |second|
  {
    if second == [] {
      assert first + second == first;
    } else {
      RunsJoin(cfg, start, first, second[..|second| - 1]);
      PrefixOfJoin(first, second);
    }
  }

  lemma {:induction false} PolledJoin(cfg: Config, start: World, first: seq<Op>, second: seq<Op>)
    requires Run(cfg, start, first).Some?
    ensures Polled(cfg, start, first + second) == Polled(cfg, start, first) + Polled(cfg, Run(cfg, start, first).value, second)
    decreases |second|
  {
    if second == [] {
      assert first + second == first;
    } else {
      var prior := second[..|second| - 1];
      PolledJoin(cfg, start, first, prior);
      RunsJoin(cfg, start, first, prior);
      PrefixOfJoin(first, second);
      PolledMore(cfg, start, first, second);
    }
  }

  /** The last operation of a joined run polls what it polls on its own. */
  lemma PolledMore(cfg: Config, start: World, first: seq<Op>, second: seq<Op>)
    requires Run(cfg, start, first).Some? && second != []
    requires var n, prior, w := |second| - 1, second[..|second| - 1], Run(cfg, start, first).value;
      && (first + second)[..|first + second| - 1] == first + prior && (first + second)[|first + second| - 1] == second[n]
      && Run(cfg, start, first + prior) == Run(cfg, w, prior)
      && Polled(cfg, start, first + prior) == Polled(cfg, start, first) + Polled(cfg, w, prior)
    ensures Polled(cfg, start, first + second) == Polled(cfg, start, first) + Polled(cfg, Run(cfg, start, first).value, second)
  {
  }

  lemma RunOne(cfg: Config, w: World, op: Op)
    requires Enabled(cfg, w, op)
    ensures Run(cfg, w, [op]) == Some(Apply(cfg, w, op))
    ensures Polled(cfg, w, [op]) == if op.Poll? then [Batch(w.pollCursor, NextCursor(w, op.buf), op.messages)] else []
  {
    assert [op][..0] == [];
    assert Run(cfg, w, []) == Some(w) && Polled(cfg, w, []) == [];
  }

  ghost predicate AllClean(ops: seq<Op>) { forall k :: 0 <= k < |ops| ==> CleanOp(ops[k]) }

  /** A clean run leads from start to w and polls exactly bs. */
  ghost predicate Delivers(cfg: Config, start: World, bs: seq<Batch>, w: World) {
    exists ops :: AllClean(ops) && Run(cfg, start, ops) == Some(w) && Polled(cfg, start, ops) == bs
  }

  lemma DeliversNothing(cfg: Config, w: World)
    ensures Delivers(cfg, w, [], w)
  {
    assert AllClean([]) && Run(cfg, w, []) == Some(w) && Polled(cfg, w, []) == [];
  }

  lemma DeliversOn(cfg: Config, start: World, bs: seq<Batch>, w: World, op: Op)
    requires Delivers(cfg, start, bs, w) && Enabled(cfg, w, op) && CleanOp(op)
    ensures Delivers(cfg, start, bs + (if op.Poll? then [Batch(w.pollCursor, NextCursor(w, op.buf), op.messages)] else []), Apply(cfg, w, op))
  {
    var ops :| AllClean(ops) && Run(cfg, start, ops) == Some(w) && Polled(cfg, start, ops) == bs;
    RunOne(cfg, w, op);
    RunsJoin(cfg, start, ops, [op]);
    PolledJoin(cfg, start, ops, [op]);
    assert AllClean(ops + [op]);
  }

  // ----- a clean state comes to rest -----

  lemma OwnStepFrame(cfg: Config, w: World, op: Op)
    requires !EnvironmentOp(op) && Enabled(cfg, w, op)
    ensures var w' := Apply(cfg, w, op); w'.queueClosed == w.queueClosed && w'.pollCursor == w.pollCursor
  {
    if TaskOp(op) {
      TaskFrame(cfg, w, op);
    } else {
      SubmitterApplied(cfg, w, op);
      SubmitterFrame(cfg, w, op);
    }
  }

  lemma {:induction false} Rests(cfg: Config, start: World, bs: seq<Batch>, now: int, e0: Effects, w: World) returns (v: World)
    requires cfg.maxActive >= 1 && cfg.ttl >= 0
    requires Delivers(cfg, start, bs, w) && CleanState(cfg, now, e0, w)
    ensures Delivers(cfg, start, bs, v) && CleanState(cfg, now, e0, v) && AtRest(v)
    ensures v.queueClosed == w.queueClosed && v.pollCursor == w.pollCursor
    decreases Work(w) + 1
  {
    WorkNonNegative(w);
    if AtRest(w) {
      v := w;
    } else {
      var op := NoDeadlock(cfg, w);
      var next := Apply(cfg, w, op);
      OwnStepsConsumeWork(cfg, w, op);
      OwnStepFrame(cfg, w, op);
      CleanStep(cfg, now, e0, w, op);
      DeliversOn(cfg, start, bs, w, op);
      assert bs + [] == bs;
      WorkNonNegative(next);
      v := Rests(cfg, start, bs, now, e0, next);
    }
  }

  // ----- everything the server sends -----

  /** One answer of the server: a cursor to go on from, or none, and messages. */
  datatype Response = Response(buf: string, messages: seq<Option<Message>>)

  predicate Readable(r: Response) { r.messages != [] && forall i :: 0 <= i < |r.messages| ==> r.messages[i].Some? }

  /** The batches that polling makes of the responses, from a cursor on. */
  function Served(cursor: string, rs: seq<Response>): seq<Batch> {
    if rs == [] then []
    else
      var prior, r := Served(cursor, rs[..|rs| - 1]), rs[|rs| - 1];
      var c := EndCursor(cursor, prior);
      prior + [Batch(c, if r.buf != "" then r.buf else c, r.messages)]
  }

  lemma {:induction false} ServedIsDecodable(cursor: string, rs: seq<Response>)
    requires forall i :: 0 <= i < |rs| ==> Readable(rs[i])
    ensures AllDecodable(Served(cursor, rs))
  {
    if rs != [] {
      ServedIsDecodable(cursor, rs[..|rs| - 1]);
    }
  }

  lemma PollsOne(cfg: Config, start: World, bs: seq<Batch>, now: int, e0: Effects, w: World, r: Response) returns (v: World)
    requires cfg.maxActive >= 1 && cfg.ttl >= 0 && Readable(r)
    requires Delivers(cfg, start, bs, w) && CleanState(cfg, now, e0, w) && AtRest(w) && !w.queueClosed
    ensures var c := if r.buf != "" then r.buf else w.pollCursor;
      Delivers(cfg, start, bs + [Batch(w.pollCursor, c, r.messages)], v) && v.pollCursor == c
    ensures CleanState(cfg, now, e0, v) && AtRest(v) && !v.queueClosed
  {
    var op := Poll(r.buf, r.messages);
    assert w.sub.Idle? && w.queue == [];
    var polled := Apply(cfg, w, op);
    CleanStep(cfg, now, e0, w, op);
    DeliversOn(cfg, start, bs, w, op);
    v := Rests(cfg, start, bs + [Batch(w.pollCursor, NextCursor(w, r.buf), r.messages)], now, e0, polled);
  }

  lemma {:induction false} PollsAll(cfg: Config, start: World, rs: seq<Response>) returns (v: World)
    requires cfg.maxActive >= 1 && cfg.ttl >= 0 && FreshStart(cfg, start)
    requires forall i :: 0 <= i < |rs| ==> Readable(rs[i])
    ensures Delivers(cfg, start, Served(start.pollCursor, rs), v) && v.pollCursor == EndCursor(start.pollCursor, Served(start.pollCursor, rs))
    ensures CleanState(cfg, start.now, EffectsOf(start), v) && AtRest(v) && !v.queueClosed
  {
    if rs == [] {
      FreshIsClean(cfg, start);
      DeliversNothing(cfg, start);
      v := start;
    } else {
      var w := PollsAll(cfg, start, rs[..|rs| - 1]);
      v := PollsOne(cfg, start, Served(start.pollCursor, rs[..|rs| - 1]), start.now, EffectsOf(start), w, rs[|rs| - 1]);
    }
  }

  /** From every first start and after every crash, whatever readable responses
      the server gives: there is a run that polls exactly those, drains, and
      ends like the sequential fold over them. */
  lemma EverythingGetsDelivered(cfg: Config, start: World, rs: seq<Response>)
    requires cfg.maxActive >= 1 && cfg.ttl >= 0 && Starting(cfg, start)
    requires forall i :: 0 <= i < |rs| ==> Readable(rs[i])
    ensures AllDecodable(Served(start.pollCursor, rs))
    ensures exists w ::
      && Delivers(cfg, start, Served(start.pollCursor, rs), w)
      && w.sub.Draining? && AllFinished(w.tasks) && EndsLikeFold(cfg, start, Served(start.pollCursor, rs), w)
  {
    var bs, now, e0 := Served(start.pollCursor, rs), start.now, EffectsOf(start);
    ServedIsDecodable(start.pollCursor, rs);
    StartingIsFresh(cfg, start);
    var polled := PollsAll(cfg, start, rs);
    var closed := Apply(cfg, polled, CloseQueue);
    CleanStep(cfg, now, e0, polled, CloseQueue);
    DeliversOn(cfg, start, bs, polled, CloseQueue);
    assert bs + [] == bs;
    var w := Rests(cfg, start, bs, now, e0, closed);
    var ops :| AllClean(ops) && Run(cfg, start, ops) == Some(w) && Polled(cfg, start, ops) == bs;
    CleanRunsFoldWhatWasPolled(cfg, start, ops, w);
  }
}
