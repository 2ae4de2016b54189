/** No message is lost, over any number of crashes, restarts, failed writes and
    cancellations: the persisted cursor never moves past a message that was not
    consumed. */
module DeliveryDurability {
  import opened Wire
  import opened Stores
  import opened Dispatcher
  import opened Delivery
  import opened DeliveryOrder
  import opened DeliveryAccounting
  import Replay

  /** Where polling stands after a sequence of server responses. */
  function EndCursor(origin: string, batches: seq<Batch>): string {
    if batches == [] then origin else batches[|batches| - 1].cursor
  }

  /** Each response was fetched with the cursor the previous one delivered; a
      batch has an empty cursor only if it was polled with one. */
  ghost predicate Gapless(origin: string, batches: seq<Batch>) {
    forall k :: 0 <= k < |batches| ==> Follows(origin, batches, k)
  }

  predicate Follows(origin: string, batches: seq<Batch>, k: nat)
    requires k < |batches|
  {
    batches[k].servedAt == (if k == 0 then origin else batches[k - 1].cursor)
    && (batches[k].cursor == "" ==> batches[k].servedAt == "")
  }

  function BatchesOf(archive: seq<Archived>): seq<Batch> {
    seq(|archive|, k requires 0 <= k < |archive| => archive[k].batch)
  }

  predicate FullyConsumed(a: Archived) {
    |a.outcomes| == |a.batch.messages|
    && forall j :: 0 <= j < |a.outcomes| ==> a.batch.messages[j].Some? && a.outcomes[j].Consumed?
  }

  /** What this run has fetched and not dropped: registered batches, the batch
      in the submitter's hands, the queue. */
  function Fetched(w: World): seq<Batch> {
    match w.sub
    case Entering(b) => w.hist + [b] + w.queue
    case WantSlot(b) => w.hist + [b] + w.queue
    case Recheck(b) => w.hist + [b] + w.queue
    case Registering(b) => w.hist + [b] + w.queue
    case Draining => w.hist
    case _ => w.hist + w.queue
  }

  function CursorsOf(hist: seq<Batch>, n: nat): seq<string>
    requires n <= |hist|
  {
    seq(n, i requires 0 <= i < n => hist[i].cursor)
  }

  ghost predicate CursorMatches(led: Ledger, hist: seq<Batch>, start: string) {
    led.nextCommitID <= |hist|
    && led.cursor.buf == LastCursor(start, CursorsOf(hist, led.nextCommitID))
  }

  ghost predicate Durable(origin: string, w: World) {
    && FeedOk(w)
    && CursorMatches(w.led, w.hist, w.startCursor)
    && Gapless(origin, BatchesOf(w.past))
    && w.startCursor == EndCursor(origin, BatchesOf(w.past))
    && (forall k :: 0 <= k < |w.past| ==> FullyConsumed(w.past[k]))
  }

  /** Every batch ever committed, in commit order. */
  function Archive(w: World): seq<Archived>
    requires IdsInRange(w) && w.led.nextCommitID <= |w.hist|
  {
    w.past + CommittedRun(w, w.led.nextCommitID)
  }

  // ----- cursors along a chain -----

  lemma GaplessPrefix(origin: string, batches: seq<Batch>, n: nat)
    requires Gapless(origin, batches) && n <= |batches|
    ensures Gapless(origin, batches[..n])
  {
    forall k | 0 <= k < n ensures Follows(origin, batches[..n], k) {
      assert Follows(origin, batches, k);
    }
  }

  lemma GaplessAppend(origin: string, batches: seq<Batch>, b: Batch)
    requires Gapless(origin, batches)
    requires b.servedAt == EndCursor(origin, batches) && (b.cursor == "" ==> b.servedAt == "")
    ensures Gapless(origin, batches + [b])
  {
    forall k | 0 <= k <= |batches| ensures Follows(origin, batches + [b], k) {
      if k < |batches| { assert Follows(origin, batches, k); }
    }
  }

  lemma GaplessConcat(origin: string, a: seq<Batch>, b: seq<Batch>)
    requires Gapless(origin, a) && Gapless(EndCursor(origin, a), b)
    ensures Gapless(origin, a + b)
    ensures EndCursor(origin, a + b) == EndCursor(EndCursor(origin, a), b)
  {
    forall k | 0 <= k < |a + b| ensures Follows(origin, a + b, k) {
      if k < |a| {
        assert Follows(origin, a, k);
      } else {
        assert Follows(EndCursor(origin, a), b, k - |a|);
      }
    }
  }

  /** Along a gapless chain the last non-empty cursor is the last cursor. */
  lemma {:induction false} LastCursorIsEnd(start: string, hist: seq<Batch>, n: nat)
    requires Gapless(start, hist) && n <= |hist|
    ensures LastCursor(start, CursorsOf(hist, n)) == EndCursor(start, hist[..n])
  {
    if n > 0 {
      LastCursorIsEnd(start, hist, n - 1);
      assert Follows(start, hist, n - 1);
      assert CursorsOf(hist, n)[..n - 1] == CursorsOf(hist, n - 1);
    }
  }

  lemma AdvanceKeepsCursor(led: Ledger, r: Ledger, hist: seq<Batch>, start: string)
    requires CursorMatches(led, hist, start) && Advanced(led, r)
    requires forall b :: b in led.batches ==> b < |hist| && led.batches[b].cursor == hist[b].cursor
    requires led.nextBatchID <= |hist|
    ensures CursorMatches(r, hist, start)
  {
    var a, b := CursorsOf(hist, led.nextCommitID), Cursors(led, led.nextCommitID, r.nextCommitID);
    assert CursorsOf(hist, r.nextCommitID) == a + b;
    LastCursorAppend(start, a, b);
  }

  lemma ExtendedCursors(led: Ledger, hist: seq<Batch>, b: Batch, start: string)
    requires CursorMatches(led, hist, start)
    ensures CursorMatches(led, hist + [b], start)
  {
    assert CursorsOf(hist + [b], led.nextCommitID) == CursorsOf(hist, led.nextCommitID);
  }

  // ----- the ledger operations keep the cursor matched -----

  lemma CompleteKeepsCursor(w: World, id: nat, err: Option<Error>, executed: bool, n: nat, failAt: Option<nat>)
    requires Counted(w.led, w.tasks, w.sub, w.hist, w.ids) && CursorMatches(w.led, w.hist, w.startCursor)
    requires Outstanding(w.led, id)
    ensures CursorMatches(AfterComplete(w.led, id, err, executed, n, failAt), w.hist, w.startCursor)
  {
    var m := OneFewer(w.led, id, err, executed);
    CompleteMeaning(w.led, id, err, executed, n, failAt);
    forall b | b in m.batches ensures b < |w.hist| && m.batches[b].cursor == w.hist[b].cursor {
      assert LiveBatch(w.led, w.tasks, w.sub, w.hist, w.ids, b);
    }
    if m.batches[id].remaining == 0 && !m.batches[id].failed {
      AdvanceKeepsCursor(m, AfterComplete(w.led, id, err, executed, n, failAt), w.hist, w.startCursor);
    }
  }

  lemma RegisterKeepsCursor(w: World, n: nat, failAt: Option<nat>)
    requires Counted(w.led, w.tasks, w.sub, w.hist, w.ids) && CursorMatches(w.led, w.hist, w.startCursor)
    requires w.sub.Registering? && w.led.batchSlots > Live(w.led)
    ensures var w' := RegisterResult(w, n, failAt); CursorMatches(w'.led, w'.hist, w'.startCursor)
  {
    var b := w.sub.batch;
    var led1 := AfterRegister(w.led, |b.messages|, b.cursor, 0, None);
    RegisterSound(w.led, |b.messages|, b.cursor);
    ExtendedCursors(led1, w.hist, b, w.startCursor);
    forall k | k in led1.batches ensures k <= |w.hist| && led1.batches[k].cursor == (w.hist + [b])[k].cursor {
      if k < |w.hist| {
        assert LiveBatch(w.led, w.tasks, w.sub, w.hist, w.ids, k);
      }
    }
    if |b.messages| == 0 {
      AdvanceMeaning(led1, n, failAt);
      AdvanceKeepsCursor(led1, AdvanceUpTo(led1, n, failAt), w.hist + [b], w.startCursor);
    }
  }

  // ----- committed batches are consumed -----

  lemma CommittedConsumed(w: World, b: nat)
    requires Indexed(w.tasks, w.hist, w.ids) && IdsInRange(w) && b < |w.hist|
    requires CommittedBatch(w.tasks, w.sub, w.hist, w.ids, b)
    ensures FullyConsumed(Archived(w.hist[b], Outcomes(w.tasks, w.ids[b])))
  {
    forall j | 0 <= j < |w.ids[b]|
      ensures w.hist[b].messages[j].Some? && w.tasks[w.ids[b][j]].outcome.Consumed?
    {
      var k := w.ids[b][j];
      assert Placed(w.tasks[k], k, w.hist, w.ids);
      assert k !in OpenOf(w.tasks, b);
    }
  }

  lemma IndexInRange(w: World)
    requires Indexed(w.tasks, w.hist, w.ids)
    ensures IdsInRange(w)
  {
  }

  lemma ArchiveConsumed(w: World)
    requires Indexed(w.tasks, w.hist, w.ids) && IdsInRange(w) && Tallied(w.led, w.tasks, w.sub, w.hist, w.ids)
    ensures forall b :: 0 <= b < w.led.nextCommitID ==> FullyConsumed(CommittedRun(w, w.led.nextCommitID)[b])
  {
    forall b | 0 <= b < w.led.nextCommitID ensures FullyConsumed(CommittedRun(w, w.led.nextCommitID)[b]) {
      assert CommittedBatch(w.tasks, w.sub, w.hist, w.ids, b);
      CommittedConsumed(w, b);
    }
  }

  /** Archiving the committed prefix: the chain continues without a gap and ends
      at the persisted cursor. */
  lemma ArchiveChain(origin: string, w: World)
    requires IdsInRange(w) && CursorMatches(w.led, w.hist, w.startCursor) && Gapless(w.startCursor, w.hist)
    requires Gapless(origin, BatchesOf(w.past)) && w.startCursor == EndCursor(origin, BatchesOf(w.past))
    ensures Gapless(origin, BatchesOf(Archive(w)))
    ensures w.led.cursor.buf == EndCursor(origin, BatchesOf(Archive(w)))
  {
    var n := w.led.nextCommitID;
    GaplessPrefix(w.startCursor, w.hist, n);
    GaplessConcat(origin, BatchesOf(w.past), w.hist[..n]);
    assert BatchesOf(Archive(w)) == BatchesOf(w.past) + w.hist[..n];
    LastCursorIsEnd(w.startCursor, w.hist, n);
  }

  lemma HistIsGapless(origin: string, w: World)
    requires Durable(origin, w)
    ensures Gapless(w.startCursor, w.hist)
  {
    GaplessPrefix(w.startCursor, Fetched(w), |w.hist|);
    assert Fetched(w)[..|w.hist|] == w.hist;
  }

  /** In one state: the committed history is a gapless chain of server
      responses from the very first cursor to the persisted one, and every
      message in it was decoded and consumed. */
  lemma ArchiveIsSafe(cfg: Config, origin: string, w: World)
    requires Healthy(cfg, w) && Durable(origin, w)
    ensures IdsInRange(w) && w.led.nextCommitID <= |w.hist|
    ensures Gapless(origin, BatchesOf(Archive(w)))
    ensures LoadCursor(w.led.cursor).buf == w.led.cursor.buf == EndCursor(origin, BatchesOf(Archive(w)))
    ensures forall k :: 0 <= k < |Archive(w)| ==> FullyConsumed(Archive(w)[k])
  {
    IndexInRange(w);
    HistIsGapless(origin, w);
    ArchiveChain(origin, w);
    ArchiveConsumed(w);
  }

  // ----- crash -----

  /** What has to hold where the crash strikes, possibly in mid-commit. */
  ghost predicate Salvageable(origin: string, c: World) {
    && Indexed(c.tasks, c.hist, c.ids) && Tallied(c.led, c.tasks, c.sub, c.hist, c.ids)
    && CursorMatches(c.led, c.hist, c.startCursor) && Gapless(c.startCursor, c.hist)
    && Gapless(origin, BatchesOf(c.past)) && c.startCursor == EndCursor(origin, BatchesOf(c.past))
    && (forall k :: 0 <= k < |c.past| ==> FullyConsumed(c.past[k]))
  }

  lemma MidReportSalvageable(cfg: Config, origin: string, w: World, i: nat, n: nat, failAt: Option<nat>)
    requires Healthy(cfg, w) && Durable(origin, w) && i < |w.tasks| && w.tasks[i].phase.Report?
    ensures Salvageable(origin, ReportResult(w, i, n, failAt))
  {
    assert Placed(w.tasks[i], i, w.hist, w.ids) && Coherent(w.tasks[i], w.led.cancelled);
    MidReportLedger(w, i, n, failAt);
    MoveKeepsIndex(w.tasks, i, w.tasks[i].(phase := CloseDone), w.hist, w.ids);
    HistIsGapless(origin, w);
  }

  lemma MidReportLedger(w: World, i: nat, n: nat, failAt: Option<nat>)
    requires i < |w.tasks| && w.tasks[i].phase.Report?
    requires Counted(w.led, w.tasks, w.sub, w.hist, w.ids) && SubmitterAt(w) && Placed(w.tasks[i], i, w.hist, w.ids)
    requires Coherent(w.tasks[i], w.led.cancelled) && CursorMatches(w.led, w.hist, w.startCursor)
    ensures var c := ReportResult(w, i, n, failAt);
            Tallied(c.led, c.tasks, c.sub, c.hist, c.ids) && CursorMatches(c.led, c.hist, c.startCursor)
  {
    var t := w.tasks[i];
    var t' := t.(phase := CloseDone);
    UnscheduledNonNegative(w);
    OpenBatchIsOutstanding(w.led, w.tasks, w.sub, w.hist, w.ids, i);
    ReportTally(w.led, w.tasks, i, t', t.phase.reported, t.phase.executed, w.sub, w.hist, w.ids);
    CompleteKeepsCount(w.led, w.tasks[i := t'], t.batch, t.phase.reported, t.phase.executed, n, failAt, w.sub, w.hist, w.ids);
    CompleteKeepsCursor(w, t.batch, t.phase.reported, t.phase.executed, n, failAt);
  }

  lemma MidRegisterSalvageable(cfg: Config, origin: string, w: World, n: nat, failAt: Option<nat>)
    requires Healthy(cfg, w) && Durable(origin, w) && w.sub.Registering?
    ensures Salvageable(origin, RegisterResult(w, n, failAt))
  {
    RegisterKeepsIndex(w, n, failAt);
    RegisterKeepsCount(w, n, failAt);
    RegisterKeepsCursor(w, n, failAt);
    GaplessPrefix(w.startCursor, Fetched(w), |w.hist| + 1);
    assert Fetched(w)[..|w.hist| + 1] == w.hist + [w.sub.batch];
  }

  lemma CrashSalvageable(cfg: Config, origin: string, w: World, point: CrashPoint)
    requires Healthy(cfg, w) && Durable(origin, w)
    ensures Salvageable(origin, AtCrash(w, point))
  {
    match point
    case InReport(i, n, failAt) =>
      if i < |w.tasks| && w.tasks[i].phase.Report? {
        MidReportSalvageable(cfg, origin, w, i, n, failAt);
      } else {
        HistIsGapless(origin, w);
      }
    case InRegister(n, failAt) =>
      if w.sub.Registering? {
        MidRegisterSalvageable(cfg, origin, w, n, failAt);
      } else {
        HistIsGapless(origin, w);
      }
    case Between => HistIsGapless(origin, w);
  }

  lemma RestartDurable(cfg: Config, origin: string, c: World)
    requires Salvageable(origin, c) && IdsInRange(c)
    ensures Durable(origin, Restarted(cfg, c))
    ensures Restarted(cfg, c).past == Archive(c)
  {
    ArchiveChain(origin, c);
    ArchiveConsumed(c);
    var r := Restarted(cfg, c);
    assert CursorsOf(r.hist, 0) == [];
  }

  // ----- every operation -----

  lemma ReporterIsOutstanding(cfg: Config, w: World, i: nat)
    requires Accounted(cfg, w) && TaskAt(w, i, 11)
    ensures Outstanding(w.led, w.tasks[i].batch)
  {
    GuardsNeverFire(cfg, w, ReportDone(i, None));
  }

  lemma TaskKeepsCursor(cfg: Config, w: World, op: Op)
    requires Counted(w.led, w.tasks, w.sub, w.hist, w.ids) && CursorMatches(w.led, w.hist, w.startCursor)
    requires TaskOp(op) && Enabled(cfg, w, op)
    requires op.ReportDone? ==> Outstanding(w.led, w.tasks[op.i].batch)
    ensures var w' := Apply(cfg, w, op); CursorMatches(w'.led, w'.hist, w'.startCursor)
  {
    TaskFrame(cfg, w, op);
    if op.ReportDone? {
      ReportApplied(cfg, w, op);
      ReportKeepsCursor(w, op.i, op.failAt);
    }
  }

  lemma ReportKeepsCursor(w: World, i: nat, failAt: Option<nat>)
    requires Counted(w.led, w.tasks, w.sub, w.hist, w.ids) && CursorMatches(w.led, w.hist, w.startCursor)
    requires i < |w.tasks| && w.tasks[i].phase.Report? && Outstanding(w.led, w.tasks[i].batch)
    ensures var w' := ReportResult(w, i, Live(w.led), failAt); CursorMatches(w'.led, w'.hist, w'.startCursor)
  {
    var t := w.tasks[i];
    CompleteKeepsCursor(w, t.batch, t.phase.reported, t.phase.executed, Live(w.led), failAt);
  }

  lemma SubmitterKeepsCursor(cfg: Config, w: World, op: Op)
    requires Healthy(cfg, w) && CursorMatches(w.led, w.hist, w.startCursor) && SubmitterOp(op) && Enabled(cfg, w, op)
    ensures var w' := Apply(cfg, w, op); CursorMatches(w'.led, w'.hist, w'.startCursor)
  {
    GuardsNeverFire(cfg, w, op);
    if op.Decode? {
      DecodeKeepsCursor(cfg, w);
    } else if op.Register? {
      RegisterStepKeepsCursor(cfg, w, op);
    } else {
      OthersKeepCursor(cfg, w, op);
    }
  }

  lemma RegisterStepKeepsCursor(cfg: Config, w: World, op: Op)
    requires Counted(w.led, w.tasks, w.sub, w.hist, w.ids) && CursorMatches(w.led, w.hist, w.startCursor)
    requires op.Register? && Enabled(cfg, w, op) && w.led.batchSlots > Live(w.led)
    ensures var w' := Apply(cfg, w, op); CursorMatches(w'.led, w'.hist, w'.startCursor)
  {
    RegisterApplied(cfg, w, op);
    RegisterKeepsCursor(w, Live(w.led) + 1, op.failAt);
  }

  lemma OthersKeepCursor(cfg: Config, w: World, op: Op)
    requires SubmitterOp(op) && !op.Decode? && !op.Register? && Enabled(cfg, w, op)
    requires CursorMatches(w.led, w.hist, w.startCursor)
    ensures var w' := Apply(cfg, w, op); CursorMatches(w'.led, w'.hist, w'.startCursor)
  {
    SubmitterApplied(cfg, w, op);
    SubmitterFrame(cfg, w, op);
  }

  lemma DecodeKeepsCursor(cfg: Config, w: World)
    requires Counted(w.led, w.tasks, w.sub, w.hist, w.ids) && CursorMatches(w.led, w.hist, w.startCursor)
    requires Enabled(cfg, w, Decode) && Outstanding(w.led, w.sub.id)
    ensures var w' := Apply(cfg, w, Decode); CursorMatches(w'.led, w'.hist, w'.startCursor)
  {
    CompleteKeepsCursor(w, w.sub.id, Some("decode incoming message"), true, Live(w.led), None);
  }

  ghost predicate FeedOk(w: World) {
    Gapless(w.startCursor, Fetched(w))
    && (!w.sub.Draining? ==> w.pollCursor == EndCursor(w.startCursor, Fetched(w)))
  }

  lemma PollFeed(w: World, b: Batch)
    requires FeedOk(w) && b.servedAt == w.pollCursor && (b.cursor == "" ==> w.pollCursor == "")
    ensures FeedOk(w.(queue := w.queue + [b], pollCursor := b.cursor))
  {
    var w' := w.(queue := w.queue + [b], pollCursor := b.cursor);
    if !w.sub.Draining? {
      GaplessAppend(w.startCursor, Fetched(w), b);
      assert Fetched(w') == Fetched(w) + [b];
    }
  }

  lemma SameFetched(w: World, w': World)
    requires FeedOk(w) && w'.startCursor == w.startCursor && w'.pollCursor == w.pollCursor
    requires Fetched(w') == (if w'.sub.Draining? then w.hist else Fetched(w)) && (w.sub.Draining? ==> w'.sub.Draining?)
    ensures FeedOk(w')
  {
    GaplessPrefix(w.startCursor, Fetched(w), |w.hist|);
    assert Fetched(w)[..|w.hist|] == w.hist;
  }

  lemma TakeFetched(w: World)
    requires w.sub.Idle? && w.queue != []
    ensures Fetched(w.(sub := Entering(w.queue[0]), queue := w.queue[1..])) == Fetched(w)
  {
    assert w.hist + w.queue == w.hist + [w.queue[0]] + w.queue[1..];
  }

  lemma SubmitterFetched(cfg: Config, w: World, op: Op)
    requires SubmitterOp(op) && Enabled(cfg, w, op) && !op.Spawn? && !op.Register? && !op.TakeBatch?
    ensures var w' := ApplySub(w, op); Fetched(w') == (if w'.sub.Draining? then w.hist else Fetched(w)) && !w.sub.Draining?
  {
    SubmitterFrame(cfg, w, op);
  }

  lemma SubmitterFeed(cfg: Config, w: World, op: Op)
    requires SubmitterOp(op) && Enabled(cfg, w, op) && (op.Register? ==> |w.hist| == |w.ids|)
    ensures var w' := Apply(cfg, w, op);
            && Fetched(w') == (if w'.sub.Draining? then w.hist else Fetched(w)) && !w.sub.Draining?
            && w'.past == w.past && w'.startCursor == w.startCursor && w'.pollCursor == w.pollCursor
  {
    SubmitterApplied(cfg, w, op);
    SubmitterFrame(cfg, w, op);
    if op.Spawn? {
      SpawnApplied(cfg, w, op);
    } else if op.Register? {
      RegisterApplied(cfg, w, op);
    } else if op.TakeBatch? {
      TakeFetched(w);
    } else {
      SubmitterFetched(cfg, w, op);
    }
  }

  lemma FeedStep(cfg: Config, w: World, op: Op)
    requires !TaskOp(op) && !op.Crash? && Enabled(cfg, w, op) && FeedOk(w) && |w.hist| == |w.ids|
    ensures var w' := Apply(cfg, w, op); FeedOk(w') && w'.past == w.past && w'.startCursor == w.startCursor
  {
    if op.Poll? {
      PollFeed(w, Batch(w.pollCursor, NextCursor(w, op.buf), op.messages));
    } else if SubmitterOp(op) {
      SubmitterFeed(cfg, w, op);
      SameFetched(w, Apply(cfg, w, op));
    }
  }

  lemma DurableStep(cfg: Config, origin: string, w: World, op: Op)
    requires Healthy(cfg, w) && Durable(origin, w) && Enabled(cfg, w, op)
    ensures Durable(origin, Apply(cfg, w, op))
  {
    if op.Crash? {
      CrashSalvageable(cfg, origin, w, op.point);
      RestartDurable(cfg, origin, AtCrash(w, op.point));
    } else if TaskOp(op) {
      TaskDurable(cfg, origin, w, op);
    } else {
      if SubmitterOp(op) { SubmitterKeepsCursor(cfg, w, op); }
      FeedStep(cfg, w, op);
    }
  }

  lemma TaskDurable(cfg: Config, origin: string, w: World, op: Op)
    requires Healthy(cfg, w) && Durable(origin, w) && Enabled(cfg, w, op) && TaskOp(op)
    ensures Durable(origin, Apply(cfg, w, op))
  {
    if op.ReportDone? { ReporterIsOutstanding(cfg, w, op.i); }
    TaskKeepsCursor(cfg, w, op);
    TaskFrame(cfg, w, op);
  }

  lemma {:induction false} RunDurable(cfg: Config, origin: string, start: World, ops: seq<Op>)
    requires Healthy(cfg, start) && Durable(origin, start) && Run(cfg, start, ops).Some?
    ensures Durable(origin, Run(cfg, start, ops).value)
    decreases |ops|
  {
    if ops != [] {
      var prior := ops[..|ops| - 1];
      RunDurable(cfg, origin, start, prior);
      RunHealthy(cfg, start, prior);
      DurableStep(cfg, origin, Run(cfg, start, prior).value, ops[|ops| - 1]);
    }
  }

  function StoredCursor(file: Option<string>): string {
    if file.Some? then file.value else ""
  }

  lemma InitialDurable(cfg: Config, cursorFile: Option<string>, replayFile: Option<Replay.Seen>, now: int)
    ensures Durable(StoredCursor(cursorFile), Initial(cfg, cursorFile, replayFile, now))
  {
    assert CursorsOf(Initial(cfg, cursorFile, replayFile, now).hist, 0) == [];
  }

  /** End to end: after any run, with crashes, restarts, failed writes and
      cancellations anywhere, the cursor a restart would resume from is the end
      of a gapless chain of server responses that starts at the cursor the
      first start found, and every message of that chain was decoded and then
      Acked, Dropped, skipped as a replay, or was not a user message. */
  lemma NoMessageLost(cfg: Config, cursorFile: Option<string>, replayFile: Option<Replay.Seen>, now: int, ops: seq<Op>, w: World)
    requires Run(cfg, Initial(cfg, cursorFile, replayFile, now), ops) == Some(w)
    ensures IdsInRange(w) && w.led.nextCommitID <= |w.hist|
    ensures Gapless(StoredCursor(cursorFile), BatchesOf(Archive(w)))
    ensures LoadCursor(w.led.cursor).buf == EndCursor(StoredCursor(cursorFile), BatchesOf(Archive(w)))
    ensures forall k :: 0 <= k < |Archive(w)| ==> FullyConsumed(Archive(w)[k])
  {
    var start := Initial(cfg, cursorFile, replayFile, now);
    InitialHealthy(cfg, cursorFile, replayFile, now);
    InitialDurable(cfg, cursorFile, replayFile, now);
    RunHealthy(cfg, start, ops);
    RunDurable(cfg, StoredCursor(cursorFile), start, ops);
    ArchiveIsSafe(cfg, StoredCursor(cursorFile), w);
  }

  lemma SalvageableIsRestartable(origin: string, c: World)
    requires Salvageable(origin, c)
    ensures IdsInRange(c) && c.led.nextCommitID <= |c.hist|
  {
    IndexInRange(c);
  }

  /** The runs spoken of include a crash at every point of every state, between
      steps and in the middle of a commit. */
  lemma CrashAnywhere(cfg: Config, cursorFile: Option<string>, replayFile: Option<Replay.Seen>, now: int, ops: seq<Op>, w: World,
                      point: CrashPoint)
    requires Run(cfg, Initial(cfg, cursorFile, replayFile, now), ops) == Some(w)
    ensures Enabled(cfg, w, Crash(point))
  {
    var start := Initial(cfg, cursorFile, replayFile, now);
    InitialHealthy(cfg, cursorFile, replayFile, now);
    InitialDurable(cfg, cursorFile, replayFile, now);
    RunHealthy(cfg, start, ops);
    RunDurable(cfg, StoredCursor(cursorFile), start, ops);
    CrashSalvageable(cfg, StoredCursor(cursorFile), w, point);
    SalvageableIsRestartable(StoredCursor(cursorFile), AtCrash(w, point));
  }
}
