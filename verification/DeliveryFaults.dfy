/** What faults, cancellation and time do: a fault inside processWireMessage
    fails the batch for good and stops the dispatcher, nothing starts after a
    cancellation, and an identity is forgotten once its window has passed. */
module DeliveryFaults {
  import opened Wire
  import opened Replay
  import opened Stores
  import opened Dispatcher
  import opened Delivery
  import opened DeliveryOrder
  import opened DeliveryAccounting
  import opened DeliveryReplay
  import opened DeliveryTheorems

  // ----- faults -----

  /** The message carries a token for somebody. */
  predicate BringsToken(m: Message) {
    m.contextToken != "" && ((m.kind == MessageTypeUser && m.fromUser != "") || (m.kind == MessageTypeBot && m.toUser != ""))
  }

  /** The step meets an error: a replaced session, a failed write, a failing
      hook, or a handler that wants the message again. */
  predicate Faulty(w: World, op: Op) {
    || (op.ValidateSession? && op.bad.Some?)
    || (op.RememberToken? && op.bad.Some? && op.i < |w.tasks| && BringsToken(w.tasks[op.i].msg))
    || (op.InvokeHandler? && (op.result.Retry? || op.result.HookFails?))
    || (op.StoreReplay? && op.bad.Some?)
  }

  /** The task has failed, and nothing but that and the handler call is new. */
  ghost predicate FailedAt(w: World, w': World, i: nat) {
    && i < |w.tasks| == |w'.tasks| && w'.tasks == w.tasks[i := w'.tasks[i]]
    && w'.tasks[i].phase.Leave? && w'.tasks[i].phase.err.Some? && w'.tasks[i].outcome == Failed && w'.tasks[i].batch == w.tasks[i].batch
    && w'.tokens == w.tokens && w'.replay == w.replay && w'.log == w.log && w'.led == w.led
  }

  lemma RememberFaults(w: World, i: nat, bad: Option<Error>)
    requires TaskAt(w, i, 6) && bad.Some? && BringsToken(w.tasks[i].msg)
    ensures FailedAt(w, RememberResult(w, i, bad), i)
  {
  }

  lemma InvokeFaults(w: World, i: nat, result: HandlerResult)
    requires TaskAt(w, i, 7) && (result.Retry? || result.HookFails?)
    ensures FailedAt(w, InvokeResult(w, i, result), i)
    ensures InvokeResult(w, i, result).calls ==
      if result.Retry? then w.calls + [Call(w.tasks[i].msg, w.tasks[i].checkedAt, |w.log|, result)] else w.calls
  {
  }

  lemma StoreFaults(cfg: Config, w: World, i: nat, bad: Option<Error>)
    requires TaskAt(w, i, 9) && w.tasks[i].phase.Store? && bad.Some?
    ensures FailedAt(w, StoreResult(cfg, w, i, bad), i)
  {
  }

  lemma ValidateFaults(cfg: Config, w: World, i: nat, bad: Option<Error>)
    requires TaskAt(w, i, 4) && bad.Some?
    ensures FailedAt(w, ApplyProcessing(cfg, w, ValidateSession(i, bad)), i)
  {
  }

  lemma FaultFails(cfg: Config, w: World, op: Op)
    requires Faulty(w, op) && Enabled(cfg, w, op)
    ensures FailedAt(w, ApplyProcessing(cfg, w, op), op.i)
  {
    match op
    case ValidateSession(i, bad) => ValidateFaults(cfg, w, i, bad);
    case RememberToken(i, bad) => RememberFaults(w, i, bad);
    case InvokeHandler(i, result) => InvokeFaults(w, i, result);
    case StoreReplay(i, bad) => StoreFaults(cfg, w, i, bad);
  }

  lemma FaultApplied(cfg: Config, w: World, op: Op)
    requires Faulty(w, op) && Enabled(cfg, w, op)
    ensures FailedAt(w, Apply(cfg, w, op), op.i)
  {
    TaskApplied(cfg, w, op);
    FaultFails(cfg, w, op);
  }

  lemma LeaveReports(cfg: Config, w: World, i: nat)
    requires TaskAt(w, i, 10) && w.tasks[i].phase.Leave?
    ensures Enabled(cfg, w, LeaveActive(i))
    ensures var v := Apply(cfg, w, LeaveActive(i));
      && i < |v.tasks| && v.tasks[i].phase == Report(w.tasks[i].phase.err, true) && v.tasks[i].batch == w.tasks[i].batch
      && v.tokens == w.tokens && v.replay == w.replay && v.log == w.log && v.led == w.led
  {
    TaskApplied(cfg, w, LeaveActive(i));
    LeavingForm(w, LeaveActive(i));
  }

  lemma ReportFails(l: Ledger, id: nat, err: Option<Error>, n: nat, failAt: Option<nat>)
    requires Sound(l) && Outstanding(l, id) && err.Some?
    ensures var r := AfterComplete(l, id, err, true, n, failAt); FailedIn(r, id) && r.cancelled && r.firstError.Some?
  {
    CompleteMeaning(l, id, err, true, n, failAt);
  }

  lemma ReportStops(cfg: Config, w: World, i: nat, failAt: Option<nat>)
    requires Reachable(cfg, w) && TaskAt(w, i, 11) && w.tasks[i].phase.Report? && w.tasks[i].phase.reported.Some? && w.tasks[i].phase.executed
    ensures Enabled(cfg, w, ReportDone(i, failAt))
    ensures var v := Apply(cfg, w, ReportDone(i, failAt));
      && FailedIn(v.led, w.tasks[i].batch) && v.led.cancelled && v.led.firstError.Some?
      && v.tokens == w.tokens && v.replay == w.replay && v.log == w.log
  {
    CompletesOutstanding(cfg, w, ReportDone(i, failAt));
    ReportApplied(cfg, w, ReportDone(i, failAt));
    ReportFails(w.led, w.tasks[i].batch, w.tasks[i].phase.reported, Live(w.led), failAt);
  }

  lemma ReachesOn(cfg: Config, w: World, op: Op)
    requires Reachable(cfg, w) && Enabled(cfg, w, op)
    ensures Reachable(cfg, Apply(cfg, w, op))
  {
    var cursorFile, replayFile, now, ops :| Run(cfg, Initial(cfg, cursorFile, replayFile, now), ops) == Some(w);
    assert (ops + [op])[..|ops|] == ops;
    assert Run(cfg, Initial(cfg, cursorFile, replayFile, now), ops + [op]) == Some(Apply(cfg, w, op));
  }

  predicate SameStores(w: World, v: World) { v.tokens == w.tokens && v.replay == w.replay && v.log == w.log }

  /** Task i of v has just failed; v is w otherwise, as far as stores go. */
  ghost predicate JustFailed(w: World, v: World, i: nat) {
    && i < |w.tasks| && TaskAt(v, i, 10) && v.tasks[i].phase.Leave? && v.tasks[i].phase.err.Some?
    && v.tasks[i].batch == w.tasks[i].batch && SameStores(w, v)
  }

  lemma FailedIsJustFailed(w: World, v: World, i: nat)
    requires FailedAt(w, v, i)
    ensures JustFailed(w, v, i)
  {
  }

  lemma Faults(cfg: Config, w: World, op: Op, i: nat) returns (v: World)
    requires Reachable(cfg, w) && Faulty(w, op) && Enabled(cfg, w, op) && i == op.i
    ensures v == Apply(cfg, w, op) && Reachable(cfg, v) && JustFailed(w, v, i)
  {
    v := Apply(cfg, w, op);
    FaultApplied(cfg, w, op);
    FailedIsJustFailed(w, v, i);
    ReachesOn(cfg, w, op);
  }

  lemma Leaves(cfg: Config, w: World, i: nat) returns (v: World)
    requires Reachable(cfg, w) && TaskAt(w, i, 10) && w.tasks[i].phase.Leave? && w.tasks[i].phase.err.Some?
    ensures Enabled(cfg, w, LeaveActive(i)) && v == Apply(cfg, w, LeaveActive(i)) && Reachable(cfg, v) && SameStores(w, v)
    ensures TaskAt(v, i, 11) && v.tasks[i].phase.Report? && v.tasks[i].phase.reported.Some? && v.tasks[i].phase.executed
    ensures v.tasks[i].batch == w.tasks[i].batch
  {
    LeaveReports(cfg, w, i);
    v := Apply(cfg, w, LeaveActive(i));
    ReachesOn(cfg, w, LeaveActive(i));
  }

  lemma RunThree(cfg: Config, w: World, v1: World, v2: World, v3: World, a: Op, b: Op, c: Op)
    requires Enabled(cfg, w, a) && v1 == Apply(cfg, w, a) && Enabled(cfg, v1, b) && v2 == Apply(cfg, v1, b)
    requires Enabled(cfg, v2, c) && v3 == Apply(cfg, v2, c)
    ensures Run(cfg, w, [a, b, c]) == Some(v3)
  {
    assert [a, b, c][..2] == [a, b] && [a, b][..1] == [a] && [a][..0] == [];
    assert Run(cfg, w, []) == Some(w);
    assert Run(cfg, w, [a]) == Some(v1);
    assert Run(cfg, w, [a, b]) == Some(v2);
  }

  /** A fault in any reachable state: the task leaves and reports it, then its
      batch has failed, the context is cancelled and the error kept, and neither
      a token nor an identity was stored.  By FailurePinsFrontier the batch is
      then never committed by this process. */
  lemma FaultStopsBatch(cfg: Config, w: World, op: Op, failAt: Option<nat>) returns (v: World)
    requires Reachable(cfg, w) && Faulty(w, op) && Enabled(cfg, w, op)
    ensures Run(cfg, w, [op, LeaveActive(op.i), ReportDone(op.i, failAt)]) == Some(v)
    ensures op.i < |w.tasks| && FailedIn(v.led, w.tasks[op.i].batch) && v.led.cancelled && v.led.firstError.Some? && SameStores(w, v)
  {
    var failed := Faults(cfg, w, op, op.i);
    var left := Leaves(cfg, failed, op.i);
    ReportStops(cfg, left, op.i, failAt);
    v := Apply(cfg, left, ReportDone(op.i, failAt));
    RunThree(cfg, w, failed, left, v, op, LeaveActive(op.i), ReportDone(op.i, failAt));
  }

  // ----- cancellation -----

  /** Under a cancelled context task i has not started and will not. */
  predicate Shut(w: World, i: nat) {
    w.led.cancelled && (i < |w.tasks| ==> Rank(w.tasks[i].phase) <= 3 || (Rank(w.tasks[i].phase) >= 11 && w.tasks[i].outcome.Abandoned?))
  }

  lemma WaitingShut(cfg: Config, w: World, op: Op, i: nat)
    requires Shut(w, i) && WaitingOp(op) && Enabled(cfg, w, op)
    ensures Shut(ApplyWaiting(w, op), i)
  {
    WaitingForm(w, op);
  }

  lemma LeavingShut(cfg: Config, w: World, op: Op, i: nat)
    requires Shut(w, i) && LeavingOp(op) && Enabled(cfg, w, op) && ApplyLeaving(w, op).led.cancelled
    ensures Shut(ApplyLeaving(w, op), i)
  {
    LeavingForm(w, op);
  }

  lemma ProcessingShut(cfg: Config, w: World, op: Op, i: nat)
    requires Shut(w, i) && ProcessingOp(op) && Enabled(cfg, w, op)
    ensures Shut(ApplyProcessing(cfg, w, op), i)
  {
    ProcessingForm(cfg, w, op);
    AtProcessing(cfg, w, op);
  }

  lemma TaskShut(cfg: Config, w: World, op: Op, i: nat)
    requires Shut(w, i) && TaskOp(op) && Enabled(cfg, w, op) && Apply(cfg, w, op).led.cancelled
    ensures Shut(Apply(cfg, w, op), i)
  {
    TaskApplied(cfg, w, op);
    if WaitingOp(op) {
      WaitingShut(cfg, w, op, i);
    } else if ProcessingOp(op) {
      ProcessingShut(cfg, w, op, i);
    } else {
      LeavingShut(cfg, w, op, i);
    }
  }

  lemma StaysCancelled(cfg: Config, w: World, op: Op)
    requires Healthy(cfg, w) && Enabled(cfg, w, op) && !op.Crash? && w.led.cancelled
    ensures Apply(cfg, w, op).led.cancelled
  {
    GuardsNeverFire(cfg, w, op);
    if op.ReportDone? {
      ReportApplied(cfg, w, op);
      var t := w.tasks[op.i];
      CompleteMeaning(w.led, t.batch, t.phase.reported, t.phase.executed, Live(w.led), op.failAt);
    } else if TaskOp(op) {
      TaskFrame(cfg, w, op);
    } else if op.Spawn? {
      SpawnApplied(cfg, w, op);
    } else {
      OtherStepFrame(cfg, w, op);
    }
  }

  lemma ShutStep(cfg: Config, w: World, op: Op, i: nat)
    requires Healthy(cfg, w) && Shut(w, i) && Enabled(cfg, w, op) && !op.Crash?
    ensures Shut(Apply(cfg, w, op), i)
  {
    StaysCancelled(cfg, w, op);
    if TaskOp(op) {
      TaskShut(cfg, w, op, i);
    } else if op.Spawn? {
      SpawnApplied(cfg, w, op);
      SpawnForm(w);
    } else {
      GuardsNeverFire(cfg, w, op);
      OtherStepFrame(cfg, w, op);
    }
  }

  lemma {:induction false} RunShut(cfg: Config, w: World, ops: seq<Op>, i: nat)
    requires Healthy(cfg, w) && Shut(w, i) && Run(cfg, w, ops).Some?
    requires forall k :: 0 <= k < |ops| ==> !ops[k].Crash?
    ensures Shut(Run(cfg, w, ops).value, i)
    decreases |ops|
  {
    if ops != [] {
      var prior := ops[..|ops| - 1];
      RunShut(cfg, w, prior, i);
      RunHealthy(cfg, w, prior);
      ShutStep(cfg, Run(cfg, w, prior).value, ops[|ops| - 1], i);
    }
  }

  lemma CancelApplied(cfg: Config, w: World)
    ensures Apply(cfg, w, Cancel) == w.(led := w.led.(cancelled := true))
  {
  }

  /** After a cancellation, and whatever follows short of a restart: a message
      that had not passed the second check, and one scheduled later, is never
      processed, only abandoned. */
  lemma NothingStartsAfterCancel(cfg: Config, w: World, ops: seq<Op>, v: World, i: nat)
    requires Reachable(cfg, w) && (i < |w.tasks| ==> Rank(w.tasks[i].phase) <= 3)
    requires Run(cfg, Apply(cfg, w, Cancel), ops) == Some(v) && i < |v.tasks|
    requires forall k :: 0 <= k < |ops| ==> !ops[k].Crash?
    ensures !Processing(v.tasks[i]) && !v.tasks[i].outcome.Consumed? && !v.tasks[i].outcome.Failed?
  {
    ReachableHealthy(cfg, w);
    CancelApplied(cfg, w);
    var c := Apply(cfg, w, Cancel);
    HealthyStep(cfg, w, Cancel);
    RunShut(cfg, c, ops, i);
    RunHealthy(cfg, c, ops);
    assert Coherent(v.tasks[i], v.led.cancelled);
  }

  // ----- time -----

  /** Once the window has passed, no identity of a commit suppresses anything;
      only entries the very first file held may still do, if they lie ahead. */
  lemma WindowPasses(cfg: Config, cursorFile: Option<string>, replayFile: Option<Seen>, now: int, ops: seq<Op>, w: World,
                     elapsed: nat, k: string)
    requires Run(cfg, Initial(cfg, cursorFile, replayFile, now), ops) == Some(w)
    requires elapsed >= cfg.ttl + NanosPerMilli && (replayFile.Some? ==> k !in replayFile.value)
    ensures var v := Apply(cfg, w, Tick(elapsed)); !SeenKey(v.replay.mem, k, v.now, cfg.ttl)
  {
    var initial := if replayFile.Some? then replayFile.value else map[];
    InitialHealthy(cfg, cursorFile, replayFile, now);
    InitialSuppressing(cfg, cursorFile, replayFile, now);
    RunSuppressing(cfg, initial, Initial(cfg, cursorFile, replayFile, now), ops);
    if k in w.replay.mem { EntriesAreOld(cfg, initial, w, k); }
    LaterMilli(w.now, w.now + elapsed - cfg.ttl);
  }

  lemma EntriesAreOld(cfg: Config, initial: Seen, w: World, k: string)
    requires IndexOk(cfg, w.replay, w.log, w.now, initial) && k !in initial && k in w.replay.mem
    ensures w.replay.mem[k] <= UnixMilli(w.now)
  {
    var p :| 0 <= p < |w.log| && k in w.log[p].keys && UnixMilli(w.log[p].time) == w.replay.mem[k];
    assert w.log[p].time <= w.now;
  }

  lemma LaterMilli(t: int, later: int)
    requires later >= t + NanosPerMilli
    ensures UnixMilli(later) > UnixMilli(t)
  {
  }
}
