/** Progress: unless the dispatcher is drained or waiting for the poll loop, one
    of its own steps is enabled, and its own steps cannot go on for ever. */
module DeliveryProgress {
  import opened Wire
  import opened Stores
  import opened Dispatcher
  import opened Delivery
  import opened DeliveryOrder
  import opened DeliveryAccounting

  predicate AllFinished(tasks: seq<Task>) {
    forall k :: 0 <= k < |tasks| ==> tasks[k].phase.Finished?
  }

  /** Every goroutine is done and the submitter waits for nothing but input. */
  predicate AtRest(w: World) {
    AllFinished(w.tasks)
    && (w.sub.Draining? || (w.sub.Idle? && w.queue == [] && !w.queueClosed && !w.led.cancelled))
  }

  lemma {:induction false} FirstUnfinished(tasks: seq<Task>, from: nat) returns (i: nat)
    requires from <= |tasks| && !AllFinished(tasks)
    requires forall k :: 0 <= k < from ==> tasks[k].phase.Finished?
    ensures i < |tasks| && !tasks[i].phase.Finished?
    ensures forall k :: 0 <= k < i ==> tasks[k].phase.Finished?
    decreases |tasks| - from
  {
    if !tasks[from].phase.Finished? {
      i := from;
    } else {
      i := FirstUnfinished(tasks, from + 1);
    }
  }

  /** The only step, up to its outcome, of a goroutine past its selects. */
  function Straight(i: nat, rank: nat): Op
    requires rank <= 14
  {
    match rank
    case 0 => Wake(i)
    case 1 => CheckFirst(i)
    case 2 => Acquire(i)
    case 3 => CheckSecond(i)
    case 4 => ValidateSession(i, None)
    case 5 => LookUpReplay(i)
    case 6 => RememberToken(i, None)
    case 7 => InvokeHandler(i, Ack)
    case 8 => ReadClock(i)
    case 9 => StoreReplay(i, None)
    case 10 => LeaveActive(i)
    case 11 => ReportDone(i, None)
    case 12 => CloseChannel(i)
    case 13 => DeleteTail(i)
    case _ => ReleaseSlot(i)
  }

  lemma StraightEnabled(cfg: Config, w: World, i: nat)
    requires i < |w.tasks| && Rank(w.tasks[i].phase) <= 14
    requires Rank(w.tasks[i].phase) == 0 ==> PredecessorClosed(w, w.tasks[i])
    requires Rank(w.tasks[i].phase) == 2 ==> w.active < cfg.maxActive
    ensures Enabled(cfg, w, Straight(i, Rank(w.tasks[i].phase)))
    ensures !EnvironmentOp(Straight(i, Rank(w.tasks[i].phase))) && CleanOp(Straight(i, Rank(w.tasks[i].phase)))
  {
  }

  lemma EarlierFinishedMeansClosed(w: World, i: nat)
    requires i < |w.tasks| && Linked(w.tasks, i)
    requires forall k :: 0 <= k < i ==> w.tasks[k].phase.Finished?
    ensures PredecessorClosed(w, w.tasks[i])
  {
  }

  lemma SomeHolder(tasks: seq<Task>) returns (k: nat)
    requires |ActiveOf(tasks)| > 0
    ensures k < |tasks| && HoldsActive(tasks[k])
  {
    k :| k in ActiveOf(tasks);
  }

  lemma ChooseTaskStep(cfg: Config, w: World, i: nat) returns (op: Op)
    requires w.active == |ActiveOf(w.tasks)| && cfg.maxActive >= 1
    requires i < |w.tasks| && !w.tasks[i].phase.Finished? && PredecessorClosed(w, w.tasks[i])
    ensures Enabled(cfg, w, op) && TaskOp(op) && CleanOp(op)
  {
    var k: nat := i;
    if w.tasks[i].phase.AwaitActive? && w.active >= cfg.maxActive {
      k := SomeHolder(w.tasks);
    }
    StraightEnabled(cfg, w, k);
    op := Straight(k, Rank(w.tasks[k].phase));
  }

  /** The earliest unfinished goroutine, or one holding an active slot it
      needs, can always step. */
  lemma TaskCanStep(cfg: Config, w: World) returns (op: Op)
    requires Healthy(cfg, w) && cfg.maxActive >= 1 && !AllFinished(w.tasks)
    ensures Enabled(cfg, w, op) && TaskOp(op) && CleanOp(op)
  {
    var i := FirstUnfinished(w.tasks, 0);
    EarlierFinishedMeansClosed(w, i);
    op := ChooseTaskStep(cfg, w, i);
  }

  lemma FinishedTasksAreNotOpen(tasks: seq<Task>, b: nat)
    requires AllFinished(tasks)
    ensures OpenOf(tasks, b) == {} && PendingOf(tasks) == {} && ActiveOf(tasks) == {}
  {
  }

  /** With every goroutine finished, a full slot semaphore means a failed
      frontier batch, hence a cancelled context to escape through. */
  lemma SlotsFullMeansCancelled(w: World)
    requires Counted(w.led, w.tasks, w.sub, w.hist, w.ids) && AllFinished(w.tasks) && w.sub.WantSlot?
    requires Live(w.led) > 0
    ensures w.led.cancelled
  {
    var f := w.led.nextCommitID;
    assert f in w.led.batches;
    assert LiveBatch(w.led, w.tasks, w.sub, w.hist, w.ids, f);
    FinishedTasksAreNotOpen(w.tasks, f);
  }

  lemma ChooseSubmitterStep(cfg: Config, w: World) returns (op: Op)
    requires SubmitterAt(w) && cfg.maxActive >= 1 && AllFinished(w.tasks) && !AtRest(w)
    requires w.sub.WantSlot? && w.led.batchSlots >= UpdateQueueCapacity ==> w.led.cancelled
    requires w.sub.WantPending? ==> w.pending == 0
    ensures Enabled(cfg, w, op) && SubmitterOp(op) && CleanOp(op)
  {
    match w.sub
    case Idle => op := if w.queue != [] then TakeBatch else StartDrain;
    case Entering(_) => op := Enter;
    case WantSlot(_) => op := if w.led.batchSlots >= UpdateQueueCapacity then GiveUpSlot else TakeSlot;
    case Recheck(_) => op := RecheckCtx;
    case Registering(_) => op := Register(None);
    case Scheduling(_, _) => op := Next;
    case Decoding(_, _) => op := Decode;
    case WantPending(_, _) => op := TakePending;
    case Spawning(_, _) => op := Spawn;
    case DecodeFailed(_, _) => op := GiveUpDecode;
  }

  lemma SubmitterCanStep(cfg: Config, w: World) returns (op: Op)
    requires Healthy(cfg, w) && cfg.maxActive >= 1 && AllFinished(w.tasks) && !AtRest(w)
    ensures Enabled(cfg, w, op) && SubmitterOp(op) && CleanOp(op)
  {
    FinishedTasksAreNotOpen(w.tasks, 0);
    if w.sub.WantSlot? && w.led.batchSlots >= UpdateQueueCapacity {
      SlotsFullMeansCancelled(w);
    }
    op := ChooseSubmitterStep(cfg, w);
  }

  /** No deadlock: in every reachable state the dispatcher is at rest or one of
      its own steps is enabled, one without a fault. */
  lemma NoDeadlock(cfg: Config, w: World) returns (op: Op)
    requires Healthy(cfg, w) && cfg.maxActive >= 1 && !AtRest(w)
    ensures Enabled(cfg, w, op) && !EnvironmentOp(op) && CleanOp(op)
  {
    if AllFinished(w.tasks) {
      op := SubmitterCanStep(cfg, w);
    } else {
      op := TaskCanStep(cfg, w);
    }
  }

  /** So whatever concurrency is configured: the limit is never zero, no state
      of any run is stuck, and never more handlers run than the cap. */
  lemma NeverStuck(requested: int, ttl: int, cursorFile: Option<string>, replayFile: Option<Replay.Seen>, now: int,
                   ops: seq<Op>, w: World) returns (op: Op)
    requires var cfg := Config(HandlerLimit(requested), ttl);
      Run(cfg, Initial(cfg, cursorFile, replayFile, now), ops) == Some(w)
    requires !AtRest(w)
    ensures Enabled(Config(HandlerLimit(requested), ttl), w, op) && !EnvironmentOp(op)
    ensures |ActiveOf(w.tasks)| <= MaximumConcurrentHandlers
  {
    var cfg := Config(HandlerLimit(requested), ttl);
    InitialHealthy(cfg, cursorFile, replayFile, now);
    RunHealthy(cfg, Initial(cfg, cursorFile, replayFile, now), ops);
    op := NoDeadlock(cfg, w);
  }

  // ----- termination of the dispatcher's own steps -----

  function TaskWork(tasks: seq<Task>): nat {
    if tasks == [] then 0 else TaskWork(tasks[..|tasks| - 1]) + (15 - Rank(tasks[|tasks| - 1].phase))
  }

  function BatchWork(b: Batch): nat { 20 * |b.messages| + 7 }

  function QueueWork(queue: seq<Batch>): nat {
    if queue == [] then 0 else BatchWork(queue[0]) + QueueWork(queue[1..])
  }

  function SubmitterWork(w: World): int {
    match w.sub
    case Idle => 1
    case Draining => 0
    case Entering(b) => 20 * |b.messages| + 7
    case WantSlot(b) => 20 * |b.messages| + 6
    case Recheck(b) => 20 * |b.messages| + 5
    case Registering(b) => 20 * |b.messages| + 4
    case _ =>
      if w.sub.id >= |w.hist| then 0
      else
        20 * (|w.hist[w.sub.id].messages| - w.sub.next)
        + (if w.sub.Scheduling? then 3 else if w.sub.Decoding? then 2 else if w.sub.Spawning? then 0 else 1)
  }

  function Work(w: World): int {
    TaskWork(w.tasks) + QueueWork(w.queue) + SubmitterWork(w)
  }

  lemma {:induction false} TaskWorkAfterMove(tasks: seq<Task>, i: nat, t: Task)
    requires i < |tasks|
    ensures TaskWork(tasks[i := t]) == TaskWork(tasks) + Rank(tasks[i].phase) - Rank(t.phase)
  {
    var n := |tasks| - 1;
    if i == n {
      assert tasks[i := t][..n] == tasks[..n];
    } else {
      assert tasks[i := t][..n] == tasks[..n][i := t];
      TaskWorkAfterMove(tasks[..n], i, t);
    }
  }

  /** Task i moved on; nothing is queued or scheduled. */
  predicate Forward(w: World, w': World, i: nat) {
    i < |w.tasks| == |w'.tasks| && Rank(w'.tasks[i].phase) > Rank(w.tasks[i].phase) && w'.queue == w.queue
  }

  lemma WaitingForward(cfg: Config, w: World, op: Op)
    requires WaitingOp(op) && Enabled(cfg, w, op)
    ensures Forward(w, ApplyWaiting(w, op), op.i)
  {
    WaitingForm(w, op);
  }

  lemma LeavingForward(cfg: Config, w: World, op: Op)
    requires LeavingOp(op) && Enabled(cfg, w, op)
    ensures Forward(w, ApplyLeaving(w, op), op.i)
  {
    LeavingForm(w, op);
  }

  lemma LookUpForward(cfg: Config, w: World, i: nat)
    requires TaskAt(w, i, 5)
    ensures Forward(w, LookUpResult(cfg, w, i), i)
  {
    LookUpForm(cfg, w, i);
  }

  lemma RememberForward(w: World, i: nat, bad: Option<Error>)
    requires TaskAt(w, i, 6)
    ensures Forward(w, RememberResult(w, i, bad), i)
  {
    RememberForm(w, i, bad);
  }

  lemma ValidateForward(cfg: Config, w: World, i: nat, bad: Option<Error>)
    requires TaskAt(w, i, 4)
    ensures Forward(w, ApplyProcessing(cfg, w, ValidateSession(i, bad)), i)
  {
  }

  lemma ProcessingForward(cfg: Config, w: World, op: Op)
    requires ProcessingOp(op) && Enabled(cfg, w, op)
    ensures Forward(w, ApplyProcessing(cfg, w, op), op.i)
  {
    match op
    case ValidateSession(i, bad) => ValidateForward(cfg, w, i, bad);
    case LookUpReplay(i) => LookUpForward(cfg, w, i);
    case RememberToken(i, bad) => RememberForward(w, i, bad);
    case InvokeHandler(i, result) => InvokeForward(w, i, result);
    case ReadClock(_) =>
    case StoreReplay(i, bad) => StoreForward(cfg, w, i, bad);
  }

  lemma TaskForward(cfg: Config, w: World, op: Op)
    requires TaskOp(op) && Enabled(cfg, w, op)
    ensures Forward(w, Apply(cfg, w, op), op.i)
  {
    TaskApplied(cfg, w, op);
    if WaitingOp(op) {
      WaitingForward(cfg, w, op);
    } else if ProcessingOp(op) {
      ProcessingForward(cfg, w, op);
    } else {
      LeavingForward(cfg, w, op);
    }
  }

  lemma StoreForward(cfg: Config, w: World, i: nat, bad: Option<Error>)
    requires TaskAt(w, i, 9)
    ensures Forward(w, StoreResult(cfg, w, i, bad), i)
  {
  }

  lemma InvokeForward(w: World, i: nat, result: HandlerResult)
    requires TaskAt(w, i, 7)
    ensures Forward(w, InvokeResult(w, i, result), i)
  {
  }

  lemma SpawnForward(cfg: Config, w: World)
    requires Enabled(cfg, w, Spawn)
    ensures Work(SpawnResult(w)) < Work(w)
  {
    var w' := SpawnResult(w);
    assert w'.tasks[..|w.tasks|] == w.tasks;
  }

  lemma FinishForward(cfg: Config, w: World, op: Op)
    requires SubmitterAt(w) && Enabled(cfg, w, op)
    requires op.GiveUpDecode? || op.GiveUpPending? || op.Decode?
    ensures Work(ApplySub(w, op)) < Work(w)
  {
  }

  lemma NextForward(w: World)
    requires w.sub.Scheduling? && w.sub.id < |w.hist| && w.sub.next <= |w.hist[w.sub.id].messages|
    ensures Work(NextResult(w)) < Work(w)
  {
  }

  lemma RegisterForward(w: World, n: nat, failAt: Option<nat>)
    requires w.sub.Registering? && |w.hist| == w.led.nextBatchID
    ensures Work(RegisterResult(w, n, failAt)) < Work(w)
  {
  }

  lemma SimpleForward(cfg: Config, w: World, op: Op)
    requires SimpleSubmitterOp(op) && Enabled(cfg, w, op) && (w.sub.WantPending? ==> w.sub.id < |w.hist|)
    ensures Work(ApplySub(w, op)) < Work(w)
  {
  }

  lemma OtherForward(cfg: Config, w: World, op: Op)
    requires SubmitterAt(w) && SubmitterOp(op) && Enabled(cfg, w, op) && !op.Spawn? && !op.Next? && !op.Register?
    ensures Work(ApplySub(w, op)) < Work(w)
  {
    if op.GiveUpDecode? || op.GiveUpPending? || op.Decode? {
      FinishForward(cfg, w, op);
    } else {
      SimpleForward(cfg, w, op);
    }
  }

  lemma SubmitterStepsForward(cfg: Config, w: World, op: Op)
    requires SubmitterAt(w) && |w.hist| == w.led.nextBatchID && SubmitterOp(op) && Enabled(cfg, w, op)
    ensures Work(Apply(cfg, w, op)) < Work(w)
  {
    if op.Spawn? {
      SpawnApplied(cfg, w, op);
      SpawnForward(cfg, w);
    } else if op.Next? {
      NextApplied(cfg, w, op);
      NextForward(w);
    } else if op.Register? {
      RegisterApplied(cfg, w, op);
      RegisterForward(w, Live(w.led) + 1, op.failAt);
    } else {
      SubmitterApplied(cfg, w, op);
      OtherForward(cfg, w, op);
    }
  }

  /** Each of the dispatcher's own steps uses up work. */
  lemma OwnStepsConsumeWork(cfg: Config, w: World, op: Op)
    requires Healthy(cfg, w) && !EnvironmentOp(op) && Enabled(cfg, w, op)
    ensures Work(Apply(cfg, w, op)) < Work(w)
  {
    if TaskOp(op) {
      TaskViews(cfg, w, op);
      TaskForward(cfg, w, op);
      ForwardConsumesWork(w, Apply(cfg, w, op), op.i);
    } else {
      SubmitterStepsForward(cfg, w, op);
    }
  }

  lemma ForwardConsumesWork(w: World, w': World, i: nat)
    requires Forward(w, w', i) && w'.tasks == w.tasks[i := w'.tasks[i]] && w'.sub == w.sub && w'.hist == w.hist
    ensures Work(w') < Work(w)
  {
    TaskWorkAfterMove(w.tasks, i, w'.tasks[i]);
  }

  lemma WorkNonNegative(w: World)
    requires SubmitterAt(w)
    ensures Work(w) >= 0
  {
  }

  /** Left alone, the dispatcher comes to rest within Work(w) steps, whatever
      the interleaving and the outcomes. */
  lemma {:induction false} ComesToRest(cfg: Config, w: World, ops: seq<Op>)
    requires Healthy(cfg, w) && Run(cfg, w, ops).Some?
    requires forall k :: 0 <= k < |ops| ==> !EnvironmentOp(ops[k])
    ensures |ops| + Work(Run(cfg, w, ops).value) <= Work(w) && Work(Run(cfg, w, ops).value) >= 0
    decreases |ops|
  {
    RunHealthy(cfg, w, ops);
    WorkNonNegative(Run(cfg, w, ops).value);
    if ops != [] {
      var prior := ops[..|ops| - 1];
      ComesToRest(cfg, w, prior);
      RunHealthy(cfg, w, prior);
      OwnStepsConsumeWork(cfg, Run(cfg, w, prior).value, ops[|ops| - 1]);
    }
  }
}
