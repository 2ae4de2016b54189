/** What the dispatcher promises in every state a run can reach: execution
    order, exact accounting, and a frontier that a failed batch stops for good. */
module DeliveryTheorems {
  import opened Wire
  import opened Stores
  import opened Dispatcher
  import opened Delivery
  import opened DeliveryOrder
  import opened DeliveryAccounting

  ghost predicate Reachable(cfg: Config, w: World) {
    exists cursorFile, replayFile, now, ops :: Run(cfg, Initial(cfg, cursorFile, replayFile, now), ops) == Some(w)
  }

  lemma ReachableHealthy(cfg: Config, w: World)
    requires Reachable(cfg, w)
    ensures Healthy(cfg, w)
  {
    var cursorFile, replayFile, now, ops :| Run(cfg, Initial(cfg, cursorFile, replayFile, now), ops) == Some(w);
    InitialHealthy(cfg, cursorFile, replayFile, now);
    RunHealthy(cfg, Initial(cfg, cursorFile, replayFile, now), ops);
  }

  /** A message enters processWireMessage only after every message of its
      conversation that was scheduled before it was processed without error
      and reported; in particular none of them is still being processed. */
  lemma ExecutesInOrder(cfg: Config, w: World, i: nat, j: nat)
    requires Reachable(cfg, w) && i < j < |w.tasks|
    requires ConversationKey(w.tasks[i].msg) == ConversationKey(w.tasks[j].msg)
    requires Processing(w.tasks[j])
    ensures !Processing(w.tasks[i]) && w.tasks[i].outcome.Consumed? && !Open(w.tasks[i])
  {
    ReachableHealthy(cfg, w);
    assert Placed(w.tasks[i], i, w.hist, w.ids) && Placed(w.tasks[j], j, w.hist, w.ids);
    assert InOrder(w.tasks) && Started(w.tasks[j]);
  }

  /** Live batches are exactly those from the frontier to the next id; each
      holds one slot, and at most one further slot is held by a submission
      about to register; both semaphores count exactly their holders. */
  lemma SlotsMatch(cfg: Config, w: World)
    requires Reachable(cfg, w)
    ensures forall b: nat :: b in w.led.batches <==> w.led.nextCommitID <= b < w.led.nextBatchID
    ensures w.led.nextCommitID <= w.led.nextBatchID
    ensures w.led.batchSlots == w.led.nextBatchID - w.led.nextCommitID + (if w.sub.Recheck? || w.sub.Registering? then 1 else 0)
    ensures w.led.batchSlots <= UpdateQueueCapacity
    ensures w.active == |ActiveOf(w.tasks)| <= cfg.maxActive
    ensures w.pending == |PendingOf(w.tasks)| + (if w.sub.Spawning? then 1 else 0) <= cfg.maxActive * UpdateQueueCapacity
  {
    ReachableHealthy(cfg, w);
    assert Sound(w.led);
  }

  /** What the ledger counts for a live batch: messages not yet scheduled and
      tasks that have not reported.  It is failed only under a cancelled
      context. */
  lemma RemainingMatches(cfg: Config, w: World, b: nat)
    requires Reachable(cfg, w) && b in w.led.batches
    ensures b < |w.hist| && w.led.batches[b].remaining == Unscheduled(w.sub, w.hist, b) + |OpenOf(w.tasks, b)|
    ensures w.led.batches[b].failed ==> w.led.cancelled
    ensures w.led.batches[b].remaining == 0 && !w.led.batches[b].failed ==> b != w.led.nextCommitID
  {
    ReachableHealthy(cfg, w);
    assert LiveBatch(w.led, w.tasks, w.sub, w.hist, w.ids, b);
  }

  /** Whatever is completed or committed is outstanding: in no reachable state
      do the early returns of complete take effect. */
  lemma CompletesOutstanding(cfg: Config, w: World, op: Op)
    requires Reachable(cfg, w) && Enabled(cfg, w, op)
    ensures LedgerReady(w, op)
  {
    ReachableHealthy(cfg, w);
    GuardsNeverFire(cfg, w, op);
  }

  /** The submitter calls cancelUnscheduled. */
  predicate GivesUp(w: World, op: Op) {
    || (op.Next? && w.led.cancelled && w.sub.Scheduling? && w.sub.id < |w.hist| && w.sub.next < |w.hist[w.sub.id].messages|)
    || op.GiveUpDecode?
    || op.GiveUpPending?
  }

  lemma GivesBackApplied(cfg: Config, w: World, op: Op)
    requires Enabled(cfg, w, op) && GivesUp(w, op)
    ensures InBatch(w.sub) && Apply(cfg, w, op).led == AfterCancel(w.led, w.sub.id, Unscheduled(w.sub, w.hist, w.sub.id))
  {
  }

  lemma NotScheduledIsCounted(cfg: Config, w: World)
    requires Reachable(cfg, w) && InBatch(w.sub) && Unscheduled(w.sub, w.hist, w.sub.id) > 0
    ensures w.sub.id in w.led.batches && Unscheduled(w.sub, w.hist, w.sub.id) <= w.led.batches[w.sub.id].remaining
  {
    ReachableHealthy(cfg, w);
    SubmitterBatchIsLive(w);
    RemainingMatches(cfg, w, w.sub.id);
  }

  /** n messages fewer to wait for in batch id, which will not be committed. */
  function GivenBack(l: Ledger, id: nat, n: int): Ledger
    requires n > 0 ==> id in l.batches
  {
    if n <= 0 then l
    else l.(batches := l.batches[id := BatchState(l.batches[id].remaining - n, l.batches[id].cursor, true)])
  }

  lemma CancelIsExact(l: Ledger, id: nat, n: int)
    requires n > 0 ==> id in l.batches && n <= l.batches[id].remaining
    ensures AfterCancel(l, id, n) == GivenBack(l, id, n)
  {
  }

  /** It gives back exactly what it had not scheduled; if that is anything, the
      batch is live and still counts all of it, so neither the nil guard nor
      the clamp takes effect. */
  lemma GivesBackExactly(cfg: Config, w: World, op: Op)
    requires Reachable(cfg, w) && Enabled(cfg, w, op) && GivesUp(w, op)
    ensures var id, n := w.sub.id, Unscheduled(w.sub, w.hist, w.sub.id);
      && (n > 0 ==> id in w.led.batches && n <= w.led.batches[id].remaining)
      && Apply(cfg, w, op).led == GivenBack(w.led, id, n)
  {
    GivesBackApplied(cfg, w, op);
    if Unscheduled(w.sub, w.hist, w.sub.id) > 0 {
      NotScheduledIsCounted(cfg, w);
    }
    CancelIsExact(w.led, w.sub.id, Unscheduled(w.sub, w.hist, w.sub.id));
  }

  // ----- a failed batch -----

  ghost predicate FailedIn(l: Ledger, b: nat) { b in l.batches && l.batches[b].failed }

  lemma AdvancedKeepsFailed(l: Ledger, r: Ledger, b: nat)
    requires Sound(l) && Advanced(l, r) && FailedIn(l, b)
    ensures FailedIn(r, b)
  {
    assert b >= r.nextCommitID;
  }

  lemma CompleteKeepsFailed(l: Ledger, id: nat, err: Option<Error>, executed: bool, n: nat, failAt: Option<nat>, b: nat)
    requires Sound(l) && FailedIn(l, b)
    ensures FailedIn(AfterComplete(l, id, err, executed, n, failAt), b)
  {
    if Outstanding(l, id) {
      CompleteMeaning(l, id, err, executed, n, failAt);
      var m := OneFewer(l, id, err, executed);
      assert FailedIn(m, b);
      if m.batches[id].remaining == 0 && !m.batches[id].failed {
        AdvancedKeepsFailed(m, AdvanceUpTo(m, n, failAt), b);
      }
    }
  }

  lemma RegisterKeepsFailed(l: Ledger, messages: nat, cursor: string, n: nat, failAt: Option<nat>, b: nat)
    requires Sound(l) && l.batchSlots > Live(l) && FailedIn(l, b)
    ensures FailedIn(AfterRegister(l, messages, cursor, n, failAt), b)
  {
    RegisterSound(l, messages, cursor);
    var m := AfterRegister(l, messages, cursor, 0, None);
    assert FailedIn(m, b);
    AdvanceMeaning(m, n, failAt);
    AdvancedKeepsFailed(m, AdvanceUpTo(m, n, failAt), b);
  }

  lemma TaskKeepsFailed(cfg: Config, w: World, op: Op, b: nat)
    requires Sound(w.led) && TaskOp(op) && Enabled(cfg, w, op) && FailedIn(w.led, b)
    ensures FailedIn(Apply(cfg, w, op).led, b)
  {
    TaskFrame(cfg, w, op);
    if op.ReportDone? {
      ReportApplied(cfg, w, op);
      var t := w.tasks[op.i];
      CompleteKeepsFailed(w.led, t.batch, t.phase.reported, t.phase.executed, Live(w.led), op.failAt, b);
    }
  }

  lemma SubmitterKeepsFailed(cfg: Config, w: World, op: Op, b: nat)
    requires Sound(w.led) && SubmitterOp(op) && Enabled(cfg, w, op) && FailedIn(w.led, b) && LedgerReady(w, op)
    ensures FailedIn(Apply(cfg, w, op).led, b)
  {
    if op.Register? {
      RegisterApplied(cfg, w, op);
      RegisterKeepsFailed(w.led, |w.sub.batch.messages|, w.sub.batch.cursor, Live(w.led) + 1, op.failAt, b);
    } else if op.Decode? {
      CompleteKeepsFailed(w.led, w.sub.id, Some("decode incoming message"), true, Live(w.led), None, b);
    }
  }

  lemma StepKeepsFailed(cfg: Config, w: World, op: Op, b: nat)
    requires Healthy(cfg, w) && Enabled(cfg, w, op) && !op.Crash? && FailedIn(w.led, b)
    ensures FailedIn(Apply(cfg, w, op).led, b)
  {
    GuardsNeverFire(cfg, w, op);
    if TaskOp(op) {
      TaskKeepsFailed(cfg, w, op, b);
    } else if SubmitterOp(op) {
      SubmitterKeepsFailed(cfg, w, op, b);
    }
  }

  lemma {:induction false} RunKeepsFailed(cfg: Config, w: World, ops: seq<Op>, b: nat)
    requires Healthy(cfg, w) && Run(cfg, w, ops).Some? && FailedIn(w.led, b)
    requires forall k :: 0 <= k < |ops| ==> !ops[k].Crash?
    ensures FailedIn(Run(cfg, w, ops).value.led, b)
    decreases |ops|
  {
    if ops != [] {
      var prior := ops[..|ops| - 1];
      RunKeepsFailed(cfg, w, prior, b);
      RunHealthy(cfg, w, prior);
      StepKeepsFailed(cfg, Run(cfg, w, prior).value, ops[|ops| - 1], b);
    }
  }

  /** Once a batch has failed, this process never commits it or any batch after
      it: only a restart, which polls from the persisted cursor, gets past. */
  lemma FailurePinsFrontier(cfg: Config, w: World, ops: seq<Op>, b: nat)
    requires Reachable(cfg, w) && FailedIn(w.led, b) && Run(cfg, w, ops).Some?
    requires forall k :: 0 <= k < |ops| ==> !ops[k].Crash?
    ensures var w' := Run(cfg, w, ops).value; FailedIn(w'.led, b) && w'.led.nextCommitID <= b && w'.led.cancelled
  {
    ReachableHealthy(cfg, w);
    RunKeepsFailed(cfg, w, ops, b);
    RunHealthy(cfg, w, ops);
    var w' := Run(cfg, w, ops).value;
    assert LiveBatch(w'.led, w'.tasks, w'.sub, w'.hist, w'.ids, b);
  }
}
