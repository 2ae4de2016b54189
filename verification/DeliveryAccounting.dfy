/** The dispatcher's bookkeeping in every reachable state: which batches are
    live, what `remaining` counts, what the semaphores hold, and what may be
    said of a committed batch. */
module DeliveryAccounting {
  import opened Wire
  import opened Stores
  import opened Dispatcher
  import opened Delivery
  import opened DeliveryOrder
  import Replay

  /** Tasks of batch b that have not reported yet. */
  function OpenOf(tasks: seq<Task>, b: nat): set<nat> {
    set k: nat | k < |tasks| && tasks[k].batch == b && Open(tasks[k])
  }

  function ActiveOf(tasks: seq<Task>): set<nat> {
    set k: nat | k < |tasks| && HoldsActive(tasks[k])
  }

  function PendingOf(tasks: seq<Task>): set<nat> {
    set k: nat | k < |tasks| && HoldsPending(tasks[k])
  }

  /** Messages of batch b the submitter still answers for. */
  function Unscheduled(sub: Submitter, hist: seq<Batch>, b: nat): int {
    if !InBatch(sub) || sub.id != b || b >= |hist| then 0
    else |hist[b].messages| - sub.next - (if sub.DecodeFailed? then 1 else 0)
  }

  /** Tasks and batch positions name each other, and each task runs the message
      at its position. */
  ghost predicate Indexed(tasks: seq<Task>, hist: seq<Batch>, ids: seq<seq<nat>>) {
    && |ids| == |hist|
    && (forall b :: 0 <= b < |ids| ==> |ids[b]| <= |hist[b].messages|)
    && (forall b, j :: 0 <= b < |ids| && 0 <= j < |ids[b]| ==>
          ids[b][j] < |tasks| && tasks[ids[b][j]].batch == b && tasks[ids[b][j]].idx == j)
    && (forall k :: 0 <= k < |tasks| ==> Placed(tasks[k], k, hist, ids))
  }

  ghost predicate Placed(t: Task, k: nat, hist: seq<Batch>, ids: seq<seq<nat>>)
    requires |ids| == |hist|
  {
    && t.batch < |ids| && t.idx < |ids[t.batch]| && t.idx < |hist[t.batch].messages|
    && ids[t.batch][t.idx] == k
    && hist[t.batch].messages[t.idx] == Some(t.msg)
    && t.key == ConversationKey(t.msg) && t.keys == ReplayKeys(t.msg)
  }

  ghost predicate SubmitterAt(w: World) {
    && (InBatch(w.sub) ==>
          && w.sub.id == |w.hist| - 1 && |w.ids| == |w.hist| && w.sub.next == |w.ids[w.sub.id]|
          && w.sub.next <= |w.hist[w.sub.id].messages|
          && (!w.sub.Scheduling? ==> w.sub.next < |w.hist[w.sub.id].messages|)
          && (w.sub.WantPending? || w.sub.Spawning? ==> w.hist[w.sub.id].messages[w.sub.next].Some?))
    && (w.sub.DecodeFailed? ==> w.led.cancelled)
  }

  ghost predicate AllConsumed(tasks: seq<Task>, b: nat) {
    forall k :: 0 <= k < |tasks| && tasks[k].batch == b && !Open(tasks[k]) ==> tasks[k].outcome.Consumed?
  }

  /** What the ledger entry of a live batch counts. */
  ghost predicate LiveBatch(led: Ledger, tasks: seq<Task>, sub: Submitter, hist: seq<Batch>, ids: seq<seq<nat>>, b: nat)
    requires |ids| == |hist| && b in led.batches
  {
    && b < |hist|
    && led.batches[b].cursor == hist[b].cursor
    && led.batches[b].remaining == Unscheduled(sub, hist, b) + |OpenOf(tasks, b)|
    && (led.batches[b].failed ==> led.cancelled)
    && (!led.batches[b].failed ==>
          |ids[b]| + Unscheduled(sub, hist, b) == |hist[b].messages| && AllConsumed(tasks, b))
  }

  /** Every message of a committed batch was scheduled, reported and consumed. */
  ghost predicate CommittedBatch(tasks: seq<Task>, sub: Submitter, hist: seq<Batch>, ids: seq<seq<nat>>, b: nat)
    requires |ids| == |hist| && b < |hist|
  {
    |ids[b]| == |hist[b].messages| && Unscheduled(sub, hist, b) == 0 && OpenOf(tasks, b) == {} && AllConsumed(tasks, b)
  }

  ghost predicate Counted(led: Ledger, tasks: seq<Task>, sub: Submitter, hist: seq<Batch>, ids: seq<seq<nat>>) {
    && |ids| == |hist| == led.nextBatchID
    && Sound(led)
    && !FrontierReady(led)
    && (forall b :: b in led.batches ==> LiveBatch(led, tasks, sub, hist, ids, b))
    && (forall b: nat :: b < led.nextCommitID ==> CommittedBatch(tasks, sub, hist, ids, b))
  }

  ghost predicate Bounded(cfg: Config, w: World) {
    && w.active == |ActiveOf(w.tasks)| <= cfg.maxActive
    && w.pending == |PendingOf(w.tasks)| + (if w.sub.Spawning? then 1 else 0)
    && w.pending <= cfg.maxActive * UpdateQueueCapacity
    && w.led.batchSlots == Live(w.led) + (if w.sub.Recheck? || w.sub.Registering? then 1 else 0)
    && w.led.batchSlots <= UpdateQueueCapacity
  }

  ghost predicate Accounted(cfg: Config, w: World) {
    && Indexed(w.tasks, w.hist, w.ids)
    && SubmitterAt(w)
    && Counted(w.led, w.tasks, w.sub, w.hist, w.ids)
    && Bounded(cfg, w)
  }

  // ----- set facts -----

  lemma OpenAfterMove(tasks: seq<Task>, i: nat, t: Task, b: nat)
    requires i < |tasks| && t.batch == tasks[i].batch
    ensures Open(t) == Open(tasks[i]) ==> OpenOf(tasks[i := t], b) == OpenOf(tasks, b)
    ensures !Open(t) ==> OpenOf(tasks[i := t], b) == OpenOf(tasks, b) - {i}
  {
  }

  lemma ConsumedAfterMove(tasks: seq<Task>, i: nat, t: Task, b: nat)
    requires i < |tasks| && t.batch == tasks[i].batch && AllConsumed(tasks, b)
    requires t.batch == b && !Open(t) ==> t.outcome.Consumed?
    ensures AllConsumed(tasks[i := t], b)
  {
  }

  lemma AfterAppend(tasks: seq<Task>, t: Task, b: nat)
    requires Open(t)
    ensures OpenOf(tasks + [t], b) == if t.batch == b then OpenOf(tasks, b) + {|tasks|} else OpenOf(tasks, b)
    ensures |OpenOf(tasks + [t], b)| == |OpenOf(tasks, b)| + (if t.batch == b then 1 else 0)
    ensures AllConsumed(tasks, b) ==> AllConsumed(tasks + [t], b)
  {
    assert OpenOf(tasks + [t], b) == if t.batch == b then OpenOf(tasks, b) + {|tasks|} else OpenOf(tasks, b);
  }

  lemma ActiveAfterMove(tasks: seq<Task>, i: nat, t: Task)
    requires i < |tasks|
    ensures ActiveOf(tasks[i := t]) == if HoldsActive(t) then ActiveOf(tasks) + {i} else ActiveOf(tasks) - {i}
    ensures |ActiveOf(tasks[i := t])| == |ActiveOf(tasks)|
      + (if HoldsActive(t) then 1 else 0) - (if HoldsActive(tasks[i]) then 1 else 0)
  {
    var a, a' := ActiveOf(tasks), ActiveOf(tasks[i := t]);
    assert a' == if HoldsActive(t) then a + {i} else a - {i};
  }

  lemma PendingAfterMove(tasks: seq<Task>, i: nat, t: Task)
    requires i < |tasks|
    ensures |PendingOf(tasks[i := t])| == |PendingOf(tasks)|
      + (if HoldsPending(t) then 1 else 0) - (if HoldsPending(tasks[i]) then 1 else 0)
  {
    var a, a' := PendingOf(tasks), PendingOf(tasks[i := t]);
    assert a' == if HoldsPending(t) then a + {i} else a - {i};
  }

  // ----- moving one task -----

  lemma MoveKeepsIndex(tasks: seq<Task>, i: nat, t: Task, hist: seq<Batch>, ids: seq<seq<nat>>)
    requires Indexed(tasks, hist, ids) && i < |tasks|
    requires t.batch == tasks[i].batch && t.idx == tasks[i].idx && t.msg == tasks[i].msg
    requires t.key == tasks[i].key && t.keys == tasks[i].keys
    ensures Indexed(tasks[i := t], hist, ids)
  {
    var next := tasks[i := t];
    forall k | 0 <= k < |next| ensures Placed(next[k], k, hist, ids) {
      assert Placed(tasks[k], k, hist, ids);
    }
  }

  /** A step that neither reports nor changes a reported outcome. */
  lemma MoveKeepsCount(led: Ledger, led': Ledger, tasks: seq<Task>, i: nat, t: Task, sub: Submitter, hist: seq<Batch>, ids: seq<seq<nat>>)
    requires Counted(led, tasks, sub, hist, ids) && i < |tasks|
    requires t.batch == tasks[i].batch && Open(t) == Open(tasks[i]) && (!Open(t) ==> t.outcome == tasks[i].outcome)
    requires led' == led
    ensures Counted(led', tasks[i := t], sub, hist, ids)
  {
    var next := tasks[i := t];
    forall b | b in led.batches ensures LiveBatch(led, next, sub, hist, ids, b) {
      assert LiveBatch(led, tasks, sub, hist, ids, b);
      OpenAfterMove(tasks, i, t, b);
    }
    forall b: nat | b < led.nextCommitID ensures CommittedBatch(next, sub, hist, ids, b) {
      assert CommittedBatch(tasks, sub, hist, ids, b);
      OpenAfterMove(tasks, i, t, b);
    }
  }

  // ----- the commit loop -----

  /** The counting invariant without the claim that the frontier is not ready. */
  ghost predicate Tallied(led: Ledger, tasks: seq<Task>, sub: Submitter, hist: seq<Batch>, ids: seq<seq<nat>>) {
    && |ids| == |hist| == led.nextBatchID
    && Sound(led)
    && (forall b :: b in led.batches ==> LiveBatch(led, tasks, sub, hist, ids, b))
    && (forall b: nat :: b < led.nextCommitID ==> CommittedBatch(tasks, sub, hist, ids, b))
  }

  lemma AdvanceKeepsTally(led: Ledger, n: nat, failAt: Option<nat>, tasks: seq<Task>, sub: Submitter, hist: seq<Batch>, ids: seq<seq<nat>>)
    requires Tallied(led, tasks, sub, hist, ids)
    requires forall b :: 0 <= b < |hist| ==> Unscheduled(sub, hist, b) >= 0
    ensures Tallied(AdvanceUpTo(led, n, failAt), tasks, sub, hist, ids)
  {
    var r := AdvanceUpTo(led, n, failAt);
    AdvanceMeaning(led, n, failAt);
    forall b | b in r.batches ensures LiveBatch(r, tasks, sub, hist, ids, b) {
      assert LiveBatch(led, tasks, sub, hist, ids, b);
    }
    forall b: nat | b < r.nextCommitID ensures CommittedBatch(tasks, sub, hist, ids, b) {
      if b < led.nextCommitID {
        assert CommittedBatch(tasks, sub, hist, ids, b);
      } else {
        assert LiveBatch(led, tasks, sub, hist, ids, b);
        assert |OpenOf(tasks, b)| == 0;
      }
    }
  }

  // ----- reporting a task -----

  lemma OpenBatchIsOutstanding(led: Ledger, tasks: seq<Task>, sub: Submitter, hist: seq<Batch>, ids: seq<seq<nat>>, i: nat)
    requires Counted(led, tasks, sub, hist, ids)
    requires i < |tasks| && Open(tasks[i]) && tasks[i].batch < |hist|
    requires Unscheduled(sub, hist, tasks[i].batch) >= 0
    ensures Outstanding(led, tasks[i].batch)
  {
    var b := tasks[i].batch;
    assert i in OpenOf(tasks, b);
    forall c: nat | c < led.nextCommitID ensures OpenOf(tasks, c) == {} {
      assert CommittedBatch(tasks, sub, hist, ids, c);
    }
    assert LiveBatch(led, tasks, sub, hist, ids, b);
    assert |OpenOf(tasks, b)| > 0;
  }

  /** complete's first half: one task fewer, one count fewer. */
  lemma ReportTally(led: Ledger, tasks: seq<Task>, i: nat, t: Task, err: Option<Error>, executed: bool,
                    sub: Submitter, hist: seq<Batch>, ids: seq<seq<nat>>)
    requires Counted(led, tasks, sub, hist, ids)
    requires i < |tasks| && Open(tasks[i]) && tasks[i].batch < |hist| && Outstanding(led, tasks[i].batch)
    requires t.batch == tasks[i].batch && !Open(t)
    requires err.None? ==> t.outcome.Consumed?
    requires err.Some? && !executed ==> led.cancelled
    ensures Tallied(OneFewer(led, t.batch, err, executed), tasks[i := t], sub, hist, ids)
  {
    var next, m := tasks[i := t], OneFewer(led, t.batch, err, executed);
    OneFewerSound(led, t.batch, err, executed);
    forall b | b in m.batches ensures LiveBatch(m, next, sub, hist, ids, b) {
      ReportLive(led, tasks, i, t, err, executed, sub, hist, ids, b);
    }
    forall b: nat | b < m.nextCommitID ensures CommittedBatch(next, sub, hist, ids, b) {
      assert CommittedBatch(tasks, sub, hist, ids, b);
      assert (i in OpenOf(tasks, b)) == (b == t.batch);
      OpenAfterMove(tasks, i, t, b);
      ConsumedAfterMove(tasks, i, t, b);
    }
  }

  lemma ReportLive(led: Ledger, tasks: seq<Task>, i: nat, t: Task, err: Option<Error>, executed: bool,
                   sub: Submitter, hist: seq<Batch>, ids: seq<seq<nat>>, b: nat)
    requires Counted(led, tasks, sub, hist, ids)
    requires i < |tasks| && Open(tasks[i]) && tasks[i].batch < |hist| && Outstanding(led, tasks[i].batch)
    requires t.batch == tasks[i].batch && !Open(t)
    requires err.None? ==> t.outcome.Consumed?
    requires err.Some? && !executed ==> led.cancelled
    requires b in OneFewer(led, t.batch, err, executed).batches
    ensures LiveBatch(OneFewer(led, t.batch, err, executed), tasks[i := t], sub, hist, ids, b)
  {
    assert LiveBatch(led, tasks, sub, hist, ids, b);
    OpenAfterMove(tasks, i, t, b);
    assert (i in OpenOf(tasks, b)) == (b == t.batch);
    if !OneFewer(led, t.batch, err, executed).batches[b].failed { ConsumedAfterMove(tasks, i, t, b); }
  }

  lemma FrontierStillBlocked(led: Ledger, id: nat, err: Option<Error>, executed: bool)
    requires Sound(led) && !FrontierReady(led) && Outstanding(led, id)
    requires var m := OneFewer(led, id, err, executed); m.batches[id].remaining != 0 || m.batches[id].failed
    ensures !FrontierReady(OneFewer(led, id, err, executed))
  {
  }

  lemma CompleteKeepsCount(led: Ledger, tasks: seq<Task>, id: nat, err: Option<Error>, executed: bool, n: nat, failAt: Option<nat>,
                           sub: Submitter, hist: seq<Batch>, ids: seq<seq<nat>>)
    requires Sound(led) && !FrontierReady(led) && Outstanding(led, id)
    requires Tallied(OneFewer(led, id, err, executed), tasks, sub, hist, ids)
    requires forall b :: 0 <= b < |hist| ==> Unscheduled(sub, hist, b) >= 0
    ensures Tallied(AfterComplete(led, id, err, executed, n, failAt), tasks, sub, hist, ids)
    ensures n >= Live(led) ==> Counted(AfterComplete(led, id, err, executed, n, failAt), tasks, sub, hist, ids)
  {
    var m := OneFewer(led, id, err, executed);
    CompleteMeaning(led, id, err, executed, n, failAt);
    AdvanceKeepsTally(m, n, failAt, tasks, sub, hist, ids);
    if m.batches[id].remaining == 0 && !m.batches[id].failed {
      if n >= Live(led) { AdvanceExhausts(m, n, failAt); }
    } else {
      FrontierStillBlocked(led, id, err, executed);
    }
  }

  lemma UnscheduledNonNegative(w: World)
    requires SubmitterAt(w)
    ensures forall b :: 0 <= b < |w.hist| ==> Unscheduled(w.sub, w.hist, b) >= 0
  {
  }

  // ----- the submitter's steps -----

  /** A batch the submitter still answers for has not been committed. */
  lemma SubmitterBatchIsLive(w: World)
    requires Counted(w.led, w.tasks, w.sub, w.hist, w.ids) && SubmitterAt(w)
    requires InBatch(w.sub) && Unscheduled(w.sub, w.hist, w.sub.id) > 0
    ensures w.sub.id in w.led.batches
  {
    forall c: nat | c < w.led.nextCommitID ensures Unscheduled(w.sub, w.hist, c) == 0 {
      assert CommittedBatch(w.tasks, w.sub, w.hist, w.ids, c);
    }
  }

  /** A malformed message counts as an executed failure of its batch. */
  lemma DecodeFailureCount(w: World)
    requires Counted(w.led, w.tasks, w.sub, w.hist, w.ids) && SubmitterAt(w) && w.sub.Decoding?
    ensures Outstanding(w.led, w.sub.id)
    ensures var w' := w.(led := AfterComplete(w.led, w.sub.id, Some("decode incoming message"), true, Live(w.led), None),
                         sub := DecodeFailed(w.sub.id, w.sub.next));
            Counted(w'.led, w'.tasks, w'.sub, w'.hist, w'.ids) && w'.led.cancelled
  {
    var id, err := w.sub.id, Some("decode incoming message");
    var sub' := DecodeFailed(id, w.sub.next);
    SubmitterBatchIsLive(w);
    assert LiveBatch(w.led, w.tasks, w.sub, w.hist, w.ids, id);
    var m := OneFewer(w.led, id, err, true);
    OneFewerSound(w.led, id, err, true);
    assert m.cancelled;
    forall b | b in m.batches ensures LiveBatch(m, w.tasks, sub', w.hist, w.ids, b) {
      assert LiveBatch(w.led, w.tasks, w.sub, w.hist, w.ids, b);
    }
    forall b: nat | b < m.nextCommitID ensures CommittedBatch(w.tasks, sub', w.hist, w.ids, b) {
      assert CommittedBatch(w.tasks, w.sub, w.hist, w.ids, b);
    }
    CompleteKeepsCount(w.led, w.tasks, id, err, true, Live(w.led), None, sub', w.hist, w.ids);
    CompleteMeaning(w.led, id, err, true, Live(w.led), None);
  }

  /** Giving back the rest of a batch: the count is exact, so the clamp and the
      nil guard of cancelUnscheduled never take effect. */
  lemma GiveBackCount(w: World, count: int)
    requires Counted(w.led, w.tasks, w.sub, w.hist, w.ids) && SubmitterAt(w) && InBatch(w.sub)
    requires count == Unscheduled(w.sub, w.hist, w.sub.id) && w.led.cancelled
    requires count > 0
    ensures w.sub.id in w.led.batches && count <= w.led.batches[w.sub.id].remaining
    ensures var w' := GiveBack(w, count); Counted(w'.led, w'.tasks, w'.sub, w'.hist, w'.ids)
  {
    var id, w' := w.sub.id, GiveBack(w, count);
    SubmitterBatchIsLive(w);
    assert LiveBatch(w.led, w.tasks, w.sub, w.hist, w.ids, id);
    forall b | b in w'.led.batches ensures LiveBatch(w'.led, w.tasks, w'.sub, w.hist, w.ids, b) {
      assert LiveBatch(w.led, w.tasks, w.sub, w.hist, w.ids, b);
    }
    forall b: nat | b < w'.led.nextCommitID ensures CommittedBatch(w.tasks, w'.sub, w.hist, w.ids, b) {
      assert CommittedBatch(w.tasks, w.sub, w.hist, w.ids, b);
    }
  }

  /** The submitter moves without changing what it answers for. */
  lemma SubmitterMoveCount(led: Ledger, led': Ledger, tasks: seq<Task>, sub: Submitter, sub': Submitter, hist: seq<Batch>, ids: seq<seq<nat>>)
    requires Counted(led, tasks, sub, hist, ids)
    requires forall b :: 0 <= b < |hist| ==> Unscheduled(sub', hist, b) == Unscheduled(sub, hist, b)
    requires led' == led.(batchSlots := led'.batchSlots, cancelled := led'.cancelled)
    requires (led.cancelled ==> led'.cancelled) && led'.batchSlots >= Live(led)
    ensures Counted(led', tasks, sub', hist, ids)
  {
    forall b | b in led.batches ensures LiveBatch(led', tasks, sub', hist, ids, b) {
      assert LiveBatch(led, tasks, sub, hist, ids, b);
    }
    forall b: nat | b < led.nextCommitID ensures CommittedBatch(tasks, sub', hist, ids, b) {
      assert CommittedBatch(tasks, sub, hist, ids, b);
    }
  }

  lemma SpawnKeepsIndex(w: World)
    requires Indexed(w.tasks, w.hist, w.ids) && SubmitterAt(w) && w.sub.Spawning?
    ensures var w' := SpawnResult(w); Indexed(w'.tasks, w'.hist, w'.ids)
  {
    var w' := SpawnResult(w);
    var b, me := w.sub.id, |w.tasks|;
    assert w'.ids[b][w.sub.next] == me;
    forall k | 0 <= k < |w'.tasks| ensures Placed(w'.tasks[k], k, w'.hist, w'.ids) {
      if k < me {
        assert Placed(w.tasks[k], k, w.hist, w.ids);
      }
    }
  }

  lemma SpawnLive(w: World, b: nat)
    requires Counted(w.led, w.tasks, w.sub, w.hist, w.ids) && SubmitterAt(w) && w.sub.Spawning? && b in w.led.batches
    ensures var w' := SpawnResult(w); |w'.ids| == |w'.hist| && LiveBatch(w'.led, w'.tasks, w'.sub, w'.hist, w'.ids, b)
  {
    assert LiveBatch(w.led, w.tasks, w.sub, w.hist, w.ids, b);
    AfterAppend(w.tasks, SpawnResult(w).tasks[|w.tasks|], b);
  }

  lemma SpawnCommitted(w: World, b: nat)
    requires Counted(w.led, w.tasks, w.sub, w.hist, w.ids) && SubmitterAt(w) && w.sub.Spawning?
    requires b < w.led.nextCommitID && w.sub.id in w.led.batches
    ensures var w' := SpawnResult(w); |w'.ids| == |w'.hist| && b < |w'.hist| && CommittedBatch(w'.tasks, w'.sub, w'.hist, w'.ids, b)
  {
    assert CommittedBatch(w.tasks, w.sub, w.hist, w.ids, b);
    AfterAppend(w.tasks, SpawnResult(w).tasks[|w.tasks|], b);
  }

  lemma SpawnKeepsCount(w: World)
    requires Counted(w.led, w.tasks, w.sub, w.hist, w.ids) && Indexed(w.tasks, w.hist, w.ids)
    requires SubmitterAt(w) && w.sub.Spawning?
    ensures var w' := SpawnResult(w); Counted(w'.led, w'.tasks, w'.sub, w'.hist, w'.ids)
  {
    var w' := SpawnResult(w);
    forall b | b in w.led.batches ensures LiveBatch(w'.led, w'.tasks, w'.sub, w'.hist, w'.ids, b) {
      SpawnLive(w, b);
    }
    SubmitterBatchIsLive(w);
    forall b: nat | b < w.led.nextCommitID ensures CommittedBatch(w'.tasks, w'.sub, w'.hist, w'.ids, b) {
      SpawnCommitted(w, b);
    }
  }

  lemma RegisterKeepsIndex(w: World, n: nat, failAt: Option<nat>)
    requires Indexed(w.tasks, w.hist, w.ids) && w.sub.Registering?
    ensures var w' := RegisterResult(w, n, failAt); Indexed(w'.tasks, w'.hist, w'.ids)
  {
    var w' := RegisterResult(w, n, failAt);
    forall k | 0 <= k < |w'.tasks| ensures Placed(w'.tasks[k], k, w'.hist, w'.ids) {
      assert Placed(w.tasks[k], k, w.hist, w.ids);
    }
  }

  lemma NoneOpenYet(w: World)
    requires Indexed(w.tasks, w.hist, w.ids)
    ensures OpenOf(w.tasks, |w.hist|) == {} && forall k :: 0 <= k < |w.tasks| ==> w.tasks[k].batch < |w.hist|
  {
    forall k | 0 <= k < |w.tasks| ensures w.tasks[k].batch < |w.hist| {
      assert Placed(w.tasks[k], k, w.hist, w.ids);
    }
  }

  /** An older live batch is not affected by a new one. */
  lemma RegisterKeepsLive(w: World, led1: Ledger, sub': Submitter, b: nat)
    requires w.sub.Registering? && !InBatch(w.sub) && sub' == Scheduling(|w.hist|, 0) && |w.ids| == |w.hist| && b < |w.hist|
    requires b in w.led.batches && LiveBatch(w.led, w.tasks, w.sub, w.hist, w.ids, b)
    requires b in led1.batches && led1.batches[b] == w.led.batches[b] && led1.cancelled == w.led.cancelled
    ensures LiveBatch(led1, w.tasks, sub', w.hist + [w.sub.batch], w.ids + [[]], b)
  {
  }

  lemma RegisterIsLive(w: World, led1: Ledger, sub': Submitter)
    requires Indexed(w.tasks, w.hist, w.ids) && w.sub.Registering? && sub' == Scheduling(|w.hist|, 0)
    requires |w.hist| in led1.batches && led1.batches[|w.hist|] == BatchState(|w.sub.batch.messages|, w.sub.batch.cursor, false)
    ensures LiveBatch(led1, w.tasks, sub', w.hist + [w.sub.batch], w.ids + [[]], |w.hist|)
  {
    NoneOpenYet(w);
  }

  lemma RegisterKeepsCommitted(w: World, sub': Submitter, b: nat)
    requires w.sub.Registering? && sub' == Scheduling(|w.hist|, 0) && |w.ids| == |w.hist| && b < |w.hist|
    requires CommittedBatch(w.tasks, w.sub, w.hist, w.ids, b)
    ensures CommittedBatch(w.tasks, sub', w.hist + [w.sub.batch], w.ids + [[]], b)
  {
  }

  lemma TallyWithNew(w: World, led1: Ledger, sub': Submitter)
    requires Counted(w.led, w.tasks, w.sub, w.hist, w.ids) && Indexed(w.tasks, w.hist, w.ids) && w.sub.Registering?
    requires Sound(led1) && sub' == Scheduling(|w.hist|, 0)
    requires led1.nextBatchID == |w.hist| + 1 && led1.nextCommitID == w.led.nextCommitID && led1.cancelled == w.led.cancelled
    requires led1.batches == w.led.batches[|w.hist| := BatchState(|w.sub.batch.messages|, w.sub.batch.cursor, false)]
    ensures Tallied(led1, w.tasks, sub', w.hist + [w.sub.batch], w.ids + [[]])
  {
    forall b | b in led1.batches ensures LiveBatch(led1, w.tasks, sub', w.hist + [w.sub.batch], w.ids + [[]], b) {
      if b < |w.hist| {
        RegisterKeepsLive(w, led1, sub', b);
      } else {
        RegisterIsLive(w, led1, sub');
      }
    }
    forall b: nat | b < led1.nextCommitID ensures CommittedBatch(w.tasks, sub', w.hist + [w.sub.batch], w.ids + [[]], b) {
      RegisterKeepsCommitted(w, sub', b);
    }
  }

  lemma RegisterTally(w: World)
    requires Counted(w.led, w.tasks, w.sub, w.hist, w.ids) && Indexed(w.tasks, w.hist, w.ids)
    requires w.sub.Registering? && w.led.batchSlots > Live(w.led)
    ensures var led1 := AfterRegister(w.led, |w.sub.batch.messages|, w.sub.batch.cursor, 0, None);
            Tallied(led1, w.tasks, Scheduling(w.led.nextBatchID, 0), w.hist + [w.sub.batch], w.ids + [[]])
            && (|w.sub.batch.messages| > 0 ==> !FrontierReady(led1))
  {
    RegisterSound(w.led, |w.sub.batch.messages|, w.sub.batch.cursor);
    TallyWithNew(w, AfterRegister(w.led, |w.sub.batch.messages|, w.sub.batch.cursor, 0, None), Scheduling(w.led.nextBatchID, 0));
  }

  lemma RegisterKeepsCount(w: World, n: nat, failAt: Option<nat>)
    requires Counted(w.led, w.tasks, w.sub, w.hist, w.ids) && Indexed(w.tasks, w.hist, w.ids)
    requires w.sub.Registering? && w.led.batchSlots > Live(w.led)
    ensures var w' := RegisterResult(w, n, failAt);
            && Tallied(w'.led, w'.tasks, w'.sub, w'.hist, w'.ids)
            && (n > Live(w.led) ==> Counted(w'.led, w'.tasks, w'.sub, w'.hist, w'.ids))
            && w'.led.batchSlots == Live(w'.led) + (w.led.batchSlots - Live(w.led) - 1)
            && w'.led.batchSlots <= w.led.batchSlots
  {
    var b := w.sub.batch;
    var led1 := AfterRegister(w.led, |b.messages|, b.cursor, 0, None);
    var w' := RegisterResult(w, n, failAt);
    RegisterTally(w);
    RegisterSound(w.led, |b.messages|, b.cursor);
    if |b.messages| == 0 {
      AdvanceKeepsTally(led1, n, failAt, w'.tasks, w'.sub, w'.hist, w'.ids);
      AdvanceMeaning(led1, n, failAt);
      if n > Live(w.led) { AdvanceExhausts(led1, n, failAt); }
    }
  }

  // ----- every operation -----

  /** The accounting view of a message goroutine's step. */
  ghost predicate TaskEffect(w: World, w': World, op: Op)
    requires TaskOp(op) && op.i < |w.tasks| == |w'.tasks|
  {
    var t, t' := w.tasks[op.i], w'.tasks[op.i];
    && w'.hist == w.hist && w'.ids == w.ids && w'.sub == w.sub
    && (!op.ReportDone? ==> w'.led == w.led && Open(t') == Open(t) && (!Open(t) ==> t'.outcome == t.outcome))
    && (op.ReportDone? ==> Open(t) && !Open(t') && t'.outcome == t.outcome)
    && w'.active == w.active + (if HoldsActive(t') then 1 else 0) - (if HoldsActive(t) then 1 else 0)
    && w'.pending == w.pending + (if HoldsPending(t') then 1 else 0) - (if HoldsPending(t) then 1 else 0)
  }

  lemma SecondEffect(w: World, i: nat)
    requires TaskAt(w, i, 3) && w.active > 0
    ensures TaskEffect(w, ApplyWaiting(w, CheckSecond(i)), CheckSecond(i))
  {
  }

  lemma FirstEffect(w: World, i: nat)
    requires TaskAt(w, i, 1)
    ensures TaskEffect(w, ApplyWaiting(w, CheckFirst(i)), CheckFirst(i))
  {
  }

  lemma WaitingEffect(cfg: Config, w: World, op: Op)
    requires WaitingOp(op) && Enabled(cfg, w, op) && (HoldsActive(w.tasks[op.i]) ==> w.active > 0)
    ensures TaskEffect(w, ApplyWaiting(w, op), op)
  {
    if op.CheckSecond? {
      SecondEffect(w, op.i);
    } else if op.CheckFirst? {
      FirstEffect(w, op.i);
    }
  }

  lemma InsideEffect(w: World, w': World, op: Op)
    requires ProcessingOp(op) && op.i < |w.tasks| && Processing(w.tasks[op.i]) && Inside(w, w', op.i)
    ensures TaskEffect(w, w', op)
  {
  }

  lemma ReportEffect(w: World, i: nat, failAt: Option<nat>)
    requires TaskAt(w, i, 11)
    ensures TaskEffect(w, ReportResult(w, i, Live(w.led), failAt), ReportDone(i, failAt))
  {
  }

  lemma DropEffect(w: World, i: nat)
    requires TaskAt(w, i, 13)
    ensures TaskEffect(w, DeleteTailResult(w, i), DeleteTail(i))
  {
  }

  lemma FreeEffect(cfg: Config, w: World, op: Op)
    requires (op.LeaveActive? || op.ReleaseSlot?) && Enabled(cfg, w, op)
    requires (HoldsActive(w.tasks[op.i]) ==> w.active > 0) && w.pending > 0
    ensures TaskEffect(w, ApplyLeaving(w, op), op)
  {
  }

  lemma LeavingEffect(cfg: Config, w: World, op: Op)
    requires LeavingOp(op) && Enabled(cfg, w, op)
    requires (HoldsActive(w.tasks[op.i]) ==> w.active > 0) && w.pending > 0
    ensures TaskEffect(w, ApplyLeaving(w, op), op)
  {
    if op.ReportDone? {
      ReportEffect(w, op.i, op.failAt);
    } else if op.DeleteTail? {
      DropEffect(w, op.i);
    } else if op.LeaveActive? || op.ReleaseSlot? {
      FreeEffect(cfg, w, op);
    }
  }

  lemma TaskHoldsCount(w: World, i: nat)
    requires i < |w.tasks| && w.active == |ActiveOf(w.tasks)| && w.pending >= |PendingOf(w.tasks)|
    ensures HoldsActive(w.tasks[i]) ==> w.active > 0
    ensures HoldsPending(w.tasks[i]) ==> w.pending > 0
  {
    assert HoldsActive(w.tasks[i]) ==> i in ActiveOf(w.tasks);
    assert HoldsPending(w.tasks[i]) ==> i in PendingOf(w.tasks);
  }

  /** Every entry to the ledger's completing operations is legitimate: their
      early-return guards never fire. */
  lemma GuardsNeverFire(cfg: Config, w: World, op: Op)
    requires Accounted(cfg, w) && Enabled(cfg, w, op)
    ensures LedgerReady(w, op)
  {
    UnscheduledNonNegative(w);
    if op.ReportDone? {
      assert Placed(w.tasks[op.i], op.i, w.hist, w.ids);
      OpenBatchIsOutstanding(w.led, w.tasks, w.sub, w.hist, w.ids, op.i);
    } else if op.Decode? {
      DecodeFailureCount(w);
    }
  }

  ghost predicate Views(w: World, w': World, op: Op)
    requires TaskOp(op)
  {
    op.i < |w.tasks| && TaskStep(w, w', op.i) && TaskEffect(w, w', op)
  }

  /** What the order says about one task. */
  ghost predicate Settled(w: World, i: nat) {
    && i < |w.tasks| && Coherent(w.tasks[i], w.led.cancelled)
    && (!w.led.cancelled && Rank(w.tasks[i].phase) >= 12 ==> w.tasks[i].outcome.Consumed?)
  }

  lemma OrderedSettles(w: World, i: nat)
    requires Ordered(w) && i < |w.tasks|
    ensures Settled(w, i)
  {
  }

  lemma WaitingViews(cfg: Config, w: World, op: Op)
    requires WaitingOp(op) && Settled(w, op.i) && Enabled(cfg, w, op) && (HoldsActive(w.tasks[op.i]) ==> w.active > 0)
    ensures Views(w, ApplyWaiting(w, op), op)
  {
    WaitingEffect(cfg, w, op);
    WaitingStep(cfg, w, op);
  }

  lemma InsideViews(w: World, w': World, op: Op)
    requires ProcessingOp(op) && op.i < |w.tasks| && Processing(w.tasks[op.i]) && Inside(w, w', op.i)
    ensures Views(w, w', op)
  {
    InsideEffect(w, w', op);
  }

  lemma AtProcessing(cfg: Config, w: World, op: Op)
    requires ProcessingOp(op) && Enabled(cfg, w, op)
    ensures op.i < |w.tasks| && Processing(w.tasks[op.i])
  {
  }

  lemma ProcessingViews(cfg: Config, w: World, op: Op)
    requires ProcessingOp(op) && Settled(w, op.i) && Enabled(cfg, w, op)
    ensures Views(w, ApplyProcessing(cfg, w, op), op)
  {
    AtProcessing(cfg, w, op);
    ProcessingStep(cfg, w, op);
    InsideViews(w, ApplyProcessing(cfg, w, op), op);
  }

  lemma LeavingViews(cfg: Config, w: World, op: Op)
    requires LeavingOp(op) && Settled(w, op.i) && Enabled(cfg, w, op)
    requires op.ReportDone? ==> Sound(w.led) && Outstanding(w.led, w.tasks[op.i].batch)
    requires (HoldsActive(w.tasks[op.i]) ==> w.active > 0) && w.pending > 0
    ensures Views(w, ApplyLeaving(w, op), op)
  {
    LeavingEffect(cfg, w, op);
    LeavingStep(cfg, w, op);
  }

  /** Both views of a task step, whatever operation it was. */
  lemma TaskViews(cfg: Config, w: World, op: Op)
    requires Accounted(cfg, w) && Ordered(w) && TaskOp(op) && Enabled(cfg, w, op)
    ensures Views(w, Apply(cfg, w, op), op)
  {
    GuardsNeverFire(cfg, w, op);
    OrderedSettles(w, op.i);
    TaskHoldsCount(w, op.i);
    TaskApplied(cfg, w, op);
    if WaitingOp(op) {
      WaitingViews(cfg, w, op);
    } else if ProcessingOp(op) {
      ProcessingViews(cfg, w, op);
    } else {
      LeavingViews(cfg, w, op);
    }
  }

  lemma TaskKeepsBounds(cfg: Config, w: World, w': World, op: Op)
    requires TaskOp(op) && op.i < |w.tasks| && TaskStep(w, w', op.i) && TaskEffect(w, w', op)
    requires Bounded(cfg, w) && w'.active <= cfg.maxActive
    requires w'.led.batchSlots - Live(w'.led) == w.led.batchSlots - Live(w.led) && w'.led.batchSlots <= w.led.batchSlots
    ensures Bounded(cfg, w')
  {
    ActiveAfterMove(w.tasks, op.i, w'.tasks[op.i]);
    PendingAfterMove(w.tasks, op.i, w'.tasks[op.i]);
  }

  lemma TaskAccountStep(cfg: Config, w: World, op: Op)
    requires Accounted(cfg, w) && Ordered(w) && TaskOp(op) && Enabled(cfg, w, op)
    ensures Accounted(cfg, Apply(cfg, w, op))
  {
    TaskViews(cfg, w, op);
    if op.ReportDone? {
      GuardsNeverFire(cfg, w, op);
      OrderedSettles(w, op.i);
      ReportApplied(cfg, w, op);
      ReportAccounted(cfg, w, Apply(cfg, w, op), op);
    } else {
      StaysActive(cfg, w, op);
      MoveAccounted(cfg, w, Apply(cfg, w, op), op);
    }
  }

  lemma ReportApplied(cfg: Config, w: World, op: Op)
    requires op.ReportDone? && Enabled(cfg, w, op)
    ensures w.tasks[op.i].phase.Report? && Apply(cfg, w, op) == ReportResult(w, op.i, Live(w.led), op.failAt)
  {
  }

  lemma StaysActive(cfg: Config, w: World, op: Op)
    requires TaskOp(op) && Enabled(cfg, w, op) && w.active <= cfg.maxActive && Views(w, Apply(cfg, w, op), op)
    ensures Apply(cfg, w, op).active <= cfg.maxActive
  {
    if op.Acquire? {
      TaskApplied(cfg, w, op);
    }
  }

  lemma MoveAccounted(cfg: Config, w: World, w': World, op: Op)
    requires Accounted(cfg, w) && TaskOp(op) && Views(w, w', op) && !op.ReportDone? && w'.active <= cfg.maxActive
    ensures Accounted(cfg, w')
  {
    MoveKeepsIndex(w.tasks, op.i, w'.tasks[op.i], w.hist, w.ids);
    MoveKeepsCount(w.led, w'.led, w.tasks, op.i, w'.tasks[op.i], w.sub, w.hist, w.ids);
    TaskKeepsBounds(cfg, w, w', op);
  }

  lemma ReportAccounted(cfg: Config, w: World, w': World, op: Op)
    requires Accounted(cfg, w) && op.ReportDone? && Settled(w, op.i) && w.tasks[op.i].phase.Report?
    requires Outstanding(w.led, w.tasks[op.i].batch)
    requires w' == ReportResult(w, op.i, Live(w.led), op.failAt) && Views(w, w', op)
    ensures Accounted(cfg, w')
  {
    var t := w.tasks[op.i];
    assert Placed(t, op.i, w.hist, w.ids);
    MoveKeepsIndex(w.tasks, op.i, w'.tasks[op.i], w.hist, w.ids);
    ReportKeepsCount(w, op.i, op.failAt);
    CompleteSlots(w.led, t.batch, t.phase.reported, t.phase.executed, Live(w.led), op.failAt);
    TaskKeepsBounds(cfg, w, w', op);
  }

  lemma ReportKeepsCount(w: World, i: nat, failAt: Option<nat>)
    requires i < |w.tasks| && w.tasks[i].phase.Report?
    requires Counted(w.led, w.tasks, w.sub, w.hist, w.ids) && SubmitterAt(w) && Placed(w.tasks[i], i, w.hist, w.ids)
    requires Coherent(w.tasks[i], w.led.cancelled) && Outstanding(w.led, w.tasks[i].batch)
    ensures var w' := ReportResult(w, i, Live(w.led), failAt); Counted(w'.led, w'.tasks, w.sub, w.hist, w.ids)
  {
    var t := w.tasks[i];
    var t' := t.(phase := CloseDone);
    var err, executed, n := t.phase.reported, t.phase.executed, Live(w.led);
    UnscheduledNonNegative(w);
    ReportTally(w.led, w.tasks, i, t', err, executed, w.sub, w.hist, w.ids);
    CompleteKeepsCount(w.led, w.tasks[i := t'], t.batch, err, executed, n, failAt, w.sub, w.hist, w.ids);
  }

  lemma CompleteSlots(led: Ledger, id: nat, err: Option<Error>, executed: bool, n: nat, failAt: Option<nat>)
    requires Sound(led) && Outstanding(led, id)
    ensures var led' := AfterComplete(led, id, err, executed, n, failAt);
            && (led.cancelled ==> led'.cancelled)
            && led'.batchSlots - Live(led') == led.batchSlots - Live(led)
            && led'.batchSlots <= led.batchSlots
  {
    CompleteMeaning(led, id, err, executed, n, failAt);
  }

  predicate SimpleSubmitterOp(op: Op) {
    op.TakeBatch? || op.StartDrain? || op.Enter? || op.TakeSlot? || op.GiveUpSlot? || op.RecheckCtx? || op.TakePending?
  }

  lemma SimpleSubmitterShape(cfg: Config, w: World, op: Op)
    requires SimpleSubmitterOp(op) && Enabled(cfg, w, op)
    ensures var w' := ApplySub(w, op);
            && w'.tasks == w.tasks && w'.hist == w.hist && w'.ids == w.ids && w'.active == w.active
            && w'.led == w.led.(batchSlots := w'.led.batchSlots) && !InBatch(w.sub) == !InBatch(w'.sub)
            && (InBatch(w.sub) ==> w'.sub == Spawning(w.sub.id, w.sub.next) && w.sub.WantPending?)
  {
  }

  lemma SimpleSubmitterStep(cfg: Config, w: World, op: Op)
    requires Accounted(cfg, w) && SimpleSubmitterOp(op) && Enabled(cfg, w, op)
    ensures Accounted(cfg, ApplySub(w, op))
  {
    var w' := ApplySub(w, op);
    SimpleSubmitterShape(cfg, w, op);
    SubmitterMoveCount(w.led, w'.led, w.tasks, w.sub, w'.sub, w.hist, w.ids);
  }

  lemma NextAccountStep(cfg: Config, w: World, sub': Submitter)
    requires Accounted(cfg, w) && w.sub.Scheduling?
    requires sub' == if |w.hist[w.sub.id].messages| - w.sub.next <= 0 then Idle else Decoding(w.sub.id, w.sub.next)
    ensures Accounted(cfg, w.(sub := sub'))
  {
    SubmitterMoveCount(w.led, w.led, w.tasks, w.sub, sub', w.hist, w.ids);
  }

  lemma GiveBackParts(cfg: Config, w: World, count: int)
    requires Accounted(cfg, w) && InBatch(w.sub) && !w.sub.Spawning?
    requires count == Unscheduled(w.sub, w.hist, w.sub.id) && w.led.cancelled
    ensures Accounted(cfg, GiveBack(w, count))
  {
    GiveBackStep(w, count);
  }

  lemma DecodeAccountStep(cfg: Config, w: World)
    requires Accounted(cfg, w) && w.sub.Decoding?
    ensures Accounted(cfg, Apply(cfg, w, Decode))
  {
    var w' := Apply(cfg, w, Decode);
    if w.hist[w.sub.id].messages[w.sub.next].None? {
      DecodeFailureCount(w);
      CompleteSlots(w.led, w.sub.id, Some("decode incoming message"), true, Live(w.led), None);
    } else {
      SubmitterMoveCount(w.led, w'.led, w.tasks, w.sub, w'.sub, w.hist, w.ids);
    }
  }

  lemma GiveUpApplied(cfg: Config, w: World, op: Op, count: int)
    requires (op.GiveUpDecode? || op.GiveUpPending?) && Enabled(cfg, w, op)
    requires count == |w.hist[w.sub.id].messages| - w.sub.next - (if op.GiveUpDecode? then 1 else 0)
    ensures Apply(cfg, w, op) == GiveBack(w, count)
  {
  }

  lemma GiveUpAccountStep(cfg: Config, w: World, op: Op)
    requires Accounted(cfg, w) && (op.GiveUpDecode? || op.GiveUpPending?) && Enabled(cfg, w, op)
    ensures Accounted(cfg, Apply(cfg, w, op))
  {
    var count := |w.hist[w.sub.id].messages| - w.sub.next - (if op.GiveUpDecode? then 1 else 0);
    GiveUpApplied(cfg, w, op, count);
    GiveBackParts(cfg, w, count);
  }

  lemma SpawnAccountStep(cfg: Config, w: World)
    requires Accounted(cfg, w) && w.sub.Spawning?
    ensures Accounted(cfg, SpawnResult(w))
  {
    var w' := SpawnResult(w);
    SpawnKeepsIndex(w);
    SpawnKeepsCount(w);
    SpawnBounds(w.tasks, w'.tasks[|w.tasks|]);
    assert SubmitterAt(w') by {
      assert w'.ids[w.sub.id] == w.ids[w.sub.id] + [|w.tasks|];
    }
    assert Bounded(cfg, w');
  }

  lemma RegisterParts(cfg: Config, w: World, n: nat, failAt: Option<nat>)
    requires Indexed(w.tasks, w.hist, w.ids) && Counted(w.led, w.tasks, w.sub, w.hist, w.ids) && Bounded(cfg, w)
    requires w.sub.Registering? && n == Live(w.led) + 1
    ensures Accounted(cfg, RegisterResult(w, n, failAt))
  {
    RegisterKeepsIndex(w, n, failAt);
    RegisterKeepsCount(w, n, failAt);
    RegisterKeepsRest(cfg, w, RegisterResult(w, n, failAt));
  }

  lemma RegisterKeepsRest(cfg: Config, w: World, w': World)
    requires Bounded(cfg, w) && w.sub.Registering? && |w.hist| == |w.ids| == w.led.nextBatchID
    requires w' == w.(led := w'.led, hist := w.hist + [w.sub.batch], ids := w.ids + [[]], sub := Scheduling(w.led.nextBatchID, 0))
    requires w'.led.batchSlots == Live(w'.led) + (w.led.batchSlots - Live(w.led) - 1)
    requires w'.led.batchSlots <= w.led.batchSlots
    ensures SubmitterAt(w') && Bounded(cfg, w')
  {
  }

  lemma RegisterApplied(cfg: Config, w: World, op: Op)
    requires op.Register? && Enabled(cfg, w, op)
    ensures Apply(cfg, w, op) == RegisterResult(w, Live(w.led) + 1, op.failAt)
  {
  }

  lemma SpawnApplied(cfg: Config, w: World, op: Op)
    requires op.Spawn? && Enabled(cfg, w, op)
    ensures Apply(cfg, w, op) == SpawnResult(w)
  {
  }

  /** What Next makes of the submitter's state. */
  function NextResult(w: World): World
    requires w.sub.Scheduling? && w.sub.id < |w.hist|
  {
    if NextGivesBack(w) then GiveBack(w, |w.hist[w.sub.id].messages| - w.sub.next)
    else w.(sub := if |w.hist[w.sub.id].messages| <= w.sub.next then Idle else Decoding(w.sub.id, w.sub.next))
  }

  lemma NextApplied(cfg: Config, w: World, op: Op)
    requires op.Next? && Enabled(cfg, w, op)
    ensures Apply(cfg, w, op) == NextResult(w)
  {
  }

  predicate NextGivesBack(w: World)
    requires w.sub.Scheduling? && w.sub.id < |w.hist|
  {
    w.led.cancelled && |w.hist[w.sub.id].messages| > w.sub.next
  }

  lemma NextStep(cfg: Config, w: World)
    requires Accounted(cfg, w) && w.sub.Scheduling? && w.sub.id < |w.hist|
    ensures Accounted(cfg, NextResult(w))
  {
    if NextGivesBack(w) {
      GiveBackParts(cfg, w, |w.hist[w.sub.id].messages| - w.sub.next);
    } else {
      NextAccountStep(cfg, w, NextResult(w).sub);
    }
  }

  lemma RestOfSubmitter(cfg: Config, w: World, op: Op)
    requires Accounted(cfg, w) && (op.Next? || op.Spawn? || op.Register?) && Enabled(cfg, w, op)
    ensures Accounted(cfg, Apply(cfg, w, op))
  {
    if op.Next? {
      NextApplied(cfg, w, op);
      NextStep(cfg, w);
    } else if op.Spawn? {
      SpawnApplied(cfg, w, op);
      SpawnAccountStep(cfg, w);
    } else {
      RegisterApplied(cfg, w, op);
      RegisterParts(cfg, w, Live(w.led) + 1, op.failAt);
    }
  }

  lemma SubmitterAccountStep(cfg: Config, w: World, op: Op)
    requires Accounted(cfg, w) && SubmitterOp(op) && Enabled(cfg, w, op)
    ensures Accounted(cfg, Apply(cfg, w, op))
  {
    if SimpleSubmitterOp(op) {
      SimpleSubmitterStep(cfg, w, op);
    } else if op.Decode? {
      DecodeAccountStep(cfg, w);
    } else if op.GiveUpDecode? || op.GiveUpPending? {
      GiveUpAccountStep(cfg, w, op);
    } else {
      RestOfSubmitter(cfg, w, op);
    }
  }

  lemma GiveBackStep(w: World, count: int)
    requires Counted(w.led, w.tasks, w.sub, w.hist, w.ids) && SubmitterAt(w) && InBatch(w.sub)
    requires count == Unscheduled(w.sub, w.hist, w.sub.id) && w.led.cancelled
    ensures var w' := GiveBack(w, count);
            Counted(w'.led, w'.tasks, w'.sub, w'.hist, w'.ids)
            && w'.led.batchSlots == w.led.batchSlots && Live(w'.led) == Live(w.led) && w'.led.cancelled
  {
    if count > 0 {
      GiveBackCount(w, count);
    } else {
      SubmitterMoveCount(w.led, w.led, w.tasks, w.sub, Draining, w.hist, w.ids);
    }
  }

  lemma SpawnBounds(tasks: seq<Task>, t: Task)
    requires t.phase == AwaitPrevious
    ensures ActiveOf(tasks + [t]) == ActiveOf(tasks) && |PendingOf(tasks + [t])| == |PendingOf(tasks)| + 1
  {
    assert PendingOf(tasks + [t]) == PendingOf(tasks) + {|tasks|};
  }

  lemma EnvironmentShape(cfg: Config, w: World, op: Op)
    requires EnvironmentOp(op) && !op.Crash? && Enabled(cfg, w, op)
    ensures var w' := Apply(cfg, w, op);
      && w'.led == w.led.(cancelled := w.led.cancelled || op.Cancel?) && w'.tasks == w.tasks && w'.sub == w.sub
      && w'.hist == w.hist && w'.ids == w.ids && w'.active == w.active && w'.pending == w.pending
  {
  }

  lemma EnvironmentKeeps(cfg: Config, w: World, w': World)
    requires Accounted(cfg, w)
    requires w'.led == w.led.(cancelled := w'.led.cancelled) && (w.led.cancelled ==> w'.led.cancelled)
    requires w'.tasks == w.tasks && w'.sub == w.sub && w'.hist == w.hist && w'.ids == w.ids
    requires w'.active == w.active && w'.pending == w.pending
    ensures Accounted(cfg, w')
  {
    SubmitterMoveCount(w.led, w'.led, w.tasks, w.sub, w'.sub, w.hist, w.ids);
  }

  lemma RestartAccounted(cfg: Config, w: World, point: CrashPoint)
    requires Enabled(cfg, w, Crash(point))
    ensures Accounted(cfg, Apply(cfg, w, Crash(point)))
  {
    var w' := Restarted(cfg, AtCrash(w, point));
    assert ActiveOf(w'.tasks) == {} && PendingOf(w'.tasks) == {};
  }

  lemma EnvironmentAccountStep(cfg: Config, w: World, op: Op)
    requires Accounted(cfg, w) && EnvironmentOp(op) && Enabled(cfg, w, op)
    ensures Accounted(cfg, Apply(cfg, w, op))
  {
    if op.Crash? {
      RestartAccounted(cfg, w, op.point);
    } else {
      EnvironmentShape(cfg, w, op);
      EnvironmentKeeps(cfg, w, Apply(cfg, w, op));
    }
  }

  lemma AccountStep(cfg: Config, w: World, op: Op)
    requires Accounted(cfg, w) && Ordered(w) && Enabled(cfg, w, op)
    ensures Accounted(cfg, Apply(cfg, w, op))
  {
    if TaskOp(op) {
      TaskAccountStep(cfg, w, op);
    } else if SubmitterOp(op) {
      SubmitterAccountStep(cfg, w, op);
    } else {
      EnvironmentAccountStep(cfg, w, op);
    }
  }

  /** The joint invariant of every run. */
  ghost predicate Healthy(cfg: Config, w: World) {
    Ordered(w) && Accounted(cfg, w)
  }

  lemma InitialHealthy(cfg: Config, cursorFile: Option<string>, replayFile: Option<Replay.Seen>, now: int)
    ensures Healthy(cfg, Initial(cfg, cursorFile, replayFile, now))
  {
    var w := Initial(cfg, cursorFile, replayFile, now);
    assert ActiveOf(w.tasks) == {} && PendingOf(w.tasks) == {};
  }

  lemma HealthyStep(cfg: Config, w: World, op: Op)
    requires Healthy(cfg, w) && Enabled(cfg, w, op)
    ensures Healthy(cfg, Apply(cfg, w, op)) && LedgerReady(w, op)
  {
    GuardsNeverFire(cfg, w, op);
    OrderStep(cfg, w, op);
    AccountStep(cfg, w, op);
  }

  lemma {:induction false} RunHealthy(cfg: Config, start: World, ops: seq<Op>)
    requires Healthy(cfg, start) && Run(cfg, start, ops).Some?
    ensures Healthy(cfg, Run(cfg, start, ops).value)
    decreases |ops|
  {
    if ops != [] {
      RunHealthy(cfg, start, ops[..|ops| - 1]);
      HealthyStep(cfg, Run(cfg, start, ops[..|ops| - 1]).value, ops[|ops| - 1]);
    }
  }
}
