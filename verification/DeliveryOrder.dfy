/** Per-conversation ordering in every interleaving.  A cancelled waiter closes
    its `done` and drops its tail while its predecessor may still be running, so
    neither a closed predecessor nor an absent tail means that the conversation
    is quiet; only together with an uncancelled context do they. */
module DeliveryOrder {
  import opened Wire
  import opened Dispatcher
  import opened Delivery

  /** processWireMessage was entered. */
  predicate Started(t: Task) {
    4 <= Rank(t.phase) <= 10 || t.outcome.Consumed? || t.outcome.Failed?
  }

  /** Handled (or skipped) without error, and reported to the ledger. */
  predicate Succeeded(t: Task) {
    Rank(t.phase) >= 12 && t.outcome.Consumed?
  }

  /** The outcome field agrees with the program counter. */
  predicate Coherent(t: Task, cancelled: bool) {
    match t.phase
    case Leave(err) => if err.Some? then t.outcome.Failed? else t.outcome.Consumed?
    case Report(err, true) => if err.Some? then t.outcome.Failed? else t.outcome.Consumed?
    case Report(err, false) => err.Some? && t.outcome.Abandoned? && cancelled
    case _ => if Rank(t.phase) <= 9 then t.outcome.Unresolved? else !t.outcome.Unresolved?
  }

  /** The predecessor is the nearest earlier task of the conversation. */
  ghost predicate Linked(tasks: seq<Task>, j: nat)
    requires j < |tasks|
  {
    tasks[j].previous.Some? ==>
      var p := tasks[j].previous.value;
      p < j && tasks[p].key == tasks[j].key && forall k :: p < k < j ==> tasks[k].key != tasks[j].key
  }

  ghost predicate TailIsLast(tasks: seq<Task>, tails: map<string, nat>, key: string)
    requires key in tails
  {
    tails[key] < |tasks| && tasks[tails[key]].key == key
    && forall k :: tails[key] < k < |tasks| ==> tasks[k].key != key
  }

  /** Nothing ahead to wait for any more. */
  predicate Cleared(t: Task) {
    Rank(t.phase) >= 1 || t.previous.None?
  }

  /** Facts that hold until the context is cancelled. */
  ghost predicate Quiet(tasks: seq<Task>, tails: map<string, nat>) {
    && (forall j :: 0 <= j < |tasks| && Rank(tasks[j].phase) >= 12 ==> tasks[j].outcome.Consumed?)
    && (forall j :: 0 <= j < |tasks| && tasks[j].key !in tails ==> Succeeded(tasks[j]))
    && (forall i, j :: 0 <= i < j < |tasks| && tasks[i].key == tasks[j].key && Cleared(tasks[j])
          ==> Succeeded(tasks[i]))
  }

  ghost predicate OrderInv(tasks: seq<Task>, tails: map<string, nat>, cancelled: bool) {
    && (forall j :: 0 <= j < |tasks| ==> Linked(tasks, j) && Coherent(tasks[j], cancelled))
    && (forall key :: key in tails ==> TailIsLast(tasks, tails, key))
    && (!cancelled ==> Quiet(tasks, tails))
    && InOrder(tasks)
  }

  /** The ordering guarantee: a message is processed only after every earlier
      message of its conversation was processed without error. */
  ghost predicate InOrder(tasks: seq<Task>) {
    forall i, j :: 0 <= i < j < |tasks| && tasks[i].key == tasks[j].key && Started(tasks[j])
      ==> Succeeded(tasks[i])
  }

  ghost predicate Ordered(w: World) {
    OrderInv(w.tasks, w.tails, w.led.cancelled)
  }

  // ----- one task moves -----

  /** A step of one task, seen by the ordering argument. */
  ghost predicate Moves(tasks: seq<Task>, i: nat, t: Task, cancelled: bool, cancelled': bool)
    requires i < |tasks|
  {
    var s := tasks[i];
    && t.batch == s.batch && t.idx == s.idx && t.msg == s.msg && t.key == s.key && t.keys == s.keys && t.previous == s.previous
    && Rank(s.phase) <= Rank(t.phase)
    && (cancelled ==> cancelled')
    && Coherent(t, cancelled')
    && (Succeeded(s) ==> Succeeded(t))
    && (Started(t) ==> Started(s) || (!cancelled && Rank(s.phase) >= 1))
    && (!cancelled' && Rank(t.phase) >= 12 ==> t.outcome.Consumed?)
    && (Rank(s.phase) == 0 && s.previous.Some? && Rank(t.phase) >= 1 && !cancelled' ==>
          s.previous.value < |tasks| && Closed(tasks[s.previous.value]))
  }

  lemma CoherenceIsMonotone(t: Task, c: bool, c': bool)
    requires Coherent(t, c) && (c ==> c')
    ensures Coherent(t, c')
  {
  }

  /** Before a task that succeeded, all of its conversation has. */
  lemma EarlierSucceeded(tasks: seq<Task>, tails: map<string, nat>, p: nat)
    requires Quiet(tasks, tails) && p < |tasks| && Succeeded(tasks[p])
    ensures forall k :: 0 <= k < p && tasks[k].key == tasks[p].key ==> Succeeded(tasks[k])
  {
    assert Cleared(tasks[p]);
  }

  lemma PredecessorsSucceeded(tasks: seq<Task>, tails: map<string, nat>, i: nat, t: Task)
    requires OrderInv(tasks, tails, false) && i < |tasks| && Moves(tasks, i, t, false, false)
    requires Cleared(t)
    ensures forall k :: 0 <= k < i && tasks[k].key == t.key ==> Succeeded(tasks[k])
  {
    assert Linked(tasks, i);
    BehindSucceeded(tasks, tails, i, t);
  }

  lemma BehindSucceeded(tasks: seq<Task>, tails: map<string, nat>, i: nat, t: Task)
    requires Quiet(tasks, tails) && i < |tasks| && Linked(tasks, i) && Moves(tasks, i, t, false, false) && Cleared(t)
    ensures forall k :: 0 <= k < i && tasks[k].key == t.key ==> Succeeded(tasks[k])
  {
    if Rank(tasks[i].phase) == 0 && tasks[i].previous.Some? {
      var p := tasks[i].previous.value;
      assert Succeeded(tasks[p]);
      EarlierSucceeded(tasks, tails, p);
    }
  }

  /** Only task i differs, and what succeeded stays so. */
  ghost predicate SameButOne(tasks: seq<Task>, next: seq<Task>, i: nat) {
    && |next| == |tasks|
    && (forall k :: 0 <= k < |tasks| && k != i ==> next[k] == tasks[k])
    && (forall k :: 0 <= k < |tasks| ==> next[k].key == tasks[k].key && next[k].previous == tasks[k].previous)
    && (forall k :: 0 <= k < |tasks| && Succeeded(tasks[k]) ==> Succeeded(next[k]))
  }

  lemma MoveKeepsShape(tasks: seq<Task>, next: seq<Task>, tails: map<string, nat>, i: nat, c: bool, c': bool)
    requires OrderInv(tasks, tails, c) && SameButOne(tasks, next, i) && i < |tasks|
    requires Coherent(next[i], c') && (c ==> c')
    ensures forall j :: 0 <= j < |next| ==> Linked(next, j) && Coherent(next[j], c')
    ensures forall key :: key in tails ==> TailIsLast(next, tails, key)
  {
    forall j | 0 <= j < |next| ensures Linked(next, j) && Coherent(next[j], c') {
      assert Linked(tasks, j) && Coherent(tasks[j], c);
      CoherenceIsMonotone(tasks[j], c, c');
    }
    forall key | key in tails ensures TailIsLast(next, tails, key) {
      assert TailIsLast(tasks, tails, key);
    }
  }

  lemma MoveKeepsQuiet(tasks: seq<Task>, tails: map<string, nat>, i: nat, t: Task)
    requires OrderInv(tasks, tails, false) && i < |tasks| && Moves(tasks, i, t, false, false)
    requires SameButOne(tasks, tasks[i := t], i)
    ensures Quiet(tasks[i := t], tails)
  {
    if Cleared(t) {
      PredecessorsSucceeded(tasks, tails, i, t);
    }
  }

  lemma MoveKeepsInOrder(tasks: seq<Task>, tails: map<string, nat>, i: nat, t: Task, c: bool, c': bool)
    requires OrderInv(tasks, tails, c) && i < |tasks| && Moves(tasks, i, t, c, c')
    requires SameButOne(tasks, tasks[i := t], i)
    ensures InOrder(tasks[i := t])
  {
  }

  lemma MovePreservesOrder(tasks: seq<Task>, tails: map<string, nat>, i: nat, t: Task, c: bool, c': bool)
    requires OrderInv(tasks, tails, c) && i < |tasks| && Moves(tasks, i, t, c, c')
    ensures OrderInv(tasks[i := t], tails, c')
  {
    MoveKeepsShape(tasks, tasks[i := t], tails, i, c, c');
    if !c' {
      MoveKeepsQuiet(tasks, tails, i, t);
    }
    MoveKeepsInOrder(tasks, tails, i, t, c, c');
  }

  // ----- spawning and tail deletion -----

  lemma SpawnLinked(tasks: seq<Task>, tails: map<string, nat>, t: Task, c: bool, j: nat)
    requires OrderInv(tasks, tails, c) && j <= |tasks|
    requires t.phase == AwaitPrevious && t.outcome == Unresolved
    requires t.previous == if t.key in tails then Some(tails[t.key]) else None
    ensures Linked(tasks + [t], j) && Coherent((tasks + [t])[j], c)
  {
    if j < |tasks| {
      assert Linked(tasks, j) && Coherent(tasks[j], c);
    } else if t.key in tails {
      assert TailIsLast(tasks, tails, t.key);
    }
  }

  lemma SpawnQuiet(tasks: seq<Task>, tails: map<string, nat>, t: Task, c: bool)
    requires OrderInv(tasks, tails, c) && !c
    requires t.phase == AwaitPrevious && t.outcome == Unresolved
    requires t.previous == if t.key in tails then Some(tails[t.key]) else None
    ensures Quiet(tasks + [t], tails[t.key := |tasks|])
  {
    assert forall k :: 0 <= k < |tasks| ==> (tasks + [t])[k] == tasks[k];
  }

  lemma SpawnInOrder(tasks: seq<Task>, t: Task)
    requires InOrder(tasks) && t.phase == AwaitPrevious && t.outcome == Unresolved
    ensures InOrder(tasks + [t])
  {
    assert forall k :: 0 <= k < |tasks| ==> (tasks + [t])[k] == tasks[k];
  }

  lemma SpawnPreservesOrder(tasks: seq<Task>, tails: map<string, nat>, t: Task, c: bool)
    requires OrderInv(tasks, tails, c)
    requires t.phase == AwaitPrevious && t.outcome == Unresolved
    requires t.previous == if t.key in tails then Some(tails[t.key]) else None
    ensures OrderInv(tasks + [t], tails[t.key := |tasks|], c)
  {
    var new_, tails' := tasks + [t], tails[t.key := |tasks|];
    assert forall k :: 0 <= k < |tasks| ==> new_[k] == tasks[k];
    forall j | 0 <= j < |new_| ensures Linked(new_, j) && Coherent(new_[j], c) {
      SpawnLinked(tasks, tails, t, c, j);
    }
    forall key | key in tails' ensures TailIsLast(new_, tails', key) {
      if key != t.key {
        assert TailIsLast(tasks, tails, key);
      }
    }
    if !c { SpawnQuiet(tasks, tails, t, c); }
    SpawnInOrder(tasks, t);
  }

  lemma DropPreservesOrder(tasks: seq<Task>, tails: map<string, nat>, i: nat, c: bool)
    requires OrderInv(tasks, tails, c)
    requires i < |tasks| && tasks[i].phase == DropTail
    requires tasks[i].key in tails && tails[tasks[i].key] == i
    ensures OrderInv(tasks, tails - {tasks[i].key}, c)
  {
    var tails' := tails - {tasks[i].key};
    forall key | key in tails' ensures TailIsLast(tasks, tails', key) {
      assert TailIsLast(tasks, tails, key);
    }
    assert TailIsLast(tasks, tails, tasks[i].key);
  }

  lemma CancelPreservesOrder(tasks: seq<Task>, tails: map<string, nat>, c: bool)
    requires OrderInv(tasks, tails, c)
    ensures OrderInv(tasks, tails, true)
  {
    forall j | 0 <= j < |tasks| ensures Coherent(tasks[j], true) {
      CoherenceIsMonotone(tasks[j], c, true);
    }
  }

  // ----- every operation -----

  /** What a message goroutine's step does, for the ordering argument. */
  ghost predicate TaskStep(w: World, w': World, i: nat)
    requires i < |w.tasks|
  {
    && |w'.tasks| == |w.tasks|
    && w'.tasks == w.tasks[i := w'.tasks[i]]
    && Moves(w.tasks, i, w'.tasks[i], w.led.cancelled, w'.led.cancelled)
  }

  lemma WaitingStep(cfg: Config, w: World, op: Op)
    requires WaitingOp(op) && Enabled(cfg, w, op) && Coherent(w.tasks[op.i], w.led.cancelled)
    ensures TaskStep(w, ApplyWaiting(w, op), op.i) && ApplyWaiting(w, op).tails == w.tails
  {
    WaitingForm(w, op);
  }

  /** A step inside processWireMessage: besides its own task it touches only
      tokens, the replay index and the histories, and it keeps its slots. */
  ghost predicate Inside(w: World, w': World, i: nat)
    requires i < |w.tasks|
  {
    && w' == w.(tasks := w'.tasks, tokens := w'.tokens, replay := w'.replay, calls := w'.calls, log := w'.log)
    && TaskStep(w, w', i)
    && 4 <= Rank(w'.tasks[i].phase) <= 10
  }

  lemma ReturnStep(w: World, i: nat, bad: Option<Error>, v: Verdict)
    requires i < |w.tasks| && Processing(w.tasks[i]) && Coherent(w.tasks[i], w.led.cancelled)
    ensures Inside(w, Return(w, i, bad, v), i)
  {
  }

  lemma MoveStep(w: World, i: nat, p: Phase)
    requires i < |w.tasks| && Processing(w.tasks[i]) && Coherent(w.tasks[i], w.led.cancelled)
    requires Rank(w.tasks[i].phase) <= Rank(p) <= 9
    ensures Inside(w, MoveTo(w, i, p), i)
  {
  }

  lemma LookUpStep(cfg: Config, w: World, i: nat)
    requires TaskAt(w, i, 5) && Coherent(w.tasks[i], w.led.cancelled)
    ensures Inside(w, LookUpResult(cfg, w, i), i)
  {
    ReturnStep(w, i, None, Replayed(w.now));
  }

  lemma AfterHandlingStep(w: World, i: nat, v: Verdict)
    requires i < |w.tasks| && Coherent(w.tasks[i], w.led.cancelled) && 4 <= Rank(w.tasks[i].phase) <= 8
    ensures Inside(w, AfterHandling(w, i, v), i)
  {
    ReturnStep(w, i, None, v);
    MoveStep(w, i, Stamp(v));
  }

  lemma RememberStep(w: World, i: nat, bad: Option<Error>)
    requires TaskAt(w, i, 6) && Coherent(w.tasks[i], w.led.cancelled)
    ensures Inside(w, RememberResult(w, i, bad), i)
  {
    var m := w.tasks[i].msg;
    ReturnStep(w, i, bad, Acked);
    var w1 := w.(tokens := w.tokens[PeerUserID(m) := m.contextToken]);
    MoveStep(w, i, Invoke);
    AfterHandlingStep(w, i, NotUser);
    AfterHandlingStep(w1, i, NotUser);
  }

  lemma InvokeStep(w: World, i: nat, result: HandlerResult)
    requires TaskAt(w, i, 7) && Coherent(w.tasks[i], w.led.cancelled)
    ensures Inside(w, InvokeResult(w, i, result), i)
  {
    var t := w.tasks[i];
    var w1 := w.(calls := w.calls + [Call(t.msg, t.checkedAt, |w.log|, result)]);
    AfterHandlingStep(w1, i, Acked);
    AfterHandlingStep(w1, i, Dropped);
    if result.Retry? { ReturnStep(w1, i, Some(result.err), Acked); }
    if result.HookFails? { ReturnStep(w, i, Some(result.err), Acked); }
  }

  lemma StoreStep(cfg: Config, w: World, i: nat, bad: Option<Error>)
    requires TaskAt(w, i, 9) && Coherent(w.tasks[i], w.led.cancelled)
    ensures Inside(w, StoreResult(cfg, w, i, bad), i)
  {
    ReturnStep(w, i, bad, w.tasks[i].phase.verdict);
  }

  lemma ValidateStep(w: World, i: nat, bad: Option<Error>)
    requires TaskAt(w, i, 4) && Coherent(w.tasks[i], w.led.cancelled)
    ensures Inside(w, if bad.Some? then Return(w, i, bad, Acked) else MoveTo(w, i, LookUp), i)
  {
    ReturnStep(w, i, bad, Acked);
    MoveStep(w, i, LookUp);
  }

  lemma ProcessingStep(cfg: Config, w: World, op: Op)
    requires ProcessingOp(op) && Enabled(cfg, w, op) && Coherent(w.tasks[op.i], w.led.cancelled)
    ensures Inside(w, ApplyProcessing(cfg, w, op), op.i)
  {
    match op
    case ValidateSession(i, bad) => ValidateStep(w, i, bad);
    case LookUpReplay(i) => LookUpStep(cfg, w, i);
    case RememberToken(i, bad) => RememberStep(w, i, bad);
    case InvokeHandler(i, result) => InvokeStep(w, i, result);
    case ReadClock(i) => MoveStep(w, i, Store(w.tasks[i].phase.verdict, w.now));
    case StoreReplay(i, bad) => StoreStep(cfg, w, i, bad);
  }

  lemma ReportStep(w: World, i: nat, failAt: Option<nat>)
    requires TaskAt(w, i, 11) && Coherent(w.tasks[i], w.led.cancelled)
    requires Sound(w.led) && Outstanding(w.led, w.tasks[i].batch)
    ensures TaskStep(w, ReportResult(w, i, Live(w.led), failAt), i)
  {
    var t := w.tasks[i];
    CompleteMeaning(w.led, t.batch, t.phase.reported, t.phase.executed, Live(w.led), failAt);
  }

  lemma DeleteTailStep(w: World, i: nat)
    requires TaskAt(w, i, 13) && Coherent(w.tasks[i], w.led.cancelled)
    requires !w.led.cancelled ==> w.tasks[i].outcome.Consumed?
    ensures TaskStep(w, DeleteTailResult(w, i), i)
    ensures DeleteTailResult(w, i).tails ==
      if w.tasks[i].key in w.tails && w.tails[w.tasks[i].key] == i then w.tails - {w.tasks[i].key} else w.tails
  {
  }

  lemma FreeStep(cfg: Config, w: World, op: Op)
    requires (op.LeaveActive? || op.ReleaseSlot? || op.CloseChannel?) && Enabled(cfg, w, op)
    requires Coherent(w.tasks[op.i], w.led.cancelled)
    requires !w.led.cancelled && Rank(w.tasks[op.i].phase) >= 12 ==> w.tasks[op.i].outcome.Consumed?
    ensures TaskStep(w, ApplyLeaving(w, op), op.i) && ApplyLeaving(w, op).tails == w.tails
  {
    LeavingForm(w, op);
  }

  lemma LeavingStep(cfg: Config, w: World, op: Op)
    requires LeavingOp(op) && Enabled(cfg, w, op) && Coherent(w.tasks[op.i], w.led.cancelled)
    requires op.ReportDone? ==> Sound(w.led) && Outstanding(w.led, w.tasks[op.i].batch)
    requires !w.led.cancelled && Rank(w.tasks[op.i].phase) >= 12 ==> w.tasks[op.i].outcome.Consumed?
    ensures var w' := ApplyLeaving(w, op);
            TaskStep(w, w', op.i)
            && w'.tails == if op.DeleteTail? && w.tasks[op.i].key in w.tails && w.tails[w.tasks[op.i].key] == op.i
                           then w.tails - {w.tasks[op.i].key} else w.tails
  {
    if op.ReportDone? {
      ReportStep(w, op.i, op.failAt);
    } else if op.DeleteTail? {
      DeleteTailStep(w, op.i);
    } else {
      FreeStep(cfg, w, op);
    }
  }

  /** The ledger facts the two completing operations rely on; module
      DeliveryAccounting shows that they always hold. */
  ghost predicate LedgerReady(w: World, op: Op) {
    && Sound(w.led)
    && (op.ReportDone? && op.i < |w.tasks| ==> Outstanding(w.led, w.tasks[op.i].batch))
    && (op.Decode? && w.sub.Decoding? ==> Outstanding(w.led, w.sub.id))
    && (op.Register? ==> w.led.batchSlots > Live(w.led))
  }

  lemma TaskOrderStep(cfg: Config, w: World, op: Op)
    requires Ordered(w) && TaskOp(op) && Enabled(cfg, w, op) && LedgerReady(w, op)
    ensures Ordered(Apply(cfg, w, op))
  {
    var w' := Apply(cfg, w, op);
    TaskApplied(cfg, w, op);
    assert Coherent(w.tasks[op.i], w.led.cancelled);
    if WaitingOp(op) {
      WaitingStep(cfg, w, op);
    } else if ProcessingOp(op) {
      ProcessingStep(cfg, w, op);
    } else {
      LeavingStep(cfg, w, op);
    }
    if w'.tails != w.tails {
      DropPreservesOrder(w.tasks, w.tails, op.i, w.led.cancelled);
    }
    MovePreservesOrder(w.tasks, w'.tails, op.i, w'.tasks[op.i], w.led.cancelled, w'.led.cancelled);
  }

  /** The submitter and the environment touch tasks only by spawning and
      restarting, and the context only by cancelling it. */
  lemma DecodeStaysCancelled(w: World)
    requires w.sub.Decoding? && CurrentMessage(w) && Sound(w.led) && Outstanding(w.led, w.sub.id) && w.led.cancelled
    ensures ApplySub(w, Decode).led.cancelled
  {
    CompleteMeaning(w.led, w.sub.id, Some("decode incoming message"), true, Live(w.led), None);
  }

  lemma RegisterStaysCancelled(w: World, n: nat, failAt: Option<nat>)
    requires Sound(w.led) && w.led.batchSlots > Live(w.led) && w.led.cancelled && w.sub.Registering?
    ensures RegisterResult(w, n, failAt).led.cancelled
  {
    var b := w.sub.batch;
    RegisterSound(w.led, |b.messages|, b.cursor);
    AdvanceMeaning(AfterRegister(w.led, |b.messages|, b.cursor, 0, None), n, failAt);
  }

  lemma OtherStepFrame(cfg: Config, w: World, op: Op)
    requires !TaskOp(op) && !op.Spawn? && !op.Crash? && Enabled(cfg, w, op) && LedgerReady(w, op)
    ensures var w' := Apply(cfg, w, op);
            w'.tasks == w.tasks && w'.tails == w.tails && (w.led.cancelled ==> w'.led.cancelled)
  {
    if SubmitterOp(op) {
      SubmitterApplied(cfg, w, op);
      SubmitterFrame(cfg, w, op);
      if w.led.cancelled && op.Decode? {
        DecodeStaysCancelled(w);
      } else if w.led.cancelled && op.Register? {
        RegisterStaysCancelled(w, Live(w.led) + 1, op.failAt);
      }
    }
  }

  lemma OrderStep(cfg: Config, w: World, op: Op)
    requires Ordered(w) && Enabled(cfg, w, op) && LedgerReady(w, op)
    ensures Ordered(Apply(cfg, w, op))
  {
    var w' := Apply(cfg, w, op);
    if TaskOp(op) {
      TaskOrderStep(cfg, w, op);
    } else if op.Spawn? {
      SpawnPreservesOrder(w.tasks, w.tails, w'.tasks[|w.tasks|], w.led.cancelled);
    } else if op.Crash? {
      assert w'.tasks == [] && w'.tails == map[];
    } else {
      OtherStepFrame(cfg, w, op);
      if w'.led.cancelled {
        CancelPreservesOrder(w.tasks, w.tails, w.led.cancelled);
      }
    }
  }
}
