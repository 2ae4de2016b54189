/** What a consumed message rests on, over all runs: an acknowledgement or a
    drop on a handler call for that message that returned it, a skip on an
    identity that was known, and every verdict but a skip on a commit of all
    the message's identities. */
module DeliveryVerdicts {
  import opened Wire
  import opened Replay
  import opened Stores
  import opened Dispatcher
  import opened Delivery
  import opened DeliveryOrder
  import opened DeliveryAccounting
  import opened DeliveryReplay
  import DeliveryDurability

  /** The entries of the first file, and what was committed and called since. */
  datatype History = History(initial: Seen, log: seq<Entry>, calls: seq<Call>)

  function HistoryOf(initial: Seen, w: World): History { History(initial, w.log, w.calls) }

  predicate Extends(h: History, h': History) { h'.initial == h.initial && h.log <= h'.log && h.calls <= h'.calls }

  /** k was committed before `at`, inside the window that ends there. */
  ghost predicate CommittedInWindow(cfg: Config, log: seq<Entry>, k: string, at: int) {
    exists p :: 0 <= p < |log| && k in log[p].keys && log[p].time <= at && UnixMilli(log[p].time) >= Cutoff(at, cfg.ttl)
  }

  ghost predicate KnownAt(cfg: Config, h: History, k: string, at: int) {
    CommittedInWindow(cfg, h.log, k, at) || (k in h.initial && h.initial[k] >= Cutoff(at, cfg.ttl))
  }

  /** The handler was called with m and returned r. */
  ghost predicate Returned(calls: seq<Call>, m: Message, r: HandlerResult) {
    exists c :: 0 <= c < |calls| && calls[c].msg == m && calls[c].result == r
  }

  /** All identities of m were committed together. */
  ghost predicate AllCommitted(log: seq<Entry>, m: Message) {
    ReplayKeys(m) == [] || exists p :: 0 <= p < |log| && forall k :: k in ReplayKeys(m) ==> k in log[p].keys
  }

  ghost predicate Earned(cfg: Config, h: History, m: Message, v: Verdict) {
    match v
    case Acked => m.kind == MessageTypeUser && Returned(h.calls, m, Ack)
    case Dropped => m.kind == MessageTypeUser && Returned(h.calls, m, Drop)
    case NotUser => m.kind != MessageTypeUser
    case Replayed(at) => ReplayKeys(m) != [] && KnownAt(cfg, h, ReplayKeys(m)[0], at)
  }

  ghost predicate OutcomeOk(cfg: Config, h: History, m: Message, o: Outcome) {
    o.Consumed? ==> Earned(cfg, h, m, o.verdict) && (o.verdict.Replayed? || AllCommitted(h.log, m))
  }

  /** On its way to the commit a delivery has earned the verdict it carries. */
  ghost predicate CarriedOk(cfg: Config, h: History, t: Task) {
    && (t.phase.Stamp? ==> !t.phase.verdict.Replayed? && Earned(cfg, h, t.msg, t.phase.verdict))
    && (t.phase.Store? ==> !t.phase.verdict.Replayed? && Earned(cfg, h, t.msg, t.phase.verdict))
    && (t.phase.Invoke? ==> t.msg.kind == MessageTypeUser)
  }

  ghost predicate TaskOk(cfg: Config, h: History, t: Task) { CarriedOk(cfg, h, t) && OutcomeOk(cfg, h, t.msg, t.outcome) }

  /** Every message of a committed batch that was consumed was so rightly. */
  ghost predicate ArchivedOk(cfg: Config, h: History, a: Archived) {
    forall j :: 0 <= j < |a.outcomes| && j < |a.batch.messages| && a.batch.messages[j].Some?
      ==> OutcomeOk(cfg, h, a.batch.messages[j].value, a.outcomes[j])
  }

  ghost predicate Earning(cfg: Config, initial: Seen, w: World) {
    && (forall i :: 0 <= i < |w.tasks| ==> TaskOk(cfg, HistoryOf(initial, w), w.tasks[i]))
    && (forall k :: 0 <= k < |w.past| ==> ArchivedOk(cfg, HistoryOf(initial, w), w.past[k]))
  }

  // ----- a growing history -----

  lemma KnownLater(cfg: Config, h: History, h': History, k: string, at: int)
    requires KnownAt(cfg, h, k, at) && Extends(h, h')
    ensures KnownAt(cfg, h', k, at)
  {
    if CommittedInWindow(cfg, h.log, k, at) {
      var p :| 0 <= p < |h.log| && k in h.log[p].keys && h.log[p].time <= at && UnixMilli(h.log[p].time) >= Cutoff(at, cfg.ttl);
      assert h'.log[p] == h.log[p];
    }
  }

  lemma ReturnedLater(calls: seq<Call>, calls': seq<Call>, m: Message, r: HandlerResult)
    requires Returned(calls, m, r) && calls <= calls'
    ensures Returned(calls', m, r)
  {
    var c :| 0 <= c < |calls| && calls[c].msg == m && calls[c].result == r;
    assert calls'[c] == calls[c];
  }

  lemma RememberedLater(log: seq<Entry>, log': seq<Entry>, m: Message)
    requires AllCommitted(log, m) && log <= log'
    ensures AllCommitted(log', m)
  {
    if ReplayKeys(m) != [] {
      var p :| 0 <= p < |log| && forall k :: k in ReplayKeys(m) ==> k in log[p].keys;
      assert log'[p] == log[p];
    }
  }

  lemma EarnedLater(cfg: Config, h: History, h': History, m: Message, v: Verdict)
    requires Earned(cfg, h, m, v) && Extends(h, h')
    ensures Earned(cfg, h', m, v)
  {
    match v
    case Acked => ReturnedLater(h.calls, h'.calls, m, Ack);
    case Dropped => ReturnedLater(h.calls, h'.calls, m, Drop);
    case NotUser =>
    case Replayed(at) => KnownLater(cfg, h, h', ReplayKeys(m)[0], at);
  }

  lemma OutcomeLater(cfg: Config, h: History, h': History, m: Message, o: Outcome)
    requires OutcomeOk(cfg, h, m, o) && Extends(h, h')
    ensures OutcomeOk(cfg, h', m, o)
  {
    if o.Consumed? {
      EarnedLater(cfg, h, h', m, o.verdict);
      if !o.verdict.Replayed? { RememberedLater(h.log, h'.log, m); }
    }
  }

  lemma TaskLater(cfg: Config, h: History, h': History, t: Task)
    requires TaskOk(cfg, h, t) && Extends(h, h')
    ensures TaskOk(cfg, h', t)
  {
    OutcomeLater(cfg, h, h', t.msg, t.outcome);
    if t.phase.Stamp? || t.phase.Store? { EarnedLater(cfg, h, h', t.msg, t.phase.verdict); }
  }

  lemma ArchivedLater(cfg: Config, h: History, h': History, a: Archived)
    requires ArchivedOk(cfg, h, a) && Extends(h, h')
    ensures ArchivedOk(cfg, h', a)
  {
    forall j | 0 <= j < |a.outcomes| && j < |a.batch.messages| && a.batch.messages[j].Some?
      ensures OutcomeOk(cfg, h', a.batch.messages[j].value, a.outcomes[j])
    {
      OutcomeLater(cfg, h, h', a.batch.messages[j].value, a.outcomes[j]);
    }
  }

  // ----- the steps of a task -----

  /** Task i makes a step. */
  ghost predicate Stepped(w: World, w': World, i: nat) {
    && i < |w.tasks| == |w'.tasks| && w'.tasks == w.tasks[i := w'.tasks[i]] && w'.past == w.past
    && w.log <= w'.log && w.calls <= w'.calls
  }

  /** It does, and has then earned what it carries. */
  ghost predicate StepEarns(cfg: Config, initial: Seen, w: World, w': World, i: nat) {
    Stepped(w, w', i) && TaskOk(cfg, HistoryOf(initial, w'), w'.tasks[i])
  }

  lemma SteppedEarning(cfg: Config, initial: Seen, w: World, w': World, i: nat)
    requires Earning(cfg, initial, w) && StepEarns(cfg, initial, w, w', i)
    ensures Earning(cfg, initial, w')
  {
    var h, h' := HistoryOf(initial, w), HistoryOf(initial, w');
    forall j | 0 <= j < |w'.tasks| ensures TaskOk(cfg, h', w'.tasks[j]) {
      if j != i { TaskLater(cfg, h, h', w.tasks[j]); }
    }
    forall k | 0 <= k < |w'.past| ensures ArchivedOk(cfg, h', w'.past[k]) {
      ArchivedLater(cfg, h, h', w.past[k]);
    }
  }

  /** A task without a verdict to carry whose outcome is no new consumption. */
  lemma NothingNew(cfg: Config, h: History, t: Task, t': Task)
    requires TaskOk(cfg, h, t) && t'.msg == t.msg && (t'.outcome == t.outcome || !t'.outcome.Consumed?)
    requires !t'.phase.Stamp? && !t'.phase.Store? && !t'.phase.Invoke?
    ensures TaskOk(cfg, h, t')
  {
  }

  lemma WaitingEarns(cfg: Config, initial: Seen, w: World, op: Op)
    requires WaitingOp(op) && Enabled(cfg, w, op) && TaskOk(cfg, HistoryOf(initial, w), w.tasks[op.i])
    ensures StepEarns(cfg, initial, w, ApplyWaiting(w, op), op.i)
  {
    WaitingForm(w, op);
    NothingNew(cfg, HistoryOf(initial, w), w.tasks[op.i], Waited(w.tasks[op.i], op, w.led.cancelled));
  }

  lemma LeavingEarns(cfg: Config, initial: Seen, w: World, op: Op)
    requires LeavingOp(op) && Enabled(cfg, w, op) && TaskOk(cfg, HistoryOf(initial, w), w.tasks[op.i])
    ensures StepEarns(cfg, initial, w, ApplyLeaving(w, op), op.i)
  {
    LeavingForm(w, op);
    NothingNew(cfg, HistoryOf(initial, w), w.tasks[op.i], Left(w.tasks[op.i], op));
  }

  lemma ValidateEarns(cfg: Config, initial: Seen, w: World, i: nat, bad: Option<Error>)
    requires TaskAt(w, i, 4) && TaskOk(cfg, HistoryOf(initial, w), w.tasks[i])
    ensures StepEarns(cfg, initial, w, if bad.Some? then Return(w, i, bad, Acked) else MoveTo(w, i, LookUp), i)
  {
  }

  lemma HitIsKnown(cfg: Config, initial: Seen, w: World, k: string)
    requires IndexOk(cfg, w.replay, w.log, w.now, initial) && SeenKey(w.replay.mem, k, w.now, cfg.ttl)
    ensures KnownAt(cfg, HistoryOf(initial, w), k, w.now)
  {
    HitMeansCommitted(cfg, w.replay, w.log, w.now, initial, k);
  }

  lemma LookUpEarns(cfg: Config, initial: Seen, w: World, i: nat)
    requires TaskAt(w, i, 5) && TaskOk(cfg, HistoryOf(initial, w), w.tasks[i])
    requires IndexOk(cfg, w.replay, w.log, w.now, initial) && w.tasks[i].keys == ReplayKeys(w.tasks[i].msg)
    ensures StepEarns(cfg, initial, w, LookUpResult(cfg, w, i), i)
  {
    var t := w.tasks[i];
    LookUpForm(cfg, w, i);
    if t.keys != [] && SeenKey(w.replay.mem, t.keys[0], w.now, cfg.ttl) {
      HitIsKnown(cfg, initial, w, t.keys[0]);
    }
    assert TaskOk(cfg, HistoryOf(initial, w), LookedUp(cfg, w, t));
  }

  lemma RememberEarns(cfg: Config, initial: Seen, w: World, i: nat, bad: Option<Error>)
    requires TaskAt(w, i, 6) && TaskOk(cfg, HistoryOf(initial, w), w.tasks[i]) && w.tasks[i].keys == ReplayKeys(w.tasks[i].msg)
    ensures StepEarns(cfg, initial, w, RememberResult(w, i, bad), i)
  {
    RememberForm(w, i, bad);
    assert TaskOk(cfg, HistoryOf(initial, w), Remembered(w.tasks[i], bad));
  }

  /** What the handler's answer makes of task t. */
  function Invoked(t: Task, result: HandlerResult): Task {
    match result
    case Ack => if t.keys != [] then t.(phase := Stamp(Acked)) else t.(phase := Leave(None), outcome := Consumed(Acked))
    case Drop => if t.keys != [] then t.(phase := Stamp(Dropped)) else t.(phase := Leave(None), outcome := Consumed(Dropped))
    case Retry(err) => t.(phase := Leave(Some(err)), outcome := Failed)
    case HookFails(err) => t.(phase := Leave(Some(err)), outcome := Failed)
  }

  lemma InvokedForm(w: World, i: nat, result: HandlerResult)
    requires i < |w.tasks|
    ensures var t, w' := w.tasks[i], InvokeResult(w, i, result);
      && w' == w.(tasks := w.tasks[i := Invoked(t, result)], calls := w'.calls)
      && w'.calls == (if result.HookFails? then w.calls else w.calls + [Call(t.msg, t.checkedAt, |w.log|, result)])
  {
  }

  lemma InvokedOk(cfg: Config, h: History, t: Task, result: HandlerResult)
    requires TaskOk(cfg, h, t) && t.phase.Invoke? && t.keys == ReplayKeys(t.msg)
    requires result.HookFails? || Returned(h.calls, t.msg, result)
    ensures TaskOk(cfg, h, Invoked(t, result))
  {
    if result.Ack? {
      assert Earned(cfg, h, t.msg, Acked);
    } else if result.Drop? {
      assert Earned(cfg, h, t.msg, Dropped);
    }
  }

  lemma InvokeEarns(cfg: Config, initial: Seen, w: World, i: nat, result: HandlerResult)
    requires TaskAt(w, i, 7) && TaskOk(cfg, HistoryOf(initial, w), w.tasks[i]) && w.tasks[i].keys == ReplayKeys(w.tasks[i].msg)
    ensures StepEarns(cfg, initial, w, InvokeResult(w, i, result), i)
  {
    var t, w' := w.tasks[i], InvokeResult(w, i, result);
    InvokedForm(w, i, result);
    if !result.HookFails? {
      assert w'.calls[|w.calls|] == Call(t.msg, t.checkedAt, |w.log|, result);
      assert Returned(w'.calls, t.msg, result);
    }
    TaskLater(cfg, HistoryOf(initial, w), HistoryOf(initial, w'), t);
    InvokedOk(cfg, HistoryOf(initial, w'), t, result);
  }

  lemma ReadClockEarns(cfg: Config, initial: Seen, w: World, i: nat)
    requires TaskAt(w, i, 8) && w.tasks[i].phase.Stamp? && TaskOk(cfg, HistoryOf(initial, w), w.tasks[i])
    ensures StepEarns(cfg, initial, w, MoveTo(w, i, Store(w.tasks[i].phase.verdict, w.now)), i)
  {
  }

  lemma StoredForm(cfg: Config, w: World, i: nat, bad: Option<Error>)
    requires TaskAt(w, i, 9) && w.tasks[i].phase.Store?
    ensures var t, w' := w.tasks[i], StoreResult(cfg, w, i, bad);
      && Stepped(w, w', i) && w'.calls == w.calls
      && w'.tasks[i] == t.(phase := Leave(bad), outcome := if bad.Some? then Failed else Consumed(t.phase.verdict))
      && (bad.None? ==> w'.log == w.log + [Entry(RealKeys(t.keys), t.phase.stamp)])
      && (bad.Some? ==> w'.log == w.log)
  {
  }

  lemma EntryRemembers(log: seq<Entry>, m: Message, stamp: int)
    ensures AllCommitted(log + [Entry(RealKeys(ReplayKeys(m)), stamp)], m)
  {
    var log' := log + [Entry(RealKeys(ReplayKeys(m)), stamp)];
    ReplayKeysNonEmpty(m);
    assert forall k :: k in ReplayKeys(m) ==> k in log'[|log|].keys;
  }

  lemma StoreEarns(cfg: Config, initial: Seen, w: World, i: nat, bad: Option<Error>)
    requires TaskAt(w, i, 9) && w.tasks[i].phase.Store? && TaskOk(cfg, HistoryOf(initial, w), w.tasks[i])
    requires w.tasks[i].keys == ReplayKeys(w.tasks[i].msg)
    ensures StepEarns(cfg, initial, w, StoreResult(cfg, w, i, bad), i)
  {
    var t, w' := w.tasks[i], StoreResult(cfg, w, i, bad);
    StoredForm(cfg, w, i, bad);
    if bad.None? {
      EntryRemembers(w.log, t.msg, t.phase.stamp);
      EarnedLater(cfg, HistoryOf(initial, w), HistoryOf(initial, w'), t.msg, t.phase.verdict);
    }
  }

  lemma ProcessingEarns(cfg: Config, initial: Seen, w: World, op: Op)
    requires ProcessingOp(op) && Enabled(cfg, w, op) && TaskOk(cfg, HistoryOf(initial, w), w.tasks[op.i])
    requires IndexOk(cfg, w.replay, w.log, w.now, initial) && w.tasks[op.i].keys == ReplayKeys(w.tasks[op.i].msg)
    ensures StepEarns(cfg, initial, w, ApplyProcessing(cfg, w, op), op.i)
  {
    match op
    case ValidateSession(i, bad) => ValidateEarns(cfg, initial, w, i, bad);
    case LookUpReplay(i) => LookUpEarns(cfg, initial, w, i);
    case RememberToken(i, bad) => RememberEarns(cfg, initial, w, i, bad);
    case InvokeHandler(i, result) => InvokeEarns(cfg, initial, w, i, result);
    case ReadClock(i) => ReadClockEarns(cfg, initial, w, i);
    case StoreReplay(i, bad) => StoreEarns(cfg, initial, w, i, bad);
  }

  lemma TaskEarns(cfg: Config, initial: Seen, w: World, op: Op)
    requires TaskOp(op) && Enabled(cfg, w, op) && TaskOk(cfg, HistoryOf(initial, w), w.tasks[op.i])
    requires IndexOk(cfg, w.replay, w.log, w.now, initial) && w.tasks[op.i].keys == ReplayKeys(w.tasks[op.i].msg)
    ensures StepEarns(cfg, initial, w, Apply(cfg, w, op), op.i)
  {
    TaskApplied(cfg, w, op);
    if WaitingOp(op) {
      WaitingEarns(cfg, initial, w, op);
    } else if LeavingOp(op) {
      LeavingEarns(cfg, initial, w, op);
    } else {
      ProcessingEarns(cfg, initial, w, op);
    }
  }

  lemma TaskEarning(cfg: Config, initial: Seen, w: World, op: Op)
    requires Earning(cfg, initial, w) && IndexOk(cfg, w.replay, w.log, w.now, initial)
    requires Indexed(w.tasks, w.hist, w.ids) && TaskOp(op) && Enabled(cfg, w, op)
    ensures Earning(cfg, initial, Apply(cfg, w, op))
  {
    assert Placed(w.tasks[op.i], op.i, w.hist, w.ids) && TaskOk(cfg, HistoryOf(initial, w), w.tasks[op.i]);
    TaskEarns(cfg, initial, w, op);
    SteppedEarning(cfg, initial, w, Apply(cfg, w, op), op.i);
  }

  // ----- crash -----

  /** What a committed batch leaves in the archive. */
  lemma BatchEarned(cfg: Config, h: History, tasks: seq<Task>, hist: seq<Batch>, ids: seq<seq<nat>>, b: nat)
    requires Indexed(tasks, hist, ids) && b < |hist|
    requires forall i :: 0 <= i < |tasks| ==> TaskOk(cfg, h, tasks[i])
    ensures ArchivedOk(cfg, h, Archived(hist[b], Outcomes(tasks, ids[b])))
  {
    forall j | 0 <= j < |ids[b]| && hist[b].messages[j].Some?
      ensures OutcomeOk(cfg, h, hist[b].messages[j].value, tasks[ids[b][j]].outcome)
    {
      assert Placed(tasks[ids[b][j]], ids[b][j], hist, ids) && TaskOk(cfg, h, tasks[ids[b][j]]);
    }
  }

  lemma ArchiveEntry(c: World, k: nat)
    requires IdsInRange(c) && c.led.nextCommitID <= |c.hist| && k < |DeliveryDurability.Archive(c)|
    ensures DeliveryDurability.Archive(c)[k] ==
      if k < |c.past| then c.past[k] else Archived(c.hist[k - |c.past|], Outcomes(c.tasks, c.ids[k - |c.past|]))
  {
  }

  lemma EntryEarned(cfg: Config, initial: Seen, c: World, k: nat)
    requires Earning(cfg, initial, c) && Indexed(c.tasks, c.hist, c.ids) && IdsInRange(c) && c.led.nextCommitID <= |c.hist|
    requires k < |DeliveryDurability.Archive(c)|
    ensures ArchivedOk(cfg, HistoryOf(initial, c), DeliveryDurability.Archive(c)[k])
  {
    ArchiveEntry(c, k);
    if k >= |c.past| {
      BatchEarned(cfg, HistoryOf(initial, c), c.tasks, c.hist, c.ids, k - |c.past|);
    }
  }

  lemma ArchiveEarned(cfg: Config, initial: Seen, c: World)
    requires Earning(cfg, initial, c) && Indexed(c.tasks, c.hist, c.ids) && IdsInRange(c) && c.led.nextCommitID <= |c.hist|
    ensures forall k :: 0 <= k < |DeliveryDurability.Archive(c)| ==>
      ArchivedOk(cfg, HistoryOf(initial, c), DeliveryDurability.Archive(c)[k])
  {
    forall k | 0 <= k < |DeliveryDurability.Archive(c)|
      ensures ArchivedOk(cfg, HistoryOf(initial, c), DeliveryDurability.Archive(c)[k])
    {
      EntryEarned(cfg, initial, c, k);
    }
  }

  lemma ReportEarning(cfg: Config, initial: Seen, w: World, i: nat, n: nat, failAt: Option<nat>)
    requires Earning(cfg, initial, w) && Indexed(w.tasks, w.hist, w.ids) && i < |w.tasks| && w.tasks[i].phase.Report?
    ensures var c := ReportResult(w, i, n, failAt); Earning(cfg, initial, c) && Indexed(c.tasks, c.hist, c.ids)
  {
    var c := ReportResult(w, i, n, failAt);
    MoveKeepsIndex(w.tasks, i, w.tasks[i].(phase := CloseDone), w.hist, w.ids);
    assert TaskOk(cfg, HistoryOf(initial, w), w.tasks[i]);
    NothingNew(cfg, HistoryOf(initial, w), w.tasks[i], c.tasks[i]);
    assert Stepped(w, c, i);
    SteppedEarning(cfg, initial, w, c, i);
  }

  lemma AtCrashEarning(cfg: Config, initial: Seen, w: World, point: CrashPoint)
    requires Earning(cfg, initial, w) && Indexed(w.tasks, w.hist, w.ids)
    ensures var c := AtCrash(w, point); Earning(cfg, initial, c) && Indexed(c.tasks, c.hist, c.ids)
  {
    match point
    case InReport(i, n, failAt) =>
      if i < |w.tasks| && w.tasks[i].phase.Report? { ReportEarning(cfg, initial, w, i, n, failAt); }
    case InRegister(n, failAt) =>
      if w.sub.Registering? { RegisterKeepsIndex(w, n, failAt); }
    case Between =>
  }

  lemma RestartEarning(cfg: Config, initial: Seen, c: World)
    requires Earning(cfg, initial, c) && Indexed(c.tasks, c.hist, c.ids) && IdsInRange(c) && c.led.nextCommitID <= |c.hist|
    ensures Earning(cfg, initial, Restarted(cfg, c))
  {
    ArchiveEarned(cfg, initial, c);
    var r := Restarted(cfg, c);
    assert r.past == DeliveryDurability.Archive(c) && r.log == c.log && r.calls == c.calls && r.tasks == [];
  }

  lemma CrashEarning(cfg: Config, initial: Seen, w: World, point: CrashPoint)
    requires Earning(cfg, initial, w) && Indexed(w.tasks, w.hist, w.ids)
    requires var c := AtCrash(w, point); IdsInRange(c) && c.led.nextCommitID <= |c.hist|
    ensures Earning(cfg, initial, Restarted(cfg, AtCrash(w, point)))
  {
    AtCrashEarning(cfg, initial, w, point);
    RestartEarning(cfg, initial, AtCrash(w, point));
  }

  // ----- every operation -----

  lemma OtherKeepsPast(cfg: Config, w: World, op: Op)
    requires !TaskOp(op) && !op.Crash? && Enabled(cfg, w, op)
    ensures var w' := Apply(cfg, w, op);
      && w'.past == w.past
      && (op.Spawn? ==> |w'.tasks| == |w.tasks| + 1 && w'.tasks[|w.tasks|].outcome == Unresolved && w'.tasks[|w.tasks|].phase == AwaitPrevious)
  {
    if SubmitterOp(op) {
      SubmitterApplied(cfg, w, op);
      SubmitterFrame(cfg, w, op);
      if op.Spawn? { SpawnForm(w); }
    }
  }

  lemma OtherEarning(cfg: Config, initial: Seen, w: World, op: Op)
    requires Earning(cfg, initial, w) && !TaskOp(op) && !op.Crash? && Enabled(cfg, w, op)
    ensures Earning(cfg, initial, Apply(cfg, w, op))
  {
    var w' := Apply(cfg, w, op);
    OtherFrame(cfg, w, op);
    OtherKeepsPast(cfg, w, op);
    forall j | 0 <= j < |w'.tasks| ensures TaskOk(cfg, HistoryOf(initial, w'), w'.tasks[j]) {
      if j < |w.tasks| {
        assert op.Spawn? ==> w'.tasks[..|w.tasks|][j] == w.tasks[j];
      }
    }
  }

  lemma EarningStep(cfg: Config, initial: Seen, w: World, op: Op)
    requires Healthy(cfg, w) && Suppressing(cfg, initial, w) && Earning(cfg, initial, w) && Enabled(cfg, w, op)
    ensures Earning(cfg, initial, Apply(cfg, w, op))
  {
    if TaskOp(op) {
      TaskEarning(cfg, initial, w, op);
    } else if op.Crash? {
      CrashEarning(cfg, initial, w, op.point);
    } else {
      OtherEarning(cfg, initial, w, op);
    }
  }

  lemma {:induction false} RunEarning(cfg: Config, initial: Seen, start: World, ops: seq<Op>)
    requires Healthy(cfg, start) && Suppressing(cfg, initial, start) && Earning(cfg, initial, start) && Run(cfg, start, ops).Some?
    ensures Earning(cfg, initial, Run(cfg, start, ops).value)
    decreases |ops|
  {
    if ops != [] {
      var prior := ops[..|ops| - 1];
      RunEarning(cfg, initial, start, prior);
      RunHealthy(cfg, start, prior);
      RunSuppressing(cfg, initial, start, prior);
      EarningStep(cfg, initial, Run(cfg, start, prior).value, ops[|ops| - 1]);
    }
  }

  function FirstEntries(replayFile: Option<Seen>): Seen {
    if replayFile.Some? then replayFile.value else map[]
  }

  lemma ReachedEarning(cfg: Config, cursorFile: Option<string>, replayFile: Option<Seen>, now: int, ops: seq<Op>, w: World)
    requires Run(cfg, Initial(cfg, cursorFile, replayFile, now), ops) == Some(w)
    ensures Earning(cfg, FirstEntries(replayFile), w) && Indexed(w.tasks, w.hist, w.ids)
  {
    InitialHealthy(cfg, cursorFile, replayFile, now);
    InitialSuppressing(cfg, cursorFile, replayFile, now);
    RunEarning(cfg, FirstEntries(replayFile), Initial(cfg, cursorFile, replayFile, now), ops);
    ReachedParts(cfg, cursorFile, replayFile, now, ops, w);
  }

  /** The other half of losing nothing.  Whatever the interleaving, the crashes
      and the restarts, every message of the committed chain was consumed
      rightly: acknowledged or dropped by a call of the handler with it, no
      user's message, or skipped because its strongest identity had been
      committed before and inside the window or stood in the first file; and
      if it was not skipped, all its identities were committed. */
  lemma EveryVerdictEarned(cfg: Config, cursorFile: Option<string>, replayFile: Option<Seen>, now: int, ops: seq<Op>, w: World)
    requires Run(cfg, Initial(cfg, cursorFile, replayFile, now), ops) == Some(w)
    ensures IdsInRange(w) && w.led.nextCommitID <= |w.hist|
    ensures forall k :: 0 <= k < |DeliveryDurability.Archive(w)| ==>
      && DeliveryDurability.FullyConsumed(DeliveryDurability.Archive(w)[k])
      && ArchivedOk(cfg, HistoryOf(FirstEntries(replayFile), w), DeliveryDurability.Archive(w)[k])
  {
    DeliveryDurability.NoMessageLost(cfg, cursorFile, replayFile, now, ops, w);
    ReachedEarning(cfg, cursorFile, replayFile, now, ops, w);
    ArchiveEarned(cfg, FirstEntries(replayFile), w);
  }
}
