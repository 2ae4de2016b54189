/** The delivery protocol as small steps: the poll loop feeding a queue, the
    single submitting goroutine, one goroutine per scheduled message, and the
    environment (cancellation, the clock, crash and restart).  A `done` channel
    is named by the index of the task that closes it. */
module Delivery {
  import opened Wire
  import opened Replay
  import opened Stores
  import opened Dispatcher

  const ContextCanceled: Error := "context canceled"

  /** The effective handler limit and the replay window. */
  datatype Config = Config(maxActive: nat, ttl: int)

  /** One server response: the cursor it was polled with, the cursor to commit,
      and its messages (None: undecodable). */
  datatype Batch = Batch(servedAt: string, cursor: string, messages: seq<Option<Message>>)

  /** A replay remembers when the index said so. */
  datatype Verdict = Acked | Dropped | NotUser | Replayed(at: int)

  datatype Outcome = Unresolved | Consumed(verdict: Verdict) | Failed | Abandoned

  /** HookFails: the AfterReceive hook fails and the handler is not called. */
  datatype HandlerResult = Ack | Drop | Retry(err: Error) | HookFails(err: Error)

  datatype Phase =
    | AwaitPrevious                                        // select: predecessor's done, ctx
    | FirstCheck
    | AwaitActive                                          // select: active slot, ctx
    | SecondCheck
    | Validate | LookUp | Remember | Invoke                // processWireMessage
    | Stamp(verdict: Verdict)                              // CommitAll reads the clock ...
    | Store(verdict: Verdict, stamp: int)                  // ... and then takes its lock
    | Leave(err: Option<Error>)                            // returned; still holds the active slot
    | Report(reported: Option<Error>, executed: bool)      // about to call complete
    | CloseDone | DropTail | ReleasePending | Finished

  function Rank(p: Phase): nat {
    match p
    case AwaitPrevious => 0
    case FirstCheck => 1
    case AwaitActive => 2
    case SecondCheck => 3
    case Validate => 4
    case LookUp => 5
    case Remember => 6
    case Invoke => 7
    case Stamp(_) => 8
    case Store(_, _) => 9
    case Leave(_) => 10
    case Report(_, _) => 11
    case CloseDone => 12
    case DropTail => 13
    case ReleasePending => 14
    case Finished => 15
  }

  datatype Task = Task(
    batch: nat,
    idx: nat,
    msg: Message,
    key: string,             // conversationKey(msg)
    keys: seq<string>,       // replayKeys(msg)
    previous: Option<nat>,
    phase: Phase,
    outcome: Outcome,
    checkedAt: int)

  /** Inside processWireMessage. */
  predicate Processing(t: Task) { 4 <= Rank(t.phase) <= 9 }

  predicate HoldsActive(t: Task) { 3 <= Rank(t.phase) <= 10 }

  /** complete has not been called for this task yet. */
  predicate Open(t: Task) { Rank(t.phase) <= 11 }

  /** done has been closed. */
  predicate Closed(t: Task) { Rank(t.phase) >= 13 }

  predicate HoldsPending(t: Task) { Rank(t.phase) <= 14 }

  datatype Submitter =
    | Idle
    | Entering(batch: Batch)
    | WantSlot(batch: Batch)
    | Recheck(batch: Batch)
    | Registering(batch: Batch)
    | Scheduling(id: nat, next: nat)
    | Decoding(id: nat, next: nat)
    | WantPending(id: nat, next: nat)
    | Spawning(id: nat, next: nat)
    | DecodeFailed(id: nat, next: nat)
    | Draining

  /** Where the submitter is inside a registered batch. */
  predicate InBatch(s: Submitter) {
    s.Scheduling? || s.Decoding? || s.WantPending? || s.Spawning? || s.DecodeFailed?
  }

  datatype Archived = Archived(batch: Batch, outcomes: seq<Outcome>)

  /** One handler invocation: when the replay index was consulted, how long the
      commit log was when the handler was called, and what it returned. */
  datatype Call = Call(msg: Message, checkedAt: int, logLength: nat, result: HandlerResult)

  datatype World = World(
    // dispatcher
    led: Ledger,
    active: nat,
    pending: nat,
    tails: map<string, nat>,
    tasks: seq<Task>,
    sub: Submitter,
    // poll loop
    queue: seq<Batch>,
    pollCursor: string,
    queueClosed: bool,
    // stores and clock
    replay: Index,
    tokens: map<string, string>,
    now: int,
    // this run: batches by id, and the tasks scheduled for each
    hist: seq<Batch>,
    ids: seq<seq<nat>>,
    startCursor: string,
    // history over all runs
    past: seq<Archived>,
    calls: seq<Call>,
    log: seq<Entry>)

  /** Where a crash strikes: between steps, or after n iterations of an advance
      loop entered from complete or from registering an empty batch. */
  datatype CrashPoint =
    | Between
    | InReport(i: nat, n: nat, failAt: Option<nat>)
    | InRegister(n: nat, failAt: Option<nat>)

  datatype Op =
    | Poll(buf: string, messages: seq<Option<Message>>)
    | CloseQueue
    | Cancel
    | Tick(elapsed: nat)
    | Crash(point: CrashPoint)
    // submitter
    | TakeBatch | StartDrain | Enter | TakeSlot | GiveUpSlot | RecheckCtx
    | Register(failAt: Option<nat>)
    | Next | Decode | GiveUpDecode | TakePending | GiveUpPending | Spawn
    // message goroutines
    | Wake(i: nat) | Abort(i: nat) | CheckFirst(i: nat) | Acquire(i: nat) | CheckSecond(i: nat)
    | ValidateSession(i: nat, bad: Option<Error>)
    | LookUpReplay(i: nat)
    | RememberToken(i: nat, bad: Option<Error>)
    | InvokeHandler(i: nat, result: HandlerResult)
    | ReadClock(i: nat)
    | StoreReplay(i: nat, bad: Option<Error>)
    | LeaveActive(i: nat)
    | ReportDone(i: nat, failAt: Option<nat>)
    | CloseChannel(i: nat) | DeleteTail(i: nat) | ReleaseSlot(i: nat)

  // ----- task steps -----

  function MoveTo(w: World, i: nat, p: Phase): World
    requires i < |w.tasks|
  {
    w.(tasks := w.tasks[i := w.tasks[i].(phase := p)])
  }

  function Resolve(w: World, i: nat, p: Phase, o: Outcome): World
    requires i < |w.tasks|
  {
    w.(tasks := w.tasks[i := w.tasks[i].(phase := p, outcome := o)])
  }

  /** processWireMessage returns. */
  function Return(w: World, i: nat, bad: Option<Error>, v: Verdict): World
    requires i < |w.tasks|
  {
    Resolve(w, i, Leave(bad), if bad.Some? then Failed else Consumed(v))
  }

  predicate PredecessorClosed(w: World, t: Task) {
    t.previous.None? || (t.previous.value < |w.tasks| && Closed(w.tasks[t.previous.value]))
  }

  function LookUpResult(cfg: Config, w: World, i: nat): World
    requires i < |w.tasks|
  {
    var keys := w.tasks[i].keys;
    if keys != [] && SeenKey(w.replay.mem, keys[0], w.now, cfg.ttl) then
      Return(w, i, None, Replayed(w.now))
    else
      w.(tasks := w.tasks[i := w.tasks[i].(phase := Remember, checkedAt := w.now)])
  }

  /** What LookUpResult makes of task t. */
  function LookedUp(cfg: Config, w: World, t: Task): Task {
    if t.keys != [] && SeenKey(w.replay.mem, t.keys[0], w.now, cfg.ttl) then
      t.(phase := Leave(None), outcome := Consumed(Replayed(w.now)))
    else t.(phase := Remember, checkedAt := w.now)
  }

  lemma LookUpForm(cfg: Config, w: World, i: nat)
    requires i < |w.tasks|
    ensures LookUpResult(cfg, w, i) == w.(tasks := w.tasks[i := LookedUp(cfg, w, w.tasks[i])])
  {
  }

  /** After the handler (or in its absence): commit the identities, if any. */
  function AfterHandling(w: World, i: nat, v: Verdict): World
    requires i < |w.tasks|
  {
    if w.tasks[i].keys != [] then MoveTo(w, i, Stamp(v)) else Return(w, i, None, v)
  }

  function RememberResult(w: World, i: nat, bad: Option<Error>): World
    requires i < |w.tasks|
  {
    var m := w.tasks[i].msg;
    var needed := PeerUserID(m) != "" && m.contextToken != "";
    if needed && bad.Some? then Return(w, i, bad, Acked)
    else
      var w1 := if needed then w.(tokens := w.tokens[PeerUserID(m) := m.contextToken]) else w;
      if m.kind == MessageTypeUser then MoveTo(w1, i, Invoke) else AfterHandling(w1, i, NotUser)
  }

  /** What RememberResult makes of task t. */
  function Remembered(t: Task, bad: Option<Error>): Task {
    if PeerUserID(t.msg) != "" && t.msg.contextToken != "" && bad.Some? then t.(phase := Leave(bad), outcome := Failed)
    else if t.msg.kind == MessageTypeUser then t.(phase := Invoke)
    else if t.keys != [] then t.(phase := Stamp(NotUser))
    else t.(phase := Leave(None), outcome := Consumed(NotUser))
  }

  lemma RememberForm(w: World, i: nat, bad: Option<Error>)
    requires i < |w.tasks|
    ensures var w' := RememberResult(w, i, bad);
      w' == w.(tokens := w'.tokens, tasks := w.tasks[i := Remembered(w.tasks[i], bad)])
  {
  }

  function InvokeResult(w: World, i: nat, result: HandlerResult): World
    requires i < |w.tasks|
  {
    var t := w.tasks[i];
    var w1 := w.(calls := w.calls + [Call(t.msg, t.checkedAt, |w.log|, result)]);
    match result
    case Ack => AfterHandling(w1, i, Acked)
    case Drop => AfterHandling(w1, i, Dropped)
    case Retry(err) => Return(w1, i, Some(err), Acked)
    case HookFails(err) => Return(w, i, Some(err), Acked)
  }

  function StoreResult(cfg: Config, w: World, i: nat, bad: Option<Error>): World
    requires i < |w.tasks| && w.tasks[i].phase.Store?
  {
    var t := w.tasks[i];
    var keys := t.keys;
    var w1 := Return(w, i, bad, t.phase.verdict);
    if bad.Some? then w1
    else w1.(replay := ApplyEvent(w.replay, Commit(t.phase.stamp, keys, true), cfg.ttl),
             log := w.log + [Entry(RealKeys(keys), t.phase.stamp)])
  }

  function ReportResult(w: World, i: nat, n: nat, failAt: Option<nat>): World
    requires i < |w.tasks| && w.tasks[i].phase.Report?
  {
    var t := w.tasks[i];
    MoveTo(w, i, CloseDone)
      .(led := AfterComplete(w.led, t.batch, t.phase.reported, t.phase.executed, n, failAt))
  }

  function DeleteTailResult(w: World, i: nat): World
    requires i < |w.tasks|
  {
    var key := w.tasks[i].key;
    var w1 := MoveTo(w, i, ReleasePending);
    if key in w.tails && w.tails[key] == i then w1.(tails := w.tails - {key}) else w1
  }

  // ----- submitter steps -----

  function RegisterResult(w: World, n: nat, failAt: Option<nat>): World
    requires w.sub.Registering?
  {
    var b := w.sub.batch;
    w.(led := AfterRegister(w.led, |b.messages|, b.cursor, n, failAt),
       hist := w.hist + [b],
       ids := w.ids + [[]],
       sub := Scheduling(w.led.nextBatchID, 0))
  }

  function SpawnResult(w: World): World
    requires w.sub.Spawning? && w.sub.id < |w.hist| && w.sub.id < |w.ids|
    requires w.sub.next < |w.hist[w.sub.id].messages| && w.hist[w.sub.id].messages[w.sub.next].Some?
  {
    var b, j := w.sub.id, w.sub.next;
    var m := w.hist[b].messages[j].value;
    var key := ConversationKey(m);
    var previous := if key in w.tails then Some(w.tails[key]) else None;
    var me := |w.tasks|;
    w.(tails := w.tails[key := me],
       tasks := w.tasks + [Task(b, j, m, key, ReplayKeys(m), previous, AwaitPrevious, Unresolved, 0)],
       ids := w.ids[b := w.ids[b] + [me]],
       sub := Scheduling(b, j + 1))
  }

  /** Messages of the current batch that cancelUnscheduled must give back. */
  function GiveBack(w: World, count: int): World
    requires InBatch(w.sub)
  {
    w.(led := AfterCancel(w.led, w.sub.id, count), sub := Draining)
  }

  // ----- crash and restart -----

  function Outcomes(tasks: seq<Task>, ids: seq<nat>): seq<Outcome>
    requires forall j :: 0 <= j < |ids| ==> ids[j] < |tasks|
  {
    seq(|ids|, j requires 0 <= j < |ids| => tasks[ids[j]].outcome)
  }

  predicate IdsInRange(w: World) {
    |w.ids| == |w.hist| && forall b, j :: 0 <= b < |w.ids| && 0 <= j < |w.ids[b]| ==> w.ids[b][j] < |w.tasks|
  }

  /** The batches the current run has committed. */
  function CommittedRun(w: World, upTo: nat): seq<Archived>
    requires IdsInRange(w) && upTo <= |w.hist|
  {
    seq(upTo, b requires 0 <= b < upTo => Archived(w.hist[b], Outcomes(w.tasks, w.ids[b])))
  }

  /** The state reached just before the crash. */
  function AtCrash(w: World, point: CrashPoint): World {
    match point
    case Between => w
    case InReport(i, n, failAt) =>
      if i < |w.tasks| && w.tasks[i].phase.Report? then ReportResult(w, i, n, failAt) else w
    case InRegister(n, failAt) =>
      if w.sub.Registering? then RegisterResult(w, n, failAt) else w
  }

  /** A new process (or a new Run) loads both stores and starts from nothing
      else.  Everything in memory is gone. */
  function Restarted(cfg: Config, w: World): World
    requires IdsInRange(w) && w.led.nextCommitID <= |w.hist|
  {
    var cursor := LoadCursor(w.led.cursor);
    w.(led := Fresh(cursor), active := 0, pending := 0, tails := map[], tasks := [], sub := Idle,
       queue := [], pollCursor := cursor.buf, queueClosed := false,
       replay := ApplyEvent(w.replay, Reload(w.now, true), cfg.ttl),
       hist := [], ids := [], startCursor := cursor.buf,
       past := w.past + CommittedRun(w, w.led.nextCommitID))
  }

  function NextCursor(w: World, buf: string): string {
    if buf != "" then buf else w.pollCursor
  }

  // ----- the transition relation -----

  predicate TaskAt(w: World, i: nat, rank: nat) {
    i < |w.tasks| && Rank(w.tasks[i].phase) == rank
  }

  predicate CurrentMessage(w: World) {
    InBatch(w.sub) && w.sub.id < |w.hist| && w.sub.id < |w.ids| && w.sub.next < |w.hist[w.sub.id].messages|
  }

  predicate Enabled(cfg: Config, w: World, op: Op) {
    match op
    case Poll(buf, messages) =>
      !w.queueClosed && |w.queue| < UpdateQueueCapacity
      && (messages != [] || NextCursor(w, buf) != w.pollCursor)
    case CloseQueue => !w.queueClosed
    case Cancel => true
    case Tick(_) => true
    case Crash(point) => var c := AtCrash(w, point); IdsInRange(c) && c.led.nextCommitID <= |c.hist|
    case TakeBatch => w.sub.Idle? && w.queue != []
    case StartDrain => w.sub.Idle? && (w.led.cancelled || (w.queueClosed && w.queue == []))
    case Enter => w.sub.Entering?
    case TakeSlot => w.sub.WantSlot? && w.led.batchSlots < UpdateQueueCapacity
    case GiveUpSlot => w.sub.WantSlot? && w.led.cancelled
    case RecheckCtx => w.sub.Recheck?
    case Register(_) => w.sub.Registering?
    case Next => w.sub.Scheduling? && w.sub.id < |w.hist|
    case Decode => w.sub.Decoding? && CurrentMessage(w)
    case GiveUpDecode => w.sub.DecodeFailed? && CurrentMessage(w)
    case TakePending => w.sub.WantPending? && w.pending < cfg.maxActive * UpdateQueueCapacity
    case GiveUpPending => w.sub.WantPending? && w.led.cancelled && CurrentMessage(w)
    case Spawn => w.sub.Spawning? && CurrentMessage(w) && w.hist[w.sub.id].messages[w.sub.next].Some?
    case Wake(i) => TaskAt(w, i, 0) && PredecessorClosed(w, w.tasks[i])
    case Abort(i) => w.led.cancelled && (TaskAt(w, i, 0) || TaskAt(w, i, 2))
                     && (TaskAt(w, i, 0) ==> w.tasks[i].previous.Some?)
    case CheckFirst(i) => TaskAt(w, i, 1)
    case Acquire(i) => TaskAt(w, i, 2) && w.active < cfg.maxActive
    case CheckSecond(i) => TaskAt(w, i, 3)
    case ValidateSession(i, _) => TaskAt(w, i, 4)
    case LookUpReplay(i) => TaskAt(w, i, 5)
    case RememberToken(i, _) => TaskAt(w, i, 6)
    case InvokeHandler(i, _) => TaskAt(w, i, 7)
    case ReadClock(i) => TaskAt(w, i, 8)
    case StoreReplay(i, _) => TaskAt(w, i, 9)
    case LeaveActive(i) => TaskAt(w, i, 10)
    case ReportDone(i, _) => TaskAt(w, i, 11)
    case CloseChannel(i) => TaskAt(w, i, 12)
    case DeleteTail(i) => TaskAt(w, i, 13)
    case ReleaseSlot(i) => TaskAt(w, i, 14)
  }

  function Minus1(n: nat): nat { if n > 0 then n - 1 else 0 }

  function ApplySub(w: World, op: Op): World
    requires op.TakeBatch? ==> w.queue != []
    requires op.Enter? ==> w.sub.Entering?
    requires op.TakeSlot? ==> w.sub.WantSlot?
    requires op.RecheckCtx? ==> w.sub.Recheck?
    requires op.Register? ==> w.sub.Registering?
    requires op.Next? ==> w.sub.Scheduling? && w.sub.id < |w.hist|
    requires op.Decode? || op.GiveUpDecode? || op.GiveUpPending? || op.Spawn? ==> CurrentMessage(w)
    requires op.Spawn? ==> w.sub.Spawning? && w.hist[w.sub.id].messages[w.sub.next].Some?
    requires op.TakePending? ==> w.sub.WantPending?
  {
    match op
    case TakeBatch => w.(sub := Entering(w.queue[0]), queue := w.queue[1..])
    case StartDrain => w.(sub := Draining)
    case Enter => w.(sub := if w.led.cancelled then Draining else WantSlot(w.sub.batch))
    case TakeSlot => w.(led := w.led.(batchSlots := w.led.batchSlots + 1), sub := Recheck(w.sub.batch))
    case GiveUpSlot => w.(sub := Draining)
    case RecheckCtx =>
      if w.led.cancelled then w.(led := w.led.(batchSlots := w.led.batchSlots - 1), sub := Draining)
      else w.(sub := Registering(w.sub.batch))
    case Register(failAt) => RegisterResult(w, Live(w.led) + 1, failAt)
    case Next =>
      var left := |w.hist[w.sub.id].messages| - w.sub.next;
      if left <= 0 then w.(sub := Idle)
      else if w.led.cancelled then GiveBack(w, left)
      else w.(sub := Decoding(w.sub.id, w.sub.next))
    case Decode =>
      if w.hist[w.sub.id].messages[w.sub.next].Some? then w.(sub := WantPending(w.sub.id, w.sub.next))
      else
        w.(led := AfterComplete(w.led, w.sub.id, Some("decode incoming message"), true, Live(w.led), None),
           sub := DecodeFailed(w.sub.id, w.sub.next))
    case GiveUpDecode => GiveBack(w, |w.hist[w.sub.id].messages| - w.sub.next - 1)
    case TakePending => w.(pending := w.pending + 1, sub := Spawning(w.sub.id, w.sub.next))
    case GiveUpPending => GiveBack(w, |w.hist[w.sub.id].messages| - w.sub.next)
    case Spawn => SpawnResult(w)
    case _ => w
  }

  /** Before processWireMessage. */
  predicate WaitingOp(op: Op) { op.Wake? || op.Abort? || op.CheckFirst? || op.Acquire? || op.CheckSecond? }

  /** Inside processWireMessage. */
  predicate ProcessingOp(op: Op) {
    op.ValidateSession? || op.LookUpReplay? || op.RememberToken? || op.InvokeHandler? || op.ReadClock? || op.StoreReplay?
  }

  /** After processWireMessage. */
  predicate LeavingOp(op: Op) {
    op.LeaveActive? || op.ReportDone? || op.CloseChannel? || op.DeleteTail? || op.ReleaseSlot?
  }

  function ApplyWaiting(w: World, op: Op): World
    requires WaitingOp(op) && op.i < |w.tasks|
  {
    match op
    case Wake(i) => MoveTo(w, i, FirstCheck)
    case Abort(i) => Resolve(w, i, Report(Some(ContextCanceled), false), Abandoned)
    case CheckFirst(i) =>
      if w.led.cancelled then Resolve(w, i, Report(Some(ContextCanceled), false), Abandoned)
      else MoveTo(w, i, AwaitActive)
    case Acquire(i) => MoveTo(w, i, SecondCheck).(active := w.active + 1)
    case CheckSecond(i) =>
      if w.led.cancelled then
        Resolve(w, i, Report(Some(ContextCanceled), false), Abandoned).(active := Minus1(w.active))
      else MoveTo(w, i, Validate)
  }

  function ApplyProcessing(cfg: Config, w: World, op: Op): World
    requires ProcessingOp(op) && op.i < |w.tasks|
    requires op.StoreReplay? ==> w.tasks[op.i].phase.Store?
    requires op.ReadClock? ==> w.tasks[op.i].phase.Stamp?
  {
    match op
    case ValidateSession(i, bad) => if bad.Some? then Return(w, i, bad, Acked) else MoveTo(w, i, LookUp)
    case LookUpReplay(i) => LookUpResult(cfg, w, i)
    case RememberToken(i, bad) => RememberResult(w, i, bad)
    case InvokeHandler(i, result) => InvokeResult(w, i, result)
    case ReadClock(i) => MoveTo(w, i, Store(w.tasks[i].phase.verdict, w.now))
    case StoreReplay(i, bad) => StoreResult(cfg, w, i, bad)
  }

  function ApplyLeaving(w: World, op: Op): World
    requires LeavingOp(op) && op.i < |w.tasks|
    requires op.ReportDone? ==> w.tasks[op.i].phase.Report?
    requires op.LeaveActive? ==> w.tasks[op.i].phase.Leave?
  {
    match op
    case LeaveActive(i) => MoveTo(w, i, Report(w.tasks[i].phase.err, true)).(active := Minus1(w.active))
    case ReportDone(i, failAt) => ReportResult(w, i, Live(w.led), failAt)
    case CloseChannel(i) => MoveTo(w, i, DropTail)
    case DeleteTail(i) => DeleteTailResult(w, i)
    case ReleaseSlot(i) => MoveTo(w, i, Finished).(pending := Minus1(w.pending))
  }

  /** What a step before processWireMessage makes of task t. */
  function Waited(t: Task, op: Op, cancelled: bool): Task
    requires WaitingOp(op)
  {
    if op.Abort? || (!op.Wake? && !op.Acquire? && cancelled) then
      t.(phase := Report(Some(ContextCanceled), false), outcome := Abandoned)
    else
      t.(phase := if op.Wake? then FirstCheck else if op.CheckFirst? then AwaitActive else if op.Acquire? then SecondCheck else Validate)
  }

  lemma WaitingForm(w: World, op: Op)
    requires WaitingOp(op) && op.i < |w.tasks|
    ensures var w' := ApplyWaiting(w, op);
      w' == w.(tasks := w.tasks[op.i := Waited(w.tasks[op.i], op, w.led.cancelled)], active := w'.active)
  {
  }

  /** What a step after processWireMessage makes of task t. */
  function Left(t: Task, op: Op): Task
    requires LeavingOp(op) && (op.LeaveActive? ==> t.phase.Leave?)
  {
    match op
    case LeaveActive(_) => t.(phase := Report(t.phase.err, true))
    case ReportDone(_, _) => t.(phase := CloseDone)
    case CloseChannel(_) => t.(phase := DropTail)
    case DeleteTail(_) => t.(phase := ReleasePending)
    case ReleaseSlot(_) => t.(phase := Finished)
  }

  lemma LeavingForm(w: World, op: Op)
    requires LeavingOp(op) && op.i < |w.tasks|
    requires (op.ReportDone? ==> w.tasks[op.i].phase.Report?) && (op.LeaveActive? ==> w.tasks[op.i].phase.Leave?)
    ensures var w' := ApplyLeaving(w, op);
      && w' == w.(tasks := w.tasks[op.i := Left(w.tasks[op.i], op)],
                  led := w'.led, active := w'.active, pending := w'.pending, tails := w'.tails)
      && (!op.ReportDone? ==> w'.led == w.led) && (!op.DeleteTail? ==> w'.tails == w.tails)
  {
  }

  predicate EnvironmentOp(op: Op) {
    op.Poll? || op.CloseQueue? || op.Cancel? || op.Tick? || op.Crash?
  }

  predicate SubmitterOp(op: Op) {
    op.TakeBatch? || op.StartDrain? || op.Enter? || op.TakeSlot? || op.GiveUpSlot? || op.RecheckCtx? || op.Register?
    || op.Next? || op.Decode? || op.GiveUpDecode? || op.TakePending? || op.GiveUpPending? || op.Spawn?
  }

  predicate TaskOp(op: Op) { !EnvironmentOp(op) && !SubmitterOp(op) }

  function ApplyEnvironment(cfg: Config, w: World, op: Op): World
    requires EnvironmentOp(op) && Enabled(cfg, w, op)
  {
    match op
    case Poll(buf, messages) =>
      var c := NextCursor(w, buf);
      w.(queue := w.queue + [Batch(w.pollCursor, c, messages)], pollCursor := c)
    case CloseQueue => w.(queueClosed := true)
    case Cancel => w.(led := w.led.(cancelled := true))
    case Tick(elapsed) => w.(now := w.now + elapsed)
    case Crash(point) => Restarted(cfg, AtCrash(w, point))
  }

  function Apply(cfg: Config, w: World, op: Op): World
    requires Enabled(cfg, w, op)
  {
    if EnvironmentOp(op) then ApplyEnvironment(cfg, w, op)
    else if SubmitterOp(op) then ApplySub(w, op)
    else if WaitingOp(op) then ApplyWaiting(w, op)
    else if ProcessingOp(op) then ApplyProcessing(cfg, w, op)
    else ApplyLeaving(w, op)
  }

  /** An operation of a run without cancellation, error or clock movement. */
  predicate CleanOp(op: Op) {
    match op
    case Poll(_, messages) => forall i :: 0 <= i < |messages| ==> messages[i].Some?
    case Cancel => false
    case Tick(elapsed) => elapsed == 0
    case Crash(_) => false
    case Register(failAt) => failAt.None?
    case ValidateSession(_, bad) => bad.None?
    case RememberToken(_, bad) => bad.None?
    case InvokeHandler(_, result) => result.Ack? || result.Drop?
    case StoreReplay(_, bad) => bad.None?
    case ReportDone(_, failAt) => failAt.None?
    case _ => true
  }

  lemma TaskApplied(cfg: Config, w: World, op: Op)
    requires TaskOp(op) && Enabled(cfg, w, op)
    ensures WaitingOp(op) ==> Apply(cfg, w, op) == ApplyWaiting(w, op)
    ensures ProcessingOp(op) ==> Apply(cfg, w, op) == ApplyProcessing(cfg, w, op)
    ensures LeavingOp(op) ==> Apply(cfg, w, op) == ApplyLeaving(w, op)
  {
  }

  lemma InvokeForm(w: World, i: nat, result: HandlerResult)
    requires i < |w.tasks|
    ensures var w' := InvokeResult(w, i, result); w' == w.(tasks := w.tasks[i := w'.tasks[i]], calls := w'.calls)
  {
  }

  lemma StoreForm(cfg: Config, w: World, i: nat, bad: Option<Error>)
    requires i < |w.tasks| && w.tasks[i].phase.Store?
    ensures var w' := StoreResult(cfg, w, i, bad); w' == w.(tasks := w.tasks[i := w'.tasks[i]], replay := w'.replay, log := w'.log)
  {
  }

  lemma ProcessingForm(cfg: Config, w: World, op: Op)
    requires ProcessingOp(op) && Enabled(cfg, w, op)
    ensures var w' := ApplyProcessing(cfg, w, op);
      w' == w.(tasks := w.tasks[op.i := w'.tasks[op.i]], tokens := w'.tokens, replay := w'.replay, calls := w'.calls, log := w'.log)
  {
    match op
    case LookUpReplay(i) => LookUpForm(cfg, w, i);
    case RememberToken(i, bad) => RememberForm(w, i, bad);
    case InvokeHandler(i, result) => InvokeForm(w, i, result);
    case StoreReplay(i, bad) => StoreForm(cfg, w, i, bad);
    case _ =>
  }

  /** What no message goroutine's step touches. */
  lemma TaskFrame(cfg: Config, w: World, op: Op)
    requires TaskOp(op) && Enabled(cfg, w, op)
    ensures var w' := Apply(cfg, w, op);
      && w'.sub == w.sub && w'.queue == w.queue && w'.queueClosed == w.queueClosed && w'.pollCursor == w.pollCursor
      && w'.startCursor == w.startCursor && w'.past == w.past && w'.hist == w.hist && w'.ids == w.ids
      && (!op.ReportDone? ==> w'.led == w.led)
  {
    TaskApplied(cfg, w, op);
    if WaitingOp(op) {
      WaitingForm(w, op);
    } else if ProcessingOp(op) {
      ProcessingForm(cfg, w, op);
    } else {
      LeavingForm(w, op);
    }
  }

  lemma SpawnForm(w: World)
    requires w.sub.Spawning? && CurrentMessage(w) && w.hist[w.sub.id].messages[w.sub.next].Some?
    ensures var w' := SpawnResult(w);
      && w' == w.(tails := w'.tails, tasks := w.tasks + [w'.tasks[|w.tasks|]], ids := w'.ids, sub := Scheduling(w.sub.id, w.sub.next + 1))
      && w'.tasks[|w.tasks|].phase == AwaitPrevious && w'.tasks[|w.tasks|].outcome == Unresolved
  {
  }

  /** What no step of the submitter touches. */
  lemma SubmitterFrame(cfg: Config, w: World, op: Op)
    requires SubmitterOp(op) && Enabled(cfg, w, op)
    ensures var w' := ApplySub(w, op);
      && w' == w.(led := w'.led, pending := w'.pending, tails := w'.tails, tasks := w'.tasks, sub := w'.sub,
                  queue := w'.queue, hist := w'.hist, ids := w'.ids)
      && (!op.Register? ==> w'.hist == w.hist)
      && (!op.Spawn? ==> w'.tasks == w.tasks && w'.tails == w.tails)
      && (!op.Register? && !op.Decode? ==> w'.led.cursor == w.led.cursor && w'.led.nextCommitID == w.led.nextCommitID
                                                && w'.led.cancelled == w.led.cancelled)
  {
    if op.Spawn? {
      SpawnForm(w);
    }
  }

  lemma SubmitterApplied(cfg: Config, w: World, op: Op)
    requires SubmitterOp(op) && Enabled(cfg, w, op)
    ensures Apply(cfg, w, op) == ApplySub(w, op)
  {
  }

  /** The first start, on whatever the two files hold. */
  function Initial(cfg: Config, cursorFile: Option<string>, replayFile: Option<Seen>, now: int): World {
    var cursor := LoadCursor(CursorState("", cursorFile));
    World(Fresh(cursor), 0, 0, map[], [], Idle, [], cursor.buf, false,
          ApplyEvent(Index(map[], replayFile), Reload(now, true), cfg.ttl), map[], now,
          [], [], cursor.buf, [], [], [])
  }

  /** A run is a sequence of enabled operations; None when one is not enabled. */
  function Run(cfg: Config, start: World, ops: seq<Op>): Option<World>
    decreases |ops|
  {
    if ops == [] then Some(start)
    else
      match Run(cfg, start, ops[..|ops| - 1])
      case None => None
      case Some(v) => if Enabled(cfg, v, ops[|ops| - 1]) then Some(Apply(cfg, v, ops[|ops| - 1])) else None
  }
}
