/** Replay suppression over all runs: a delivery whose strongest identity was
    committed within the window never reaches the handler again.  The argument
    rests on conversation serialisation and on replay keys determining their
    conversation. */
module DeliveryReplay {
  import opened Wire
  import opened Replay
  import opened Stores
  import opened Dispatcher
  import opened Delivery
  import opened DeliveryOrder
  import opened DeliveryAccounting

  /** Past the replay check, before the commit. */
  predicate Passed(t: Task) { 6 <= Rank(t.phase) <= 9 }

  /** Every commit still inside the window is in the index, not older. */
  ghost predicate Remembers(m: Seen, log: seq<Entry>, cutoff: int) {
    forall p, k :: 0 <= p < |log| && k in log[p].keys && UnixMilli(log[p].time) >= cutoff
      ==> k in m && m[k] >= UnixMilli(log[p].time)
  }

  /** Every index entry comes from a commit or from the initial file. */
  ghost predicate Justified(m: Seen, log: seq<Entry>, initial: Seen) {
    forall k :: k in m ==> CommittedAs(log, k, m[k]) || (k in initial && initial[k] == m[k])
  }

  ghost predicate CommittedAs(log: seq<Entry>, k: string, milli: int) {
    exists p :: 0 <= p < |log| && k in log[p].keys && UnixMilli(log[p].time) == milli
  }

  /** No commit of k is inside the window that ends at t. */
  ghost predicate Stale(cfg: Config, log: seq<Entry>, k: string, t: int) {
    forall p :: 0 <= p < |log| && k in log[p].keys ==> UnixMilli(log[p].time) < Cutoff(t, cfg.ttl)
  }

  ghost predicate NoLaterThan(log: seq<Entry>, k: string, t: int) {
    forall p :: 0 <= p < |log| && k in log[p].keys ==> log[p].time <= t
  }

  /** What the replay check established and still holds for task t. */
  ghost predicate Guarded(cfg: Config, log: seq<Entry>, now: int, t: Task) {
    && (t.phase.Stamp? || t.phase.Store? ==> t.keys != [])
    && (Passed(t) && t.keys != [] ==> t.checkedAt <= now && Stale(cfg, log, t.keys[0], t.checkedAt))
    && (t.phase.Store? ==> t.phase.stamp <= now && forall k :: k in t.keys ==> NoLaterThan(log, k, t.phase.stamp))
  }

  /** Every commit of the call's strongest identity that preceded the call was
      already outside the window when the index was consulted. */
  ghost predicate CallOk(cfg: Config, log: seq<Entry>, c: Call) {
    c.logLength <= |log|
    && (ReplayKeys(c.msg) != [] ==> Stale(cfg, log[..c.logLength], ReplayKeys(c.msg)[0], c.checkedAt))
  }

  ghost predicate IndexOk(cfg: Config, m: Index, log: seq<Entry>, now: int, initial: Seen) {
    var cutoff := Cutoff(now, cfg.ttl);
    && Remembers(m.mem, log, cutoff) && Justified(m.mem, log, initial)
    && (m.file.None? ==> log == [])
    && (m.file.Some? ==> Remembers(m.file.value, log, cutoff) && Justified(m.file.value, log, initial))
    && (forall p :: 0 <= p < |log| ==> log[p].time <= now)
  }

  ghost predicate Suppressing(cfg: Config, initial: Seen, w: World) {
    && IndexOk(cfg, w.replay, w.log, w.now, initial)
    && (forall i :: 0 <= i < |w.tasks| ==> Guarded(cfg, w.log, w.now, w.tasks[i]))
    && (forall c :: 0 <= c < |w.calls| ==> CallOk(cfg, w.log, w.calls[c]))
  }

  // ----- serialisation -----

  /** Two deliveries inside processWireMessage at once share no identity. */
  lemma ProcessingShareNoKey(w: World, i: nat, j: nat, k: string)
    requires Indexed(w.tasks, w.hist, w.ids) && InOrder(w.tasks)
    requires i < |w.tasks| && j < |w.tasks| && i != j
    requires Processing(w.tasks[i]) && Processing(w.tasks[j])
    requires k in w.tasks[i].keys
    ensures k !in w.tasks[j].keys
  {
    assert Placed(w.tasks[i], i, w.hist, w.ids) && Placed(w.tasks[j], j, w.hist, w.ids);
    if k in w.tasks[j].keys {
      SharedKeySameConversation(w.tasks[i].msg, w.tasks[j].msg, k);
      assert false;
    }
  }

  // ----- the index under commits, ticks and reloads -----

  lemma CommitRemembers(cfg: Config, mem: Seen, log: seq<Entry>, now: int, keys: seq<string>, stamp: int)
    requires Remembers(mem, log, Cutoff(now, cfg.ttl)) && stamp <= now
    requires forall k :: k in RealKeys(keys) ==> NoLaterThan(log, k, stamp)
    ensures Remembers(Committed(mem, keys, stamp, cfg.ttl), log + [Entry(RealKeys(keys), stamp)], Cutoff(now, cfg.ttl))
  {
    var e := Entry(RealKeys(keys), stamp);
    var m, log', cutoff := Committed(mem, keys, stamp, cfg.ttl), log + [e], Cutoff(now, cfg.ttl);
    CutoffMonotone(stamp, now, cfg.ttl);
    forall p, k | 0 <= p < |log'| && k in log'[p].keys && UnixMilli(log'[p].time) >= cutoff
      ensures k in m && m[k] >= UnixMilli(log'[p].time)
    {
      if p < |log| {
        assert log[p] == log'[p];
        if k in e.keys { assert NoLaterThan(log, k, stamp); }
      }
    }
  }

  lemma CommitJustified(mem: Seen, log: seq<Entry>, initial: Seen, keys: seq<string>, stamp: int, ttl: int)
    requires Justified(mem, log, initial)
    ensures Justified(Committed(mem, keys, stamp, ttl), log + [Entry(RealKeys(keys), stamp)], initial)
  {
    var m, log' := Committed(mem, keys, stamp, ttl), log + [Entry(RealKeys(keys), stamp)];
    forall k | k in m ensures CommittedAs(log', k, m[k]) || (k in initial && initial[k] == m[k]) {
      if k in RealKeys(keys) {
        assert k in log'[|log|].keys;
      } else if CommittedAs(log, k, mem[k]) {
        var p :| 0 <= p < |log| && k in log[p].keys && UnixMilli(log[p].time) == mem[k];
        assert k in log'[p].keys;
      }
    }
  }

  lemma CommitKeepsIndex(cfg: Config, ix: Index, log: seq<Entry>, now: int, initial: Seen, keys: seq<string>, stamp: int)
    requires IndexOk(cfg, ix, log, now, initial) && stamp <= now && RealKeys(keys) != {}
    requires forall k :: k in RealKeys(keys) ==> NoLaterThan(log, k, stamp)
    ensures IndexOk(cfg, ApplyEvent(ix, Commit(stamp, keys, true), cfg.ttl), log + [Entry(RealKeys(keys), stamp)], now, initial)
  {
    CommitRemembers(cfg, ix.mem, log, now, keys, stamp);
    CommitJustified(ix.mem, log, initial, keys, stamp, cfg.ttl);
  }

  lemma TickKeepsIndex(cfg: Config, ix: Index, log: seq<Entry>, now: int, later: int, initial: Seen)
    requires IndexOk(cfg, ix, log, now, initial) && now <= later
    ensures IndexOk(cfg, ix, log, later, initial)
  {
    CutoffMonotone(now, later, cfg.ttl);
  }

  lemma ReloadKeepsIndex(cfg: Config, ix: Index, log: seq<Entry>, now: int, initial: Seen)
    requires IndexOk(cfg, ix, log, now, initial)
    ensures IndexOk(cfg, ApplyEvent(ix, Reload(now, true), cfg.ttl), log, now, initial)
  {
  }

  /** A miss proves that no commit of the key is inside the window. */
  lemma MissMeansStale(cfg: Config, ix: Index, log: seq<Entry>, now: int, initial: Seen, k: string)
    requires IndexOk(cfg, ix, log, now, initial) && k != "" && !SeenKey(ix.mem, k, now, cfg.ttl)
    ensures Stale(cfg, log, k, now)
  {
  }

  /** A hit proves that the key was committed inside the window, or stood in
      the file the very first run found. */
  lemma HitMeansCommitted(cfg: Config, ix: Index, log: seq<Entry>, now: int, initial: Seen, k: string)
    requires IndexOk(cfg, ix, log, now, initial) && SeenKey(ix.mem, k, now, cfg.ttl)
    ensures (exists p :: 0 <= p < |log| && k in log[p].keys && UnixMilli(log[p].time) >= Cutoff(now, cfg.ttl))
            || (k in initial && initial[k] >= Cutoff(now, cfg.ttl))
  {
    if CommittedAs(log, k, ix.mem[k]) {
      var p :| 0 <= p < |log| && k in log[p].keys && UnixMilli(log[p].time) == ix.mem[k];
    }
  }

  // ----- guards of the other tasks -----

  lemma CommitKeepsGuard(cfg: Config, log: seq<Entry>, now: int, t: Task, keys: set<string>, stamp: int)
    requires Guarded(cfg, log, now, t)
    requires Passed(t) ==> forall k :: k in t.keys ==> k !in keys
    ensures Guarded(cfg, log + [Entry(keys, stamp)], now, t)
  {
  }

  lemma CommitKeepsCall(cfg: Config, log: seq<Entry>, e: Entry, c: Call)
    requires CallOk(cfg, log, c)
    ensures CallOk(cfg, log + [e], c)
  {
    assert (log + [e])[..c.logLength] == log[..c.logLength];
  }

  lemma TickKeepsGuard(cfg: Config, log: seq<Entry>, now: int, later: int, t: Task)
    requires Guarded(cfg, log, now, t) && now <= later
    ensures Guarded(cfg, log, later, t)
  {
  }

  // ----- every operation -----

  lemma StoreShape(cfg: Config, w: World, i: nat)
    requires i < |w.tasks| && w.tasks[i].phase.Store?
    ensures var t, w' := w.tasks[i], StoreResult(cfg, w, i, None);
            && |w'.tasks| == |w.tasks| && w'.tasks == w.tasks[i := w'.tasks[i]] && w'.tasks[i].phase.Leave?
            && w'.replay == ApplyEvent(w.replay, Commit(t.phase.stamp, t.keys, true), cfg.ttl)
            && w'.log == w.log + [Entry(RealKeys(t.keys), t.phase.stamp)]
            && w'.calls == w.calls && w'.now == w.now
  {
  }

  lemma StoreKeepsGuards(cfg: Config, w: World, i: nat, j: nat, stamp: int)
    requires Indexed(w.tasks, w.hist, w.ids) && InOrder(w.tasks)
    requires i < |w.tasks| && j < |w.tasks| && i != j && Processing(w.tasks[i])
    requires Guarded(cfg, w.log, w.now, w.tasks[j])
    ensures Guarded(cfg, w.log + [Entry(RealKeys(w.tasks[i].keys), stamp)], w.now, w.tasks[j])
  {
    if Passed(w.tasks[j]) {
      forall k | k in w.tasks[j].keys ensures k !in RealKeys(w.tasks[i].keys) {
        ProcessingShareNoKey(w, j, i, k);
      }
    }
    CommitKeepsGuard(cfg, w.log, w.now, w.tasks[j], RealKeys(w.tasks[i].keys), stamp);
  }

  lemma StoreKeepsIndex(cfg: Config, initial: Seen, w: World, i: nat)
    requires IndexOk(cfg, w.replay, w.log, w.now, initial)
    requires i < |w.tasks| && w.tasks[i].phase.Store? && Guarded(cfg, w.log, w.now, w.tasks[i])
    requires w.tasks[i].keys == ReplayKeys(w.tasks[i].msg)
    ensures var w' := StoreResult(cfg, w, i, None); IndexOk(cfg, w'.replay, w'.log, w'.now, initial)
  {
    var t := w.tasks[i];
    StoreShape(cfg, w, i);
    ReplayKeysNonEmpty(t.msg);
    assert t.keys[0] in RealKeys(t.keys);
    CommitKeepsIndex(cfg, w.replay, w.log, w.now, initial, t.keys, t.phase.stamp);
  }

  /** Task i has committed its identities at this time; the index aside. */
  ghost predicate Commits(w: World, w': World, i: nat, stamp: int) {
    && i < |w.tasks| == |w'.tasks| && Processing(w.tasks[i])
    && w'.tasks == w.tasks[i := w'.tasks[i]] && w'.tasks[i].phase.Leave?
    && w'.log == w.log + [Entry(RealKeys(w.tasks[i].keys), stamp)] && w'.calls == w.calls && w'.now == w.now
  }

  lemma StoreCommits(cfg: Config, w: World, i: nat)
    requires i < |w.tasks| && w.tasks[i].phase.Store?
    ensures Commits(w, StoreResult(cfg, w, i, None), i, w.tasks[i].phase.stamp)
  {
    StoreShape(cfg, w, i);
  }

  lemma StoreSuppressing(cfg: Config, initial: Seen, w: World, i: nat)
    requires Suppressing(cfg, initial, w) && Indexed(w.tasks, w.hist, w.ids) && InOrder(w.tasks)
    requires i < |w.tasks| && w.tasks[i].phase.Store?
    ensures Suppressing(cfg, initial, StoreResult(cfg, w, i, None))
  {
    assert Placed(w.tasks[i], i, w.hist, w.ids) && Guarded(cfg, w.log, w.now, w.tasks[i]);
    StoreCommits(cfg, w, i);
    StoreKeepsIndex(cfg, initial, w, i);
    CommittedSuppressing(cfg, initial, w, StoreResult(cfg, w, i, None), i, w.tasks[i].phase.stamp);
  }

  lemma CommittedSuppressing(cfg: Config, initial: Seen, w: World, w': World, i: nat, stamp: int)
    requires Suppressing(cfg, initial, w) && Indexed(w.tasks, w.hist, w.ids) && InOrder(w.tasks)
    requires Commits(w, w', i, stamp) && IndexOk(cfg, w'.replay, w'.log, w'.now, initial)
    ensures Suppressing(cfg, initial, w')
  {
    forall j | 0 <= j < |w'.tasks| ensures Guarded(cfg, w'.log, w'.now, w'.tasks[j]) {
      if j != i {
        StoreKeepsGuards(cfg, w, i, j, stamp);
      }
    }
    forall c | 0 <= c < |w'.calls| ensures CallOk(cfg, w'.log, w'.calls[c]) {
      CommitKeepsCall(cfg, w.log, Entry(RealKeys(w.tasks[i].keys), stamp), w.calls[c]);
    }
  }

  /** Any other step of task i: the log and the index stand still. */
  ghost predicate Quieted(cfg: Config, w: World, w': World, i: nat) {
    && i < |w.tasks| == |w'.tasks| && w'.tasks == w.tasks[i := w'.tasks[i]] && Guarded(cfg, w.log, w.now, w'.tasks[i])
    && w'.replay == w.replay && w'.log == w.log && w'.now == w.now
    && (w'.calls == w.calls || (|w'.calls| == |w.calls| + 1 && w'.calls[..|w.calls|] == w.calls && CallOk(cfg, w.log, w'.calls[|w.calls|])))
  }

  lemma QuietSuppressing(cfg: Config, initial: Seen, w: World, w': World, i: nat)
    requires Suppressing(cfg, initial, w) && Quieted(cfg, w, w', i)
    ensures Suppressing(cfg, initial, w')
  {
    forall j | 0 <= j < |w'.tasks| ensures Guarded(cfg, w'.log, w'.now, w'.tasks[j]) {
      assert Guarded(cfg, w.log, w.now, w.tasks[j]);
    }
    forall c | 0 <= c < |w'.calls| ensures CallOk(cfg, w'.log, w'.calls[c]) {
      if c < |w.calls| { assert w'.calls[..|w.calls|][c] == w.calls[c]; }
    }
  }

  lemma LookUpQuiet(cfg: Config, initial: Seen, w: World, i: nat)
    requires IndexOk(cfg, w.replay, w.log, w.now, initial) && TaskAt(w, i, 5) && w.tasks[i].keys == ReplayKeys(w.tasks[i].msg)
    ensures Quieted(cfg, w, LookUpResult(cfg, w, i), i)
  {
    var t := w.tasks[i];
    LookUpForm(cfg, w, i);
    ReplayKeysNonEmpty(t.msg);
    if t.keys != [] && !SeenKey(w.replay.mem, t.keys[0], w.now, cfg.ttl) {
      assert t.keys[0] in t.keys;
      MissMeansStale(cfg, w.replay, w.log, w.now, initial, t.keys[0]);
    }
  }

  lemma InvokeQuiet(cfg: Config, w: World, i: nat, result: HandlerResult)
    requires TaskAt(w, i, 7) && w.tasks[i].keys == ReplayKeys(w.tasks[i].msg) && Guarded(cfg, w.log, w.now, w.tasks[i])
    ensures Quieted(cfg, w, InvokeResult(w, i, result), i)
  {
    var t, w' := w.tasks[i], InvokeResult(w, i, result);
    assert w.log[..|w.log|] == w.log;
    assert w'.calls == if result.HookFails? then w.calls else w.calls + [Call(t.msg, t.checkedAt, |w.log|, result)];
  }

  lemma GuardKept(cfg: Config, log: seq<Entry>, now: int, t: Task, t': Task)
    requires Guarded(cfg, log, now, t) && t'.keys == t.keys && t'.checkedAt == t.checkedAt
    requires Passed(t') ==> Passed(t)
    requires !t'.phase.Store? && (t'.phase.Stamp? ==> t.keys != [])
    ensures Guarded(cfg, log, now, t')
  {
  }

  lemma RememberQuiet(cfg: Config, w: World, i: nat, bad: Option<Error>)
    requires TaskAt(w, i, 6) && Guarded(cfg, w.log, w.now, w.tasks[i])
    ensures Quieted(cfg, w, RememberResult(w, i, bad), i)
  {
    RememberForm(w, i, bad);
    GuardKept(cfg, w.log, w.now, w.tasks[i], Remembered(w.tasks[i], bad));
  }

  lemma ReadClockQuiet(cfg: Config, w: World, i: nat)
    requires i < |w.tasks| && w.tasks[i].phase.Stamp? && Guarded(cfg, w.log, w.now, w.tasks[i])
    requires forall p :: 0 <= p < |w.log| ==> w.log[p].time <= w.now
    ensures Quieted(cfg, w, MoveTo(w, i, Store(w.tasks[i].phase.verdict, w.now)), i)
  {
  }

  /** Steps outside the replay window neither enter nor extend a guard. */
  predicate OutsideOp(op: Op) {
    WaitingOp(op) || LeavingOp(op) || op.ValidateSession? || (op.StoreReplay? && op.bad.Some?)
  }

  /** Task i has left, or is not in, the replay window; nothing else that
      matters changed. */
  predicate Outside(w: World, w': World, i: nat) {
    && i < |w.tasks| == |w'.tasks| && w'.tasks == w.tasks[i := w'.tasks[i]] && !Passed(w'.tasks[i])
    && w'.replay == w.replay && w'.log == w.log && w'.now == w.now && w'.calls == w.calls
  }

  lemma OutsideQuiet(cfg: Config, w: World, w': World, i: nat)
    requires Outside(w, w', i)
    ensures Quieted(cfg, w, w', i)
  {
  }

  lemma WaitingOutside(cfg: Config, w: World, op: Op)
    requires WaitingOp(op) && Enabled(cfg, w, op)
    ensures Outside(w, ApplyWaiting(w, op), op.i)
  {
    WaitingForm(w, op);
  }

  lemma LeavingOutside(cfg: Config, w: World, op: Op)
    requires LeavingOp(op) && Enabled(cfg, w, op)
    ensures Outside(w, ApplyLeaving(w, op), op.i)
  {
    LeavingForm(w, op);
  }

  lemma ReturnOutside(cfg: Config, w: World, op: Op)
    requires ProcessingOp(op) && OutsideOp(op) && Enabled(cfg, w, op)
    ensures Outside(w, ApplyProcessing(cfg, w, op), op.i)
  {
  }

  lemma OutsideFrame(cfg: Config, w: World, op: Op)
    requires OutsideOp(op) && Enabled(cfg, w, op)
    ensures Outside(w, Apply(cfg, w, op), op.i)
  {
    TaskApplied(cfg, w, op);
    if WaitingOp(op) {
      WaitingOutside(cfg, w, op);
    } else if LeavingOp(op) {
      LeavingOutside(cfg, w, op);
    } else {
      ReturnOutside(cfg, w, op);
    }
  }

  predicate WindowOp(cfg: Config, w: World, op: Op) {
    ProcessingOp(op) && !OutsideOp(op) && Enabled(cfg, w, op)
  }

  /** The functions behind the steps inside the window. */
  function WindowResult(cfg: Config, w: World, op: Op): World
    requires WindowOp(cfg, w, op)
  {
    match op
    case LookUpReplay(i) => LookUpResult(cfg, w, i)
    case RememberToken(i, bad) => RememberResult(w, i, bad)
    case InvokeHandler(i, result) => InvokeResult(w, i, result)
    case ReadClock(i) => MoveTo(w, i, Store(w.tasks[i].phase.verdict, w.now))
    case StoreReplay(i, bad) => StoreResult(cfg, w, i, None)
  }

  lemma WindowApplied(cfg: Config, w: World, op: Op)
    requires WindowOp(cfg, w, op)
    ensures Apply(cfg, w, op) == WindowResult(cfg, w, op)
  {
  }

  lemma WindowQuiet(cfg: Config, initial: Seen, w: World, op: Op)
    requires WindowOp(cfg, w, op) && !op.StoreReplay? && IndexOk(cfg, w.replay, w.log, w.now, initial)
    requires w.tasks[op.i].keys == ReplayKeys(w.tasks[op.i].msg) && Guarded(cfg, w.log, w.now, w.tasks[op.i])
    ensures Quieted(cfg, w, WindowResult(cfg, w, op), op.i)
  {
    match op
    case LookUpReplay(i) => LookUpQuiet(cfg, initial, w, i);
    case RememberToken(i, bad) => RememberQuiet(cfg, w, i, bad);
    case InvokeHandler(i, result) => InvokeQuiet(cfg, w, i, result);
    case ReadClock(i) => ReadClockQuiet(cfg, w, i);
  }

  lemma WindowSuppressing(cfg: Config, initial: Seen, w: World, op: Op)
    requires Suppressing(cfg, initial, w) && Indexed(w.tasks, w.hist, w.ids) && InOrder(w.tasks)
    requires WindowOp(cfg, w, op)
    ensures Suppressing(cfg, initial, WindowResult(cfg, w, op))
  {
    if op.StoreReplay? {
      StoreSuppressing(cfg, initial, w, op.i);
    } else {
      assert Placed(w.tasks[op.i], op.i, w.hist, w.ids) && Guarded(cfg, w.log, w.now, w.tasks[op.i]);
      WindowQuiet(cfg, initial, w, op);
      QuietSuppressing(cfg, initial, w, WindowResult(cfg, w, op), op.i);
    }
  }

  lemma TaskSuppressing(cfg: Config, initial: Seen, w: World, op: Op)
    requires Suppressing(cfg, initial, w) && Indexed(w.tasks, w.hist, w.ids) && InOrder(w.tasks)
    requires TaskOp(op) && Enabled(cfg, w, op)
    ensures Suppressing(cfg, initial, Apply(cfg, w, op))
  {
    if OutsideOp(op) {
      OutsideFrame(cfg, w, op);
      OutsideQuiet(cfg, w, Apply(cfg, w, op), op.i);
      QuietSuppressing(cfg, initial, w, Apply(cfg, w, op), op.i);
    } else {
      WindowApplied(cfg, w, op);
      WindowSuppressing(cfg, initial, w, op);
    }
  }

  lemma EnvironmentFrame(cfg: Config, w: World, op: Op)
    requires EnvironmentOp(op) && Enabled(cfg, w, op)
    ensures var w' := Apply(cfg, w, op);
            && w'.log == w.log && w'.calls == w.calls && w'.now == (if op.Tick? then w.now + op.elapsed else w.now)
            && w'.replay == (if op.Crash? then ApplyEvent(w.replay, Reload(w.now, true), cfg.ttl) else w.replay)
            && w'.tasks == (if op.Crash? then [] else w.tasks)
  {
  }

  lemma OtherFrame(cfg: Config, w: World, op: Op)
    requires !TaskOp(op) && Enabled(cfg, w, op)
    ensures var w' := Apply(cfg, w, op);
            && w'.log == w.log && w'.calls == w.calls && w'.now == (if op.Tick? then w.now + op.elapsed else w.now)
            && w'.replay == (if op.Crash? then ApplyEvent(w.replay, Reload(w.now, true), cfg.ttl) else w.replay)
            && (op.Crash? ==> w'.tasks == [])
            && (op.Spawn? ==> |w'.tasks| == |w.tasks| + 1 && w'.tasks[..|w.tasks|] == w.tasks && !Passed(w'.tasks[|w.tasks|]))
            && (!op.Crash? && !op.Spawn? ==> w'.tasks == w.tasks)
  {
    if EnvironmentOp(op) {
      EnvironmentFrame(cfg, w, op);
    } else {
      SubmitterApplied(cfg, w, op);
      SubmitterFrame(cfg, w, op);
      if op.Spawn? { SpawnForm(w); }
    }
  }

  lemma OtherSuppressing(cfg: Config, initial: Seen, w: World, op: Op)
    requires Suppressing(cfg, initial, w) && !TaskOp(op) && Enabled(cfg, w, op)
    ensures Suppressing(cfg, initial, Apply(cfg, w, op))
  {
    var w' := Apply(cfg, w, op);
    OtherFrame(cfg, w, op);
    ReloadKeepsIndex(cfg, w.replay, w.log, w.now, initial);
    TickKeepsIndex(cfg, w.replay, w.log, w.now, w'.now, initial);
    forall j | 0 <= j < |w'.tasks| ensures Guarded(cfg, w'.log, w'.now, w'.tasks[j]) {
      if j < |w.tasks| {
        assert op.Spawn? ==> w'.tasks[..|w.tasks|][j] == w.tasks[j];
        TickKeepsGuard(cfg, w.log, w.now, w'.now, w.tasks[j]);
      }
    }
  }

  lemma SuppressingStep(cfg: Config, initial: Seen, w: World, op: Op)
    requires Healthy(cfg, w) && Suppressing(cfg, initial, w) && Enabled(cfg, w, op)
    ensures Suppressing(cfg, initial, Apply(cfg, w, op))
  {
    if TaskOp(op) {
      TaskSuppressing(cfg, initial, w, op);
    } else {
      OtherSuppressing(cfg, initial, w, op);
    }
  }

  lemma {:induction false} RunSuppressing(cfg: Config, initial: Seen, start: World, ops: seq<Op>)
    requires Healthy(cfg, start) && Suppressing(cfg, initial, start) && Run(cfg, start, ops).Some?
    ensures Suppressing(cfg, initial, Run(cfg, start, ops).value)
    decreases |ops|
  {
    if ops != [] {
      var prior := ops[..|ops| - 1];
      RunSuppressing(cfg, initial, start, prior);
      RunHealthy(cfg, start, prior);
      SuppressingStep(cfg, initial, Run(cfg, start, prior).value, ops[|ops| - 1]);
    }
  }

  lemma InitialSuppressing(cfg: Config, cursorFile: Option<string>, replayFile: Option<Seen>, now: int)
    ensures Suppressing(cfg, if replayFile.Some? then replayFile.value else map[], Initial(cfg, cursorFile, replayFile, now))
  {
  }

  /** Whatever the interleaving, the crashes and the restarts: when the handler
      is called, every earlier commit that named the delivery's strongest
      identity had already left the window when the index was consulted. */
  lemma HandledOncePerWindow(cfg: Config, cursorFile: Option<string>, replayFile: Option<Seen>, now: int,
                             ops: seq<Op>, w: World, c: nat, p: nat)
    requires Run(cfg, Initial(cfg, cursorFile, replayFile, now), ops) == Some(w)
    requires c < |w.calls| && ReplayKeys(w.calls[c].msg) != []
    requires p < w.calls[c].logLength && p < |w.log| && ReplayKeys(w.calls[c].msg)[0] in w.log[p].keys
    ensures UnixMilli(w.log[p].time) < UnixMilli(w.calls[c].checkedAt - cfg.ttl)
  {
    var start := Initial(cfg, cursorFile, replayFile, now);
    InitialHealthy(cfg, cursorFile, replayFile, now);
    InitialSuppressing(cfg, cursorFile, replayFile, now);
    RunSuppressing(cfg, if replayFile.Some? then replayFile.value else map[], start, ops);
    assert CallOk(cfg, w.log, w.calls[c]);
    assert w.log[..w.calls[c].logLength][p] == w.log[p];
  }

  /** Two deliveries that share an identity are never in the handler together. */
  lemma NeverHandledTogether(cfg: Config, cursorFile: Option<string>, replayFile: Option<Seen>, now: int,
                             ops: seq<Op>, w: World, i: nat, j: nat)
    requires Run(cfg, Initial(cfg, cursorFile, replayFile, now), ops) == Some(w)
    requires i < |w.tasks| && j < |w.tasks| && i != j
    requires w.tasks[i].phase.Invoke? && w.tasks[j].phase.Invoke?
    ensures forall k :: k in ReplayKeys(w.tasks[i].msg) ==> k !in ReplayKeys(w.tasks[j].msg)
    ensures ConversationKey(w.tasks[i].msg) != ConversationKey(w.tasks[j].msg)
  {
    ReachedParts(cfg, cursorFile, replayFile, now, ops, w);
    ProcessingApart(w, i, j);
  }

  lemma ReachedParts(cfg: Config, cursorFile: Option<string>, replayFile: Option<Seen>, now: int, ops: seq<Op>, w: World)
    requires Run(cfg, Initial(cfg, cursorFile, replayFile, now), ops) == Some(w)
    ensures Indexed(w.tasks, w.hist, w.ids) && InOrder(w.tasks)
  {
    InitialHealthy(cfg, cursorFile, replayFile, now);
    RunHealthy(cfg, Initial(cfg, cursorFile, replayFile, now), ops);
  }

  lemma ProcessingApart(w: World, i: nat, j: nat)
    requires Indexed(w.tasks, w.hist, w.ids) && InOrder(w.tasks)
    requires i < |w.tasks| && j < |w.tasks| && i != j
    requires Processing(w.tasks[i]) && Processing(w.tasks[j])
    ensures forall k :: k in ReplayKeys(w.tasks[i].msg) ==> k !in ReplayKeys(w.tasks[j].msg)
    ensures ConversationKey(w.tasks[i].msg) != ConversationKey(w.tasks[j].msg)
  {
    assert Placed(w.tasks[i], i, w.hist, w.ids) && Placed(w.tasks[j], j, w.hist, w.ids);
    forall k | k in ReplayKeys(w.tasks[i].msg) ensures k !in ReplayKeys(w.tasks[j].msg) {
      ProcessingShareNoKey(w, i, j, k);
    }
  }
}
