/** What a marker that is read as an error costs: the state published in its
    place knows only what the bot was configured with, so the record on disk
    survives every run exactly when it says no more than that. */
module SessionMisread {
  import opened Wire
  import opened Session
  import opened SessionSafety
  import opened SessionTheorems

  function StartPath(cfg: Config): Path { Boot(cfg, 0, Disk(Absent, None, map[])).ctxPath }

  /** The record names no token, no account but the configured one, and no file
      but the one every process starts with. */
  predicate OwnRecord(cfg: Config, r: Record) {
    r.sha == Nothing && (r.account == "" || r.account == cfg.account) && r.paths <= {StartPath(cfg)}
  }

  /** What every published state carries, however it came about. */
  predicate Carries(cfg: Config, p: Pending) {
    StartPath(cfg) in p.paths && (cfg.account != "" ==> p.account == cfg.account)
  }

  ghost predicate AllCarry(cfg: Config, states: seq<Pending>) {
    forall k :: 0 <= k < |states| ==> Carries(cfg, states[k])
  }

  /** No session has been installed since the start. */
  ghost predicate Fallow(cfg: Config, w: World) {
    && w.creds.None? && AllCarry(cfg, w.states)
    && (w.reauth.None? ==> w.ctxPath == StartPath(cfg) && w.account == cfg.account)
  }

  ghost predicate Holds(d: Disk, r: Record) { d.marker.Present? && Grows(r, d.marker.rec) }

  ghost predicate Keeps(cfg: Config, r: Record, w: World) { Fallow(cfg, w) && Holds(w.disk, r) }

  lemma CarriedHolds(cfg: Config, r: Record, d: Disk, p: Pending, ok: bool)
    requires OwnRecord(cfg, r) && Carries(cfg, p) && Holds(d, r)
    ensures Holds(Marked(d, p, ok), r)
  {
  }

  lemma CarryOne(cfg: Config, states: seq<Pending>, k: nat, p: Pending)
    requires AllCarry(cfg, states) && Carries(cfg, p) && k < |states|
    ensures AllCarry(cfg, states[k := p])
  {
  }

  lemma PublishKeeps(cfg: Config, r: Record, w: World, p: Pending, holder: Holder, login: Login)
    requires OwnRecord(cfg, r) && Keeps(cfg, r, w) && Carries(cfg, p)
    ensures Keeps(cfg, r, Publish(w, p, holder, login))
  {
    CarriedHolds(cfg, r, w.disk, p, p.markOk);
  }

  lemma AdoptKeeps(cfg: Config, r: Record, w: World, valid: bool, markOk: bool)
    requires OwnRecord(cfg, r) && Keeps(cfg, r, w) && w.login.LAdopt?
    ensures Keeps(cfg, r, AdoptResult(cfg, w, valid, markOk))
  {
    var p := AdoptedState(cfg, w, w.login.rec, true);
    var cleaning := LCleaning(Cleanup(|w.states|, p.paths, false), ToRestored(w.login.force));
    if w.reauth.None? && (w.account == "" || w.login.rec.account == "" || w.account == w.login.rec.account) {
      PublishKeeps(cfg, r, w, p, ByLogin, cleaning);
    }
  }

  lemma AnonymousKeeps(cfg: Config, r: Record, w: World, readable: bool, markOk: bool)
    requires OwnRecord(cfg, r) && Keeps(cfg, r, w) && w.login.LAnonymous?
    ensures Keeps(cfg, r, AnonymousResult(w, readable, markOk))
  {
    if w.reauth.None? {
      var p := StateWithoutCredentials(w, readable, markOk);
      PublishKeeps(cfg, r, w, p, ByLogin, LCleaning(Cleanup(|w.states|, p.paths, !markOk), w.login.after));
    }
  }

  lemma RetryKeeps(cfg: Config, r: Record, w: World, readable: bool, markOk: bool)
    requires OwnRecord(cfg, r) && Keeps(cfg, r, w) && w.login.LRetry? && w.login.previous < |w.states|
    ensures Keeps(cfg, r, RetryResult(w, readable, markOk))
  {
    assert Carries(cfg, w.states[w.login.previous]);
    var p := RetriedState(w, w.states[w.login.previous], readable, markOk);
    PublishKeeps(cfg, r, w, p, ByLogin, LCleaning(Cleanup(|w.states|, p.paths, !markOk), ToRetried));
  }

  lemma PublishOpKeeps(cfg: Config, r: Record, w: World, op: Op)
    requires OwnRecord(cfg, r) && Keeps(cfg, r, w) && PublishOp(op) && Enabled(cfg, w, op)
    ensures Keeps(cfg, r, ApplyPublish(cfg, w, op))
  {
    match op
    case Adopt(valid, markOk) => AdoptKeeps(cfg, r, w, valid, markOk);
    case GoAnonymous(readable, markOk) => AnonymousKeeps(cfg, r, w, readable, markOk);
    case Retry(readable, markOk) => RetryKeeps(cfg, r, w, readable, markOk);
    case InvalidateOwn(_) =>
  }

  lemma CleanupKeeps(cfg: Config, r: Record, w: World, op: Op)
    requires Keeps(cfg, r, w) && CleanupOp(op) && Enabled(cfg, w, op)
    ensures Keeps(cfg, r, ApplyCleanup(cfg, w, op))
  {
  }

  lemma LookKeeps(cfg: Config, r: Record, w: World, op: Op)
    requires Keeps(cfg, r, w) && LookOp(op) && Enabled(cfg, w, op)
    ensures Keeps(cfg, r, ApplyLook(cfg, w, op))
  {
    LookShape(cfg, w, op);
  }

  lemma AcquireKeeps(cfg: Config, r: Record, w: World, op: Op)
    requires Keeps(cfg, r, w) && AcquireOp(op) && Enabled(cfg, w, op)
    ensures Keeps(cfg, r, ApplyAcquire(cfg, w, op))
  {
    AcquireShape(cfg, w, op);
  }

  /** Marking the extended path set before clearing. */
  lemma LockKeeps(cfg: Config, r: Record, w: World, ok: bool)
    requires OwnRecord(cfg, r) && Keeps(cfg, r, w) && Enabled(cfg, w, LockSession(ok))
    ensures Keeps(cfg, r, LockSessionResult(w, ok))
  {
    if w.login.force && w.login.target.Some? {
      var sid := w.login.target.value;
      var p' := w.states[sid].(paths := w.states[sid].paths + {w.login.path});
      assert Carries(cfg, w.states[sid]);
      CarryOne(cfg, w.states, sid, p');
      CarriedHolds(cfg, r, w.disk, p', ok);
    }
  }

  lemma InstallOpKeeps(cfg: Config, r: Record, w: World, op: Op)
    requires OwnRecord(cfg, r) && Keeps(cfg, r, w) && InstallOp(op) && !op.Install? && Enabled(cfg, w, op)
    ensures Keeps(cfg, r, ApplyInstall(cfg, w, op))
  {
    if op.LockSession? {
      LockKeeps(cfg, r, w, op.ok);
    }
  }

  lemma OtherKeeps(cfg: Config, r: Record, w: World, op: Op)
    requires Keeps(cfg, r, w) && OtherOp(op) && Enabled(cfg, w, op)
    ensures Keeps(cfg, r, ApplyOther(cfg, w, op))
  {
  }

  lemma KeepsStep(cfg: Config, r: Record, w: World, op: Op)
    requires OwnRecord(cfg, r) && Keeps(cfg, r, w) && Enabled(cfg, w, op) && !op.Install?
    ensures Keeps(cfg, r, Apply(cfg, w, op))
  {
    if PublishOp(op) {
      PublishOpKeeps(cfg, r, w, op);
    } else if CleanupOp(op) {
      CleanupKeeps(cfg, r, w, op);
    } else if LookOp(op) {
      LookKeeps(cfg, r, w, op);
    } else if AcquireOp(op) {
      AcquireKeeps(cfg, r, w, op);
    } else if InstallOp(op) {
      InstallOpKeeps(cfg, r, w, op);
    } else {
      OtherKeeps(cfg, r, w, op);
    }
  }

  predicate NoInstall(ops: seq<Op>) { forall i :: 0 <= i < |ops| ==> !ops[i].Install? }

  lemma {:induction false} RunKeeps(cfg: Config, process: nat, disk: Disk, r: Record, ops: seq<Op>)
    requires OwnRecord(cfg, r) && disk.marker == Present(r) && NoInstall(ops)
    requires Run(cfg, Boot(cfg, process, disk), ops).Some?
    ensures Keeps(cfg, r, Run(cfg, Boot(cfg, process, disk), ops).value)
    decreases |ops|
  {
    if ops != [] {
      var early := ops[..|ops| - 1];
      RunKeeps(cfg, process, disk, r, early);
      KeepsStep(cfg, r, Run(cfg, Boot(cfg, process, disk), early).value, ops[|ops| - 1]);
    }
  }

  // ----- the run that forgets -----

  /** w is reached from start without an install. */
  ghost predicate Gets(cfg: Config, start: World, w: World) {
    exists ops :: NoInstall(ops) && Run(cfg, start, ops) == Some(w)
  }

  lemma GetsHere(cfg: Config, w: World)
    ensures Gets(cfg, w, w)
  {
    assert NoInstall([]) && Run(cfg, w, []) == Some(w);
  }

  lemma GetsOn(cfg: Config, start: World, w: World, op: Op)
    requires Gets(cfg, start, w) && Enabled(cfg, w, op) && !op.Install?
    ensures Gets(cfg, start, Apply(cfg, w, op))
  {
    var ops :| NoInstall(ops) && Run(cfg, start, ops) == Some(w);
    var more := ops + [op];
    assert more[..|more| - 1] == ops;
    assert NoInstall(more) && Run(cfg, start, more) == Some(Apply(cfg, w, op));
  }

  lemma MisreadPublishes(cfg: Config, w: World, r: Record) returns (v: World)
    requires w == Boot(cfg, w.process, w.disk) && w.disk.marker == Present(r)
    ensures Gets(cfg, w, v) && v.disk.marker == Present(Record(Nothing, cfg.account, {StartPath(cfg)}))
  {
    GetsHere(cfg, w);
    var w1 := w.(login := LRestore(false));
    GetsOn(cfg, w, w, StartLogin(false));
    var w2 := w.(login := LLoad(false));
    GetsOn(cfg, w, w1, CheckPending);
    var w3 := w.(login := LAnonymous(ToRestored(false)), misread := true);
    GetsOn(cfg, w, w2, LoadMarker(false));
    GetsOn(cfg, w, w3, GoAnonymous(false, true));
    v := AnonymousResult(w3, false, true);
  }

  /** From a restart that finds a record, and whatever is read, written, failed
      or crashed before the next install: the marker on disk never forgets any
      of it, exactly when it says nothing the configuration does not say. */
  lemma RecordKeptIff(cfg: Config, process: nat, disk: Disk, r: Record)
    requires disk.marker == Present(r)
    ensures (forall w :: Gets(cfg, Boot(cfg, process, disk), w) ==> Holds(w.disk, r)) <==> OwnRecord(cfg, r)
  {
    var start := Boot(cfg, process, disk);
    if OwnRecord(cfg, r) {
      forall w | Gets(cfg, start, w) ensures Holds(w.disk, r) {
        var ops :| NoInstall(ops) && Run(cfg, start, ops) == Some(w);
        RunKeeps(cfg, process, disk, r, ops);
      }
    } else {
      var w := MisreadPublishes(cfg, start, r);
      assert Gets(cfg, start, w) && !Holds(w.disk, r);
    }
  }
}
