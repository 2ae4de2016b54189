/** What a restart recovers: exactly when an invalidated token stays out, and
    a run in which a recorded context file is not empty. */
module SessionRecovery {
  import opened Wire
  import opened Session
  import opened SessionSafety
  import opened SessionTheorems

  // ----- no credentials without a QR confirmation -----

  /** No way to credentials but a QR confirmation. */
  ghost predicate Shut(w: World) {
    && w.creds.None?
    && (w.disk.marker.Absent? ==> w.disk.creds.None?)
    && !w.login.LGot? && !w.login.LInstall? && !w.login.LClearing? && !w.login.LPublish?
  }

  lemma ShutOther(cfg: Config, w: World, op: Op)
    requires Shut(w) && Enabled(cfg, w, op) && OtherOp(op)
    ensures Shut(ApplyOther(cfg, w, op))
  {
  }

  lemma ShutAdopt(cfg: Config, w: World, valid: bool, markOk: bool)
    requires Shut(w) && w.login.LAdopt?
    ensures Shut(AdoptResult(cfg, w, valid, markOk))
  {
  }

  lemma ShutRetry(w: World, readable: bool, markOk: bool)
    requires Shut(w) && w.login.LRetry? && w.login.previous < |w.states|
    ensures Shut(RetryResult(w, readable, markOk))
  {
  }

  lemma ShutPublish(cfg: Config, w: World, op: Op)
    requires Shut(w) && Enabled(cfg, w, op) && PublishOp(op)
    ensures Shut(ApplyPublish(cfg, w, op))
  {
    if op.Adopt? {
      ShutAdopt(cfg, w, op.valid, op.markOk);
    } else if op.Retry? {
      ShutRetry(w, op.readable, op.markOk);
    }
  }

  lemma ShutCleanup(cfg: Config, w: World, op: Op)
    requires Shut(w) && Enabled(cfg, w, op) && CleanupOp(op)
    ensures Shut(ApplyCleanup(cfg, w, op))
  {
  }

  lemma ShutLoad(w: World, readable: bool)
    requires Shut(w) && w.login.LLoad?
    ensures Shut(LoadResult(w, readable))
  {
  }

  lemma ShutLook(cfg: Config, w: World, op: Op)
    requires Shut(w) && Enabled(cfg, w, op) && LookOp(op)
    ensures Shut(ApplyLook(cfg, w, op))
  {
    if op.LoadMarker? {
      ShutLoad(w, op.readable);
    }
  }

  lemma ShutAcquire(cfg: Config, w: World, op: Op)
    requires Shut(w) && Phase(cfg, w) && Enabled(cfg, w, op) && AcquireOp(op) && !op.QrConfirms?
    ensures Shut(ApplyAcquire(cfg, w, op))
  {
  }

  lemma ShutStep(cfg: Config, w: World, op: Op)
    requires Shut(w) && Phase(cfg, w) && Enabled(cfg, w, op) && !op.QrConfirms?
    ensures Shut(Apply(cfg, w, op))
  {
    if PublishOp(op) {
      ShutPublish(cfg, w, op);
    } else if CleanupOp(op) {
      ShutCleanup(cfg, w, op);
    } else if LookOp(op) {
      ShutLook(cfg, w, op);
    } else if AcquireOp(op) {
      ShutAcquire(cfg, w, op);
    } else if OtherOp(op) {
      ShutOther(cfg, w, op);
    }
  }

  predicate Quiet(ops: seq<Op>) { forall i :: 0 <= i < |ops| ==> !ops[i].QrConfirms? }

  /** From a disk with a marker (readable or not), or without a credentials
      file, no run of any number of processes has credentials unless a QR code
      is confirmed. */
  lemma {:induction false} FailClosed(cfg: Config, process: nat, disk: Disk, ops: seq<Op>)
    requires disk.marker.Absent? ==> disk.creds.None?
    requires Quiet(ops)
    ensures var end := Run(cfg, Boot(cfg, process, disk), ops); end.Some? ==> end.value.creds.None? && Shut(end.value)
    decreases |ops|
  {
    if ops != [] {
      var early := ops[..|ops| - 1];
      FailClosed(cfg, process, disk, early);
      RunSafe(cfg, process, disk, early);
      var before := Run(cfg, Boot(cfg, process, disk), early);
      if before.Some? && Enabled(cfg, before.value, ops[|ops| - 1]) {
        ShutStep(cfg, before.value, ops[|ops| - 1]);
      }
    }
  }

  // ----- when an invalidated token can come back -----

  /** Some run leads from start to w; a quiet one confirms no QR code. */
  ghost predicate Leads(cfg: Config, quiet: bool, start: World, w: World) {
    exists ops :: (quiet ==> Quiet(ops)) && Run(cfg, start, ops) == Some(w)
  }

  lemma LeadsHere(cfg: Config, quiet: bool, w: World)
    ensures Leads(cfg, quiet, w, w)
  {
    assert Quiet([]) && Run(cfg, w, []) == Some(w);
  }

  lemma LeadsOn(cfg: Config, quiet: bool, start: World, w: World, op: Op)
    requires Leads(cfg, quiet, start, w) && Enabled(cfg, w, op) && !(quiet && op.QrConfirms?)
    ensures Leads(cfg, quiet, start, Apply(cfg, w, op))
  {
    var ops :| (quiet ==> Quiet(ops)) && Run(cfg, start, ops) == Some(w);
    var more := ops + [op];
    assert more[..|more| - 1] == ops;
    assert (quiet ==> Quiet(more)) && Run(cfg, start, more) == Some(Apply(cfg, w, op));
  }

  lemma OtherApplied(cfg: Config, w: World, op: Op)
    requires OtherOp(op) && Enabled(cfg, w, op)
    ensures Apply(cfg, w, op) == ApplyOther(cfg, w, op)
  {
  }

  lemma LeadsOther(cfg: Config, quiet: bool, start: World, w: World, op: Op, v: World)
    requires Leads(cfg, quiet, start, w) && OtherOp(op) && Enabled(cfg, w, op) && !(quiet && op.QrConfirms?)
    requires ApplyOther(cfg, w, op) == v
    ensures Leads(cfg, quiet, start, v)
  {
    OtherApplied(cfg, w, op);
    LeadsOn(cfg, quiet, start, w, op);
  }

  lemma LeadsPublish(cfg: Config, quiet: bool, start: World, w: World, op: Op, v: World)
    requires Leads(cfg, quiet, start, w) && PublishOp(op) && Enabled(cfg, w, op) && !(quiet && op.QrConfirms?)
    requires ApplyPublish(cfg, w, op) == v
    ensures Leads(cfg, quiet, start, v)
  {
    LeadsOn(cfg, quiet, start, w, op);
  }

  lemma LeadsCleanup(cfg: Config, quiet: bool, start: World, w: World, op: Op, v: World)
    requires Leads(cfg, quiet, start, w) && CleanupOp(op) && Enabled(cfg, w, op) && !(quiet && op.QrConfirms?)
    requires ApplyCleanup(cfg, w, op) == v
    ensures Leads(cfg, quiet, start, v)
  {
    LeadsOn(cfg, quiet, start, w, op);
  }

  lemma LeadsLook(cfg: Config, quiet: bool, start: World, w: World, op: Op, v: World)
    requires Leads(cfg, quiet, start, w) && LookOp(op) && Enabled(cfg, w, op) && !(quiet && op.QrConfirms?)
    requires ApplyLook(cfg, w, op) == v
    ensures Leads(cfg, quiet, start, v)
  {
    LeadsOn(cfg, quiet, start, w, op);
  }

  lemma LeadsAcquire(cfg: Config, quiet: bool, start: World, w: World, op: Op, v: World)
    requires Leads(cfg, quiet, start, w) && AcquireOp(op) && Enabled(cfg, w, op) && !(quiet && op.QrConfirms?)
    requires ApplyAcquire(cfg, w, op) == v
    ensures Leads(cfg, quiet, start, v)
  {
    LeadsOn(cfg, quiet, start, w, op);
  }

  lemma LeadsInstall(cfg: Config, quiet: bool, start: World, w: World, op: Op, v: World)
    requires Leads(cfg, quiet, start, w) && InstallOp(op) && Enabled(cfg, w, op) && !(quiet && op.QrConfirms?)
    requires ApplyInstall(cfg, w, op) == v
    ensures Leads(cfg, quiet, start, v)
  {
    LeadsOn(cfg, quiet, start, w, op);
  }

  /** The disk after an invalidation with these outcomes. */
  function DiskAfter(w: World, c: Creds, markOk: bool, clearOk: bool, removeOk: bool): Disk {
    var rec := Record(FingerprintOf(c.token), c.account, {w.ctxPath});
    Disk(if markOk then Present(rec) else w.disk.marker,
         if removeOk then None else w.disk.creds,
         if clearOk then w.disk.contexts[w.ctxPath := map[]] else w.disk.contexts)
  }

  function MarkedDisk(w: World, c: Creds, markOk: bool): Disk {
    if markOk then w.disk.(marker := Present(Record(FingerprintOf(c.token), c.account, {w.ctxPath}))) else w.disk
  }

  lemma DiskAfterSteps(w: World, c: Creds, markOk: bool, clearOk: bool, removeOk: bool)
    ensures RemoveCreds(EmptyFile(MarkedDisk(w, c, markOk), w.ctxPath, clearOk), removeOk) == DiskAfter(w, c, markOk, clearOk, removeOk)
  {
  }

  /** The process that holds sessionMu for its cleanup of the files `left`. */
  ghost predicate Cleaner(w: World, left: set<Path>) {
    w.holder.ByInvalidator? && w.holder.work.left == left && w.holder.work.sid < |w.states|
  }

  lemma ExpiredShape(w: World, c: Creds, markOk: bool)
    requires w.creds == Some(c) && w.reauth.None?
    ensures var v := ExpireResult(w, w.generation, c.token, markOk);
      Cleaner(v, {w.ctxPath}) && v.ctxPath == w.ctxPath && v.process == w.process && v.disk == MarkedDisk(w, c, markOk)
  {
  }

  lemma Expires(cfg: Config, w: World, c: Creds, markOk: bool) returns (v: World)
    requires w.creds == Some(c) && w.reauth.None? && w.holder.Free?
    ensures Leads(cfg, true, w, v) && Cleaner(v, {w.ctxPath})
    ensures v.ctxPath == w.ctxPath && v.process == w.process && v.disk == MarkedDisk(w, c, markOk)
  {
    v := ExpireResult(w, w.generation, c.token, markOk);
    LeadsHere(cfg, true, w);
    LeadsOther(cfg, true, w, w, Expire(w.generation, c.token, markOk), v);
    ExpiredShape(w, c, markOk);
  }

  lemma ClearedShape(w: World, clearOk: bool)
    requires Cleaner(w, {w.ctxPath})
    ensures var v := InvalidatorClearsResult(w, w.ctxPath, clearOk);
      Cleaner(v, {}) && v.process == w.process && v.disk == EmptyFile(w.disk, w.ctxPath, clearOk)
  {
  }

  lemma Clears(cfg: Config, start: World, w: World, clearOk: bool) returns (v: World)
    requires Leads(cfg, true, start, w) && Cleaner(w, {w.ctxPath})
    ensures Leads(cfg, true, start, v) && Cleaner(v, {})
    ensures v.process == w.process && v.disk == EmptyFile(w.disk, w.ctxPath, clearOk)
  {
    v := InvalidatorClearsResult(w, w.ctxPath, clearOk);
    LeadsOther(cfg, true, start, w, InvalidatorClears(w.ctxPath, clearOk), v);
    ClearedShape(w, clearOk);
  }

  lemma Finishes(cfg: Config, start: World, w: World, removeOk: bool) returns (v: World)
    requires Leads(cfg, true, start, w) && Cleaner(w, {})
    ensures Leads(cfg, true, start, v) && v.process == w.process && v.disk == RemoveCreds(w.disk, removeOk)
  {
    v := InvalidatorFinishesResult(w, removeOk);
    LeadsOther(cfg, true, start, w, InvalidatorFinishes(removeOk), v);
  }

  lemma Crashes(cfg: Config, start: World, w: World, process: nat, disk: Disk)
    requires Leads(cfg, true, start, w) && process == w.process + 1 && disk == w.disk
    ensures Leads(cfg, true, start, Boot(cfg, process, disk))
  {
    LeadsOther(cfg, true, start, w, Crash, Boot(cfg, process, disk));
  }

  lemma CleansUp(cfg: Config, start: World, w: World, clearOk: bool, removeOk: bool) returns (v: World)
    requires Leads(cfg, true, start, w) && Cleaner(w, {w.ctxPath})
    ensures Leads(cfg, true, start, v)
    ensures v.process == w.process && v.disk == RemoveCreds(EmptyFile(w.disk, w.ctxPath, clearOk), removeOk)
  {
    var cleared := Clears(cfg, start, w, clearOk);
    v := Finishes(cfg, start, cleared, removeOk);
  }

  /** A -14 for the current session, its cleanup, and a crash. */
  lemma InvalidateAndCrash(cfg: Config, w: World, c: Creds, markOk: bool, clearOk: bool, removeOk: bool)
    requires w.creds == Some(c) && w.reauth.None? && w.holder.Free?
    ensures Leads(cfg, true, w, Boot(cfg, w.process + 1, DiskAfter(w, c, markOk, clearOk, removeOk)))
  {
    var expired := Expires(cfg, w, c, markOk);
    var cleaned := CleansUp(cfg, w, expired, clearOk, removeOk);
    DiskAfterSteps(w, c, markOk, clearOk, removeOk);
    Crashes(cfg, w, cleaned, w.process + 1, DiskAfter(w, c, markOk, clearOk, removeOk));
  }

  lemma FindsNoMarker(cfg: Config, w: World)
    requires w.login.LIdle? && w.holder.Free? && w.reauth.None? && w.creds.None? && w.disk.marker.Absent?
    ensures Leads(cfg, true, w, w.(login := LAuth(false, None)))
  {
    LeadsHere(cfg, true, w);
    var w1 := w.(login := LRestore(false));
    LeadsLook(cfg, true, w, w, StartLogin(false), w1);
    var w2 := w.(login := LLoad(false));
    LeadsLook(cfg, true, w, w1, CheckPending, w2);
    var w3 := w.(login := LRestored(false));
    LeadsLook(cfg, true, w, w2, LoadMarker(true), w3);
    LeadsLook(cfg, true, w, w3, AfterRestore, w.(login := LAuth(false, None)));
  }

  lemma ChecksStored(cfg: Config, quiet: bool, start: World, w: World, c: Creds) returns (v: World)
    requires Leads(cfg, quiet, start, w) && w.login == LGot(false, None, c)
    requires w.account == "" || c.account == w.account
    ensures Leads(cfg, quiet, start, v) && v.login.LInstall? && v.login.creds == c && v == w.(login := v.login)
    ensures !v.login.force && v.login.target.None?
    ensures v.login.path == if cfg.fixedPath then w.ctxPath else AccountPath(if w.account == "" then c.account else w.account)
  {
    v := CheckCredentialsResult(cfg, w, true);
    LeadsAcquire(cfg, quiet, start, w, CheckCredentials(true), v);
  }

  lemma TakesStored(cfg: Config, start: World, w: World, c: Creds) returns (v: World)
    requires Leads(cfg, true, start, w) && w.login == LAuth(false, None) && w.disk.creds == Some(c)
    ensures Leads(cfg, true, start, v) && v == w.(login := LGot(false, None, c))
  {
    v := w.(login := LGot(false, None, c));
    LeadsAcquire(cfg, true, start, w, Authenticate(true), v);
  }

  lemma InstallsStored(cfg: Config, quiet: bool, start: World, w: World) returns (v: World)
    requires Leads(cfg, quiet, start, w) && w.login.LInstall? && !w.login.force && w.login.target.None?
    requires w.holder.Free? && w.reauth.None? && w.requests == []
    ensures Leads(cfg, quiet, start, v) && v.creds == Some(w.login.creds)
    ensures v.login.LIdle? && v.holder.Free? && v.reauth.None? && v.requests == [] && v.disk == w.disk
    ensures v.generation == w.generation + 1 && v.account == (if w.account == "" then w.login.creds.account else w.account)
    ensures v.ctxPath == w.login.path && v.ctxMem == ContextFile(w.disk.contexts, w.login.path)
  {
    var w1 := LockSessionResult(w, true);
    LeadsInstall(cfg, quiet, start, w, LockSession(true), w1);
    v := InstallResult(w1, true);
    LeadsInstall(cfg, quiet, start, w1, Install(true), v);
  }

  /** An ordinary login that finds credentials and no marker takes them, and the
      context tokens of their account's file with them. */
  lemma PicksUpCredentials(cfg: Config, process: nat, disk: Disk, c: Creds) returns (end: World)
    requires disk.marker.Absent? && disk.creds == Some(c)
    requires cfg.account == "" || c.account == cfg.account
    ensures Leads(cfg, true, Boot(cfg, process, disk), end) && end.creds == Some(c)
    ensures end.login.LIdle? && end.holder.Free? && end.reauth.None? && end.requests == [] && end.disk == disk
    ensures end.generation == 1 && end.account == (if cfg.account == "" then c.account else cfg.account)
    ensures end.ctxPath == if cfg.fixedPath then cfg.path else AccountPath(end.account)
    ensures end.ctxMem == ContextFile(disk.contexts, end.ctxPath)
  {
    var w := Boot(cfg, process, disk);
    FindsNoMarker(cfg, w);
    var got := TakesStored(cfg, w, w.(login := LAuth(false, None)), c);
    var v := ChecksStored(cfg, true, w, got, c);
    end := InstallsStored(cfg, true, w, v);
  }

  /** Crashing after a session was invalidated lets the same credentials come
      back without a QR code exactly when both the marker write and the
      removal of the credentials file failed. */
  lemma ComesBackIff(cfg: Config, w: World, c: Creds, markOk: bool, clearOk: bool, removeOk: bool)
    requires Reachable(cfg, w) && w.creds == Some(c) && w.holder.Free?
    ensures var restarted := Boot(cfg, w.process + 1, DiskAfter(w, c, markOk, clearOk, removeOk));
      && Leads(cfg, true, w, restarted)
      && ((exists end :: Leads(cfg, true, restarted, end) && end.creds == Some(c)) <==> !markOk && !removeOk)
  {
    ReachableSafe(cfg, w);
    InvalidateAndCrash(cfg, w, c, markOk, clearOk, removeOk);
    var disk := DiskAfter(w, c, markOk, clearOk, removeOk);
    var restarted := Boot(cfg, w.process + 1, disk);
    if !markOk && !removeOk {
      var end := PicksUpCredentials(cfg, w.process + 1, disk, c);
    } else {
      forall end | Leads(cfg, true, restarted, end)
        ensures end.creds.None?
      {
        var ops :| Quiet(ops) && Run(cfg, restarted, ops) == Some(end);
        FailClosed(cfg, w.process + 1, disk, ops);
      }
    }
  }

  // ----- a recorded file that is not empty when the QR code is shown -----

  /** The state of a forced login that knows no account, as it is completed. */
  function Anonymous(p: Path, paths: set<Path>, emptied: set<Path>, done: bool, gone: bool): Pending {
    Pending(Nothing, "", "", paths, {p}, emptied, 0, done, done, true, gone)
  }

  /** Such a login between its steps. */
  function Waiting(w: World, state: Pending, disk: Disk, holder: Holder, login: Login): World {
    w.(reauth := Some(0), states := [state], invalidated := [0], disk := disk, holder := holder, login := login)
  }

  function Marking(paths: set<Path>, contexts: map<Path, Tokens>, creds: Option<Creds>): Disk {
    Disk(Present(Record(Nothing, "", paths)), creds, contexts)
  }

  lemma PreparesFirst(cfg: Config, w: World)
    requires w == Boot(cfg, w.process, w.disk) && w.disk.marker.Absent?
    ensures Leads(cfg, false, w, w.(login := LAnonymous(ToPrepared)))
  {
    LeadsHere(cfg, false, w);
    LeadsLook(cfg, false, w, w, StartLogin(true), w.(login := LRestore(true)));
    LeadsLook(cfg, false, w, w.(login := LRestore(true)), CheckPending, w.(login := LLoad(true)));
    LeadsLook(cfg, false, w, w.(login := LLoad(true)), LoadMarker(true), w.(login := LRestored(true)));
    LeadsLook(cfg, false, w, w.(login := LRestored(true)), AfterRestore, w.(login := LPrepare));
    LeadsLook(cfg, false, w, w.(login := LPrepare), Prepare, w.(login := LAnonymous(ToPrepared)));
  }

  ghost predicate Bare(w: World) {
    && w.reauth.None? && w.states == [] && w.holder.Free? && w.account == "" && w.creds.None? && w.generation == 0
    && w.invalidated == [] && w.disk.marker.Absent? && w.disk.creds.None? && w.ctxMem == map[] && w.closers == map[]
  }

  lemma PublishesFirst(w: World)
    requires Bare(w) && w.login == LAnonymous(ToPrepared)
    ensures AnonymousResult(w, true, true) ==
      Waiting(w, Anonymous(w.ctxPath, {w.ctxPath}, {}, false, false), Marking({w.ctxPath}, w.disk.contexts, None),
              ByLogin, LCleaning(Cleanup(0, {w.ctxPath}, false), ToPrepared))
  {
  }

  lemma CleansFirst(w: World, v: World)
    requires Bare(w)
    requires v == Waiting(w, Anonymous(w.ctxPath, {w.ctxPath}, {}, false, false), Marking({w.ctxPath}, w.disk.contexts, None),
                          ByLogin, LCleaning(Cleanup(0, {w.ctxPath}, false), ToPrepared))
    ensures LoginClearsResult(v, w.ctxPath, true) ==
      Waiting(w, Anonymous(w.ctxPath, {w.ctxPath}, {w.ctxPath}, false, false),
              Marking({w.ctxPath}, w.disk.contexts[w.ctxPath := map[]], None), ByLogin, LCleaning(Cleanup(0, {}, false), ToPrepared))
  {
    var u := LoginClearsResult(v, w.ctxPath, true);
    assert u.states[0].emptied == {w.ctxPath};
    assert u.states == [Anonymous(w.ctxPath, {w.ctxPath}, {w.ctxPath}, false, false)];
    assert u.login.work.left == {};
  }

  lemma FinishesFirst(w: World, v: World, disk: Disk)
    requires Bare(w) && disk.creds.None?
    requires v == Waiting(w, Anonymous(w.ctxPath, {w.ctxPath}, {w.ctxPath}, false, false), disk, ByLogin,
                          LCleaning(Cleanup(0, {}, false), ToPrepared))
    ensures LoginFinishesResult(v, true) ==
      Waiting(w, Anonymous(w.ctxPath, {w.ctxPath}, {w.ctxPath}, false, true), disk, Free, LClosing(0, true, ToPrepared))
  {
    var u := LoginFinishesResult(v, true);
    assert u.states == [Anonymous(w.ctxPath, {w.ctxPath}, {w.ctxPath}, false, true)];
  }

  lemma ClosesFirst(w: World, v: World, disk: Disk)
    requires v == Waiting(w, Anonymous(w.ctxPath, {w.ctxPath}, {w.ctxPath}, false, true), disk, Free, LClosing(0, true, ToPrepared))
    ensures LoginClosesResult(v) ==
      Waiting(w, Anonymous(w.ctxPath, {w.ctxPath}, {w.ctxPath}, true, true), disk, Free, LPrepared(true))
  {
    var u := LoginClosesResult(v);
    assert u.states == [Anonymous(w.ctxPath, {w.ctxPath}, {w.ctxPath}, true, true)];
  }

  lemma MarksFirst(cfg: Config, start: World, w: World)
    requires Leads(cfg, false, start, w) && Bare(w) && w.login == LAnonymous(ToPrepared)
    ensures Leads(cfg, false, start,
      Waiting(w, Anonymous(w.ctxPath, {w.ctxPath}, {w.ctxPath}, false, false),
              Marking({w.ctxPath}, w.disk.contexts[w.ctxPath := map[]], None), ByLogin, LCleaning(Cleanup(0, {}, false), ToPrepared)))
  {
    var w1 := AnonymousResult(w, true, true);
    PublishesFirst(w);
    LeadsPublish(cfg, false, start, w, GoAnonymous(true, true), w1);
    CleansFirst(w, w1);
    LeadsCleanup(cfg, false, start, w1, LoginClears(w.ctxPath, true), LoginClearsResult(w1, w.ctxPath, true));
  }

  lemma EndsFirst(cfg: Config, start: World, w: World, v: World, disk: Disk)
    requires Leads(cfg, false, start, v) && Bare(w) && disk.creds.None?
    requires v == Waiting(w, Anonymous(w.ctxPath, {w.ctxPath}, {w.ctxPath}, false, false), disk, ByLogin,
                          LCleaning(Cleanup(0, {}, false), ToPrepared))
    ensures Leads(cfg, false, start,
      Waiting(w, Anonymous(w.ctxPath, {w.ctxPath}, {w.ctxPath}, true, true), disk, Free, LPrepared(true)))
  {
    FinishesFirst(w, v, disk);
    var v1 := LoginFinishesResult(v, true);
    LeadsCleanup(cfg, false, start, v, LoginFinishesCleanup(true), v1);
    ClosesFirst(w, v1, disk);
    LeadsCleanup(cfg, false, start, v1, LoginCloses, LoginClosesResult(v1));
  }

  lemma CompletesFirst(cfg: Config, start: World, w: World)
    requires Leads(cfg, false, start, w) && Bare(w) && w.login == LAnonymous(ToPrepared)
    ensures Leads(cfg, false, start,
      Waiting(w, Anonymous(w.ctxPath, {w.ctxPath}, {w.ctxPath}, true, true),
              Marking({w.ctxPath}, w.disk.contexts[w.ctxPath := map[]], None), Free, LPrepared(true)))
  {
    MarksFirst(cfg, start, w);
    var disk := Marking({w.ctxPath}, w.disk.contexts[w.ctxPath := map[]], None);
    EndsFirst(cfg, start, w, Waiting(w, Anonymous(w.ctxPath, {w.ctxPath}, {w.ctxPath}, false, false), disk, ByLogin,
                                     LCleaning(Cleanup(0, {}, false), ToPrepared)), disk);
  }

  /** A prepared login goes on to show its QR code. */
  lemma ShowsQr(cfg: Config, start: World, w: World, created: bool)
    requires w.reauth == Some(0) && |w.states| == 1 && w.states[0].done && w.states[0].clean
    requires Leads(cfg, false, start, w.(login := LAwait(0, created)))
    ensures Leads(cfg, false, start, w.(login := LQr(true, Some(0))))
  {
    LeadsLook(cfg, false, start, w.(login := LAwait(0, created)), Await, w.(login := LAuth(true, Some(0))));
    LeadsAcquire(cfg, false, start, w.(login := LAuth(true, Some(0))), Authenticate(false), w.(login := LQr(true, Some(0))));
  }

  lemma TakesNew(cfg: Config, start: World, w: World, c: Creds) returns (v: World)
    requires !cfg.fixedPath && w.account == "" && c.token != "" && c.account != ""
    requires w.reauth == Some(0) && w.states == [Anonymous(w.ctxPath, {w.ctxPath}, {w.ctxPath}, true, true)]
    requires w.login == LQr(true, Some(0))
    requires Leads(cfg, false, start, w)
    ensures Leads(cfg, false, start, v)
    ensures v == w.(disk := w.disk.(creds := Some(c)), login := LInstall(true, Some(0), c, AccountPath(c.account), false))
  {
    var w1 := QrConfirmsResult(w, c, true);
    LeadsAcquire(cfg, false, start, w, QrConfirms(c, true), w1);
    v := CheckCredentialsResult(cfg, w1, true);
    LeadsAcquire(cfg, false, start, w1, CheckCredentials(true), v);
  }

  /** A login that fails after it has marked the path of the account it got. */
  lemma FailsToClear(cfg: Config, start: World, w: World, c: Creds, contexts: map<Path, Tokens>)
    requires !cfg.fixedPath && w.account == "" && w.holder.Free? && c.token != "" && c.account != ""
    requires w.reauth == Some(0) && w.states == [Anonymous(w.ctxPath, {w.ctxPath}, {w.ctxPath}, true, true)]
    requires w.login == LQr(true, Some(0)) && w.ctxPath != AccountPath(c.account)
    requires Leads(cfg, false, start, w)
    ensures exists v :: Leads(cfg, false, start, v) && StuckFile(w, v, AccountPath(c.account))
  {
    var a := AccountPath(c.account);
    var w2 := TakesNew(cfg, start, w, c);
    var w3 := LockSessionResult(w2, true);
    LeadsInstall(cfg, false, start, w2, LockSession(true), w3);
    var v := ClearsOneOfTwo(cfg, start, w3, a);
    assert StuckFile(w, v, a);
  }

  ghost predicate StuckFile(w: World, v: World, a: Path) {
    && v.login.LIdle? && v.reauth == Some(0) && |v.states| == 1 && v.states[0].done && v.states[0].clean
    && v.disk.marker.Present? && a in v.disk.marker.rec.paths
    && ContextFile(v.disk.contexts, a) == ContextFile(w.disk.contexts, a)
  }

  lemma ClearsOneOfTwo(cfg: Config, start: World, w: World, a: Path) returns (v: World)
    requires Leads(cfg, false, start, w) && w.login.LClearing? && w.login.sid == 0 && |w.states| == 1
    requires w.login.left == {w.ctxPath, a} && w.ctxPath != a && !w.login.failed
    ensures Leads(cfg, false, start, v) && v.login.LIdle? && v.reauth == w.reauth && v.disk.marker == w.disk.marker
    ensures |v.states| == 1 && v.states[0].done == w.states[0].done && v.states[0].clean == w.states[0].clean
    ensures ContextFile(v.disk.contexts, a) == ContextFile(w.disk.contexts, a)
  {
    var w1 := ClearContextResult(w, w.ctxPath, true);
    LeadsInstall(cfg, false, start, w, ClearContext(w.ctxPath, true), w1);
    var w2 := ClearContextResult(w1, a, false);
    LeadsInstall(cfg, false, start, w1, ClearContext(a, false), w2);
    assert w2.login.left == {};
    var w3 := DoneClearingResult(w2);
    LeadsInstall(cfg, false, start, w2, DoneClearing, w3);
    v := w3.(disk := RemoveCreds(w3.disk, true), login := LIdle);
    LeadsAcquire(cfg, false, start, w3, DiscardCredentials(true), v);
  }

  lemma TriesAgain(cfg: Config, start: World, w: World)
    requires w.reauth == Some(0) && |w.states| == 1 && w.states[0].done && w.states[0].clean && w.login.LIdle?
    requires Leads(cfg, false, start, w)
    ensures Leads(cfg, false, start, w.(login := LQr(true, Some(0))))
  {
    LeadsLook(cfg, false, start, w, StartLogin(true), w.(login := LRestore(true)));
    LeadsLook(cfg, false, start, w.(login := LRestore(true)), CheckPending, w.(login := LRestored(true)));
    LeadsLook(cfg, false, start, w.(login := LRestored(true)), AfterRestore, w.(login := LPrepare));
    LeadsLook(cfg, false, start, w.(login := LPrepare), Prepare, w.(login := LAwait(0, false)));
    ShowsQr(cfg, start, w, false);
  }

  predicate RecordsTokens(d: Disk, p: Path) {
    d.marker.Present? && p in d.marker.rec.paths && ContextFile(d.contexts, p) != map[]
  }

  /** Without a configured path and account the files recorded in the marker
      need not all be empty when a forced login shows its QR code: after an
      attempt that marked the new account's own file and failed to clear it,
      the next attempt starts over that file. */
  lemma RecordedFileNotEmpty(cfg: Config, disk: Disk, c: Creds)
    requires !cfg.fixedPath && cfg.account == "" && c.token != "" && c.account != ""
    requires disk.marker.Absent? && disk.creds.None? && ContextFile(disk.contexts, AccountPath(c.account)) != map[]
    ensures exists w :: Reachable(cfg, w) && w.login == LQr(true, Some(0)) && RecordsTokens(w.disk, AccountPath(c.account))
  {
    var a := AccountPath(c.account);
    var start := Boot(cfg, 0, disk);
    assert start.ctxPath == "context_tokens.json" && a[0] == 'a' && start.ctxPath[0] == 'c';
    PreparesFirst(cfg, start);
    var bare := start.(login := LAnonymous(ToPrepared));
    CompletesFirst(cfg, start, bare);
    var contexts := disk.contexts[start.ctxPath := map[]];
    var state := Anonymous(start.ctxPath, {start.ctxPath}, {start.ctxPath}, true, true);
    var w1 := Waiting(bare, state, Marking({start.ctxPath}, contexts, None), Free, LPrepared(true));
    LeadsLook(cfg, false, start, w1, ReadState, w1.(login := LAwait(0, true)));
    ShowsQr(cfg, start, w1, true);
    var w2 := w1.(login := LQr(true, Some(0)));
    FailsToClear(cfg, start, w2, c, contexts);
    var v :| Leads(cfg, false, start, v) && StuckFile(w2, v, a);
    TriesAgain(cfg, start, v);
    var end := v.(login := LQr(true, Some(0)));
    var ops :| Run(cfg, start, ops) == Some(end);
    assert Reachable(cfg, end);
  }

  ghost predicate AllRecordedEmpty(d: Disk) {
    d.marker.Present? && forall f :: f in d.marker.rec.paths ==> ContextFile(d.contexts, f) == map[]
  }

  /** Exactly when a context path or an account is configured is every forced
      login's QR code shown over files that are all empty. */
  lemma AllEmptyIff(cfg: Config)
    ensures (forall w :: Reachable(cfg, w) && w.login.LQr? && w.login.force ==> AllRecordedEmpty(w.disk))
      <==> cfg.fixedPath || cfg.account != ""
  {
    if cfg.fixedPath || cfg.account != "" {
      forall w | Reachable(cfg, w) && w.login.LQr? && w.login.force
        ensures AllRecordedEmpty(w.disk)
      {
        ForcedQrAllEmpty(cfg, w);
      }
    } else {
      var c := Creds("t", "a");
      var tokens: Tokens := map["u" := Stored("v", Writer(0, 0))];
      var disk := Disk(Absent, None, map[AccountPath("a") := tokens]);
      assert "u" in tokens;
      RecordedFileNotEmpty(cfg, disk, c);
      var w :| Reachable(cfg, w) && w.login == LQr(true, Some(0)) && RecordsTokens(w.disk, AccountPath("a"));
      assert !AllRecordedEmpty(w.disk);
    }
  }
}
