/** What the session protocol promises, for every run with any interleaving,
    failing reads and writes, crashes and restarts. */
module SessionTheorems {
  import opened Wire
  import opened Session
  import opened SessionSafety

  ghost predicate Reachable(cfg: Config, w: World) {
    exists disk, ops :: Run(cfg, Boot(cfg, 0, disk), ops) == Some(w)
  }

  lemma ReachableSafe(cfg: Config, w: World)
    requires Reachable(cfg, w)
    ensures Safe(cfg, w)
  {
    var disk, ops :| Run(cfg, Boot(cfg, 0, disk), ops) == Some(w);
    RunSafe(cfg, 0, disk, ops);
  }

  // ----- what no step but a crash and an install does -----

  ghost predicate Calm(w: World, v: World) {
    && v.process == w.process && v.generation == w.generation && v.tokenOf == w.tokenOf && v.sealed == w.sealed
    && (v.creds == w.creds || v.creds.None?)
    && (w.disk.marker.Present? ==> v.disk.marker.Present?)
    && (w.reauth.Some? ==> v.reauth.Some?)
    && |w.states| <= |v.states|
    && (forall s: nat :: s < |w.states| && w.states[s].done ==> v.states[s].done)
  }

  lemma CalmExpire(w: World, g: nat, token: Token, markOk: bool)
    ensures Calm(w, ExpireResult(w, g, token, markOk))
  {
  }

  lemma CalmInvalidator(w: World, p: Path, ok: bool)
    requires w.holder.ByInvalidator? && w.holder.work.sid < |w.states|
    ensures Calm(w, InvalidatorClearsResult(w, p, ok))
  {
  }

  lemma CalmFinish(w: World, ok: bool)
    requires w.holder.ByInvalidator? && w.holder.work.sid < |w.states|
    ensures Calm(w, InvalidatorFinishesResult(w, ok))
  {
  }

  lemma CalmOther(cfg: Config, w: World, op: Op)
    requires Enabled(cfg, w, op) && OtherOp(op) && !op.Crash?
    ensures Calm(w, ApplyOther(cfg, w, op))
  {
    match op
    case Expire(g, token, markOk) => CalmExpire(w, g, token, markOk);
    case InvalidatorClears(p, ok) => CalmInvalidator(w, p, ok);
    case InvalidatorFinishes(ok) => CalmFinish(w, ok);
    case _ =>
  }

  lemma CalmAdopt(cfg: Config, w: World, valid: bool, markOk: bool)
    requires w.login.LAdopt?
    ensures Calm(w, AdoptResult(cfg, w, valid, markOk))
  {
  }

  lemma CalmRetry(w: World, readable: bool, markOk: bool)
    requires w.login.LRetry? && w.login.previous < |w.states|
    ensures Calm(w, RetryResult(w, readable, markOk))
  {
  }

  lemma CalmPublish(cfg: Config, w: World, op: Op)
    requires Enabled(cfg, w, op) && PublishOp(op)
    ensures Calm(w, ApplyPublish(cfg, w, op))
  {
    if op.Adopt? {
      CalmAdopt(cfg, w, op.valid, op.markOk);
    } else if op.Retry? {
      CalmRetry(w, op.readable, op.markOk);
    }
  }

  lemma CalmCleanup(cfg: Config, w: World, op: Op)
    requires Enabled(cfg, w, op) && CleanupOp(op)
    ensures Calm(w, ApplyCleanup(cfg, w, op))
  {
  }

  lemma CalmLook(cfg: Config, w: World, op: Op)
    requires Enabled(cfg, w, op) && LookOp(op)
    ensures Calm(w, ApplyLook(cfg, w, op))
  {
    LookShape(cfg, w, op);
  }

  lemma CalmAcquire(cfg: Config, w: World, op: Op)
    requires Enabled(cfg, w, op) && AcquireOp(op)
    ensures Calm(w, ApplyAcquire(cfg, w, op))
  {
    AcquireShape(cfg, w, op);
  }

  lemma CalmLock(cfg: Config, w: World, ok: bool)
    requires Enabled(cfg, w, LockSession(ok))
    ensures Calm(w, LockSessionResult(w, ok))
  {
  }

  lemma CalmInstall(cfg: Config, w: World, op: Op)
    requires Enabled(cfg, w, op) && InstallOp(op) && !op.Install?
    ensures Calm(w, ApplyInstall(cfg, w, op))
  {
    if op.LockSession? {
      CalmLock(cfg, w, op.ok);
    }
  }

  lemma CalmStep(cfg: Config, w: World, op: Op)
    requires Enabled(cfg, w, op) && !op.Crash? && !op.Install?
    ensures Calm(w, Apply(cfg, w, op))
  {
    if PublishOp(op) {
      CalmPublish(cfg, w, op);
    } else if CleanupOp(op) {
      CalmCleanup(cfg, w, op);
    } else if LookOp(op) {
      CalmLook(cfg, w, op);
    } else if AcquireOp(op) {
      CalmAcquire(cfg, w, op);
    } else if InstallOp(op) {
      CalmInstall(cfg, w, op);
    } else {
      CalmOther(cfg, w, op);
    }
  }

  // ----- the marker and credentials -----

  /** An ordinary login installs only over a disk without a marker, in a
      process that has seen no session yet, and what it installs is on disk. */
  lemma OrdinaryInstall(cfg: Config, w: World, clearOk: bool)
    requires Reachable(cfg, w) && Enabled(cfg, w, Install(clearOk)) && !w.login.force
    ensures w.disk.marker.Absent? && w.generation == 0 && w.reauth.None? && w.invalidated == []
    ensures w.disk.creds == Some(w.login.creds)
    ensures Apply(cfg, w, Install(clearOk)).creds == Some(w.login.creds)
  {
    ReachableSafe(cfg, w);
  }

  /** QR authentication of a forced login starts only for a completed state
      whose marker is on disk and whose context files are empty. */
  lemma ForcedQr(cfg: Config, w: World)
    requires Reachable(cfg, w) && w.login.LQr? && w.login.force
    ensures w.login.target.Some? && w.login.target.value < |w.states| && w.reauth == w.login.target
    ensures var p := w.states[w.login.target.value]; p.done && p.clean && Recorded(w.disk, p)
    ensures forall f :: f in w.states[w.login.target.value].base ==> ContextFile(w.disk.contexts, f) == map[]
    ensures w.ctxMem == map[] && w.creds.None?
  {
    ReachableSafe(cfg, w);
  }

  /** Every recorded file is then empty when an account or a context path is
      known beforehand. */
  lemma ForcedQrAllEmpty(cfg: Config, w: World)
    requires Reachable(cfg, w) && w.login.LQr? && w.login.force
    requires cfg.fixedPath || cfg.account != ""
    ensures w.disk.marker.Present?
    ensures forall f :: f in w.disk.marker.rec.paths ==> ContextFile(w.disk.contexts, f) == map[]
  {
    ReachableSafe(cfg, w);
  }

  predicate Names(rec: Record, t: Token) { rec.sha != Nothing && FingerprintOf(t) == rec.sha }

  ghost predicate Fulfils(d: Disk, rec: Record, c: Creds) {
    && d.creds == Some(c)
    && !Names(rec, c.token)
    && (rec.account != "" ==> c.account == rec.account)
    && (forall f :: f in rec.paths ==> ContextFile(d.contexts, f) == map[])
  }

  lemma InstallFulfils(cfg: Config, w: World)
    requires Current(cfg, w) && Phase(cfg, w) && w.login.LPublish? && w.login.force
    ensures w.disk.marker.Present? && Fulfils(w.disk, w.disk.marker.rec, w.login.creds)
  {
    var p := w.states[w.login.target.value];
    assert w.disk.marker == Present(RecordOf(p));
    assert p.paths <= p.emptied;
  }

  lemma InstallRemoves(cfg: Config, w: World, clearOk: bool)
    requires Phase(cfg, w) && Enabled(cfg, w, Install(clearOk)) && w.disk.marker.Present?
    ensures var v := InstallResult(w, clearOk);
      v.disk == w.disk || (w.login.force && v.disk == w.disk.(marker := Absent) && v.creds == Some(w.login.creds))
  {
  }

  /** A marker leaves the disk only in the step that installs credentials of
      its account, not named by it, already on disk, all its files empty. */
  lemma MarkerRemoved(cfg: Config, w: World, op: Op)
    requires Reachable(cfg, w) && Enabled(cfg, w, op)
    requires w.disk.marker.Present? && !Apply(cfg, w, op).disk.marker.Present?
    ensures var v := Apply(cfg, w, op);
      op.Install? && v.creds.Some? && v.disk == w.disk.(marker := Absent) && Fulfils(v.disk, w.disk.marker.rec, v.creds.value)
  {
    ReachableSafe(cfg, w);
    if op.Install? {
      InstallRemoves(cfg, w, op.clearOk);
      InstallFulfils(cfg, w);
    } else if !op.Crash? {
      CalmStep(cfg, w, op);
    }
  }

  // ----- generations -----

  lemma BegunAt(requests: seq<Request>, generation: nat, tokenOf: map<nat, Token>, i: nat)
    requires Begun(requests, generation, tokenOf) && i < |requests|
    ensures requests[i].generation == generation && generation in tokenOf && requests[i].token == tokenOf[generation]
  {
  }

  /** Every pending request was begun with the token of the generation it
      names, that generation is the bot's current one, and the token is that of
      the credentials if there are any. */
  lemma RequestsAreCurrent(cfg: Config, w: World, i: nat)
    requires Reachable(cfg, w) && i < |w.requests|
    ensures w.requests[i].generation == w.generation
    ensures w.generation in w.tokenOf && w.requests[i].token == w.tokenOf[w.generation]
    ensures w.creds.Some? ==> w.requests[i].token == w.creds.value.token
  {
    ReachableSafe(cfg, w);
    BegunAt(w.requests, w.generation, w.tokenOf, i);
  }

  /** An install opens a new generation with no request pending and gives no
      earlier generation another token. */
  lemma InstallOpensGeneration(cfg: Config, w: World, op: Op)
    requires Reachable(cfg, w) && Enabled(cfg, w, op) && !op.Crash?
    ensures var v := Apply(cfg, w, op);
      if v.generation == w.generation then v.tokenOf == w.tokenOf && (w.creds != v.creds ==> v.creds.None?)
      else op.Install? && v.generation == w.generation + 1 && v.requests == [] && v.generation !in w.tokenOf && v.creds.Some?
    ensures var v := Apply(cfg, w, op); forall g :: g in w.tokenOf ==> g in v.tokenOf && v.tokenOf[g] == w.tokenOf[g]
  {
    ReachableSafe(cfg, w);
    if !op.Install? {
      CalmStep(cfg, w, op);
    }
  }

  lemma EarlierThanLast(w: World, i: nat, j: nat)
    requires InvalidatedOnce(w) && i < j < |w.invalidated|
    ensures w.invalidated[i] < w.invalidated[j] <= w.generation
  {
  }

  /** A generation is invalidated at most once. */
  lemma InvalidatedAtMostOnce(cfg: Config, w: World, i: nat, j: nat)
    requires Reachable(cfg, w) && i < j < |w.invalidated|
    ensures w.invalidated[i] < w.invalidated[j] <= w.generation
  {
    ReachableSafe(cfg, w);
    EarlierThanLast(w, i, j);
  }

  lemma FirstExpiry(w: World)
    requires InvalidatedOnce(w) && w.reauth.None?
    ensures w.generation !in w.invalidated
  {
    var last := |w.invalidated| - 1;
    assert forall k :: 0 <= k < last ==> w.invalidated[k] < w.invalidated[last];
  }

  /** A -14 of another generation, of another token or after the first one
      changes nothing; otherwise it makes a state pending. */
  lemma LateExpiry(cfg: Config, w: World, g: nat, t: Token, markOk: bool)
    requires Reachable(cfg, w) && Enabled(cfg, w, Expire(g, t, markOk))
    ensures var v := Apply(cfg, w, Expire(g, t, markOk));
      if g != w.generation || w.reauth.Some? || w.creds.None? || w.creds.value.token != t then v == w
      else v.reauth.Some? && v.creds.None? && v.generation == g && v.invalidated == w.invalidated + [g] && g !in w.invalidated
  {
    ReachableSafe(cfg, w);
    if w.reauth.None? {
      FirstExpiry(w);
    }
  }

  // ----- the marker only grows -----

  /** A later record names the same token and account, or names one where the
      earlier named none, and still lists every path. */
  predicate Grows(r: Record, r': Record) {
    && (r.sha == Nothing || r'.sha == r.sha)
    && (r.account == "" || r'.account == r.account)
    && r.paths <= r'.paths
  }

  ghost predicate Tied(w: World) {
    w.disk.marker.Present? && !w.misread && w.reauth.Some? && w.reauth.value < |w.states| ==>
      Grows(w.disk.marker.rec, RecordOf(w.states[w.reauth.value]))
  }

  ghost predicate MarkerGrows(w: World, v: World) {
    && Tied(v)
    && (w.misread ==> v.misread)
    && (w.disk.marker.Present? && v.disk.marker.Present? && !v.misread ==> Grows(w.disk.marker.rec, v.disk.marker.rec))
  }

  lemma GrowsExpire(w: World, g: nat, token: Token, markOk: bool)
    requires Generations(w) && Completion(w) && Tied(w)
    ensures MarkerGrows(w, ExpireResult(w, g, token, markOk))
  {
  }

  lemma GrowsInvalidator(w: World, p: Path, ok: bool)
    requires Tied(w) && w.holder.ByInvalidator? && w.holder.work.sid < |w.states|
    ensures MarkerGrows(w, InvalidatorClearsResult(w, p, ok))
  {
  }

  lemma GrowsOther(cfg: Config, w: World, op: Op)
    requires Generations(w) && Completion(w) && Tied(w) && Enabled(cfg, w, op) && OtherOp(op) && !op.Crash?
    ensures MarkerGrows(w, ApplyOther(cfg, w, op))
  {
    match op
    case Expire(g, token, markOk) => GrowsExpire(w, g, token, markOk);
    case InvalidatorClears(p, ok) => GrowsInvalidator(w, p, ok);
    case _ =>
  }

  lemma GrowsAdopt(cfg: Config, w: World, valid: bool, markOk: bool)
    requires Generations(w) && Phase(cfg, w) && Tied(w) && w.login.LAdopt?
    ensures MarkerGrows(w, AdoptResult(cfg, w, valid, markOk))
  {
  }

  lemma GrowsRetry(cfg: Config, w: World, readable: bool, markOk: bool)
    requires Generations(w) && Phase(cfg, w) && Tied(w) && Enabled(cfg, w, Retry(readable, markOk))
    ensures MarkerGrows(w, RetryResult(w, readable, markOk))
  {
  }

  lemma GrowsPublish(cfg: Config, w: World, op: Op)
    requires Generations(w) && Phase(cfg, w) && Tied(w) && Enabled(cfg, w, op) && PublishOp(op)
    ensures MarkerGrows(w, ApplyPublish(cfg, w, op))
  {
    if op.Adopt? {
      GrowsAdopt(cfg, w, op.valid, op.markOk);
    } else if op.Retry? {
      GrowsRetry(cfg, w, op.readable, op.markOk);
    }
  }

  lemma GrowsCleanup(cfg: Config, w: World, op: Op)
    requires Completion(w) && Tied(w) && Enabled(cfg, w, op) && CleanupOp(op)
    ensures MarkerGrows(w, ApplyCleanup(cfg, w, op))
  {
  }

  lemma GrowsLook(cfg: Config, w: World, op: Op)
    requires Tied(w) && Enabled(cfg, w, op) && LookOp(op)
    ensures MarkerGrows(w, ApplyLook(cfg, w, op))
  {
    LookShape(cfg, w, op);
  }

  lemma GrowsAcquire(cfg: Config, w: World, op: Op)
    requires Tied(w) && Enabled(cfg, w, op) && AcquireOp(op)
    ensures MarkerGrows(w, ApplyAcquire(cfg, w, op))
  {
    AcquireShape(cfg, w, op);
  }

  lemma GrowsLock(cfg: Config, w: World, ok: bool)
    requires Phase(cfg, w) && Tied(w) && Enabled(cfg, w, LockSession(ok))
    ensures MarkerGrows(w, LockSessionResult(w, ok))
  {
  }

  lemma GrowsInstall(cfg: Config, w: World, op: Op)
    requires Phase(cfg, w) && Tied(w) && Enabled(cfg, w, op) && InstallOp(op)
    ensures MarkerGrows(w, ApplyInstall(cfg, w, op))
  {
    if op.LockSession? {
      GrowsLock(cfg, w, op.ok);
    }
  }

  lemma GrowsStep(cfg: Config, w: World, op: Op)
    requires Safe(cfg, w) && Tied(w) && Enabled(cfg, w, op) && !op.Crash?
    ensures MarkerGrows(w, Apply(cfg, w, op))
  {
    if PublishOp(op) {
      GrowsPublish(cfg, w, op);
    } else if CleanupOp(op) {
      GrowsCleanup(cfg, w, op);
    } else if LookOp(op) {
      GrowsLook(cfg, w, op);
    } else if AcquireOp(op) {
      GrowsAcquire(cfg, w, op);
    } else if InstallOp(op) {
      GrowsInstall(cfg, w, op);
    } else {
      GrowsOther(cfg, w, op);
    }
  }

  lemma TiedStep(cfg: Config, w: World, op: Op)
    requires Safe(cfg, w) && Tied(w) && Enabled(cfg, w, op)
    ensures Tied(Apply(cfg, w, op))
  {
    if !op.Crash? {
      GrowsStep(cfg, w, op);
    }
  }

  lemma {:induction false} RunTied(cfg: Config, disk: Disk, ops: seq<Op>)
    ensures var end := Run(cfg, Boot(cfg, 0, disk), ops); end.Some? ==> Tied(end.value)
    decreases |ops|
  {
    if ops != [] {
      var early := ops[..|ops| - 1];
      RunTied(cfg, disk, early);
      RunSafe(cfg, 0, disk, early);
      var before := Run(cfg, Boot(cfg, 0, disk), early);
      if before.Some? && Enabled(cfg, before.value, ops[|ops| - 1]) {
        TiedStep(cfg, before.value, ops[|ops| - 1]);
      }
    }
  }

  lemma ReachableTied(cfg: Config, w: World)
    requires Reachable(cfg, w)
    ensures Tied(w)
  {
    var disk, ops :| Run(cfg, Boot(cfg, 0, disk), ops) == Some(w);
    RunTied(cfg, disk, ops);
  }

  /** Unless a marker was read as an error, the marker on disk never forgets
      the token, the account or a path it has recorded until it is removed. */
  lemma MarkerOnlyGrows(cfg: Config, w: World, op: Op)
    requires Reachable(cfg, w) && Enabled(cfg, w, op)
    requires w.disk.marker.Present? && Apply(cfg, w, op).disk.marker.Present? && !Apply(cfg, w, op).misread
    ensures Grows(w.disk.marker.rec, Apply(cfg, w, op).disk.marker.rec)
  {
    ReachableSafe(cfg, w);
    ReachableTied(cfg, w);
    if !op.Crash? {
      GrowsStep(cfg, w, op);
    }
  }

  // ----- context tokens -----

  predicate SubTokens(a: Tokens, b: Tokens) { forall u :: u in a ==> u in b && a[u] == b[u] }

  ghost predicate NoNewTokens(w: World, v: World) {
    && SubTokens(v.ctxMem, w.ctxMem)
    && (forall p :: SubTokens(ContextFile(v.disk.contexts, p), ContextFile(w.disk.contexts, p)))
  }

  lemma NoTokensOther(cfg: Config, w: World, op: Op)
    requires Locks(w) && w.reauth.Some? && Enabled(cfg, w, op) && OtherOp(op)
    ensures NoNewTokens(w, ApplyOther(cfg, w, op))
  {
  }

  lemma NoTokensPublish(cfg: Config, w: World, op: Op)
    requires w.reauth.Some? && Enabled(cfg, w, op) && PublishOp(op)
    ensures NoNewTokens(w, ApplyPublish(cfg, w, op))
  {
  }

  lemma NoTokensCleanup(cfg: Config, w: World, op: Op)
    requires Enabled(cfg, w, op) && CleanupOp(op)
    ensures NoNewTokens(w, ApplyCleanup(cfg, w, op))
  {
  }

  lemma NoTokensLook(cfg: Config, w: World, op: Op)
    requires Enabled(cfg, w, op) && LookOp(op)
    ensures NoNewTokens(w, ApplyLook(cfg, w, op))
  {
    LookShape(cfg, w, op);
  }

  lemma NoTokensAcquire(cfg: Config, w: World, op: Op)
    requires Enabled(cfg, w, op) && AcquireOp(op)
    ensures NoNewTokens(w, ApplyAcquire(cfg, w, op))
  {
    AcquireShape(cfg, w, op);
  }

  lemma NoTokensMark(w: World, ok: bool)
    requires w.login.LInstall? && w.login.force && w.login.target.Some? && SidInRange(w, w.login.target)
    ensures NoNewTokens(w, LockSessionResult(w, ok))
  {
  }

  lemma NoTokensLock(cfg: Config, w: World, ok: bool)
    requires Phase(cfg, w) && w.reauth.Some? && Enabled(cfg, w, LockSession(ok))
    ensures NoNewTokens(w, LockSessionResult(w, ok))
  {
    if w.login.force && w.login.target.Some? {
      NoTokensMark(w, ok);
    }
  }

  lemma NoTokensClear(cfg: Config, w: World, p: Path, ok: bool)
    requires Enabled(cfg, w, ClearContext(p, ok))
    ensures NoNewTokens(w, ClearContextResult(w, p, ok))
  {
  }

  lemma NoTokensPublishing(cfg: Config, w: World, clearOk: bool)
    requires Phase(cfg, w) && w.reauth.Some? && Enabled(cfg, w, Install(clearOk))
    ensures NoNewTokens(w, InstallResult(w, clearOk))
  {
  }

  lemma NoTokensInstall(cfg: Config, w: World, op: Op)
    requires Phase(cfg, w) && w.reauth.Some? && Enabled(cfg, w, op) && InstallOp(op)
    ensures NoNewTokens(w, ApplyInstall(cfg, w, op))
  {
    match op
    case LockSession(ok) => NoTokensLock(cfg, w, ok);
    case ClearContext(p, ok) => NoTokensClear(cfg, w, p, ok);
    case DoneClearing =>
    case Install(clearOk) => NoTokensPublishing(cfg, w, clearOk);
  }

  /** While a state is pending no step writes a context token, in memory or on
      disk, not even the one that installs the next session. */
  lemma NoTokenWhilePending(cfg: Config, w: World, op: Op)
    requires Reachable(cfg, w) && w.reauth.Some? && Enabled(cfg, w, op)
    ensures NoNewTokens(w, Apply(cfg, w, op))
  {
    ReachableSafe(cfg, w);
    if PublishOp(op) {
      NoTokensPublish(cfg, w, op);
    } else if CleanupOp(op) {
      NoTokensCleanup(cfg, w, op);
    } else if LookOp(op) {
      NoTokensLook(cfg, w, op);
    } else if AcquireOp(op) {
      NoTokensAcquire(cfg, w, op);
    } else if InstallOp(op) {
      NoTokensInstall(cfg, w, op);
    } else {
      NoTokensOther(cfg, w, op);
    }
  }

  /** After a forced install, and until the next one, every token in memory
      and in every file the marker recorded was written by this process in the
      generation that was installed. */
  lemma TokensOfThisGeneration(cfg: Config, w: World)
    requires Reachable(cfg, w) && w.sealed.Some?
    ensures WrittenBy(w.ctxMem, Writer(w.process, w.generation))
    ensures w.ctxPath in w.sealed.value
    ensures forall p :: p in w.sealed.value ==> WrittenBy(ContextFile(w.disk.contexts, p), Writer(w.process, w.generation))
  {
    ReachableSafe(cfg, w);
  }

  /** A forced install seals what its marker recorded; no later step of the
      same generation unseals it, and an ordinary install never follows. */
  lemma ForcedInstallSeals(cfg: Config, w: World, op: Op)
    requires Reachable(cfg, w) && Enabled(cfg, w, op) && !op.Crash?
    ensures var v := Apply(cfg, w, op);
      v.generation == w.generation ==> v.sealed == w.sealed
    ensures var v := Apply(cfg, w, op);
      v.generation != w.generation && w.reauth.Some? ==> w.disk.marker.Present? && v.sealed == Some(w.disk.marker.rec.paths)
    ensures w.generation > 0 && Apply(cfg, w, op).generation != w.generation ==> w.reauth.Some?
  {
    ReachableSafe(cfg, w);
    if op.Install? {
      SealsWhatWasMarked(cfg, w, op.clearOk);
    } else {
      CalmStep(cfg, w, op);
    }
  }

  lemma SealsWhatWasMarked(cfg: Config, w: World, clearOk: bool)
    requires Phase(cfg, w) && Generations(w) && Enabled(cfg, w, Install(clearOk))
    ensures var v := InstallResult(w, clearOk);
      v.generation == w.generation ==> v.sealed == w.sealed
    ensures var v := InstallResult(w, clearOk);
      v.generation != w.generation && w.reauth.Some? ==> w.disk.marker.Present? && v.sealed == Some(w.disk.marker.rec.paths)
    ensures w.generation > 0 && InstallResult(w, clearOk).generation != w.generation ==> w.reauth.Some?
  {
  }

  // ----- completing a state -----

  predicate Closes(w: World, op: Op, s: nat) {
    op == InvalidatorCloses(s) || (op.LoginCloses? && w.login.LClosing? && w.login.sid == s)
  }

  lemma OthersCompleteNothing(cfg: Config, w: World, op: Op, s: nat)
    requires Enabled(cfg, w, op) && OtherOp(op) && !op.Crash? && s < |w.states| && !Closes(w, op, s)
    ensures s < |ApplyOther(cfg, w, op).states| && ApplyOther(cfg, w, op).states[s].done == w.states[s].done
  {
  }

  lemma AdoptCompletesNothing(cfg: Config, w: World, valid: bool, markOk: bool, s: nat)
    requires w.login.LAdopt? && s < |w.states|
    ensures var v := AdoptResult(cfg, w, valid, markOk); s < |v.states| && v.states[s] == w.states[s]
  {
  }

  lemma RetryCompletesNothing(w: World, readable: bool, markOk: bool, s: nat)
    requires w.login.LRetry? && w.login.previous < |w.states| && s < |w.states|
    ensures var v := RetryResult(w, readable, markOk); s < |v.states| && v.states[s] == w.states[s]
  {
  }

  lemma PublishCompletesNothing(cfg: Config, w: World, op: Op, s: nat)
    requires Enabled(cfg, w, op) && PublishOp(op) && s < |w.states|
    ensures s < |ApplyPublish(cfg, w, op).states| && ApplyPublish(cfg, w, op).states[s] == w.states[s]
  {
    if op.Adopt? {
      AdoptCompletesNothing(cfg, w, op.valid, op.markOk, s);
    } else if op.Retry? {
      RetryCompletesNothing(w, op.readable, op.markOk, s);
    }
  }

  lemma CleanupCompletesItsOwn(cfg: Config, w: World, op: Op, s: nat)
    requires Enabled(cfg, w, op) && CleanupOp(op) && s < |w.states| && !Closes(w, op, s)
    ensures s < |ApplyCleanup(cfg, w, op).states| && ApplyCleanup(cfg, w, op).states[s].done == w.states[s].done
  {
  }

  lemma LookCompletesNothing(cfg: Config, w: World, op: Op)
    requires Enabled(cfg, w, op)
    ensures LookOp(op) ==> ApplyLook(cfg, w, op).states == w.states
    ensures AcquireOp(op) ==> ApplyAcquire(cfg, w, op).states == w.states
  {
    if LookOp(op) {
      LookShape(cfg, w, op);
    } else if AcquireOp(op) {
      AcquireShape(cfg, w, op);
    }
  }

  lemma LockCompletesNothing(cfg: Config, w: World, ok: bool, s: nat)
    requires Enabled(cfg, w, LockSession(ok)) && s < |w.states|
    ensures s < |LockSessionResult(w, ok).states| && LockSessionResult(w, ok).states[s].done == w.states[s].done
  {
  }

  lemma InstallCompletesNothing(cfg: Config, w: World, op: Op, s: nat)
    requires Enabled(cfg, w, op) && InstallOp(op) && s < |w.states|
    ensures s < |ApplyInstall(cfg, w, op).states| && ApplyInstall(cfg, w, op).states[s].done == w.states[s].done
  {
    if op.LockSession? {
      LockCompletesNothing(cfg, w, op.ok, s);
    }
  }

  lemma LoginCompletesItsOwn(cfg: Config, w: World, op: Op, s: nat)
    requires Enabled(cfg, w, op) && !OtherOp(op) && s < |w.states| && !Closes(w, op, s)
    ensures s < |Apply(cfg, w, op).states| && Apply(cfg, w, op).states[s].done == w.states[s].done
  {
    if InstallOp(op) {
      InstallCompletesNothing(cfg, w, op, s);
    } else if PublishOp(op) {
      PublishCompletesNothing(cfg, w, op, s);
    } else if CleanupOp(op) {
      CleanupCompletesItsOwn(cfg, w, op, s);
    } else {
      LookCompletesNothing(cfg, w, op);
    }
  }

  lemma OnlyClosersComplete(cfg: Config, w: World, op: Op, s: nat)
    requires Enabled(cfg, w, op) && !op.Crash? && s < |w.states| && !Closes(w, op, s)
    ensures s < |Apply(cfg, w, op).states| && Apply(cfg, w, op).states[s].done == w.states[s].done
  {
    if OtherOp(op) {
      OthersCompleteNothing(cfg, w, op, s);
    } else {
      LoginCompletesItsOwn(cfg, w, op, s);
    }
  }

  /** A published state is completed by exactly one step: a channel that is
      closed was open, stays closed, and nothing else closes it. */
  lemma CompletedOnce(cfg: Config, w: World, op: Op, s: nat)
    requires Reachable(cfg, w) && Enabled(cfg, w, op) && !op.Crash? && s < |w.states|
    ensures s < |Apply(cfg, w, op).states|
    ensures Closes(w, op, s) ==> !w.states[s].done && Apply(cfg, w, op).states[s].done
    ensures !Closes(w, op, s) ==> Apply(cfg, w, op).states[s].done == w.states[s].done
  {
    ReachableSafe(cfg, w);
    assert Completion(w);
    if !Closes(w, op, s) {
      OnlyClosersComplete(cfg, w, op, s);
    }
  }

  /** Steps that the goroutine owing the completion of s has left. */
  function Debt(w: World, s: nat): nat {
    if w.login.LCleaning? && w.login.work.sid == s then |w.login.work.left| + 2
    else if w.login.LClosing? && w.login.sid == s then 1
    else if w.holder.ByInvalidator? && w.holder.work.sid == s then |w.holder.work.left| + 2
    else if s in w.closers then 1
    else 0
  }

  lemma LoginAdvances(cfg: Config, w: World, s: nat) returns (op: Op)
    requires Completion(w) && s < |w.states| && LoginOwes(w, s)
    ensures Enabled(cfg, w, op) && CleanupOp(op)
    ensures Closes(w, op, s) || Debt(ApplyCleanup(cfg, w, op), s) < Debt(w, s)
  {
    if w.login.LClosing? {
      op := LoginCloses;
    } else if w.login.work.left == {} {
      op := LoginFinishesCleanup(true);
    } else {
      var p :| p in w.login.work.left;
      op := LoginClears(p, true);
    }
  }

  lemma InvalidatorAdvances(cfg: Config, w: World, s: nat) returns (op: Op)
    requires Completion(w) && s < |w.states| && InvalidatorOwes(w, s) && !LoginOwes(w, s)
    ensures Enabled(cfg, w, op) && OtherOp(op) && !op.Crash?
    ensures Debt(ApplyOther(cfg, w, op), s) < Debt(w, s)
  {
    if w.holder.work.left == {} {
      op := InvalidatorFinishes(true);
    } else {
      var p :| p in w.holder.work.left;
      op := InvalidatorClears(p, true);
    }
  }

  lemma OwnerAdvances(cfg: Config, w: World, s: nat) returns (op: Op)
    requires Completion(w) && s < |w.states| && !w.states[s].done
    ensures Enabled(cfg, w, op) && !op.Crash?
    ensures Closes(w, op, s) || Debt(Apply(cfg, w, op), s) < Debt(w, s)
  {
    if LoginOwes(w, s) {
      op := LoginAdvances(cfg, w, s);
    } else if InvalidatorOwes(w, s) {
      op := InvalidatorAdvances(cfg, w, s);
    } else {
      op := InvalidatorCloses(s);
    }
  }

  /** An incomplete state is never abandoned: its owner can always move, and
      moving brings the completion nearer. */
  lemma CompletionAdvances(cfg: Config, w: World, s: nat) returns (op: Op)
    requires Reachable(cfg, w) && s < |w.states| && !w.states[s].done
    ensures Enabled(cfg, w, op) && !op.Crash?
    ensures Closes(w, op, s) || Debt(Apply(cfg, w, op), s) < Debt(w, s)
  {
    ReachableSafe(cfg, w);
    op := OwnerAdvances(cfg, w, s);
  }
}
