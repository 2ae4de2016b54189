/** What the protocol lets happen: requests begin and end exactly as asked, an
    install waits for them, tokens are written, and a forced login whose QR
    code is confirmed gets through from a session, from a pending state and
    from any disk. */
module SessionRuns {
  import opened Wire
  import opened Session
  import opened SessionSafety
  import opened SessionTheorems
  import opened SessionRecovery

  // ----- requests and token writes, step by step -----

  /** A request starts exactly for the current generation of a live session,
      with its token; otherwise nothing happens. */
  lemma BeginsExactly(cfg: Config, w: World, g: nat)
    requires Enabled(cfg, w, BeginRequest(g))
    ensures Apply(cfg, w, BeginRequest(g)) ==
      if g == w.generation && w.reauth.None? && w.creds.Some?
      then w.(requests := w.requests + [Request(g, w.creds.value.token)])
      else w
  {
  }

  lemma EndsExactly(cfg: Config, w: World, i: nat)
    requires i < |w.requests|
    ensures Enabled(cfg, w, EndRequest(i))
    ensures Apply(cfg, w, EndRequest(i)) == w.(requests := w.requests[..i] + w.requests[i + 1..])
  {
  }

  /** A token of the current session is stored under its user, in memory and in
      the bot's file, if the write succeeds; nothing else changes. */
  lemma WritesExactly(cfg: Config, w: World, g: nat, user: string, value: string, ok: bool)
    requires w.holder.Free?
    ensures Enabled(cfg, w, WriteToken(g, user, value))
    ensures user == "" || value == "" || g != w.generation || w.reauth.Some? ==> Apply(cfg, w, WriteToken(g, user, value)) == w
    ensures user != "" && value != "" && g == w.generation && w.reauth.None? ==>
      var v := Apply(cfg, w, WriteToken(g, user, value));
      && v == w.(holder := v.holder) && Enabled(cfg, v, FinishWrite(ok))
      && Apply(cfg, v, FinishWrite(ok)) ==
           if !ok then w
           else
             var tokens := w.ctxMem[user := Stored(value, Writer(w.process, g))];
             w.(ctxMem := tokens, disk := w.disk.(contexts := w.disk.contexts[w.ctxPath := tokens]))
  {
    TokenTaken(cfg, w, g, user, value);
    if user != "" && value != "" && g == w.generation && w.reauth.None? {
      TokenWritten(cfg, w, g, user, value, ok);
    }
  }

  lemma TokenTaken(cfg: Config, w: World, g: nat, user: string, value: string)
    requires w.holder.Free?
    ensures Apply(cfg, w, WriteToken(g, user, value)) ==
      if user == "" || value == "" || g != w.generation || w.reauth.Some? then w else w.(holder := ByWriter(user, value, g))
  {
  }

  lemma TokenWritten(cfg: Config, w: World, g: nat, user: string, value: string, ok: bool)
    requires w.holder.Free?
    ensures var v, tokens := w.(holder := ByWriter(user, value, g)), w.ctxMem[user := Stored(value, Writer(w.process, g))];
      Apply(cfg, v, FinishWrite(ok)) ==
        if ok then w.(ctxMem := tokens, disk := w.disk.(contexts := w.disk.contexts[w.ctxPath := tokens])) else w
  {
  }

  // ----- a forced login, from its published state on -----

  /** What the published state n demands of credentials, in its own fields. */
  predicate Admits(w: World, n: nat, c: Creds) {
    && n < |w.states| && c.token != "" && c.account != ""
    && c.token != w.states[n].plain && FingerprintOf(c.token) != w.states[n].sha
    && (w.states[n].account != "" ==> c.account == w.states[n].account)
    && (w.states[n].account == "" && w.account != "" ==> c.account == w.account)
  }

  /** The login under way for state n, with rs pending since generation g. */
  ghost predicate Underway(w: World, g: nat, n: nat, rs: seq<Request>, c: Creds) {
    && w.generation == g && w.reauth == Some(n) && w.requests == rs && w.creds.None? && Admits(w, n, c)
  }

  ghost predicate Publishing(w: World, g: nat, n: nat, rs: seq<Request>, c: Creds, after: After) {
    && Underway(w, g, n, rs, c) && w.holder.ByLogin?
    && w.login.LCleaning? && w.login.work.sid == n && !w.login.work.failed && w.login.after == after
  }

  lemma ClearsOne(cfg: Config, start: World, w: World, g: nat, n: nat, rs: seq<Request>, c: Creds, after: After, p: Path) returns (v: World)
    requires Leads(cfg, false, start, w) && Publishing(w, g, n, rs, c, after) && p in w.login.work.left
    ensures Leads(cfg, false, start, v) && Publishing(v, g, n, rs, c, after) && v.login.work.left == w.login.work.left - {p}
  {
    v := LoginClearsResult(w, p, true);
    LeadsCleanup(cfg, false, start, w, LoginClears(p, true), v);
  }

  lemma {:induction false} ClearsEach(cfg: Config, start: World, w: World, g: nat, n: nat, rs: seq<Request>, c: Creds, after: After)
    returns (v: World)
    requires Leads(cfg, false, start, w) && Publishing(w, g, n, rs, c, after)
    ensures Leads(cfg, false, start, v) && Publishing(v, g, n, rs, c, after) && v.login.work.left == {}
    decreases w.login.work.left
  {
    v := w;
    if p :| p in w.login.work.left {
      var next := ClearsOne(cfg, start, w, g, n, rs, c, after, p);
      v := ClearsEach(cfg, start, next, g, n, rs, c, after);
    }
  }

  /** The state is complete and clean. */
  ghost predicate Completed(w: World, g: nat, n: nat, rs: seq<Request>, c: Creds) {
    Underway(w, g, n, rs, c) && w.states[n].done && w.states[n].clean && w.holder.Free?
  }

  lemma FinishesCleanup(cfg: Config, start: World, w: World, g: nat, n: nat, rs: seq<Request>, c: Creds, after: After) returns (v: World)
    requires Leads(cfg, false, start, w) && Publishing(w, g, n, rs, c, after) && w.login.work.left == {}
    ensures Leads(cfg, false, start, v) && Completed(v, g, n, rs, c) && v.login == Continue(after, n, true)
  {
    var closing := LoginFinishesResult(w, true);
    LeadsCleanup(cfg, false, start, w, LoginFinishesCleanup(true), closing);
    v := LoginClosesResult(closing);
    LeadsCleanup(cfg, false, start, closing, LoginCloses, v);
  }

  lemma Completes(cfg: Config, start: World, w: World, g: nat, n: nat, rs: seq<Request>, c: Creds, after: After) returns (v: World)
    requires Leads(cfg, false, start, w) && Publishing(w, g, n, rs, c, after)
    ensures Leads(cfg, false, start, v) && Completed(v, g, n, rs, c) && v.login == Continue(after, n, true)
  {
    var cleared := ClearsEach(cfg, start, w, g, n, rs, c, after);
    v := FinishesCleanup(cfg, start, cleared, g, n, rs, c, after);
  }

  lemma ShowsCode(cfg: Config, start: World, w: World, g: nat, n: nat, rs: seq<Request>, c: Creds) returns (v: World)
    requires Leads(cfg, false, start, w) && Completed(w, g, n, rs, c) && w.login.LAwait? && w.login.sid == n
    ensures Leads(cfg, false, start, v) && Completed(v, g, n, rs, c) && v.login == LQr(true, Some(n))
  {
    var w1 := w.(login := LAuth(true, Some(n)));
    LeadsLook(cfg, false, start, w, Await, w1);
    v := w.(login := LQr(true, Some(n)));
    LeadsAcquire(cfg, false, start, w1, Authenticate(false), v);
  }

  lemma ConfirmsCode(cfg: Config, start: World, w: World, g: nat, n: nat, rs: seq<Request>, c: Creds) returns (v: World)
    requires Leads(cfg, false, start, w) && Completed(w, g, n, rs, c) && w.login == LQr(true, Some(n))
    ensures Leads(cfg, false, start, v) && Completed(v, g, n, rs, c) && v.disk.creds == Some(c)
    ensures v.login.LInstall? && v.login.force && v.login.target == Some(n) && v.login.creds == c
  {
    var w1 := w.(disk := w.disk.(creds := Some(c)), login := LGot(true, Some(n), c));
    LeadsAcquire(cfg, false, start, w, QrConfirms(c, true), w1);
    v := CheckCredentialsResult(cfg, w1, true);
    LeadsAcquire(cfg, false, start, w1, CheckCredentials(true), v);
  }

  /** Clearing under sessionMu before the install. */
  ghost predicate Clearing(w: World, g: nat, n: nat, rs: seq<Request>, c: Creds) {
    && w.generation == g && w.reauth == Some(n) && n < |w.states| && w.requests == rs && w.holder.ByLogin? && w.disk.creds == Some(c)
    && w.login.LClearing? && w.login.sid == n && w.login.creds == c && !w.login.failed
  }

  lemma LocksSession(cfg: Config, start: World, w: World, g: nat, n: nat, rs: seq<Request>, c: Creds) returns (v: World)
    requires Leads(cfg, false, start, w) && Completed(w, g, n, rs, c) && w.disk.creds == Some(c)
    requires w.login.LInstall? && w.login.force && w.login.target == Some(n) && w.login.creds == c
    ensures Leads(cfg, false, start, v) && Clearing(v, g, n, rs, c)
  {
    v := LockSessionResult(w, true);
    LeadsInstall(cfg, false, start, w, LockSession(true), v);
  }

  lemma ClearsContext(cfg: Config, start: World, w: World, g: nat, n: nat, rs: seq<Request>, c: Creds, p: Path) returns (v: World)
    requires Leads(cfg, false, start, w) && Clearing(w, g, n, rs, c) && p in w.login.left
    ensures Leads(cfg, false, start, v) && Clearing(v, g, n, rs, c) && v.login.left == w.login.left - {p}
  {
    v := ClearContextResult(w, p, true);
    LeadsInstall(cfg, false, start, w, ClearContext(p, true), v);
  }

  lemma {:induction false} ClearsContexts(cfg: Config, start: World, w: World, g: nat, n: nat, rs: seq<Request>, c: Creds) returns (v: World)
    requires Leads(cfg, false, start, w) && Clearing(w, g, n, rs, c)
    ensures Leads(cfg, false, start, v) && Clearing(v, g, n, rs, c) && v.login.left == {}
    decreases w.login.left
  {
    v := w;
    if p :| p in w.login.left {
      var next := ClearsContext(cfg, start, w, g, n, rs, c, p);
      v := ClearsContexts(cfg, start, next, g, n, rs, c);
    }
  }

  /** About to install c in place of what state n was published for. */
  ghost predicate Installing(w: World, g: nat, n: nat, rs: seq<Request>, c: Creds) {
    && w.generation == g && w.reauth == Some(n) && n < |w.states| && w.requests == rs && w.holder.ByLogin? && w.disk.creds == Some(c)
    && w.login.LPublish? && w.login.force && w.login.target == Some(n) && w.login.creds == c
  }

  lemma GetsToInstall(cfg: Config, start: World, w: World, g: nat, n: nat, rs: seq<Request>, c: Creds) returns (v: World)
    requires Leads(cfg, false, start, w) && Completed(w, g, n, rs, c) && w.login.LAwait? && w.login.sid == n
    ensures Leads(cfg, false, start, v) && Installing(v, g, n, rs, c)
  {
    var shown := ShowsCode(cfg, start, w, g, n, rs, c);
    v := ShownGetsToInstall(cfg, start, shown, g, n, rs, c);
  }

  lemma ShownGetsToInstall(cfg: Config, start: World, shown: World, g: nat, n: nat, rs: seq<Request>, c: Creds) returns (v: World)
    requires Leads(cfg, false, start, shown) && Completed(shown, g, n, rs, c) && shown.login == LQr(true, Some(n))
    ensures Leads(cfg, false, start, v) && Installing(v, g, n, rs, c)
  {
    var confirmed := ConfirmsCode(cfg, start, shown, g, n, rs, c);
    var locked := LocksSession(cfg, start, confirmed, g, n, rs, c);
    var cleared := ClearsContexts(cfg, start, locked, g, n, rs, c);
    v := DoneClearingResult(cleared);
    LeadsInstall(cfg, false, start, cleared, DoneClearing, v);
  }

  /** The pending requests end one after the other. */
  lemma {:induction false} RequestsEnd(cfg: Config, start: World, w: World, g: nat, n: nat, c: Creds) returns (v: World)
    requires Leads(cfg, false, start, w) && Installing(w, g, n, w.requests, c)
    ensures Leads(cfg, false, start, v) && Installing(v, g, n, [], c)
    decreases |w.requests|
  {
    v := w;
    if w.requests != [] {
      var next := w.(requests := w.requests[1..]);
      assert w.requests[..0] + w.requests[1..] == w.requests[1..];
      LeadsOther(cfg, false, start, w, EndRequest(0), next);
      v := RequestsEnd(cfg, start, next, g, n, c);
    }
  }

  /** Logged in as c in the generation after g, with nothing pending. */
  ghost predicate LoggedIn(w: World, g: nat, c: Creds) {
    && w.creds == Some(c) && w.generation == g + 1 && w.reauth.None? && w.requests == [] && w.holder.Free? && w.login.LIdle?
    && w.disk.marker.Absent? && w.disk.creds == Some(c)
  }

  lemma Installs(cfg: Config, start: World, w: World, g: nat, n: nat, c: Creds) returns (v: World)
    requires Leads(cfg, false, start, w) && Installing(w, g, n, w.requests, c)
    ensures Leads(cfg, false, start, v) && LoggedIn(v, g, c)
  {
    var quiet := RequestsEnd(cfg, start, w, g, n, c);
    v := InstallResult(quiet, true);
    LeadsInstall(cfg, false, start, quiet, Install(true), v);
  }

  // ----- from a session -----

  predicate Resting(w: World) { w.login.LIdle? && w.holder.Free? }

  /** Credentials that may follow the session's: another token, and its account. */
  predicate Follows(w: World, c: Creds)
    requires w.creds.Some?
  {
    var c0 := w.creds.value;
    && c.token != "" && c.account != "" && c.token != c0.token
    && (if c0.account != "" then c.account == c0.account else w.account == "" || c.account == w.account)
  }

  lemma GivesUpSession(cfg: Config, w: World) returns (v: World)
    requires Resting(w) && w.creds.Some? && w.reauth.None? && w.disk.marker.Absent?
    ensures Leads(cfg, false, w, v) && v == w.(login := LInvalidate(w.generation, w.creds.value.token))
  {
    LeadsHere(cfg, false, w);
    LeadsLook(cfg, false, w, w, StartLogin(true), w.(login := LRestore(true)));
    LeadsLook(cfg, false, w, w.(login := LRestore(true)), CheckPending, w.(login := LLoad(true)));
    LeadsLook(cfg, false, w, w.(login := LLoad(true)), LoadMarker(true), w.(login := LRestored(true)));
    LeadsLook(cfg, false, w, w.(login := LRestored(true)), AfterRestore, w.(login := LPrepare));
    v := w.(login := LInvalidate(w.generation, w.creds.value.token));
    LeadsLook(cfg, false, w, w.(login := LPrepare), Prepare, v);
  }

  lemma InvalidatesOwn(cfg: Config, start: World, w: World, c: Creds) returns (v: World)
    requires Leads(cfg, false, start, w) && w.holder.Free? && w.creds.Some? && w.reauth.None? && Follows(w, c)
    requires w.login == LInvalidate(w.generation, w.creds.value.token)
    ensures Leads(cfg, false, start, v) && Publishing(v, w.generation, |w.states|, w.requests, c, ToPrepared)
  {
    v := InvalidateOwnResult(w, true);
    LeadsPublish(cfg, false, start, w, InvalidateOwn(true), v);
  }

  lemma Prepared(cfg: Config, start: World, w: World, g: nat, n: nat, rs: seq<Request>, c: Creds) returns (v: World)
    requires Leads(cfg, false, start, w) && Completed(w, g, n, rs, c) && w.login == LPrepared(true)
    ensures Leads(cfg, false, start, v) && Installing(v, g, n, rs, c)
  {
    var w1 := w.(login := LAwait(n, true));
    LeadsLook(cfg, false, start, w, ReadState, w1);
    v := GetsToInstall(cfg, start, w1, g, n, rs, c);
  }

  /** A forced login out of a session, up to its install: the requests begun
      before are still pending. */
  lemma ReloginGetsToInstall(cfg: Config, w: World, c: Creds) returns (v: World)
    requires Reachable(cfg, w) && Resting(w) && w.creds.Some? && Follows(w, c)
    ensures Leads(cfg, false, w, v) && Installing(v, w.generation, |w.states|, w.requests, c)
  {
    ReachableSafe(cfg, w);
    var n := |w.states|;
    var given := GivesUpSession(cfg, w);
    var published := InvalidatesOwn(cfg, w, given, c);
    var completed := Completes(cfg, w, published, w.generation, n, w.requests, c, ToPrepared);
    v := Prepared(cfg, w, completed, w.generation, n, w.requests, c);
  }

  /** From every reachable session a forced login whose QR code is confirmed
      with fresh credentials of its account can get through. */
  lemma ReloginSucceeds(cfg: Config, w: World, c: Creds)
    requires Reachable(cfg, w) && Resting(w) && w.creds.Some? && Follows(w, c)
    ensures exists v :: Leads(cfg, false, w, v) && LoggedIn(v, w.generation, c)
  {
    var installing := ReloginGetsToInstall(cfg, w, c);
    var v := Installs(cfg, w, installing, w.generation, |w.states|, c);
  }

  // ----- from a pending state -----

  lemma ReturnsToPending(cfg: Config, start: World, w: World, n: nat) returns (v: World)
    requires Leads(cfg, false, start, w) && w.login == LRestored(true) && w.reauth == Some(n)
    ensures Leads(cfg, false, start, v) && v == w.(login := LAwait(n, false))
  {
    LeadsLook(cfg, false, start, w, AfterRestore, w.(login := LPrepare));
    v := w.(login := LAwait(n, false));
    LeadsLook(cfg, false, start, w.(login := LPrepare), Prepare, v);
  }

  lemma FindsPending(cfg: Config, w: World, n: nat) returns (v: World)
    requires Resting(w) && w.reauth == Some(n)
    ensures Leads(cfg, false, w, v) && v == w.(login := LAwait(n, false))
  {
    LeadsHere(cfg, false, w);
    LeadsLook(cfg, false, w, w, StartLogin(true), w.(login := LRestore(true)));
    LeadsLook(cfg, false, w, w.(login := LRestore(true)), CheckPending, w.(login := LRestored(true)));
    v := ReturnsToPending(cfg, w, w.(login := LRestored(true)), n);
  }

  /** A state whose cleanup failed is published once more and cleaned up. */
  lemma CleansAgain(cfg: Config, start: World, w: World, n: nat, c: Creds) returns (v: World)
    requires Leads(cfg, false, start, w) && w.login == LAwait(n, false) && w.holder.Free?
    requires Underway(w, w.generation, n, w.requests, c) && w.states[n].done && !w.states[n].clean
    ensures Leads(cfg, false, start, v) && Completed(v, w.generation, |w.states|, w.requests, c) && v.login == LAuth(true, Some(|w.states|))
  {
    var w1 := w.(login := LRetry(n));
    LeadsLook(cfg, false, start, w, Await, w1);
    var w2 := RetryResult(w1, false, true);
    LeadsPublish(cfg, false, start, w1, Retry(false, true), w2);
    v := Completes(cfg, start, w2, w.generation, |w.states|, w.requests, c, ToRetried);
  }

  /** From every reachable pending state that is complete, cleaned up or not, a
      forced login whose QR code is confirmed can get through. */
  lemma ReauthenticationSucceeds(cfg: Config, w: World, n: nat, c: Creds)
    requires Reachable(cfg, w) && Resting(w) && w.reauth == Some(n) && Admits(w, n, c) && w.states[n].done
    ensures exists v :: Leads(cfg, false, w, v) && LoggedIn(v, w.generation, c)
  {
    ReachableSafe(cfg, w);
    var awaiting := FindsPending(cfg, w, n);
    if w.states[n].clean {
      var installing := GetsToInstall(cfg, w, awaiting, w.generation, n, w.requests, c);
      var v := Installs(cfg, w, installing, w.generation, n, c);
    } else {
      var again := CleansAgain(cfg, w, awaiting, n, c);
      var shown := again.(login := LQr(true, Some(|w.states|)));
      LeadsAcquire(cfg, false, w, again, Authenticate(false), shown);
      var installing := ShownGetsToInstall(cfg, w, shown, w.generation, |w.states|, w.requests, c);
      var v := Installs(cfg, w, installing, w.generation, |w.states|, c);
    }
  }

  // ----- from any disk -----

  /** What a marker and the configuration demand of credentials. */
  predicate MayFollow(cfg: Config, marker: Marker, c: Creds) {
    && c.token != "" && c.account != "" && (cfg.account != "" ==> c.account == cfg.account)
    && (marker.Present? ==> FingerprintOf(c.token) != marker.rec.sha && (marker.rec.account != "" ==> c.account == marker.rec.account))
  }

  lemma PublishesAnonymously(cfg: Config, start: World, w: World, c: Creds, after: After) returns (v: World)
    requires Leads(cfg, false, start, w) && w.login == LAnonymous(after)
    requires w.reauth.None? && w.holder.Free? && w.requests == [] && w.states == [] && w.generation == 0
    requires w.account == cfg.account && MayFollow(cfg, Absent, c)
    ensures Leads(cfg, false, start, v) && Publishing(v, 0, 0, [], c, after)
  {
    v := AnonymousResult(w, false, true);
    LeadsPublish(cfg, false, start, w, GoAnonymous(false, true), v);
  }

  lemma AdoptsMarker(cfg: Config, start: World, w: World, rec: Record, c: Creds) returns (v: World)
    requires Leads(cfg, false, start, w) && w.login == LAdopt(true, rec)
    requires w.reauth.None? && w.holder.Free? && w.requests == [] && w.states == [] && w.generation == 0
    requires w.account == cfg.account && MayFollow(cfg, Present(rec), c)
    ensures Leads(cfg, false, start, v) && Publishing(v, 0, 0, [], c, ToRestored(true))
  {
    v := AdoptResult(cfg, w, true, true);
    LeadsPublish(cfg, false, start, w, Adopt(true, true), v);
  }

  lemma StartsForced(cfg: Config, process: nat, disk: Disk) returns (v: World)
    ensures var w := Boot(cfg, process, disk); Leads(cfg, false, w, v) && v == w.(login := LLoad(true))
  {
    var w := Boot(cfg, process, disk);
    LeadsHere(cfg, false, w);
    LeadsLook(cfg, false, w, w, StartLogin(true), w.(login := LRestore(true)));
    v := w.(login := LLoad(true));
    LeadsLook(cfg, false, w, w.(login := LRestore(true)), CheckPending, v);
  }

  /** A marker was found, read or not, and is taken over. */
  lemma TakesOver(cfg: Config, process: nat, disk: Disk, c: Creds) returns (v: World)
    requires !disk.marker.Absent? && MayFollow(cfg, disk.marker, c)
    ensures Leads(cfg, false, Boot(cfg, process, disk), v) && Publishing(v, 0, 0, [], c, ToRestored(true))
  {
    var start := Boot(cfg, process, disk);
    var w := StartsForced(cfg, process, disk);
    var w1 := LoadResult(w, true);
    LeadsLook(cfg, false, start, w, LoadMarker(true), w1);
    if disk.marker.Present? {
      v := AdoptsMarker(cfg, start, w1, disk.marker.rec, c);
    } else {
      v := PublishesAnonymously(cfg, start, w1, c, ToRestored(true));
    }
  }

  lemma StartsAnonymously(cfg: Config, process: nat, disk: Disk, c: Creds) returns (v: World)
    requires disk.marker.Absent? && MayFollow(cfg, Absent, c)
    ensures Leads(cfg, false, Boot(cfg, process, disk), v) && Publishing(v, 0, 0, [], c, ToPrepared)
  {
    var start := Boot(cfg, process, disk);
    var w := StartsForced(cfg, process, disk);
    LeadsLook(cfg, false, start, w, LoadMarker(true), w.(login := LRestored(true)));
    LeadsLook(cfg, false, start, w.(login := LRestored(true)), AfterRestore, w.(login := LPrepare));
    LeadsLook(cfg, false, start, w.(login := LPrepare), Prepare, w.(login := LAnonymous(ToPrepared)));
    v := PublishesAnonymously(cfg, start, w.(login := LAnonymous(ToPrepared)), c, ToPrepared);
  }

  /** Fail-closed is not locked out: from any disk, with any marker, readable
      or not, a forced login whose QR code is confirmed with credentials of the
      recorded and the configured account can get through. */
  lemma AnyDiskRecovers(cfg: Config, process: nat, disk: Disk, c: Creds)
    requires MayFollow(cfg, disk.marker, c)
    ensures exists v :: Leads(cfg, false, Boot(cfg, process, disk), v) && LoggedIn(v, 0, c)
  {
    var start := Boot(cfg, process, disk);
    var installing: World;
    if disk.marker.Absent? {
      var published := StartsAnonymously(cfg, process, disk, c);
      var completed := Completes(cfg, start, published, 0, 0, [], c, ToPrepared);
      installing := Prepared(cfg, start, completed, 0, 0, [], c);
    } else {
      var published := TakesOver(cfg, process, disk, c);
      var completed := Completes(cfg, start, published, 0, 0, [], c, ToRestored(true));
      var awaiting := ReturnsToPending(cfg, start, completed, 0);
      installing := GetsToInstall(cfg, start, awaiting, 0, 0, [], c);
    }
    var v := Installs(cfg, start, installing, 0, 0, c);
  }

  // ----- an ordinary login -----

  /** Logged in as c by an ordinary login, with the context tokens of the
      account's own file or of the configured one. */
  ghost predicate Ordinary(cfg: Config, disk: Disk, v: World, c: Creds) {
    && LoggedIn(v, 0, c)
    && v.ctxPath == (if cfg.fixedPath then cfg.path else AccountPath(if cfg.account == "" then c.account else cfg.account))
    && v.ctxMem == ContextFile(disk.contexts, v.ctxPath)
  }

  lemma GetsOrdinary(cfg: Config, process: nat, disk: Disk, w: World, c: Creds)
    requires disk.marker.Absent? && (cfg.account == "" || c.account == cfg.account)
    requires var start := Boot(cfg, process, disk);
      Leads(cfg, false, start, w) && w == start.(disk := disk.(creds := Some(c)), login := LGot(false, None, c))
    ensures exists v :: Leads(cfg, false, Boot(cfg, process, disk), v) && Ordinary(cfg, disk, v, c)
  {
    var start := Boot(cfg, process, disk);
    var checked := ChecksStored(cfg, false, start, w, c);
    var v := InstallsStored(cfg, false, start, checked);
    assert Ordinary(cfg, disk, v, c);
  }

  lemma ShowsOrdinaryCode(cfg: Config, process: nat, disk: Disk) returns (v: World)
    requires disk.marker.Absent?
    ensures var start := Boot(cfg, process, disk); Leads(cfg, false, start, v) && v == start.(login := LQr(false, None))
  {
    var start := Boot(cfg, process, disk);
    FindsNoMarker(cfg, start);
    LeadsLoud(cfg, start, start.(login := LAuth(false, None)));
    v := start.(login := LQr(false, None));
    LeadsAcquire(cfg, false, start, start.(login := LAuth(false, None)), Authenticate(false), v);
  }

  /** Without a marker an ordinary login can get through with any confirmed
      code of the configured account, or any account if none is. */
  lemma CodeLogsIn(cfg: Config, process: nat, disk: Disk, c: Creds)
    requires disk.marker.Absent? && c.token != "" && c.account != "" && (cfg.account == "" || c.account == cfg.account)
    ensures exists v :: Leads(cfg, false, Boot(cfg, process, disk), v) && Ordinary(cfg, disk, v, c)
  {
    var start := Boot(cfg, process, disk);
    var w := ShowsOrdinaryCode(cfg, process, disk);
    var got := start.(disk := disk.(creds := Some(c)), login := LGot(false, None, c));
    LeadsAcquire(cfg, false, start, w, QrConfirms(c, true), got);
    GetsOrdinary(cfg, process, disk, got, c);
  }

  /** Or with the stored credentials, whether they are read at once or only
      when the server says that the account is bound already. */
  lemma StoredLogsIn(cfg: Config, process: nat, disk: Disk, c: Creds, boundAlready: bool)
    requires disk.marker.Absent? && disk.creds == Some(c) && (cfg.account == "" || c.account == cfg.account)
    ensures exists v :: Leads(cfg, false, Boot(cfg, process, disk), v) && Ordinary(cfg, disk, v, c)
  {
    var start := Boot(cfg, process, disk);
    var got := start.(disk := disk.(creds := Some(c)), login := LGot(false, None, c));
    if boundAlready {
      var w := ShowsOrdinaryCode(cfg, process, disk);
      LeadsAcquire(cfg, false, start, w, QrAlreadyBound(true), got);
    } else {
      FindsNoMarker(cfg, start);
      var taken := TakesStored(cfg, start, start.(login := LAuth(false, None)), c);
      LeadsLoud(cfg, start, taken);
      assert taken == got;
    }
    GetsOrdinary(cfg, process, disk, got, c);
  }

  // ----- an install that waits for a request -----

  lemma LeadsReachable(cfg: Config, quiet: bool, disk: Disk, w: World)
    requires Leads(cfg, quiet, Boot(cfg, 0, disk), w)
    ensures Reachable(cfg, w)
  {
  }

  lemma LeadsThrough(cfg: Config, start: World, w: World, v: World)
    requires Leads(cfg, false, start, w) && Leads(cfg, false, w, v)
    ensures Leads(cfg, false, start, v)
  {
    var first :| Run(cfg, start, first) == Some(w);
    var second :| Run(cfg, w, second) == Some(v);
    RunsJoin(cfg, start, first, second);
    assert Run(cfg, start, first + second) == Some(v);
  }

  lemma {:induction false} RunsJoin(cfg: Config, start: World, first: seq<Op>, second: seq<Op>)
    requires Run(cfg, start, first).Some?
    ensures Run(cfg, start, first + second) == Run(cfg, Run(cfg, start, first).value, second)
    decreases |second|
  {
    if second == [] {
      assert first + second == first;
    } else {
      var prior := second[..|second| - 1];
      RunsJoin(cfg, start, first, prior);
      assert (first + second)[..|first + second| - 1] == first + prior;
    }
  }

  /** The install waits for exactly the pending request. */
  ghost predicate HeldUp(cfg: Config, w: World, r: Request, c: Creds) {
    && w.requests == [r] && w.login.LPublish? && !Enabled(cfg, w, Install(true)) && Enabled(cfg, w, EndRequest(0))
    && var v := Apply(cfg, w, EndRequest(0));
       Enabled(cfg, v, Install(true)) && Apply(cfg, v, Install(true)).creds == Some(c)
  }

  lemma InstallingIsHeldUp(cfg: Config, w: World, g: nat, n: nat, r: Request, c: Creds)
    requires Installing(w, g, n, [r], c)
    ensures HeldUp(cfg, w, r, c)
  {
    EndsExactly(cfg, w, 0);
    var v := Apply(cfg, w, EndRequest(0));
    assert v == w.(requests := []);
    InstallApplied(cfg, v, true);
  }

  lemma InstallApplied(cfg: Config, w: World, clearOk: bool)
    requires Enabled(cfg, w, Install(clearOk))
    ensures Apply(cfg, w, Install(clearOk)) == InstallResult(w, clearOk)
  {
  }

  /** A request begun in a session that a forced login then replaces: the login
      comes up to its install and waits for the request to end. */
  lemma InstallWaits(cfg: Config, disk: Disk, c0: Creds, c: Creds)
    requires disk.marker.Absent? && disk.creds == Some(c0) && (cfg.account == "" || c0.account == cfg.account)
    requires c0.account != "" && c.token != "" && c.token != c0.token && c.account == c0.account
    ensures exists w :: Reachable(cfg, w) && HeldUp(cfg, w, Request(1, c0.token), c)
  {
    var start := Boot(cfg, 0, disk);
    var session := PicksUpCredentials(cfg, 0, disk, c0);
    LeadsLoud(cfg, start, session);
    BeginsExactly(cfg, session, 1);
    var asked := session.(requests := [Request(1, c0.token)]);
    LeadsOn(cfg, false, start, session, BeginRequest(1));
    assert session.requests + [Request(1, c0.token)] == [Request(1, c0.token)];
    LeadsReachable(cfg, false, disk, asked);
    var w := ReloginGetsToInstall(cfg, asked, c);
    LeadsThrough(cfg, start, asked, w);
    LeadsReachable(cfg, false, disk, w);
    InstallingIsHeldUp(cfg, w, 1, |asked.states|, Request(1, c0.token), c);
  }

  lemma LeadsLoud(cfg: Config, start: World, w: World)
    requires Leads(cfg, true, start, w)
    ensures Leads(cfg, false, start, w)
  {
  }
}
