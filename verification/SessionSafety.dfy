/** What every reachable session state satisfies: one generation at a time, one
    completion per published state, and a marker on disk that says what is
    still to be cleaned. */
module SessionSafety {
  import opened Wire
  import opened Session

  // ----- generations and credentials -----

  ghost predicate Generations(w: World) {
    && (w.reauth.Some? ==> w.reauth.value < |w.states| && w.states[w.reauth.value].generation == w.generation && w.creds.None?)
    && (w.creds.Some? ==> w.generation in w.tokenOf && w.tokenOf[w.generation] == w.creds.value.token)
    && (w.creds.Some? ==> w.disk.creds == w.creds && w.disk.marker.Absent?)
    && (w.generation > 0 ==> w.creds.Some? || w.reauth.Some?)
    && OneTokenEach(w.tokenOf, w.generation)
  }

  ghost predicate OneTokenEach(tokenOf: map<nat, Token>, generation: nat) {
    forall g: nat :: g in tokenOf <==> 1 <= g <= generation
  }

  ghost predicate Increasing(invalidated: seq<nat>) {
    forall i, j :: 0 <= i < j < |invalidated| ==> invalidated[i] < invalidated[j]
  }

  /** Invalidations come in increasing order, at most one a generation; the
      last is the current generation's exactly while a state is pending. */
  ghost predicate InvalidatedOnce(w: World) {
    && Increasing(w.invalidated)
    && (|w.invalidated| > 0 ==> w.invalidated[|w.invalidated| - 1] <= w.generation)
    && (w.reauth.Some? <==> |w.invalidated| > 0 && w.invalidated[|w.invalidated| - 1] == w.generation)
  }

  ghost predicate Begun(requests: seq<Request>, generation: nat, tokenOf: map<nat, Token>) {
    forall i :: 0 <= i < |requests| ==>
      requests[i].generation == generation && generation in tokenOf && requests[i].token == tokenOf[generation]
  }

  ghost predicate InFlight(w: World) { Begun(w.requests, w.generation, w.tokenOf) }

  // ----- who completes a published state -----

  predicate LoginOwes(w: World, s: nat) {
    (w.login.LCleaning? && w.login.work.sid == s) || (w.login.LClosing? && w.login.sid == s)
  }

  predicate InvalidatorOwes(w: World, s: nat) {
    w.holder.ByInvalidator? && w.holder.work.sid == s
  }

  /** How many goroutines are still going to close the channel of s. */
  function Owners(w: World, s: nat): nat {
    (if LoginOwes(w, s) then 1 else 0) + (if InvalidatorOwes(w, s) then 1 else 0) + (if s in w.closers then 1 else 0)
  }

  ghost predicate OnlyCloser(closers: map<nat, bool>, reauth: Option<nat>) {
    forall s: nat :: s in closers ==> reauth == Some(s)
  }

  ghost predicate OnlyOpen(states: seq<Pending>, reauth: Option<nat>) {
    forall s: nat :: s < |states| && !states[s].done ==> reauth == Some(s)
  }

  /** Only the current state can be incomplete, and then exactly one goroutine
      is going to complete it. */
  ghost predicate Completion(w: World) {
    && (w.login.LCleaning? ==> w.reauth == Some(w.login.work.sid))
    && (w.login.LClosing? ==> w.reauth == Some(w.login.sid))
    && (w.holder.ByInvalidator? ==> w.reauth == Some(w.holder.work.sid))
    && OnlyCloser(w.closers, w.reauth) && OnlyOpen(w.states, w.reauth)
    && (w.reauth.Some? && w.reauth.value < |w.states| ==>
          Owners(w, w.reauth.value) == if w.states[w.reauth.value].done then 0 else 1)
  }

  ghost predicate Locks(w: World) {
    && (w.holder.ByLogin? <==> w.login.LCleaning? || w.login.LClearing? || w.login.LPublish?)
    && (w.holder.ByWriter? ==> w.reauth.None? && w.holder.generation == w.generation)
  }

  // ----- the current state and the disk -----

  ghost predicate EmptyFiles(contexts: map<Path, Tokens>, paths: set<Path>) {
    forall p :: p in paths ==> ContextFile(contexts, p) == map[]
  }

  ghost predicate Emptied(w: World, paths: set<Path>) {
    && EmptyFiles(w.disk.contexts, paths)
    && (w.ctxPath in paths ==> w.ctxMem == map[])
  }

  ghost predicate Recorded(d: Disk, p: Pending) {
    && d.marker.Present?
    && d.marker.rec.sha == p.sha
    && d.marker.rec.account == p.account
    && p.base <= d.marker.rec.paths <= p.paths
  }

  ghost predicate Progress(p: Pending, work: Cleanup) {
    && work.left <= p.base
    && (!work.failed ==> p.markOk && p.base - work.left <= p.emptied)
  }

  ghost predicate Finished(p: Pending) {
    p.markOk && p.credsGone && p.base <= p.emptied
  }

  /** A path set beyond the published one comes from an install attempt that
      knew no account; a known account's own path is always in the set. */
  predicate Extends(cfg: Config, w: World, p: Pending) {
    && p.base <= p.paths
    && w.ctxPath in p.base
    && (w.account != "" ==> p.account == w.account)
    && (!cfg.fixedPath && w.account == "" && p.account != "" ==> AccountPath(p.account) in p.base)
    && (cfg.fixedPath || w.account != "" || p.account != "" ==> p.paths == p.base)
  }

  ghost predicate Current(cfg: Config, w: World) {
    w.reauth.Some? && w.reauth.value < |w.states| ==>
      var p := w.states[w.reauth.value];
      && Extends(cfg, w, p)
      && Emptied(w, p.emptied)
      && p.emptied <= p.paths
      && (p.markOk ==> Recorded(w.disk, p))
      && (p.credsGone && !p.clean ==> w.disk.creds.None?)
      && (p.clean ==> p.done && Finished(p))
  }

  ghost predicate Closable(closers: map<nat, bool>, states: seq<Pending>) {
    forall s: nat :: s in closers && s < |states| ==> !states[s].clean && (closers[s] ==> Finished(states[s]))
  }

  ghost predicate Cleaning(w: World) {
    && (w.login.LCleaning? && w.login.work.sid < |w.states| ==>
          Progress(w.states[w.login.work.sid], w.login.work) && !w.states[w.login.work.sid].clean)
    && (w.holder.ByInvalidator? && w.holder.work.sid < |w.states| ==>
          Progress(w.states[w.holder.work.sid], w.holder.work) && !w.states[w.holder.work.sid].clean)
    && (w.login.LClosing? && w.login.sid < |w.states| ==>
          !w.states[w.login.sid].clean && (w.login.ok ==> Finished(w.states[w.login.sid])))
    && Closable(w.closers, w.states)
  }

  // ----- the account -----

  ghost predicate Accounts(cfg: Config, w: World) {
    && (cfg.account != "" ==> w.account == cfg.account)
    && (w.creds.Some? ==> w.creds.value.account == w.account)
    && (cfg.fixedPath ==> w.ctxPath == cfg.path)
  }

  // ----- where login stands -----

  /** What the target of a forced login is throughout. */
  ghost predicate ForcedReady(w: World, target: Option<nat>) {
    target.Some? && w.reauth == target && target.value < |w.states| && w.states[target.value].clean
  }

  /** What holds throughout an ordinary login. */
  ghost predicate OrdinaryReady(w: World, target: Option<nat>) {
    target.None? && w.creds.None? && w.reauth.None? && w.disk.marker.Absent?
  }

  ghost predicate Ready(w: World, force: bool, target: Option<nat>) {
    if force then ForcedReady(w, target) else OrdinaryReady(w, target)
  }

  ghost predicate Got(cfg: Config, w: World, force: bool, target: Option<nat>, c: Creds) {
    Ready(w, force, target) && w.disk.creds == Some(c)
  }

  ghost predicate Chosen(cfg: Config, w: World, force: bool, target: Option<nat>, c: Creds, path: Path, same: bool) {
    && Got(cfg, w, force, target, c)
    && (target.Some? ==> target.value < |w.states|)
    && Acceptable(w, target, c)
    && path == InstallPath(cfg, w, target, c)
    && same == !UsesNewStore(cfg, w, target)
  }

  ghost predicate ClearingFacts(w: World, sid: nat, path: Path, mem: Tokens, left: set<Path>, failed: bool)
    requires sid < |w.states|
  {
    var p := w.states[sid];
    && w.disk.marker == Present(RecordOf(p))
    && path in p.paths
    && left <= p.paths
    && mem == map[]
    && (!failed ==> p.paths - left <= p.emptied)
  }

  ghost predicate Phase(cfg: Config, w: World) {
    match w.login
    case LIdle => true
    case LRestore(_) => true
    case LLoad(_) => true
    case LAdopt(_, rec) => w.reauth.None? ==> w.disk.marker == Present(rec)
    case LAnonymous(after) =>
      && !after.ToRetried?
      && (after.ToPrepared? && w.reauth.None? ==> w.creds.None? && w.disk.marker.Absent?)
      && (after.ToRestored? && w.reauth.None? ==> w.disk.marker.Absent? || w.disk.marker.Corrupt? || w.misread)
    case LCleaning(_, _) => true
    case LClosing(_, _, _) => true
    case LRestored(_) => w.reauth.None? ==> w.disk.marker.Absent?
    case LPrepare => w.reauth.None? ==> w.disk.marker.Absent?
    case LInvalidate(g, t) => g == w.generation && (w.reauth.None? ==> w.creds.Some? && w.creds.value.token == t)
    case LPrepared(_) => w.reauth.Some?
    case LAwait(sid, _) => w.reauth == Some(sid)
    case LRetry(previous) => w.reauth == Some(previous) && previous < |w.states| && w.states[previous].done
    case LAuth(force, target) => Ready(w, force, target)
    case LQr(force, target) => Ready(w, force, target)
    case LGot(force, target, c) => Got(cfg, w, force, target, c)
    case LDiscard => w.creds.None?
    case LInstall(force, target, c, path, same) => Chosen(cfg, w, force, target, c, path, same)
    case LClearing(sid, c, path, same, mem, left, failed) =>
      Chosen(cfg, w, true, Some(sid), c, path, same) && ClearingFacts(w, sid, path, mem, left, failed)
    case LPublish(force, target, c, path, same, mem) =>
      && Chosen(cfg, w, force, target, c, path, same)
      && (force ==> ClearingFacts(w, target.value, path, mem, {}, false))
  }

  // ----- tokens after a forced install -----

  ghost predicate WrittenBy(tokens: Tokens, writer: Writer) {
    forall u :: u in tokens ==> tokens[u].writer == writer
  }

  ghost predicate FilesBy(contexts: map<Path, Tokens>, paths: set<Path>, writer: Writer) {
    forall p :: p in paths ==> WrittenBy(ContextFile(contexts, p), writer)
  }

  ghost predicate Sealing(w: World) {
    w.sealed.Some? ==>
      && w.generation > 0
      && w.ctxPath in w.sealed.value
      && WrittenBy(w.ctxMem, Writer(w.process, w.generation))
      && FilesBy(w.disk.contexts, w.sealed.value, Writer(w.process, w.generation))
  }

  ghost predicate Safe(cfg: Config, w: World) {
    && Generations(w) && InvalidatedOnce(w) && InFlight(w) && Completion(w) && Locks(w)
    && Current(cfg, w) && Cleaning(w) && Accounts(cfg, w) && Phase(cfg, w) && Sealing(w)
  }

  lemma BootSafe(cfg: Config, process: nat, disk: Disk)
    ensures Safe(cfg, Boot(cfg, process, disk))
  {
  }

  // ----- what a change of some fields cannot touch -----

  lemma Frame(cfg: Config, w: World, v: World)
    requires Safe(cfg, w)
    requires v == w.(login := v.login, requests := v.requests, misread := v.misread, holder := v.holder)
    ensures Generations(v) && InvalidatedOnce(v) && Accounts(cfg, v) && Current(cfg, v) && Sealing(v)
  {
  }

  predicate Busy(l: Login) { l.LCleaning? || l.LClosing? || l.LClearing? || l.LPublish? }

  lemma LoginMoves(cfg: Config, w: World, v: World)
    requires Safe(cfg, w) && !Busy(w.login) && !Busy(v.login)
    requires v == w.(login := v.login, misread := v.misread)
    requires Phase(cfg, v)
    ensures Safe(cfg, v)
  {
    Frame(cfg, w, v);
    assert Completion(v) && Locks(v) && Cleaning(v) && InFlight(v);
  }

  // ----- every step keeps it: requests, invalidators, writers -----

  lemma SafeBegin(cfg: Config, w: World, g: nat)
    requires Safe(cfg, w)
    ensures Safe(cfg, BeginResult(w, g))
  {
  }

  lemma FewerRequests(w: World, i: nat)
    requires InFlight(w) && i < |w.requests|
    ensures InFlight(EndResult(w, i))
  {
    var v := EndResult(w, i);
    forall k | 0 <= k < |v.requests|
      ensures v.requests[k] == w.requests[if k < i then k else k + 1]
    {
    }
  }

  /** Only InFlight speaks about the pending requests. */
  lemma PhaseRequests(cfg: Config, w: World, v: World)
    requires Phase(cfg, w) && v == w.(requests := v.requests)
    ensures Phase(cfg, v)
  {
  }

  lemma RequestsAlone(cfg: Config, w: World, v: World)
    requires Safe(cfg, w) && InFlight(v) && v == w.(requests := v.requests)
    ensures Safe(cfg, v)
  {
    PhaseRequests(cfg, w, v);
    Frame(cfg, w, v);
    assert Completion(v) && Locks(v) && Cleaning(v);
  }

  lemma SafeEnd(cfg: Config, w: World, i: nat)
    requires Safe(cfg, w) && i < |w.requests|
    ensures Safe(cfg, EndResult(w, i))
  {
    FewerRequests(w, i);
    RequestsAlone(cfg, w, EndResult(w, i));
  }

  lemma ExpireBookkeeping(cfg: Config, w: World, g: nat, t: Token, markOk: bool)
    requires Generations(w) && InvalidatedOnce(w) && InFlight(w) && Completion(w) && Locks(w) && Accounts(cfg, w)
    requires w.holder.Free?
    ensures var v := ExpireResult(w, g, t, markOk);
      Generations(v) && InvalidatedOnce(v) && InFlight(v) && Completion(v) && Locks(v) && Accounts(cfg, v)
  {
  }

  lemma ExpireFiles(cfg: Config, w: World, g: nat, t: Token, markOk: bool)
    requires Generations(w) && Completion(w) && Locks(w) && Accounts(cfg, w) && Current(cfg, w) && Cleaning(w) && Sealing(w)
    requires w.holder.Free?
    ensures var v := ExpireResult(w, g, t, markOk); Current(cfg, v) && Cleaning(v) && Sealing(v)
  {
  }

  lemma ExpirePhase(cfg: Config, w: World, g: nat, t: Token, markOk: bool)
    requires Generations(w) && Phase(cfg, w) && Locks(w) && w.holder.Free?
    ensures Phase(cfg, ExpireResult(w, g, t, markOk))
  {
  }

  lemma SafeExpire(cfg: Config, w: World, g: nat, t: Token, markOk: bool)
    requires Safe(cfg, w) && w.holder.Free?
    ensures Safe(cfg, ExpireResult(w, g, t, markOk))
  {
    ExpireBookkeeping(cfg, w, g, t, markOk);
    ExpireFiles(cfg, w, g, t, markOk);
    ExpirePhase(cfg, w, g, t, markOk);
  }

  lemma SafeInvalidatorClears(cfg: Config, w: World, p: Path, ok: bool)
    requires Safe(cfg, w) && Enabled(cfg, w, InvalidatorClears(p, ok))
    ensures Safe(cfg, InvalidatorClearsResult(w, p, ok))
  {
    var v := InvalidatorClearsResult(w, p, ok);
    assert Generations(v) && Completion(v);
    assert Current(cfg, v) && Cleaning(v);
  }

  lemma SafeInvalidatorFinishes(cfg: Config, w: World, ok: bool)
    requires Safe(cfg, w) && Enabled(cfg, w, InvalidatorFinishes(ok))
    ensures Safe(cfg, InvalidatorFinishesResult(w, ok))
  {
  }

  lemma ClosesBookkeeping(cfg: Config, w: World, s: nat)
    requires Generations(w) && InvalidatedOnce(w) && InFlight(w) && Completion(w) && Locks(w) && Accounts(cfg, w)
    requires Enabled(cfg, w, InvalidatorCloses(s))
    ensures var v := InvalidatorClosesResult(w, s);
      Generations(v) && InvalidatedOnce(v) && InFlight(v) && Completion(v) && Locks(v) && Accounts(cfg, v)
  {
  }

  lemma ClosesFiles(cfg: Config, w: World, s: nat)
    requires Completion(w) && Current(cfg, w) && Cleaning(w) && Sealing(w)
    requires Enabled(cfg, w, InvalidatorCloses(s))
    ensures var v := InvalidatorClosesResult(w, s); Current(cfg, v) && Cleaning(v) && Sealing(v)
  {
  }

  lemma ClosesPhase(cfg: Config, w: World, s: nat)
    requires Phase(cfg, w) && Enabled(cfg, w, InvalidatorCloses(s)) && w.reauth == Some(s) && !w.states[s].clean
    ensures Phase(cfg, InvalidatorClosesResult(w, s))
  {
    assert !ForcedReady(w, w.reauth);
  }

  lemma SafeInvalidatorCloses(cfg: Config, w: World, s: nat)
    requires Safe(cfg, w) && Enabled(cfg, w, InvalidatorCloses(s))
    ensures Safe(cfg, InvalidatorClosesResult(w, s))
  {
    assert w.reauth == Some(s) && !w.states[s].clean;
    ClosesBookkeeping(cfg, w, s);
    ClosesFiles(cfg, w, s);
    ClosesPhase(cfg, w, s);
  }

  lemma SafeWriteToken(cfg: Config, w: World, g: nat, user: string, value: string)
    requires Safe(cfg, w) && w.holder.Free?
    ensures Safe(cfg, WriteTokenResult(w, g, user, value))
  {
  }

  lemma FinishBookkeeping(cfg: Config, w: World, ok: bool)
    requires Generations(w) && InvalidatedOnce(w) && InFlight(w) && Completion(w) && Locks(w) && Accounts(cfg, w)
    requires w.holder.ByWriter?
    ensures var v := FinishWriteResult(w, ok);
      Generations(v) && InvalidatedOnce(v) && InFlight(v) && Completion(v) && Locks(v) && Accounts(cfg, v)
  {
  }

  lemma FinishFiles(cfg: Config, w: World, ok: bool)
    requires Locks(w) && Completion(w) && Current(cfg, w) && Cleaning(w) && w.holder.ByWriter?
    ensures var v := FinishWriteResult(w, ok); Current(cfg, v) && Cleaning(v)
  {
  }

  lemma FinishSealing(w: World, ok: bool)
    requires Locks(w) && Sealing(w) && w.holder.ByWriter?
    ensures Sealing(FinishWriteResult(w, ok))
  {
  }

  lemma FinishPhase(cfg: Config, w: World, ok: bool)
    requires Locks(w) && Phase(cfg, w) && w.holder.ByWriter?
    ensures Phase(cfg, FinishWriteResult(w, ok))
  {
  }

  lemma SafeFinishWrite(cfg: Config, w: World, ok: bool)
    requires Safe(cfg, w) && w.holder.ByWriter?
    ensures Safe(cfg, FinishWriteResult(w, ok))
  {
    FinishBookkeeping(cfg, w, ok);
    FinishFiles(cfg, w, ok);
    FinishSealing(w, ok);
    FinishPhase(cfg, w, ok);
  }

  // ----- every step keeps it: login until its own state is complete -----

  /** A state as login publishes it: nothing done yet. */
  ghost predicate Unstarted(cfg: Config, w: World, p: Pending) {
    && !p.done && !p.clean && !p.credsGone && p.emptied == {} && p.paths == p.base
    && p.generation == w.generation
    && Extends(cfg, w, p)
  }

  function OwnPublication(w: World, p: Pending, after: After): World {
    Publish(w, p, ByLogin, LCleaning(Cleanup(|w.states|, p.paths, !p.markOk), after))
  }

  lemma PublishBookkeeping(w: World, p: Pending, after: After)
    requires Generations(w) && InvalidatedOnce(w) && Locks(w) && Completion(w) && InFlight(w)
    requires w.holder.Free? && !Busy(w.login)
    requires !p.done && p.generation == w.generation
    requires w.reauth.Some? ==> w.states[w.reauth.value].done
    ensures var v := OwnPublication(w, p, after); Generations(v) && InvalidatedOnce(v) && Locks(v) && Completion(v) && InFlight(v)
  {
    var v := OwnPublication(w, p, after);
    assert forall s: nat :: s < |w.states| ==> w.states[s].done;
  }

  lemma PublishSafe(cfg: Config, w: World, p: Pending, after: After)
    requires Safe(cfg, w)
    requires w.holder.Free? && !Busy(w.login)
    requires w.reauth.Some? ==> w.states[w.reauth.value].done
    requires Unstarted(cfg, w, p)
    ensures Safe(cfg, OwnPublication(w, p, after))
  {
    PublishBookkeeping(w, p, after);
    var v := OwnPublication(w, p, after);
    assert Current(cfg, v);
    assert Cleaning(v);
    assert Sealing(v);
  }

  /** The account and context store that an adopted marker names. */
  function WithAccountOf(cfg: Config, w: World, rec: Record): World {
    var newStore := w.account == "" && rec.account != "" && !cfg.fixedPath;
    w.(account := if w.account == "" then rec.account else w.account,
       ctxPath := AdoptedPath(cfg, w, rec),
       ctxMem := if newStore then map[] else w.ctxMem)
  }

  lemma AdoptedBookkeeping(cfg: Config, w: World, rec: Record)
    requires Generations(w) && InvalidatedOnce(w) && InFlight(w) && Completion(w) && Locks(w) && Accounts(cfg, w)
    requires w.creds.None?
    ensures var v := WithAccountOf(cfg, w, rec);
      Generations(v) && InvalidatedOnce(v) && InFlight(v) && Completion(v) && Locks(v) && Accounts(cfg, v)
  {
  }

  lemma AdoptedRest(cfg: Config, w: World, rec: Record)
    requires Cleaning(w) && Phase(cfg, w) && w.login.LAdopt? && w.reauth.None? && w.sealed.None?
    ensures var v := WithAccountOf(cfg, w, rec); Current(cfg, v) && Cleaning(v) && Sealing(v) && Phase(cfg, v)
  {
  }

  lemma AccountAdopted(cfg: Config, w: World, rec: Record)
    requires Safe(cfg, w) && w.login.LAdopt? && w.login.rec == rec && w.reauth.None?
    ensures Safe(cfg, WithAccountOf(cfg, w, rec))
  {
    assert w.creds.None? && w.generation == 0 && w.sealed.None?;
    AdoptedBookkeeping(cfg, w, rec);
    AdoptedRest(cfg, w, rec);
  }

  lemma SafeAdopt(cfg: Config, w: World, valid: bool, markOk: bool)
    requires Safe(cfg, w) && w.login.LAdopt? && w.holder.Free?
    ensures Safe(cfg, AdoptResult(cfg, w, valid, markOk))
  {
    var v := AdoptResult(cfg, w, valid, markOk);
    if v.reauth == w.reauth {
      LoginMoves(cfg, w, v);
    } else {
      var rec := w.login.rec;
      AccountAdopted(cfg, w, rec);
      var u := WithAccountOf(cfg, w, rec);
      var p := AdoptedState(cfg, w, rec, true);
      assert Extends(cfg, u, p);
      PublishSafe(cfg, u, p, ToRestored(w.login.force));
      assert v == OwnPublication(u, p, ToRestored(w.login.force));
    }
  }

  lemma SafeAnonymous(cfg: Config, w: World, readable: bool, markOk: bool)
    requires Safe(cfg, w) && w.login.LAnonymous? && w.holder.Free?
    ensures Safe(cfg, AnonymousResult(w, readable, markOk))
  {
    if w.reauth.Some? {
      LoginMoves(cfg, w, AnonymousResult(w, readable, markOk));
    } else {
      PublishSafe(cfg, w, StateWithoutCredentials(w, readable, markOk), w.login.after);
    }
  }

  lemma SafeInvalidateOwn(cfg: Config, w: World, markOk: bool)
    requires Safe(cfg, w) && w.login.LInvalidate? && w.holder.Free?
    ensures Safe(cfg, InvalidateOwnResult(w, markOk))
  {
    if Invalidates(w, w.login.generation, w.login.token) {
      PublishSafe(cfg, w, StateForSession(w, markOk), ToPrepared);
    } else {
      LoginMoves(cfg, w, InvalidateOwnResult(w, markOk));
    }
  }

  lemma SafeRetry(cfg: Config, w: World, readable: bool, markOk: bool)
    requires Safe(cfg, w) && Enabled(cfg, w, Retry(readable, markOk))
    ensures Safe(cfg, RetryResult(w, readable, markOk))
  {
    var previous := w.states[w.login.previous];
    var p := RetriedState(w, previous, readable, markOk);
    assert Extends(cfg, w, previous);
    assert Extends(cfg, w, p);
    PublishSafe(cfg, w, p, ToRetried);
  }

  lemma SafeLoginClears(cfg: Config, w: World, p: Path, ok: bool)
    requires Safe(cfg, w) && Enabled(cfg, w, LoginClears(p, ok))
    ensures Safe(cfg, LoginClearsResult(w, p, ok))
  {
    var v := LoginClearsResult(w, p, ok);
    assert Generations(v) && Completion(v);
    assert Current(cfg, v) && Cleaning(v);
  }

  lemma SafeLoginFinishes(cfg: Config, w: World, ok: bool)
    requires Safe(cfg, w) && Enabled(cfg, w, LoginFinishesCleanup(ok))
    ensures Safe(cfg, LoginFinishesResult(w, ok))
  {
  }

  lemma SafeLoginCloses(cfg: Config, w: World)
    requires Safe(cfg, w) && Enabled(cfg, w, LoginCloses)
    ensures Safe(cfg, LoginClosesResult(w))
  {
    var v := LoginClosesResult(w);
    assert Generations(v) && Completion(v);
    assert Current(cfg, v) && Cleaning(v);
  }

  lemma PhaseLoad(cfg: Config, w: World, readable: bool)
    requires Phase(cfg, w) && w.login.LLoad?
    ensures Phase(cfg, LoadResult(w, readable))
  {
  }

  lemma PhaseLook(cfg: Config, w: World, op: Op)
    requires Phase(cfg, w) && Generations(w) && Enabled(cfg, w, op) && LookOp(op)
    ensures Phase(cfg, ApplyLook(cfg, w, op))
  {
    if op.LoadMarker? {
      PhaseLoad(cfg, w, op.readable);
    }
  }

  lemma LoadShape(w: World, readable: bool)
    requires w.login.LLoad?
    ensures var v := LoadResult(w, readable); v == w.(login := v.login, misread := v.misread) && !Busy(v.login)
  {
  }

  lemma StepShape(cfg: Config, w: World, op: Op)
    requires Enabled(cfg, w, op) && (op.AfterRestore? || op.Prepare?)
    ensures var v := ApplyLook(cfg, w, op); v == w.(login := v.login, misread := v.misread) && !Busy(v.login)
  {
  }

  lemma LookShape(cfg: Config, w: World, op: Op)
    requires Enabled(cfg, w, op) && LookOp(op)
    ensures var v := ApplyLook(cfg, w, op); v == w.(login := v.login, misread := v.misread) && !Busy(v.login)
    ensures !Busy(w.login)
  {
    if op.LoadMarker? {
      LoadShape(w, op.readable);
    } else if op.AfterRestore? || op.Prepare? {
      StepShape(cfg, w, op);
    }
  }

  lemma SafeLook(cfg: Config, w: World, op: Op)
    requires Safe(cfg, w) && Enabled(cfg, w, op) && LookOp(op)
    ensures Safe(cfg, ApplyLook(cfg, w, op))
  {
    PhaseLook(cfg, w, op);
    LookShape(cfg, w, op);
    LoginMoves(cfg, w, ApplyLook(cfg, w, op));
  }

  // ----- every step keeps it: login from authentication on -----

  lemma PhaseAuthenticate(cfg: Config, w: World, readable: bool)
    requires Phase(cfg, w) && w.login.LAuth?
    ensures Phase(cfg, AuthenticateResult(w, readable))
  {
  }

  lemma AuthenticateShape(w: World, readable: bool)
    requires w.login.LAuth?
    ensures var v := AuthenticateResult(w, readable); v == w.(login := v.login) && !Busy(v.login)
  {
  }

  lemma ConfirmShape(w: World, c: Creds, saveOk: bool)
    requires w.login.LQr? && SidInRange(w, w.login.target)
    ensures var v := QrConfirmsResult(w, c, saveOk); v == w.(login := v.login, disk := w.disk.(creds := v.disk.creds)) && !Busy(v.login)
  {
  }

  lemma CheckShape(cfg: Config, w: World, pathsOk: bool)
    requires w.login.LGot? && SidInRange(w, w.login.target)
    ensures var v := CheckCredentialsResult(cfg, w, pathsOk); v == w.(login := v.login) && !Busy(v.login)
  {
  }

  lemma AcquireShape(cfg: Config, w: World, op: Op)
    requires Enabled(cfg, w, op) && AcquireOp(op)
    ensures var v := ApplyAcquire(cfg, w, op); v == w.(login := v.login, disk := w.disk.(creds := v.disk.creds))
  {
    if op.QrConfirms? {
      ConfirmShape(w, op.creds, op.saveOk);
    } else if op.CheckCredentials? {
      CheckShape(cfg, w, op.pathsOk);
    } else if op.Authenticate? {
      AuthenticateShape(w, op.readable);
    }
  }

  lemma SafeAuthenticate(cfg: Config, w: World, readable: bool)
    requires Safe(cfg, w) && w.login.LAuth?
    ensures Safe(cfg, AuthenticateResult(w, readable))
  {
    PhaseAuthenticate(cfg, w, readable);
    AuthenticateShape(w, readable);
    LoginMoves(cfg, w, AuthenticateResult(w, readable));
  }

  lemma CredsFileMoves(cfg: Config, w: World, v: World)
    requires Safe(cfg, w) && !Busy(w.login) && !Busy(v.login) && w.creds.None?
    requires v == w.(login := v.login, disk := w.disk.(creds := v.disk.creds))
    requires w.reauth.Some? && !w.states[w.reauth.value].clean ==> v.disk.creds.None? || v.disk.creds == w.disk.creds
    requires Phase(cfg, v)
    ensures Safe(cfg, v)
  {
    assert Generations(v) && InvalidatedOnce(v) && InFlight(v) && Accounts(cfg, v);
    assert Current(cfg, v) && Sealing(v);
    assert Completion(v) && Locks(v) && Cleaning(v);
  }

  lemma PhaseConfirm(cfg: Config, w: World, c: Creds, saveOk: bool)
    requires Phase(cfg, w) && Enabled(cfg, w, QrConfirms(c, saveOk))
    ensures Phase(cfg, QrConfirmsResult(w, c, saveOk))
  {
  }

  lemma SafeQrConfirms(cfg: Config, w: World, c: Creds, saveOk: bool)
    requires Safe(cfg, w) && Enabled(cfg, w, QrConfirms(c, saveOk))
    ensures Safe(cfg, QrConfirmsResult(w, c, saveOk))
  {
    ConfirmShape(w, c, saveOk);
    PhaseConfirm(cfg, w, c, saveOk);
    CredsFileMoves(cfg, w, QrConfirmsResult(w, c, saveOk));
  }

  lemma PhaseQrAlreadyBound(cfg: Config, w: World, readable: bool)
    requires Phase(cfg, w) && w.login.LQr?
    ensures Phase(cfg, QrAlreadyBoundResult(w, readable))
  {
  }

  lemma SafeQrAlreadyBound(cfg: Config, w: World, readable: bool)
    requires Safe(cfg, w) && w.login.LQr?
    ensures Safe(cfg, QrAlreadyBoundResult(w, readable))
  {
    PhaseQrAlreadyBound(cfg, w, readable);
    LoginMoves(cfg, w, QrAlreadyBoundResult(w, readable));
  }

  lemma SafeQrFails(cfg: Config, w: World)
    requires Safe(cfg, w) && w.login.LQr?
    ensures Safe(cfg, w.(login := LIdle))
  {
    var v := w.(login := LIdle);
    assert Phase(cfg, v);
    LoginMoves(cfg, w, v);
  }

  lemma PhaseCheck(cfg: Config, w: World, pathsOk: bool)
    requires Phase(cfg, w) && Generations(w) && Enabled(cfg, w, CheckCredentials(pathsOk))
    ensures Phase(cfg, CheckCredentialsResult(cfg, w, pathsOk))
  {
  }

  lemma SafeCheck(cfg: Config, w: World, pathsOk: bool)
    requires Safe(cfg, w) && Enabled(cfg, w, CheckCredentials(pathsOk))
    ensures Safe(cfg, CheckCredentialsResult(cfg, w, pathsOk))
  {
    PhaseCheck(cfg, w, pathsOk);
    CheckShape(cfg, w, pathsOk);
    LoginMoves(cfg, w, CheckCredentialsResult(cfg, w, pathsOk));
  }

  lemma SafeDiscard(cfg: Config, w: World, ok: bool)
    requires Safe(cfg, w) && w.login.LDiscard?
    ensures Safe(cfg, w.(disk := RemoveCreds(w.disk, ok), login := LIdle))
  {
    CredsFileMoves(cfg, w, w.(disk := RemoveCreds(w.disk, ok), login := LIdle));
  }

  lemma LockBookkeeping(cfg: Config, w: World, ok: bool)
    requires Generations(w) && InvalidatedOnce(w) && InFlight(w) && Completion(w) && Locks(w) && Accounts(cfg, w)
    requires Enabled(cfg, w, LockSession(ok))
    requires Ready(w, w.login.force, w.login.target)
    ensures var v := LockSessionResult(w, ok);
      Generations(v) && InvalidatedOnce(v) && InFlight(v) && Completion(v) && Locks(v) && Accounts(cfg, v)
  {
  }

  lemma LockFiles(cfg: Config, w: World, ok: bool)
    requires Generations(w) && Completion(w) && Current(cfg, w) && Cleaning(w) && Sealing(w)
    requires Enabled(cfg, w, LockSession(ok))
    requires var l := w.login; Chosen(cfg, w, l.force, l.target, l.creds, l.path, l.same)
    ensures var v := LockSessionResult(w, ok); Current(cfg, v) && Cleaning(v) && Sealing(v)
  {
  }

  lemma LockPhase(cfg: Config, w: World, ok: bool)
    requires Generations(w) && Current(cfg, w)
    requires Enabled(cfg, w, LockSession(ok))
    requires var l := w.login; Chosen(cfg, w, l.force, l.target, l.creds, l.path, l.same)
    ensures Phase(cfg, LockSessionResult(w, ok))
  {
  }

  lemma SafeLock(cfg: Config, w: World, ok: bool)
    requires Safe(cfg, w) && Enabled(cfg, w, LockSession(ok))
    ensures Safe(cfg, LockSessionResult(w, ok))
  {
    LockBookkeeping(cfg, w, ok);
    LockFiles(cfg, w, ok);
    LockPhase(cfg, w, ok);
  }

  lemma ClearContextBookkeeping(cfg: Config, w: World, p: Path, ok: bool)
    requires Generations(w) && InvalidatedOnce(w) && InFlight(w) && Completion(w) && Locks(w) && Accounts(cfg, w)
    requires Enabled(cfg, w, ClearContext(p, ok))
    requires ForcedReady(w, Some(w.login.sid))
    ensures var v := ClearContextResult(w, p, ok);
      Generations(v) && InvalidatedOnce(v) && InFlight(v) && Completion(v) && Locks(v) && Accounts(cfg, v)
  {
  }

  lemma ClearContextFiles(cfg: Config, w: World, p: Path, ok: bool)
    requires Generations(w) && Completion(w) && Current(cfg, w) && Cleaning(w) && Phase(cfg, w) && Sealing(w)
    requires Enabled(cfg, w, ClearContext(p, ok))
    ensures var v := ClearContextResult(w, p, ok); Current(cfg, v) && Cleaning(v) && Sealing(v)
  {
  }

  lemma ClearContextPhase(cfg: Config, w: World, p: Path, ok: bool)
    requires Generations(w) && Current(cfg, w) && Phase(cfg, w)
    requires Enabled(cfg, w, ClearContext(p, ok))
    ensures Phase(cfg, ClearContextResult(w, p, ok))
  {
  }

  lemma SafeClearContext(cfg: Config, w: World, p: Path, ok: bool)
    requires Safe(cfg, w) && Enabled(cfg, w, ClearContext(p, ok))
    ensures Safe(cfg, ClearContextResult(w, p, ok))
  {
    ClearContextBookkeeping(cfg, w, p, ok);
    ClearContextFiles(cfg, w, p, ok);
    ClearContextPhase(cfg, w, p, ok);
  }

  lemma SameOwners(w: World, v: World)
    requires v == w.(login := v.login, holder := v.holder)
    requires !w.login.LCleaning? && !w.login.LClosing? && !v.login.LCleaning? && !v.login.LClosing?
    requires !w.holder.ByInvalidator? && !v.holder.ByInvalidator?
    requires Completion(w)
    ensures Completion(v)
  {
    assert forall s: nat :: Owners(v, s) == Owners(w, s);
  }

  lemma DoneClearingRest(cfg: Config, w: World)
    requires InFlight(w) && Completion(w) && Locks(w) && Cleaning(w) && Enabled(cfg, w, DoneClearing)
    ensures var v := DoneClearingResult(w); InFlight(v) && Completion(v) && Locks(v) && Cleaning(v)
  {
    var v := DoneClearingResult(w);
    SameOwners(w, v);
    assert InFlight(v) && Locks(v) && Cleaning(v);
  }

  lemma DoneClearingPhase(cfg: Config, w: World)
    requires Generations(w) && Current(cfg, w) && Phase(cfg, w)
    requires Enabled(cfg, w, DoneClearing)
    ensures Phase(cfg, DoneClearingResult(w))
  {
  }

  lemma SafeDoneClearing(cfg: Config, w: World)
    requires Safe(cfg, w) && Enabled(cfg, w, DoneClearing)
    ensures Safe(cfg, DoneClearingResult(w))
  {
    DoneClearingPhase(cfg, w);
    Frame(cfg, w, DoneClearingResult(w));
    DoneClearingRest(cfg, w);
  }

  lemma InstallBookkeeping(cfg: Config, w: World, clearOk: bool)
    requires Generations(w) && InvalidatedOnce(w) && Completion(w) && Locks(w) && Accounts(cfg, w) && Current(cfg, w)
    requires Enabled(cfg, w, Install(clearOk))
    requires var l := w.login; Chosen(cfg, w, l.force, l.target, l.creds, l.path, l.same)
    ensures var v := InstallResult(w, clearOk);
      Generations(v) && InvalidatedOnce(v) && InFlight(v) && Completion(v) && Locks(v) && Accounts(cfg, v)
  {
  }

  lemma InstallFiles(cfg: Config, w: World, clearOk: bool)
    requires Generations(w) && Completion(w) && Current(cfg, w) && Cleaning(w) && Sealing(w)
    requires Enabled(cfg, w, Install(clearOk))
    requires var l := w.login; Chosen(cfg, w, l.force, l.target, l.creds, l.path, l.same)
    requires w.login.force ==> ClearingFacts(w, w.login.target.value, w.login.path, w.login.mem, {}, false)
    ensures var v := InstallResult(w, clearOk); Current(cfg, v) && Cleaning(v) && Sealing(v)
  {
  }

  lemma InstallPhase(cfg: Config, w: World, clearOk: bool)
    requires Generations(w) && Current(cfg, w) && Phase(cfg, w)
    requires Enabled(cfg, w, Install(clearOk))
    ensures Phase(cfg, InstallResult(w, clearOk))
  {
  }

  lemma SafeInstall(cfg: Config, w: World, clearOk: bool)
    requires Safe(cfg, w) && Enabled(cfg, w, Install(clearOk))
    ensures Safe(cfg, InstallResult(w, clearOk))
  {
    InstallBookkeeping(cfg, w, clearOk);
    InstallFiles(cfg, w, clearOk);
    InstallPhase(cfg, w, clearOk);
  }

  predicate InvalidatorOp(op: Op) {
    op.Expire? || op.InvalidatorClears? || op.InvalidatorFinishes? || op.InvalidatorCloses?
  }

  lemma SafeInvalidator(cfg: Config, w: World, op: Op)
    requires Safe(cfg, w) && Enabled(cfg, w, op)
    requires InvalidatorOp(op)
    ensures Safe(cfg, ApplyOther(cfg, w, op))
  {
    match op
    case Expire(g, t, markOk) => SafeExpire(cfg, w, g, t, markOk);
    case InvalidatorClears(p, ok) => SafeInvalidatorClears(cfg, w, p, ok);
    case InvalidatorFinishes(ok) => SafeInvalidatorFinishes(cfg, w, ok);
    case InvalidatorCloses(sid) => SafeInvalidatorCloses(cfg, w, sid);
  }

  lemma SafeOther(cfg: Config, w: World, op: Op)
    requires Safe(cfg, w) && Enabled(cfg, w, op) && OtherOp(op) && !InvalidatorOp(op)
    ensures Safe(cfg, ApplyOther(cfg, w, op))
  {
    match op
    case Crash => BootSafe(cfg, w.process + 1, w.disk);
    case BeginRequest(g) => SafeBegin(cfg, w, g);
    case EndRequest(i) => SafeEnd(cfg, w, i);
    case WriteToken(g, user, value) => SafeWriteToken(cfg, w, g, user, value);
    case FinishWrite(ok) => SafeFinishWrite(cfg, w, ok);
  }

  lemma SafePublish(cfg: Config, w: World, op: Op)
    requires Safe(cfg, w) && Enabled(cfg, w, op) && PublishOp(op)
    ensures Safe(cfg, ApplyPublish(cfg, w, op))
  {
    match op
    case Adopt(valid, markOk) => SafeAdopt(cfg, w, valid, markOk);
    case GoAnonymous(readable, markOk) => SafeAnonymous(cfg, w, readable, markOk);
    case InvalidateOwn(markOk) => SafeInvalidateOwn(cfg, w, markOk);
    case Retry(readable, markOk) => SafeRetry(cfg, w, readable, markOk);
  }

  lemma SafeCleanup(cfg: Config, w: World, op: Op)
    requires Safe(cfg, w) && Enabled(cfg, w, op) && CleanupOp(op)
    ensures Safe(cfg, ApplyCleanup(cfg, w, op))
  {
    match op
    case LoginClears(p, ok) => SafeLoginClears(cfg, w, p, ok);
    case LoginFinishesCleanup(ok) => SafeLoginFinishes(cfg, w, ok);
    case LoginCloses => SafeLoginCloses(cfg, w);
  }

  lemma SafeAcquire(cfg: Config, w: World, op: Op)
    requires Safe(cfg, w) && Enabled(cfg, w, op) && AcquireOp(op)
    ensures Safe(cfg, ApplyAcquire(cfg, w, op))
  {
    match op
    case Authenticate(readable) => SafeAuthenticate(cfg, w, readable);
    case QrFails => SafeQrFails(cfg, w);
    case QrConfirms(c, saveOk) => SafeQrConfirms(cfg, w, c, saveOk);
    case QrAlreadyBound(readable) => SafeQrAlreadyBound(cfg, w, readable);
    case CheckCredentials(pathsOk) => SafeCheck(cfg, w, pathsOk);
    case DiscardCredentials(ok) => SafeDiscard(cfg, w, ok);
  }

  lemma SafeUnderLock(cfg: Config, w: World, op: Op)
    requires Safe(cfg, w) && Enabled(cfg, w, op) && InstallOp(op)
    ensures Safe(cfg, ApplyInstall(cfg, w, op))
  {
    match op
    case LockSession(ok) => SafeLock(cfg, w, ok);
    case ClearContext(p, ok) => SafeClearContext(cfg, w, p, ok);
    case DoneClearing => SafeDoneClearing(cfg, w);
    case Install(clearOk) => SafeInstall(cfg, w, clearOk);
  }

  lemma SafeStep(cfg: Config, w: World, op: Op)
    requires Safe(cfg, w) && Enabled(cfg, w, op)
    ensures Safe(cfg, Apply(cfg, w, op))
  {
    if PublishOp(op) {
      SafePublish(cfg, w, op);
    } else if CleanupOp(op) {
      SafeCleanup(cfg, w, op);
    } else if LookOp(op) {
      SafeLook(cfg, w, op);
    } else if AcquireOp(op) {
      SafeAcquire(cfg, w, op);
    } else if InstallOp(op) {
      SafeUnderLock(cfg, w, op);
    } else if InvalidatorOp(op) {
      SafeInvalidator(cfg, w, op);
    } else {
      SafeOther(cfg, w, op);
    }
  }

  /** Every state any run reaches from a start of a process, on any disk. */
  lemma {:induction false} RunSafe(cfg: Config, process: nat, disk: Disk, ops: seq<Op>)
    ensures var end := Run(cfg, Boot(cfg, process, disk), ops); end.Some? ==> Safe(cfg, end.value)
    decreases |ops|
  {
    if ops == [] {
      BootSafe(cfg, process, disk);
    } else {
      RunSafe(cfg, process, disk, ops[..|ops| - 1]);
      var before := Run(cfg, Boot(cfg, process, disk), ops[..|ops| - 1]);
      if before.Some? && Enabled(cfg, before.value, ops[|ops| - 1]) {
        SafeStep(cfg, before.value, ops[|ops| - 1]);
      }
    }
  }
}
