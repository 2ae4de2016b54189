/** The session and reauthentication protocol as small steps.  sessionMu,
    requestMu and loginMu appear as who holds them; every section under the
    innermost mutex is one step, every disk write is a step of its own whose
    outcome is a parameter, and the process may crash between any two steps.
    State paths are taken in canonical form. */
module Session {
  import opened Wire

  type Path = string
  type Token = string
  type Account = string

  // ----- what is on disk -----

  /** A fingerprint determines its token; the empty token has none. */
  datatype Fingerprint = Nothing | Sha(token: Token)

  function FingerprintOf(t: Token): Fingerprint { if t == "" then Nothing else Sha(t) }

  datatype Creds = Creds(token: Token, account: Account)

  datatype Record = Record(sha: Fingerprint, account: Account, paths: set<Path>)

  datatype Marker = Absent | Corrupt | Present(rec: Record)

  /** Which process and generation wrote a context token. */
  datatype Writer = Writer(process: nat, generation: nat)

  datatype Stored = Stored(value: string, writer: Writer)

  type Tokens = map<string, Stored>

  /** A context file that does not exist reads as empty. */
  datatype Disk = Disk(marker: Marker, creds: Option<Creds>, contexts: map<Path, Tokens>)

  function ContextFile(contexts: map<Path, Tokens>, p: Path): Tokens { if p in contexts then contexts[p] else map[] }

  // ----- what is in memory -----

  /** A published reauthState.  `done` is its channel, `clean` that CleanupErr
      is nil; markOk and credsGone say how its two durable effects went; base is
      the path set it was published with, emptied the paths cleared since. */
  datatype Pending = Pending(
    sha: Fingerprint,
    plain: Token,
    account: Account,
    paths: set<Path>,
    base: set<Path>,
    emptied: set<Path>,
    generation: nat,
    done: bool,
    clean: bool,
    markOk: bool,
    credsGone: bool)

  datatype Cleanup = Cleanup(sid: nat, left: set<Path>, failed: bool)

  datatype Request = Request(generation: nat, token: Token)

  /** Who holds sessionMu. */
  datatype Holder =
    | Free
    | ByLogin
    | ByInvalidator(work: Cleanup)
    | ByWriter(user: string, value: string, generation: nat)

  /** Where login continues once a state it published is complete. */
  datatype After = ToRestored(force: bool) | ToPrepared | ToRetried

  /** The login goroutine; all but LIdle hold loginMu. */
  datatype Login =
    | LIdle
    | LRestore(force: bool)
    | LLoad(force: bool)
    | LAdopt(force: bool, rec: Record)
    | LAnonymous(after: After)
    | LCleaning(work: Cleanup, after: After)
    | LClosing(sid: nat, ok: bool, after: After)
    | LRestored(force: bool)
    | LPrepare
    | LInvalidate(generation: nat, token: Token)
    | LPrepared(created: bool)
    | LAwait(sid: nat, created: bool)
    | LRetry(previous: nat)
    | LAuth(force: bool, target: Option<nat>)
    | LQr(force: bool, target: Option<nat>)
    | LGot(force: bool, target: Option<nat>, creds: Creds)
    | LDiscard
    | LInstall(force: bool, target: Option<nat>, creds: Creds, path: Path, same: bool)
    | LClearing(sid: nat, creds: Creds, path: Path, same: bool, mem: Tokens, left: set<Path>, failed: bool)
    | LPublish(force: bool, target: Option<nat>, creds: Creds, path: Path, same: bool, mem: Tokens)

  datatype World = World(
    process: nat,
    generation: nat,
    creds: Option<Creds>,
    reauth: Option<nat>,
    states: seq<Pending>,
    ctxPath: Path,
    ctxMem: Tokens,
    account: Account,          // opts.AccountID, as adopted
    holder: Holder,
    login: Login,
    requests: seq<Request>,    // hold requestMu for reading
    closers: map<nat, bool>,   // invalidators between unlocking and close(done)
    disk: Disk,
    // history
    tokenOf: map<nat, Token>,  // generation -> token installed, this process
    invalidated: seq<nat>,     // generations invalidated, this process
    sealed: Option<set<Path>>, // Some(ps): this generation was installed by force over the emptied files ps
    misread: bool)             // a marker on disk was read as an error, this process

  /** Options that never change: whether ContextTokenPath was configured, that
      path, and the configured account. */
  datatype Config = Config(fixedPath: bool, path: Path, account: Account)

  function AccountPath(a: Account): Path {
    if a == "" then "context_tokens.json" else "accounts/" + a + "/context_tokens.json"
  }

  function Boot(cfg: Config, process: nat, disk: Disk): World {
    World(process, 0, None, None, [], if cfg.fixedPath then cfg.path else AccountPath(cfg.account), map[],
          cfg.account, Free, LIdle, [], map[], disk, map[], [], None, false)
  }

  /** rejectsToken: the fingerprint or the remembered token names it. */
  predicate Rejects(p: Pending, t: Token) {
    t != "" && ((p.plain != "" && t == p.plain) || (p.sha != Nothing && FingerprintOf(t) == p.sha))
  }

  // ----- operations -----

  datatype Op =
    | Crash
    | BeginRequest(generation: nat)
    | EndRequest(i: nat)
    | Expire(generation: nat, token: Token, markOk: bool)  // a -14 takes sessionMu
    | InvalidatorClears(p: Path, ok: bool)
    | InvalidatorFinishes(ok: bool)                          // ClearCredentials, unlock
    | InvalidatorCloses(sid: nat)
    | WriteToken(generation: nat, user: string, value: string)
    | FinishWrite(ok: bool)
    // the login goroutine
    | StartLogin(force: bool)
    | CheckPending
    | LoadMarker(readable: bool)
    | Adopt(valid: bool, markOk: bool)
    | GoAnonymous(readable: bool, markOk: bool)
    | LoginClears(p: Path, ok: bool)
    | LoginFinishesCleanup(ok: bool)
    | LoginCloses
    | AfterRestore
    | Prepare
    | InvalidateOwn(markOk: bool)
    | ReadState
    | Await
    | Retry(readable: bool, markOk: bool)
    | Authenticate(readable: bool)
    | QrFails
    | QrConfirms(creds: Creds, saveOk: bool)
    | QrAlreadyBound(readable: bool)
    | CheckCredentials(pathsOk: bool)
    | DiscardCredentials(ok: bool)
    | LockSession(ok: bool)
    | ClearContext(p: Path, ok: bool)
    | DoneClearing
    | Install(clearOk: bool)

  // ----- publishing a state -----

  function RecordOf(p: Pending): Record { Record(p.sha, p.account, p.paths) }

  function Marked(d: Disk, p: Pending, ok: bool): Disk {
    if ok then d.(marker := Present(RecordOf(p))) else d
  }

  /** markReauthentication, b.reauth := state, b.creds := nil, under mu. */
  function Publish(w: World, p: Pending, holder: Holder, login: Login): World {
    w.(reauth := Some(|w.states|), states := w.states + [p], creds := None,
       disk := Marked(w.disk, p, p.markOk), holder := holder, login := login,
       invalidated := if w.reauth.None? then w.invalidated + [w.generation] else w.invalidated)
  }

  function NewPending(w: World, plain: Token, sha: Fingerprint, account: Account, paths: set<Path>, markOk: bool): Pending {
    Pending(sha, plain, account, paths, paths, {}, w.generation, false, false, markOk, false)
  }

  /** The locked part of requireReauthenticationForSession, by a goroutine that
      continues as `login` if it is the login goroutine itself. */
  predicate Invalidates(w: World, generation: nat, token: Token) {
    w.generation == generation && w.reauth.None? && w.creds.Some? && w.creds.value.token == token
  }

  function StateForSession(w: World, markOk: bool): Pending
    requires w.creds.Some?
  {
    var c := w.creds.value;
    NewPending(w, c.token, FingerprintOf(c.token), c.account, {w.ctxPath}, markOk)
  }

  function StoredCreds(w: World, readable: bool): Option<Creds> {
    if readable then w.disk.creds else None
  }

  function StateWithoutCredentials(w: World, readable: bool, markOk: bool): Pending {
    var stored := StoredCreds(w, readable);
    match stored
    case None => NewPending(w, "", Nothing, w.account, {w.ctxPath}, markOk)
    case Some(c) =>
      NewPending(w, c.token, FingerprintOf(c.token),
                 if w.account == "" then c.account else w.account,
                 {w.ctxPath} + (if c.account != "" then {AccountPath(c.account)} else {}), markOk)
  }

  function AdoptedPath(cfg: Config, w: World, rec: Record): Path {
    if w.account == "" && rec.account != "" && !cfg.fixedPath then AccountPath(rec.account) else w.ctxPath
  }

  function AdoptedState(cfg: Config, w: World, rec: Record, markOk: bool): Pending {
    NewPending(w, "", rec.sha, if rec.account == "" then w.account else rec.account,
               rec.paths + {w.ctxPath, AdoptedPath(cfg, w, rec)}, markOk)
  }

  function RetriedState(w: World, previous: Pending, readable: bool, markOk: bool): Pending {
    var stored := StoredCreds(w, readable);
    var unnamed := previous.sha == Nothing && stored.Some?;
    var plain := if unnamed then stored.value.token else previous.plain;
    var sha := if unnamed then FingerprintOf(stored.value.token) else previous.sha;
    var account := if previous.account == "" && stored.Some? then stored.value.account else previous.account;
    var more := if stored.Some? && stored.value.account != "" then {AccountPath(stored.value.account)} else {};
    var paths := previous.paths + more + {w.ctxPath};
    Pending(sha, plain, account, paths, paths, {}, previous.generation, false, false, markOk, false)
  }

  // ----- clearing context files and credentials -----

  function EmptyFile(d: Disk, p: Path, ok: bool): Disk {
    if ok then d.(contexts := d.contexts[p := map[]]) else d
  }

  function NoteEmptied(w: World, sid: nat, p: Path, ok: bool): seq<Pending>
    requires sid < |w.states|
  {
    if ok then w.states[sid := w.states[sid].(emptied := w.states[sid].emptied + {p})] else w.states
  }

  function WorkAfter(work: Cleanup, p: Path, ok: bool): Cleanup {
    Cleanup(work.sid, work.left - {p}, work.failed || !ok)
  }

  /** Clear one path, through the bot's own store when it is that store's. */
  function ClearPath(w: World, sid: nat, p: Path, ok: bool): World
    requires sid < |w.states|
  {
    w.(disk := EmptyFile(w.disk, p, ok),
       ctxMem := if ok && p == w.ctxPath then map[] else w.ctxMem,
       states := NoteEmptied(w, sid, p, ok))
  }

  function RemoveCreds(d: Disk, ok: bool): Disk {
    if ok then d.(creds := None) else d
  }

  function NoteCreds(w: World, sid: nat, gone: bool): seq<Pending>
    requires sid < |w.states|
  {
    w.states[sid := w.states[sid].(credsGone := gone)]
  }

  /** state.err is set and done closed; clean means no cleanup error. */
  function CloseState(w: World, sid: nat, ok: bool): World
    requires sid < |w.states|
  {
    w.(states := w.states[sid := w.states[sid].(done := true, clean := ok)])
  }

  // ----- the login goroutine's decisions -----

  function Continue(after: After, sid: nat, ok: bool): Login {
    match after
    case ToRestored(force) => LRestored(force)
    case ToPrepared => LPrepared(true)
    case ToRetried => if ok then LAuth(true, Some(sid)) else LIdle
  }

  function ExpectedAccount(w: World, sid: Option<nat>): Account
    requires sid.Some? ==> sid.value < |w.states|
  {
    if sid.Some? && w.states[sid.value].account != "" then w.states[sid.value].account else w.account
  }

  predicate Acceptable(w: World, sid: Option<nat>, c: Creds)
    requires sid.Some? ==> sid.value < |w.states|
  {
    (sid.Some? ==> !Rejects(w.states[sid.value], c.token))
    && (ExpectedAccount(w, sid) == "" || c.account == ExpectedAccount(w, sid))
  }

  /** The store that login will install: a new one for the account, or the
      bot's own. */
  predicate UsesNewStore(cfg: Config, w: World, sid: Option<nat>) {
    !cfg.fixedPath && (sid.None? || w.account == "")
  }

  function InstallPath(cfg: Config, w: World, sid: Option<nat>, c: Creds): Path {
    if UsesNewStore(cfg, w, sid) then AccountPath(if w.account == "" then c.account else w.account) else w.ctxPath
  }

  // ----- enabledness -----

  predicate Enabled(cfg: Config, w: World, op: Op) {
    match op
    case Crash => true
    case BeginRequest(_) => true
    case EndRequest(i) => i < |w.requests|
    case Expire(_, _, _) => w.holder.Free?
    case InvalidatorClears(p, _) =>
      w.holder.ByInvalidator? && p in w.holder.work.left && w.holder.work.sid < |w.states|
    case InvalidatorFinishes(_) =>
      w.holder.ByInvalidator? && w.holder.work.left == {} && w.holder.work.sid < |w.states|
    case InvalidatorCloses(sid) => sid in w.closers && sid < |w.states|
    case WriteToken(_, _, _) => w.holder.Free?
    case FinishWrite(_) => w.holder.ByWriter?
    case StartLogin(_) => w.login.LIdle?
    case CheckPending => w.login.LRestore?
    case LoadMarker(_) => w.login.LLoad?
    case Adopt(_, _) => w.login.LAdopt? && w.holder.Free?
    case GoAnonymous(_, _) => w.login.LAnonymous? && w.holder.Free?
    case LoginClears(p, _) =>
      w.login.LCleaning? && p in w.login.work.left && w.login.work.sid < |w.states|
    case LoginFinishesCleanup(_) => w.login.LCleaning? && w.login.work.left == {} && w.login.work.sid < |w.states|
    case LoginCloses => w.login.LClosing? && w.login.sid < |w.states|
    case AfterRestore => w.login.LRestored?
                         && (!w.login.force && w.reauth.Some? ==> w.reauth.value < |w.states| && w.states[w.reauth.value].done)
    case Prepare => w.login.LPrepare?
    case InvalidateOwn(_) => w.login.LInvalidate? && w.holder.Free?
    case ReadState => w.login.LPrepared?
    case Await => w.login.LAwait? && w.login.sid < |w.states| && w.states[w.login.sid].done
    case Retry(_, _) => w.login.LRetry? && w.holder.Free? && w.login.previous < |w.states|
    case Authenticate(_) => w.login.LAuth?
    case QrFails => w.login.LQr?
    case QrConfirms(c, _) => w.login.LQr? && c.token != "" && c.account != "" && SidInRange(w, w.login.target)
    case QrAlreadyBound(_) => w.login.LQr?
    case CheckCredentials(_) => w.login.LGot? && SidInRange(w, w.login.target)
    case DiscardCredentials(_) => w.login.LDiscard?
    case LockSession(_) => w.login.LInstall? && w.holder.Free? && SidInRange(w, w.login.target)
    case ClearContext(p, _) => w.login.LClearing? && p in w.login.left && w.login.sid < |w.states|
    case DoneClearing => w.login.LClearing? && w.login.left == {}
    case Install(_) => w.login.LPublish? && w.requests == [] && SidInRange(w, w.login.target)
  }

  predicate SidInRange(w: World, sid: Option<nat>) { sid.Some? ==> sid.value < |w.states| }

  // ----- effects: requests, invalidators, token writers -----

  function BeginResult(w: World, g: nat): World {
    if w.generation == g && w.reauth.None? && w.creds.Some? then
      w.(requests := w.requests + [Request(g, w.creds.value.token)])
    else w
  }

  function ExpireResult(w: World, g: nat, t: Token, markOk: bool): World {
    if Invalidates(w, g, t) then
      var p := StateForSession(w, markOk);
      Publish(w, p, ByInvalidator(Cleanup(|w.states|, p.paths, !markOk)), w.login)
    else w
  }

  function WriteTokenResult(w: World, g: nat, user: string, value: string): World {
    if user == "" || value == "" || w.generation != g || w.reauth.Some? then w
    else w.(holder := ByWriter(user, value, g))
  }

  function FinishWriteResult(w: World, ok: bool): World
    requires w.holder.ByWriter?
  {
    var next := w.ctxMem[w.holder.user := Stored(w.holder.value, Writer(w.process, w.holder.generation))];
    if ok then w.(holder := Free, ctxMem := next, disk := w.disk.(contexts := w.disk.contexts[w.ctxPath := next]))
    else w.(holder := Free)
  }

  function EndResult(w: World, i: nat): World
    requires i < |w.requests|
  {
    w.(requests := w.requests[..i] + w.requests[i + 1..])
  }

  function InvalidatorClearsResult(w: World, p: Path, ok: bool): World
    requires w.holder.ByInvalidator? && w.holder.work.sid < |w.states|
  {
    ClearPath(w, w.holder.work.sid, p, ok).(holder := ByInvalidator(WorkAfter(w.holder.work, p, ok)))
  }

  function InvalidatorFinishesResult(w: World, ok: bool): World
    requires w.holder.ByInvalidator? && w.holder.work.sid < |w.states|
  {
    var work := w.holder.work;
    w.(disk := RemoveCreds(w.disk, ok), states := NoteCreds(w, work.sid, ok), holder := Free,
       closers := w.closers[work.sid := ok && !work.failed])
  }

  function InvalidatorClosesResult(w: World, sid: nat): World
    requires sid in w.closers && sid < |w.states|
  {
    CloseState(w, sid, w.closers[sid]).(closers := w.closers - {sid})
  }

  /** Everything but the login goroutine. */
  predicate OtherOp(op: Op) {
    op.Crash? || op.BeginRequest? || op.EndRequest? || op.Expire? || op.InvalidatorClears? || op.InvalidatorFinishes?
    || op.InvalidatorCloses? || op.WriteToken? || op.FinishWrite?
  }

  function ApplyOther(cfg: Config, w: World, op: Op): World
    requires OtherOp(op) && Enabled(cfg, w, op)
  {
    match op
    case Crash => Boot(cfg, w.process + 1, w.disk)
    case BeginRequest(g) => BeginResult(w, g)
    case EndRequest(i) => EndResult(w, i)
    case Expire(g, t, markOk) => ExpireResult(w, g, t, markOk)
    case InvalidatorClears(p, ok) => InvalidatorClearsResult(w, p, ok)
    case InvalidatorFinishes(ok) => InvalidatorFinishesResult(w, ok)
    case InvalidatorCloses(sid) => InvalidatorClosesResult(w, sid)
    case WriteToken(g, user, value) => WriteTokenResult(w, g, user, value)
    case FinishWrite(ok) => FinishWriteResult(w, ok)
  }

  // ----- effects: the login goroutine -----

  function LoadResult(w: World, readable: bool): World
    requires w.login.LLoad?
  {
    if w.disk.marker.Absent? && readable then w.(login := LRestored(w.login.force))
    else if w.disk.marker.Present? && readable then w.(login := LAdopt(w.login.force, w.disk.marker.rec))
    else w.(login := LAnonymous(ToRestored(w.login.force)), misread := w.misread || w.disk.marker.Present?)
  }

  function AdoptResult(cfg: Config, w: World, valid: bool, markOk: bool): World
    requires w.login.LAdopt?
  {
    var rec, force := w.login.rec, w.login.force;
    var newStore := w.account == "" && rec.account != "" && !cfg.fixedPath;
    if w.reauth.Some? then w.(login := LRestored(force))
    else if (w.account != "" && rec.account != "" && w.account != rec.account) || !valid || !markOk then w.(login := LIdle)
    else
      var p := AdoptedState(cfg, w, rec, true);
      var path := AdoptedPath(cfg, w, rec);
      Publish(w, p, ByLogin, LCleaning(Cleanup(|w.states|, p.paths, false), ToRestored(force)))
        .(account := if w.account == "" then rec.account else w.account,
          ctxPath := path, ctxMem := if newStore then map[] else w.ctxMem)
  }

  function AnonymousResult(w: World, readable: bool, markOk: bool): World
    requires w.login.LAnonymous?
  {
    var after := w.login.after;
    if w.reauth.Some? then w.(login := if after.ToRestored? then LRestored(after.force) else LPrepared(true))
    else
      var p := StateWithoutCredentials(w, readable, markOk);
      Publish(w, p, ByLogin, LCleaning(Cleanup(|w.states|, p.paths, !markOk), after))
  }

  function LoginClearsResult(w: World, p: Path, ok: bool): World
    requires w.login.LCleaning? && w.login.work.sid < |w.states|
  {
    ClearPath(w, w.login.work.sid, p, ok).(login := LCleaning(WorkAfter(w.login.work, p, ok), w.login.after))
  }

  function LoginFinishesResult(w: World, ok: bool): World
    requires w.login.LCleaning? && w.login.work.sid < |w.states|
  {
    var work := w.login.work;
    w.(disk := RemoveCreds(w.disk, ok), states := NoteCreds(w, work.sid, ok), holder := Free,
       login := LClosing(work.sid, ok && !work.failed, w.login.after))
  }

  function LoginClosesResult(w: World): World
    requires w.login.LClosing? && w.login.sid < |w.states|
  {
    CloseState(w, w.login.sid, w.login.ok).(login := Continue(w.login.after, w.login.sid, w.login.ok))
  }

  function AfterRestoreResult(w: World): World
    requires w.login.LRestored?
  {
    if w.login.force then w.(login := LPrepare)
    else if w.reauth.Some? || w.creds.Some? then w.(login := LIdle)
    else w.(login := LAuth(false, None))
  }

  function PrepareResult(w: World): World {
    if w.reauth.Some? then w.(login := LAwait(w.reauth.value, false))
    else if w.creds.Some? then w.(login := LInvalidate(w.generation, w.creds.value.token))
    else w.(login := LAnonymous(ToPrepared))
  }

  function InvalidateOwnResult(w: World, markOk: bool): World
    requires w.login.LInvalidate?
  {
    if Invalidates(w, w.login.generation, w.login.token) then
      var p := StateForSession(w, markOk);
      Publish(w, p, ByLogin, LCleaning(Cleanup(|w.states|, p.paths, !markOk), ToPrepared))
    else w.(login := LPrepared(true))
  }

  function ReadStateResult(w: World): World
    requires w.login.LPrepared?
  {
    w.(login := if w.reauth.None? then LAuth(true, None) else LAwait(w.reauth.value, w.login.created))
  }

  function AwaitResult(w: World): World
    requires w.login.LAwait? && w.login.sid < |w.states|
  {
    w.(login := if w.states[w.login.sid].clean then LAuth(true, Some(w.login.sid))
                else if w.login.created then LIdle
                else LRetry(w.login.sid))
  }

  function RetryResult(w: World, readable: bool, markOk: bool): World
    requires w.login.LRetry? && w.login.previous < |w.states|
  {
    if w.reauth != Some(w.login.previous) then
      w.(login := if w.reauth.None? then LAuth(true, None) else LIdle)
    else
      var p := RetriedState(w, w.states[w.login.previous], readable, markOk);
      Publish(w, p, ByLogin, LCleaning(Cleanup(|w.states|, p.paths, !markOk), ToRetried))
  }

  function AuthenticateResult(w: World, readable: bool): World
    requires w.login.LAuth?
  {
    var stored := StoredCreds(w, readable);
    if !w.login.force && stored.Some? then w.(login := LGot(false, w.login.target, stored.value))
    else w.(login := LQr(w.login.force, w.login.target))
  }

  function QrConfirmsResult(w: World, c: Creds, saveOk: bool): World
    requires w.login.LQr? && SidInRange(w, w.login.target)
  {
    var invalid := if w.login.target.Some? then w.states[w.login.target.value].plain else "";
    if (invalid != "" && c.token == invalid) || !saveOk then w.(login := LIdle)
    else w.(disk := w.disk.(creds := Some(c)), login := LGot(w.login.force, w.login.target, c))
  }

  function QrAlreadyBoundResult(w: World, readable: bool): World
    requires w.login.LQr?
  {
    var stored := StoredCreds(w, readable);
    if w.login.force || stored.None? then w.(login := LIdle)
    else w.(login := LGot(false, w.login.target, stored.value))
  }

  function CheckCredentialsResult(cfg: Config, w: World, pathsOk: bool): World
    requires w.login.LGot? && SidInRange(w, w.login.target)
  {
    var c, sid := w.login.creds, w.login.target;
    if !Acceptable(w, sid, c) || !pathsOk then w.(login := LDiscard)
    else w.(login := LInstall(w.login.force, sid, c, InstallPath(cfg, w, sid, c), !UsesNewStore(cfg, w, sid)))
  }

  /** Takes sessionMu; a forced login marks the extended path set before it
      clears, an ordinary one loads the context file. */
  function LockSessionResult(w: World, ok: bool): World
    requires w.login.LInstall? && SidInRange(w, w.login.target)
  {
    var l := w.login;
    if !l.force then
      var file := ContextFile(w.disk.contexts, l.path);
      w.(holder := ByLogin,
         ctxMem := if l.same && ok then file else w.ctxMem,
         login := LPublish(false, l.target, l.creds, l.path, l.same, if !l.same && ok then file else map[]))
    else if l.target.None? then
      w.(holder := if ok then ByLogin else Free,
         disk := EmptyFile(w.disk, l.path, ok),
         login := if ok then LPublish(true, l.target, l.creds, l.path, l.same, map[]) else LDiscard)
    else
      var p := w.states[l.target.value];
      var p' := p.(paths := p.paths + {l.path});
      var v := w.(states := w.states[l.target.value := p'], disk := Marked(w.disk, p', ok));
      if ok then v.(holder := ByLogin, login := LClearing(l.target.value, l.creds, l.path, l.same, map[], p'.paths, false))
      else v.(login := LDiscard)
  }

  function ClearContextResult(w: World, p: Path, ok: bool): World
    requires w.login.LClearing? && w.login.sid < |w.states|
  {
    var l := w.login;
    w.(disk := EmptyFile(w.disk, p, ok),
       states := NoteEmptied(w, l.sid, p, ok),
       ctxMem := if ok && l.same && p == l.path then map[] else w.ctxMem,
       login := l.(left := l.left - {p}, failed := l.failed || !ok,
                   mem := if ok && p == l.path then map[] else l.mem))
  }

  function DoneClearingResult(w: World): World
    requires w.login.LClearing?
  {
    var l := w.login;
    if l.failed then w.(holder := Free, login := LDiscard)
    else w.(login := LPublish(true, Some(l.sid), l.creds, l.path, l.same, l.mem))
  }

  /** Everything under requestMu and mu: recheck, remove the marker, install. */
  function InstallResult(w: World, clearOk: bool): World
    requires w.login.LPublish? && SidInRange(w, w.login.target)
  {
    var l := w.login;
    if w.reauth != l.target then w.(holder := Free, login := LDiscard)
    else if l.target.Some? && !clearOk then w.(holder := Free, login := LDiscard)
    else
      w.(disk := if l.target.Some? then w.disk.(marker := Absent) else w.disk,
         creds := Some(l.creds),
         ctxPath := l.path,
         ctxMem := if l.same then w.ctxMem else l.mem,
         account := if w.account == "" then l.creds.account else w.account,
         generation := w.generation + 1,
         reauth := None,
         holder := Free,
         login := LIdle,
         tokenOf := w.tokenOf[w.generation + 1 := l.creds.token],
         sealed := if l.force && l.target.Some? then Some(w.states[l.target.value].paths) else None)
  }

  /** Publishing a state. */
  predicate PublishOp(op: Op) { op.Adopt? || op.GoAnonymous? || op.InvalidateOwn? || op.Retry? }

  /** Cleaning up after it and completing it. */
  predicate CleanupOp(op: Op) { op.LoginClears? || op.LoginFinishesCleanup? || op.LoginCloses? }

  /** Looking at the session and deciding where to go on. */
  predicate LookOp(op: Op) {
    op.StartLogin? || op.CheckPending? || op.LoadMarker? || op.AfterRestore? || op.Prepare? || op.ReadState? || op.Await?
  }

  /** Authenticating and choosing what to install. */
  predicate AcquireOp(op: Op) {
    op.Authenticate? || op.QrFails? || op.QrConfirms? || op.QrAlreadyBound? || op.CheckCredentials? || op.DiscardCredentials?
  }

  /** Clearing and installing under sessionMu. */
  predicate InstallOp(op: Op) { op.LockSession? || op.ClearContext? || op.DoneClearing? || op.Install? }

  function ApplyPublish(cfg: Config, w: World, op: Op): World
    requires PublishOp(op) && Enabled(cfg, w, op)
  {
    match op
    case Adopt(valid, markOk) => AdoptResult(cfg, w, valid, markOk)
    case GoAnonymous(readable, markOk) => AnonymousResult(w, readable, markOk)
    case InvalidateOwn(markOk) => InvalidateOwnResult(w, markOk)
    case Retry(readable, markOk) => RetryResult(w, readable, markOk)
  }

  function ApplyCleanup(cfg: Config, w: World, op: Op): World
    requires CleanupOp(op) && Enabled(cfg, w, op)
  {
    match op
    case LoginClears(p, ok) => LoginClearsResult(w, p, ok)
    case LoginFinishesCleanup(ok) => LoginFinishesResult(w, ok)
    case LoginCloses => LoginClosesResult(w)
  }

  function ApplyLook(cfg: Config, w: World, op: Op): World
    requires LookOp(op) && Enabled(cfg, w, op)
  {
    match op
    case StartLogin(force) => w.(login := LRestore(force))
    case CheckPending => w.(login := if w.reauth.Some? then LRestored(w.login.force) else LLoad(w.login.force))
    case LoadMarker(readable) => LoadResult(w, readable)
    case AfterRestore => AfterRestoreResult(w)
    case Prepare => PrepareResult(w)
    case ReadState => ReadStateResult(w)
    case Await => AwaitResult(w)
  }

  function ApplyAcquire(cfg: Config, w: World, op: Op): World
    requires AcquireOp(op) && Enabled(cfg, w, op)
  {
    match op
    case Authenticate(readable) => AuthenticateResult(w, readable)
    case QrFails => w.(login := LIdle)
    case QrConfirms(c, saveOk) => QrConfirmsResult(w, c, saveOk)
    case QrAlreadyBound(readable) => QrAlreadyBoundResult(w, readable)
    case CheckCredentials(pathsOk) => CheckCredentialsResult(cfg, w, pathsOk)
    case DiscardCredentials(ok) => w.(disk := RemoveCreds(w.disk, ok), login := LIdle)
  }

  function ApplyInstall(cfg: Config, w: World, op: Op): World
    requires InstallOp(op) && Enabled(cfg, w, op)
  {
    match op
    case LockSession(ok) => LockSessionResult(w, ok)
    case ClearContext(p, ok) => ClearContextResult(w, p, ok)
    case DoneClearing => DoneClearingResult(w)
    case Install(clearOk) => InstallResult(w, clearOk)
  }

  function Apply(cfg: Config, w: World, op: Op): World
    requires Enabled(cfg, w, op)
  {
    if PublishOp(op) then ApplyPublish(cfg, w, op)
    else if CleanupOp(op) then ApplyCleanup(cfg, w, op)
    else if LookOp(op) then ApplyLook(cfg, w, op)
    else if AcquireOp(op) then ApplyAcquire(cfg, w, op)
    else if InstallOp(op) then ApplyInstall(cfg, w, op)
    else ApplyOther(cfg, w, op)
  }

  function Run(cfg: Config, start: World, ops: seq<Op>): Option<World>
    decreases |ops|
  {
    if ops == [] then Some(start)
    else
      match Run(cfg, start, ops[..|ops| - 1])
      case None => None
      case Some(v) => if Enabled(cfg, v, ops[|ops| - 1]) then Some(Apply(cfg, v, ops[|ops| - 1])) else None
  }
}
