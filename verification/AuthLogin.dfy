/** QR authentication: the nested loops over codes and poll answers.  What the
    server and the user answer is a script; a script that runs out stands for
    a poll that fails. */
module AuthLogin {
  import opened Wire

  datatype Creds = Creds(token: string, account: string, user: string)

  datatype Answer = NoHandler | Refused | Code(code: string)

  datatype Status =
    | PollFails
    | Confirmed(creds: Creds, saveOk: bool)
    | AlreadyBound(readable: bool)      // whether the credentials file can be read then
    | NeedCode(answer: Answer)
    | Blocked
    | Redirect(host: string)
    | Expired
    | Waiting                           // scanned, pending or unknown

  datatype Qr = QrFails | Shown(statuses: seq<Status>)

  datatype Result = Ok(creds: Creds) | Err

  const FixedHost: string := "https://ilinkai.weixin.qq.com"
  const MaxQrCodes: nat := 3

  predicate Invalid(token: string, invalidToken: string) { invalidToken != "" && token == invalidToken }

  /** One poll as sent: to which host and with which verification code. */
  datatype Poll = Poll(host: string, code: string)

  datatype Ended = Answered(result: Result, saved: Option<Creds>) | NextCode

  /** What one status does: Continue to the next poll, or end this code. */
  datatype Step = Continue(host: string, code: string) | End(ended: Ended)

  function StepOf(force: bool, invalidToken: string, stored: Option<Creds>, host: string, status: Status): Step {
    match status
    case PollFails => End(Answered(Err, None))
    case Confirmed(c, saveOk) =>
      if c.token == "" || c.account == "" || c.user == "" || Invalid(c.token, invalidToken) || !saveOk then End(Answered(Err, None))
      else End(Answered(Ok(c), Some(c)))
    case AlreadyBound(readable) =>
      if force || !readable || stored.None? || Invalid(stored.value.token, invalidToken) then End(Answered(Err, None))
      else End(Answered(Ok(stored.value), None))
    case NeedCode(answer) =>
      if answer.Code? && answer.code != "" then Continue(host, answer.code) else End(Answered(Err, None))
    case Blocked => End(NextCode)
    case Expired => End(NextCode)
    case Redirect(h) => Continue(if h != "" then "https://" + h else host, "")
    case Waiting => Continue(host, "")
  }

  /** The polls of one code, from a host and a pending code on. */
  function Polling(force: bool, invalidToken: string, stored: Option<Creds>, host: string, code: string, statuses: seq<Status>)
    : (seq<Poll>, Ended)
    decreases |statuses|
  {
    if statuses == [] then ([Poll(host, code)], Answered(Err, None))
    else
      match StepOf(force, invalidToken, stored, host, statuses[0])
      case End(ended) => ([Poll(host, code)], ended)
      case Continue(h, c) =>
        var r := Polling(force, invalidToken, stored, h, c, statuses[1..]);
        ([Poll(host, code)] + r.0, r.1)
  }

  lemma RestOfStatuses(statuses: seq<Status>, i: nat)
    requires i < |statuses|
    ensures statuses[i..] != [] && statuses[i..][0] == statuses[i] && statuses[i..][1..] == statuses[i + 1..]
  {
  }

  /** One poll, and what its answer leads to. */
  lemma PollingStep(force: bool, invalidToken: string, stored: Option<Creds>, host: string, code: string, statuses: seq<Status>,
                    i: nat, polls: seq<Poll>)
    requires i < |statuses|
    ensures var r, step := Polling(force, invalidToken, stored, host, code, statuses[i..]), StepOf(force, invalidToken, stored, host, statuses[i]);
      && (step.End? ==> r == ([Poll(host, code)], step.ended))
      && (step.Continue? ==>
            var more := Polling(force, invalidToken, stored, step.host, step.code, statuses[i + 1..]);
            polls + r.0 == (polls + [Poll(host, code)]) + more.0 && r.1 == more.1)
  {
    RestOfStatuses(statuses, i);
  }

  /** The loop over poll answers. */
  method PollLoop(force: bool, invalidToken: string, stored: Option<Creds>, statuses: seq<Status>)
    returns (polls: seq<Poll>, ended: Ended)
    ensures (polls, ended) == Polling(force, invalidToken, stored, FixedHost, "", statuses)
  {
    var currentHost := FixedHost;
    var pendingCode := "";
    polls := [];
    var i := 0;
    ghost var all := Polling(force, invalidToken, stored, FixedHost, "", statuses);
    assert statuses[0..] == statuses;
    while i < |statuses|
      invariant 0 <= i <= |statuses|
      invariant var r := Polling(force, invalidToken, stored, currentHost, pendingCode, statuses[i..]);
        polls + r.0 == all.0 && r.1 == all.1
    {
      PollingStep(force, invalidToken, stored, currentHost, pendingCode, statuses, i, polls);
      polls := polls + [Poll(currentHost, pendingCode)];
      pendingCode := "";
      match statuses[i] {
        case PollFails => return polls, Answered(Err, None);
        case Confirmed(c, saveOk) =>
          if c.token == "" || c.account == "" || c.user == "" || Invalid(c.token, invalidToken) || !saveOk {
            return polls, Answered(Err, None);
          }
          return polls, Answered(Ok(c), Some(c));
        case AlreadyBound(readable) =>
          if force || !readable || stored.None? || Invalid(stored.value.token, invalidToken) {
            return polls, Answered(Err, None);
          }
          return polls, Answered(Ok(stored.value), None);
        case NeedCode(answer) =>
          if !answer.Code? || answer.code == "" {
            return polls, Answered(Err, None);
          }
          pendingCode := answer.code;
        case Blocked => return polls, NextCode;
        case Expired => return polls, NextCode;
        case Redirect(host) => currentHost := if host != "" then "https://" + host else currentHost;
        case Waiting =>
      }
      i := i + 1;
    }
    polls := polls + [Poll(currentHost, pendingCode)];
    ended := Answered(Err, None);
  }

  /** At most MaxQrCodes codes are asked for; `codes` is what each gives. */
  function Codes(force: bool, invalidToken: string, stored: Option<Creds>, codes: seq<Qr>, left: nat): (Result, Option<Creds>, nat)
    decreases left
  {
    if left == 0 then (Err, None, 0)
    else if codes == [] || codes[0].QrFails? then (Err, None, 1)
    else
      match Polling(force, invalidToken, stored, FixedHost, "", codes[0].statuses).1
      case Answered(result, saved) => (result, saved, 1)
      case NextCode =>
        var r := Codes(force, invalidToken, stored, codes[1..], left - 1);
        (r.0, r.1, r.2 + 1)
  }

  /** Login: the stored credentials if there are any and force is not set,
      otherwise QR codes.  `asked` counts the codes requested. */
  method Login(force: bool, invalidToken: string, stored: Option<Creds>, readable: bool, codes: seq<Qr>)
    returns (result: Result, saved: Option<Creds>, asked: nat)
    ensures !force && readable && stored.Some? ==>
      saved == None && asked == 0 && result == if Invalid(stored.value.token, invalidToken) then Err else Ok(stored.value)
    ensures force || !readable || stored.None? ==>
      (result, saved, asked) == Codes(force, invalidToken, stored, codes, MaxQrCodes)
    ensures force || !readable || stored.None? ==> Decided(force, invalidToken, stored, codes, result, saved, asked)
  {
    CodesAreDecided(force, invalidToken, stored, codes);
    if !force && readable && stored.Some? {
      return if Invalid(stored.value.token, invalidToken) then Err else Ok(stored.value), None, 0;
    }
    asked := 0;
    var rest := codes;
    while asked < MaxQrCodes
      invariant 0 <= asked <= MaxQrCodes
      invariant var all := Codes(force, invalidToken, stored, codes, MaxQrCodes);
        var more := Codes(force, invalidToken, stored, rest, MaxQrCodes - asked);
        all == (more.0, more.1, more.2 + asked)
    {
      asked := asked + 1;
      if rest == [] || rest[0].QrFails? {
        return Err, None, asked;
      }
      var polls, ended := PollLoop(force, invalidToken, stored, rest[0].statuses);
      if ended.Answered? {
        return ended.result, ended.saved, asked;
      }
      rest := rest[1..];
    }
    result, saved := Err, None;
  }

  // ----- what authentication can end with -----

  /** Nothing invalid is returned; what is saved is what is returned; a forced
      login returns only what it has just saved. */
  predicate Sound(force: bool, invalidToken: string, stored: Option<Creds>, result: Result, saved: Option<Creds>) {
    && (result.Ok? ==> !Invalid(result.creds.token, invalidToken))
    && (saved.Some? ==> result == Ok(saved.value) && saved.value.token != "" && saved.value.account != "")
    && (result.Ok? && saved.None? ==> !force && stored == Some(result.creds))
  }

  lemma {:induction false} PollingSound(force: bool, invalidToken: string, stored: Option<Creds>, host: string, code: string,
                                        statuses: seq<Status>)
    ensures var ended := Polling(force, invalidToken, stored, host, code, statuses).1;
      ended.Answered? ==> Sound(force, invalidToken, stored, ended.result, ended.saved)
    decreases |statuses|
  {
    if statuses != [] {
      var step := StepOf(force, invalidToken, stored, host, statuses[0]);
      if step.Continue? {
        PollingSound(force, invalidToken, stored, step.host, step.code, statuses[1..]);
      }
    }
  }

  /** Whatever the server and the user answer. */
  lemma {:induction false} CodesSound(force: bool, invalidToken: string, stored: Option<Creds>, codes: seq<Qr>, left: nat)
    ensures var r := Codes(force, invalidToken, stored, codes, left);
      Sound(force, invalidToken, stored, r.0, r.1) && r.2 <= left
    decreases left
  {
    if left > 0 && codes != [] && codes[0].Shown? {
      PollingSound(force, invalidToken, stored, FixedHost, "", codes[0].statuses);
      CodesSound(force, invalidToken, stored, codes[1..], left - 1);
    }
  }

  /** A verification code is sent with the poll after the one that asked for
      it and with no other; every other poll sends none. */
  lemma {:induction false} CodeSentOnce(force: bool, invalidToken: string, stored: Option<Creds>, host: string, code: string,
                                        statuses: seq<Status>, k: nat)
    requires 0 < k < |Polling(force, invalidToken, stored, host, code, statuses).0|
    ensures k <= |statuses|
    ensures Polling(force, invalidToken, stored, host, code, statuses).0[k].code ==
      if statuses[k - 1].NeedCode? && statuses[k - 1].answer.Code? then statuses[k - 1].answer.code else ""
    decreases |statuses|
  {
    var step := StepOf(force, invalidToken, stored, host, statuses[0]);
    if k == 1 {
      var r := Polling(force, invalidToken, stored, step.host, step.code, statuses[1..]);
      assert r.0[0] == Poll(step.host, step.code);
    } else {
      CodeSentOnce(force, invalidToken, stored, step.host, step.code, statuses[1..], k - 1);
    }
  }

  // ----- what the script decides, in its own terms -----

  /** The loop polls again after it. */
  predicate GoesOn(s: Status) { s.Waiting? || s.Redirect? || (s.NeedCode? && s.answer.Code? && s.answer.code != "") }

  /** The status at n is the first that ends the code, or there is none. */
  ghost predicate FirstStop(statuses: seq<Status>, n: nat) {
    n <= |statuses| && (forall i :: 0 <= i < n ==> GoesOn(statuses[i])) && (n < |statuses| ==> !GoesOn(statuses[n]))
  }

  predicate AsksAgain(s: Status) { s.Blocked? || s.Expired? }

  /** Complete credentials that are not the invalid ones, and are saved. */
  predicate Confirms(s: Status, invalidToken: string, c: Creds) {
    s == Confirmed(c, true) && c.token != "" && c.account != "" && c.user != "" && (invalidToken == "" || c.token != invalidToken)
  }

  /** The account is bound already and its stored credentials may be used. */
  predicate Rebinds(s: Status, force: bool, invalidToken: string, stored: Option<Creds>, c: Creds) {
    s == AlreadyBound(true) && !force && stored == Some(c) && (invalidToken == "" || c.token != invalidToken)
  }

  /** What the status that ends a code makes of it. */
  ghost predicate Decides(force: bool, invalidToken: string, stored: Option<Creds>, s: Status, ended: Ended) {
    && (AsksAgain(s) ==> ended == NextCode)
    && (forall c :: Confirms(s, invalidToken, c) ==> ended == Answered(Ok(c), Some(c)))
    && (forall c :: Rebinds(s, force, invalidToken, stored, c) ==> ended == Answered(Ok(c), None))
    && (!AsksAgain(s) && (forall c :: !Confirms(s, invalidToken, c) && !Rebinds(s, force, invalidToken, stored, c)) ==>
          ended == Answered(Err, None))
  }

  lemma StopDecides(force: bool, invalidToken: string, stored: Option<Creds>, host: string, s: Status)
    requires !GoesOn(s)
    ensures var step := StepOf(force, invalidToken, stored, host, s); step.End? && Decides(force, invalidToken, stored, s, step.ended)
  {
    match s
    case Confirmed(c, saveOk) => assert Confirms(s, invalidToken, c) <==> StepOf(force, invalidToken, stored, host, s) == End(Answered(Ok(c), Some(c)));
    case AlreadyBound(readable) =>
      if stored.Some? {
        assert Rebinds(s, force, invalidToken, stored, stored.value) <==>
          StepOf(force, invalidToken, stored, host, s) == End(Answered(Ok(stored.value), None));
      }
    case _ =>
  }

  /** One poll for each status up to the one that ends the code; without one
      the last poll fails. */
  lemma {:induction false} PollingEnds(force: bool, invalidToken: string, stored: Option<Creds>, host: string, code: string,
                                       statuses: seq<Status>, n: nat)
    requires FirstStop(statuses, n)
    ensures var r := Polling(force, invalidToken, stored, host, code, statuses);
      && |r.0| == n + 1
      && (n == |statuses| ==> r.1 == Answered(Err, None))
      && (n < |statuses| ==> Decides(force, invalidToken, stored, statuses[n], r.1))
    decreases |statuses|
  {
    if n < |statuses| && n == 0 {
      StopDecides(force, invalidToken, stored, host, statuses[0]);
    } else if n > 0 {
      var step := StepOf(force, invalidToken, stored, host, statuses[0]);
      assert GoesOn(statuses[0]) && step.Continue?;
      assert forall i :: 0 <= i < n - 1 ==> statuses[1..][i] == statuses[i + 1];
      PollingEnds(force, invalidToken, stored, step.host, step.code, statuses[1..], n - 1);
    }
  }

  /** A redirect to a named host moves every later poll there; nothing else
      moves them. */
  lemma {:induction false} PollsFollowRedirects(force: bool, invalidToken: string, stored: Option<Creds>, host: string, code: string,
                                                statuses: seq<Status>, k: nat)
    requires k < |Polling(force, invalidToken, stored, host, code, statuses).0|
    ensures k <= |statuses|
    ensures var polls := Polling(force, invalidToken, stored, host, code, statuses).0;
      polls[k].host ==
        if k == 0 then host
        else if statuses[k - 1].Redirect? && statuses[k - 1].host != "" then "https://" + statuses[k - 1].host
        else polls[k - 1].host
    decreases |statuses|
  {
    if k > 0 {
      var step := StepOf(force, invalidToken, stored, host, statuses[0]);
      var r := Polling(force, invalidToken, stored, step.host, step.code, statuses[1..]);
      assert Polling(force, invalidToken, stored, host, code, statuses).0 == [Poll(host, code)] + r.0;
      PollsFollowRedirects(force, invalidToken, stored, step.host, step.code, statuses[1..], k - 1);
    }
  }

  /** The QR code is shown and its first ending status is s. */
  ghost predicate EndsWith(qr: Qr, s: Status) {
    qr.Shown? && exists n: nat :: FirstStop(qr.statuses, n) && n < |qr.statuses| && qr.statuses[n] == s
  }

  lemma {:induction false} HasFirstStop(statuses: seq<Status>) returns (n: nat)
    ensures FirstStop(statuses, n)
  {
    if statuses == [] || !GoesOn(statuses[0]) {
      n := 0;
    } else {
      var m := HasFirstStop(statuses[1..]);
      n := m + 1;
      assert forall i :: 0 < i < n ==> statuses[i] == statuses[1..][i - 1];
    }
  }

  lemma FirstStopUnique(statuses: seq<Status>, m: nat, n: nat)
    requires FirstStop(statuses, m) && FirstStop(statuses, n)
    ensures m == n
  {
  }

  ghost predicate Renewed(qr: Qr) { exists s :: EndsWith(qr, s) && AsksAgain(s) }

  /** What a code that is not renewed answers. */
  ghost predicate Answers(force: bool, invalidToken: string, stored: Option<Creds>, qr: Qr, result: Result, saved: Option<Creds>) {
    && (forall s, c :: EndsWith(qr, s) && Confirms(s, invalidToken, c) ==> result == Ok(c) && saved == Some(c))
    && (forall s, c :: EndsWith(qr, s) && Rebinds(s, force, invalidToken, stored, c) ==> result == Ok(c) && saved == None)
    && ((forall s, c :: EndsWith(qr, s) ==> !Confirms(s, invalidToken, c) && !Rebinds(s, force, invalidToken, stored, c)) ==>
          result == Err && saved == None)
  }

  lemma CodeEnds(force: bool, invalidToken: string, stored: Option<Creds>, qr: Qr)
    requires qr.Shown?
    ensures var ended := Polling(force, invalidToken, stored, FixedHost, "", qr.statuses).1;
      && (Renewed(qr) <==> ended == NextCode)
      && (!Renewed(qr) ==> ended.Answered? && Answers(force, invalidToken, stored, qr, ended.result, ended.saved))
  {
    var n := HasFirstStop(qr.statuses);
    PollingEnds(force, invalidToken, stored, FixedHost, "", qr.statuses, n);
    if n == |qr.statuses| {
      NeverEnds(qr, n);
    } else {
      OnlyEnd(qr, n);
      assert EndsWith(qr, qr.statuses[n]);
      AnswersOnce(force, invalidToken, stored, qr, qr.statuses[n], Polling(force, invalidToken, stored, FixedHost, "", qr.statuses).1);
    }
  }

  lemma NeverEnds(qr: Qr, n: nat)
    requires qr.Shown? && FirstStop(qr.statuses, n) && n == |qr.statuses|
    ensures forall s :: !EndsWith(qr, s)
  {
  }

  lemma OnlyEnd(qr: Qr, n: nat)
    requires qr.Shown? && FirstStop(qr.statuses, n) && n < |qr.statuses|
    ensures forall s :: EndsWith(qr, s) ==> s == qr.statuses[n]
  {
    forall s | EndsWith(qr, s) ensures s == qr.statuses[n] {
      var m: nat :| FirstStop(qr.statuses, m) && m < |qr.statuses| && qr.statuses[m] == s;
      FirstStopUnique(qr.statuses, m, n);
    }
  }

  lemma AnswersOnce(force: bool, invalidToken: string, stored: Option<Creds>, qr: Qr, s: Status, ended: Ended)
    requires EndsWith(qr, s) && (forall s' :: EndsWith(qr, s') ==> s' == s) && !GoesOn(s) && Decides(force, invalidToken, stored, s, ended)
    ensures Renewed(qr) <==> ended == NextCode
    ensures !Renewed(qr) ==> ended.Answered? && Answers(force, invalidToken, stored, qr, ended.result, ended.saved)
  {
    if AsksAgain(s) {
      assert Renewed(qr);
    } else {
      assert !Renewed(qr);
    }
  }

  /** The first k codes are renewed. */
  ghost predicate Passed(codes: seq<Qr>, k: nat) { k <= |codes| && forall j :: 0 <= j < k ==> Renewed(codes[j]) }

  /** The code after them, if any could be had. */
  function CodeAt(codes: seq<Qr>, k: nat): Qr { if k < |codes| then codes[k] else QrFails }

  /** The first code that is not renewed decides; after `left` renewals the
      login gives up. */
  lemma {:induction false} CodesDecided(force: bool, invalidToken: string, stored: Option<Creds>, codes: seq<Qr>, left: nat, k: nat)
    requires k <= left && Passed(codes, k) && (k < left ==> !Passed(codes, k + 1))
    ensures var r := Codes(force, invalidToken, stored, codes, left);
      if k == left then r == (Err, None, left)
      else r.2 == k + 1 && Answers(force, invalidToken, stored, CodeAt(codes, k), r.0, r.1)
    decreases left
  {
    if k > 0 {
      assert Renewed(codes[0]);
      CodeEnds(force, invalidToken, stored, codes[0]);
      PassedRest(codes, k);
      CodesDecided(force, invalidToken, stored, codes[1..], left - 1, k - 1);
      assert CodeAt(codes[1..], k - 1) == CodeAt(codes, k);
    } else if left > 0 {
      OnePassed(codes);
      if codes != [] && codes[0].Shown? {
        CodeEnds(force, invalidToken, stored, codes[0]);
      }
    }
  }

  /** How a login by QR code ends: the first code that is not renewed decides,
      and after MaxQrCodes renewals the login gives up. */
  ghost predicate Decided(force: bool, invalidToken: string, stored: Option<Creds>, codes: seq<Qr>,
                          result: Result, saved: Option<Creds>, asked: nat) {
    && (Passed(codes, MaxQrCodes) ==> result == Err && saved == None && asked == MaxQrCodes)
    && (forall k: nat :: k < MaxQrCodes && Passed(codes, k) && !Passed(codes, k + 1) ==>
          asked == k + 1 && Answers(force, invalidToken, stored, CodeAt(codes, k), result, saved))
  }

  lemma CodesAreDecided(force: bool, invalidToken: string, stored: Option<Creds>, codes: seq<Qr>)
    ensures var r := Codes(force, invalidToken, stored, codes, MaxQrCodes); Decided(force, invalidToken, stored, codes, r.0, r.1, r.2)
  {
    if Passed(codes, MaxQrCodes) {
      CodesDecided(force, invalidToken, stored, codes, MaxQrCodes, MaxQrCodes);
    }
    forall k: nat | k < MaxQrCodes && Passed(codes, k) && !Passed(codes, k + 1)
      ensures var r := Codes(force, invalidToken, stored, codes, MaxQrCodes);
        r.2 == k + 1 && Answers(force, invalidToken, stored, CodeAt(codes, k), r.0, r.1)
    {
      CodesDecided(force, invalidToken, stored, codes, MaxQrCodes, k);
    }
  }

  lemma OnePassed(codes: seq<Qr>)
    ensures codes != [] && Renewed(codes[0]) ==> Passed(codes, 1)
  {
  }

  lemma PassedRest(codes: seq<Qr>, k: nat)
    requires 0 < k && Passed(codes, k)
    ensures Passed(codes[1..], k - 1) && (Passed(codes[1..], k) ==> Passed(codes, k + 1))
  {
    assert forall j :: 0 < j < |codes| ==> codes[j] == codes[1..][j - 1];
  }
}
