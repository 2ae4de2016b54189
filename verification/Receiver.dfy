/** The sequential receiving path as imperative code over the two stores:
    processWireMessage and processUpdateBatch, with every error exit.  Their
    error-free behaviour is the fold the concurrent dispatcher refines. */
module Receiver {
  import opened Wire
  import opened Replay
  import opened Stores
  import opened Dispatcher
  import opened Delivery
  import opened DeliveryRefinement

  /** What goes wrong while one message is processed, if anything.  Cancelled:
      the context is found cancelled before the message is decoded. */
  datatype Fault = NoFault | Cancelled | SessionChanged | TokenWriteFails | HookRejects | HandlerRetries | ReplayWriteFails

  /** What processing one message does under a fault: whether it succeeds, and
      the effects it leaves either way. */
  function Attempt(cfg: Config, now: int, e: Effects, m: Message, fault: Fault): (bool, Effects) {
    if fault == SessionChanged then (false, e)
    else if Skips(cfg, now, e, m) then (true, e)
    else if fault == TokenWriteFails && PeerUserID(m) != "" && m.contextToken != "" then (false, e)
    else if fault == HookRejects && m.kind == MessageTypeUser then (false, TokenEffect(e, m))
    else
      var e1 := CallEffect(TokenEffect(e, m), m);
      if (fault == HandlerRetries && m.kind == MessageTypeUser) || (fault == ReplayWriteFails && ReplayKeys(m) != []) then (false, e1)
      else (true, CommitEffect(cfg, now, e1, m))
  }

  /** A success is the whole effect; a failure commits no identity, so the
      message is not suppressed when it is delivered again. */
  lemma AttemptMeaning(cfg: Config, now: int, e: Effects, m: Message, fault: Fault)
    ensures var r := Attempt(cfg, now, e, m, fault);
      if r.0 then r.1 == Consume(cfg, now, e, m) else r.1.seen == e.seen
    ensures fault == NoFault ==> Attempt(cfg, now, e, m, fault).0
  {
  }

  /** Messages in order, up to the first that fails or cannot be decoded or is
      found cancelled. */
  function AttemptAll(cfg: Config, now: int, e: Effects, ms: seq<Option<Message>>, faults: seq<Fault>): (bool, Effects)
    requires |faults| == |ms|
  {
    if ms == [] then (true, e)
    else
      var last := |ms| - 1;
      var r := AttemptAll(cfg, now, e, ms[..last], faults[..last]);
      if !r.0 then r
      else if faults[last] == Cancelled || ms[last].None? then (false, r.1)
      else Attempt(cfg, now, r.1, ms[last].value, faults[last])
  }

  lemma {:induction false} AttemptStops(cfg: Config, now: int, e: Effects, ms: seq<Option<Message>>, faults: seq<Fault>, i: nat)
    requires |faults| == |ms| && i <= |ms| && !AttemptAll(cfg, now, e, ms[..i], faults[..i]).0
    ensures AttemptAll(cfg, now, e, ms, faults) == AttemptAll(cfg, now, e, ms[..i], faults[..i])
    decreases |ms|
  {
    if i == |ms| {
      assert ms[..i] == ms && faults[..i] == faults;
    } else {
      var last := |ms| - 1;
      assert ms[..last][..i] == ms[..i] && faults[..last][..i] == faults[..i];
      AttemptStops(cfg, now, e, ms[..last], faults[..last], i);
    }
  }

  /** One more message, of a longer list. */
  lemma AttemptOne(cfg: Config, now: int, e: Effects, ms: seq<Option<Message>>, faults: seq<Fault>, i: nat)
    requires |faults| == |ms| && i < |ms|
    ensures AttemptAll(cfg, now, e, ms[..i + 1], faults[..i + 1]) ==
      var r := AttemptAll(cfg, now, e, ms[..i], faults[..i]);
      if !r.0 then r
      else if faults[i] == Cancelled || ms[i].None? then (false, r.1)
      else Attempt(cfg, now, r.1, ms[i].value, faults[i])
  {
    assert ms[..i + 1][..i] == ms[..i] && faults[..i + 1][..i] == faults[..i];
  }

  lemma AttemptWhole(cfg: Config, now: int, e: Effects, ms: seq<Option<Message>>, faults: seq<Fault>)
    requires |faults| == |ms|
    ensures AttemptAll(cfg, now, e, ms[..|ms|], faults[..|faults|]) == AttemptAll(cfg, now, e, ms, faults)
  {
    assert ms[..|ms|] == ms && faults[..|faults|] == faults;
  }

  lemma AttemptLast(cfg: Config, now: int, e: Effects, ms: seq<Option<Message>>, faults: seq<Fault>, last: nat)
    requires |faults| == |ms| == last + 1 && AttemptAll(cfg, now, e, ms, faults).0
    ensures AttemptAll(cfg, now, e, ms[..last], faults[..last]).0 && ms[last].Some?
    ensures AttemptAll(cfg, now, e, ms, faults).1 ==
      Consume(cfg, now, AttemptAll(cfg, now, e, ms[..last], faults[..last]).1, ms[last].value)
  {
    if ms[last].Some? {
      AttemptMeaning(cfg, now, AttemptAll(cfg, now, e, ms[..last], faults[..last]).1, ms[last].value, faults[last]);
    }
  }

  lemma MessagesOfLast(b: Batch, prior: Batch, last: nat)
    requires |b.messages| == last + 1 && prior.messages == b.messages[..last] && Decodable(prior) && b.messages[last].Some?
    ensures Decodable(b) && MessagesOf(b) == MessagesOf(prior) + [b.messages[last].value]
  {
    assert forall j :: 0 <= j < last ==> prior.messages[j] == b.messages[j];
  }

  /** Success means that every message was decodable and that they were folded
      in order. */
  lemma {:induction false} AttemptAllMeaning(cfg: Config, now: int, e: Effects, b: Batch, faults: seq<Fault>)
    requires |faults| == |b.messages| && AttemptAll(cfg, now, e, b.messages, faults).0
    ensures Decodable(b) && AttemptAll(cfg, now, e, b.messages, faults).1 == ConsumeAll(cfg, now, e, MessagesOf(b))
    decreases |b.messages|
  {
    if b.messages != [] {
      var last := |b.messages| - 1;
      var prior := b.(messages := b.messages[..last]);
      AttemptLast(cfg, now, e, b.messages, faults, last);
      AttemptAllMeaning(cfg, now, e, prior, faults[..last]);
      MessagesOfLast(b, prior, last);
      ConsumeAllAppend(cfg, now, e, MessagesOf(prior), b.messages[last].value);
    }
  }

  /** Without faults a malformed message is the only failure. */
  lemma {:induction false} NoFaultSucceeds(cfg: Config, now: int, e: Effects, b: Batch, faults: seq<Fault>)
    requires |faults| == |b.messages| && Decodable(b) && forall i :: 0 <= i < |faults| ==> faults[i] == NoFault
    ensures AttemptAll(cfg, now, e, b.messages, faults).0
    decreases |b.messages|
  {
    if b.messages != [] {
      var last := |b.messages| - 1;
      NoFaultSucceeds(cfg, now, e, b.(messages := b.messages[..last]), faults[..last]);
    }
  }

  // ----- what one message leaves, in terms of its own fields -----

  /** The strongest identity is in the index and inside the window. */
  predicate Suppressed(seen: Seen, ttl: int, now: int, m: Message) {
    ReplayKeys(m) != [] && ReplayKeys(m)[0] in seen && seen[ReplayKeys(m)[0]] >= UnixMilli(now - ttl)
  }

  function Kept(tokens: map<string, string>, user: string, m: Message): map<string, string> {
    if m.contextToken != "" then tokens[user := m.contextToken] else tokens
  }

  /** Every identity is committed at this time. */
  ghost predicate Stamped(seen: Seen, now: int, m: Message) {
    forall k :: k in ReplayKeys(m) ==> k in seen && seen[k] == UnixMilli(now)
  }

  /** A user's message leaves its token with its sender and is handled, the
      bot's own leaves it with its receiver, and both are remembered under all
      their identities; any other message leaves nothing. */
  ghost predicate LeftBy(m: Message, now: int, e: Effects, r: Effects) {
    && (m.kind == MessageTypeUser && m.fromUser != "" ==>
          r.tokens == Kept(e.tokens, m.fromUser, m) && r.calls == e.calls + [m] && Stamped(r.seen, now, m))
    && (m.kind == MessageTypeUser && m.fromUser == "" ==> r == e.(calls := e.calls + [m]))
    && (m.kind == MessageTypeBot && m.toUser != "" ==>
          r.tokens == Kept(e.tokens, m.toUser, m) && r.calls == e.calls && Stamped(r.seen, now, m))
    && (m.kind == MessageTypeBot && m.toUser == "" ==> r == e)
    && (m.kind != MessageTypeUser && m.kind != MessageTypeBot ==> r == e)
  }

  lemma SkipsIffSuppressed(cfg: Config, now: int, e: Effects, m: Message)
    ensures Skips(cfg, now, e, m) <==> Suppressed(e.seen, cfg.ttl, now, m)
  {
    ReplayKeysNonEmpty(m);
  }

  lemma CommitStamps(cfg: Config, now: int, e: Effects, m: Message)
    ensures Stamped(CommitEffect(cfg, now, e, m).seen, now, m)
  {
    ReplayKeysNonEmpty(m);
    assert forall k :: k in ReplayKeys(m) ==> k in RealKeys(ReplayKeys(m));
  }

  lemma ConsumedIsLeft(cfg: Config, now: int, e: Effects, m: Message)
    ensures Consume(cfg, now, e, m) == e || !Suppressed(e.seen, cfg.ttl, now, m)
    ensures !Suppressed(e.seen, cfg.ttl, now, m) ==> LeftBy(m, now, e, Consume(cfg, now, e, m))
  {
    SkipsIffSuppressed(cfg, now, e, m);
    CommitStamps(cfg, now, CallEffect(TokenEffect(e, m), m), m);
  }

  /** A message that belongs to nobody and is not for the handler changes nothing,
      whatever goes wrong. */
  lemma StrangerLeavesNothing(cfg: Config, now: int, e: Effects, m: Message, fault: Fault)
    requires m.kind != MessageTypeUser && m.kind != MessageTypeBot
    ensures Attempt(cfg, now, e, m, fault).1 == e
  {
  }

  /** Whom the message is exchanged with, if anyone. */
  predicate Exchanged(m: Message, peer: string) {
    peer != "" && ((m.kind == MessageTypeUser && peer == m.fromUser) || (m.kind == MessageTypeBot && peer == m.toUser))
  }

  /** Which faults strike this message, unless it is suppressed. */
  ghost predicate Strikes(m: Message, fault: Fault) {
    match fault
    case SessionChanged => true
    case TokenWriteFails => m.contextToken != "" && exists peer :: Exchanged(m, peer)
    case HookRejects => m.kind == MessageTypeUser
    case HandlerRetries => m.kind == MessageTypeUser
    case ReplayWriteFails => ReplayKeys(m) != []
    case _ => false
  }

  /** What a message that failed leaves: its token unless that was not reached,
      a handler call if it was reached, and no identity. */
  ghost predicate FailedBy(m: Message, fault: Fault, e: Effects, r: Effects) {
    && r.seen == e.seen
    && r.calls == (if m.kind == MessageTypeUser && (fault.HandlerRetries? || fault.ReplayWriteFails?) then e.calls + [m] else e.calls)
    && (fault.SessionChanged? || fault.TokenWriteFails? ==> r.tokens == e.tokens)
    && (!fault.SessionChanged? && !fault.TokenWriteFails? ==> forall peer :: Exchanged(m, peer) ==> r.tokens == Kept(e.tokens, peer, m))
  }

  lemma AttemptFailsIff(cfg: Config, now: int, e: Effects, m: Message, fault: Fault)
    ensures var r := Attempt(cfg, now, e, m, fault);
      && (!r.0 <==> Strikes(m, fault) && (fault.SessionChanged? || !Suppressed(e.seen, cfg.ttl, now, m)))
      && (!r.0 ==> FailedBy(m, fault, e, r.1))
  {
    SkipsIffSuppressed(cfg, now, e, m);
    assert PeerUserID(m) != "" ==> Exchanged(m, PeerUserID(m));
  }

  class Bot {
    const replayStore: ReplayStore
    const cursorStore: CursorStore
    var tokens: map<string, string>
    var calls: seq<Message>

    constructor (replay: ReplayStore, cursor: CursorStore)
      ensures replayStore == replay && cursorStore == cursor && tokens == map[] && calls == []
    {
      replayStore, cursorStore, tokens, calls := replay, cursor, map[], [];
    }

    function State(): Effects
      reads this, replayStore
    {
      Effects(replayStore.seenAt, tokens, calls)
    }

    ghost function Setting(): Config
    {
      Config(1, replayStore.ttl)
    }

    /** What Attempt says in terms of the message's fields. */
    lemma MessageLeaves(m: Message, now: int, fault: Fault)
      ensures var r := Attempt(Setting(), now, State(), m, fault);
        && (r.0 && Suppressed(replayStore.seenAt, replayStore.ttl, now, m) ==> r.1 == State())
        && (r.0 && !Suppressed(replayStore.seenAt, replayStore.ttl, now, m) ==> LeftBy(m, now, State(), r.1))
        && (m.kind != MessageTypeUser && m.kind != MessageTypeBot ==> r.1 == State())
        && (!r.0 <==> Strikes(m, fault) && (fault.SessionChanged? || !Suppressed(replayStore.seenAt, replayStore.ttl, now, m)))
        && (!r.0 ==> FailedBy(m, fault, State(), r.1))
    {
      AttemptFailsIff(Setting(), now, State(), m, fault);
      AttemptMeaning(Setting(), now, State(), m, fault);
      ConsumedIsLeft(Setting(), now, State(), m);
      if m.kind != MessageTypeUser && m.kind != MessageTypeBot {
        StrangerLeavesNothing(Setting(), now, State(), m, fault);
      }
    }

    method ProcessWireMessage(m: Message, now: int, fault: Fault) returns (err: Option<Error>)
      modifies this, replayStore
      ensures (err.None?, State()) == Attempt(Setting(), now, old(State()), m, fault)
      ensures err.Some? ==> replayStore.State() == old(replayStore.State())
      ensures err.Some? <==> Strikes(m, fault) && (fault.SessionChanged? || !old(Suppressed(replayStore.seenAt, replayStore.ttl, now, m)))
      ensures err.Some? ==> FailedBy(m, fault, old(State()), State())
      ensures err.None? && old(Suppressed(replayStore.seenAt, replayStore.ttl, now, m)) ==> State() == old(State())
      ensures err.None? && !old(Suppressed(replayStore.seenAt, replayStore.ttl, now, m)) ==> LeftBy(m, now, old(State()), State())
      ensures m.kind != MessageTypeUser && m.kind != MessageTypeBot ==> State() == old(State())
    {
      MessageLeaves(m, now, fault);
      if fault == SessionChanged {
        return Some("wechatbot: authenticated session changed");
      }
      var keys := ReplayKeys(m);
      if |keys| > 0 {
        var seen := replayStore.SeenAny([keys[0]], now);
        assert seen <==> SeenKey(replayStore.seenAt, keys[0], now, replayStore.ttl);
        if seen {
          return None;
        }
      }
      if PeerUserID(m) != "" && m.contextToken != "" {
        if fault == TokenWriteFails {
          return Some("persist context token");
        }
        tokens := tokens[PeerUserID(m) := m.contextToken];
      }
      if m.kind == MessageTypeUser {
        if fault == HookRejects {
          return Some("AfterReceive hook failed");
        }
        calls := calls + [m];
        if fault == HandlerRetries {
          return Some("handle message");
        }
      }
      assert State() == CallEffect(TokenEffect(old(State()), m), m);
      if |keys| > 0 {
        var ok := replayStore.CommitAll(keys, now, fault != ReplayWriteFails);
        ReplayKeysNonEmpty(m);
        assert keys[0] in RealKeys(keys);
        if !ok {
          return Some("commit replay identities");
        }
      }
      return None;
    }

    /** Messages in order, stopping at the first error. */
    method ProcessMessages(batch: Batch, now: int, faults: seq<Fault>) returns (err: Option<Error>)
      requires |faults| == |batch.messages|
      modifies this, replayStore
      ensures (err.None?, State()) == AttemptAll(Setting(), now, old(State()), batch.messages, faults)
    {
      ghost var cfg, start := Setting(), State();
      for i := 0 to |batch.messages|
        invariant AttemptAll(cfg, now, start, batch.messages[..i], faults[..i]) == (true, State())
      {
        AttemptOne(cfg, now, start, batch.messages, faults, i);
        if faults[i] == Cancelled {
          AttemptStops(cfg, now, start, batch.messages, faults, i + 1);
          return Some(ContextCanceled);
        }
        if batch.messages[i].None? {
          AttemptStops(cfg, now, start, batch.messages, faults, i + 1);
          return Some("decode incoming message");
        }
        err := ProcessWireMessage(batch.messages[i].value, now, faults[i]);
        if err.Some? {
          AttemptStops(cfg, now, start, batch.messages, faults, i + 1);
          return;
        }
      }
      AttemptWhole(cfg, now, start, batch.messages, faults);
      return None;
    }

    /** The cursor moves only after every message. */
    method ProcessUpdateBatch(batch: Batch, now: int, faults: seq<Fault>, cursorWriteOk: bool) returns (err: Option<Error>)
      requires |faults| == |batch.messages| && replayStore as object != cursorStore
      modifies this, replayStore, cursorStore
      ensures var r := AttemptAll(Setting(), now, old(State()), batch.messages, faults);
        var write := batch.cursor != "" && batch.cursor != old(cursorStore.buf);
        && State() == r.1
        && (err.None? <==> r.0 && (write ==> cursorWriteOk))
        && cursorStore.State() == if err.None? && write then SetCursor(old(cursorStore.State()), batch.cursor, true) else old(cursorStore.State())
      ensures err.None? ==> Decodable(batch)
      ensures err.None? ==>
        Sequential(State(), cursorStore.buf) == ProcessBatch(Setting(), now, old(Sequential(State(), cursorStore.buf)), batch)
    {
      if AttemptAll(Setting(), now, State(), batch.messages, faults).0 {
        AttemptAllMeaning(Setting(), now, State(), batch, faults);
      }
      err := ProcessMessages(batch, now, faults);
      if err.Some? {
        return;
      }
      if batch.cursor != "" && batch.cursor != cursorStore.buf {
        var ok := cursorStore.Set(batch.cursor, cursorWriteOk);
        if !ok {
          return Some("commit cursor");
        }
      }
      return None;
    }
  }
}
