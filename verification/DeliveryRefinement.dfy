/** The concurrent dispatcher refines the sequential processUpdateBatch: in runs
    without cancellation, errors or clock movement the stores and each
    conversation's handler calls end up as if the batches had been folded one
    message at a time. */
module DeliveryRefinement {
  import opened Seqs
  import opened Wire
  import opened Replay
  import opened Stores
  import opened Dispatcher
  import opened Delivery
  import opened DeliveryOrder
  import opened DeliveryAccounting
  import opened DeliveryProgress
  import opened DeliveryDurability

  /** What processing a message can change, cursor aside. */
  datatype Effects = Effects(seen: Seen, tokens: map<string, string>, calls: seq<Message>)

  // ----- the sequential reference -----

  predicate Skips(cfg: Config, now: int, e: Effects, m: Message) {
    ReplayKeys(m) != [] && SeenKey(e.seen, ReplayKeys(m)[0], now, cfg.ttl)
  }

  function TokenEffect(e: Effects, m: Message): Effects {
    if PeerUserID(m) != "" && m.contextToken != "" then e.(tokens := e.tokens[PeerUserID(m) := m.contextToken]) else e
  }

  function CallEffect(e: Effects, m: Message): Effects {
    if m.kind == MessageTypeUser then e.(calls := e.calls + [m]) else e
  }

  function CommitEffect(cfg: Config, now: int, e: Effects, m: Message): Effects {
    if RealKeys(ReplayKeys(m)) == {} then e else e.(seen := Committed(e.seen, ReplayKeys(m), now, cfg.ttl))
  }

  /** processWireMessage when nothing fails. */
  function Consume(cfg: Config, now: int, e: Effects, m: Message): Effects {
    if Skips(cfg, now, e, m) then e
    else CommitEffect(cfg, now, CallEffect(TokenEffect(e, m), m), m)
  }

  function ConsumeAll(cfg: Config, now: int, e: Effects, ms: seq<Message>): Effects {
    if ms == [] then e
    else Consume(cfg, now, ConsumeAll(cfg, now, e, ms[..|ms| - 1]), ms[|ms| - 1])
  }

  function MessagesOf(b: Batch): seq<Message>
    requires Decodable(b)
  {
    seq(|b.messages|, i requires 0 <= i < |b.messages| => b.messages[i].value)
  }

  predicate Decodable(b: Batch) {
    forall i :: 0 <= i < |b.messages| ==> b.messages[i].Some?
  }

  datatype Sequential = Sequential(effects: Effects, cursor: string)

  /** processUpdateBatch when nothing fails. */
  function ProcessBatch(cfg: Config, now: int, s: Sequential, b: Batch): Sequential
    requires Decodable(b)
  {
    Sequential(ConsumeAll(cfg, now, s.effects, MessagesOf(b)),
               if b.cursor != "" && b.cursor != s.cursor then b.cursor else s.cursor)
  }

  predicate AllDecodable(bs: seq<Batch>) {
    forall k :: 0 <= k < |bs| ==> Decodable(bs[k])
  }

  function ProcessBatches(cfg: Config, now: int, s: Sequential, bs: seq<Batch>): Sequential
    requires AllDecodable(bs)
  {
    if bs == [] then s
    else ProcessBatch(cfg, now, ProcessBatches(cfg, now, s, bs[..|bs| - 1]), bs[|bs| - 1])
  }

  // ----- one conversation's share of the effects -----

  /** The key carries the prefix of the conversation's peer. */
  predicate Owns(c: string, k: string) {
    |c| >= 5 && c[..5] == "user:" && PeerPrefix(c[5..]) <= k
  }

  function Share(e: Effects, c: string): Effects {
    Effects(map k | k in e.seen && Owns(c, k) :: e.seen[k],
            map u | u in e.tokens && "user:" + u == c :: e.tokens[u],
            CallsOf(e.calls, c))
  }

  function CallsOf(calls: seq<Message>, c: string): seq<Message> {
    if calls == [] then []
    else
      var rest, m := CallsOf(calls[..|calls| - 1], c), calls[|calls| - 1];
      if ConversationKey(m) == c then rest + [m] else rest
  }

  /** No entry is stale at the fixed clock, so pruning does nothing. */
  ghost predicate Live(cfg: Config, now: int, m: Seen) {
    forall k :: k in m ==> m[k] >= Cutoff(now, cfg.ttl)
  }

  lemma OwnsMeans(c: string, k: string, peer: string, tail: string)
    requires k == PeerPrefix(peer) + tail && Owns(c, k)
    ensures c == "user:" + peer
  {
    var rest := k[|PeerPrefix(c[5..])|..];
    Rejoin(k, |PeerPrefix(c[5..])|);
    PeerPrefixInjective(peer, c[5..], tail, rest);
    Rejoin(c, 5);
  }

  lemma OwnsOf(peer: string, tail: string)
    ensures Owns("user:" + peer, PeerPrefix(peer) + tail)
  {
    Halves("user:", peer);
  }

  lemma KeyHasTail(m: Message, k: string) returns (tail: string)
    requires k in ReplayKeys(m)
    ensures k == PeerPrefix(PeerUserID(m)) + tail && PeerUserID(m) != ""
  {
    ReplayKeysAreIdentities(m);
    var i :| 0 <= i < |ReplayKeys(m)| && ReplayKeys(m)[i] == k;
    tail := KeyTail(Identities(m)[i]);
  }

  lemma OwnKeys(m: Message, c: string, k: string)
    requires k in ReplayKeys(m)
    ensures Owns(c, k) <==> ConversationKey(m) == c
  {
    var tail := KeyHasTail(m, k);
    OwnsOf(PeerUserID(m), tail);
    if Owns(c, k) {
      OwnsMeans(c, k, PeerUserID(m), tail);
    }
  }

  lemma CallsOfAppend(calls: seq<Message>, m: Message, c: string)
    ensures CallsOf(calls + [m], c) == if ConversationKey(m) == c then CallsOf(calls, c) + [m] else CallsOf(calls, c)
  {
    assert (calls + [m])[..|calls|] == calls;
  }

  lemma TokenShare(e: Effects, m: Message, c: string)
    ensures Share(TokenEffect(e, m), c) == if ConversationKey(m) == c then TokenEffect(Share(e, c), m) else Share(e, c)
  {
    var e' := TokenEffect(e, m);
    if PeerUserID(m) != "" && m.contextToken != "" {
      assert ConversationKey(m) == "user:" + PeerUserID(m);
      if ConversationKey(m) == c {
        assert forall u :: "user:" + u == c ==> u == c[5..];
        assert Share(e', c).tokens == TokenEffect(Share(e, c), m).tokens;
      } else {
        assert Share(e', c).tokens == Share(e, c).tokens;
      }
    }
  }

  lemma CallShare(e: Effects, m: Message, c: string)
    ensures Share(CallEffect(e, m), c) == if ConversationKey(m) == c then CallEffect(Share(e, c), m) else Share(e, c)
  {
    CallsOfAppend(e.calls, m, c);
  }

  lemma CommitKeepsLive(cfg: Config, now: int, e: Effects, m: Message)
    requires Live(cfg, now, e.seen) && cfg.ttl >= 0
    ensures Live(cfg, now, CommitEffect(cfg, now, e, m).seen)
  {
  }

  lemma CommittedShare(cfg: Config, now: int, e: Effects, keys: seq<string>, c: string, own: bool)
    requires Live(cfg, now, e.seen)
    requires forall k :: k in RealKeys(keys) ==> (Owns(c, k) <==> own)
    ensures Share(e.(seen := Committed(e.seen, keys, now, cfg.ttl)), c) ==
      if own then Share(e, c).(seen := Committed(Share(e, c).seen, keys, now, cfg.ttl)) else Share(e, c)
  {
    var e' := e.(seen := Committed(e.seen, keys, now, cfg.ttl));
    assert Pruned(e.seen, Cutoff(now, cfg.ttl)) == e.seen;
    assert Pruned(Share(e, c).seen, Cutoff(now, cfg.ttl)) == Share(e, c).seen;
    if own {
      assert Share(e', c).seen == Committed(Share(e, c).seen, keys, now, cfg.ttl);
    } else {
      assert Share(e', c).seen == Share(e, c).seen;
    }
  }

  lemma CommitShare(cfg: Config, now: int, e: Effects, m: Message, c: string)
    requires Live(cfg, now, e.seen)
    ensures Share(CommitEffect(cfg, now, e, m), c) ==
      if ConversationKey(m) == c then CommitEffect(cfg, now, Share(e, c), m) else Share(e, c)
  {
    forall k | k in RealKeys(ReplayKeys(m)) ensures Owns(c, k) <==> ConversationKey(m) == c {
      OwnKeys(m, c, k);
    }
    CommittedShare(cfg, now, e, ReplayKeys(m), c, ConversationKey(m) == c);
  }

  lemma SkipShare(cfg: Config, now: int, e: Effects, m: Message)
    ensures Skips(cfg, now, Share(e, ConversationKey(m)), m) == Skips(cfg, now, e, m)
  {
    if ReplayKeys(m) != [] {
      OwnKeys(m, ConversationKey(m), ReplayKeys(m)[0]);
    }
  }

  /** A message acts on its own conversation's share and on no other. */
  lemma ConsumeShare(cfg: Config, now: int, e: Effects, m: Message, c: string)
    requires Live(cfg, now, e.seen) && cfg.ttl >= 0
    ensures Share(Consume(cfg, now, e, m), c) ==
      if ConversationKey(m) == c then Consume(cfg, now, Share(e, c), m) else Share(e, c)
    ensures Live(cfg, now, Consume(cfg, now, e, m).seen)
  {
    var e1 := TokenEffect(e, m);
    var e2 := CallEffect(e1, m);
    SkipShare(cfg, now, e, m);
    TokenShare(e, m, c);
    CallShare(e1, m, c);
    CommitShare(cfg, now, e2, m, c);
    CommitKeepsLive(cfg, now, e2, m);
  }

  function OfConversation(ms: seq<Message>, c: string): seq<Message> { CallsOf(ms, c) }

  /** Folding everything and then looking at one conversation is folding that
      conversation alone. */
  lemma {:induction false} ConsumeAllShare(cfg: Config, now: int, e: Effects, ms: seq<Message>, c: string)
    requires Live(cfg, now, e.seen) && cfg.ttl >= 0
    ensures Share(ConsumeAll(cfg, now, e, ms), c) == ConsumeAll(cfg, now, Share(e, c), OfConversation(ms, c))
    ensures Live(cfg, now, ConsumeAll(cfg, now, e, ms).seen)
  {
    if ms != [] {
      var prior, m := ms[..|ms| - 1], ms[|ms| - 1];
      ConsumeAllShare(cfg, now, e, prior, c);
      ConsumeShare(cfg, now, ConsumeAll(cfg, now, e, prior), m, c);
      if ConversationKey(m) == c {
        assert OfConversation(ms, c)[..|OfConversation(prior, c)|] == OfConversation(prior, c);
      }
    }
  }

  // ----- the concurrent side -----

  function EffectsOf(w: World): Effects {
    Effects(w.replay.mem, w.tokens, seq(|w.calls|, i requires 0 <= i < |w.calls| => w.calls[i].msg))
  }

  /** How much of its message a task at this phase has performed. */
  function Stage(cfg: Config, now: int, e: Effects, t: Task): Effects {
    var r := Rank(t.phase);
    if r <= 6 then e
    else if r == 7 then TokenEffect(e, t.msg)
    else if r <= 9 then CallEffect(TokenEffect(e, t.msg), t.msg)
    else Consume(cfg, now, e, t.msg)
  }

  /** One conversation folded over its tasks in scheduling order. */
  function Expected(cfg: Config, now: int, base: Effects, tasks: seq<Task>, c: string): Effects {
    if tasks == [] then base
    else
      var e, t := Expected(cfg, now, base, tasks[..|tasks| - 1], c), tasks[|tasks| - 1];
      if t.key == c then Stage(cfg, now, e, t) else e
  }

  lemma {:induction false} ExpectedElsewhere(cfg: Config, now: int, base: Effects, tasks: seq<Task>, i: nat, t: Task, c: string)
    requires i < |tasks| && t.key == tasks[i].key != c
    ensures Expected(cfg, now, base, tasks[i := t], c) == Expected(cfg, now, base, tasks, c)
  {
    var n := |tasks| - 1;
    if i == n {
      assert tasks[i := t][..n] == tasks[..n];
    } else {
      assert tasks[i := t][..n] == tasks[..n][i := t];
      ExpectedElsewhere(cfg, now, base, tasks[..n], i, t, c);
    }
  }

  /** No later task of the conversation has had an effect yet. */
  predicate LastToAct(tasks: seq<Task>, i: nat)
    requires i < |tasks|
  {
    forall j :: i < j < |tasks| && tasks[j].key == tasks[i].key ==> Rank(tasks[j].phase) <= 3
  }

  lemma {:induction false} ExpectedAtLast(cfg: Config, now: int, base: Effects, tasks: seq<Task>, i: nat)
    requires i < |tasks| && LastToAct(tasks, i)
    ensures Expected(cfg, now, base, tasks, tasks[i].key)
      == Stage(cfg, now, Expected(cfg, now, base, tasks[..i], tasks[i].key), tasks[i])
  {
    var n := |tasks| - 1;
    if i < n {
      assert tasks[..n][..i] == tasks[..i];
      ExpectedAtLast(cfg, now, base, tasks[..n], i);
    }
  }

  /** A step that leaves the stage as it was. */
  lemma {:induction false} ExpectedSameStage(cfg: Config, now: int, base: Effects, tasks: seq<Task>, i: nat, t: Task, c: string)
    requires i < |tasks| && t.key == tasks[i].key && t.msg == tasks[i].msg
    requires forall e :: Stage(cfg, now, e, t) == Stage(cfg, now, e, tasks[i])
    ensures Expected(cfg, now, base, tasks[i := t], c) == Expected(cfg, now, base, tasks, c)
  {
    var n := |tasks| - 1;
    if i == n {
      assert tasks[i := t][..n] == tasks[..n];
    } else {
      assert tasks[i := t][..n] == tasks[..n][i := t];
      ExpectedSameStage(cfg, now, base, tasks[..n], i, t, c);
    }
  }

  lemma ExpectedAppend(cfg: Config, now: int, base: Effects, tasks: seq<Task>, t: Task, c: string)
    requires Rank(t.phase) <= 6
    ensures Expected(cfg, now, base, tasks + [t], c) == Expected(cfg, now, base, tasks, c)
  {
    assert (tasks + [t])[..|tasks|] == tasks;
  }

  predicate CleanTask(t: Task, now: int) {
    && (t.phase.Leave? ==> t.phase.err.None?)
    && (t.phase.Report? ==> t.phase.reported.None? && t.phase.executed)
    && !t.outcome.Failed? && !t.outcome.Abandoned?
    && (t.phase.Store? ==> t.phase.stamp == now)
    && (t.phase.Invoke? ==> t.msg.kind == MessageTypeUser)
    && ((t.phase.Stamp? || t.phase.Store?) ==> t.keys != [])
  }

  /** The replay check of task i was a miss, and still would be. */
  ghost predicate MissHolds(cfg: Config, now: int, e0: Effects, tasks: seq<Task>, i: nat)
    requires i < |tasks|
  {
    6 <= Rank(tasks[i].phase) <= 9 ==>
      !Skips(cfg, now, Expected(cfg, now, Share(e0, tasks[i].key), tasks[..i], tasks[i].key), tasks[i].msg)
  }

  /** Each conversation's share is what folding its tasks gives. */
  ghost predicate InStep(cfg: Config, now: int, e0: Effects, e: Effects, tasks: seq<Task>) {
    && (forall c: string :: Share(e, c) == Expected(cfg, now, Share(e0, c), tasks, c))
    && (forall i :: 0 <= i < |tasks| ==> MissHolds(cfg, now, e0, tasks, i))
  }

  ghost predicate Owned(k: string) { exists c :: Owns(c, k) }

  /** Entries that belong to no conversation are left alone. */
  ghost predicate StrangersKept(m: Seen, m': Seen) {
    forall k :: !Owned(k) ==> (k in m <==> k in m') && (k in m && k in m' ==> m[k] == m'[k])
  }

  lemma CommitKeepsStrangers(cfg: Config, now: int, e: Effects, m: Message)
    requires Live(cfg, now, e.seen)
    ensures StrangersKept(e.seen, CommitEffect(cfg, now, e, m).seen)
  {
    assert Pruned(e.seen, Cutoff(now, cfg.ttl)) == e.seen;
    forall k | k in RealKeys(ReplayKeys(m)) ensures Owned(k) {
      OwnKeys(m, ConversationKey(m), k);
    }
  }

  // ----- a task moves -----

  lemma SameStageInStep(cfg: Config, now: int, e0: Effects, e: Effects, tasks: seq<Task>, i: nat, t: Task)
    requires InStep(cfg, now, e0, e, tasks) && i < |tasks| && t.key == tasks[i].key && t.msg == tasks[i].msg
    requires forall x :: Stage(cfg, now, x, t) == Stage(cfg, now, x, tasks[i])
    requires 6 <= Rank(t.phase) <= 9 ==> 6 <= Rank(tasks[i].phase) <= 9
    ensures InStep(cfg, now, e0, e, tasks[i := t])
  {
    var next := tasks[i := t];
    forall c: string ensures Share(e, c) == Expected(cfg, now, Share(e0, c), next, c) {
      ExpectedSameStage(cfg, now, Share(e0, c), tasks, i, t, c);
    }
    forall j | 0 <= j < |next| ensures MissHolds(cfg, now, e0, next, j) {
      assert MissHolds(cfg, now, e0, tasks, j);
      if i < j {
        assert next[..j] == tasks[..j][i := t];
        ExpectedSameStage(cfg, now, Share(e0, tasks[j].key), tasks[..j], i, t, tasks[j].key);
      } else {
        assert next[..j] == tasks[..j];
      }
    }
  }

  /** A step with an effect: it acts on the conversation's own share exactly as
      the stage does, and nobody later in the conversation has started. */
  lemma ActingInStep(cfg: Config, now: int, e0: Effects, e: Effects, e': Effects, tasks: seq<Task>, i: nat, t: Task)
    requires InStep(cfg, now, e0, e, tasks) && i < |tasks| && t.key == tasks[i].key && t.msg == tasks[i].msg
    requires LastToAct(tasks, i) && Rank(tasks[i].phase) >= 4
    requires forall c: string :: c != t.key ==> Share(e', c) == Share(e, c)
    requires Share(e', t.key) == Stage(cfg, now, Expected(cfg, now, Share(e0, t.key), tasks[..i], t.key), t)
    requires 6 <= Rank(t.phase) <= 9 ==>
      !Skips(cfg, now, Expected(cfg, now, Share(e0, t.key), tasks[..i], t.key), t.msg)
    ensures InStep(cfg, now, e0, e', tasks[i := t])
  {
    var next := tasks[i := t];
    forall c: string ensures Share(e', c) == Expected(cfg, now, Share(e0, c), next, c) {
      if c == t.key {
        assert next[..i] == tasks[..i];
        ExpectedAtLast(cfg, now, Share(e0, c), next, i);
      } else {
        ExpectedElsewhere(cfg, now, Share(e0, c), tasks, i, t, c);
      }
    }
    forall j | 0 <= j < |next| ensures MissHolds(cfg, now, e0, next, j) {
      assert MissHolds(cfg, now, e0, tasks, j);
      if i < j {
        assert next[..j] == tasks[..j][i := t];
        if tasks[j].key != t.key {
          ExpectedElsewhere(cfg, now, Share(e0, tasks[j].key), tasks[..j], i, t, tasks[j].key);
        }
      } else {
        assert next[..j] == tasks[..j];
      }
    }
  }

  /** Inside processWireMessage a clean task is the last of its conversation to
      have acted. */
  lemma ProcessingIsLast(tasks: seq<Task>, i: nat, now: int)
    requires InOrder(tasks) && i < |tasks| && Processing(tasks[i])
    requires forall j :: 0 <= j < |tasks| ==> CleanTask(tasks[j], now) && Coherent(tasks[j], false)
    ensures LastToAct(tasks, i)
  {
    forall j | i < j < |tasks| && tasks[j].key == tasks[i].key ensures Rank(tasks[j].phase) <= 3 {
      assert !Started(tasks[j]);
      assert CleanTask(tasks[j], now) && Coherent(tasks[j], false);
    }
  }

  // ----- what each acting step does to its conversation -----

  /** The share of a processing task's conversation, seen from before it. */
  lemma ShareBefore(cfg: Config, now: int, e0: Effects, e: Effects, tasks: seq<Task>, i: nat)
    requires InStep(cfg, now, e0, e, tasks) && i < |tasks| && LastToAct(tasks, i)
    ensures Share(e, tasks[i].key)
      == Stage(cfg, now, Expected(cfg, now, Share(e0, tasks[i].key), tasks[..i], tasks[i].key), tasks[i])
    ensures MissHolds(cfg, now, e0, tasks, i)
  {
    ExpectedAtLast(cfg, now, Share(e0, tasks[i].key), tasks, i);
  }

  lemma LookUpInStep(cfg: Config, now: int, e0: Effects, e: Effects, tasks: seq<Task>, i: nat, t: Task)
    requires InStep(cfg, now, e0, e, tasks) && i < |tasks| && LastToAct(tasks, i)
    requires tasks[i].phase.LookUp? && t.key == tasks[i].key == ConversationKey(t.msg) && t.msg == tasks[i].msg
    requires Rank(t.phase) == if Skips(cfg, now, e, t.msg) then 10 else 6
    ensures InStep(cfg, now, e0, e, tasks[i := t])
  {
    ShareBefore(cfg, now, e0, e, tasks, i);
    SkipShare(cfg, now, e, t.msg);
    ActingInStep(cfg, now, e0, e, e, tasks, i, t);
  }

  /** Where a task stands after its token was stored, or its handler called. */
  predicate TokenPhases(t: Task) {
    Rank(t.phase) == 7 || (t.msg.kind != MessageTypeUser && CallPhases(t))
  }

  predicate CallPhases(t: Task) {
    Rank(t.phase) == 8 || (Rank(t.phase) == 10 && ReplayKeys(t.msg) == [])
  }

  lemma TokenInStep(cfg: Config, now: int, e0: Effects, e: Effects, tasks: seq<Task>, i: nat, t: Task)
    requires InStep(cfg, now, e0, e, tasks) && i < |tasks| && LastToAct(tasks, i)
    requires tasks[i].phase.Remember? && t.key == tasks[i].key == ConversationKey(t.msg) && t.msg == tasks[i].msg
    requires TokenPhases(t)
    ensures InStep(cfg, now, e0, TokenEffect(e, t.msg), tasks[i := t])
  {
    ShareBefore(cfg, now, e0, e, tasks, i);
    forall c: string ensures Share(TokenEffect(e, t.msg), c) == if c == t.key then TokenEffect(Share(e, c), t.msg) else Share(e, c) {
      TokenShare(e, t.msg, c);
    }
    ActingInStep(cfg, now, e0, e, TokenEffect(e, t.msg), tasks, i, t);
  }

  lemma CallShares(e: Effects, m: Message)
    ensures forall c: string :: Share(CallEffect(e, m), c) == if c == ConversationKey(m) then CallEffect(Share(e, c), m) else Share(e, c)
  {
    forall c: string ensures Share(CallEffect(e, m), c) == if c == ConversationKey(m) then CallEffect(Share(e, c), m) else Share(e, c) {
      CallShare(e, m, c);
    }
  }

  lemma CallInStep(cfg: Config, now: int, e0: Effects, e: Effects, tasks: seq<Task>, i: nat, t: Task)
    requires InStep(cfg, now, e0, e, tasks) && i < |tasks| && LastToAct(tasks, i)
    requires tasks[i].phase.Invoke? && t.key == tasks[i].key == ConversationKey(t.msg) && t.msg == tasks[i].msg
    requires CallPhases(t)
    ensures InStep(cfg, now, e0, CallEffect(e, t.msg), tasks[i := t])
  {
    ShareBefore(cfg, now, e0, e, tasks, i);
    CallShares(e, t.msg);
    ActingInStep(cfg, now, e0, e, CallEffect(e, t.msg), tasks, i, t);
  }

  lemma CommitStage(cfg: Config, now: int, x: Effects, before: Task, t: Task)
    requires before.phase.Store? && t.phase.Leave? && t.msg == before.msg && !Skips(cfg, now, x, t.msg)
    ensures Stage(cfg, now, x, t) == CommitEffect(cfg, now, Stage(cfg, now, x, before), t.msg)
  {
  }

  lemma CommitInStep(cfg: Config, now: int, e0: Effects, e: Effects, tasks: seq<Task>, i: nat, t: Task)
    requires InStep(cfg, now, e0, e, tasks) && i < |tasks| && LastToAct(tasks, i) && Live(cfg, now, e.seen)
    requires tasks[i].phase.Store? && t.key == tasks[i].key == ConversationKey(t.msg) && t.msg == tasks[i].msg
    requires t.phase.Leave?
    ensures InStep(cfg, now, e0, CommitEffect(cfg, now, e, t.msg), tasks[i := t])
  {
    ShareBefore(cfg, now, e0, e, tasks, i);
    var e' := CommitEffect(cfg, now, e, t.msg);
    forall c: string ensures c != t.key ==> Share(e', c) == Share(e, c) {
      CommitShare(cfg, now, e, t.msg, c);
    }
    CommitShare(cfg, now, e, t.msg, t.key);
    CommitStage(cfg, now, Expected(cfg, now, Share(e0, t.key), tasks[..i], t.key), tasks[i], t);
    ActingInStep(cfg, now, e0, e, e', tasks, i, t);
  }

  // ----- clean runs -----

  function InHand(sub: Submitter): seq<Batch> {
    match sub
    case Entering(b) => [b]
    case WantSlot(b) => [b]
    case Recheck(b) => [b]
    case Registering(b) => [b]
    case _ => []
  }

  function Flat(bs: seq<Batch>): seq<Message>
    requires AllDecodable(bs)
  {
    if bs == [] then [] else Flat(bs[..|bs| - 1]) + MessagesOf(bs[|bs| - 1])
  }

  function TaskMessages(tasks: seq<Task>): seq<Message> {
    seq(|tasks|, i requires 0 <= i < |tasks| => tasks[i].msg)
  }

  /** What the submitter has yet to schedule of the current batch. */
  function Rest(w: World): seq<Message>
    requires AllDecodable(w.hist)
  {
    if CurrentMessage(w) then MessagesOf(w.hist[w.sub.id])[w.sub.next..] else []
  }

  ghost predicate Scheduled(w: World) {
    && AllDecodable(w.hist) && AllDecodable(InHand(w.sub)) && AllDecodable(w.queue)
    && TaskMessages(w.tasks) + Rest(w) == Flat(w.hist)
    && !w.sub.DecodeFailed?
    && (w.sub.Draining? ==> w.queueClosed && w.queue == [])
  }

  ghost predicate Undisturbed(cfg: Config, now: int, e0: Effects, w: World) {
    && !w.led.cancelled && w.now == now && Live(cfg, now, w.replay.mem)
    && (forall i :: 0 <= i < |w.tasks| ==> CleanTask(w.tasks[i], now))
    && InStep(cfg, now, e0, EffectsOf(w), w.tasks)
    && StrangersKept(e0.seen, w.replay.mem)
  }

  lemma CompleteUncancelled(l: Ledger, id: nat, executed: bool, n: nat)
    ensures AfterComplete(l, id, None, executed, n, None).cancelled == l.cancelled
  {
    if Outstanding(l, id) {
      AdvanceWithoutFailure(OneFewer(l, id, None, executed), n);
    }
  }

  // ----- steps that change no stage -----

  predicate PlainOp(op: Op) {
    WaitingOp(op) || LeavingOp(op) || op.ValidateSession? || op.ReadClock?
  }

  /** Only task i moved, within its stage, and it is still clean. */
  predicate Plain(w: World, w': World, i: nat) {
    && i < |w.tasks| == |w'.tasks| && w'.tasks == w.tasks[i := w'.tasks[i]]
    && w'.tasks[i].key == w.tasks[i].key && w'.tasks[i].msg == w.tasks[i].msg
    && CleanTask(w'.tasks[i], w.now)
    && w'.replay == w.replay && w'.tokens == w.tokens && w'.calls == w.calls && w'.now == w.now
    && w'.led.cancelled == w.led.cancelled
    && SameStage(w.tasks[i].phase, w'.tasks[i].phase)
  }

  lemma PlainWaiting(cfg: Config, w: World, op: Op)
    requires WaitingOp(op) && CleanOp(op) && Enabled(cfg, w, op) && !w.led.cancelled && CleanTask(w.tasks[op.i], w.now)
    ensures Plain(w, ApplyWaiting(w, op), op.i)
  {
    WaitingForm(w, op);
  }

  lemma PlainReport(w: World, i: nat)
    requires TaskAt(w, i, 11) && !w.led.cancelled && CleanTask(w.tasks[i], w.now)
    ensures Plain(w, ReportResult(w, i, Dispatcher.Live(w.led), None), i)
  {
    CompleteUncancelled(w.led, w.tasks[i].batch, w.tasks[i].phase.executed, Dispatcher.Live(w.led));
  }

  lemma PlainFree(cfg: Config, w: World, op: Op)
    requires LeavingOp(op) && !op.ReportDone? && Enabled(cfg, w, op) && !w.led.cancelled && CleanTask(w.tasks[op.i], w.now)
    ensures Plain(w, ApplyLeaving(w, op), op.i)
  {
    LeavingForm(w, op);
  }

  lemma PlainLeaving(cfg: Config, w: World, op: Op)
    requires LeavingOp(op) && CleanOp(op) && Enabled(cfg, w, op) && !w.led.cancelled
    requires CleanTask(w.tasks[op.i], w.now)
    ensures Plain(w, ApplyLeaving(w, op), op.i)
  {
    if op.ReportDone? {
      PlainReport(w, op.i);
    } else {
      PlainFree(cfg, w, op);
    }
  }

  lemma PlainProcessing(cfg: Config, w: World, op: Op)
    requires (op.ValidateSession? || op.ReadClock?) && CleanOp(op) && Enabled(cfg, w, op)
    requires CleanTask(w.tasks[op.i], w.now)
    ensures Plain(w, ApplyProcessing(cfg, w, op), op.i)
  {
  }

  lemma PlainStep(cfg: Config, w: World, op: Op)
    requires PlainOp(op) && CleanOp(op) && Enabled(cfg, w, op) && !w.led.cancelled
    requires CleanTask(w.tasks[op.i], w.now)
    ensures Plain(w, Apply(cfg, w, op), op.i)
  {
    TaskApplied(cfg, w, op);
    if WaitingOp(op) {
      PlainWaiting(cfg, w, op);
    } else if LeavingOp(op) {
      PlainLeaving(cfg, w, op);
    } else {
      PlainProcessing(cfg, w, op);
    }
  }

  predicate SameStage(p: Phase, q: Phase) {
    (Rank(p) <= 5 && Rank(q) <= 5) || (8 <= Rank(p) <= 9 && 8 <= Rank(q) <= 9) || (Rank(p) >= 10 && Rank(q) >= 10)
  }

  lemma PlainKeeps(cfg: Config, now: int, e0: Effects, w: World, w': World, i: nat)
    requires Undisturbed(cfg, now, e0, w) && Plain(w, w', i)
    ensures Undisturbed(cfg, now, e0, w')
  {
    SameStageInStep(cfg, now, e0, EffectsOf(w), w.tasks, i, w'.tasks[i]);
    assert EffectsOf(w') == EffectsOf(w);
  }

  lemma PlainUndisturbed(cfg: Config, now: int, e0: Effects, w: World, op: Op)
    requires Undisturbed(cfg, now, e0, w)
    requires PlainOp(op) && CleanOp(op) && Enabled(cfg, w, op)
    ensures Undisturbed(cfg, now, e0, Apply(cfg, w, op))
  {
    assert CleanTask(w.tasks[op.i], now);
    PlainStep(cfg, w, op);
    PlainKeeps(cfg, now, e0, w, Apply(cfg, w, op), op.i);
  }

  // ----- steps with an effect -----

  lemma ActorFacts(cfg: Config, now: int, e0: Effects, w: World, i: nat)
    requires Undisturbed(cfg, now, e0, w) && Ordered(w) && Indexed(w.tasks, w.hist, w.ids)
    requires i < |w.tasks| && Processing(w.tasks[i])
    ensures Actor(w, i) && w.tasks[i].outcome.Unresolved?
  {
    assert Placed(w.tasks[i], i, w.hist, w.ids);
    forall j | 0 <= j < |w.tasks| ensures CleanTask(w.tasks[j], now) && Coherent(w.tasks[j], false) {}
    ProcessingIsLast(w.tasks, i, now);
  }

  /** The shared tail of the acting steps. */
  lemma ActedUndisturbed(cfg: Config, now: int, e0: Effects, w: World, w': World, i: nat, t: Task, e': Effects)
    requires Undisturbed(cfg, now, e0, w) && i < |w.tasks|
    requires w'.tasks == w.tasks[i := t] && CleanTask(t, now)
    requires e' == EffectsOf(w') && InStep(cfg, now, e0, e', w.tasks[i := t])
    requires w'.now == w.now && w'.led == w.led
    requires Live(cfg, now, w'.replay.mem) && StrangersKept(e0.seen, w'.replay.mem)
    ensures Undisturbed(cfg, now, e0, w')
  {
  }

  /** Only task i, tokens and calls may differ. */
  ghost predicate Acted(w: World, w': World, i: nat)
    requires i < |w.tasks|
  {
    && |w'.tasks| == |w.tasks| && w'.tasks == w.tasks[i := w'.tasks[i]]
    && w'.tasks[i].key == w.tasks[i].key && w'.tasks[i].msg == w.tasks[i].msg
    && w'.now == w.now && w'.led == w.led && w'.replay == w.replay
  }

  lemma LookUpShape(cfg: Config, w: World, i: nat)
    requires TaskAt(w, i, 5) && CleanTask(w.tasks[i], w.now) && w.tasks[i].keys == ReplayKeys(w.tasks[i].msg)
    ensures var w' := LookUpResult(cfg, w, i);
            && Acted(w, w', i) && CleanTask(w'.tasks[i], w.now) && EffectsOf(w') == EffectsOf(w)
            && Rank(w'.tasks[i].phase) == if Skips(cfg, w.now, EffectsOf(w), w.tasks[i].msg) then 10 else 6
  {
    LookUpForm(cfg, w, i);
  }

  lemma LookUpUndisturbed(cfg: Config, now: int, e0: Effects, w: World, w': World, i: nat)
    requires Undisturbed(cfg, now, e0, w) && Actor(w, i) && TaskAt(w, i, 5)
    requires Acted(w, w', i) && CleanTask(w'.tasks[i], w.now) && EffectsOf(w') == EffectsOf(w)
    requires Rank(w'.tasks[i].phase) == if Skips(cfg, w.now, EffectsOf(w), w.tasks[i].msg) then 10 else 6
    ensures Undisturbed(cfg, now, e0, w')
  {
    assert InStep(cfg, now, e0, EffectsOf(w), w.tasks);
    LookUpInStep(cfg, now, e0, EffectsOf(w), w.tasks, i, w'.tasks[i]);
    ActedUndisturbed(cfg, now, e0, w, w', i, w'.tasks[i], EffectsOf(w));
  }

  lemma RememberShape(w: World, i: nat)
    requires TaskAt(w, i, 6) && CleanTask(w.tasks[i], w.now) && w.tasks[i].keys == ReplayKeys(w.tasks[i].msg)
    requires w.tasks[i].outcome.Unresolved?
    ensures var w', m := RememberResult(w, i, None), w.tasks[i].msg;
            && Acted(w, w', i) && CleanTask(w'.tasks[i], w.now)
            && EffectsOf(w') == TokenEffect(EffectsOf(w), m)
            && TokenPhases(w'.tasks[i])
  {
    RememberForm(w, i, None);
  }

  lemma RememberInStep(cfg: Config, now: int, e0: Effects, w: World, w': World, i: nat)
    requires InStep(cfg, now, e0, EffectsOf(w), w.tasks) && Actor(w, i) && TaskAt(w, i, 6) && Acted(w, w', i)
    requires EffectsOf(w') == TokenEffect(EffectsOf(w), w.tasks[i].msg) && TokenPhases(w'.tasks[i])
    ensures InStep(cfg, now, e0, EffectsOf(w'), w'.tasks)
  {
    TokenInStep(cfg, now, e0, EffectsOf(w), w.tasks, i, w'.tasks[i]);
  }

  lemma RememberUndisturbed(cfg: Config, now: int, e0: Effects, w: World, w': World, i: nat)
    requires Undisturbed(cfg, now, e0, w) && Actor(w, i) && TaskAt(w, i, 6)
    requires Acted(w, w', i) && CleanTask(w'.tasks[i], w.now)
    requires EffectsOf(w') == TokenEffect(EffectsOf(w), w.tasks[i].msg)
    requires TokenPhases(w'.tasks[i])
    ensures Undisturbed(cfg, now, e0, w')
  {
    RememberInStep(cfg, now, e0, w, w', i);
    ActedUndisturbed(cfg, now, e0, w, w', i, w'.tasks[i], EffectsOf(w'));
  }

  lemma InvokeShape(w: World, i: nat, result: HandlerResult)
    requires TaskAt(w, i, 7) && (result.Ack? || result.Drop?) && CleanTask(w.tasks[i], w.now) && w.tasks[i].keys == ReplayKeys(w.tasks[i].msg)
    requires w.tasks[i].outcome.Unresolved?
    ensures var w', m := InvokeResult(w, i, result), w.tasks[i].msg;
            && Acted(w, w', i) && CleanTask(w'.tasks[i], w.now)
            && EffectsOf(w') == CallEffect(EffectsOf(w), m)
            && CallPhases(w'.tasks[i])
  {
    var t, v := w.tasks[i], if result.Ack? then Acked else Dropped;
    var w1 := w.(calls := w.calls + [Call(t.msg, t.checkedAt, |w.log|, result)]);
    assert InvokeResult(w, i, result) == AfterHandling(w1, i, v);
    assert EffectsOf(w1).calls == EffectsOf(w).calls + [t.msg];
  }

  lemma InvokeInStep(cfg: Config, now: int, e0: Effects, w: World, w': World, i: nat)
    requires InStep(cfg, now, e0, EffectsOf(w), w.tasks) && Actor(w, i) && TaskAt(w, i, 7) && Acted(w, w', i)
    requires EffectsOf(w') == CallEffect(EffectsOf(w), w.tasks[i].msg) && CallPhases(w'.tasks[i])
    ensures InStep(cfg, now, e0, EffectsOf(w'), w'.tasks)
  {
    CallInStep(cfg, now, e0, EffectsOf(w), w.tasks, i, w'.tasks[i]);
  }

  lemma InvokeUndisturbed(cfg: Config, now: int, e0: Effects, w: World, w': World, i: nat)
    requires Undisturbed(cfg, now, e0, w) && Actor(w, i) && TaskAt(w, i, 7)
    requires Acted(w, w', i) && CleanTask(w'.tasks[i], w.now)
    requires EffectsOf(w') == CallEffect(EffectsOf(w), w.tasks[i].msg)
    requires CallPhases(w'.tasks[i])
    ensures Undisturbed(cfg, now, e0, w')
  {
    InvokeInStep(cfg, now, e0, w, w', i);
    ActedUndisturbed(cfg, now, e0, w, w', i, w'.tasks[i], EffectsOf(w'));
  }

  lemma StoredIndex(cfg: Config, w: World, i: nat)
    requires i < |w.tasks| && w.tasks[i].phase.Store?
    ensures var t, w' := w.tasks[i], StoreResult(cfg, w, i, None);
      && w'.tokens == w.tokens && w'.calls == w.calls
      && w'.replay.mem == if RealKeys(t.keys) == {} then w.replay.mem else Committed(w.replay.mem, t.keys, t.phase.stamp, cfg.ttl)
  {
  }

  lemma StoredEffects(cfg: Config, w: World, i: nat)
    requires TaskAt(w, i, 9) && CleanTask(w.tasks[i], w.now) && w.tasks[i].keys == ReplayKeys(w.tasks[i].msg)
    ensures EffectsOf(StoreResult(cfg, w, i, None)) == CommitEffect(cfg, w.now, EffectsOf(w), w.tasks[i].msg)
  {
    StoredIndex(cfg, w, i);
  }

  lemma StoredShape(cfg: Config, w: World, i: nat)
    requires TaskAt(w, i, 9) && CleanTask(w.tasks[i], w.now) && w.tasks[i].keys == ReplayKeys(w.tasks[i].msg)
    ensures var w' := StoreResult(cfg, w, i, None);
      && |w'.tasks| == |w.tasks| && w'.tasks == w.tasks[i := w'.tasks[i]]
      && w'.tasks[i].key == w.tasks[i].key && w'.tasks[i].msg == w.tasks[i].msg && w'.tasks[i].phase.Leave?
      && CleanTask(w'.tasks[i], w.now) && w'.now == w.now && w'.led == w.led
      && EffectsOf(w') == CommitEffect(cfg, w.now, EffectsOf(w), w.tasks[i].msg)
  {
    StoredEffects(cfg, w, i);
  }

  /** What ActorFacts gives about the task that acts. */
  ghost predicate Actor(w: World, i: nat) {
    && i < |w.tasks| && LastToAct(w.tasks, i) && CleanTask(w.tasks[i], w.now)
    && w.tasks[i].key == ConversationKey(w.tasks[i].msg) && w.tasks[i].keys == ReplayKeys(w.tasks[i].msg)
  }

  lemma StoredUndisturbed(cfg: Config, now: int, e0: Effects, w: World, w': World, i: nat)
    requires Undisturbed(cfg, now, e0, w) && Actor(w, i)
    requires TaskAt(w, i, 9) && cfg.ttl >= 0
    requires |w'.tasks| == |w.tasks| && w'.tasks == w.tasks[i := w'.tasks[i]] && w'.tasks[i].phase.Leave?
    requires w'.tasks[i].key == w.tasks[i].key && w'.tasks[i].msg == w.tasks[i].msg && CleanTask(w'.tasks[i], now)
    requires w'.now == w.now && w'.led == w.led
    requires EffectsOf(w') == CommitEffect(cfg, now, EffectsOf(w), w.tasks[i].msg)
    ensures Undisturbed(cfg, now, e0, w')
  {
    var m, e := w.tasks[i].msg, EffectsOf(w);
    assert InStep(cfg, now, e0, e, w.tasks);
    CommitInStep(cfg, now, e0, e, w.tasks, i, w'.tasks[i]);
    CommitKeepsLive(cfg, now, e, m);
    CommitKeepsStrangers(cfg, now, e, m);
    ActedUndisturbed(cfg, now, e0, w, w', i, w'.tasks[i], CommitEffect(cfg, now, e, m));
  }

  lemma StoreUndisturbed(cfg: Config, now: int, e0: Effects, w: World, i: nat)
    requires Undisturbed(cfg, now, e0, w) && Actor(w, i) && TaskAt(w, i, 9) && cfg.ttl >= 0
    ensures Undisturbed(cfg, now, e0, StoreResult(cfg, w, i, None))
  {
    StoredShape(cfg, w, i);
    StoredUndisturbed(cfg, now, e0, w, StoreResult(cfg, w, i, None), i);
  }

  // ----- every clean operation -----

  lemma TaskUndisturbed(cfg: Config, now: int, e0: Effects, w: World, op: Op)
    requires Undisturbed(cfg, now, e0, w) && Ordered(w) && Indexed(w.tasks, w.hist, w.ids) && cfg.ttl >= 0
    requires TaskOp(op) && CleanOp(op) && Enabled(cfg, w, op)
    ensures Undisturbed(cfg, now, e0, Apply(cfg, w, op))
  {
    if PlainOp(op) {
      PlainUndisturbed(cfg, now, e0, w, op);
    } else {
      ActorFacts(cfg, now, e0, w, op.i);
      ActingApplied(cfg, w, op);
      match op
      case LookUpReplay(i) =>
        LookUpShape(cfg, w, i);
        LookUpUndisturbed(cfg, now, e0, w, LookUpResult(cfg, w, i), i);
      case RememberToken(i, _) =>
        RememberShape(w, i);
        RememberUndisturbed(cfg, now, e0, w, RememberResult(w, i, None), i);
      case InvokeHandler(i, result) =>
        InvokeShape(w, i, result);
        InvokeUndisturbed(cfg, now, e0, w, InvokeResult(w, i, result), i);
      case StoreReplay(i, _) =>
        StoreUndisturbed(cfg, now, e0, w, i);
    }
  }

  lemma ActingApplied(cfg: Config, w: World, op: Op)
    requires TaskOp(op) && !PlainOp(op) && CleanOp(op) && Enabled(cfg, w, op)
    ensures Apply(cfg, w, op) ==
      match op
      case LookUpReplay(i) => LookUpResult(cfg, w, i)
      case RememberToken(i, _) => RememberResult(w, i, None)
      case InvokeHandler(i, result) => InvokeResult(w, i, result)
      case StoreReplay(i, _) => StoreResult(cfg, w, i, None)
      case _ => w
  {
  }

  /** The submitter and the poll loop, when no batch is malformed. */
  lemma OtherCleanFrame(cfg: Config, w: World, op: Op)
    requires !TaskOp(op) && CleanOp(op) && Enabled(cfg, w, op) && !w.led.cancelled && Scheduled(w)
    requires SubmitterAt(w)
    ensures var w' := Apply(cfg, w, op);
            && w'.replay == w.replay && w'.tokens == w.tokens && w'.calls == w.calls && w'.now == w.now
            && !w'.led.cancelled
            && w'.tasks == (if op.Spawn? then SpawnResult(w).tasks else w.tasks)
  {
    if op.Spawn? {
      SpawnApplied(cfg, w, op);
    } else if op.Register? {
      RegisterApplied(cfg, w, op);
      AdvanceWithoutFailure(AfterRegister(w.led, |w.sub.batch.messages|, w.sub.batch.cursor, 0, None), Dispatcher.Live(w.led) + 1);
    } else if op.Decode? {
      assert Decodable(w.hist[w.sub.id]);
    }
  }

  lemma SpawnUndisturbed(cfg: Config, now: int, e0: Effects, w: World, w': World, t: Task)
    requires Undisturbed(cfg, now, e0, w) && w'.tasks == w.tasks + [t]
    requires t.phase == AwaitPrevious && t.outcome == Unresolved
    requires w'.replay == w.replay && w'.tokens == w.tokens && w'.calls == w.calls && w'.now == w.now && !w'.led.cancelled
    ensures Undisturbed(cfg, now, e0, w')
  {
    forall c: string ensures Share(EffectsOf(w'), c) == Expected(cfg, now, Share(e0, c), w'.tasks, c) {
      ExpectedAppend(cfg, now, Share(e0, c), w.tasks, t, c);
    }
    forall j | 0 <= j < |w'.tasks| ensures MissHolds(cfg, now, e0, w'.tasks, j) {
      assert w'.tasks[..j] == w.tasks[..j];
      assert j < |w.tasks| ==> MissHolds(cfg, now, e0, w.tasks, j);
    }
  }

  lemma OtherUndisturbed(cfg: Config, now: int, e0: Effects, w: World, op: Op)
    requires Undisturbed(cfg, now, e0, w) && Scheduled(w) && SubmitterAt(w)
    requires !TaskOp(op) && CleanOp(op) && Enabled(cfg, w, op)
    ensures Undisturbed(cfg, now, e0, Apply(cfg, w, op))
  {
    var w' := Apply(cfg, w, op);
    OtherCleanFrame(cfg, w, op);
    if op.Spawn? {
      SpawnUndisturbed(cfg, now, e0, w, w', SpawnResult(w).tasks[|w.tasks|]);
    } else {
      assert EffectsOf(w') == EffectsOf(w);
    }
  }

  // ----- the schedule is the flattened batches -----

  lemma FlatAppend(bs: seq<Batch>, b: Batch)
    requires AllDecodable(bs) && Decodable(b)
    ensures AllDecodable(bs + [b]) && Flat(bs + [b]) == Flat(bs) + MessagesOf(b)
  {
    assert (bs + [b])[..|bs|] == bs;
  }

  lemma RegisterScheduled(w: World, n: nat, failAt: Option<nat>)
    requires Scheduled(w) && w.sub.Registering? && |w.hist| == |w.ids| == w.led.nextBatchID
    ensures Scheduled(RegisterResult(w, n, failAt))
  {
    var b, w' := w.sub.batch, RegisterResult(w, n, failAt);
    assert InHand(w.sub)[0] == b;
    FlatAppend(w.hist, b);
    assert Rest(w') == MessagesOf(b);
    assert Rest(w) == [];
  }

  lemma TaskMessagesMore(tasks: seq<Task>, t: Task)
    ensures TaskMessages(tasks + [t]) == TaskMessages(tasks) + [t.msg]
  {
  }

  /** Scheduling a message moves it from what is left to what is scheduled. */
  lemma SpawnRest(w: World)
    requires AllDecodable(w.hist) && SubmitterAt(w) && w.sub.Spawning?
    ensures var w' := SpawnResult(w); w'.hist == w.hist && Rest(w) == [w'.tasks[|w.tasks|].msg] + Rest(w')
  {
  }

  lemma SpawnMessages(w: World)
    requires AllDecodable(w.hist) && SubmitterAt(w) && w.sub.Spawning?
    ensures var w' := SpawnResult(w); w'.hist == w.hist && TaskMessages(w'.tasks) + Rest(w') == TaskMessages(w.tasks) + Rest(w)
  {
    var w' := SpawnResult(w);
    var t := w'.tasks[|w.tasks|];
    SpawnRest(w);
    assert w'.tasks == w.tasks + [t];
    TaskMessagesMore(w.tasks, t);
    Associate(TaskMessages(w.tasks), [t.msg], Rest(w'));
  }

  lemma SpawnScheduled(w: World)
    requires Scheduled(w) && SubmitterAt(w) && w.sub.Spawning?
    ensures Scheduled(SpawnResult(w))
  {
    SpawnMessages(w);
  }

  lemma TaskScheduled(cfg: Config, w: World, w': World, op: Op)
    requires Scheduled(w) && TaskOp(op) && op.i < |w.tasks| && TaskStep(w, w', op.i) && TaskEffect(w, w', op)
    requires w'.queue == w.queue && w'.queueClosed == w.queueClosed
    ensures Scheduled(w')
  {
    assert TaskMessages(w'.tasks) == TaskMessages(w.tasks);
  }

  lemma OtherScheduled(cfg: Config, w: World, op: Op)
    requires Scheduled(w) && SubmitterAt(w) && |w.hist| == |w.ids| == w.led.nextBatchID && !w.led.cancelled
    requires !TaskOp(op) && CleanOp(op) && Enabled(cfg, w, op)
    ensures Scheduled(Apply(cfg, w, op))
  {
    if op.Spawn? {
      SpawnApplied(cfg, w, op);
      SpawnScheduled(w);
    } else if op.Register? {
      RegisterApplied(cfg, w, op);
      RegisterScheduled(w, Dispatcher.Live(w.led) + 1, op.failAt);
    } else if op.Poll? {
      PollScheduled(w, Batch(w.pollCursor, NextCursor(w, op.buf), op.messages));
    } else {
      SimpleScheduled(cfg, w, op);
    }
  }

  lemma PollScheduled(w: World, b: Batch)
    requires Scheduled(w) && Decodable(b) && !w.queueClosed
    ensures Scheduled(w.(queue := w.queue + [b], pollCursor := b.cursor))
  {
  }

  lemma SimpleScheduled(cfg: Config, w: World, op: Op)
    requires Scheduled(w) && SubmitterAt(w) && |w.hist| == |w.ids| && !w.led.cancelled
    requires !TaskOp(op) && CleanOp(op) && Enabled(cfg, w, op) && !op.Spawn? && !op.Register? && !op.Poll?
    ensures Scheduled(Apply(cfg, w, op))
  {
    if SubmitterOp(op) {
      SubmitterApplied(cfg, w, op);
      SubmitterFrame(cfg, w, op);
      SubmitterRest(cfg, w, op);
      SubmitterHands(cfg, w, op);
    }
  }

  lemma SubmitterRest(cfg: Config, w: World, op: Op)
    requires SubmitterAt(w) && |w.hist| == |w.ids| && !w.led.cancelled && AllDecodable(w.hist)
    requires SubmitterOp(op) && Enabled(cfg, w, op) && !op.Spawn? && !op.Register? && !w.sub.DecodeFailed?
    ensures ApplySub(w, op).hist == w.hist && Rest(ApplySub(w, op)) == Rest(w)
  {
    SubmitterFrame(cfg, w, op);
    assert op.Decode? ==> Decodable(w.hist[w.sub.id]);
  }

  lemma SubmitterHands(cfg: Config, w: World, op: Op)
    requires Scheduled(w) && SubmitterAt(w) && !w.led.cancelled
    requires SubmitterOp(op) && Enabled(cfg, w, op) && !op.Spawn? && !op.Register?
    ensures var w' := ApplySub(w, op);
      && AllDecodable(InHand(w'.sub)) && AllDecodable(w'.queue) && !w'.sub.DecodeFailed?
      && (w'.sub.Draining? ==> w'.queueClosed && w'.queue == [])
  {
    if op.TakeBatch? {
      assert Decodable(w.queue[0]);
    } else if op.Decode? {
      assert Decodable(w.hist[w.sub.id]);
    } else {
      HandsKept(cfg, w, op);
    }
  }

  lemma HandsKept(cfg: Config, w: World, op: Op)
    requires SubmitterOp(op) && Enabled(cfg, w, op) && !op.Spawn? && !op.Register? && !op.TakeBatch? && !op.Decode?
    requires !w.led.cancelled && !w.sub.DecodeFailed?
    ensures var w' := ApplySub(w, op);
      && (InHand(w'.sub) == InHand(w.sub) || InHand(w'.sub) == []) && w'.queue == w.queue && w'.queueClosed == w.queueClosed
      && !w'.sub.DecodeFailed? && (w'.sub.Draining? ==> w.queueClosed && w.queue == [])
  {
  }

  // ----- clean runs end like the sequential fold -----

  ghost predicate CleanState(cfg: Config, now: int, e0: Effects, w: World) {
    Healthy(cfg, w) && Undisturbed(cfg, now, e0, w) && Scheduled(w)
  }

  lemma CleanStep(cfg: Config, now: int, e0: Effects, w: World, op: Op)
    requires CleanState(cfg, now, e0, w) && CleanOp(op) && Enabled(cfg, w, op) && cfg.ttl >= 0
    ensures CleanState(cfg, now, e0, Apply(cfg, w, op))
  {
    HealthyStep(cfg, w, op);
    if TaskOp(op) {
      TaskUndisturbed(cfg, now, e0, w, op);
      TaskViews(cfg, w, op);
      TaskFrame(cfg, w, op);
      TaskScheduled(cfg, w, Apply(cfg, w, op), op);
    } else {
      OtherUndisturbed(cfg, now, e0, w, op);
      OtherScheduled(cfg, w, op);
    }
  }

  /** A run about to start on loaded stores. */
  ghost predicate FreshStart(cfg: Config, start: World) {
    && start.led == Fresh(start.led.cursor) && Synced(start.led.cursor)
    && start.active == 0 && start.pending == 0 && start.tails == map[] && start.tasks == [] && start.sub == Idle
    && start.queue == [] && !start.queueClosed && start.hist == [] && start.ids == []
    && start.startCursor == start.led.cursor.buf == start.pollCursor
    && Live(cfg, start.now, start.replay.mem)
  }

  lemma InitialIsFresh(cfg: Config, cursorFile: Option<string>, replayFile: Option<Seen>, now: int)
    ensures FreshStart(cfg, Initial(cfg, cursorFile, replayFile, now))
  {
  }

  /** So is every restart. */
  lemma RestartIsFresh(cfg: Config, w: World)
    requires IdsInRange(w) && w.led.nextCommitID <= |w.hist|
    ensures FreshStart(cfg, Restarted(cfg, w))
  {
  }

  lemma FreshIsClean(cfg: Config, start: World)
    requires FreshStart(cfg, start)
    ensures CleanState(cfg, start.now, EffectsOf(start), start)
  {
    assert ActiveOf(start.tasks) == {} && PendingOf(start.tasks) == {};
    assert TaskMessages(start.tasks) + Rest(start) == [];
  }

  lemma {:induction false} CleanRun(cfg: Config, start: World, ops: seq<Op>)
    requires FreshStart(cfg, start) && cfg.ttl >= 0
    requires forall k :: 0 <= k < |ops| ==> CleanOp(ops[k])
    requires Run(cfg, start, ops).Some?
    ensures CleanState(cfg, start.now, EffectsOf(start), Run(cfg, start, ops).value)
    decreases |ops|
  {
    if ops == [] {
      FreshIsClean(cfg, start);
    } else {
      var prior := ops[..|ops| - 1];
      CleanRun(cfg, start, prior);
      CleanStep(cfg, start.now, EffectsOf(start), Run(cfg, start, prior).value, ops[|ops| - 1]);
    }
  }

  lemma ConsumeAllAppend(cfg: Config, now: int, e: Effects, ms: seq<Message>, m: Message)
    ensures ConsumeAll(cfg, now, e, ms + [m]) == Consume(cfg, now, ConsumeAll(cfg, now, e, ms), m)
  {
    assert (ms + [m])[..|ms|] == ms;
  }

  lemma TaskMessagesLast(tasks: seq<Task>, n: nat)
    requires |tasks| == n + 1
    ensures TaskMessages(tasks) == TaskMessages(tasks[..n]) + [tasks[n].msg]
  {
  }

  lemma ExpectedLast(cfg: Config, now: int, base: Effects, tasks: seq<Task>, n: nat, c: string)
    requires |tasks| == n + 1
    ensures Expected(cfg, now, base, tasks, c) ==
      if tasks[n].key == c then Stage(cfg, now, Expected(cfg, now, base, tasks[..n], c), tasks[n])
      else Expected(cfg, now, base, tasks[..n], c)
  {
  }

  lemma {:induction false} ExpectedFinished(cfg: Config, now: int, base: Effects, tasks: seq<Task>, c: string)
    requires AllFinished(tasks) && forall k :: 0 <= k < |tasks| ==> tasks[k].key == ConversationKey(tasks[k].msg)
    ensures Expected(cfg, now, base, tasks, c) == ConsumeAll(cfg, now, base, OfConversation(TaskMessages(tasks), c))
  {
    if tasks != [] {
      var n := |tasks| - 1;
      var prior, e := tasks[..n], Expected(cfg, now, base, tasks[..n], c);
      ExpectedFinished(cfg, now, base, prior, c);
      TaskMessagesLast(tasks, n);
      FinishedAppend(cfg, now, e, base, TaskMessages(prior), tasks[n], c);
      ExpectedLast(cfg, now, base, tasks, n, c);
    }
  }

  lemma FinishedStage(cfg: Config, now: int, e: Effects, t: Task)
    requires t.phase.Finished?
    ensures Stage(cfg, now, e, t) == Consume(cfg, now, e, t.msg)
  {
  }

  lemma FinishedAppend(cfg: Config, now: int, e: Effects, base: Effects, prior: seq<Message>, t: Task, c: string)
    requires t.phase.Finished? && t.key == ConversationKey(t.msg)
    requires e == ConsumeAll(cfg, now, base, OfConversation(prior, c))
    ensures (if t.key == c then Stage(cfg, now, e, t) else e) == ConsumeAll(cfg, now, base, OfConversation(prior + [t.msg], c))
  {
    CallsOfAppend(prior, t.msg, c);
    if t.key == c {
      FinishedStage(cfg, now, e, t);
      ConsumeAllAppend(cfg, now, base, OfConversation(prior, c), t.msg);
    }
  }

  lemma {:induction false} ConsumeAllConcat(cfg: Config, now: int, e: Effects, a: seq<Message>, b: seq<Message>)
    ensures ConsumeAll(cfg, now, e, a + b) == ConsumeAll(cfg, now, ConsumeAll(cfg, now, e, a), b)
    decreases |b|
  {
    if b == [] {
      assert a + b == a;
    } else {
      assert (a + b)[..|a + b| - 1] == a + b[..|b| - 1];
      ConsumeAllConcat(cfg, now, e, a, b[..|b| - 1]);
    }
  }

  /** The fold over batches is one fold over all their messages, and its cursor
      is the last non-empty one. */
  lemma {:induction false} SequentialFlat(cfg: Config, now: int, s: Sequential, bs: seq<Batch>)
    requires AllDecodable(bs)
    ensures ProcessBatches(cfg, now, s, bs).effects == ConsumeAll(cfg, now, s.effects, Flat(bs))
    ensures ProcessBatches(cfg, now, s, bs).cursor == LastCursor(s.cursor, CursorsOf(bs, |bs|))
  {
    if bs != [] {
      var prior, b := bs[..|bs| - 1], bs[|bs| - 1];
      SequentialFlat(cfg, now, s, prior);
      ConsumeAllConcat(cfg, now, s.effects, Flat(prior), MessagesOf(b));
      CursorsOfLast(bs);
      LastCursorOfMore(s.cursor, CursorsOf(prior, |prior|), b.cursor);
    }
  }

  lemma CursorsOfLast(bs: seq<Batch>)
    requires bs != []
    ensures var prior := bs[..|bs| - 1]; CursorsOf(bs, |bs|) == CursorsOf(prior, |prior|) + [bs[|bs| - 1].cursor]
  {
  }

  lemma LastCursorOfMore(init: string, cursors: seq<string>, c: string)
    ensures LastCursor(init, cursors + [c]) == if c != "" then c else LastCursor(init, cursors)
  {
    assert (cursors + [c])[..|cursors|] == cursors;
  }

  lemma {:induction false} ConsumeAllKeepsStrangers(cfg: Config, now: int, e: Effects, ms: seq<Message>)
    requires Live(cfg, now, e.seen) && cfg.ttl >= 0
    ensures StrangersKept(e.seen, ConsumeAll(cfg, now, e, ms).seen)
  {
    if ms != [] {
      var prior, m := ConsumeAll(cfg, now, e, ms[..|ms| - 1]), ms[|ms| - 1];
      ConsumeAllKeepsStrangers(cfg, now, e, ms[..|ms| - 1]);
      ConsumeAllShare(cfg, now, e, ms[..|ms| - 1], "");
      CommitKeepsStrangers(cfg, now, CallEffect(TokenEffect(prior, m), m), m);
    }
  }

  /** Equal shares of every conversation, and equal strangers, are equality. */
  lemma SharesDetermine(e: Effects, e': Effects, base: Seen)
    requires forall c: string :: Share(e, c) == Share(e', c)
    requires StrangersKept(base, e.seen) && StrangersKept(base, e'.seen)
    ensures e.seen == e'.seen && e.tokens == e'.tokens
    ensures forall c: string :: CallsOf(e.calls, c) == CallsOf(e'.calls, c)
  {
    forall k ensures k in e.seen <==> k in e'.seen
             ensures k in e.seen && k in e'.seen ==> e.seen[k] == e'.seen[k]
    {
      if Owned(k) {
        var c :| Owns(c, k);
        assert Share(e, c) == Share(e', c);
        assert k in e.seen <==> k in Share(e, c).seen;
        assert k in e'.seen <==> k in Share(e', c).seen;
      }
    }
    forall u ensures u in e.tokens <==> u in e'.tokens
             ensures u in e.tokens && u in e'.tokens ==> e.tokens[u] == e'.tokens[u]
    {
      var c := "user:" + u;
      assert Share(e, c) == Share(e', c);
      assert u in e.tokens <==> u in Share(e, c).tokens;
      assert u in e'.tokens <==> u in Share(e', c).tokens;
    }
    assert e.seen == e'.seen && e.tokens == e'.tokens;
    forall c: string ensures CallsOf(e.calls, c) == CallsOf(e'.calls, c) {
      assert Share(e, c) == Share(e', c);
    }
  }

  /** Drained without cancellation, every batch has been committed. */
  lemma DrainedIsCommitted(led: Ledger, tasks: seq<Task>, sub: Submitter, hist: seq<Batch>, ids: seq<seq<nat>>)
    requires Counted(led, tasks, sub, hist, ids) && AllFinished(tasks) && !InBatch(sub) && !led.cancelled
    ensures led.nextCommitID == |hist|
  {
    if led.nextCommitID < |hist| {
      var f := led.nextCommitID;
      assert f in led.batches && LiveBatch(led, tasks, sub, hist, ids, f);
      FinishedTasksAreNotOpen(tasks, f);
    }
  }

  lemma DrainedEffects(cfg: Config, now: int, e0: Effects, w: World)
    requires CleanState(cfg, now, e0, w) && cfg.ttl >= 0 && Live(cfg, now, e0.seen)
    requires w.sub.Draining? && AllFinished(w.tasks)
    ensures var s := ConsumeAll(cfg, now, e0, Flat(w.hist));
            && EffectsOf(w).seen == s.seen && EffectsOf(w).tokens == s.tokens
            && (forall c: string :: CallsOf(EffectsOf(w).calls, c) == CallsOf(s.calls, c))
  {
    var s := ConsumeAll(cfg, now, e0, Flat(w.hist));
    assert TaskMessages(w.tasks) == Flat(w.hist);
    forall k | 0 <= k < |w.tasks| ensures w.tasks[k].key == ConversationKey(w.tasks[k].msg) {
      assert Placed(w.tasks[k], k, w.hist, w.ids);
    }
    forall c: string ensures Share(EffectsOf(w), c) == Share(s, c) {
      ExpectedFinished(cfg, now, Share(e0, c), w.tasks, c);
      ConsumeAllShare(cfg, now, e0, Flat(w.hist), c);
    }
    ConsumeAllKeepsStrangers(cfg, now, e0, Flat(w.hist));
    SharesDetermine(EffectsOf(w), s, e0.seen);
  }

  /** Cursor (in memory and on disk), replay index and context tokens of w are
      those of folding processUpdateBatch over bs, and every conversation's
      handler calls are the same, in the same order. */
  ghost predicate EndsLikeFold(cfg: Config, start: World, bs: seq<Batch>, w: World)
    requires AllDecodable(bs)
  {
    var s := ProcessBatches(cfg, start.now, Sequential(EffectsOf(start), start.led.cursor.buf), bs);
    && w.led.cursor.buf == s.cursor == LoadCursor(w.led.cursor).buf
    && EffectsOf(w).seen == s.effects.seen
    && EffectsOf(w).tokens == s.effects.tokens
    && (forall c: string :: CallsOf(EffectsOf(w).calls, c) == CallsOf(s.effects.calls, c))
  }

  /** Refinement.  Take any interleaving of the dispatcher that starts on loaded
      stores, meets no cancellation, error or clock movement, and has drained.
      It ends like folding processUpdateBatch over the same batches. */
  lemma ConcurrentRefinesSequential(cfg: Config, start: World, ops: seq<Op>, w: World)
    requires FreshStart(cfg, start) && cfg.ttl >= 0
    requires forall k :: 0 <= k < |ops| ==> CleanOp(ops[k])
    requires Run(cfg, start, ops) == Some(w)
    requires w.sub.Draining? && AllFinished(w.tasks)
    ensures AllDecodable(w.hist) && EndsLikeFold(cfg, start, w.hist, w)
  {
    CleanRun(cfg, start, ops);
    DrainedEffects(cfg, start.now, EffectsOf(start), w);
    SequentialFlat(cfg, start.now, Sequential(EffectsOf(start), start.led.cursor.buf), w.hist);
    DrainedCursor(cfg, start, ops, w);
  }

  lemma NoCursors(w: World)
    ensures CursorsOf(w.hist, 0) == []
  {
  }

  lemma DrainedCursor(cfg: Config, start: World, ops: seq<Op>, w: World)
    requires FreshStart(cfg, start) && Run(cfg, start, ops) == Some(w)
    requires forall k :: 0 <= k < |ops| ==> CleanOp(ops[k])
    requires Healthy(cfg, w) && !w.led.cancelled && w.sub.Draining? && AllFinished(w.tasks)
    ensures w.led.cursor.buf == LastCursor(start.led.cursor.buf, CursorsOf(w.hist, |w.hist|))
    ensures LoadCursor(w.led.cursor).buf == w.led.cursor.buf
  {
    FreshIsClean(cfg, start);
    NoCursors(start);
    CursorFollows(cfg, start, ops);
    DrainedIsCommitted(w.led, w.tasks, w.sub, w.hist, w.ids);
  }

  lemma {:induction false} CursorFollows(cfg: Config, start: World, ops: seq<Op>)
    requires Healthy(cfg, start) && CursorMatches(start.led, start.hist, start.startCursor)
    requires forall k :: 0 <= k < |ops| ==> CleanOp(ops[k])
    requires Run(cfg, start, ops).Some?
    ensures var w := Run(cfg, start, ops).value;
            CursorMatches(w.led, w.hist, w.startCursor) && w.startCursor == start.startCursor
    decreases |ops|
  {
    if ops != [] {
      var prior := ops[..|ops| - 1];
      CursorFollows(cfg, start, prior);
      RunHealthy(cfg, start, prior);
      CursorStep(cfg, Run(cfg, start, prior).value, ops[|ops| - 1]);
    }
  }

  lemma CursorStep(cfg: Config, w: World, op: Op)
    requires Healthy(cfg, w) && CursorMatches(w.led, w.hist, w.startCursor) && CleanOp(op) && Enabled(cfg, w, op)
    ensures var w' := Apply(cfg, w, op); CursorMatches(w'.led, w'.hist, w'.startCursor) && w'.startCursor == w.startCursor
  {
    if TaskOp(op) {
      if op.ReportDone? { ReporterIsOutstanding(cfg, w, op.i); }
      TaskKeepsCursor(cfg, w, op);
      TaskFrame(cfg, w, op);
    } else if SubmitterOp(op) {
      SubmitterKeepsCursor(cfg, w, op);
      SubmitterFeed(cfg, w, op);
    }
  }

  /** The batches a run polled, in order. */
  function Polled(cfg: Config, start: World, ops: seq<Op>): seq<Batch>
    decreases |ops|
  {
    if ops == [] then []
    else
      var prior, op := ops[..|ops| - 1], ops[|ops| - 1];
      var v := Run(cfg, start, prior);
      if op.Poll? && v.Some? then
        Polled(cfg, start, prior) + [Batch(v.value.pollCursor, NextCursor(v.value, op.buf), op.messages)]
      else
        Polled(cfg, start, prior)
  }

  /** A clean run that drains has registered every batch it polled. */
  lemma {:induction false} FetchedIsPolled(cfg: Config, start: World, ops: seq<Op>)
    requires FreshStart(cfg, start) && cfg.ttl >= 0
    requires forall k :: 0 <= k < |ops| ==> CleanOp(ops[k])
    requires Run(cfg, start, ops).Some?
    ensures Fetched(Run(cfg, start, ops).value) == Polled(cfg, start, ops)
    decreases |ops|
  {
    if ops != [] {
      var prior, op := ops[..|ops| - 1], ops[|ops| - 1];
      FetchedIsPolled(cfg, start, prior);
      CleanRun(cfg, start, prior);
      FetchedStep(cfg, Run(cfg, start, prior).value, op);
    }
  }

  lemma FetchedStep(cfg: Config, w: World, op: Op)
    requires CleanOp(op) && Enabled(cfg, w, op) && !w.led.cancelled
    requires Scheduled(w) && SubmitterAt(w) && |w.hist| == |w.ids|
    ensures Fetched(Apply(cfg, w, op)) ==
      if op.Poll? then Fetched(w) + [Batch(w.pollCursor, NextCursor(w, op.buf), op.messages)] else Fetched(w)
  {
    if TaskOp(op) {
      TaskFrame(cfg, w, op);
    } else if SubmitterOp(op) {
      SubmitterFeed(cfg, w, op);
      if Apply(cfg, w, op).sub.Draining? { CleanDraining(cfg, w, op); }
    } else if op.Poll? {
      PollFetched(w, Batch(w.pollCursor, NextCursor(w, op.buf), op.messages));
    }
  }

  lemma PollFetched(w: World, b: Batch)
    requires !w.sub.Draining?
    ensures Fetched(w.(queue := w.queue + [b], pollCursor := b.cursor)) == Fetched(w) + [b]
  {
  }

  lemma OnlyDrainStops(cfg: Config, w: World, op: Op)
    requires SubmitterOp(op) && Enabled(cfg, w, op) && !w.led.cancelled && !w.sub.DecodeFailed?
    requires ApplySub(w, op).sub.Draining?
    ensures op.StartDrain?
  {
  }

  /** Without cancellation the submitter stops only once the queue is used up. */
  lemma CleanDraining(cfg: Config, w: World, op: Op)
    requires SubmitterOp(op) && Enabled(cfg, w, op) && !w.led.cancelled
    requires Scheduled(w) && Apply(cfg, w, op).sub.Draining?
    ensures w.hist == Fetched(w)
  {
    SubmitterApplied(cfg, w, op);
    OnlyDrainStops(cfg, w, op);
  }

  /** The first start on any two files, or a restart after any crash. */
  ghost predicate Starting(cfg: Config, start: World) {
    || (exists cursorFile, replayFile, now :: start == Initial(cfg, cursorFile, replayFile, now))
    || (exists v, point :: Enabled(cfg, v, Crash(point)) && start == Restarted(cfg, AtCrash(v, point)))
  }

  lemma StartingIsFresh(cfg: Config, start: World)
    requires Starting(cfg, start)
    ensures FreshStart(cfg, start)
  {
    if cursorFile, replayFile, now :| start == Initial(cfg, cursorFile, replayFile, now) {
      InitialIsFresh(cfg, cursorFile, replayFile, now);
    } else {
      var v, point :| Enabled(cfg, v, Crash(point)) && start == Restarted(cfg, AtCrash(v, point));
      RestartIsFresh(cfg, AtCrash(v, point));
    }
  }

  /** The same in terms of the server: from any start, a clean run that has
      drained ends like folding processUpdateBatch over what was polled. */
  lemma CleanRunsFoldWhatWasPolled(cfg: Config, start: World, ops: seq<Op>, w: World)
    requires Starting(cfg, start) && cfg.ttl >= 0
    requires forall k :: 0 <= k < |ops| ==> CleanOp(ops[k])
    requires Run(cfg, start, ops) == Some(w)
    requires w.sub.Draining? && AllFinished(w.tasks)
    ensures AllDecodable(Polled(cfg, start, ops))
    ensures EndsLikeFold(cfg, start, Polled(cfg, start, ops), w)
  {
    StartingIsFresh(cfg, start);
    ConcurrentRefinesSequential(cfg, start, ops, w);
    FetchedIsPolled(cfg, start, ops);
  }
}
