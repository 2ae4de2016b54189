/** The dispatcher's commit ledger: which batches are outstanding, which have
    failed, and how far the persisted cursor may move.  The specification
    functions are shared with the small-step model in module Delivery. */
module Dispatcher {
  import opened Wire
  import opened Stores

  type Error = string

  const UpdateQueueCapacity := 16
  const DefaultMaxConcurrentHandlers := 4
  const MaximumConcurrentHandlers := 256

  /** The clamp newKeyedDispatcher applies to the configured concurrency. */
  function HandlerLimit(requested: int): nat {
    var positive := if requested <= 0 then DefaultMaxConcurrentHandlers else requested;
    if positive > MaximumConcurrentHandlers then MaximumConcurrentHandlers else positive
  }

  datatype BatchState = BatchState(remaining: int, cursor: string, failed: bool)

  /** Everything the dispatcher mutex protects except the tails map, together
      with the held batch slots, the context flag and the cursor store. */
  datatype Ledger = Ledger(
    batches: map<nat, BatchState>,
    nextBatchID: nat,
    nextCommitID: nat,
    batchSlots: int,
    firstError: Option<Error>,
    failureClosed: bool,
    cancelled: bool,
    cursor: CursorState)

  // ----- specification functions -----

  function AfterFailure(l: Ledger, err: Option<Error>): Ledger {
    if err.None? || l.firstError.Some? then l
    else l.(firstError := err, failureClosed := true, cancelled := true)
  }

  /** The batch at the frontier is complete and may be committed. */
  predicate FrontierReady(l: Ledger) {
    l.nextCommitID in l.batches
    && l.batches[l.nextCommitID].remaining == 0
    && !l.batches[l.nextCommitID].failed
  }

  predicate NeedsWrite(l: Ledger)
    requires FrontierReady(l)
  {
    var c := l.batches[l.nextCommitID].cursor;
    c != "" && c != l.cursor.buf
  }

  /** Commits the frontier batch, its cursor write having succeeded. */
  function CommitFrontier(l: Ledger): Ledger
    requires FrontierReady(l)
  {
    l.(batches := l.batches - {l.nextCommitID},
       nextCommitID := l.nextCommitID + 1,
       batchSlots := l.batchSlots - 1,
       cursor := if NeedsWrite(l) then SetCursor(l.cursor, l.batches[l.nextCommitID].cursor, true) else l.cursor)
  }

  /** Pins the frontier after a failed cursor write. */
  function PinFrontier(l: Ledger): Ledger
    requires FrontierReady(l)
  {
    var id := l.nextCommitID;
    AfterFailure(l.(batches := l.batches[id := l.batches[id].(failed := true)]), Some("commit cursor"))
  }

  /** At most n iterations of the advance loop; the cursor write of batch
      failAt (if reached) fails. */
  function AdvanceUpTo(l: Ledger, n: nat, failAt: Option<nat>): Ledger
    decreases n
  {
    if n == 0 || !FrontierReady(l) then l
    else if NeedsWrite(l) && failAt == Some(l.nextCommitID) then PinFrontier(l)
    else AdvanceUpTo(CommitFrontier(l), n - 1, failAt)
  }

  /** How many batches are live. */
  function Live(l: Ledger): nat {
    if l.nextCommitID <= l.nextBatchID then l.nextBatchID - l.nextCommitID else 0
  }

  /** The whole loop: every iteration removes one live batch. */
  function Advance(l: Ledger, failAt: Option<nat>): Ledger {
    AdvanceUpTo(l, Live(l), failAt)
  }

  function OneFewer(l: Ledger, id: nat, err: Option<Error>, executed: bool): Ledger
    requires id in l.batches
  {
    var s := l.batches[id];
    var l1 := l.(batches := l.batches[id := s.(remaining := s.remaining - 1, failed := s.failed || err.Some?)]);
    if executed then AfterFailure(l1, err) else l1
  }

  predicate Outstanding(l: Ledger, id: nat) {
    id in l.batches && l.batches[id].remaining > 0
  }

  function AfterComplete(l: Ledger, id: nat, err: Option<Error>, executed: bool, n: nat, failAt: Option<nat>): Ledger {
    if !Outstanding(l, id) then l
    else
      var l1 := OneFewer(l, id, err, executed);
      if l1.batches[id].remaining == 0 && !l1.batches[id].failed then AdvanceUpTo(l1, n, failAt) else l1
  }

  function AfterCancel(l: Ledger, id: nat, count: int): Ledger {
    if count <= 0 || id !in l.batches then l
    else
      var s := l.batches[id];
      var c := if count > s.remaining then s.remaining else count;
      l.(batches := l.batches[id := s.(failed := true, remaining := s.remaining - c)])
  }

  function AfterRegister(l: Ledger, messages: nat, cursor: string, n: nat, failAt: Option<nat>): Ledger {
    var l1 := l.(batches := l.batches[l.nextBatchID := BatchState(messages, cursor, false)],
                 nextBatchID := l.nextBatchID + 1);
    if messages == 0 then AdvanceUpTo(l1, n, failAt) else l1
  }

  function Fresh(cursor: CursorState): Ledger {
    Ledger(map[], 0, 0, 0, None, false, false, cursor)
  }

  // ----- the ledger invariant and what the operations do to the frontier -----

  /** Live batches are exactly [nextCommitID, nextBatchID), each holds a slot,
      counters never go negative, and a failed batch implies cancellation. */
  ghost predicate Sound(l: Ledger) {
    && l.nextCommitID <= l.nextBatchID
    && (forall id: nat :: id in l.batches <==> l.nextCommitID <= id < l.nextBatchID)
    && l.batchSlots >= Live(l)
    && (forall id :: id in l.batches ==> l.batches[id].remaining >= 0)
    && (l.firstError.Some? ==> l.cancelled)
    && (l.failureClosed <==> l.firstError.Some?)
    && Synced(l.cursor)
  }

  /** The last non-empty cursor, or the initial one. */
  function LastCursor(init: string, cursors: seq<string>): string {
    if cursors == [] then init
    else if cursors[|cursors| - 1] != "" then cursors[|cursors| - 1]
    else LastCursor(init, cursors[..|cursors| - 1])
  }

  lemma {:induction false} LastCursorAppend(init: string, a: seq<string>, b: seq<string>)
    ensures LastCursor(init, a + b) == LastCursor(LastCursor(init, a), b)
  {
    if b == [] {
      assert a + b == a;
    } else {
      assert (a + b)[..|a + b| - 1] == a + b[..|b| - 1];
      LastCursorAppend(init, a, b[..|b| - 1]);
    }
  }

  function Cursors(l: Ledger, from: nat, to: nat): seq<string>
    requires from <= to
    requires forall id :: from <= id < to ==> id in l.batches
  {
    seq(to - from, i requires 0 <= i < to - from => l.batches[from + i].cursor)
  }

  /** What advancing means, without the loop: it commits a contiguous prefix of
      complete, unfailed batches; the cursor becomes the last non-empty cursor
      of exactly that prefix, in memory and on disk alike; every batch beyond
      the prefix is untouched, except that the batch whose cursor write failed
      is pinned. */
  ghost predicate Advanced(l: Ledger, r: Ledger) {
    && l.nextCommitID <= r.nextCommitID <= l.nextBatchID == r.nextBatchID
    && (forall id :: l.nextCommitID <= id < r.nextCommitID ==>
          id in l.batches && l.batches[id].remaining == 0 && !l.batches[id].failed)
    && r.batchSlots == l.batchSlots - (r.nextCommitID - l.nextCommitID)
    && r.cursor.buf == LastCursor(l.cursor.buf, Cursors(l, l.nextCommitID, r.nextCommitID))
    && (forall id: nat :: id in r.batches <==> id in l.batches && id >= r.nextCommitID)
    && (forall id :: id in r.batches ==>
          r.batches[id].remaining == l.batches[id].remaining && r.batches[id].cursor == l.batches[id].cursor)
    && (forall id :: id in r.batches && r.batches[id].failed != l.batches[id].failed ==>
          id == r.nextCommitID && r.batches[id].failed && r.cancelled && r.firstError.Some?)
    && (l.cancelled ==> r.cancelled)
    && (r.cancelled ==> l.cancelled || r.firstError.Some?)
    && (l.firstError.Some? ==> r.firstError == l.firstError)
  }

  lemma CommitFrontierSound(l: Ledger)
    requires Sound(l) && FrontierReady(l)
    ensures Sound(CommitFrontier(l))
  {
  }

  lemma PinFrontierAdvanced(l: Ledger)
    requires Sound(l) && FrontierReady(l)
    ensures Sound(PinFrontier(l)) && Advanced(l, PinFrontier(l))
  {
    assert Cursors(l, l.nextCommitID, l.nextCommitID) == [];
  }

  /** The cursor after the frontier batch and then the rest. */
  lemma CursorsCompose(l: Ledger, n: nat)
    requires Sound(l) && FrontierReady(l) && l.nextCommitID < n
    requires forall i :: l.nextCommitID <= i < n ==> i in l.batches
    ensures LastCursor(CommitFrontier(l).cursor.buf, Cursors(CommitFrontier(l), l.nextCommitID + 1, n))
            == LastCursor(l.cursor.buf, Cursors(l, l.nextCommitID, n))
  {
    var l1, id := CommitFrontier(l), l.nextCommitID;
    var rest := Cursors(l1, id + 1, n);
    assert Cursors(l, id, n) == [l.batches[id].cursor] + rest;
    LastCursorAppend(l.cursor.buf, [l.batches[id].cursor], rest);
    assert LastCursor(l.cursor.buf, [l.batches[id].cursor]) == l1.cursor.buf;
  }

  lemma CommittedBatches(l: Ledger)
    requires Sound(l) && FrontierReady(l)
    ensures var l1 := CommitFrontier(l);
      && (forall i: nat :: i in l1.batches <==> i in l.batches && i != l.nextCommitID)
      && (forall i :: i in l1.batches ==> l1.batches[i] == l.batches[i])
  {
  }

  lemma AdvancedCompose(l: Ledger, r: Ledger)
    requires Sound(l) && FrontierReady(l) && Advanced(CommitFrontier(l), r)
    ensures Advanced(l, r)
  {
    CommittedBatches(l);
    assert forall i: nat :: l.nextCommitID <= i < r.nextCommitID ==> i == l.nextCommitID || i in CommitFrontier(l).batches;
    CursorsCompose(l, r.nextCommitID);
  }

  lemma {:induction false} AdvanceMeaning(l: Ledger, n: nat, failAt: Option<nat>)
    requires Sound(l)
    ensures Sound(AdvanceUpTo(l, n, failAt)) && Advanced(l, AdvanceUpTo(l, n, failAt))
    decreases n
  {
    if n == 0 || !FrontierReady(l) {
      assert Cursors(l, l.nextCommitID, l.nextCommitID) == [];
    } else if NeedsWrite(l) && failAt == Some(l.nextCommitID) {
      PinFrontierAdvanced(l);
    } else {
      CommitFrontierSound(l);
      AdvanceMeaning(CommitFrontier(l), n - 1, failAt);
      AdvancedCompose(l, AdvanceUpTo(l, n, failAt));
    }
  }

  lemma AdvanceStep(l: Ledger, failAt: Option<nat>)
    requires Sound(l) && FrontierReady(l)
    ensures Advance(l, failAt) ==
      if NeedsWrite(l) && failAt == Some(l.nextCommitID) then PinFrontier(l) else Advance(CommitFrontier(l), failAt)
    ensures !FrontierReady(PinFrontier(l))
  {
    assert Live(l) > 0;
  }

  /** The complete loop leaves nothing committable at the frontier. */
  lemma {:induction false} AdvanceExhausts(l: Ledger, n: nat, failAt: Option<nat>)
    requires Sound(l) && n >= Live(l)
    ensures !FrontierReady(AdvanceUpTo(l, n, failAt))
    decreases n
  {
    if n != 0 && FrontierReady(l) && !(NeedsWrite(l) && failAt == Some(l.nextCommitID)) {
      CommitFrontierSound(l);
      AdvanceExhausts(CommitFrontier(l), n - 1, failAt);
    }
  }

  lemma OneFewerSound(l: Ledger, id: nat, err: Option<Error>, executed: bool)
    requires Sound(l) && Outstanding(l, id)
    ensures Sound(OneFewer(l, id, err, executed))
    ensures Live(OneFewer(l, id, err, executed)) == Live(l)
  {
  }

  lemma RegisterSound(l: Ledger, messages: nat, cursor: string)
    requires Sound(l) && l.batchSlots > Live(l)
    ensures Sound(AfterRegister(l, messages, cursor, 0, None))
    ensures Live(AfterRegister(l, messages, cursor, 0, None)) == Live(l) + 1
  {
  }

  /** complete on an outstanding batch: its count drops, a failure is recorded
      and an executed one cancels; the commit loop runs only if that emptied an
      unfailed batch. */
  lemma CompleteMeaning(l: Ledger, id: nat, err: Option<Error>, executed: bool, n: nat, failAt: Option<nat>)
    requires Sound(l) && Outstanding(l, id)
    ensures var m := OneFewer(l, id, err, executed);
            var r := AfterComplete(l, id, err, executed, n, failAt);
            && Sound(m) && Sound(r)
            && (l.cancelled ==> m.cancelled) && (m.cancelled ==> r.cancelled)
            && (executed && err.Some? ==> m.cancelled)
            && (if m.batches[id].remaining == 0 && !m.batches[id].failed
                then r == AdvanceUpTo(m, n, failAt) && Advanced(m, r) else r == m)
  {
    OneFewerSound(l, id, err, executed);
    AdvanceMeaning(OneFewer(l, id, err, executed), n, failAt);
  }

  /** Without a failing cursor write the commit loop cancels nothing. */
  lemma {:induction false} AdvanceWithoutFailure(l: Ledger, n: nat)
    ensures AdvanceUpTo(l, n, None).cancelled == l.cancelled
    decreases n
  {
    if n != 0 && FrontierReady(l) {
      AdvanceWithoutFailure(CommitFrontier(l), n - 1);
    }
  }

  // ----- the dispatcher object -----

  class KeyedDispatcher {
    const cursorStore: CursorStore
    var batches: map<nat, BatchState>
    var nextBatchID: nat
    var nextCommitID: nat
    var batchSlots: int
    var firstError: Option<Error>
    var failureClosed: bool
    var cancelled: bool

    function State(): Ledger
      reads this, cursorStore
    {
      Ledger(batches, nextBatchID, nextCommitID, batchSlots, firstError, failureClosed, cancelled, cursorStore.State())
    }

    constructor (store: CursorStore)
      requires Synced(store.State())
      ensures cursorStore == store && State() == Fresh(store.State()) && Sound(State())
    {
      cursorStore := store;
      batches, nextBatchID, nextCommitID, batchSlots := map[], 0, 0, 0;
      firstError, failureClosed, cancelled := None, false, false;
    }

    method RecordFailureLocked(err: Option<Error>)
      requires failureClosed ==> firstError.Some?
      modifies this
      ensures State() == AfterFailure(old(State()), err)
    {
      if err.None? || firstError.Some? {
        return;
      }
      firstError := err;
      if !failureClosed {
        failureClosed := true;
      }
      cancelled := true;
    }

    /** One iteration of the commit loop.  A slot is always there to be
        received, so it never blocks while the mutex is held. */
    method CommitOneLocked(failAt: Option<nat>) returns (again: bool)
      requires Sound(State()) && FrontierReady(State())
      modifies this, cursorStore
      ensures Sound(State())
      ensures again == !(old(NeedsWrite(State())) && failAt == Some(old(nextCommitID)))
      ensures State() == if again then CommitFrontier(old(State())) else PinFrontier(old(State()))
    {
      CommitFrontierSound(State());
      PinFrontierAdvanced(State());
      var state := batches[nextCommitID];
      if state.cursor != "" && state.cursor != cursorStore.buf {
        var ok := cursorStore.Set(state.cursor, failAt != Some(nextCommitID));
        if !ok {
          batches := batches[nextCommitID := state.(failed := true)];
          RecordFailureLocked(Some("commit cursor"));
          return false;
        }
      }
      assert batchSlots > 0;
      batches := batches - {nextCommitID};
      nextCommitID := nextCommitID + 1;
      batchSlots := batchSlots - 1;
      return true;
    }

    method AdvanceCursorLocked(failAt: Option<nat>)
      requires Sound(State())
      modifies this, cursorStore
      ensures Sound(State()) && State() == Advance(old(State()), failAt)
    {
      ghost var goal := Advance(State(), failAt);
      var again := true;
      while again && nextCommitID in batches && batches[nextCommitID].remaining == 0 && !batches[nextCommitID].failed
        invariant Sound(State())
        invariant if again then AdvanceUpTo(State(), Live(State()), failAt) == goal else State() == goal
        decreases again, nextBatchID - nextCommitID
      {
        AdvanceStep(State(), failAt);
        again := CommitOneLocked(failAt);
      }
    }

    method Complete(id: nat, err: Option<Error>, executed: bool, failAt: Option<nat>)
      requires Sound(State())
      modifies this, cursorStore
      ensures Sound(State())
      ensures State() == AfterComplete(old(State()), id, err, executed, old(Live(State())), failAt)
    {
      if id !in batches || batches[id].remaining <= 0 {
        return;
      }
      ghost var before := State();
      OneFewerSound(before, id, err, executed);
      var state := batches[id];
      state := state.(remaining := state.remaining - 1);
      if err.Some? {
        state := state.(failed := true);
      }
      batches := batches[id := state];
      if err.Some? && executed {
        RecordFailureLocked(err);
      }
      assert State() == OneFewer(before, id, err, executed);
      if batches[id].remaining == 0 && !batches[id].failed {
        AdvanceCursorLocked(failAt);
      }
    }

    method CancelUnscheduled(id: nat, count: int)
      requires Sound(State())
      modifies this
      ensures Sound(State()) && State() == AfterCancel(old(State()), id, count)
    {
      if count <= 0 || id !in batches {
        return;
      }
      var state := batches[id];
      var effective := count;
      if effective > state.remaining {
        effective := state.remaining;
      }
      batches := batches[id := BatchState(state.remaining - effective, state.cursor, true)];
    }

    /** The locked part of submit, entered holding one more slot than there are
        live batches. */
    method RegisterBatch(messages: nat, cursor: string, failAt: Option<nat>) returns (id: nat)
      requires Sound(State()) && batchSlots > nextBatchID - nextCommitID
      modifies this, cursorStore
      ensures Sound(State()) && id == old(nextBatchID)
      ensures State() == AfterRegister(old(State()), messages, cursor, old(Live(State())) + 1, failAt)
    {
      RegisterSound(State(), messages, cursor);
      id := nextBatchID;
      nextBatchID := nextBatchID + 1;
      batches := batches[id := BatchState(messages, cursor, false)];
      if messages == 0 {
        AdvanceCursorLocked(failAt);
      }
    }
  }
}
