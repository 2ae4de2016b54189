/** The persisted replay index: handled identities, pruned by age.
    Clock readings are nanoseconds; stored timestamps are whole milliseconds. */
module Replay {
  import opened Wire

  const DefaultReplayTTL := 86_400_000_000_000
  const NanosPerMilli := 1_000_000

  type Seen = map<string, int>

  function UnixMilli(t: int): int { t / NanosPerMilli }

  function Cutoff(now: int, ttl: int): int { UnixMilli(now - ttl) }

  function Pruned(m: Seen, cutoff: int): Seen {
    map k | k in m && m[k] >= cutoff :: m[k]
  }

  predicate SeenKey(m: Seen, key: string, now: int, ttl: int) {
    key != "" && key in m && m[key] >= Cutoff(now, ttl)
  }

  function RealKeys(keys: seq<string>): set<string> {
    set k | k in keys && k != ""
  }

  function Stamped(m: Seen, keys: set<string>, stamp: int): Seen {
    map k | k in m.Keys + keys :: if k in keys then stamp else m[k]
  }

  function Committed(m: Seen, keys: seq<string>, now: int, ttl: int): Seen {
    Stamped(Pruned(m, Cutoff(now, ttl)), RealKeys(keys), UnixMilli(now))
  }

  /** In-memory entries and the backing file (None: no file yet). */
  datatype Index = Index(mem: Seen, file: Option<Seen>)

  datatype Event =
    | Commit(now: int, keys: seq<string>, writeOk: bool)
    | Reload(now: int, readable: bool)

  function ApplyEvent(ix: Index, e: Event, ttl: int): Index {
    match e
    case Commit(now, keys, writeOk) =>
      if RealKeys(keys) == {} || !writeOk then ix
      else var next := Committed(ix.mem, keys, now, ttl); Index(next, Some(next))
    case Reload(now, readable) =>
      if ix.file.None? then ix.(mem := map[])
      else if !readable then ix
      else ix.(mem := Pruned(ix.file.value, Cutoff(now, ttl)))
  }

  function Fold(events: seq<Event>, ttl: int): Index {
    if events == [] then Index(map[], None)
    else ApplyEvent(Fold(events[..|events| - 1], ttl), events[|events| - 1], ttl)
  }

  // ----- the store itself -----

  class ReplayStore {
    const ttl: int
    var seenAt: Seen
    var file: Option<Seen>

    function State(): Index
      reads this
    {
      Index(seenAt, file)
    }

    constructor (requestedTtl: int, existing: Option<Seen>)
      ensures ttl == (if requestedTtl <= 0 then DefaultReplayTTL else requestedTtl)
      ensures ttl > 0
      ensures State() == Index(map[], existing)
    {
      ttl := if requestedTtl <= 0 then DefaultReplayTTL else requestedTtl;
      seenAt, file := map[], existing;
    }

    /** Reads the file; `readable` is false for an I/O or decoding error. */
    method Load(now: int, readable: bool) returns (ok: bool)
      modifies this
      ensures State() == ApplyEvent(old(State()), Reload(now, readable), ttl)
      ensures ok == (old(file).None? || readable)
    {
      if file.None? {
        seenAt := map[];
        return true;
      }
      if !readable {
        return false;
      }
      var parsed := PruneReplay(file.value, now, ttl);
      seenAt := parsed;
      return true;
    }

    method SeenAny(keys: seq<string>, now: int) returns (seen: bool)
      ensures seen <==> exists k :: k in keys && SeenKey(seenAt, k, now, ttl)
    {
      var cutoff := Cutoff(now, ttl);
      for i := 0 to |keys|
        invariant forall k :: k in keys[..i] ==> !SeenKey(seenAt, k, now, ttl)
      {
        if keys[i] != "" && keys[i] in seenAt && seenAt[keys[i]] >= cutoff {
          assert SeenKey(seenAt, keys[i], now, ttl);
          return true;
        }
      }
      return false;
    }

    /** Records keys with one write; `writeOk` is the outcome of that write. */
    method CommitAll(keys: seq<string>, now: int, writeOk: bool) returns (ok: bool)
      modifies this
      ensures State() == ApplyEvent(old(State()), Commit(now, keys, writeOk), ttl)
      ensures ok == (RealKeys(keys) == {} || writeOk)
    {
      var next := PruneReplay(seenAt, now, ttl);
      ghost var pruned := next;
      var hasKey := false;
      for i := 0 to |keys|
        invariant next == Stamped(pruned, RealKeys(keys[..i]), UnixMilli(now))
        invariant hasKey <==> RealKeys(keys[..i]) != {}
      {
        assert keys[..i + 1] == keys[..i] + [keys[i]];
        assert RealKeys(keys[..i + 1]) == RealKeys(keys[..i]) + if keys[i] != "" then {keys[i]} else {};
        if keys[i] != "" {
          next := next[keys[i] := UnixMilli(now)];
          hasKey := true;
        }
      }
      assert keys[..|keys|] == keys;
      if !hasKey {
        return true;
      }
      if !writeOk {
        return false;
      }
      file := Some(next);
      seenAt := next;
      return true;
    }
  }

  /** Deletes every entry older than the window, key by key. */
  method PruneReplay(seenAt: Seen, now: int, ttl: int) returns (kept: Seen)
    ensures kept == Pruned(seenAt, Cutoff(now, ttl))
  {
    var cutoff := Cutoff(now, ttl);
    kept := seenAt;
    var rest := seenAt.Keys;
    while rest != {}
      invariant rest <= seenAt.Keys
      invariant kept == map k | k in seenAt && (k in rest || seenAt[k] >= cutoff) :: seenAt[k]
      decreases rest
    {
      var key :| key in rest;
      if seenAt[key] < cutoff {
        kept := kept - {key};
      }
      rest := rest - {key};
    }
  }

  // ----- the append-only commit log it refines -----

  datatype Entry = Entry(keys: set<string>, time: int)

  function CommitLog(events: seq<Event>): seq<Entry> {
    if events == [] then []
    else
      var prior, e := CommitLog(events[..|events| - 1]), events[|events| - 1];
      if e.Commit? && e.writeOk && RealKeys(e.keys) != {} then
        prior + [Entry(RealKeys(e.keys), e.now)]
      else
        prior
  }

  /** Time of the latest successful commit naming k. */
  function Latest(log: seq<Entry>, k: string): Option<int> {
    if log == [] then None
    else if k in log[|log| - 1].keys then Some(log[|log| - 1].time)
    else Latest(log[..|log| - 1], k)
  }

  ghost predicate Monotone(events: seq<Event>) {
    forall i, j :: 0 <= i < j < |events| ==> events[i].now <= events[j].now
  }

  /** m answers like the log for every clock reading whose cutoff is >= cutoff. */
  ghost predicate Agrees(m: Seen, log: seq<Entry>, cutoff: int) {
    && (forall k :: k in m ==> Latest(log, k).Some? && m[k] == UnixMilli(Latest(log, k).value))
    && (forall k :: Latest(log, k).Some? && UnixMilli(Latest(log, k).value) >= cutoff ==> k in m)
  }

  lemma LatestAppend(log: seq<Entry>, e: Entry, k: string)
    ensures Latest(log + [e], k) == if k in e.keys then Some(e.time) else Latest(log, k)
  {
    assert (log + [e])[..|log|] == log;
  }

  lemma CutoffMonotone(a: int, b: int, ttl: int)
    requires a <= b
    ensures Cutoff(a, ttl) <= Cutoff(b, ttl)
  {
  }

  lemma {:induction false} LogHasNoEmptyKey(events: seq<Event>)
    ensures Latest(CommitLog(events), "").None?
  {
    if events != [] {
      var prior, e := events[..|events| - 1], events[|events| - 1];
      LogHasNoEmptyKey(prior);
      if e.Commit? && e.writeOk && RealKeys(e.keys) != {} {
        LatestAppend(CommitLog(prior), Entry(RealKeys(e.keys), e.now), "");
      }
    }
  }

  lemma {:induction false} IndexAgreesWithLog(events: seq<Event>, ttl: int)
    requires Monotone(events) && events != []
    ensures var ix := Fold(events, ttl);
            var cutoff := Cutoff(events[|events| - 1].now, ttl);
            && Agrees(ix.mem, CommitLog(events), cutoff)
            && (ix.file.None? ==> CommitLog(events) == [])
            && (ix.file.Some? ==> Agrees(ix.file.value, CommitLog(events), cutoff))
  {
    var prior, e := events[..|events| - 1], events[|events| - 1];
    var cutoff := Cutoff(e.now, ttl);
    var log := CommitLog(prior);
    if prior != [] {
      IndexAgreesWithLog(prior, ttl);
      CutoffMonotone(prior[|prior| - 1].now, e.now, ttl);
    }
    if e.Commit? && e.writeOk && RealKeys(e.keys) != {} {
      forall k {
        LatestAppend(log, Entry(RealKeys(e.keys), e.now), k);
      }
    }
  }

  /** Through any commits, failed writes and reloads under a monotone clock, the
      pruned index answers exactly as the append-only log does. */
  lemma SeenIffRecentlyCommitted(events: seq<Event>, ttl: int, k: string, t: int)
    requires Monotone(events)
    requires forall i :: 0 <= i < |events| ==> events[i].now <= t
    ensures SeenKey(Fold(events, ttl).mem, k, t, ttl)
      <==> Latest(CommitLog(events), k).Some?
           && UnixMilli(Latest(CommitLog(events), k).value) >= UnixMilli(t - ttl)
  {
    LogHasNoEmptyKey(events);
    if events != [] {
      IndexAgreesWithLog(events, ttl);
      CutoffMonotone(events[|events| - 1].now, t, ttl);
    }
  }

  /** Pruning at one moment never changes an answer given then or later. */
  lemma PruningIsInvisible(m: Seen, k: string, pruneTime: int, t: int, ttl: int)
    requires pruneTime <= t
    ensures SeenKey(Pruned(m, Cutoff(pruneTime, ttl)), k, t, ttl) == SeenKey(m, k, t, ttl)
  {
    CutoffMonotone(pruneTime, t, ttl);
  }
}
