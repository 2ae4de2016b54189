/** The stores behind a session: context tokens per user, the reauthentication
    marker, and the loops that collect and clear context paths.  A write or
    removal either takes full effect or leaves the old file and reports an
    error; its outcome is a parameter. */
module StateFiles {
  import opened Wire

  type Path = string
  type Tokens = map<string, string>

  /** How paths are made canonical, and the key of the file a path names. */
  datatype Naming = Naming(canonical: Path -> Path, key: Path -> string)

  /** A path and its canonical form name the same file. */
  ghost predicate Sound(n: Naming) { forall p :: n.key(n.canonical(p)) == n.key(p) }

  /** The context files of the machine, by key; a file that does not exist is
      empty. */
  class ContextFiles {
    var files: map<string, Tokens>

    constructor (existing: map<string, Tokens>)
      ensures files == existing
    {
      files := existing;
    }
  }

  class ContextStore {
    const path: Path
    const key: string
    const disk: ContextFiles
    var data: Tokens

    constructor (n: Naming, path: Path, disk: ContextFiles)
      ensures this.path == path && key == n.key(path) && this.disk == disk && data == map[]
    {
      this.path, key, this.disk, data := path, n.key(path), disk, map[];
    }

    /** Reads the file; `readable` is false for an I/O or decoding error. */
    method Load(readable: bool) returns (ok: bool)
      modifies this
      ensures ok == (key !in disk.files || readable)
      ensures data == if !ok then old(data) else if key in disk.files then disk.files[key] else map[]
    {
      if key !in disk.files {
        data := map[];
        return true;
      }
      if !readable {
        return false;
      }
      data := disk.files[key];
      return true;
    }

    /** Memory and file change together, or neither does. */
    method Set(user: string, token: string, writeOk: bool) returns (ok: bool)
      modifies this, disk
      ensures ok == (user == "" || token == "" || writeOk)
      ensures data == if user != "" && token != "" && writeOk then old(data)[user := token] else old(data)
      ensures disk.files == if user != "" && token != "" && writeOk then old(disk.files)[key := data] else old(disk.files)
    {
      if user == "" || token == "" {
        return true;
      }
      var next := data[user := token];
      if !writeOk {
        return false;
      }
      disk.files := disk.files[key := next];
      data := next;
      return true;
    }

    method Clear(writeOk: bool) returns (ok: bool)
      modifies this, disk
      ensures ok == writeOk
      ensures data == if ok then map[] else old(data)
      ensures disk.files == if ok then old(disk.files)[key := map[]] else old(disk.files)
    {
      if !writeOk {
        return false;
      }
      disk.files := disk.files[key := map[]];
      data := map[];
      return true;
    }
  }

  // ----- the marker -----

  datatype Record = Record(sha: string, account: string, paths: seq<Path>)

  /** Broken stands for a file that cannot be read or decoded. */
  datatype MarkerFile = NoFile | Broken | Holds(record: Record)

  datatype Loaded = Nothing | Found(record: Record) | Failed

  class ReauthStore {
    var state: Option<Record>
    var file: MarkerFile

    /** What is published is on disk: a marker in memory never outlives or
        precedes its file. */
    ghost predicate Valid()
      reads this
    {
      state.Some? ==> file == Holds(state.value)
    }

    constructor (existing: MarkerFile)
      ensures Valid() && state == None && file == existing
    {
      state, file := None, existing;
    }

    /** An unreadable marker is an error, never an absent one. */
    method Load() returns (r: Loaded)
      requires Valid()
      modifies this
      ensures Valid() && file == old(file)
      ensures r == (match file case NoFile => Nothing case Broken => Failed case Holds(record) => Found(record))
      ensures state == (match file case NoFile => None case Broken => old(state) case Holds(record) => Some(record))
    {
      match file {
        case NoFile =>
          state := None;
          return Nothing;
        case Broken =>
          return Failed;
        case Holds(record) =>
          state := Some(record);
          return Found(record);
      }
    }

    /** Some marker file exists, readable or not. */
    method Required() returns (required: bool)
      requires Valid()
      ensures required <==> file != NoFile
    {
      if state.Some? {
        return true;
      }
      return file != NoFile;
    }

    method Mark(record: Record, writeOk: bool) returns (ok: bool)
      requires Valid()
      modifies this
      ensures Valid() && ok == writeOk
      ensures if ok then file == Holds(record) && state == Some(record) else file == old(file) && state == old(state)
    {
      if !writeOk {
        return false;
      }
      file := Holds(record);
      state := Some(record);
      return true;
    }

    method Clear(removeOk: bool) returns (ok: bool)
      requires Valid()
      modifies this
      ensures Valid() && ok == (removeOk || old(file) == NoFile)
      ensures if ok then file == NoFile && state == None else file == old(file) && state == old(state)
    {
      if !removeOk && file != NoFile {
        return false;
      }
      file := NoFile;
      state := None;
      return true;
    }
  }

  // ----- collecting and clearing context paths -----

  predicate KeyIn(n: Naming, key: string, paths: seq<Path>) {
    exists i :: 0 <= i < |paths| && n.key(paths[i]) == key
  }

  /** The canonical forms of the non-empty paths, each key once, in the order
      of first appearance. */
  function Canonical(n: Naming, paths: seq<Path>): seq<Path> {
    if paths == [] then []
    else
      var early, p := Canonical(n, paths[..|paths| - 1]), n.canonical(paths[|paths| - 1]);
      if paths[|paths| - 1] == "" || KeyIn(n, n.key(p), early) then early else early + [p]
  }

  lemma {:induction false} CanonicalMembers(n: Naming, paths: seq<Path>, key: string)
    ensures KeyIn(n, key, Canonical(n, paths)) <==>
      exists i :: 0 <= i < |paths| && paths[i] != "" && n.key(n.canonical(paths[i])) == key
  {
    if paths != [] {
      var last := |paths| - 1;
      CanonicalMembers(n, paths[..last], key);
      var early, p := Canonical(n, paths[..last]), n.canonical(paths[last]);
      if paths[last] != "" && !KeyIn(n, n.key(p), early) {
        assert (early + [p])[|early|] == p;
        assert forall i :: 0 <= i < |early| ==> (early + [p])[i] == early[i];
      }
      assert forall i :: 0 <= i < last ==> paths[..last][i] == paths[i];
    }
  }

  lemma {:induction false} CanonicalDistinct(n: Naming, paths: seq<Path>, i: nat, j: nat)
    requires i < j < |Canonical(n, paths)|
    ensures n.key(Canonical(n, paths)[i]) != n.key(Canonical(n, paths)[j])
  {
    var last := |paths| - 1;
    var early := Canonical(n, paths[..last]);
    if j < |early| {
      CanonicalDistinct(n, paths[..last], i, j);
    }
  }

  /** Position i is the first with a path that is not empty and has its key. */
  ghost predicate FirstOfKey(n: Naming, paths: seq<Path>, i: nat) {
    && i < |paths| && paths[i] != ""
    && forall j :: 0 <= j < i && paths[j] != "" ==> n.key(n.canonical(paths[j])) != n.key(n.canonical(paths[i]))
  }

  /** In order: the result consists of the canonical forms at the first
      positions of the keys, from left to right. */
  lemma {:induction false} CanonicalInOrder(n: Naming, paths: seq<Path>) returns (at: seq<nat>)
    ensures |at| == |Canonical(n, paths)| && forall k :: 0 <= k < |at| ==>
      FirstOfKey(n, paths, at[k]) && Canonical(n, paths)[k] == n.canonical(paths[at[k]])
    ensures forall k, l :: 0 <= k < l < |at| ==> at[k] < at[l]
  {
    if paths == [] {
      at := [];
    } else {
      var last := |paths| - 1;
      at := CanonicalInOrder(n, paths[..last]);
      forall k | 0 <= k < |at| ensures FirstOfKey(n, paths, at[k]) {
        assert FirstOfKey(n, paths[..last], at[k]);
      }
      var key := n.key(n.canonical(paths[last]));
      if paths[last] != "" && !KeyIn(n, key, Canonical(n, paths[..last])) {
        CanonicalMembers(n, paths[..last], key);
        forall j | 0 <= j < last && paths[j] != "" ensures n.key(n.canonical(paths[j])) != key {
          assert paths[..last][j] == paths[j];
        }
        at := at + [last];
      }
    }
  }

  method CanonicalContextPaths(n: Naming, paths: seq<Path>) returns (result: seq<Path>)
    ensures result == Canonical(n, paths)
  {
    var seen: set<string> := {};
    result := [];
    for i := 0 to |paths|
      invariant result == Canonical(n, paths[..i])
      invariant forall key :: key in seen <==> KeyIn(n, key, result)
    {
      assert paths[..i + 1][..i] == paths[..i];
      if paths[i] == "" {
        continue;
      }
      var path := n.canonical(paths[i]);
      var key := n.key(path);
      if key in seen {
        continue;
      }
      seen := seen + {key};
      ghost var before := result;
      result := result + [path];
      assert forall k :: 0 <= k < |before| ==> result[k] == before[k];
      assert result[|before|] == path;
    }
    assert paths[..|paths|] == paths;
  }

  function Keys(n: Naming, paths: seq<Path>): (keys: seq<string>)
    ensures |keys| == |paths| && forall i :: 0 <= i < |paths| ==> keys[i] == n.key(paths[i])
  {
    seq(|paths|, i requires 0 <= i < |paths| => n.key(paths[i]))
  }

  /** The files after clearing those of keys whose write succeeds. */
  function Cleared(files: map<string, Tokens>, keys: seq<string>, fails: set<string>): map<string, Tokens> {
    if keys == [] then files
    else
      var k := keys[|keys| - 1];
      var early := Cleared(files, keys[..|keys| - 1], fails);
      if k in fails then early else early[k := map[]]
  }

  /** Exactly the files whose clearing succeeded are emptied; the others keep
      their tokens. */
  lemma {:induction false} ClearedFiles(files: map<string, Tokens>, keys: seq<string>, fails: set<string>, k: string)
    ensures var after := Cleared(files, keys, fails);
      if k in keys && k !in fails then k in after && after[k] == map[]
      else (k in after <==> k in files) && (k in files ==> after[k] == files[k])
  {
    if keys != [] {
      var last := |keys| - 1;
      ClearedFiles(files, keys[..last], fails, k);
      assert keys == keys[..last] + [keys[last]];
    }
  }

  /** clearContextPaths over canonical paths.  Every path is tried, the bot's
      own store is emptied with its file, and the error says whether any failed. */
  method ClearContextPaths(n: Naming, primary: ContextStore, paths: seq<Path>, fails: set<string>) returns (ok: bool)
    requires primary.key == n.key(primary.path)
    modifies primary, primary.disk
    ensures var keys := Keys(n, paths); primary.disk.files == Cleared(old(primary.disk.files), keys, fails)
    ensures primary.data == if primary.key in Keys(n, paths) && primary.key !in fails then map[] else old(primary.data)
    ensures ok <==> forall k :: k in Keys(n, paths) ==> k !in fails
  {
    ok := true;
    ghost var keys := Keys(n, paths);
    for i := 0 to |paths|
      invariant primary.disk.files == Cleared(old(primary.disk.files), keys[..i], fails)
      invariant primary.data == if primary.key in keys[..i] && primary.key !in fails then map[] else old(primary.data)
      invariant ok <==> forall k :: k in keys[..i] ==> k !in fails
    {
      assert keys[..i + 1][..i] == keys[..i] && keys[..i + 1] == keys[..i] + [keys[i]];
      var cleared: bool;
      if n.key(paths[i]) == n.key(primary.path) {
        cleared := primary.Clear(n.key(paths[i]) !in fails);
      } else {
        var other := new ContextStore(n, paths[i], primary.disk);
        cleared := other.Clear(n.key(paths[i]) !in fails);
      }
      ok := ok && cleared;
    }
    assert keys[..|paths|] == keys;
  }

  /** The marker is extended before anything is cleared, so a failure leaves
      every path recorded. */
  method PersistAndClear(marker: ReauthStore, record: Record, primary: ContextStore, n: Naming, markOk: bool, fails: set<string>)
    returns (ok: bool, recorded: Record)
    requires marker.Valid() && primary.key == n.key(primary.path)
    modifies marker, primary, primary.disk
    ensures marker.Valid()
    ensures recorded == record.(paths := Canonical(n, record.paths + [primary.path]))
    ensures !markOk ==> !ok && marker.file == old(marker.file) && primary.disk.files == old(primary.disk.files)
    ensures markOk ==> marker.file == Holds(recorded)
    ensures markOk ==> primary.disk.files == Cleared(old(primary.disk.files), Keys(n, recorded.paths), fails)
    ensures markOk ==> (ok <==> forall k :: k in Keys(n, recorded.paths) ==> k !in fails)
    ensures markOk && ok && Sound(n) && primary.path != "" ==> primary.data == map[]
  {
    var paths := CanonicalContextPaths(n, record.paths + [primary.path]);
    recorded := record.(paths := paths);
    ok := marker.Mark(recorded, markOk);
    if ok {
      ghost var all := record.paths + [primary.path];
      CanonicalMembers(n, all, n.key(n.canonical(primary.path)));
      assert all[|record.paths|] == primary.path;
      assert Sound(n) && primary.path != "" ==> KeyIn(n, primary.key, paths);
      assert Sound(n) && primary.path != "" ==> primary.key in Keys(n, paths);
      ok := ClearContextPaths(n, primary, paths, fails);
    }
  }

  /** When it succeeds, the file of every recorded path is empty, and the
      bot's own path is among them. */
  lemma SuccessMeansEmpty(n: Naming, files: map<string, Tokens>, before: seq<Path>, primary: Path, fails: set<string>, p: Path)
    requires Sound(n)
    requires var keys := Keys(n, Canonical(n, before + [primary])); forall k :: k in keys ==> k !in fails
    requires p != "" && p in before + [primary]
    ensures var after := Cleared(files, Keys(n, Canonical(n, before + [primary])), fails);
      n.key(p) in after && after[n.key(p)] == map[]
  {
    var all := before + [primary];
    var i :| 0 <= i < |all| && all[i] == p;
    CanonicalMembers(n, all, n.key(n.canonical(p)));
    var keys := Keys(n, Canonical(n, all));
    assert n.key(p) in keys;
    ClearedFiles(files, keys, fails, n.key(p));
  }
}
