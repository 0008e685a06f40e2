/** `src/discovery.rs`: finding the running Zeke command-line sessions through the
    lock files of the session directory, and stopping and cleaning them up.

    The session directory is data: whether it exists, and a map from each file
    name to its parsed contents (`None` for a file that cannot be read or parsed as
    a session). The order in which the directory is read is a `listing` of its
    names. Liveness (`kill -0` on the pid, then a WebSocket connection to the
    port) is an oracle: the set of running pids and the set of ports that accept
    a connection. */
module Discovery {
  import opened Common
  import opened Text

  /** `ZekeSessionInfo`, the contents of a lock file. */
  datatype SessionInfo = SessionInfo(port: nat, authToken: string, sessionId: string,
                                     pid: nat, startTime: nat, version: string)

  datatype Liveness = Liveness(running: set<nat>, responding: set<nat>)

  /** The result of `is_session_active`: whether the session is active, and
      whether the WebSocket health probe was issued at all. */
  datatype Probe = Probe(active: bool, probed: bool)

  /** `is_session_active`: a dead process short-circuits the health probe. */
  function IsSessionActive(session: SessionInfo, live: Liveness): (p: Probe)
    ensures p.active <==> session.pid in live.running && session.port in live.responding
    ensures p.probed <==> session.pid in live.running
  {
    if session.pid !in live.running then Probe(false, false)
    else Probe(session.port in live.responding, true)
  }

  predicate Active(session: SessionInfo, live: Liveness) {
    IsSessionActive(session, live).active
  }

  const LockSuffix: string := ".lock"

  predicate IsLockName(name: string) {
    EndsWith(name, LockSuffix)
  }

  /** The lock file `stop_session` and `cleanup_stale_sessions` remove. */
  function LockName(session: SessionInfo): string {
    session.sessionId + LockSuffix
  }

  /** A listing names every file of the directory exactly once. */
  ghost predicate Enumerates(listing: seq<string>, files: map<string, Option<SessionInfo>>) {
    && (forall n :: n in listing <==> n in files)
    && (forall i, j :: 0 <= i < j < |listing| ==> listing[i] != listing[j])
  }

  /** A non-empty listing names a file of the directory. */
  lemma FirstListed(listing: seq<string>, files: map<string, Option<SessionInfo>>)
    requires Enumerates(listing, files)
    ensures listing != [] ==> listing[0] in files
  {
  }

  /** The session a directory entry describes: a `.lock` name that parses. */
  function LockEntry(name: string, files: map<string, Option<SessionInfo>>): Option<SessionInfo> {
    if name in files && IsLockName(name) then files[name] else None
  }

  /** What one listed entry adds to `discover_sessions`' list: its session, when it
      is a parsed lock file of an active session. */
  function LiveContribution(name: string, files: map<string, Option<SessionInfo>>, live: Liveness): seq<SessionInfo> {
    match LockEntry(name, files)
    case Some(s) => if Active(s, live) then [s] else []
    case None => []
  }

  /** What one listed entry adds to `list_all_sessions`' list. */
  function AllContribution(name: string, files: map<string, Option<SessionInfo>>, live: Liveness): seq<(SessionInfo, bool)> {
    match LockEntry(name, files)
    case Some(s) => [(s, Active(s, live))]
    case None => []
  }

  /** The sessions of the listed entries, in listing order, that pass the liveness
      check: what `discover_sessions` pushes before sorting. */
  function LiveSessions(listing: seq<string>, files: map<string, Option<SessionInfo>>, live: Liveness): seq<SessionInfo>
    decreases |listing|
  {
    if listing == [] then []
    else LiveSessions(listing[..|listing| - 1], files, live) + LiveContribution(listing[|listing| - 1], files, live)
  }

  /** Every parsed session of the listing with its liveness: what
      `list_all_sessions` pushes before sorting. */
  function AllSessions(listing: seq<string>, files: map<string, Option<SessionInfo>>, live: Liveness): seq<(SessionInfo, bool)>
    decreases |listing|
  {
    if listing == [] then []
    else AllSessions(listing[..|listing| - 1], files, live) + AllContribution(listing[|listing| - 1], files, live)
  }

  lemma LiveSessionsOfPrefix(listing: seq<string>, i: nat, files: map<string, Option<SessionInfo>>, live: Liveness)
    requires i < |listing|
    ensures LiveSessions(listing[..i + 1], files, live) == LiveSessions(listing[..i], files, live) + LiveContribution(listing[i], files, live)
  {
    assert listing[..i + 1][..i] == listing[..i];
  }

  lemma AllSessionsOfPrefix(listing: seq<string>, i: nat, files: map<string, Option<SessionInfo>>, live: Liveness)
    requires i < |listing|
    ensures AllSessions(listing[..i + 1], files, live) == AllSessions(listing[..i], files, live) + AllContribution(listing[i], files, live)
  {
    assert listing[..i + 1][..i] == listing[..i];
  }

  /** The entries `discover_sessions` deletes: parsed lock files of inactive
      sessions. */
  predicate Stale(name: string, files: map<string, Option<SessionInfo>>, live: Liveness) {
    LockEntry(name, files).Some? && !Active(LockEntry(name, files).value, live)
  }

  /** The directory `cur` once `discover_sessions` has visited the first `i`
      listed entries of the directory `dir`: each visited entry is deleted exactly
      when it is stale, the entries still to visit are all there, and nothing else
      changes. */
  ghost predicate ScannedUpTo(listing: seq<string>, i: nat, dir: map<string, Option<SessionInfo>>,
                              cur: map<string, Option<SessionInfo>>, live: Liveness)
    requires i <= |listing|
  {
    && (forall j :: 0 <= j < i ==> (listing[j] in cur <==> !Stale(listing[j], dir, live)))
    && (forall j :: i <= j < |listing| ==> listing[j] in cur)
    && (forall n :: n in cur ==> n in dir && cur[n] == dir[n])
  }

  /** Visiting the next entry: it is still there with its original contents, and
      deleting it when stale extends the scan by one entry. */
  lemma ScanStep(listing: seq<string>, i: nat, dir: map<string, Option<SessionInfo>>,
                 cur: map<string, Option<SessionInfo>>, next: map<string, Option<SessionInfo>>, live: Liveness)
    requires i < |listing| && Enumerates(listing, dir) && ScannedUpTo(listing, i, dir, cur, live)
    requires next == cur - (if Stale(listing[i], cur, live) then {listing[i]} else {})
    ensures listing[i] in cur && LockEntry(listing[i], cur) == LockEntry(listing[i], dir)
    ensures Stale(listing[i], cur, live) == Stale(listing[i], dir, live)
    ensures LiveContribution(listing[i], cur, live) == LiveContribution(listing[i], dir, live)
    ensures ScannedUpTo(listing, i + 1, dir, next, live)
  {
    assert LockEntry(listing[i], cur) == LockEntry(listing[i], dir);
    forall j | 0 <= j < i + 1
      ensures listing[j] in next <==> !Stale(listing[j], dir, live)
    {
      if j < i {
        assert listing[j] != listing[i];
      }
    }
  }

  /** A finished scan deleted exactly the stale files of the directory. */
  lemma ScanDone(listing: seq<string>, dir: map<string, Option<SessionInfo>>,
                 cur: map<string, Option<SessionInfo>>, live: Liveness)
    requires Enumerates(listing, dir) && ScannedUpTo(listing, |listing|, dir, cur, live)
    ensures forall n :: n in cur <==> n in dir && !Stale(n, dir, live)
    ensures forall n :: n in cur ==> cur[n] == dir[n]
  {
    forall n | n in dir
      ensures n in cur <==> !Stale(n, dir, live)
    {
      var j :| 0 <= j < |listing| && listing[j] == n;
    }
  }

  /** A session is returned exactly when some listed `.lock` entry parses to it and
      it is active. */
  lemma {:induction false} LiveSessionsExactly(listing: seq<string>, files: map<string, Option<SessionInfo>>,
                                               live: Liveness, s: SessionInfo)
    ensures s in LiveSessions(listing, files, live)
            <==> exists i :: 0 <= i < |listing| && LockEntry(listing[i], files) == Some(s) && Active(s, live)
    decreases |listing|
  {
    if listing != [] {
      var n := |listing| - 1;
      var init := listing[..n];
      LiveSessionsExactly(init, files, live, s);
      assert s in LiveContribution(listing[n], files, live) <==> LockEntry(listing[n], files) == Some(s) && Active(s, live);
      if exists i :: 0 <= i < |listing| && LockEntry(listing[i], files) == Some(s) && Active(s, live) {
        var i :| 0 <= i < |listing| && LockEntry(listing[i], files) == Some(s) && Active(s, live);
        if i < n {
          assert init[i] == listing[i];
        }
      }
    }
  }

  // Sorting: `sort_by(|a, b| key(b).cmp(&key(a)))` is Rust's stable sort in
  // descending key order, modelled as a stable insertion sort.

  predicate SortedDesc<T>(s: seq<T>, key: T -> nat) {
    forall i, j :: 0 <= i < j < |s| ==> key(s[i]) >= key(s[j])
  }

  /** Inserts `x` before the first element whose key is not larger, so an element
      inserted later (one that came earlier in the input) precedes equal keys. */
  function Insert<T>(x: T, t: seq<T>, key: T -> nat): (r: seq<T>)
    ensures |r| == |t| + 1
    ensures multiset(r) == multiset([x] + t)
  {
    if t == [] || key(x) >= key(t[0]) then [x] + t
    else
      assert t == [t[0]] + t[1..];
      [t[0]] + Insert(x, t[1..], key)
  }

  /** Inserting into a sorted list keeps it sorted. */
  lemma {:induction false} InsertSorted<T>(x: T, t: seq<T>, key: T -> nat)
    requires SortedDesc(t, key)
    ensures SortedDesc(Insert(x, t, key), key)
    ensures Insert(x, t, key)[0] == x || Insert(x, t, key)[0] == t[0]
  {
    if t != [] && key(x) < key(t[0]) {
      var rest := Insert(x, t[1..], key);
      InsertSorted(x, t[1..], key);
      assert t[1..] != [] ==> key(t[0]) >= key(t[1]);
      assert key(t[0]) >= key(rest[0]);
      var r := [t[0]] + rest;
      forall i, j | 0 <= i < j < |r| ensures key(r[i]) >= key(r[j]) {
        if i > 0 {
          assert r[i] == rest[i - 1] && r[j] == rest[j - 1];
        } else {
          assert r[j] == rest[j - 1];
          assert j - 1 == 0 || key(rest[0]) >= key(rest[j - 1]);
        }
      }
    }
  }

  function SortByKeyDesc<T>(s: seq<T>, key: T -> nat): (r: seq<T>)
    ensures multiset(r) == multiset(s)
    ensures SortedDesc(r, key)
  {
    if s == [] then []
    else
      assert s == [s[0]] + s[1..];
      var sorted := SortByKeyDesc(s[1..], key);
      InsertSorted(s[0], sorted, key);
      Insert(s[0], sorted, key)
  }

  /** The elements whose key is `k`, in order. */
  function WithKey<T>(s: seq<T>, key: T -> nat, k: nat): seq<T> {
    if s == [] then [] else (if key(s[0]) == k then [s[0]] else []) + WithKey(s[1..], key, k)
  }

  lemma {:induction false} WithKeyInsert<T>(x: T, t: seq<T>, key: T -> nat, k: nat)
    ensures WithKey(Insert(x, t, key), key, k) == (if key(x) == k then [x] else []) + WithKey(t, key, k)
  {
    var xs: seq<T> := if key(x) == k then [x] else [];
    if t == [] || key(x) >= key(t[0]) {
      assert Insert(x, t, key) == [x] + t;
      WithKeyCons(x, t, key, k);
    } else {
      var rest := Insert(x, t[1..], key);
      assert Insert(x, t, key) == [t[0]] + rest;
      var ts: seq<T> := if key(t[0]) == k then [t[0]] else [];
      WithKeyInsert(x, t[1..], key, k);
      WithKeyCons(t[0], rest, key, k);
      WithKeyCons(t[0], t[1..], key, k);
      assert [t[0]] + t[1..] == t;
      SwapAroundEmpty(ts, xs, WithKey(t[1..], key, k));
    }
  }

  lemma SwapAroundEmpty<T>(a: seq<T>, b: seq<T>, c: seq<T>)
    requires a == [] || b == []
    ensures a + (b + c) == b + (a + c)
  {
    if a == [] {
      assert a + (b + c) == b + c && a + c == c;
    } else {
      assert b + (a + c) == a + c && b + c == c;
    }
  }

  lemma WithKeyCons<T>(x: T, t: seq<T>, key: T -> nat, k: nat)
    ensures WithKey([x] + t, key, k) == (if key(x) == k then [x] else []) + WithKey(t, key, k)
  {
    assert ([x] + t)[0] == x && ([x] + t)[1..] == t;
  }

  /** The sort is stable: elements with equal keys keep their input order, so there
      is no tie-breaker beyond the position in the input. */
  lemma {:induction false} SortIsStable<T>(s: seq<T>, key: T -> nat, k: nat)
    ensures WithKey(SortByKeyDesc(s, key), key, k) == WithKey(s, key, k)
  {
    if s != [] {
      SortIsStable(s[1..], key, k);
      WithKeyInsert(s[0], SortByKeyDesc(s[1..], key), key, k);
    }
  }

  /** What `discover_sessions` returns: newest first, and exactly the active
      sessions of the listed lock files. */
  lemma DiscoveredExactly(listing: seq<string>, files: map<string, Option<SessionInfo>>, live: Liveness, s: SessionInfo)
    ensures var found := SortByKeyDesc(LiveSessions(listing, files, live), StartTime);
      && SortedDesc(found, StartTime)
      && (s in found <==> exists i :: 0 <= i < |listing| && LockEntry(listing[i], files) == Some(s) && Active(s, live))
  {
    var unsorted := LiveSessions(listing, files, live);
    var found := SortByKeyDesc(unsorted, StartTime);
    assert s in found <==> s in multiset(found);
    assert s in unsorted <==> s in multiset(unsorted);
    LiveSessionsExactly(listing, files, live, s);
  }

  function StartTime(s: SessionInfo): nat {
    s.startTime
  }

  function PairStartTime(p: (SessionInfo, bool)): nat {
    p.0.startTime
  }

  /** The first session on the given port. */
  function FindByPort(sessions: seq<SessionInfo>, port: nat): (r: Option<SessionInfo>)
    ensures r.None? <==> forall i :: 0 <= i < |sessions| ==> sessions[i].port != port
    ensures r.Some? ==> exists i :: 0 <= i < |sessions| && sessions[i] == r.value && r.value.port == port
                                    && forall j :: 0 <= j < i ==> sessions[j].port != port
  {
    if sessions == [] then None
    else if sessions[0].port == port then Some(sessions[0])
    else
      var r := FindByPort(sessions[1..], port);
      assert forall i :: 1 <= i < |sessions| ==> sessions[i] == sessions[1..][i - 1];
      r
  }

  /** The session a sorted list begins with. */
  function Head(sessions: seq<SessionInfo>): (r: Option<SessionInfo>)
    ensures r.None? <==> sessions == []
    ensures r.Some? ==> r.value == sessions[0]
  {
    if sessions == [] then None else Some(sessions[0])
  }

  /** The stale `<session_id>.lock` names of a session list. */
  function StaleLockNames(sessions: seq<(SessionInfo, bool)>): set<string>
    decreases |sessions|
  {
    if sessions == [] then {}
    else
      var last := sessions[|sessions| - 1];
      StaleLockNames(sessions[..|sessions| - 1]) + (if !last.1 then {LockName(last.0)} else {})
  }

  /** The sorted list begins with a newest session, and is empty only when there
      is none. */
  lemma NewestFirst(found: seq<SessionInfo>)
    ensures var sorted := SortByKeyDesc(found, StartTime);
      && (sorted == [] <==> found == [])
      && (sorted != [] ==> sorted[0] in found && forall s :: s in found ==> s.startTime <= sorted[0].startTime)
  {
    var sorted := SortByKeyDesc(found, StartTime);
    assert multiset(sorted) == multiset(found);
    if sorted != [] {
      assert sorted[0] in multiset(found);
      forall s | s in found ensures s.startTime <= sorted[0].startTime {
        assert s in multiset(sorted);
        var k :| 0 <= k < |sorted| && sorted[k] == s;
        assert k == 0 || StartTime(sorted[0]) >= StartTime(sorted[k]);
      }
    } else {
      assert |found| == |multiset(found)| == 0;
    }
  }

  class ZekeDiscovery {
    var present: bool
    var files: map<string, Option<SessionInfo>>

    /** A missing directory has no files. */
    predicate Valid()
      reads this
    {
      !present ==> files == map[]
    }

    /** `with_session_dir`, over the directory's current contents. */
    constructor (present: bool, files: map<string, Option<SessionInfo>>)
      requires !present ==> files == map[]
      ensures Valid() && this.present == present && this.files == files
    {
      this.present := present;
      this.files := files;
    }

    /** `discover_sessions`: the active sessions described by the `.lock` files,
        newest first; every parsed lock file of an inactive session is deleted, and
        no other file is touched. A missing directory gives an empty list. */
    method DiscoverSessions(listing: seq<string>, live: Liveness) returns (r: Result<seq<SessionInfo>>)
      requires Valid() && Enumerates(listing, files)
      modifies this
      ensures Valid() && present == old(present)
      ensures r == Ok(SortByKeyDesc(LiveSessions(listing, old(files), live), StartTime))
      ensures forall n :: n in files <==> n in old(files) && !Stale(n, old(files), live)
      ensures forall n :: n in files ==> files[n] == old(files)[n]
    {
      if !present {
        FirstListed(listing, files);
        return Ok([]);
      }
      var sessions := ScanEntries(listing, live);
      r := Ok(SortByKeyDesc(sessions, StartTime));
    }

    /** The loop of `discover_sessions` over the directory entries. */
    method ScanEntries(listing: seq<string>, live: Liveness) returns (sessions: seq<SessionInfo>)
      requires Valid() && Enumerates(listing, files)
      modifies this
      ensures Valid() && present == old(present)
      ensures sessions == LiveSessions(listing, old(files), live)
      ensures forall n :: n in files <==> n in old(files) && !Stale(n, old(files), live)
      ensures forall n :: n in files ==> files[n] == old(files)[n]
    {
      sessions := [];
      var i := 0;
      while i < |listing|
        invariant 0 <= i <= |listing|
        invariant sessions == LiveSessions(listing[..i], old(files), live)
        invariant ScannedUpTo(listing, i, old(files), files, live)
        invariant Valid() && present == old(present)
      {
        var fileName := listing[i];
        LiveSessionsOfPrefix(listing, i, old(files), live);
        ghost var cur := files;
        assert listing[i] in files by {
          ScanStep(listing, i, old(files), cur, cur - (if Stale(listing[i], cur, live) then {listing[i]} else {}), live);
        }
        var found := VisitEntry(fileName, live);
        ScanStep(listing, i, old(files), cur, files, live);
        sessions := sessions + found;
        i := i + 1;
      }
      assert listing[..|listing|] == listing;
      ScanDone(listing, old(files), files, live);
    }

    /** One iteration of `discover_sessions`' loop: an active session is kept, the
        lock file of an inactive one is deleted. */
    method VisitEntry(fileName: string, live: Liveness) returns (found: seq<SessionInfo>)
      requires Valid() && fileName in files
      modifies this
      ensures Valid() && present == old(present)
      ensures found == LiveContribution(fileName, old(files), live)
      ensures files == old(files) - (if Stale(fileName, old(files), live) then {fileName} else {})
    {
      found := [];
      if EndsWith(fileName, LockSuffix) {
        match files[fileName] {
          case Some(session) =>
            if IsSessionActive(session, live).active {
              found := [session];
            } else {
              files := files - {fileName};
            }
          case None =>
        }
      }
    }

    /** `if lock_file.exists() { fs::remove_file(lock_file) }` */
    method RemoveIfExists(name: string) returns (removed: bool)
      requires Valid()
      modifies this
      ensures Valid() && present == old(present)
      ensures removed <==> name in old(files)
      ensures files == old(files) - {name} && files.Keys == old(files).Keys - {name}
    {
      removed := name in files;
      if removed {
        files := files - {name};
      }
    }

    /** `find_active_session`: the newest active session, if any. */
    method FindActiveSession(listing: seq<string>, live: Liveness) returns (r: Result<Option<SessionInfo>>)
      requires Valid() && Enumerates(listing, files)
      modifies this
      ensures Valid() && present == old(present)
      ensures forall n :: n in files <==> n in old(files) && !Stale(n, old(files), live)
      ensures forall n :: n in files ==> files[n] == old(files)[n]
      ensures r == Ok(Head(SortByKeyDesc(LiveSessions(listing, old(files), live), StartTime)))
      ensures r.Ok? && (r.value.None? <==> LiveSessions(listing, old(files), live) == [])
      ensures r.Ok? && r.value.Some? ==>
        && r.value.value in LiveSessions(listing, old(files), live)
        && forall s :: s in LiveSessions(listing, old(files), live) ==> s.startTime <= r.value.value.startTime
    {
      var sessions := DiscoverSessions(listing, live);
      NewestFirst(LiveSessions(listing, old(files), live));
      r := Ok(Head(sessions.value));
    }

    /** `ensure_connection`: an existing active session is returned and no process
        is started (`launched` is false); otherwise the outcome of starting a new
        command-line instance is returned. */
    method EnsureConnection(listing: seq<string>, live: Liveness, started: Result<SessionInfo>)
      returns (r: Result<SessionInfo>, launched: bool)
      requires Valid() && Enumerates(listing, files)
      modifies this
      ensures Valid() && present == old(present)
      ensures forall n :: n in files <==> n in old(files) && !Stale(n, old(files), live)
      ensures launched <==> LiveSessions(listing, old(files), live) == []
      ensures launched ==> r == started
      ensures !launched ==>
        && r.Ok? && r.value in LiveSessions(listing, old(files), live)
        && forall s :: s in LiveSessions(listing, old(files), live) ==> s.startTime <= r.value.startTime
    {
      var active := FindActiveSession(listing, live);
      if active.value.Some? {
        return Ok(active.value.value), false;
      }
      r, launched := started, true;
    }

    /** `find_session_by_port`: the newest active session on that port. */
    method FindSessionByPort(listing: seq<string>, live: Liveness, port: nat) returns (r: Result<Option<SessionInfo>>)
      requires Valid() && Enumerates(listing, files)
      modifies this
      ensures Valid() && present == old(present)
      ensures forall n :: n in files <==> n in old(files) && !Stale(n, old(files), live)
      ensures r == Ok(FindByPort(SortByKeyDesc(LiveSessions(listing, old(files), live), StartTime), port))
    {
      var sessions := DiscoverSessions(listing, live);
      r := Ok(FindByPort(sessions.value, port));
    }

    /** `stop_session`: a graceful shutdown first; the process is killed only when
        that fails, and a failed kill is returned before any file is touched.
        Otherwise `<session_id>.lock` is removed when it exists, and a missing file
        is no error. */
    method StopSession(session: SessionInfo, graceful: Outcome, kill: Outcome) returns (r: Outcome, killed: bool)
      requires Valid()
      modifies this
      ensures Valid() && present == old(present)
      ensures killed <==> graceful.Err?
      ensures killed && kill.Err? ==> r == Err(kill.error) && files == old(files)
      ensures !(killed && kill.Err?) ==> r == Done && files == old(files) - {LockName(session)}
    {
      killed := false;
      if graceful.Err? {
        killed := true;
        if kill.Err? {
          return Err(kill.error), killed;
        }
      }
      var lockFile := session.sessionId + LockSuffix;
      var _ := RemoveIfExists(lockFile);
      r := Done;
    }

    /** `list_all_sessions`: every parsed `.lock` entry with its liveness, newest
        first; nothing is deleted. */
    method ListAllSessions(listing: seq<string>, live: Liveness) returns (r: Result<seq<(SessionInfo, bool)>>)
      requires Valid() && Enumerates(listing, files)
      ensures r == Ok(SortByKeyDesc(AllSessions(listing, files, live), PairStartTime))
    {
      if !present {
        return Ok([]);
      }
      var sessions := [];
      var i := 0;
      while i < |listing|
        invariant 0 <= i <= |listing|
        invariant sessions == AllSessions(listing[..i], files, live)
      {
        var fileName := listing[i];
        AllSessionsOfPrefix(listing, i, files, live);
        if EndsWith(fileName, LockSuffix) {
          match files[fileName] {
            case Some(session) =>
              var isActive := IsSessionActive(session, live).active;
              sessions := sessions + [(session, isActive)];
            case None =>
          }
        }
        i := i + 1;
      }
      assert listing[..|listing|] == listing;
      r := Ok(SortByKeyDesc(sessions, PairStartTime));
    }

    /** `cleanup_stale_sessions`: removes `<session_id>.lock` of every inactive
        session, when that file exists, and counts the files removed. */
    method CleanupStaleSessions(listing: seq<string>, live: Liveness) returns (r: Result<nat>)
      requires Valid() && Enumerates(listing, files)
      modifies this
      ensures Valid() && present == old(present)
      ensures var stale := StaleLockNames(SortByKeyDesc(AllSessions(listing, old(files), live), PairStartTime));
        && files.Keys == old(files).Keys - stale
        && (forall n :: n in files ==> files[n] == old(files)[n])
        && r == Ok(|old(files).Keys * stale|)
    {
      var sessions := ListAllSessions(listing, live);
      var cleaned := RemoveStaleLocks(sessions.value);
      r := Ok(cleaned);
    }

    /** The loop of `cleanup_stale_sessions` over the listed sessions. */
    method RemoveStaleLocks(all: seq<(SessionInfo, bool)>) returns (cleaned: nat)
      requires Valid()
      modifies this
      ensures Valid() && present == old(present)
      ensures files.Keys == old(files).Keys - StaleLockNames(all)
      ensures forall n :: n in files ==> files[n] == old(files)[n]
      ensures cleaned == |old(files).Keys * StaleLockNames(all)|
    {
      cleaned := 0;
      var i := 0;
      while i < |all|
        invariant 0 <= i <= |all|
        invariant Valid() && present == old(present)
        invariant Removed(old(files), files, StaleLockNames(all[..i]), cleaned)
      {
        var (session, isActive) := all[i];
        StaleLockNamesOfPrefix(all, i);
        if !isActive {
          var lockFile := LockName(session);
          ghost var cur := files;
          var removed := RemoveIfExists(lockFile);
          RemovedStep(old(files), cur, files, StaleLockNames(all[..i]), lockFile, cleaned, removed);
          if removed {
            cleaned := cleaned + 1;
          }
        }
        i := i + 1;
      }
      assert all[..|all|] == all;
    }
  }

  lemma StaleLockNamesOfPrefix(sessions: seq<(SessionInfo, bool)>, i: nat)
    requires i < |sessions|
    ensures sessions[i].1 ==> StaleLockNames(sessions[..i + 1]) == StaleLockNames(sessions[..i])
    ensures !sessions[i].1 ==> StaleLockNames(sessions[..i + 1]) == StaleLockNames(sessions[..i]) + {LockName(sessions[i].0)}
  {
    assert sessions[..i + 1][..i] == sessions[..i];
  }

  /** The directory `cur` once the lock files named in `gone` have been removed
      from `dir`, `count` of them having been there. */
  ghost predicate Removed(dir: map<string, Option<SessionInfo>>, cur: map<string, Option<SessionInfo>>,
                          gone: set<string>, count: nat)
  {
    && cur.Keys == dir.Keys - gone
    && (forall n :: n in cur ==> cur[n] == dir[n])
    && count == |dir.Keys * gone|
  }

  /** One removal in `cleanup_stale_sessions`: the count grows exactly when the
      file was still there. */
  lemma RemovedStep(dir: map<string, Option<SessionInfo>>, cur: map<string, Option<SessionInfo>>,
                    next: map<string, Option<SessionInfo>>, gone: set<string>, name: string, count: nat, removed: bool)
    requires Removed(dir, cur, gone, count)
    requires next == cur - {name} && next.Keys == cur.Keys - {name} && (removed <==> name in cur)
    ensures Removed(dir, next, gone + {name}, count + (if removed then 1 else 0))
  {
    CountStep(dir.Keys, gone, name);
  }

  /** Adding a name to the removed set adds one removal exactly when the name was
      present and not removed yet. */
  lemma CountStep(keys: set<string>, before: set<string>, name: string)
    ensures |keys * (before + {name})| == |keys * before| + (if name in keys - before then 1 else 0)
  {
    if name in keys - before {
      assert keys * (before + {name}) == (keys * before) + {name};
    } else {
      assert keys * (before + {name}) == keys * before;
    }
  }
}
