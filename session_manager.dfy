/**
 * The session back end (backend/src/services/session_manager/__init__.py):
 * the in-memory session registry with its cap of five live sessions and lazy
 * expiry, per-session workspaces, quota arithmetic, chunked streaming I/O, the
 * busy-file tracker and deferred teardown.
 */
module Sessions {
  import opened Wrappers
  import opened Storage
  import Clock
  import W = Workflow
  import P = Progress

  const MaxConcurrentSessions: nat := 5
  /** 100 MiB per session. */
  const MaxSessionStorage: nat := 100 * 1024 * 1024
  /** 1 GiB over the whole storage root. */
  const MaxTotalStorage: nat := 1024 * 1024 * 1024
  /** 1 MiB per read or write. */
  const StreamingChunkSize: nat := 1024 * 1024
  /** `cleanup_with_grace_period`'s default wait, 5 minutes, in clock units. */
  const GracePeriod: int := 5 * 60 * Clock.MicrosPerSecond

  /** The exception classes the manager raises, by kind. */
  datatype ManagerError =
    | SessionNotFound
    | SessionStorage
    | ConcurrencyLimit
    | StorageQuotaExceeded

  /** A teardown check scheduled by `cleanup_with_grace_period`, due once the grace period has passed. */
  datatype DeferredCleanup = DeferredCleanup(sessionId: string, due: int)

  /** The subdirectories `_create_session_workspace` creates, in its order. */
  const WorkspaceLayout: seq<Path> := [
    ["metadata"], ["files", "audio", "original"], ["files", "audio", "processed"],
    ["files", "pdfs"], ["files", "generated", "scripts"], ["files", "generated", "audio"],
    ["temp"], ["logs"], ["metadata", "locks"]]

  /** The directories that creating each of `subdirs` under `base` (with parents) leaves behind. */
  function LayoutDirs(base: Path, subdirs: seq<Path>): set<Path>
    decreases |subdirs|
  {
    if subdirs == [] then {}
    else LayoutDirs(base, subdirs[..|subdirs| - 1]) + Prefixes(base + subdirs[|subdirs| - 1])
  }

  lemma {:induction false} LayoutDirsContain(base: Path, subdirs: seq<Path>, k: nat)
    requires k < |subdirs|
    ensures Prefixes(base + subdirs[k]) <= LayoutDirs(base, subdirs)
    decreases |subdirs|
  {
    if k < |subdirs| - 1 {
      var front := subdirs[..|subdirs| - 1];
      assert front[k] == subdirs[k];
      LayoutDirsContain(base, front, k);
    }
  }

  /** A workspace includes the session directory itself. */
  lemma WorkspaceHoldsSessionDir(sp: Path)
    requires |sp| > 0
    ensures sp in LayoutDirs(sp, WorkspaceLayout)
  {
    LayoutDirsContain(sp, WorkspaceLayout, 0);
    assert (sp + WorkspaceLayout[0])[..|sp|] == sp;
  }

  /** `_get_session_path`. */
  function SessionPath(root: Path, id: string): (p: Path)
    ensures Under(root, p) && Parent(p) == root + ["sessions"] && Basename(p) == id
  {
    root + ["sessions", id]
  }

  /** Where `_save_session_metadata` writes the session record. */
  function MetadataPath(root: Path, id: string): (m: Path)
    ensures Under(SessionPath(root, id), m)
    ensures Parent(m) == SessionPath(root, id) + ["metadata"] && Basename(m) == "session.json"
  {
    SessionPath(root, id) + ["metadata", "session.json"]
  }

  /** The destination `save_large_file` computes. */
  function FilePath(root: Path, id: string, fileType: Path, filename: string): (f: Path)
    ensures Under(SessionPath(root, id) + ["files"], f)
    ensures Parent(f) == SessionPath(root, id) + ["files"] + fileType && Basename(f) == filename
  {
    SessionPath(root, id) + ["files"] + fileType + [filename]
  }

  /** `_resolve_file_path`. */
  function ResolveFilePath(root: Path, id: string, relative: Path): (full: Path)
    ensures |relative| > 0 ==> Under(SessionPath(root, id) + ["files"], full)
    ensures |full| == |SessionPath(root, id)| + 1 + |relative|
    ensures full[..|SessionPath(root, id)| + 1] == SessionPath(root, id) + ["files"]
    ensures full[|SessionPath(root, id)| + 1..] == relative
  {
    SessionPath(root, id) + ["files"] + relative
  }

  /** `Path(p).name`. */
  function Basename(p: Path): string
  {
    if |p| == 0 then "" else p[|p| - 1]
  }

  /** The lock file for a file named `name`: keyed by name alone, under `metadata/locks`. */
  function LockPath(root: Path, id: string, name: string): (lock: Path)
    ensures Parent(lock) == SessionPath(root, id) + ["metadata", "locks"]
    ensures Basename(lock) == name + ".lock"
  {
    SessionPath(root, id) + ["metadata", "locks", name + ".lock"]
  }

  /** Distinct file names get distinct locks. */
  lemma LockPathInjective(root: Path, id: string, a: string, b: string)
    ensures LockPath(root, id, a) == LockPath(root, id, b) ==> a == b
  {
    if LockPath(root, id, a) == LockPath(root, id, b) {
      assert a + ".lock" == b + ".lock";
      assert (a + ".lock")[..|a|] == a;
      assert (b + ".lock")[..|b|] == b;
    }
  }

  /**
   * `save_large_file` and `get_file_stream` agree on a file: the path the
   * reader resolves for `fileType/filename` is the path the writer wrote, and
   * the reader's lock, keyed by that path's basename, is the writer's lock.
   * Files of the same name in different directories therefore share one lock.
   */
  lemma ReaderAndWriterShareLock(root: Path, id: string, fileType: Path, filename: string)
    ensures ResolveFilePath(root, id, fileType + [filename]) == FilePath(root, id, fileType, filename)
    ensures LockPath(root, id, Basename(fileType + [filename])) == LockPath(root, id, filename)
  {
  }

  /** The tag `mark_file_processing` records: `"<path>:<service>"`. */
  function BusyTag(path: string, service: string): (tag: string)
    ensures |tag| == |path| + 1 + |service|
    ensures tag[..|path|] == path && tag[|path|] == ':' && tag[|path| + 1..] == service
  {
    path + ":" + service
  }

  /** `_estimate_stream_size`: a stub that always answers 0. */
  function EstimateStreamSize(stream: Bytes): (n: int)
    ensures n == 0
  {
    0
  }

  /** `read(STREAMING_CHUNK_SIZE)` at offset `pos`: the next at most 1 MiB, empty at the end. */
  function ReadChunk(data: Bytes, pos: nat): (chunk: Bytes)
    requires pos <= |data|
    ensures |chunk| == Min(StreamingChunkSize, |data| - pos)
    ensures chunk == data[pos..pos + |chunk|]
  {
    data[pos..Min(pos + StreamingChunkSize, |data|)]
  }

  function Flatten(chunks: seq<Bytes>): Bytes
  {
    if chunks == [] then [] else chunks[0] + Flatten(chunks[1..])
  }

  /**
   * The chunks a sequence of full-size reads yields: non-empty, at most 1 MiB,
   * all but the last exactly 1 MiB, and together exactly the data.
   */
  function Chunks(data: Bytes): (r: seq<Bytes>)
    ensures Flatten(r) == data
    ensures forall i :: 0 <= i < |r| ==> 0 < |r[i]| <= StreamingChunkSize
    ensures forall i :: 0 <= i < |r| - 1 ==> |r[i]| == StreamingChunkSize
    decreases |data|
  {
    if |data| == 0 then []
    else
      var n := Min(|data|, StreamingChunkSize);
      var rest := Chunks(data[n..]);
      assert ([data[..n]] + rest)[1..] == rest;
      [data[..n]] + rest
  }

  /** The chunks from `pos` on start with the chunk read at `pos`. */
  lemma ChunksPeel(data: Bytes, pos: nat)
    requires pos < |data|
    ensures Chunks(data[pos..]) == [ReadChunk(data, pos)] + Chunks(data[pos + |ReadChunk(data, pos)|..])
  {
    var rest := data[pos..];
    var n := |ReadChunk(data, pos)|;
    assert rest[..n] == ReadChunk(data, pos);
    assert rest[n..] == data[pos + n..];
  }

  /** Reading one chunk at `pos` moves the first of the remaining chunks to the ones read. */
  lemma ChunksStep(data: Bytes, pos: nat, done: seq<Bytes>)
    requires pos < |data|
    requires done + Chunks(data[pos..]) == Chunks(data)
    ensures (done + [ReadChunk(data, pos)]) + Chunks(data[pos + |ReadChunk(data, pos)|..]) == Chunks(data)
  {
    ChunksPeel(data, pos);
    ConcatAssoc(done, [ReadChunk(data, pos)], Chunks(data[pos + |ReadChunk(data, pos)|..]));
  }

  /** Once every byte is read, the chunks read are all the chunks. */
  lemma ChunksDone(data: Bytes, done: seq<Bytes>)
    requires done + Chunks(data[|data|..]) == Chunks(data)
    ensures done == Chunks(data)
  {
    assert data[|data|..] == [];
    assert done + [] == done;
  }

  lemma ConcatAssoc<T>(a: seq<T>, b: seq<T>, c: seq<T>)
    ensures a + (b + c) == (a + b) + c
  {
  }

  lemma UpdateTwice<K, V>(m: map<K, V>, k: K, first: V, second: V)
    ensures m[k := first][k := second] == m[k := second]
  {
  }

  lemma RemoveAfterUpdate<K, V>(m: map<K, V>, k: K, v: V)
    ensures m[k := v] - {k} == m - {k}
  {
  }

  lemma RemoveAbsent<K, V>(m: map<K, V>, k: K)
    ensures k !in m ==> m - {k} == m
  {
  }

  class EnhancedSessionManager {
    const root: Path
    const fs: FileSystem
    /** The JSON text `to_dict` plus `json.dump` produce for a session record. */
    const encode: W.SessionRecord -> Bytes
    var activeSessions: map<string, W.TutorialSession>
    var sessionData: map<string, P.SessionData>
    /**
     * `processing_files`; a missing key reads as the empty set, as with
     * `defaultdict(set)`.  The empty entry such a read inserts is left out,
     * since no caller can tell it from a missing key.
     */
    var processingFiles: map<string, set<string>>
    /** The deferred teardown checks started and not yet run. */
    var scheduled: multiset<DeferredCleanup>

    ghost predicate Valid()
      reads this, fs
    {
      && fs.Valid()
      && |root| > 0
      && (forall id :: id in activeSessions ==> activeSessions[id].id == id)
      && activeSessions.Keys <= sessionData.Keys
      && |activeSessions| <= MaxConcurrentSessions
    }

    constructor (root: Path, fs: FileSystem, encode: W.SessionRecord -> Bytes)
      requires fs.Valid() && |root| > 0
      modifies fs
      ensures Valid()
      ensures this.root == root && this.fs == fs && this.encode == encode
      ensures activeSessions == map[] && sessionData == map[] && processingFiles == map[] && scheduled == multiset{}
      ensures fs.dirs == old(fs.dirs) + Prefixes(root) && fs.files == old(fs.files)
    {
      this.root := root;
      this.fs := fs;
      this.encode := encode;
      activeSessions := map[];
      sessionData := map[];
      processingFiles := map[];
      scheduled := multiset{};
      new;
      fs.MakeDirs(root);
    }

    /** `processing_files[id]`, read through the `defaultdict`: a missing session has no busy files. */
    function BusyTags(id: string): (tags: set<string>)
      reads this
      ensures id !in processingFiles ==> tags == {}
      ensures id in processingFiles ==> tags == processingFiles[id]
    {
      if id in processingFiles then processingFiles[id] else {}
    }

    /** `can_cleanup_session`: no file of the session is marked busy. */
    predicate CanCleanupSession(id: string)
      reads this
      ensures CanCleanupSession(id) <==> id !in processingFiles || processingFiles[id] == {}
    {
      BusyTags(id) == {}
    }

    twostate predicate TablesUnchanged()
      reads this
    {
      && activeSessions == old(activeSessions)
      && sessionData == old(sessionData)
      && processingFiles == old(processingFiles)
      && scheduled == old(scheduled)
    }

    twostate predicate FilesUnchanged()
      reads this, fs
    {
      fs.files == old(fs.files) && fs.dirs == old(fs.dirs)
    }

    /** The workspace of `id` is deleted if it exists. */
    twostate predicate WorkspaceRemoved(id: string)
      reads this, fs
    {
      var sp := SessionPath(root, id);
      if old(sp in fs.dirs) then
        fs.files == FilesOutside(old(fs.files), sp) && fs.dirs == DirsOutside(old(fs.dirs), sp)
      else
        fs.files == old(fs.files) && fs.dirs == old(fs.dirs)
    }

    /**
     * What `end_session(id)` at time `now` does: with busy files it only
     * schedules a deferred check; otherwise it drops `id` from all three tables
     * and deletes the workspace.
     */
    twostate predicate Ended(id: string, now: int)
      reads this, fs
    {
      if old(BusyTags(id)) != {} then
        && activeSessions == old(activeSessions)
        && sessionData == old(sessionData)
        && processingFiles == old(processingFiles)
        && scheduled == old(scheduled) + multiset{DeferredCleanup(id, now + GracePeriod)}
        && fs.files == old(fs.files) && fs.dirs == old(fs.dirs)
      else
        && activeSessions == old(activeSessions) - {id}
        && sessionData == old(sessionData) - {id}
        && processingFiles == old(processingFiles) - {id}
        && scheduled == old(scheduled)
        && WorkspaceRemoved(id)
    }

    /** `create_session`; `id` and `now` stand for `uuid4()` and `datetime.now()`. */
    method CreateSession(id: string, now: int, preferences: Option<W.PreferencesInput>, userAgent: string)
      returns (r: Result<string, ManagerError>)
      requires Valid()
      requires id !in activeSessions && id !in sessionData
      modifies this, fs
      ensures Valid()
      ensures old(|activeSessions|) >= MaxConcurrentSessions ==>
        r == Failure(ConcurrencyLimit) && TablesUnchanged() && FilesUnchanged()
      ensures old(|activeSessions|) < MaxConcurrentSessions ==> r == Success(id)
      ensures r.Success? ==>
        && id in activeSessions && id in sessionData
        && activeSessions == old(activeSessions)[id := activeSessions[id]]
        && sessionData == old(sessionData)[id := sessionData[id]]
        && processingFiles == old(processingFiles) && scheduled == old(scheduled)
      ensures r.Success? ==>
        var s := activeSessions[id];
        && fresh(s) && s.state == W.Initial && s.userAgent == userAgent
        && s.createdAt == now && s.lastUpdated == now && s.expiresAt == now + Clock.Hours(W.DefaultTimeoutHours)
        && s.preferences == W.ParsePreferences(preferences)
        && s.workspacePath == Some(SessionPath(root, id))
      ensures r.Success? ==>
        var d := sessionData[id];
        && fresh(d) && d.progressPercentage == 0 && d.errorLog == [] && d.processingStatus == null
        && d.currentStep == "Session initialized"
      ensures r.Success? ==>
        && fs.dirs == old(fs.dirs) + LayoutDirs(SessionPath(root, id), WorkspaceLayout)
                                  + Prefixes(SessionPath(root, id) + ["metadata"])
        && fs.files == old(fs.files)[MetadataPath(root, id) := encode(activeSessions[id].ToRecord())]
    {
      if |activeSessions| >= MaxConcurrentSessions {
        return Failure(ConcurrencyLimit);
      }
      var session := new W.TutorialSession.CreateNew(id, now, userAgent, preferences, W.DefaultTimeoutHours);
      var workspace := CreateSessionWorkspace(id);
      session.workspacePath := Some(workspace);
      var data := new P.SessionData();
      Register(session, data);
      SaveSessionMetadata(session);
      return Success(id);
    }

    /** Enter a new session and its data into the tables. */
    method Register(session: W.TutorialSession, data: P.SessionData)
      requires Valid() && session.id !in activeSessions && |activeSessions| < MaxConcurrentSessions
      modifies this
      ensures Valid()
      ensures activeSessions == old(activeSessions)[session.id := session]
      ensures sessionData == old(sessionData)[session.id := data]
      ensures processingFiles == old(processingFiles) && scheduled == old(scheduled)
    {
      activeSessions := activeSessions[session.id := session];
      sessionData := sessionData[session.id := data];
    }

    /**
     * `get_session`.  Nothing is ever reloaded from disk (the loader is a stub
     * that always fails), so an absent id is not found; an expired session is
     * ended first and then reported as not found.
     */
    method GetSession(id: string, now: int) returns (r: Result<W.TutorialSession, ManagerError>)
      requires Valid()
      modifies this, fs
      ensures Valid()
      ensures id !in old(activeSessions) ==> r == Failure(SessionNotFound) && TablesUnchanged() && FilesUnchanged()
      ensures id in old(activeSessions) && old(activeSessions[id].IsExpired(now)) ==>
        r == Failure(SessionNotFound) && Ended(id, now)
      ensures id in old(activeSessions) && !old(activeSessions[id].IsExpired(now)) ==>
        r == Success(old(activeSessions[id])) && TablesUnchanged() && FilesUnchanged()
    {
      if id !in activeSessions {
        return Failure(SessionNotFound);
      }
      var session := activeSessions[id];
      if session.IsExpired(now) {
        var _ := EndSession(id, now);
        return Failure(SessionNotFound);
      }
      return Success(session);
    }

    /**
     * `update_session_state`: true iff the session is found, unexpired, and
     * the edge is legal; a false answer leaves the stored state alone.
     */
    method UpdateSessionState(id: string, newState: W.WorkflowState, now: int) returns (ok: bool)
      requires Valid()
      modifies this, fs, if id in activeSessions && !activeSessions[id].IsExpired(now) then {activeSessions[id]} else {}
      ensures Valid()
      ensures ok <==>
        && id in old(activeSessions)
        && !old(activeSessions[id].IsExpired(now))
        && W.IsValidTransition(old(activeSessions[id].state), newState)
      ensures id !in old(activeSessions) ==> TablesUnchanged() && FilesUnchanged()
      ensures id in old(activeSessions) && old(activeSessions[id].IsExpired(now)) ==>
        Ended(id, now) && old(activeSessions[id]).state == old(activeSessions[id].state)
      ensures id in old(activeSessions) && !old(activeSessions[id].IsExpired(now)) ==>
        var s := old(activeSessions[id]);
        && TablesUnchanged()
        && s.expiresAt == old(s.expiresAt) && s.createdAt == old(s.createdAt)
        && s.userAgent == old(s.userAgent) && s.preferences == old(s.preferences)
        && s.workspacePath == old(s.workspacePath)
        && (ok ==> s.state == newState && s.lastUpdated == now)
        && (ok ==> fs.files == old(fs.files)[MetadataPath(root, id) := encode(s.ToRecord())])
        && (ok ==> fs.dirs == old(fs.dirs) + Prefixes(SessionPath(root, id) + ["metadata"]))
        && (!ok ==> s.state == old(s.state) && s.lastUpdated == old(s.lastUpdated) && FilesUnchanged())
    {
      var found := GetSession(id, now);
      if found.Failure? {
        return false;
      }
      var session := found.value;
      var legal := session.UpdateState(newState, now);
      if !legal {
        return false;
      }
      SaveSessionMetadata(session);
      return true;
    }

    /**
     * `end_session`: always answers true.  With busy files the tables and the
     * files stay as they are and a deferred check is scheduled; otherwise the
     * session leaves all three tables and its workspace is deleted.
     */
    method EndSession(id: string, now: int) returns (ok: bool)
      requires Valid()
      modifies this, fs
      ensures Valid()
      ensures ok
      ensures Ended(id, now)
    {
      if !CanCleanupSession(id) {
        CleanupWithGracePeriod(id, now);
        return true;
      }
      activeSessions := activeSessions - {id};
      sessionData := sessionData - {id};
      processingFiles := processingFiles - {id};
      assert activeSessions.Keys <= old(activeSessions.Keys);
      ok := CleanupSessionFiles(id, false);
    }

    /** `create_workspace`: reuse an existing workspace, otherwise create it and record it on the session. */
    method CreateWorkspace(id: string, now: int) returns (r: Result<Path, ManagerError>)
      requires Valid()
      modifies this, fs, if id in activeSessions && !activeSessions[id].IsExpired(now) then {activeSessions[id]} else {}
      ensures Valid()
      ensures id !in old(activeSessions) ==> r == Failure(SessionNotFound) && TablesUnchanged() && FilesUnchanged()
      ensures id in old(activeSessions) && old(activeSessions[id].IsExpired(now)) ==>
        r == Failure(SessionNotFound) && Ended(id, now)
      ensures id in old(activeSessions) && !old(activeSessions[id].IsExpired(now)) ==>
        var s := old(activeSessions[id]);
        var previous := old(s.workspacePath);
        && TablesUnchanged() && fs.files == old(fs.files) && r.Success?
        && s.state == old(s.state) && s.expiresAt == old(s.expiresAt)
        && s.createdAt == old(s.createdAt) && s.lastUpdated == old(s.lastUpdated)
        && s.userAgent == old(s.userAgent) && s.preferences == old(s.preferences)
        && (previous.Some? && old(previous.value in fs.dirs) ==>
              r.value == previous.value && s.workspacePath == previous && fs.dirs == old(fs.dirs))
        && (!(previous.Some? && old(previous.value in fs.dirs)) ==>
              && r.value == SessionPath(root, id) && s.workspacePath == Some(r.value)
              && fs.dirs == old(fs.dirs) + LayoutDirs(r.value, WorkspaceLayout)
              && r.value in fs.dirs)
    {
      var found := GetSession(id, now);
      if found.Failure? {
        return Failure(found.error);
      }
      var session := found.value;
      if session.workspacePath.Some? && session.workspacePath.value in fs.dirs {
        return Success(session.workspacePath.value);
      }
      var workspace := CreateSessionWorkspace(id);
      WorkspaceHoldsSessionDir(workspace);
      session.workspacePath := Some(workspace);
      return Success(workspace);
    }

    /** Neither the session nor the storage root is over its ceiling. */
    ghost predicate WithinQuota(files: map<Path, Bytes>, id: string)
    {
      SizeUnder(files, SessionPath(root, id)) <= MaxSessionStorage && SizeUnder(files, root) <= MaxTotalStorage
    }

    /**
     * `save_large_file`.  The quota pre-check uses the stub estimate 0, so it
     * only refuses a session or root already over its ceiling; that is the one
     * path that reports `StorageQuotaExceeded`.  The body is then copied in
     * chunks; once more than 100 MiB of this file are written the partial file
     * is deleted and the handler re-raises the error as `SessionStorage`.
     */
    method SaveLargeFile(id: string, stream: Bytes, fileType: Path, filename: string)
      returns (r: Result<Path, ManagerError>)
      requires Valid()
      modifies fs
      ensures Valid()
      ensures !WithinQuota(old(fs.files), id) ==> r == Failure(StorageQuotaExceeded) && FilesUnchanged()
      ensures WithinQuota(old(fs.files), id) ==>
        fs.dirs == old(fs.dirs) + Prefixes(Parent(LockPath(root, id, filename)))
                                + Prefixes(Parent(FilePath(root, id, fileType, filename)))
      ensures WithinQuota(old(fs.files), id) && |stream| <= MaxSessionStorage ==>
        r == Success(FilePath(root, id, fileType, filename))
        && fs.files == old(fs.files)[FilePath(root, id, fileType, filename) := stream]
      ensures WithinQuota(old(fs.files), id) && |stream| > MaxSessionStorage ==>
        r == Failure(SessionStorage) && fs.files == old(fs.files) - {FilePath(root, id, fileType, filename)}
      ensures r.Failure? && FilePath(root, id, fileType, filename) !in old(fs.files) ==> fs.files == old(fs.files)
    {
      var filePath := FilePath(root, id, fileType, filename);
      var fileSize := EstimateStreamSize(stream);
      var withinQuota := CheckStorageQuota(id, fileSize);
      if !withinQuota {
        return Failure(StorageQuotaExceeded);
      }
      var lockPath := LockPath(root, id, filename);
      fs.MakeDirs(Parent(lockPath));
      // Acquiring the file lock is not modelled: it always succeeds at once.
      fs.MakeDirs(Parent(filePath));
      ParentPrefixes(filePath);
      ghost var before := fs.files;
      fs.WriteFile(filePath, []);
      var complete := CopyStream(filePath, stream);
      if !complete {
        RemoveAfterUpdate(before, filePath, []);
        RemoveAbsent(before, filePath);
        return Failure(SessionStorage);
      }
      UpdateTwice(before, filePath, [], stream);
      return Success(filePath);
    }

    /**
     * The copy loop of `save_large_file` into the freshly truncated file at
     * `filePath`: true when the whole stream is written; once the count passes
     * 100 MiB the partial file is unlinked and the copy stops.
     */
    method CopyStream(filePath: Path, stream: Bytes) returns (complete: bool)
      requires fs.Valid() && filePath in fs.files && fs.files[filePath] == []
      modifies fs
      ensures fs.Valid() && fs.dirs == old(fs.dirs)
      ensures complete == (|stream| <= MaxSessionStorage)
      ensures complete ==> fs.files == old(fs.files)[filePath := stream]
      ensures !complete ==> fs.files == old(fs.files) - {filePath}
    {
      var totalWritten: nat := 0;
      var pos: nat := 0;
      assert old(fs.files)[filePath := stream[..0]] == old(fs.files);
      while true
        invariant pos <= |stream| && totalWritten == pos <= MaxSessionStorage
        invariant fs.Valid() && fs.dirs == old(fs.dirs)
        invariant fs.files == old(fs.files)[filePath := stream[..pos]]
        decreases |stream| - pos
      {
        var chunk := ReadChunk(stream, pos);
        if |chunk| == 0 {
          break;
        }
        fs.AppendFile(filePath, chunk);
        assert stream[..pos] + chunk == stream[..pos + |chunk|];
        totalWritten := totalWritten + |chunk|;
        pos := pos + |chunk|;
        if totalWritten > MaxSessionStorage {
          fs.Unlink(filePath);
          assert fs.files == old(fs.files) - {filePath};
          return false;
        }
      }
      assert stream[..pos] == stream;
      return true;
    }

    /**
     * `get_file_stream`: the chunks the generator yields, read under the lock
     * keyed by the file's basename; a missing file is a storage error.
     */
    method GetFileStream(id: string, filePath: Path) returns (r: Result<seq<Bytes>, ManagerError>)
      ensures
        var full := ResolveFilePath(root, id, filePath);
        && (full !in fs.files ==> r == Failure(SessionStorage))
        && (full in fs.files ==> r == Success(Chunks(fs.files[full])))
      ensures r.Success? ==> Flatten(r.value) == fs.files[ResolveFilePath(root, id, filePath)]
      ensures r.Success? ==> forall i :: 0 <= i < |r.value| ==> 0 < |r.value[i]| <= StreamingChunkSize
    {
      var fullPath := ResolveFilePath(root, id, filePath);
      // Acquiring the lock at `LockPath(root, id, Basename(filePath))` is not modelled: it always succeeds at once.
      if fullPath !in fs.files {
        return Failure(SessionStorage);
      }
      var content := fs.files[fullPath];
      var chunks: seq<Bytes> := [];
      var pos: nat := 0;
      while true
        invariant pos <= |content|
        invariant chunks + Chunks(content[pos..]) == Chunks(content)
        decreases |content| - pos
      {
        var chunk := ReadChunk(content, pos);
        if |chunk| == 0 {
          break;
        }
        ChunksStep(content, pos, chunks);
        chunks := chunks + [chunk];
        pos := pos + |chunk|;
      }
      ChunksDone(content, chunks);
      return Success(chunks);
    }

    /** `mark_file_processing`: adds the tag; marking twice is marking once. */
    method MarkFileProcessing(id: string, filePath: string, serviceName: string) returns (ok: bool)
      modifies this
      ensures ok
      ensures processingFiles == old(processingFiles)[id := old(BusyTags(id)) + {BusyTag(filePath, serviceName)}]
      ensures BusyTag(filePath, serviceName) in BusyTags(id) && !CanCleanupSession(id)
      ensures activeSessions == old(activeSessions) && sessionData == old(sessionData) && scheduled == old(scheduled)
    {
      processingFiles := processingFiles[id := BusyTags(id) + {BusyTag(filePath, serviceName)}];
      return true;
    }

    /** `unmark_file_processing`: discards the tag; unmarking an absent tag changes nothing visible. */
    method UnmarkFileProcessing(id: string, filePath: string, serviceName: string) returns (ok: bool)
      modifies this
      ensures ok
      ensures processingFiles == old(processingFiles)[id := old(BusyTags(id)) - {BusyTag(filePath, serviceName)}]
      ensures BusyTag(filePath, serviceName) !in BusyTags(id)
      ensures activeSessions == old(activeSessions) && sessionData == old(sessionData) && scheduled == old(scheduled)
    {
      processingFiles := processingFiles[id := BusyTags(id) - {BusyTag(filePath, serviceName)}];
      return true;
    }

    /**
     * `check_storage_quota`: false when the session would pass 100 MiB;
     * otherwise whether the root stays within 1 GiB, since reclaiming space
     * frees nothing.
     */
    method CheckStorageQuota(id: string, fileSize: int) returns (ok: bool)
      requires Valid()
      ensures ok == (&& SizeUnder(fs.files, SessionPath(root, id)) + fileSize <= MaxSessionStorage
                     && SizeUnder(fs.files, root) + fileSize <= MaxTotalStorage)
    {
      var currentSessionSize := SessionStorageSize(id);
      var currentTotalSize := TotalStorageSize();
      if currentSessionSize + fileSize > MaxSessionStorage {
        return false;
      }
      if currentTotalSize + fileSize > MaxTotalStorage {
        var _ := CleanupOldestSessions(fileSize);
        var totalAfter := TotalStorageSize();
        return totalAfter + fileSize <= MaxTotalStorage;
      }
      return true;
    }

    /** `cleanup_session_files`: refuses (false) while busy unless forced; otherwise deletes the workspace. */
    method CleanupSessionFiles(id: string, force: bool) returns (ok: bool)
      requires Valid()
      modifies fs
      ensures Valid()
      ensures ok == (force || old(CanCleanupSession(id)))
      ensures !ok ==> FilesUnchanged()
      ensures ok ==> WorkspaceRemoved(id)
    {
      if !force && !CanCleanupSession(id) {
        return false;
      }
      var sessionPath := SessionPath(root, id);
      if sessionPath in fs.dirs {
        fs.RemoveTree(sessionPath);
      }
      return true;
    }

    /**
     * `cleanup_with_grace_period`: with busy files, schedule one deferred check
     * (the background thread); otherwise a plain, unforced cleanup now.
     */
    method CleanupWithGracePeriod(id: string, now: int)
      requires Valid()
      modifies this, fs
      ensures Valid()
      ensures activeSessions == old(activeSessions) && sessionData == old(sessionData)
      ensures processingFiles == old(processingFiles)
      ensures old(BusyTags(id)) != {} ==>
        scheduled == old(scheduled) + multiset{DeferredCleanup(id, now + GracePeriod)} && FilesUnchanged()
      ensures old(BusyTags(id)) == {} ==> scheduled == old(scheduled) && WorkspaceRemoved(id)
    {
      if !CanCleanupSession(id) {
        scheduled := scheduled + multiset{DeferredCleanup(id, now + GracePeriod)};
      } else {
        var _ := CleanupSessionFiles(id, false);
      }
    }

    /**
     * The body of `delayed_cleanup`, run once its grace period has passed:
     * force-delete the workspace if nothing is busy by then, else give up.
     * The session's table entries are left as they are.
     */
    method RunDeferredCleanup(task: DeferredCleanup, now: int)
      requires Valid()
      requires task in scheduled && now >= task.due
      modifies this, fs
      ensures Valid()
      ensures scheduled == old(scheduled) - multiset{task}
      ensures activeSessions == old(activeSessions) && sessionData == old(sessionData)
      ensures processingFiles == old(processingFiles)
      ensures old(BusyTags(task.sessionId)) == {} ==> WorkspaceRemoved(task.sessionId)
      ensures old(BusyTags(task.sessionId)) != {} ==> FilesUnchanged()
    {
      scheduled := scheduled - multiset{task};
      if CanCleanupSession(task.sessionId) {
        var _ := CleanupSessionFiles(task.sessionId, true);
      }
    }

    /** `get_session_data`: the session's data, created with defaults on first request. */
    method GetSessionData(id: string) returns (d: P.SessionData)
      requires Valid()
      modifies this
      ensures Valid()
      ensures id in sessionData && d == sessionData[id]
      ensures id in old(sessionData) ==> sessionData == old(sessionData)
      ensures id !in old(sessionData) ==> sessionData == old(sessionData)[id := d] && fresh(d)
      ensures id !in old(sessionData) ==>
        d.currentStep == "Session initialized" && d.progressPercentage == 0 && d.errorLog == [] && d.processingStatus == null
      ensures activeSessions == old(activeSessions) && processingFiles == old(processingFiles)
      ensures scheduled == old(scheduled)
    {
      if id !in sessionData {
        var created := new P.SessionData();
        sessionData := sessionData[id := created];
      }
      d := sessionData[id];
    }

    /** `_create_session_workspace`: the fixed subtree, created directory by directory. */
    method CreateSessionWorkspace(id: string) returns (sessionPath: Path)
      requires fs.Valid()
      modifies fs
      ensures fs.Valid() && sessionPath == SessionPath(root, id)
      ensures fs.dirs == old(fs.dirs) + LayoutDirs(sessionPath, WorkspaceLayout) && fs.files == old(fs.files)
    {
      sessionPath := SessionPath(root, id);
      var i := 0;
      while i < |WorkspaceLayout|
        invariant 0 <= i <= |WorkspaceLayout|
        invariant fs.Valid() && fs.files == old(fs.files)
        invariant fs.dirs == old(fs.dirs) + LayoutDirs(sessionPath, WorkspaceLayout[..i])
      {
        fs.MakeDirs(sessionPath + WorkspaceLayout[i]);
        assert WorkspaceLayout[..i + 1][..i] == WorkspaceLayout[..i];
        i := i + 1;
      }
      assert WorkspaceLayout[..i] == WorkspaceLayout;
    }

    /** `_save_session_metadata`. */
    method SaveSessionMetadata(session: W.TutorialSession)
      requires fs.Valid()
      modifies fs
      ensures fs.Valid()
      ensures fs.files == old(fs.files)[MetadataPath(root, session.id) := encode(session.ToRecord())]
      ensures fs.dirs == old(fs.dirs) + Prefixes(SessionPath(root, session.id) + ["metadata"])
    {
      var metadataPath := MetadataPath(root, session.id);
      assert Parent(metadataPath) == SessionPath(root, session.id) + ["metadata"];
      fs.MakeDirs(Parent(metadataPath));
      ParentPrefixes(metadataPath);
      fs.WriteFile(metadataPath, encode(session.ToRecord()));
    }

    /** The summing walk shared by both size helpers: 0 when `dir` does not exist. */
    method TreeSize(dir: Path) returns (total: nat)
      requires fs.Valid() && |dir| > 0
      ensures total == SizeUnder(fs.files, dir)
    {
      if dir !in fs.dirs {
        NoFilesUnderMissingDir(fs.files, fs.dirs, dir);
        return 0;
      }
      total := 0;
      var remaining := fs.files.Keys;
      while remaining != {}
        invariant remaining <= fs.files.Keys
        invariant total + SumOver(fs.files, remaining, dir) == SizeUnder(fs.files, dir)
        decreases remaining
      {
        var p :| p in remaining;
        SumOverRemove(fs.files, remaining, dir, p);
        if Under(dir, p) {
          total := total + |fs.files[p]|;
        }
        remaining := remaining - {p};
      }
    }

    /** `_get_session_storage_size`: the bytes of every file in the session's workspace. */
    method SessionStorageSize(id: string) returns (size: nat)
      requires Valid()
      ensures size == SizeUnder(fs.files, SessionPath(root, id))
    {
      size := TreeSize(SessionPath(root, id));
    }

    /** `_get_total_storage_size`: the bytes of every file under the storage root. */
    method TotalStorageSize() returns (size: nat)
      requires Valid()
      ensures size == SizeUnder(fs.files, root)
    {
      size := TreeSize(root);
    }

    /** `_cleanup_oldest_sessions`: a stub that frees nothing. */
    method CleanupOldestSessions(spaceNeeded: int) returns (freed: int)
      ensures freed == 0
    {
      return 0;
    }
  }
}
