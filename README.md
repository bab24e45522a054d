# CliniPrompt session back end, modelled in Dafny

This project models the session back end of the CliniPrompt tutorial assistant.
Clinicians upload a tutorial recording and get a generated summary. Each upload
lives in a short-lived *session* with its own workspace on disk. The model covers
five pieces.

- **The session manager** (`Sessions.EnhancedSessionManager`, a class):
  - a registry of at most five live sessions with lazy expiry;
  - per-session workspaces under a storage root;
  - quota arithmetic: 100 MiB per session and 1 GiB overall;
  - chunked streaming writes and reads, 1 MiB per chunk;
  - busy-file markers, and teardown deferred by a grace period while a file is busy.
- **The tutorial session** (`Workflow.TutorialSession`): its six-state workflow,
  with a fixed table of legal edges, plus creation, strict expiry and extension.
- **Progress bookkeeping** (`Progress.ProcessingStatus`, `Progress.SessionData`):
  - clamped progress;
  - completion and failure;
  - an error log capped at 50 entries, of which the last 10 are exposed.
- **The uploaded recording** (`Audio.AudioRecording`): admission checks, status
  setters and the processing-readiness test.
- **The request checks of the HTTP routes** (`SessionsApi`):
  - the voice, style and duration validators;
  - the upload decision, including the suffix test on a lower-cased name;
  - the state precondition for starting processing.

## How things are represented

- **Clock.** The clock is an integer count of microseconds. Each operation that
  reads `datetime.now()` takes a `now` parameter instead. Fresh `uuid4()` values
  become id parameters. `CreateSession` requires its session id to be unused.
  `ProcessingStatus.CreateNew` and `SessionData.StartProcessing` take a task id
  with no such precondition, since nothing they promise depends on it.
- **Filesystem.** The filesystem (`Storage.FileSystem`) is a map from path to bytes
  plus a set of existing directories. `Storage.WellFormed` says every file has all
  its ancestor directories. These operations are modelled:
  - `mkdir(parents=True)` adds every prefix of the path;
  - `rmtree(d)` removes everything at or below `d`;
  - the size of a directory is the sum of the lengths of the files strictly
    below it (`Storage.SizeUnder`).
- **Paths.** A path is a sequence of components: `a / b` is `a + [b]`.
- **Busy files.** `processing_files` is a `defaultdict(set)`, and reading it in
  `can_cleanup_session` (`backend/src/services/session_manager/__init__.py:236`)
  inserts an empty set. The model leaves that insertion out because nothing can
  tell an empty entry from a missing one, so its tables match the source's up to
  empty entries.
- **Errors.** Raised exceptions become `Result`/`Option` values. A `ValueError`
  raised by `update_state` becomes a `false` answer.
- **Metadata.** The session record is encoded to JSON with `json.dump(to_dict())`.
  The manager holds that encoding as the function `encode`, which it receives at
  construction. The model says which record is written where, not what the JSON
  text looks like.
- **Deferred teardown.** The background thread of `cleanup_with_grace_period`
  becomes a multiset `scheduled` of pending checks, each with its due time.
  `RunDeferredCleanup` is the thread's body: it runs one such check once the grace
  period is over.
- **File locks.** Acquiring a `FileLock` always succeeds at once. Lock paths are
  still computed, and `save_large_file` still creates the directory that holds them.

## Behaviour worth knowing (the model follows the code)

- **Mid-stream quota overflow.** When a save passes the session ceiling partway
  through, the `StorageQuotaExceededError` raised inside the copy loop is caught
  and re-raised as `SessionStorageError`
  (`backend/src/services/session_manager/__init__.py:195-202`).
  - So the caller sees `SessionStorage`, not `StorageQuotaExceeded`.
  - `StorageQuotaExceeded` comes only from the pre-check (`__init__.py:173-175`).
  - The pre-check's size estimate is always 0 (`__init__.py:354-357`), so it
    refuses only a session or root already over its ceiling.
- **Refused save over an existing file.** The destination is opened with `'wb'`
  and unlinked when the save is refused in the middle of the stream
  (`__init__.py:185` and `:195-201`), so `fs.files == old(fs.files) - {destination}`.
  - A new destination therefore leaves the files exactly as they were.
  - An earlier file of the same name is truncated and then deleted.
  - The quota pre-check refusal (`__init__.py:173-175`) comes before the file is
    opened, so it leaves an existing file alone.
- **Expired session with busy files.** `get_session` evicts an expired session by
  calling `end_session` (`__init__.py:106-108`). When the session has busy files,
  `end_session` only schedules a deferred check and returns (`__init__.py:130-133`),
  so the expired session stays in all three tables.
- **Deferred check.** The delayed thread deletes the workspace only if nothing is
  busy *at its due time*, and calls only `cleanup_session_files`, so it never
  removes the session from the tables (`__init__.py:268-272`).
- **Extension.** `extend_expiration` measures the new deadline from now
  (`backend/src/models/tutorial_session.py:82-85`), not from the old deadline.
  `expires_at > created_at` holds afterwards at least when now is not before
  `created_at` and the extension is positive.
- **Route status codes.** `upload_audio` and `start_processing` raise their
  400, 409 and 413 `HTTPException`s inside their own `try`, and the final
  `except Exception` re-raises them as 500 (`backend/src/api/sessions.py:168-190`
  with `:232-234`, and `:267` with `:293-295`). Only a `ValueError` from
  `create_from_upload` leaves `upload_audio` as 400 (`sessions.py:230-231`), and
  a missing session leaves either route as 404. The model gives the reason for a refusal, not the status.
- **A refused recording stays on disk.** `upload_audio` writes the upload to
  `files/audio/original/<name>` (`sessions.py:193-199`) before
  `create_from_upload` checks the MIME type (`sessions.py:201-207`). So a
  `talk.mp3` sent as `text/plain` (`SessionsApi.PlainTextMp3RefusedByRecord`) is
  refused but its file remains in the workspace.
- **Locks are keyed by basename.** Both `save_large_file` and `get_file_stream`
  name the lock after the file's last component (`__init__.py:178` and `:364-368`).
  Files of the same name in different directories of one session share a lock.

## Model

| member | source | states |
|---|---|---|
| Clock.ElapsedSeconds | backend/src/models/session_data.py:46 | whole seconds elapsed, truncated toward zero in both directions |
| Workflow.IsValidTransition | backend/src/models/tutorial_session.py:104-116 | legal iff the pair is one of the 13 listed edges; never a self-loop; `Completed` only from `Processing`; `Error` from every other state; from `Error` only `Processing` or `Initial` |
| Workflow.ParsePreferences | backend/src/models/tutorial_session.py:52-58 | for each of the four keys a present value wins; a missing voice or style keeps its default; missing emphasis areas and terminology are empty |
| Workflow.TutorialSession.CreateNew | backend/src/models/tutorial_session.py:41-68 | state `Initial`; created and updated at `now`; expires `now` + timeout; later than creation for a positive timeout; parsed preferences |
| Workflow.TutorialSession.UpdateState | backend/src/models/tutorial_session.py:70-76 | answers whether the edge is legal; if legal, sets state and `lastUpdated`; if not, leaves both; no other field changes |
| Workflow.TutorialSession.ExtendExpiration | backend/src/models/tutorial_session.py:82-85 | deadline measured from now, `lastUpdated` = now; then unexpired and later than creation; nothing else changes |
| Workflow.TutorialSession.IsExpired | backend/src/models/tutorial_session.py:78-80 | expired iff the deadline is strictly before now; live at the deadline instant |
| Workflow.TutorialSession.ToRecord | backend/src/models/tutorial_session.py:87-102 | the record carries the session's id, state, three timestamps, user agent and preferences as they stand |
| Workflow.ExpiryIsPermanent | backend/src/models/tutorial_session.py:78-80 | for a fixed deadline, once expired a session is expired at every later instant |
| Progress.FormatError | backend/src/models/session_data.py:100-101 | the entry is `[`, the timestamp, `] ` and the message, in that order and nothing else |
| Progress.Clamp | backend/src/models/session_data.py:41 | result in [0,100]; identity inside; 0 below; 100 above |
| Progress.KeepLast | backend/src/models/session_data.py:104-106 | the last `min(len, n)` elements, in order |
| Progress.ProcessingStatus.CreateNew | backend/src/models/session_data.py:28-37 | `Pending`, progress 0, given step and start time, no processing time or error |
| Progress.ProcessingStatus.UpdateProgress | backend/src/models/session_data.py:39-46 | progress is the clamped input; from 100 up: `Completed`, progress 100, elapsed time frozen; below 100 status and time untouched |
| Progress.ProcessingStatus.MarkError | backend/src/models/session_data.py:48-52 | `Error`, message stored, elapsed time frozen; progress and step kept |
| Progress.ProcessingStatus.MarkProcessing | backend/src/models/session_data.py:54-56 | status `Processing`, every other field kept |
| Progress.SessionData.constructor | backend/src/models/session_data.py:88-96 | step "Session initialized", 0 %, empty log, no task |
| Progress.SessionData.AddError | backend/src/models/session_data.py:98-106 | log is the last 50 of old log plus the stamped entry; the new entry is last; at most 50 kept |
| Progress.SessionData.UpdateProgress | backend/src/models/session_data.py:108-114 | own percentage clamped; the raw value forwarded to the task: its progress is clamped, from 100 up it completes with its elapsed time frozen, below 100 it keeps status and time; its start time, error and estimate are kept |
| Progress.SessionData.StartProcessing | backend/src/models/session_data.py:116-122 | a fresh task replaces the old one and is the one returned: `Processing`, progress 0; own percentage reset to 0; log kept |
| Progress.SessionData.CompleteProcessing | backend/src/models/session_data.py:124-129 | 100 % and "Completed"; an existing task becomes `Completed` at 100 with step "Processing completed" and its elapsed time frozen; its start time, error and estimate are kept |
| Progress.SessionData.FailProcessing | backend/src/models/session_data.py:131-136 | an existing task becomes `Error` with the message and its elapsed time frozen, keeping progress, step, start time and estimate; the message is logged under the cap; step "Error: <message>"; own percentage kept |
| Progress.SessionData.ExposedErrorLog | backend/src/models/session_data.py:157 | the last `min(len, 10)` log entries, in order |
| Audio.AdmissionError | backend/src/models/audio_recording.py:65-73 | admitted iff at most 30 MiB and one of the 7 types; size checked first |
| Audio.AudioRecording.constructor | backend/src/models/audio_recording.py:36-49 | given fields; duration, transcription and error absent |
| Audio.AudioRecording.CreateFromUpload | backend/src/models/audio_recording.py:56-87 | fails iff admission fails, with that error and no file written; otherwise the file is written at the path and the record is `Uploaded` with size = content length and empty optional fields |
| Audio.AudioRecording.UpdateStatus | backend/src/models/audio_recording.py:89-93 | status always set; message overwritten only by a non-empty one |
| Audio.AudioRecording.SetTranscription | backend/src/models/audio_recording.py:95-98 | text stored, status `Transcribed` from any status, `HasTranscription` holds |
| Audio.AudioRecording.SetDuration | backend/src/models/audio_recording.py:104-106 | duration stored, nothing else changes |
| Audio.AudioRecording.CleanupFiles | backend/src/models/audio_recording.py:116-119 | backing file gone and the record no longer processable; a second call changes nothing |
| Audio.AudioRecording.HasTranscription | backend/src/models/audio_recording.py:132 | true iff a transcription text is present |
| Audio.AudioRecording.IsValidForProcessing | backend/src/models/audio_recording.py:108-114 | valid only with a positive size and an existing file; never while transcribing, transcribed, analysing or failed; valid when uploaded or processed with both |
| Audio.EmptyUploadNeverProcessable | backend/src/models/audio_recording.py:108-114 | a zero-byte recording is never valid for processing |
| Audio.SizeLimitIsInclusive | backend/src/models/audio_recording.py:66-68 | exactly 30 MiB is admitted, one byte more is refused |
| Sessions.SessionPath | backend/src/services/session_manager/__init__.py:300-302 | strictly below the root, in its `sessions` directory, named by the id |
| Sessions.MetadataPath | backend/src/services/session_manager/__init__.py:306-307 | `session.json` in the session's `metadata` directory |
| Sessions.FilePath | backend/src/services/session_manager/__init__.py:169-170 | strictly below the session's `files` directory, in `files/<type>`, named by the file name |
| Sessions.ResolveFilePath | backend/src/services/session_manager/__init__.py:359-362 | the session's `files` directory followed by exactly the relative path |
| Sessions.LockPath | backend/src/services/session_manager/__init__.py:364-368 | the lock lives in the session's `metadata/locks` directory and is named `<name>.lock` |
| Sessions.LockPathInjective | backend/src/services/session_manager/__init__.py:364-368 | distinct file names get distinct locks |
| Sessions.ReaderAndWriterShareLock | backend/src/services/session_manager/__init__.py:170-178 | for `type/name` the reader resolves the writer's path and takes the writer's lock |
| Sessions.BusyTag | backend/src/services/session_manager/__init__.py:225 | the tag is the path, `:` and the service name, in that order and nothing else |
| Sessions.EstimateStreamSize | backend/src/services/session_manager/__init__.py:354-357 | always 0 |
| Sessions.ReadChunk | backend/src/services/session_manager/__init__.py:188 | the next `min(1 MiB, remaining)` bytes from the offset; empty only at the end |
| Sessions.Chunks | backend/src/services/session_manager/__init__.py:214-218 | chunks are non-empty and at most 1 MiB; all but the last are exactly 1 MiB; concatenated they are the data |
| Sessions.WorkspaceHoldsSessionDir | backend/src/services/session_manager/__init__.py:286-298 | creating the layout creates the session directory itself |
| Sessions.EnhancedSessionManager.constructor | backend/src/services/session_manager/__init__.py:55-64 | empty tables; the storage root and its parents exist |
| Sessions.EnhancedSessionManager.BusyTags | backend/src/services/session_manager/__init__.py:59 | a session missing from `processing_files` has no busy tags, as the `defaultdict` reads; otherwise its stored set |
| Sessions.EnhancedSessionManager.CanCleanupSession | backend/src/services/session_manager/__init__.py:234-236 | cleanable iff the session has no entry or an empty set of busy tags |
| Sessions.EnhancedSessionManager.Register | backend/src/services/session_manager/__init__.py:87-88 | the new session and its data are entered under the session's id; the other entries and the busy table are kept |
| Sessions.EnhancedSessionManager.CreateSession | backend/src/services/session_manager/__init__.py:66-93 | at five live sessions: `ConcurrencyLimit`, nothing changes; otherwise the id is entered in both tables with a fresh `Initial` session expiring in 4 h and default data; the workspace layout is created; the record is written to `metadata/session.json`; the other entries are kept |
| Sessions.EnhancedSessionManager.GetSession | backend/src/services/session_manager/__init__.py:95-110 | absent: not found, nothing changes; expired: the session is ended, then not found; otherwise the stored session, nothing changes |
| Sessions.EnhancedSessionManager.UpdateSessionState | backend/src/services/session_manager/__init__.py:112-123 | true iff found, unexpired and legal; then state, `lastUpdated` and the metadata file (the record of the updated session) are updated; on false nothing is saved and the state is kept; creation time, deadline, user agent, preferences and workspace are always kept; an expired session object is not touched at all (it is outside `modifies`) |
| Sessions.EnhancedSessionManager.EndSession | backend/src/services/session_manager/__init__.py:125-149 | always true; busy: tables and files kept, one deferred check scheduled; otherwise id removed from all three tables and the workspace subtree deleted |
| Sessions.EnhancedSessionManager.CreateWorkspace | backend/src/services/session_manager/__init__.py:151-159 | an existing recorded workspace is reused; otherwise the layout is created and recorded on the session; the result exists afterwards; state, timestamps, user agent and preferences are kept; an absent or expired session is reported not found and its object is not touched (it is outside `modifies`) |
| Sessions.EnhancedSessionManager.SaveLargeFile | backend/src/services/session_manager/__init__.py:161-204 | over the quota before: `StorageQuotaExceeded`, nothing changes; a stream up to 100 MiB: stored in full at `files/<type>/<name>`; a longer stream: `SessionStorage` with the destination removed, so a new destination leaves the files unchanged |
| Sessions.EnhancedSessionManager.CopyStream | backend/src/services/session_manager/__init__.py:185-197 | copies the whole stream iff it is at most 100 MiB; otherwise the partial file is unlinked |
| Sessions.EnhancedSessionManager.GetFileStream | backend/src/services/session_manager/__init__.py:206-220 | missing file: `SessionStorage`; otherwise chunks of at most 1 MiB that concatenate to the file's contents |
| Sessions.EnhancedSessionManager.MarkFileProcessing | backend/src/services/session_manager/__init__.py:222-226 | the tag `path:service` is added to the session's set (so marking twice equals marking once); the session is then not cleanable |
| Sessions.EnhancedSessionManager.UnmarkFileProcessing | backend/src/services/session_manager/__init__.py:228-232 | the tag is discarded, absent or not |
| Sessions.EnhancedSessionManager.CheckStorageQuota | backend/src/services/session_manager/__init__.py:238-251 | true iff both the session plus the file stays within 100 MiB and the root plus the file stays within 1 GiB |
| Sessions.EnhancedSessionManager.CleanupSessionFiles | backend/src/services/session_manager/__init__.py:253-264 | refuses with false while busy unless forced, files untouched; otherwise deletes the workspace if it exists |
| Sessions.EnhancedSessionManager.CleanupWithGracePeriod | backend/src/services/session_manager/__init__.py:266-277 | busy: schedules one check due 5 minutes later, files untouched; otherwise deletes the workspace now |
| Sessions.EnhancedSessionManager.RunDeferredCleanup | backend/src/services/session_manager/__init__.py:268-272 | consumes the check; deletes the workspace only if nothing is busy by then; tables untouched |
| Sessions.EnhancedSessionManager.GetSessionData | backend/src/services/session_manager/__init__.py:279-283 | existing data returned unchanged; otherwise fresh default data (step "Session initialized", 0 %, empty log, no task) is entered and returned |
| Sessions.EnhancedSessionManager.CreateSessionWorkspace | backend/src/services/session_manager/__init__.py:286-298 | exactly the nine layout directories and their parents are added; files unchanged |
| Sessions.EnhancedSessionManager.SaveSessionMetadata | backend/src/services/session_manager/__init__.py:304-311 | the encoded record replaces `metadata/session.json`; its directory exists |
| Sessions.EnhancedSessionManager.TreeSize | backend/src/services/session_manager/__init__.py:331-352 | the summing walk adds up exactly the bytes below the directory, 0 when it does not exist |
| Sessions.EnhancedSessionManager.SessionStorageSize | backend/src/services/session_manager/__init__.py:331-341 | bytes below the session directory |
| Sessions.EnhancedSessionManager.TotalStorageSize | backend/src/services/session_manager/__init__.py:343-352 | bytes below the storage root |
| Sessions.EnhancedSessionManager.CleanupOldestSessions | backend/src/services/session_manager/__init__.py:370-373 | frees nothing |
| Storage.FileSystem.MakeDirs | backend/src/services/session_manager/__init__.py:296 | every prefix of the path becomes a directory; files unchanged |
| Storage.FileSystem.WriteFile | backend/src/services/session_manager/__init__.py:185 | the file holds exactly the content, created or truncated; directories unchanged |
| Storage.FileSystem.AppendFile | backend/src/services/session_manager/__init__.py:191 | the chunk is appended to the file's old contents; nothing else changes |
| Storage.FileSystem.Unlink | backend/src/services/session_manager/__init__.py:196 | the file is removed; nothing else changes |
| Storage.FileSystem.RemoveTree | backend/src/services/session_manager/__init__.py:261 | every file and directory at or below the path is removed, the rest kept |
| Storage.NoFilesUnderMissingDir | backend/src/services/session_manager/__init__.py:334-335 | a missing directory holds no bytes, so the `exists()` guard agrees with the walk |
| SessionsApi.ValidateVoice | backend/src/api/sessions.py:24-29 | exactly the four named voices pass, unchanged |
| SessionsApi.ValidateStyle | backend/src/api/sessions.py:31-36 | exactly the three named styles pass, unchanged |
| SessionsApi.ValidateDuration | backend/src/api/sessions.py:245-249 | passes iff 10 <= v <= 30 |
| SessionsApi.DefaultsAreValid | backend/src/api/sessions.py:18-22 | the request defaults pass their validators |
| SessionsApi.DurationBoundaries | backend/src/api/sessions.py:245-249 | 5, 9, 31 and 35 refused; 10 and 30 accepted |
| SessionsApi.LowerChar | backend/src/api/sessions.py:183-184 | maps `A`-`Z` to `a`-`z` and leaves every other character; the result is never an upper-case letter |
| SessionsApi.AsciiLower | backend/src/api/sessions.py:183-184 | same length, each character lower-cased |
| SessionsApi.AsciiLowerIdempotent | backend/src/api/sessions.py:183-184 | lower-casing twice is lower-casing once |
| SessionsApi.AnyEndsWith | backend/src/api/sessions.py:184 | true iff some suffix in the list ends the name |
| SessionsApi.HasAllowedExtension | backend/src/api/sessions.py:184 | true iff the lower-cased name ends in one of the five audio suffixes |
| SessionsApi.ExtensionTestIgnoresCase | backend/src/api/sessions.py:184 | lower-casing the name first does not change the test |
| SessionsApi.FormatRejected | backend/src/api/sessions.py:186-190 | refused iff the name lacks an audio suffix and the type is unlisted or the octet stream |
| SessionsApi.UploadDecision | backend/src/api/sessions.py:167-207 | yields a record iff the name is non-empty, the size is at most 30 MiB, the type is listed, and the type is not the octet stream unless the name has a suffix; no name and oversize are reported first |
| SessionsApi.SuffixPassesRouteButNotRecord | backend/src/api/sessions.py:186-207 | a `.mp3` name with an unlisted type passes the route's guards and is refused by the record's MIME check |
| SessionsApi.PlainTextMp3RefusedByRecord | backend/src/api/sessions.py:186-207 | `talk.mp3` sent as `text/plain` passes the route's guards and is refused by the record's MIME check |
| SessionsApi.OctetStreamNeedsSuffix | backend/src/api/sessions.py:189-190 | an octet stream is accepted iff the name has an audio suffix |
| SessionsApi.ReadyForProcessing | backend/src/api/sessions.py:266-277 | ready iff the state may legally move to `Processing` and is not `Error`, so the requested transition is always legal once admitted |

## Left out

- Threads and locks: the `RLock` around the tables, the `FileLock`s with their 30 s timeout, and the daemon thread's sleep. Operations are atomic steps, and lock acquisition never fails. The source never raises its `FileLockTimeoutError` (`backend/src/services/session_manager/__init__.py:41`): a `filelock` time-out at `:182` or `:212` would be caught by `except Exception` and surface as `SessionStorageError` (`:199-202`, `:219-220`), so the model has no lock time-out error.
- Sessions.EnhancedSessionManager.SaveLargeFile: the lock file that `FileLock` creates on disk is not entered in the file map. It is empty and so does not change any size.
- Sessions.EnhancedSessionManager.GetFileStream: returns every chunk at once instead of lazily from a generator. An error raised while the generator is consumed is therefore not modelled.
- Filesystem failures: clashes between a file and a directory name, permission errors and other OS errors are not modelled, nor the `except Exception` re-wrapping they would go through. The `0o700` mode is dropped.
- Path normalisation: `..`, empty components and `/` inside a component are not modelled. `file_type` is taken as a path of components.
- `exists()`: modelled as membership in the directory set (workspaces) or the file map (recordings).
- JSON text, `isoformat` and every `to_dict`, except the 10-entry slice of the error log.
- HTTP routing, `UploadFile` reading, the 404/409/413/500 status mapping, and the order of the handlers' other steps (the session lookup before the upload checks, the duplicate write of the upload, the ignored answer of `update_session_state`).
- Pydantic's treatment of an explicit `None` for an optional field, and the empty-dict test `if preferences:`, which gives the same defaults as `None`.
- `str.lower` beyond ASCII letters.
- Floats: `file_size_mb`, `QualityMetrics`, `set_quality_metrics`, `ResourceUsage` and `update_resource_usage`.
- `estimated_completion` is never set by the source and stays absent.
- `SESSION_TIMEOUT` (14400 s) is declared but unused. Sessions use the 4-hour default of `create_new`.
- Sessions.EnhancedSessionManager.UpdateSessionState: the source reads the clock twice, once for the expiry test in `get_session` and once in `update_state`. The model uses one reading `now` for both.
- Workflow.TutorialSession.ExtendExpiration: the source reads the clock separately for the deadline and for `last_updated`. The model uses one reading.
- Progress.ProcessingStatus.UpdateProgress: `total_seconds()` is a float. The model computes the elapsed seconds exactly in integers.
- The loader `_load_session_from_storage` always fails, so it is folded into `GetSession` as "absent means not found".
- `cleanup_with_grace_period`'s `grace_minutes` parameter is fixed at its default of 5.
