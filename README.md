# AutoJobs job-application scheduler, modelled in Dafny

This project models the core of the AutoJobs desktop helper. Its main process keeps one
JSON document (`BEState`) on disk: the pending job queue, the jobs applied to, the
skipped and completed applications, the active job, the run flags, the settings and the
credentials. Every command handler reads this document whole, changes it and writes it
back. The application scheduler (`runApplying`) takes one job at a time, marks it as
the active job, sends it to the page driver, and then re-emits `APP_START` when the
queue holds a second job.

Modules, one per component:

- `Wrappers` (Wrappers.dfy): `Option` for fields the document may lack, and `Result`.
- `State` (State.dfy, src/utils/state.ts) covers:
  - the document's datatypes and the default document;
  - lodash `uniqBy` by id and the documents `addApplied` and `addJob` write;
  - `getAppDataPath`;
  - a `Store` class whose single field is the persisted document, with
    `GetState`, `SetState`, `AddApplied` and `AddJob`.
- `Handlers` (Handlers.dfy, src/index.ts) gives each command handler's change to the
  document as a pure function, with lemmas about idempotence, deduplication and what
  stays unchanged.
- `Scheduler` (Scheduler.dfy, src/index.ts) covers:
  - one `runApplying` invocation as a specification function (`RunApplyingSpec`),
    with its properties;
  - a `Backend` class holding the store, the queue of emitted events and the log of
    page-driver calls. Its methods are the handlers, each proved against the functions
    above.
- `Findings` (Findings.dfy) models two defects of src/index.ts as written, beside the
  corrected behaviour the rest of the model uses.

I/O and external code become parameters:

- The outcome of every file write is a `writeOk` flag.
- The page driver's outcome is a `driverOk` flag.
- A document that is missing, unreadable, not JSON or empty is `disk == None`.
- The event bus is a queue of events that `DispatchNext` delivers one at a time.

The model follows the code, including where it departs from the scheduler's intended design:

- "An active job implies the automatic run is on" is not an invariant. An on-demand
  job is activated even while the run is off (`OnDemandIgnoresRunFlag`). It also
  replaces a job that is already active (`OnDemandReplacesActive`).
- Nothing in src/index.ts or src/utils/state.ts removes a job from `jobs`. After skipping the
  head of the queue, the next queue-driven activation starts that same job again, not
  `jobs[1]` (`TwoJobChain`).
- `app:complete` does not clear `activeJob`. After the active head of the queue is
  completed, every queue-driven activation does nothing until a skip, stop or start
  clears it: the automatic chain stalls (`CompleteKeepsChainBlocked`).
- When the activation's save succeeded, the `APP_START(null)` re-emitted after the
  settle delay finds the just-started job still active, so unless a command has
  cleared it, the event does nothing. When that save failed, `activeJob` stays unset
  and the re-emitted event starts the head of the queue again
  (`FailedSaveReemitRestarts`).
- The default document has no `settings`, `isAppRunning`, `activeJob`,
  `skippedApps`, `completedApps` or `auth`.
- `app:stop` emits `APP_STOP` with the application's job id, or `""` when no
  application is given.

## Model

| member | source | states |
|---|---|---|
| `State.Store.GetState` | src/utils/state.ts:53-69 | on a supported platform, returns the persisted document, or the default `{applied:[], jobs:[], questions:[], count:0, isListRunning:false}` when there is none |
| `State.Store.SetState` | src/utils/state.ts:72-91 | returns true exactly when the write succeeded, and then the persisted document is the one given; a failed write returns false and changes nothing |
| `State.SaveThenLoad` | src/utils/state.ts:53-91 | a successful save is what the next read returns; after a failed save the next read is the same as before |
| `State.Store.AddApplied` | src/utils/state.ts:93-99 | reads, saves and returns the document with the job added to `applied` (dedup by id), whatever the save's outcome |
| `State.Store.AddJob` | src/utils/state.ts:101-107 | reads, saves and returns `WithJob` of the loaded document (the job added to `jobs`, dedup by id), whatever the save's outcome |
| `State.WithApplied` | src/utils/state.ts:95-96 | missing `applied` reads as empty; afterwards `applied` has distinct ids, contains the job's id, holds exactly the old ids plus the job's, equals the deduplicated old list with the job appended unless its id was there; no other field changes |
| `State.WithJob` | src/utils/state.ts:103-104 | missing `jobs` reads as empty; afterwards `jobs` has distinct ids, contains the job's id, holds exactly the old ids plus the job's, and equals the deduplicated old queue with the job appended unless its id was there; for an already deduplicated queue that is the queue itself, or the queue with the job at the end; no other field changes |
| `State.UniqByIdFromSound` | src/utils/state.ts:95 | what `uniqBy` keeps has pairwise-distinct ids and comes from the input |
| `State.UniqByIdFromIds` | src/utils/state.ts:95 | `uniqBy` loses no id: an id is in the result exactly when it is in the input |
| `State.UniqByIdFromAppend` | src/utils/state.ts:95 | deduplicating a list with one job appended is deduplicating the list and then appending the job unless its id already occurs |
| `State.UniqByIdFromKeepsDistinct` | src/utils/state.ts:95 | a list whose ids are already distinct comes back unchanged (the first occurrence is kept and order is preserved) |
| `State.AppendDedup` | src/utils/state.ts:95 | on a deduplicated list, adding a job whose id is present changes nothing; otherwise the job goes at the end |
| `State.AppendedIds` | src/utils/state.ts:95 | the ids after appending and deduplicating are the old ids plus the job's |
| `State.AddAppliedTwice` | src/utils/state.ts:93-99 | adding a job with the same id a second time leaves the document as the first addition left it |
| `State.AppDataPath` | src/utils/state.ts:35-50 | darwin gives `HOME/Library/Application Support/<app>`, win32 `APPDATA/<app>`, linux `HOME/.<app>`; any other platform is an error (the source exits), and a missing base variable is an error |
| `Handlers.SkipDoc` | src/index.ts:235-245 | nothing happens exactly when an entry with the same job id is already skipped; otherwise the application is appended to `skippedApps` (created if absent), `activeJob` becomes null, and every other field, `jobs` and `applied` included, is unchanged |
| `Handlers.SkipTwice` | src/index.ts:237-244 | skipping the same job a second time is a no-op |
| `Handlers.SkipKeepsUnique` | src/index.ts:237-244 | skip keeps at most one skipped entry per job id |
| `Handlers.WithoutJob` | src/index.ts:258 | the filter removes every entry for the job and keeps every other entry; a list without such an entry is unchanged |
| `Handlers.WithoutJobAppend` | src/index.ts:258 | the filter works entry by entry (filtering a concatenation filters each part), so with `WithoutJob`'s contract for one entry the kept entries keep their order and multiplicity |
| `Handlers.WithoutJobKeepsUnique` | src/index.ts:258 | the filter keeps `skippedApps` unique by job id |
| `Handlers.CompletedWith` | src/index.ts:259-261 | corrected (records compared by value, not identity): `completedApps` gains the application only when it is not already present; the members are the old ones plus the application |
| `Handlers.CompletedWithTwice` | src/index.ts:259-261 | corrected (records compared by value, not identity): completing twice records once, and no repeated record is ever introduced |
| `Handlers.CompleteDoc` | src/index.ts:255-262 | starting from the `addApplied` document of line 257: `applied` gains the job (dedup by id); `skippedApps` is exactly the old list filtered by `WithoutJob`, so every entry with that job id is removed and the rest kept in order; corrected (records compared by value): `completedApps` is `CompletedWith` of the old list, so it gains the application unless an equal record is there; `activeJob`, `jobs` and every other field are unchanged |
| `Handlers.AppRunning` | src/index.ts:171-176 | start and stop write the run flag as the given boolean and always clear `activeJob`; nothing else changes |
| `Handlers.ListRunning` | src/index.ts:152-157 | list start and stop write the listing flag as the given boolean and change nothing else |
| `Handlers.SettingsSaved` | src/index.ts:144-150 | each key of the update takes the new value; every other setting keeps its old value; a missing `settings` reads as empty; nothing outside `settings` changes |
| `Handlers.SpeedSet` | src/index.ts:343-346 | only `speedApply` (when `isApp`) or only `speedJobs` (otherwise) takes the value; every other setting and field is unchanged |
| `Handlers.SpeedReset` | src/index.ts:335-341 | the reset writes `speedApply = 500` and `speedJobs = 100`, and nothing else changes |
| `Handlers.SpeedResetAbsorbs` | src/index.ts:331-347 | a reset is idempotent and undoes any earlier speed change |
| `Handlers.SpeedIsSettingsSave` | src/index.ts:331-347 | a speed change or a reset is the settings save of the keys it writes |
| `Handlers.LoggedOut` | src/index.ts:360-365 | logout makes `auth` the empty object and changes nothing else |
| `Handlers.Incremented` | src/index.ts:367-376 | the counter handler adds one to `count` and changes nothing else |
| `Handlers.DefaultIsTidy` | src/utils/state.ts:31 | the default document's history lists are deduplicated |
| `Handlers.HistoryStaysTidy` | src/index.ts:232-268 | skip, `addApplied` and complete keep `applied` distinct by id and `skippedApps` unique by job id; corrected (records compared by value): complete keeps `completedApps` free of repeats |
| `Handlers.CompleteThenSkip` | src/index.ts:232-268 | after complete the job is no longer skipped, and a later skip of it takes effect again |
| `Scheduler.RunApplyingSpec` | src/index.ts:183-230 | one activation as a value: a job is started exactly when one is asked for on demand, or the scheduler is not blocked and the queue is non-empty; with none started the store is untouched; the only event ever emitted is `APP_START(null)`, and only by an activation that started a job |
| `Scheduler.RunBlocked` | src/index.ts:193-199 | with `activeJob` set or the run off, and no on-demand job, an activation leaves the store unchanged, starts nothing and emits nothing |
| `Scheduler.RunActivates` | src/index.ts:202-205 | the job started is the on-demand one if given, else the head of the queue when not blocked; it is persisted as exactly `activeJob` with nothing else changed; with no job to start, the store is untouched |
| `Scheduler.RunKeepsQueue` | src/index.ts:202-223 | the second read in `finally` sees the same queue as the first; the only save changes `activeJob` alone |
| `Scheduler.RunContinuesIff` | src/index.ts:220-227 | `APP_START(null)` is re-emitted exactly when the scheduler was not blocked on entry and `jobs[1]` exists; nothing else is emitted |
| `Scheduler.OnDemandIgnoresRunFlag` | src/index.ts:195-205 | an on-demand job becomes `activeJob` even while the run is off, so "active job implies running" does not hold |
| `Scheduler.OnDemandReplacesActive` | src/index.ts:195-205 | an on-demand job replaces a job that is already active |
| `Scheduler.ListingIndependent` | src/index.ts:152-157 | the listing flag has no influence on what an activation starts or emits |
| `Scheduler.Backend.RunApplying` | src/index.ts:183-230 | one activation changes the store, the event queue and the driver log as `RunApplyingSpec` says, whatever the page driver's outcome; a driver failure neither cancels the re-emit check nor rolls back `activeJob` |
| `Scheduler.Backend.DispatchNext` | src/index.ts:178-181 | the oldest pending `APP_START` runs one activation with its payload, and the store, the remaining events and the page-driver log are as `RunApplyingSpec` says; other events are only removed from the queue and change nothing else |
| `Scheduler.Backend.Skip` | src/index.ts:232-253 | a missing application or an already-skipped job returns undefined, saves nothing and emits nothing; otherwise the skip document is saved and `APP_STOP(job.id)` emitted |
| `Scheduler.Backend.Complete` | src/index.ts:255-268 | corrected (records in `completedApps` compared by value): a missing application is a no-op; otherwise there are two saves (the `addApplied` document, then the complete document), `APP_STOP(job.id)` is emitted, and the final document is returned whether or not either save succeeded |
| `Scheduler.Backend.SetAppStartStop` | src/index.ts:171-176 | reads, sets the run flag, clears `activeJob` and saves |
| `Scheduler.Backend.Start` | src/index.ts:277-282 | turns the run on, clears `activeJob`, emits `APP_START(null)` |
| `Scheduler.Backend.StartOnDemand` | src/index.ts:270-275 | changes no state; emits `APP_START(job)` |
| `Scheduler.Backend.Stop` | src/index.ts:284-290 | turns the run off, clears `activeJob`, emits `APP_STOP` with the job id or `""` |
| `Scheduler.Backend.SetListStartStop` | src/index.ts:152-157 | reads, sets the listing flag and saves |
| `Scheduler.Backend.ListStart` | src/index.ts:159-163 | saves the listing flag as on, then calls the page driver on the url; the call fails exactly when the driver fails |
| `Scheduler.Backend.ListStop` | src/index.ts:165-169 | saves the listing flag as off and emits `LIST_STOP` |
| `Scheduler.Backend.SetSpeed` | src/index.ts:331-358 | saves and returns the reset document when `setDefault`, else the document with the one speed changed |
| `Scheduler.Backend.SaveSettings` | src/index.ts:144-150 | saves and returns the merged-settings document |
| `Scheduler.Backend.Logout` | src/index.ts:360-365 | saves the document with empty credentials and returns true |
| `Scheduler.Backend.Increment` | src/index.ts:367-376 | saves and returns the document with the counter one higher |
| `Scheduler.SingleJobChainEnds` | src/index.ts:220-227 | with one queued job, start and the activation it triggers make that job active and emit no further `APP_START` |
| `Scheduler.TwoJobChain` | src/index.ts:183-253 | with two queued jobs the first is started and `APP_START(null)` re-emitted; delivered at once, that event is a no-op; after skipping the first job, the next activation starts the first job again |
| `Scheduler.CompleteKeepsChainBlocked` | src/index.ts:183-262 | with two queued jobs, after start and the first activation, completing the active job leaves it active, so the next queue-driven activation changes, starts and emits nothing |
| `Scheduler.FailedSaveReemitRestarts` | src/index.ts:183-230 | when the activation's save of `activeJob` fails, `APP_START(null)` is still re-emitted, `activeJob` stays unset, and the re-emitted activation starts the head of the queue again |
| `Scheduler.StopBlocksQueue` | src/index.ts:284-290 | after a saved stop, queue-driven activations do nothing |
| `Findings.CompletedAsWritten` | src/index.ts:259-261 | as written: the update either keeps the stored list or appends the argument, and keeps it exactly when the argument is one of the freshly parsed objects |
| `Findings.CompletedAsWrittenAppends` | src/index.ts:259-261 | as written, the identity test never finds the freshly deserialised argument among freshly parsed entries, so the application is always appended |
| `Findings.CompleteTwiceRecordsTwice` | src/index.ts:259-261 | as written, completing the same application twice records it twice |
| `Findings.CompleteTwiceRecordsOnce` | src/index.ts:259-261 | corrected: completing the same application twice leaves `completedApps` as one completion did, without repeats |
| `Findings.SkipAsWritten` | src/index.ts:235-245 | as written: nothing happens exactly when the job is already skipped in what the read returned; when that read fell back to the default document, the next read sees the skip whether or not the save succeeded |
| `Findings.SkipAsWrittenChangesDefault` | src/index.ts:235-245 | as written, a skip on an unreadable store whose save fails changes the shared default document, and a repeated skip is then silently ignored |
| `Findings.FailedSkipIsInvisible` | src/index.ts:235-247 | corrected: a skip whose save fails leaves the next read as it was (the default when nothing is persisted), and the skip can take effect again |

## Findings

| source | as written | input that shows it | evidently intended | confidence | as-written member | corrected member |
|---|---|---|---|---|---|---|
| src/index.ts:259-261 | `(completedApps \|\| []).includes(app)` compares object identity, but `app` is deserialised afresh by the IPC layer and `completedApps` is parsed afresh by `getState`, so the test never succeeds | completing the same application twice | append the application only when an equal record is not already there | high for the behaviour; medium for the intent; not executed | `Findings.CompleteTwiceRecordsTwice` | `Findings.CompleteTwiceRecordsOnce` |
| src/index.ts:235-245 | when nothing is persisted, `getState` returns the module-level `initState` object itself, and skip pushes into it and sets `activeJob` on it | unreadable store and failing write, then `app:skip(A)`, then a read (or `app:skip(A)` again) | every failed read returns the unmodified default document | medium, because it rests on the src/utils/state.ts shown here returning `initState` itself, and src/index.ts builds against a newer version of that file (see "Left out"); not executed | `Findings.SkipAsWrittenChangesDefault` | `Findings.FailedSkipIsInvisible` |

## Left out

- The Electron shell is not modelled. This covers window creation, protocol-client registration, the single-instance lock, the `static://` protocol, auto-update and `open:link` (src/index.ts:12-142, 325-329). It is OS and UI glue.
- `getAppAuth` (src/index.ts:35-62) is not modelled. It parses tokens out of a URL and calls the remote auth service, both foreign APIs.
- src/api/index.ts (the HTTP client) and src/app/layout.tsx (UI routing) are not part of this model.
- The `questions:*` and `resume:*` handlers are left out. They call code in modules that are not part of this model.
- The `state` handler is not a separate member. It is `Store.GetState`.
- The event bus (`./events`) and the page driver (`./config/app`) are not part of this model. The bus is a queue of emitted events. A driver call is an entry in `visits` plus a success flag.
- File I/O and JSON are not modelled byte for byte:
  - the store is one field;
  - a failed write leaves the old document intact, so a partly written file is not modelled;
  - `path.join` normalisation is not modelled: paths are lists of segments;
  - a persisted value that parses but is not a `BEState` record is not modelled.
- JSON numbers are modelled as mathematical integers. Fractional speeds and counter overflow to floating point are not modelled.
- `null` and `undefined` are one `None` for `activeJob`. Handlers read the field only for truthiness, but the serialised files differ.
- Concurrency is not modelled. Handlers are fire-and-forget and interleave at every `await`, so an overlapping load/save can lose an update. Here each handler and each activation is one atomic step.
- The 1000 ms settle delay is dropped. It only orders the `finally` block after the driver call.
- An application without a `job` (the `job?.id` and `_get(..., "")` defaults in skip and complete) is not modelled. `Application.job` is always present.
- `State.Store.GetState`: on an unsupported platform `getAppDataPath` ends the process (src/utils/state.ts:46-48), which the `try` in `getState` does not catch; the model's store always has a location, so the read never fails.
- The src/utils/state.ts modelled here is older than the one src/index.ts imports from: src/index.ts:2 imports `Application`, `getAllQuestion`, `getResume`, `readQuestion`, `saveQuestion` and `saveResume`, which it does not export, and its `BEState` lacks fields src/index.ts writes. The model takes those fields (`activeJob`, `isAppRunning`, `skippedApps`, `completedApps`, `auth`) from src/index.ts.
- `State.BEState` has exactly eleven fields. A persisted document with further fields keeps them through every handler's spread, which the model cannot state.
- `Handlers.CompletedWith`: compares records by value, where src/index.ts:259 compares object identity. This is the corrected behaviour of the first finding; the as-written update is `Findings.CompletedAsWritten`.
- `Handlers.CompletedWithTwice`: holds for the corrected comparison only. As written, completing twice records the application twice (`Findings.CompleteTwiceRecordsTwice`).
- `Handlers.HistoryStaysTidy`: its `completedApps` clause holds for the corrected comparison only. As written, complete adds a repeat.
- `Scheduler.Backend.Complete`: follows `Handlers.CompleteDoc`, so it compares `completedApps` records by value, not by identity as src/index.ts:259 does.
- `Handlers.CompleteDoc`: records in `completedApps` are compared by value, not by object identity. This is the corrected behaviour of the first finding. The as-written behaviour is in `Findings.CompletedAsWritten`.
- `Scheduler.Backend.Skip`: a read of an empty store always yields a fresh default document. This is the corrected behaviour of the second finding. The as-written behaviour is in `Findings.SkipAsWritten`.
- `Scheduler.Backend.SetSpeed` takes `isApp` as a boolean. Other truthy or falsy IPC arguments are not modelled. The argument to `settings:save` is taken to be an object.
- `runApplying`'s return value (always null or undefined) is not modelled. Its rejection when the `finally` block reads an absent `jobs` is modelled only as "nothing is emitted".
