/** The persisted application document and the helpers built on it
    (src/utils/state.ts). */
module State {
  import opened Wrappers

  /** A JSON value: the parts of the document the core carries without
      interpreting them (questions, settings, auth, extra application fields). */
  datatype Value =
    | Null
    | Bool(b: bool)
    | Num(n: int)
    | Str(s: string)
    | Arr(items: seq<Value>)
    | Obj(fields: map<string, Value>)

  /** A job posting; its identity is `id`. */
  datatype AppJob = AppJob(id: string, company: string, title: string, easyApply: bool)

  /** The record of applying to (or declining) a job; `rest` holds the fields
      the core never looks at. */
  datatype Application = Application(job: AppJob, rest: map<string, Value>)

  /** The single root document. Fields the source may leave undefined are
      `Option`s; `activeJob` maps both `null` and `undefined` to `None`. */
  datatype BEState = BEState(
    jobs: Option<seq<AppJob>>,
    applied: Option<seq<AppJob>>,
    questions: seq<Value>,
    count: int,
    isListRunning: Option<bool>,
    isAppRunning: Option<bool>,
    activeJob: Option<AppJob>,
    skippedApps: Option<seq<Application>>,
    completedApps: Option<seq<Application>>,
    settings: Option<map<string, Value>>,
    auth: Option<map<string, Value>>)

  /** The default document: empty queue and history, counter 0, listing stopped. */
  const InitState: BEState :=
    BEState(Some([]), Some([]), [], 0, Some(false), None, None, None, None, None, None)

  /** `list || []` */
  function OrEmpty<T>(list: Option<seq<T>>): seq<T> {
    if list.Some? then list.value else []
  }

  // ---------------------------------------------------------------------------
  // Deduplication by id (lodash `uniqBy(list, "id")`)
  // ---------------------------------------------------------------------------

  predicate HasId(list: seq<AppJob>, id: string) {
    exists k :: 0 <= k < |list| && list[k].id == id
  }

  predicate DistinctIds(list: seq<AppJob>) {
    forall i, j :: 0 <= i < j < |list| ==> list[i].id != list[j].id
  }

  /** Scans left to right and keeps an element only when no earlier kept
      element, and nothing in `seen`, has its id: the first occurrence wins. */
  function UniqByIdFrom(list: seq<AppJob>, seen: set<string>): seq<AppJob>
    decreases |list|
  {
    if list == [] then []
    else if list[0].id in seen then UniqByIdFrom(list[1..], seen)
    else [list[0]] + UniqByIdFrom(list[1..], seen + {list[0].id})
  }

  function UniqById(list: seq<AppJob>): seq<AppJob> {
    UniqByIdFrom(list, {})
  }

  /** What `uniqBy` keeps has distinct ids, none of them already seen, and every
      kept element comes from the input. */
  lemma {:induction false} UniqByIdFromSound(list: seq<AppJob>, seen: set<string>)
    ensures DistinctIds(UniqByIdFrom(list, seen))
    ensures forall k :: 0 <= k < |UniqByIdFrom(list, seen)| ==>
      UniqByIdFrom(list, seen)[k].id !in seen && UniqByIdFrom(list, seen)[k] in list
    decreases |list|
  {
    if list != [] {
      var x := list[0];
      UniqByIdFromSound(list[1..], seen);
      UniqByIdFromSound(list[1..], seen + {x.id});
    }
  }

  /** No id is lost: an id survives exactly when it occurs in the input and was
      not already seen. */
  lemma {:induction false} UniqByIdFromIds(list: seq<AppJob>, seen: set<string>, id: string)
    ensures HasId(UniqByIdFrom(list, seen), id) <==> HasId(list, id) && id !in seen
    decreases |list|
  {
    if list != [] {
      var x, tail := list[0], list[1..];
      assert forall k :: 1 <= k < |list| ==> list[k] == tail[k - 1];
      if HasId(tail, id) {
        var k :| 0 <= k < |tail| && tail[k].id == id;
        assert list[k + 1].id == id;
      }
      if HasId(list, id) && x.id != id {
        var k :| 0 <= k < |list| && list[k].id == id;
        assert tail[k - 1].id == id;
      }
      if x.id in seen {
        UniqByIdFromIds(tail, seen, id);
      } else {
        UniqByIdFromIds(tail, seen + {x.id}, id);
        var r := UniqByIdFrom(list, seen);
        assert r[0] == x;
        var rt := UniqByIdFrom(tail, seen + {x.id});
        assert r == [x] + rt;
        if HasId(rt, id) {
          var k :| 0 <= k < |rt| && rt[k].id == id;
          assert r[k + 1].id == id;
        }
        if HasId(r, id) && x.id != id {
          var k :| 0 <= k < |r| && r[k].id == id;
          assert rt[k - 1].id == id;
        }
      }
    }
  }

  /** Appending one job and deduplicating is deduplicating the old list and then
      appending the job unless its id is already there. */
  lemma {:induction false} UniqByIdFromAppend(list: seq<AppJob>, seen: set<string>, job: AppJob)
    ensures UniqByIdFrom(list + [job], seen) ==
      UniqByIdFrom(list, seen) + (if job.id in seen || HasId(list, job.id) then [] else [job])
    decreases |list|
  {
    if list == [] {
      assert [] + [job] == [job];
      assert UniqByIdFrom([job][1..], seen + {job.id}) == [];
      assert UniqByIdFrom([job][1..], seen) == [];
    } else {
      var x, tail := list[0], list[1..];
      assert (list + [job])[0] == x;
      assert (list + [job])[1..] == tail + [job];
      assert HasId(list, job.id) <==> x.id == job.id || HasId(tail, job.id) by {
        if HasId(tail, job.id) {
          var k :| 0 <= k < |tail| && tail[k].id == job.id;
          assert list[k + 1].id == job.id;
        }
        if HasId(list, job.id) && x.id != job.id {
          var k :| 0 <= k < |list| && list[k].id == job.id;
          assert tail[k - 1].id == job.id;
        }
      }
      if x.id in seen {
        UniqByIdFromAppend(tail, seen, job);
      } else {
        UniqByIdFromAppend(tail, seen + {x.id}, job);
      }
    }
  }

  /** A list whose ids are already distinct, and not seen, is left as it is. */
  lemma {:induction false} UniqByIdFromKeepsDistinct(list: seq<AppJob>, seen: set<string>)
    requires DistinctIds(list)
    requires forall k :: 0 <= k < |list| ==> list[k].id !in seen
    ensures UniqByIdFrom(list, seen) == list
    decreases |list|
  {
    if list != [] {
      var x, tail := list[0], list[1..];
      assert forall k :: 0 <= k < |tail| ==> tail[k] == list[k + 1];
      UniqByIdFromKeepsDistinct(tail, seen + {x.id});
    }
  }

  /** Appending to a list that is deduplicated already: the list is unchanged
      when the id is present, otherwise the job goes at the end and the earlier
      order is kept. */
  lemma AppendDedup(list: seq<AppJob>, job: AppJob)
    ensures DistinctIds(list) ==>
      UniqById(list + [job]) == if HasId(list, job.id) then list else list + [job]
  {
    if DistinctIds(list) {
      UniqByIdFromAppend(list, {}, job);
      UniqByIdFromKeepsDistinct(list, {});
    }
  }

  /** After appending a job and deduplicating, the ids present are the old ones
      plus the job's. */
  lemma AppendedIds(list: seq<AppJob>, job: AppJob)
    ensures forall id :: HasId(UniqById(list + [job]), id) <==> id == job.id || HasId(list, id)
  {
    var all := list + [job];
    forall id ensures HasId(UniqById(all), id) <==> id == job.id || HasId(list, id) {
      UniqByIdFromIds(all, {}, id);
      assert all[|list|] == job;
      if HasId(list, id) {
        var k :| 0 <= k < |list| && list[k].id == id;
        assert all[k].id == id;
      }
      if HasId(all, id) && id != job.id {
        var k :| 0 <= k < |all| && all[k].id == id;
        assert list[k].id == id;
      }
    }
  }

  /** The document `addApplied` writes: `applied` (missing reads as empty) gains
      `job` deduplicated by id, and no other field changes. */
  function WithApplied(s: BEState, job: AppJob): (r: BEState)
    ensures r.applied.Some? && DistinctIds(r.applied.value)
    ensures HasId(r.applied.value, job.id)
    ensures forall id :: HasId(r.applied.value, id) <==> id == job.id || HasId(OrEmpty(s.applied), id)
    ensures r.applied.value ==
      UniqById(OrEmpty(s.applied)) + (if HasId(OrEmpty(s.applied), job.id) then [] else [job])
    ensures r.(applied := s.applied) == s
  {
    var prior := OrEmpty(s.applied);
    UniqByIdFromSound(prior + [job], {});
    UniqByIdFromAppend(prior, {}, job);
    AppendedIds(prior, job);
    s.(applied := Some(UniqById(prior + [job])))
  }

  /** The document `addJob` writes: the same dedup-and-append on `jobs`. */
  function WithJob(s: BEState, job: AppJob): (r: BEState)
    ensures r.jobs.Some? && DistinctIds(r.jobs.value)
    ensures HasId(r.jobs.value, job.id)
    ensures forall id :: HasId(r.jobs.value, id) <==> id == job.id || HasId(OrEmpty(s.jobs), id)
    ensures r.jobs.value ==
      UniqById(OrEmpty(s.jobs)) + (if HasId(OrEmpty(s.jobs), job.id) then [] else [job])
    ensures DistinctIds(OrEmpty(s.jobs)) ==>
      r.jobs.value == if HasId(OrEmpty(s.jobs), job.id) then OrEmpty(s.jobs) else OrEmpty(s.jobs) + [job]
    ensures r.(jobs := s.jobs) == s
  {
    var prior := OrEmpty(s.jobs);
    UniqByIdFromSound(prior + [job], {});
    UniqByIdFromAppend(prior, {}, job);
    AppendedIds(prior, job);
    AppendDedup(prior, job);
    s.(jobs := Some(UniqById(prior + [job])))
  }

  /** Adding the same job twice leaves exactly what adding it once left, so its
      id occurs once. */
  lemma AddAppliedTwice(s: BEState, job: AppJob, again: AppJob)
    requires again.id == job.id
    ensures WithApplied(WithApplied(s, job), again) == WithApplied(s, job)
  {
    var once := WithApplied(s, job);
    AppendDedup(once.applied.value, again);
  }

  // ---------------------------------------------------------------------------
  // Where the document lives (getAppDataPath)
  // ---------------------------------------------------------------------------

  datatype Platform = Darwin | Win32 | Linux | OtherPlatform(name: string)

  datatype PathError =
    | UnsupportedPlatform(platform: string)  // the source logs and exits the process
    | MissingVariable(variable: string)      // `path.join` rejects an undefined segment

  /** The environment variable the platform's base directory comes from. */
  function BaseVariable(p: Platform): string {
    if p == Win32 then "APPDATA" else "HOME"
  }

  /** The application-data directory, as path segments. */
  function AppDataPath(p: Platform, env: map<string, string>, appName: string): (r: Result<seq<string>, PathError>)
    ensures r.Err? <==> p.OtherPlatform? || BaseVariable(p) !in env
    ensures r.Err? && p.OtherPlatform? ==> r.error == UnsupportedPlatform(p.name)
    ensures r.Ok? ==> |r.value| >= 2 && r.value[0] == env[BaseVariable(p)]
    ensures r.Ok? ==> r.value[|r.value| - 1] == if p == Linux then "." + appName else appName
    ensures r.Ok? && p == Darwin ==> r.value[1..|r.value| - 1] == ["Library", "Application Support"]
    ensures r.Ok? && p != Darwin ==> |r.value| == 2
  {
    match p
    case OtherPlatform(name) => Err(UnsupportedPlatform(name))
    case Darwin =>
      if "HOME" in env then Ok([env["HOME"], "Library", "Application Support", appName])
      else Err(MissingVariable("HOME"))
    case Win32 =>
      if "APPDATA" in env then Ok([env["APPDATA"], appName]) else Err(MissingVariable("APPDATA"))
    case Linux =>
      if "HOME" in env then Ok([env["HOME"], "." + appName]) else Err(MissingVariable("HOME"))
  }

  // ---------------------------------------------------------------------------
  // The store: one persisted document, read whole and written whole
  // ---------------------------------------------------------------------------

  /** What a read returns: the persisted document, or the default. */
  function Load(disk: Option<BEState>): BEState {
    if disk.Some? then disk.value else InitState
  }

  /** The persisted document after a save that succeeded (`writeOk`) or failed. */
  function Saved(disk: Option<BEState>, doc: BEState, writeOk: bool): Option<BEState> {
    if writeOk then Some(doc) else disk
  }

  /** A save that succeeded is what every later read returns; a failed one
      leaves the next read where it was. */
  lemma SaveThenLoad(disk: Option<BEState>, doc: BEState, writeOk: bool)
    ensures writeOk ==> Load(Saved(disk, doc, writeOk)) == doc
    ensures !writeOk ==> Load(Saved(disk, doc, writeOk)) == Load(disk)
  {
  }

  /** The file `state.json` in the application-data directory. `disk` is
      `None` when the file is missing,
      unreadable, not JSON or an empty value; whether a write succeeds is the
      caller-supplied outcome of the file system. */
  class Store {
    var disk: Option<BEState>

    constructor (persisted: Option<BEState>)
      ensures disk == persisted
    {
      disk := persisted;
    }

    /** `getState` on a supported platform: the persisted document if there
        is one, otherwise the default document. */
    method GetState() returns (s: BEState)
      ensures disk.Some? ==> s == disk.value
      ensures disk.None? ==> s == InitState
    {
      if disk.Some? {
        s := disk.value;
      } else {
        s := InitState;
      }
    }

    /** `setState`: overwrites the whole document and reports success; a
        failed write is reported as `false` and changes nothing. */
    method SetState(doc: BEState, writeOk: bool) returns (ok: bool)
      modifies this
      ensures ok == writeOk
      ensures ok ==> disk == Some(doc)
      ensures !ok ==> disk == old(disk)
    {
      if writeOk {
        disk := Some(doc);
      }
      ok := writeOk;
    }

    /** `addApplied`: read, add the job to `applied`, save, and return the new
        document whether or not the save succeeded. */
    method AddApplied(job: AppJob, writeOk: bool) returns (s: BEState)
      modifies this
      ensures s == WithApplied(Load(old(disk)), job)
      ensures disk == Saved(old(disk), s, writeOk)
    {
      var state := GetState();
      s := WithApplied(state, job);
      var _ := SetState(s, writeOk);
    }

    /** `addJob`: the same for the pending queue. */
    method AddJob(job: AppJob, writeOk: bool) returns (s: BEState)
      modifies this
      ensures s == WithJob(Load(old(disk)), job)
      ensures disk == Saved(old(disk), s, writeOk)
    {
      var state := GetState();
      s := WithJob(state, job);
      var _ := SetState(s, writeOk);
    }
  }
}
