/** The command handlers of src/index.ts, each as the transition it makes on the
    document it has just read. The store and the event bus they go through are
    in module Scheduler. */
module Handlers {
  import opened Wrappers
  import opened State

  /** JavaScript truthiness of an optional flag. */
  predicate IsTrue(flag: Option<bool>) {
    flag == Some(true)
  }

  function Skipped(s: BEState): seq<Application> { OrEmpty(s.skippedApps) }

  function Completed(s: BEState): seq<Application> { OrEmpty(s.completedApps) }

  function SettingsOf(s: BEState): map<string, Value> {
    if s.settings.Some? then s.settings.value else map[]
  }

  // ---------------------------------------------------------------------------
  // app:skip
  // ---------------------------------------------------------------------------

  /** `skippedApps.some(a => a.job.id === id)` */
  predicate IsSkipped(list: seq<Application>, id: string) {
    exists k :: 0 <= k < |list| && list[k].job.id == id
  }

  /** At most one skipped entry per job id. */
  predicate UniqueSkipped(list: seq<Application>) {
    forall i, j :: 0 <= i < j < |list| ==> list[i].job.id != list[j].job.id
  }

  /** The skip handler's transition: `None` when an entry with the same job id
      is already skipped (nothing is saved); otherwise the application joins the
      end of `skippedApps` (created when absent), `activeJob` is cleared, and
      every other field, `jobs` and `applied` included, is kept. */
  function SkipDoc(s: BEState, app: Application): (r: Option<BEState>)
    ensures r.None? <==> IsSkipped(Skipped(s), app.job.id)
    ensures r.Some? ==> r.value.skippedApps == Some(Skipped(s) + [app])
    ensures r.Some? ==> r.value.activeJob.None?
    ensures r.Some? ==> r.value.(skippedApps := s.skippedApps, activeJob := s.activeJob) == s
  {
    if s.skippedApps.Some? then
      if IsSkipped(s.skippedApps.value, app.job.id) then None
      else Some(s.(skippedApps := Some(s.skippedApps.value + [app]), activeJob := None))
    else
      assert Skipped(s) + [app] == [app];
      Some(s.(skippedApps := Some([app]), activeJob := None))
  }

  /** Skipping an application whose job is already skipped changes nothing, so
      skipping twice leaves what skipping once left. */
  lemma SkipTwice(s: BEState, app: Application, again: Application)
    requires again.job.id == app.job.id
    requires SkipDoc(s, app).Some?
    ensures SkipDoc(SkipDoc(s, app).value, again).None?
  {
    var t := SkipDoc(s, app).value;
    assert Skipped(t)[|Skipped(s)|] == app;
  }

  /** Skip keeps `skippedApps` free of two entries for the same job. */
  lemma SkipKeepsUnique(s: BEState, app: Application)
    requires UniqueSkipped(Skipped(s))
    requires SkipDoc(s, app).Some?
    ensures UniqueSkipped(Skipped(SkipDoc(s, app).value))
  {

  }

  // ---------------------------------------------------------------------------
  // app:complete
  // ---------------------------------------------------------------------------

  /** `list.filter(a => a.job.id !== id)`: drops every entry for the job and
      keeps the rest in order. */
  function WithoutJob(list: seq<Application>, id: string): (r: seq<Application>)
    ensures forall a :: a in r <==> a in list && a.job.id != id
    ensures !IsSkipped(r, id)
    ensures |r| <= |list|
    ensures !IsSkipped(list, id) ==> r == list
    decreases |list|
  {
    if list == [] then []
    else
      var rest := WithoutJob(list[1..], id);
      assert IsSkipped(list[1..], id) ==> IsSkipped(list, id) by {
        if IsSkipped(list[1..], id) {
          var k :| 0 <= k < |list[1..]| && list[1..][k].job.id == id;
          assert list[k + 1].job.id == id;
        }
      }
      assert list == [list[0]] + list[1..];
      if list[0].job.id == id then rest else [list[0]] + rest
  }

  /** The filter works entry by entry: filtering a concatenation is filtering
      each part, so the kept entries keep their order and their number. */
  lemma {:induction false} WithoutJobAppend(xs: seq<Application>, ys: seq<Application>, id: string)
    ensures WithoutJob(xs + ys, id) == WithoutJob(xs, id) + WithoutJob(ys, id)
    decreases |xs|
  {
    if xs != [] {
      assert (xs + ys)[0] == xs[0];
      assert (xs + ys)[1..] == xs[1..] + ys;
      WithoutJobAppend(xs[1..], ys, id);
    } else {
      assert xs + ys == ys;
    }
  }

  /** Filtering keeps `skippedApps` free of two entries for the same job. */
  lemma {:induction false} WithoutJobKeepsUnique(list: seq<Application>, id: string)
    requires UniqueSkipped(list)
    ensures UniqueSkipped(WithoutJob(list, id))
    decreases |list|
  {
    if list != [] {
      var x, tail := list[0], list[1..];
      assert UniqueSkipped(tail) by {
        forall i, j | 0 <= i < j < |tail| ensures tail[i].job.id != tail[j].job.id {
          assert tail[i] == list[i + 1] && tail[j] == list[j + 1];
        }
      }
      WithoutJobKeepsUnique(tail, id);
      var rest := WithoutJob(tail, id);
      if x.job.id != id {
        var r := [x] + rest;
        forall i, j | 0 <= i < j < |r| ensures r[i].job.id != r[j].job.id {
          if i == 0 {
            assert r[j] in tail;
            var m :| 0 <= m < |tail| && tail[m] == r[j];
            assert list[m + 1] == r[j];
          } else {
            assert r[i] == rest[i - 1] && r[j] == rest[j - 1];
          }
        }
      }
    }
  }

  /** `completedApps` gains the application unless an equal record is already
      there. */
  function CompletedWith(list: seq<Application>, app: Application): (r: seq<Application>)
    ensures app in r
    ensures forall x :: x in r <==> x in list || x == app
    ensures app in list ==> r == list
    ensures app !in list ==> r == list + [app]
  {
    if app in list then list else list + [app]
  }

  /** No two equal records. */
  predicate NoRepeats(list: seq<Application>) {
    forall i, j :: 0 <= i < j < |list| ==> list[i] != list[j]
  }

  /** Completing the same application twice records it once, and a list without
      repeats keeps none. */
  lemma CompletedWithTwice(list: seq<Application>, app: Application)
    ensures CompletedWith(CompletedWith(list, app), app) == CompletedWith(list, app)
    ensures NoRepeats(list) ==> NoRepeats(CompletedWith(list, app))
  {
  }

  /** The document the complete handler's second save writes, starting from
      the document its first save (inside `addApplied`) wrote: `applied` gains
      the job (by id), every skipped entry for the job goes and the rest stay
      in order, `completedApps` gains the application unless an equal record
      is there, and everything else, `activeJob` included, is kept. */
  function CompleteDoc(s: BEState, app: Application): (r: BEState)
    ensures r.applied == WithApplied(s, app.job).applied
    ensures HasId(OrEmpty(r.applied), app.job.id) && DistinctIds(OrEmpty(r.applied))
    ensures r.skippedApps.Some? && !IsSkipped(r.skippedApps.value, app.job.id)
    ensures forall a :: a in Skipped(s) && a.job.id != app.job.id ==> a in Skipped(r)
    ensures forall a :: a in Skipped(r) ==> a in Skipped(s)
    ensures Skipped(r) == WithoutJob(Skipped(s), app.job.id)
    ensures r.completedApps.Some? && app in r.completedApps.value
    ensures forall a :: a in Completed(r) <==> a in Completed(s) || a == app
    ensures Completed(r) == CompletedWith(Completed(s), app)
    ensures r.activeJob == s.activeJob && r.jobs == s.jobs
    ensures r.(applied := s.applied, skippedApps := s.skippedApps, completedApps := s.completedApps) == s
  {
    var t := WithApplied(s, app.job);
    t.(skippedApps := Some(WithoutJob(Skipped(t), app.job.id)),
       completedApps := Some(CompletedWith(Completed(t), app)))
  }

  // ---------------------------------------------------------------------------
  // app:start, app:stop, list:start, list:stop
  // ---------------------------------------------------------------------------

  /** `setAppStartStop`: the run flag becomes `isStart` and the active job is
      cleared. */
  function AppRunning(s: BEState, isStart: bool): (r: BEState)
    ensures r.isAppRunning == Some(isStart) && r.activeJob.None?
    ensures r.(isAppRunning := s.isAppRunning, activeJob := s.activeJob) == s
  {
    s.(isAppRunning := Some(isStart), activeJob := None)
  }

  /** `setListStartStop`: only the listing flag changes. */
  function ListRunning(s: BEState, isStart: bool): (r: BEState)
    ensures r.isListRunning == Some(isStart)
    ensures r.(isListRunning := s.isListRunning) == s
  {
    s.(isListRunning := Some(isStart))
  }

  // ---------------------------------------------------------------------------
  // settings:save, change:speed, speed:default, logout, my-invokable-ipc
  // ---------------------------------------------------------------------------

  /** `{ ...state.settings, ...settings }`: every key of the update wins, every
      other key keeps its old value; nothing outside `settings` changes. */
  function SettingsSaved(s: BEState, update: map<string, Value>): (r: BEState)
    ensures r.settings.Some?
    ensures r.settings.value.Keys == SettingsOf(s).Keys + update.Keys
    ensures forall k :: k in update ==> r.settings.value[k] == update[k]
    ensures forall k :: k in SettingsOf(s) && k !in update ==> r.settings.value[k] == SettingsOf(s)[k]
    ensures r.(settings := s.settings) == s
  {
    s.(settings := Some(SettingsOf(s) + update))
  }

  const SpeedApplyKey: string := "speedApply"
  const SpeedJobsKey: string := "speedJobs"
  const DefaultSpeedApply: int := 500
  const DefaultSpeedJobs: int := 100

  function SpeedKey(isApp: bool): string {
    if isApp then SpeedApplyKey else SpeedJobsKey
  }

  /** The speed setting a document holds under `key`, if any. */
  function Speed(s: BEState, key: string): Option<Value> {
    if key in SettingsOf(s) then Some(SettingsOf(s)[key]) else None
  }

  /** `setSpeed(isApp, value)`: the apply speed (when `isApp`) or the jobs
      speed takes `value`; every other setting and field is kept. */
  function SpeedSet(s: BEState, isApp: bool, value: Value): (r: BEState)
    ensures Speed(r, SpeedKey(isApp)) == Some(value)
    ensures forall k :: k != SpeedKey(isApp) ==> Speed(r, k) == Speed(s, k)
    ensures r.(settings := s.settings) == s
  {
    s.(settings := Some(SettingsOf(s)[SpeedKey(isApp) := value]))
  }

  /** `setSpeed(null, null, true)`: apply speed 500 and jobs speed 100, every
      other setting and field kept. */
  function SpeedReset(s: BEState): (r: BEState)
    ensures Speed(r, SpeedApplyKey) == Some(Num(DefaultSpeedApply))
    ensures Speed(r, SpeedJobsKey) == Some(Num(DefaultSpeedJobs))
    ensures forall k :: k != SpeedApplyKey && k != SpeedJobsKey ==> Speed(r, k) == Speed(s, k)
    ensures r.(settings := s.settings) == s
  {
    s.(settings := Some(SettingsOf(s)[SpeedApplyKey := Num(DefaultSpeedApply)][SpeedJobsKey := Num(DefaultSpeedJobs)]))
  }

  /** Resetting twice is resetting once, and a reset undoes any earlier speed
      change. */
  lemma SpeedResetAbsorbs(s: BEState, isApp: bool, value: Value)
    ensures SpeedReset(SpeedReset(s)) == SpeedReset(s)
    ensures SpeedReset(SpeedSet(s, isApp, value)) == SpeedReset(s)
  {
    var m := SettingsOf(s);
    assert m[SpeedApplyKey := Num(DefaultSpeedApply)][SpeedJobsKey := Num(DefaultSpeedJobs)]
      [SpeedApplyKey := Num(DefaultSpeedApply)][SpeedJobsKey := Num(DefaultSpeedJobs)]
      == m[SpeedApplyKey := Num(DefaultSpeedApply)][SpeedJobsKey := Num(DefaultSpeedJobs)];
    assert m[SpeedKey(isApp) := value][SpeedApplyKey := Num(DefaultSpeedApply)][SpeedJobsKey := Num(DefaultSpeedJobs)]
      == m[SpeedApplyKey := Num(DefaultSpeedApply)][SpeedJobsKey := Num(DefaultSpeedJobs)];
  }

  /** A speed change, and a reset, are the settings save of the keys they
      write. */
  lemma SpeedIsSettingsSave(s: BEState, isApp: bool, value: Value)
    ensures SpeedSet(s, isApp, value) == SettingsSaved(s, map[SpeedKey(isApp) := value])
    ensures SpeedReset(s) ==
      SettingsSaved(s, map[SpeedApplyKey := Num(DefaultSpeedApply), SpeedJobsKey := Num(DefaultSpeedJobs)])
  {
    var m := SettingsOf(s);
    assert m[SpeedKey(isApp) := value] == m + map[SpeedKey(isApp) := value];
    assert m[SpeedApplyKey := Num(DefaultSpeedApply)][SpeedJobsKey := Num(DefaultSpeedJobs)]
      == m + map[SpeedApplyKey := Num(DefaultSpeedApply), SpeedJobsKey := Num(DefaultSpeedJobs)];
  }

  /** `logout`: the credentials become the empty object. */
  function LoggedOut(s: BEState): (r: BEState)
    ensures r.auth == Some(map[])
    ensures r.(auth := s.auth) == s
  {
    s.(auth := Some(map[]))
  }

  /** `my-invokable-ipc`: the counter goes up by one. */
  function Incremented(s: BEState): (r: BEState)
    ensures r.count == s.count + 1
    ensures r.(count := s.count) == s
  {
    s.(count := s.count + 1)
  }

  // ---------------------------------------------------------------------------
  // What the handlers keep true of the document
  // ---------------------------------------------------------------------------

  /** The history lists are deduplicated: `applied` by job id, `skippedApps` by
      the application's job id, `completedApps` by record. */
  predicate Tidy(s: BEState) {
    && DistinctIds(OrEmpty(s.applied))
    && UniqueSkipped(Skipped(s))
    && NoRepeats(Completed(s))
  }

  lemma DefaultIsTidy()
    ensures Tidy(InitState)
  {
  }

  /** Skip and complete keep the history lists deduplicated; complete makes
      `applied` deduplicated even when it was not. */
  lemma HistoryStaysTidy(s: BEState, app: Application)
    requires Tidy(s)
    ensures SkipDoc(s, app).Some? ==> Tidy(SkipDoc(s, app).value)
    ensures Tidy(WithApplied(s, app.job))
    ensures Tidy(CompleteDoc(s, app))
  {
    if SkipDoc(s, app).Some? {
      SkipKeepsUnique(s, app);
    }
    WithoutJobKeepsUnique(Skipped(WithApplied(s, app.job)), app.job.id);
    CompletedWithTwice(Completed(s), app);
  }

  /** After complete, the job is applied and not skipped, whatever happened
      before; skipping it again afterwards puts it back among the skipped. */
  lemma CompleteThenSkip(s: BEState, app: Application)
    ensures !IsSkipped(Skipped(CompleteDoc(s, app)), app.job.id)
    ensures SkipDoc(CompleteDoc(s, app), app).Some?
  {
  }
}
