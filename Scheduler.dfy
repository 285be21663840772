/** The application scheduler (`runApplying`) and the command surface of
    src/index.ts, over one store and one event bus. */
module Scheduler {
  import opened Wrappers
  import opened State
  import opened Handlers

  /** The signals on the event bus. `AppStart(None)` means "take the head of the
      queue"; `AppStart(Some(j))` asks for `j` on demand. */
  datatype Event = AppStart(ondemand: Option<AppJob>) | AppStop(jobId: string) | ListStop

  /** A call into the page driver. */
  datatype Visit = AppPage(job: AppJob) | MainPage(url: string)

  /** `cantRun`: a job is already active, or the automatic run is off. */
  predicate CantRun(s: BEState) {
    s.activeJob.Some? || !IsTrue(s.isAppRunning)
  }

  /** `jobs[1]` exists. An absent queue makes the source throw, which emits nothing. */
  predicate HasSecond(jobs: Option<seq<AppJob>>) {
    jobs.Some? && |jobs.value| >= 2
  }

  /** The job one activation starts, given the document it read: the on-demand
      job whenever there is one; otherwise, unless blocked, the head of the
      queue (none for an empty queue, and none for an absent one, where the
      source throws before saving anything). */
  function Picked(s: BEState, ondemand: Option<AppJob>): Option<AppJob> {
    if ondemand.Some? then ondemand
    else if CantRun(s) then None
    else if s.jobs.Some? && |s.jobs.value| > 0 then Some(s.jobs.value[0])
    else None
  }

  /** What one activation leaves behind: the persisted document, the job it
      started (and sent to the page driver), and the event it re-emits. */
  datatype RunOutcome = RunOutcome(disk: Option<BEState>, started: Option<AppJob>, emitted: Option<Event>)

  /** One `runApplying` invocation, taken as one atomic step: read, pick, save
      `activeJob`, drive the page, then re-read and decide whether to continue
      the chain. The page driver's outcome does not enter: a failure is caught
      and the `finally` block runs regardless. */
  function RunApplyingSpec(disk: Option<BEState>, ondemand: Option<AppJob>, writeOk: bool): (o: RunOutcome)
    ensures o.started.Some? <==> ondemand.Some? || (!CantRun(Load(disk)) && OrEmpty(Load(disk).jobs) != [])
    ensures o.started.None? ==> o.disk == disk
    ensures o.emitted.Some? ==> o.emitted.value == AppStart(None) && o.started.Some?
  {
    var s := Load(disk);
    var picked := Picked(s, ondemand);
    var after := if picked.Some? then Saved(disk, s.(activeJob := picked), writeOk) else disk;
    var continues := !CantRun(s) && HasSecond(Load(after).jobs);
    RunOutcome(after, picked, if continues then Some(AppStart(None)) else None)
  }

  /** A queue-driven activation that is blocked changes nothing and emits
      nothing: in particular it never replaces an active job. */
  lemma RunBlocked(disk: Option<BEState>, writeOk: bool)
    requires CantRun(Load(disk))
    ensures RunApplyingSpec(disk, None, writeOk) == RunOutcome(disk, None, None)
  {
  }

  /** The job started is the on-demand one if given, else the head of the queue
      when not blocked; it is persisted as `activeJob` with nothing else
      changed (when the save succeeds), and when no job is started the store
      is untouched. */
  lemma RunActivates(disk: Option<BEState>, ondemand: Option<AppJob>, writeOk: bool)
    ensures var o := RunApplyingSpec(disk, ondemand, writeOk);
      && (ondemand.Some? ==> o.started == ondemand)
      && (ondemand.None? && !CantRun(Load(disk)) ==>
            o.started == (if OrEmpty(Load(disk).jobs) == [] then None else Some(OrEmpty(Load(disk).jobs)[0])))
      && (o.started.Some? && writeOk ==> Load(o.disk) == Load(disk).(activeJob := o.started))
      && (o.started.Some? && !writeOk ==> o.disk == disk)
      && (o.started.None? ==> o.disk == disk)
  {
  }

  /** The second read in `finally` sees the queue the first read saw: the only
      save in between changes `activeJob` alone. */
  lemma RunKeepsQueue(disk: Option<BEState>, ondemand: Option<AppJob>, writeOk: bool)
    ensures Load(RunApplyingSpec(disk, ondemand, writeOk).disk).jobs == Load(disk).jobs
    ensures Load(RunApplyingSpec(disk, ondemand, writeOk).disk).(activeJob := Load(disk).activeJob) == Load(disk)
  {
  }

  /** `APP_START(null)` is re-emitted exactly when the scheduler was not blocked
      on entry and the queue has a second job; nothing else is ever emitted. */
  lemma RunContinuesIff(disk: Option<BEState>, ondemand: Option<AppJob>, writeOk: bool)
    ensures var o := RunApplyingSpec(disk, ondemand, writeOk);
      && (o.emitted.Some? <==> !CantRun(Load(disk)) && HasSecond(Load(disk).jobs))
      && (o.emitted.Some? ==> o.emitted.value == AppStart(None))
  {

  }

  /** An on-demand job is started even while the automatic run is off, so
      "an active job implies the run is on" is not an invariant. */
  lemma OnDemandIgnoresRunFlag(disk: Option<BEState>, job: AppJob)
    requires !IsTrue(Load(disk).isAppRunning)
    ensures var o := RunApplyingSpec(disk, Some(job), true);
      Load(o.disk).activeJob == Some(job) && !IsTrue(Load(o.disk).isAppRunning) && o.emitted.None?
  {
  }

  /** An on-demand job also replaces a job that is already active. */
  lemma OnDemandReplacesActive(disk: Option<BEState>, job: AppJob)
    requires Load(disk).activeJob.Some?
    ensures Load(RunApplyingSpec(disk, Some(job), true).disk).activeJob == Some(job)
  {
  }

  /** The listing flag plays no part in the application scheduler: setting or
      clearing it changes neither what an activation starts nor whether it
      continues the chain. */
  lemma ListingIndependent(s: BEState, isStart: bool, ondemand: Option<AppJob>, writeOk: bool)
    ensures var o := RunApplyingSpec(Some(s), ondemand, writeOk);
      var p := RunApplyingSpec(Some(ListRunning(s, isStart)), ondemand, writeOk);
      p.started == o.started && p.emitted == o.emitted
  {
  }

  // ---------------------------------------------------------------------------
  // The backend: store, event bus and page driver
  // ---------------------------------------------------------------------------

  /** The main process: the store it reads and writes, the events it has
      emitted and not yet delivered (a queue, in emission order), and the calls
      it has made into the page driver. Each handler runs as one step; every
      save's outcome and the page driver's outcome are parameters. */
  class Backend {
    const store: Store
    var events: seq<Event>
    var visits: seq<Visit>

    constructor (store: Store)
      ensures this.store == store && events == [] && visits == []
    {
      this.store := store;
      events, visits := [], [];
    }

    /** `runApplying(ondemand)`. `driverOk` is the page driver's outcome; both
        outcomes reach the finally block, which is why the contract does not
        mention it. */
    method RunApplying(ondemand: Option<AppJob>, writeOk: bool, driverOk: bool)
      modifies this, store
      ensures var o := RunApplyingSpec(old(store.disk), ondemand, writeOk);
        && store.disk == o.disk
        && events == old(events) + (if o.emitted.Some? then [o.emitted.value] else [])
        && visits == old(visits) + (if o.started.Some? then [AppPage(o.started.value)] else [])
    {
      var state := store.GetState();
      var cantRun := state.activeJob.Some? || !IsTrue(state.isAppRunning);
      if !cantRun || ondemand.Some? {
        var firstJob: Option<AppJob> := None;
        if ondemand.Some? {
          firstJob := ondemand;
        } else if state.jobs.Some? && |state.jobs.value| > 0 {
          firstJob := Some(state.jobs.value[0]);
        }
        // an absent queue throws here; the catch leaves firstJob unset
        if firstJob.Some? {
          var _ := store.SetState(state.(activeJob := firstJob), writeOk);
          visits := visits + [AppPage(firstJob.value)];
          if !driverOk {
            // the catch block: log, give up the settle delay, and fall
            // through to the finally block below like the success path
          }
        }
      }
      // finally
      var again := store.GetState();
      if again.jobs.Some? && |again.jobs.value| >= 2 && !cantRun {
        events := events + [AppStart(None)];
      }
    }

    /** Deliver the oldest pending event: `APP_START` runs `runApplying`; the
        other events' subscribers live outside the core. */
    method DispatchNext(writeOk: bool, driverOk: bool)
      modifies this, store
      ensures old(events) == [] ==> events == [] && store.disk == old(store.disk) && visits == old(visits)
      ensures old(events) != [] && !old(events)[0].AppStart? ==>
        events == old(events)[1..] && store.disk == old(store.disk) && visits == old(visits)
      ensures old(events) != [] && old(events)[0].AppStart? ==>
        var o := RunApplyingSpec(old(store.disk), old(events)[0].ondemand, writeOk);
        && store.disk == o.disk
        && events == old(events)[1..] + (if o.emitted.Some? then [o.emitted.value] else [])
        && visits == old(visits) + (if o.started.Some? then [AppPage(o.started.value)] else [])
    {
      if events != [] {
        var e := events[0];
        events := events[1..];
        if e.AppStart? {
          RunApplying(e.ondemand, writeOk, driverOk);
        }
      }
    }

    /** `app:skip`. Returns the new document, or `None` (`undefined`) when the
        argument is missing or the job is already skipped; only then is
        nothing saved and nothing emitted. */
    method Skip(app: Option<Application>, writeOk: bool) returns (r: Option<BEState>)
      modifies this, store
      ensures app.None? ==> r.None?
      ensures app.Some? ==> r == SkipDoc(Load(old(store.disk)), app.value)
      ensures r.None? ==> store.disk == old(store.disk) && events == old(events)
      ensures r.Some? ==>
        && store.disk == Saved(old(store.disk), r.value, writeOk)
        && events == old(events) + [AppStop(app.value.job.id)]
      ensures visits == old(visits)
    {
      if app.None? {
        return None;
      }
      var a := app.value;
      var newState := store.GetState();
      if newState.skippedApps.Some? {
        if IsSkipped(newState.skippedApps.value, a.job.id) {
          return None;
        }
        newState := newState.(skippedApps := Some(newState.skippedApps.value + [a]));
      } else {
        newState := newState.(skippedApps := Some([a]));
      }
      newState := newState.(activeJob := None);
      var _ := store.SetState(newState, writeOk);
      events := events + [AppStop(a.job.id)];
      r := Some(newState);
    }

    /** `app:complete`: two saves, the first inside `addApplied`. The handler
        returns the final document whether or not either save succeeded. */
    method Complete(app: Option<Application>, appliedWriteOk: bool, writeOk: bool) returns (r: Option<BEState>)
      modifies this, store
      ensures app.None? ==> r.None? && store.disk == old(store.disk) && events == old(events)
      ensures app.Some? ==> r == Some(CompleteDoc(Load(old(store.disk)), app.value))
      ensures app.Some? ==>
        && store.disk == Saved(Saved(old(store.disk), WithApplied(Load(old(store.disk)), app.value.job), appliedWriteOk),
                            r.value, writeOk)
        && events == old(events) + [AppStop(app.value.job.id)]
      ensures visits == old(visits)
    {
      if app.None? {
        return None;
      }
      var a := app.value;
      var newState := store.AddApplied(a.job, appliedWriteOk);
      newState := newState.(skippedApps := Some(WithoutJob(OrEmpty(newState.skippedApps), a.job.id)));
      if a !in OrEmpty(newState.completedApps) {
        newState := newState.(completedApps := Some(OrEmpty(newState.completedApps) + [a]));
      }
      var _ := store.SetState(newState, writeOk);
      events := events + [AppStop(a.job.id)];
      r := Some(newState);
    }

    /** `setAppStartStop(isStart)`, the common part of start and stop. */
    method SetAppStartStop(isStart: bool, writeOk: bool) returns (s: BEState)
      modifies store
      ensures s == AppRunning(Load(old(store.disk)), isStart)
      ensures store.disk == Saved(old(store.disk), s, writeOk)
    {
      var state := store.GetState();
      s := state.(isAppRunning := Some(isStart), activeJob := None);
      var _ := store.SetState(s, writeOk);
    }

    /** `app:start`: turn the automatic run on, clear the active job and ask for
        the head of the queue. */
    method Start(writeOk: bool) returns (r: bool)
      modifies this, store
      ensures r
      ensures store.disk == Saved(old(store.disk), AppRunning(Load(old(store.disk)), true), writeOk)
      ensures events == old(events) + [AppStart(None)] && visits == old(visits)
    {
      var _ := SetAppStartStop(true, writeOk);
      events := events + [AppStart(None)];
      r := true;
    }

    /** `app:start:ondemand`: no state change, only the request. */
    method StartOnDemand(job: Option<AppJob>) returns (r: bool)
      modifies this
      ensures r
      ensures events == old(events) + [AppStart(job)] && visits == old(visits)
    {
      events := events + [AppStart(job)];
      r := true;
    }

    /** `app:stop`: turn the automatic run off and clear the active job; the
        event carries the application's job id, or "" without one. */
    method Stop(app: Option<Application>, writeOk: bool) returns (r: bool)
      modifies this, store
      ensures r
      ensures store.disk == Saved(old(store.disk), AppRunning(Load(old(store.disk)), false), writeOk)
      ensures events == old(events) + [AppStop(if app.Some? then app.value.job.id else "")]
      ensures visits == old(visits)
    {
      var jobId := if app.Some? then app.value.job.id else "";
      var _ := SetAppStartStop(false, writeOk);
      events := events + [AppStop(jobId)];
      r := true;
    }

    /** `setListStartStop(isStart)`. */
    method SetListStartStop(isStart: bool, writeOk: bool) returns (s: BEState)
      modifies store
      ensures s == ListRunning(Load(old(store.disk)), isStart)
      ensures store.disk == Saved(old(store.disk), s, writeOk)
    {
      var state := store.GetState();
      s := state.(isListRunning := Some(isStart));
      var _ := store.SetState(s, writeOk);
    }

    /** `list:start`: set the listing flag, then open the listing page; a
        failing page driver rejects the call (`false`) after the flag is saved. */
    method ListStart(url: string, writeOk: bool, driverOk: bool) returns (r: bool)
      modifies this, store
      ensures r == driverOk
      ensures store.disk == Saved(old(store.disk), ListRunning(Load(old(store.disk)), true), writeOk)
      ensures visits == old(visits) + [MainPage(url)] && events == old(events)
    {
      var _ := SetListStartStop(true, writeOk);
      visits := visits + [MainPage(url)];
      r := driverOk;
    }

    /** `list:stop`: clear the listing flag and tell the crawler to halt. */
    method ListStop(writeOk: bool) returns (r: bool)
      modifies this, store
      ensures r
      ensures store.disk == Saved(old(store.disk), ListRunning(Load(old(store.disk)), false), writeOk)
      ensures events == old(events) + [Event.ListStop] && visits == old(visits)
    {
      var _ := SetListStartStop(false, writeOk);
      events := events + [Event.ListStop];
      r := true;
    }

    /** `setSpeed(isApp, value, setDefault)`, behind `change:speed` and
        `speed:default`. */
    method SetSpeed(isApp: bool, value: Value, setDefault: bool, writeOk: bool) returns (s: BEState)
      modifies store
      ensures s == if setDefault then SpeedReset(Load(old(store.disk))) else SpeedSet(Load(old(store.disk)), isApp, value)
      ensures store.disk == Saved(old(store.disk), s, writeOk)
    {
      var state := store.GetState();
      var newSettings := SettingsOf(state);
      if setDefault {
        newSettings := newSettings[SpeedApplyKey := Num(DefaultSpeedApply)];
        newSettings := newSettings[SpeedJobsKey := Num(DefaultSpeedJobs)];
        s := state.(settings := Some(newSettings));
        var _ := store.SetState(s, writeOk);
        return;
      }
      newSettings := newSettings[if isApp then SpeedApplyKey else SpeedJobsKey := value];
      s := state.(settings := Some(newSettings));
      var _ := store.SetState(s, writeOk);
    }

    /** `settings:save`. */
    method SaveSettings(update: map<string, Value>, writeOk: bool) returns (s: BEState)
      modifies store
      ensures s == SettingsSaved(Load(old(store.disk)), update)
      ensures store.disk == Saved(old(store.disk), s, writeOk)
    {
      var state := store.GetState();
      s := state.(settings := Some(SettingsOf(state) + update));
      var _ := store.SetState(s, writeOk);
    }

    /** `logout`. */
    method Logout(writeOk: bool) returns (r: bool)
      modifies store
      ensures r
      ensures store.disk == Saved(old(store.disk), LoggedOut(Load(old(store.disk))), writeOk)
    {
      var state := store.GetState();
      var _ := store.SetState(state.(auth := Some(map[])), writeOk);
      r := true;
    }

    /** `my-invokable-ipc`. */
    method Increment(writeOk: bool) returns (s: BEState)
      modifies store
      ensures s == Incremented(Load(old(store.disk)))
      ensures store.disk == Saved(old(store.disk), s, writeOk)
    {
      var state := store.GetState();
      s := state.(count := state.count + 1);
      var _ := store.SetState(s, writeOk);
    }
  }

  // ---------------------------------------------------------------------------
  // Chains of commands and activations
  // ---------------------------------------------------------------------------

  /** What `app:start` persists when its save succeeds. */
  function Started(disk: Option<BEState>): Option<BEState> {
    Some(AppRunning(Load(disk), true))
  }

  /** With one queued job, start followed by the activation it triggers starts
      that job and emits nothing further: the chain ends. */
  lemma SingleJobChainEnds(disk: Option<BEState>, job: AppJob)
    requires Load(disk).jobs == Some([job])
    ensures var o := RunApplyingSpec(Started(disk), None, true);
      o.started == Some(job) && Load(o.disk).activeJob == Some(job) && o.emitted.None?
  {
  }

  /** With two queued jobs, the activation after start starts the first and
      re-emits `APP_START(null)`; delivered before any other command, that
      event finds the first job active and is a no-op. Skipping the first job
      clears `activeJob` but leaves the queue as it was, so the next
      queue-driven activation starts the FIRST job again. */
  lemma TwoJobChain(disk: Option<BEState>, first: AppJob, second: AppJob, app: Application)
    requires Load(disk).jobs == Some([first, second])
    requires app.job == first
    requires !IsSkipped(Skipped(Load(disk)), first.id)
    ensures var o := RunApplyingSpec(Started(disk), None, true);
      && o.started == Some(first)
      && o.emitted == Some(AppStart(None))
      && RunApplyingSpec(o.disk, None, true) == RunOutcome(o.disk, None, None)
      && SkipDoc(Load(o.disk), app).Some?
      && RunApplyingSpec(Some(SkipDoc(Load(o.disk), app).value), None, true).started == Some(first)
  {

  }

  /** Complete does not clear `activeJob`: after the activation that started
      the head of the queue, completing that job leaves it active, so every
      queue-driven activation does nothing until skip, stop or start clears it.
      The automatic chain stalls after a complete. */
  lemma CompleteKeepsChainBlocked(disk: Option<BEState>, first: AppJob, second: AppJob, app: Application, writeOk: bool)
    requires Load(disk).jobs == Some([first, second])
    requires app.job == first
    ensures var o := RunApplyingSpec(Started(disk), None, true);
      var c := CompleteDoc(Load(o.disk), app);
      && o.started == Some(first)
      && c.activeJob == Some(first)
      && RunApplyingSpec(Some(c), None, writeOk) == RunOutcome(Some(c), None, None)
  {
  }

  /** When the activation's own save fails, `activeJob` stays unset, so the
      re-emitted `APP_START(null)` is not a no-op: it starts the head of the
      queue again. */
  lemma FailedSaveReemitRestarts(disk: Option<BEState>, first: AppJob, second: AppJob)
    requires Load(disk).jobs == Some([first, second])
    ensures var o := RunApplyingSpec(Started(disk), None, false);
      && o.started == Some(first)
      && o.emitted == Some(AppStart(None))
      && Load(o.disk).activeJob.None?
      && RunApplyingSpec(o.disk, None, true).started == Some(first)
  {
  }

  /** Stop always blocks the queue-driven chain: after it, a queue-driven
      activation does nothing until start turns the run back on. */
  lemma StopBlocksQueue(disk: Option<BEState>, writeOk: bool)
    requires writeOk
    ensures var stopped := Saved(disk, AppRunning(Load(disk), false), writeOk);
      RunApplyingSpec(stopped, None, true) == RunOutcome(stopped, None, None)
  {
  }
}
