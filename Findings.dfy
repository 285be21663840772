/** Two places where src/index.ts does not do what it evidently means to, each
    modelled as written next to the property the corrected model (modules
    Handlers and Scheduler) satisfies instead. */
module Findings {
  import opened Wrappers
  import opened State
  import opened Handlers
  import opened Scheduler

  // ---------------------------------------------------------------------------
  // 1. `completedApps` is never deduplicated
  // ---------------------------------------------------------------------------

  /** A JavaScript object: where it lives, and what it holds. */
  datatype Ref<T> = Ref(addr: nat, val: T)

  /** `JSON.parse` of the stored list: one fresh object per entry, at
      consecutive addresses from `base`. */
  function Parsed(list: seq<Application>, base: nat): (r: seq<Ref<Application>>)
    ensures |r| == |list|
    ensures forall k :: 0 <= k < |r| ==> r[k].addr == base + k && r[k].val == list[k]
  {
    seq(|list|, k requires 0 <= k < |list| => Ref(base + k, list[k]))
  }

  function Contents(list: seq<Ref<Application>>): (r: seq<Application>)
    ensures |r| == |list|
    ensures forall k :: 0 <= k < |r| ==> r[k] == list[k].val
  {
    seq(|list|, k requires 0 <= k < |list| => list[k].val)
  }

  /** `list.includes(x)`: the same object, whatever the contents. */
  predicate Includes(list: seq<Ref<Application>>, x: Ref<Application>) {
    exists k :: 0 <= k < |list| && list[k].addr == x.addr
  }

  /** The `completedApps` update as the complete handler writes it: the stored
      list comes back from `getState` as freshly parsed objects, the argument
      `app` is the object the IPC layer deserialised at `argAddr`, and the
      membership test compares identities. */
  function CompletedAsWritten(stored: seq<Application>, app: Application, base: nat, argAddr: nat): (r: seq<Application>)
    ensures r == stored || r == stored + [app]
    ensures r == stored <==> base <= argAddr < base + |stored|
  {
    var list := Parsed(stored, base);
    var arg := Ref(argAddr, app);
    assert Contents(list) == stored;
    assert Contents(list + [arg]) == stored + [app];
    assert Includes(list, arg) <==> base <= argAddr < base + |stored| by {
      if base <= argAddr < base + |stored| {
        assert list[argAddr - base].addr == argAddr;
      }
    }
    Contents(if Includes(list, arg) then list else list + [arg])
  }

  /** The argument never is one of the freshly parsed objects, so the test
      never succeeds and the application is always appended. */
  lemma CompletedAsWrittenAppends(stored: seq<Application>, app: Application, base: nat, argAddr: nat)
    requires argAddr < base || base + |stored| <= argAddr
    ensures CompletedAsWritten(stored, app, base, argAddr) == stored + [app]
  {

  }

  /** Completing the same application twice records it twice. */
  lemma CompleteTwiceRecordsTwice(app: Application)
    ensures var once := CompletedAsWritten([], app, 0, 0);
      var twice := CompletedAsWritten(once, app, 1, 0);
      twice == [app, app] && !NoRepeats(twice)
  {
    CompletedAsWrittenAppends([], app, 0, 0);
    assert [] + [app] == [app];
    CompletedAsWrittenAppends([app], app, 1, 0);
    var twice := CompletedAsWritten([app], app, 1, 0);
    assert twice == [app, app];
    assert twice[0] == twice[1];
  }

  /** Corrected: the model compares records by value, so a second completion of
      the same application adds nothing and `completedApps` keeps no repeats. */
  lemma CompleteTwiceRecordsOnce(s: BEState, app: Application)
    requires NoRepeats(Completed(s))
    ensures Completed(CompleteDoc(CompleteDoc(s, app), app)) == Completed(CompleteDoc(s, app))
    ensures NoRepeats(Completed(CompleteDoc(CompleteDoc(s, app), app)))
  {

  }

  // ---------------------------------------------------------------------------
  // 2. Skip writes into the shared default document
  // ---------------------------------------------------------------------------

  /** What the skip handler can reach as written: the persisted document, and
      the module-level default object that `getState` hands out itself (not a
      copy) when nothing is persisted. */
  datatype World = World(disk: Option<BEState>, fallback: BEState)

  function LoadAsWritten(w: World): BEState {
    if w.disk.Some? then w.disk.value else w.fallback
  }

  /** The skip handler as written: it changes the object it read in place, so
      when that object is the default, the default itself changes, saved or not. */
  function SkipAsWritten(w: World, app: Application, writeOk: bool): (r: (World, Option<Event>))
    ensures r.1.None? <==> IsSkipped(Skipped(LoadAsWritten(w)), app.job.id)
    ensures r.1.None? ==> r.0 == w
    ensures r.1.Some? && w.disk.None? ==> LoadAsWritten(r.0) == SkipDoc(LoadAsWritten(w), app).value
    ensures r.1.Some? && w.disk.Some? ==> r.0.fallback == w.fallback
  {
    match SkipDoc(LoadAsWritten(w), app)
    case None => (w, None)
    case Some(t) =>
      (World(Saved(w.disk, t, writeOk), if w.disk.None? then t else w.fallback), Some(AppStop(app.job.id)))
  }

  /** Nothing persisted and the save failing: afterwards a read no longer
      returns the default document but one with the application skipped, and
      skipping it again is silently ignored although nothing was ever saved. */
  lemma SkipAsWrittenChangesDefault(app: Application)
    ensures var (w, e) := SkipAsWritten(World(None, InitState), app, false);
      && e == Some(AppStop(app.job.id))
      && w.disk.None?
      && LoadAsWritten(w) != InitState
      && Skipped(LoadAsWritten(w)) == [app]
      && SkipAsWritten(w, app, true) == (w, None)
  {
    var (w, e) := SkipAsWritten(World(None, InitState), app, false);
    assert Skipped(LoadAsWritten(w))[0] == app;
  }

  /** Corrected: a skip whose save fails leaves the next read exactly where it
      was (the default document when nothing is persisted), and the same skip
      then takes effect again. */
  lemma FailedSkipIsInvisible(disk: Option<BEState>, app: Application)
    requires SkipDoc(Load(disk), app).Some?
    ensures Load(Saved(disk, SkipDoc(Load(disk), app).value, false)) == Load(disk)
    ensures disk.None? ==> Load(Saved(disk, SkipDoc(Load(disk), app).value, false)) == InitState
    ensures SkipDoc(Load(Saved(disk, SkipDoc(Load(disk), app).value, false)), app).Some?
  {
  }
}
