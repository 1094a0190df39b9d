/**
 * Properties of the migration engine of `Migrations`: which units a run
 * selects, what it records after a success and after the first failure,
 * that the stored version never goes down, that a run touches only the
 * rows of the plugins it runs, and that a second run after a clean one has
 * nothing to do.
 */
module MigrationProperties {
  import opened Wrappers
  import opened Plugins
  import opened Migrations

  /**
   * Reference selection by comparing versions: the unit of version `v`
   * runs exactly when `v` is greater than the stored version.
   */
  ghost function RunPending(name: string, migs: seq<Migration>, i: nat, cp: MigrationModel,
                            rows: map<string, MigrationModel>, fault: WriteFault): PluginRun
    requires i <= |migs|
    decreases |migs| - i
  {
    if i == |migs| then PluginRun(cp, rows, [], None)
    else if i + 1 > cp.version then
      var step := ApplyUnit(name, i + 1, migs[i], cp, rows, fault);
      if step.err.Some? then step
      else PrependUnits(step.trace, RunPending(name, migs, i + 1, step.cp, step.rows, fault))
    else RunPending(name, migs, i + 1, cp, rows, fault)
  }

  /** Once the running phase has begun, the flag-driven loop and the reference agree. */
  lemma {:induction false} RunningPhaseAgrees(name: string, migs: seq<Migration>, i: nat, cp: MigrationModel, ran: bool,
                                              rows: map<string, MigrationModel>, fault: WriteFault)
    requires i <= |migs| && 0 <= cp.version <= i && (ran || cp.version == 0)
    ensures RunUnits(name, migs, i, cp, ran, rows, fault) == RunPending(name, migs, i, cp, rows, fault)
    decreases |migs| - i
  {
    if i < |migs| {
      var step := ApplyUnit(name, i + 1, migs[i], cp, rows, fault);
      if step.err.None? {
        RunningPhaseAgrees(name, migs, i + 1, step.cp, true, step.rows, fault);
      }
    }
  }

  /** Before the unit of the stored version is reached, both skip. */
  lemma {:induction false} SkippingPhaseAgrees(name: string, migs: seq<Migration>, i: nat, cp: MigrationModel,
                                               rows: map<string, MigrationModel>, fault: WriteFault)
    requires i <= |migs| && i < cp.version
    ensures RunUnits(name, migs, i, cp, false, rows, fault) == RunPending(name, migs, i, cp, rows, fault)
    decreases |migs| - i
  {
    if i < |migs| {
      if i + 1 == cp.version {
        RunningPhaseAgrees(name, migs, i + 1, cp, true, rows, fault);
      } else {
        SkippingPhaseAgrees(name, migs, i + 1, cp, rows, fault);
      }
    }
  }

  /**
   * For a stored version that is not negative, `Up`'s flag-driven loop runs
   * exactly the units whose version is greater than the stored one, in order.
   */
  lemma SelectionMatchesVersionComparison(name: string, migs: seq<Migration>, cp: MigrationModel,
                                          rows: map<string, MigrationModel>, fault: WriteFault)
    requires 0 <= cp.version
    ensures RunUnits(name, migs, 0, cp, false, rows, fault) == RunPending(name, migs, 0, cp, rows, fault)
  {
    if cp.version == 0 {
      RunningPhaseAgrees(name, migs, 0, cp, false, rows, fault);
    } else {
      SkippingPhaseAgrees(name, migs, 0, cp, rows, fault);
    }
  }

  /**
   * A negative stored version never matches a unit's version, so the flag is
   * never set and no unit runs (the version comparison would run them all).
   */
  lemma {:induction false} NegativeVersionRunsNothing(name: string, migs: seq<Migration>, i: nat, cp: MigrationModel,
                                                      rows: map<string, MigrationModel>, fault: WriteFault)
    requires i <= |migs| && cp.version < 0
    ensures RunUnits(name, migs, i, cp, false, rows, fault) == PluginRun(cp, rows, [], None)
    decreases |migs| - i
  {
    if i < |migs| {
      NegativeVersionRunsNothing(name, migs, i + 1, cp, rows, fault);
    }
  }

  lemma {:induction false} PendingSkipsTo(name: string, migs: seq<Migration>, i: nat, j: nat, cp: MigrationModel,
                                          rows: map<string, MigrationModel>, fault: WriteFault)
    requires i <= j <= |migs| && j <= cp.version
    ensures RunPending(name, migs, i, cp, rows, fault) == RunPending(name, migs, j, cp, rows, fault)
    decreases j - i
  {
    if i < j {
      PendingSkipsTo(name, migs, i + 1, j, cp, rows, fault);
    }
  }

  /** A checkpoint at or past the last unit, or a negative one, leaves nothing to run. */
  lemma NothingPendingRunsNothing(name: string, migs: seq<Migration>, cp: MigrationModel,
                                  rows: map<string, MigrationModel>, fault: WriteFault)
    requires cp.version < 0 || |migs| <= cp.version
    ensures RunUnits(name, migs, 0, cp, false, rows, fault) == PluginRun(cp, rows, [], None)
  {
    if cp.version < 0 {
      NegativeVersionRunsNothing(name, migs, 0, cp, rows, fault);
    } else {
      SelectionMatchesVersionComparison(name, migs, cp, rows, fault);
      PendingSkipsTo(name, migs, 0, |migs|, cp, rows, fault);
    }
  }

  /** The index of the first unit that a non-negative stored version leaves pending. */
  function FirstPending(migs: seq<Migration>, cp: MigrationModel): nat
    requires 0 <= cp.version
  {
    if cp.version < |migs| then cp.version else |migs|
  }

  /** Units `i` .. `j-1` all succeed. */
  ghost predicate UnitsSucceed(migs: seq<Migration>, i: nat, j: nat)
    requires i <= j <= |migs|
  {
    forall k :: i <= k < j ==> migs[k].up.None?
  }

  /**
   * The database accepts the saves of units `i` .. `j-1`, each written at
   * that unit's version and name with the last error `lastError`.
   */
  ghost predicate SavesAccepted(fault: WriteFault, migs: seq<Migration>, i: nat, j: nat, pluginName: string, lastError: string)
    requires i <= j <= |migs|
  {
    forall k :: i <= k < j ==> fault(MigrationModel(pluginName, k + 1, migs[k].name, lastError)).None?
  }

  /**
   * The log of units `i` .. `j-1` all running and saving: each call is
   * followed by the plugin's row at that unit's version and name, with the
   * last error `lastError` carried along.
   */
  ghost function SuccessTrace(name: string, migs: seq<Migration>, i: nat, j: nat,
                              pluginName: string, lastError: string): (t: seq<Event>)
    requires i <= j <= |migs|
    ensures |t| == 2 * (j - i)
    decreases j - i
  {
    if i == j then []
    else [Invoked(name, i + 1, migs[i].name), Saved(MigrationModel(pluginName, i + 1, migs[i].name, lastError))]
         + SuccessTrace(name, migs, i + 1, j, pluginName, lastError)
  }

  lemma {:induction false} PendingAllSucceed(name: string, migs: seq<Migration>, i: nat, cp: MigrationModel,
                                             rows: map<string, MigrationModel>, fault: WriteFault)
    requires 0 <= cp.version <= i <= |migs| && cp.pluginName != "" && UnitsSucceed(migs, i, |migs|)
    requires SavesAccepted(fault, migs, i, |migs|, cp.pluginName, cp.lastError)
    ensures var r := RunPending(name, migs, i, cp, rows, fault);
      && r.err == None
      && r.trace == SuccessTrace(name, migs, i, |migs|, cp.pluginName, cp.lastError)
      && r.cp == (if i == |migs| then cp
                  else MigrationModel(cp.pluginName, |migs|, migs[|migs| - 1].name, cp.lastError))
      && r.rows == (if i == |migs| then rows else rows[cp.pluginName := r.cp])
    decreases |migs| - i
  {
    if i < |migs| {
      var done := cp.(version := i + 1, lastUpgradeName := migs[i].name);
      var rows' := rows[cp.pluginName := done];
      assert fault(done).None?;
      PendingAllSucceed(name, migs, i + 1, done, rows', fault);
      var r' := RunPending(name, migs, i + 1, done, rows', fault);
      if i + 1 < |migs| {
        assert rows'[done.pluginName := r'.cp] == rows[cp.pluginName := r'.cp];
      }
    }
  }

  lemma {:induction false} PendingStopsAtFirstFailure(name: string, migs: seq<Migration>, i: nat, f: nat, cp: MigrationModel,
                                                      rows: map<string, MigrationModel>, fault: WriteFault)
    requires 0 <= cp.version <= i <= f < |migs| && cp.pluginName != ""
    requires UnitsSucceed(migs, i, f) && migs[f].up.Some?
    requires SavesAccepted(fault, migs, i, f, cp.pluginName, cp.lastError)
    requires fault(MigrationModel(cp.pluginName, if i == f then cp.version else f, migs[f].name, migs[f].up.value)).None?
    ensures var r := RunPending(name, migs, i, cp, rows, fault);
      var failed := MigrationModel(cp.pluginName, if i == f then cp.version else f, migs[f].name, migs[f].up.value);
      && r.err == Some(UpFailed(migs[f].name, migs[f].up.value))
      && r.cp == failed
      && r.trace == SuccessTrace(name, migs, i, f, cp.pluginName, cp.lastError)
                    + [Invoked(name, f + 1, migs[f].name), Saved(failed)]
      && r.rows == rows[cp.pluginName := failed]
    decreases f - i
  {
    if i < f {
      var done := cp.(version := i + 1, lastUpgradeName := migs[i].name);
      var rows' := rows[cp.pluginName := done];
      assert fault(done).None?;
      PendingStopsAtFirstFailure(name, migs, i + 1, f, done, rows', fault);
      var failed := MigrationModel(cp.pluginName, f, migs[f].name, migs[f].up.value);
      assert rows'[cp.pluginName := failed] == rows[cp.pluginName := failed];
      var head := [Invoked(name, i + 1, migs[i].name), Saved(done)];
      var tail := [Invoked(name, f + 1, migs[f].name), Saved(failed)];
      assert head + SuccessTrace(name, migs, i + 1, f, cp.pluginName, cp.lastError) + tail
          == head + (SuccessTrace(name, migs, i + 1, f, cp.pluginName, cp.lastError) + tail);
    }
  }

  /**
   * When every pending unit succeeds and the row can be written: the units
   * after the stored version run in order, each call followed by the save of
   * the row at that unit's version; the row ends at the last unit's version
   * and name, with its last error left as it was.
   */
  lemma AllPendingUnitsRun(name: string, migs: seq<Migration>, cp: MigrationModel, rows: map<string, MigrationModel>,
                           fault: WriteFault)
    requires 0 <= cp.version && cp.pluginName != ""
    requires UnitsSucceed(migs, FirstPending(migs, cp), |migs|)
    requires SavesAccepted(fault, migs, FirstPending(migs, cp), |migs|, cp.pluginName, cp.lastError)
    ensures var s := FirstPending(migs, cp);
      var r := RunUnits(name, migs, 0, cp, false, rows, fault);
      && r.err == None
      && r.trace == SuccessTrace(name, migs, s, |migs|, cp.pluginName, cp.lastError)
      && r.cp == (if s == |migs| then cp
                  else MigrationModel(cp.pluginName, |migs|, migs[|migs| - 1].name, cp.lastError))
      && r.rows == (if s == |migs| then rows else rows[cp.pluginName := r.cp])
  {
    var s := FirstPending(migs, cp);
    SelectionMatchesVersionComparison(name, migs, cp, rows, fault);
    PendingSkipsTo(name, migs, 0, s, cp, rows, fault);
    if s < |migs| {
      PendingAllSucceed(name, migs, s, cp, rows, fault);
    }
  }

  /**
   * At the first pending unit that fails: the units before it ran and were
   * saved, its call is followed by saving the row with the failing unit's
   * name and error and the version of the last unit that succeeded, and the
   * error names the unit; no later unit runs.
   */
  lemma FirstFailureStopsThePlugin(name: string, migs: seq<Migration>, f: nat, cp: MigrationModel,
                                   rows: map<string, MigrationModel>, fault: WriteFault)
    requires 0 <= cp.version && cp.pluginName != ""
    requires FirstPending(migs, cp) <= f < |migs|
    requires UnitsSucceed(migs, FirstPending(migs, cp), f) && migs[f].up.Some?
    requires SavesAccepted(fault, migs, FirstPending(migs, cp), f, cp.pluginName, cp.lastError)
    requires fault(cp.(version := f, lastUpgradeName := migs[f].name, lastError := migs[f].up.value)).None?
    ensures var r := RunUnits(name, migs, 0, cp, false, rows, fault);
      var failed := cp.(version := f, lastUpgradeName := migs[f].name, lastError := migs[f].up.value);
      && r.err == Some(UpFailed(migs[f].name, migs[f].up.value))
      && r.cp == failed
      && r.trace == SuccessTrace(name, migs, FirstPending(migs, cp), f, cp.pluginName, cp.lastError)
                    + [Invoked(name, f + 1, migs[f].name), Saved(failed)]
      && r.rows == rows[cp.pluginName := failed]
  {
    var s := FirstPending(migs, cp);
    SelectionMatchesVersionComparison(name, migs, cp, rows, fault);
    PendingSkipsTo(name, migs, 0, s, cp, rows, fault);
    PendingStopsAtFirstFailure(name, migs, s, f, cp, rows, fault);
  }

  lemma {:induction false} PendingStopsAtSaveFailure(name: string, migs: seq<Migration>, i: nat, f: nat, cp: MigrationModel,
                                                     rows: map<string, MigrationModel>, fault: WriteFault)
    requires 0 <= cp.version <= i <= f < |migs| && cp.pluginName != ""
    requires UnitsSucceed(migs, i, f + 1)
    requires SavesAccepted(fault, migs, i, f, cp.pluginName, cp.lastError)
    requires fault(MigrationModel(cp.pluginName, f + 1, migs[f].name, cp.lastError)).Some?
    ensures var r := RunPending(name, migs, i, cp, rows, fault);
      var e := fault(MigrationModel(cp.pluginName, f + 1, migs[f].name, cp.lastError)).value;
      && r.err == Some(SaveFailed(migs[f].name, e))
      && r.trace == SuccessTrace(name, migs, i, f, cp.pluginName, cp.lastError) + [Invoked(name, f + 1, migs[f].name)]
      && r.rows == (if i == f then rows
                    else rows[cp.pluginName := MigrationModel(cp.pluginName, f, migs[f - 1].name, cp.lastError)])
    decreases f - i
  {
    if i == f {
      assert cp.(version := f + 1, lastUpgradeName := migs[f].name) == MigrationModel(cp.pluginName, f + 1, migs[f].name, cp.lastError);
    } else {
      var done := cp.(version := i + 1, lastUpgradeName := migs[i].name);
      assert fault(done).None?;
      var rows' := rows[cp.pluginName := done];
      PendingStopsAtSaveFailure(name, migs, i + 1, f, done, rows', fault);
      var last := MigrationModel(cp.pluginName, f, migs[f - 1].name, cp.lastError);
      assert rows'[cp.pluginName := last] == rows[cp.pluginName := last];
      var head := [Invoked(name, i + 1, migs[i].name), Saved(done)];
      var tail := [Invoked(name, f + 1, migs[f].name)];
      assert head + SuccessTrace(name, migs, i + 1, f, cp.pluginName, cp.lastError) + tail
          == head + (SuccessTrace(name, migs, i + 1, f, cp.pluginName, cp.lastError) + tail);
    }
  }

  /**
   * When the database refuses the save of pending unit f after accepting
   * the saves before it: the units before f ran and their saves stay in the
   * table (the row holds the version and name of unit f-1), f was called,
   * and the run stops with the save error naming f; no later unit runs.
   */
  lemma SaveFailureStopsThePlugin(name: string, migs: seq<Migration>, f: nat, cp: MigrationModel,
                                  rows: map<string, MigrationModel>, fault: WriteFault)
    requires 0 <= cp.version && cp.pluginName != ""
    requires FirstPending(migs, cp) <= f < |migs|
    requires UnitsSucceed(migs, FirstPending(migs, cp), f + 1)
    requires SavesAccepted(fault, migs, FirstPending(migs, cp), f, cp.pluginName, cp.lastError)
    requires fault(MigrationModel(cp.pluginName, f + 1, migs[f].name, cp.lastError)).Some?
    ensures var s := FirstPending(migs, cp);
      var r := RunUnits(name, migs, 0, cp, false, rows, fault);
      var e := fault(MigrationModel(cp.pluginName, f + 1, migs[f].name, cp.lastError)).value;
      && r.err == Some(SaveFailed(migs[f].name, e))
      && r.trace == SuccessTrace(name, migs, s, f, cp.pluginName, cp.lastError) + [Invoked(name, f + 1, migs[f].name)]
      && r.rows == (if s == f then rows
                    else rows[cp.pluginName := MigrationModel(cp.pluginName, f, migs[f - 1].name, cp.lastError)])
  {
    var s := FirstPending(migs, cp);
    SelectionMatchesVersionComparison(name, migs, cp, rows, fault);
    PendingSkipsTo(name, migs, 0, s, cp, rows, fault);
    PendingStopsAtSaveFailure(name, migs, s, f, cp, rows, fault);
  }

  lemma {:induction false} PendingKeepsOrRaisesVersion(name: string, migs: seq<Migration>, i: nat, cp: MigrationModel,
                                                       rows: map<string, MigrationModel>, fault: WriteFault)
    requires i <= |migs|
    ensures var r := RunPending(name, migs, i, cp, rows, fault);
      && cp.version <= r.cp.version
      && r.cp.pluginName == cp.pluginName
      && (r.err.None? && i < |migs| ==> |migs| <= r.cp.version)
    decreases |migs| - i
  {
    if i < |migs| && i + 1 > cp.version {
      var step := ApplyUnit(name, i + 1, migs[i], cp, rows, fault);
      if step.err.None? {
        PendingKeepsOrRaisesVersion(name, migs, i + 1, step.cp, step.rows, fault);
      }
    } else if i < |migs| {
      PendingKeepsOrRaisesVersion(name, migs, i + 1, cp, rows, fault);
    }
  }

  /**
   * A plugin's run never lowers its stored version and keeps the row's key;
   * after a run that ends without error there is no unit left pending.
   */
  lemma VersionNeverDecreases(name: string, migs: seq<Migration>, cp: MigrationModel,
                              rows: map<string, MigrationModel>, fault: WriteFault)
    ensures var r := RunUnits(name, migs, 0, cp, false, rows, fault);
      && cp.version <= r.cp.version
      && r.cp.pluginName == cp.pluginName
      && (r.err.None? && 0 <= cp.version && 0 < |migs| ==> |migs| <= r.cp.version)
  {
    if cp.version < 0 {
      NegativeVersionRunsNothing(name, migs, 0, cp, rows, fault);
    } else {
      SelectionMatchesVersionComparison(name, migs, cp, rows, fault);
      PendingKeepsOrRaisesVersion(name, migs, 0, cp, rows, fault);
    }
  }

  /**
   * A plugin's second run, after one that ended without error, calls no unit
   * and writes nothing, whatever the table and the database faults then are.
   */
  lemma SecondRunInvokesNothing(name: string, migs: seq<Migration>, cp: MigrationModel,
                                rows: map<string, MigrationModel>, fault: WriteFault,
                                rows2: map<string, MigrationModel>, fault2: WriteFault)
    ensures var r := RunUnits(name, migs, 0, cp, false, rows, fault);
      r.err == None ==> RunUnits(name, migs, 0, r.cp, false, rows2, fault2) == PluginRun(r.cp, rows2, [], None)
  {
    var r := RunUnits(name, migs, 0, cp, false, rows, fault);
    VersionNeverDecreases(name, migs, cp, rows, fault);
    if r.err == None {
      if cp.version < 0 {
        NegativeVersionRunsNothing(name, migs, 0, cp, rows, fault);
        NothingPendingRunsNothing(name, migs, r.cp, rows2, fault2);
      } else if |migs| == 0 {
      } else {
        NothingPendingRunsNothing(name, migs, r.cp, rows2, fault2);
      }
    }
  }

  /** The event concerns the plugin or row named `k`. */
  ghost predicate Touches(e: Event, k: string)
  {
    (e.Invoked? && e.plugin == k) || (e.Saved? && e.row.pluginName == k)
  }

  lemma {:induction false} UnitsConfined(name: string, migs: seq<Migration>, i: nat, cp: MigrationModel, ran: bool,
                                         rows: map<string, MigrationModel>, fault: WriteFault)
    requires i <= |migs|
    ensures var r := RunUnits(name, migs, i, cp, ran, rows, fault);
      && r.cp.pluginName == cp.pluginName
      && r.rows.Keys <= rows.Keys + {cp.pluginName}
      && (forall k :: k in rows && k != cp.pluginName ==> k in r.rows && r.rows[k] == rows[k])
      && (KeyedByName(rows) ==> KeyedByName(r.rows))
    decreases |migs| - i
  {
    if i < |migs| {
      if cp.version == 0 || ran {
        var step := ApplyUnit(name, i + 1, migs[i], cp, rows, fault);
        UpsertSemantics(rows, step.cp, fault(step.cp));
        if step.err.None? {
          UnitsConfined(name, migs, i + 1, step.cp, true, step.rows, fault);
        }
      } else if i + 1 == cp.version {
        UnitsConfined(name, migs, i + 1, cp, true, rows, fault);
      } else {
        UnitsConfined(name, migs, i + 1, cp, ran, rows, fault);
      }
    }
  }
  /** Every call in the log is to plugin `name` and every row written is the one keyed `pluginName`. */
  ghost predicate OwnedTrace(t: seq<Event>, name: string, pluginName: string)
  {
    forall j :: 0 <= j < |t| ==> (t[j].Invoked? ==> t[j].plugin == name) && (t[j].Saved? ==> t[j].row.pluginName == pluginName)
  }

  lemma {:induction false} UnitEventsOwned(name: string, migs: seq<Migration>, i: nat, cp: MigrationModel, ran: bool,
                                           rows: map<string, MigrationModel>, fault: WriteFault)
    requires i <= |migs|
    ensures OwnedTrace(RunUnits(name, migs, i, cp, ran, rows, fault).trace, name, cp.pluginName)
    decreases |migs| - i
  {
    if i < |migs| {
      if cp.version == 0 || ran {
        var step := ApplyUnit(name, i + 1, migs[i], cp, rows, fault);
        if step.err.None? {
          UnitEventsOwned(name, migs, i + 1, step.cp, true, step.rows, fault);
          var rest := RunUnits(name, migs, i + 1, step.cp, true, step.rows, fault);
          forall j | |step.trace| <= j < |step.trace + rest.trace|
            ensures (step.trace + rest.trace)[j] == rest.trace[j - |step.trace|]
          {
          }
        }
      } else if i + 1 == cp.version {
        UnitEventsOwned(name, migs, i + 1, cp, true, rows, fault);
      } else {
        UnitEventsOwned(name, migs, i + 1, cp, ran, rows, fault);
      }
    }
  }



  /** No plugin from index `p` on that has units is named `k`. */
  ghost predicate NotRunFrom(plugins: seq<Plugin>, p: nat, k: string)
  {
    forall q :: p <= q < |plugins| && |plugins[q].migrations| > 0 ==> plugins[q].name != k
  }

  /**
   * A run writes only the rows of the plugins it runs and logs nothing about
   * any other name: a plugin without units gets no row and no event, unless
   * a plugin with units bears the same name.
   */
  lemma {:induction false} RunTouchesOnlyItsPlugins(plugins: seq<Plugin>, p: nat, cache: map<string, MigrationModel>,
                                                    rows: map<string, MigrationModel>, fault: WriteFault, k: string)
    requires p <= |plugins| && KeyedByName(cache) && NotRunFrom(plugins, p, k)
    ensures var r := RunPlugins(plugins, p, cache, rows, fault);
      && (k in r.rows <==> k in rows)
      && (k in rows ==> r.rows[k] == rows[k])
      && (KeyedByName(rows) ==> KeyedByName(r.rows))
      && (forall j :: 0 <= j < |r.trace| ==> !Touches(r.trace[j], k))
    decreases |plugins| - p
  {
    if p < |plugins| {
      var pl := plugins[p];
      if |pl.migrations| == 0 {
        RunTouchesOnlyItsPlugins(plugins, p + 1, cache, rows, fault, k);
      } else {
        var cp := InitialCheckpoint(cache, pl);
        var units := RunUnits(pl.name, pl.migrations, 0, cp, false, rows, fault);
        UnitsConfined(pl.name, pl.migrations, 0, cp, false, rows, fault);
        UnitEventsOwned(pl.name, pl.migrations, 0, cp, false, rows, fault);
        assert cp.pluginName == pl.name;
        if units.err.None? {
          var cache' := if pl.name in cache then cache[pl.name := units.cp] else cache;
          RunTouchesOnlyItsPlugins(plugins, p + 1, cache', units.rows, fault, k);
          var rest := RunPlugins(plugins, p + 1, cache', units.rows, fault);
          assert RunPlugins(plugins, p, cache, rows, fault).trace == units.trace + rest.trace;
          forall j | 0 <= j < |units.trace + rest.trace|
            ensures !Touches((units.trace + rest.trace)[j], k)
          {
            if j >= |units.trace| {
              assert (units.trace + rest.trace)[j] == rest.trace[j - |units.trace|];
            }
          }
        }
      }
    }
  }

  /**
   * Where a run that stops with an error leaves the log: its last entries
   * are the failing unit's call and, when `Up` failed and the row was
   * written, the row carrying that unit's name and error. So nothing runs
   * after the failure.
   */
  ghost predicate EndsWithFailure(t: seq<Event>, e: MigrationError)
  {
    match e
    case UpFailed(u, cause) =>
      && |t| >= 2 && t[|t| - 2].Invoked? && t[|t| - 2].unit == u
      && t[|t| - 1].Saved? && t[|t| - 1].row.lastUpgradeName == u && t[|t| - 1].row.lastError == cause
    case SaveFailed(u, _) => |t| >= 1 && t[|t| - 1].Invoked? && t[|t| - 1].unit == u
    case SaveAfterUpFailed(u, _, _) => |t| >= 1 && t[|t| - 1].Invoked? && t[|t| - 1].unit == u
    case SetupFailed(_) => false
    case LoadFailed(_) => false
  }

  lemma EndsWithFailurePrepend(a: seq<Event>, t: seq<Event>, e: MigrationError)
    requires EndsWithFailure(t, e)
    ensures EndsWithFailure(a + t, e)
  {
    assert (a + t)[|a + t| - 1] == t[|t| - 1];
    if |t| >= 2 {
      assert (a + t)[|a + t| - 2] == t[|t| - 2];
    }
  }

  lemma {:induction false} UnitsEndAtFailure(name: string, migs: seq<Migration>, i: nat, cp: MigrationModel, ran: bool,
                                             rows: map<string, MigrationModel>, fault: WriteFault)
    requires i <= |migs|
    ensures var r := RunUnits(name, migs, i, cp, ran, rows, fault);
      r.err.Some? ==> EndsWithFailure(r.trace, r.err.value)
    decreases |migs| - i
  {
    if i < |migs| {
      if cp.version == 0 || ran {
        var step := ApplyUnit(name, i + 1, migs[i], cp, rows, fault);
        if step.err.None? {
          UnitsEndAtFailure(name, migs, i + 1, step.cp, true, step.rows, fault);
          var rest := RunUnits(name, migs, i + 1, step.cp, true, step.rows, fault);
          if rest.err.Some? {
            EndsWithFailurePrepend(step.trace, rest.trace, rest.err.value);
          }
        }
      } else if i + 1 == cp.version {
        UnitsEndAtFailure(name, migs, i + 1, cp, true, rows, fault);
      } else {
        UnitsEndAtFailure(name, migs, i + 1, cp, ran, rows, fault);
      }
    }
  }

  /**
   * The first failure ends the whole run: the error is one of a unit or of
   * its save, never of the setup or the load, and the failing unit's call
   * (and the row recording its error) is the last thing in the log, so no
   * later unit of this plugin or of any later plugin runs.
   */
  lemma {:induction false} FailureEndsTheRun(plugins: seq<Plugin>, p: nat, cache: map<string, MigrationModel>,
                                             rows: map<string, MigrationModel>, fault: WriteFault)
    requires p <= |plugins|
    ensures var r := RunPlugins(plugins, p, cache, rows, fault);
      r.err.Some? ==> EndsWithFailure(r.trace, r.err.value)
    decreases |plugins| - p
  {
    if p < |plugins| {
      var pl := plugins[p];
      if |pl.migrations| == 0 {
        FailureEndsTheRun(plugins, p + 1, cache, rows, fault);
      } else {
        var units := RunUnits(pl.name, pl.migrations, 0, InitialCheckpoint(cache, pl), false, rows, fault);
        UnitsEndAtFailure(pl.name, pl.migrations, 0, InitialCheckpoint(cache, pl), false, rows, fault);
        if units.err.None? {
          var cache' := if pl.name in cache then cache[pl.name := units.cp] else cache;
          FailureEndsTheRun(plugins, p + 1, cache', units.rows, fault);
          var rest := RunPlugins(plugins, p + 1, cache', units.rows, fault);
          if rest.err.Some? {
            EndsWithFailurePrepend(units.trace, rest.trace, rest.err.value);
          }
        }
      }
    }
  }

  /**
   * Where a run stands when it reaches the plugin at `index`: the loaded
   * map and the table as the plugins before it left them, and the log they
   * wrote.
   */
  datatype Stop = Stop(index: nat, cache: map<string, MigrationModel>, rows: map<string, MigrationModel>, trace: seq<Event>)

  /**
   * The first plugin from `p` on whose units end with an error, and the
   * state the run is in when it reaches it; `index` is `|plugins|` when
   * every plugin succeeds.
   */
  ghost function FailingPlugin(plugins: seq<Plugin>, p: nat, cache: map<string, MigrationModel>,
                               rows: map<string, MigrationModel>, fault: WriteFault): (s: Stop)
    requires p <= |plugins|
    ensures p <= s.index <= |plugins|
    decreases |plugins| - p
  {
    if p == |plugins| then Stop(p, cache, rows, [])
    else if |plugins[p].migrations| == 0 then FailingPlugin(plugins, p + 1, cache, rows, fault)
    else
      var pl := plugins[p];
      var units := RunUnits(pl.name, pl.migrations, 0, InitialCheckpoint(cache, pl), false, rows, fault);
      if units.err.Some? then Stop(p, cache, rows, [])
      else
        var cache' := if pl.name in cache then cache[pl.name := units.cp] else cache;
        var s := FailingPlugin(plugins, p + 1, cache', units.rows, fault);
        s.(trace := units.trace + s.trace)
  }

  /**
   * The plugins before the failing one run as a run of their own that ends
   * without error in the state `FailingPlugin` records.
   */
  lemma {:induction false} RunsBeforeFailure(plugins: seq<Plugin>, p: nat, cache: map<string, MigrationModel>,
                                             rows: map<string, MigrationModel>, fault: WriteFault)
    requires p <= |plugins|
    ensures var s := FailingPlugin(plugins, p, cache, rows, fault);
      RunPlugins(plugins[..s.index], p, cache, rows, fault) == Run(s.rows, s.trace, None)
    decreases |plugins| - p, 1
  {
    var s := FailingPlugin(plugins, p, cache, rows, fault);
    if p < s.index {
      if |plugins[p].migrations| == 0 {
        var pre := plugins[..s.index];
        assert pre[p] == plugins[p];
        assert s == FailingPlugin(plugins, p + 1, cache, rows, fault);
        assert RunPlugins(pre, p, cache, rows, fault) == RunPlugins(pre, p + 1, cache, rows, fault);
        RunsBeforeFailure(plugins, p + 1, cache, rows, fault);
      } else {
        CleanPluginBeforeFailure(plugins, p, cache, rows, fault);
      }
    }
  }

  /** `RunsBeforeFailure` at a plugin with units that comes before the failing one. */
  lemma {:induction false} CleanPluginBeforeFailure(plugins: seq<Plugin>, p: nat, cache: map<string, MigrationModel>,
                                                    rows: map<string, MigrationModel>, fault: WriteFault)
    requires p <= |plugins| && p < FailingPlugin(plugins, p, cache, rows, fault).index && |plugins[p].migrations| > 0
    ensures var s := FailingPlugin(plugins, p, cache, rows, fault);
      RunPlugins(plugins[..s.index], p, cache, rows, fault) == Run(s.rows, s.trace, None)
    decreases |plugins| - p, 0
  {
    var s := FailingPlugin(plugins, p, cache, rows, fault);
    var pre := plugins[..s.index];
    assert pre[p] == plugins[p];
    var pl := plugins[p];
    var units := RunUnits(pl.name, pl.migrations, 0, InitialCheckpoint(cache, pl), false, rows, fault);
    assert units.err.None?;
    var cache' := if pl.name in cache then cache[pl.name := units.cp] else cache;
    var s' := FailingPlugin(plugins, p + 1, cache', units.rows, fault);
    assert s == s'.(trace := units.trace + s'.trace);
    assert RunPlugins(pre, p, cache, rows, fault) == PrependRun(units.trace, RunPlugins(pre, p + 1, cache', units.rows, fault));
    RunsBeforeFailure(plugins, p + 1, cache', units.rows, fault);
  }

  /** Any prefix of the plugins that includes the failing one runs exactly as the whole list does. */
  lemma {:induction false} RunsThroughFailure(plugins: seq<Plugin>, n: nat, p: nat, cache: map<string, MigrationModel>,
                                              rows: map<string, MigrationModel>, fault: WriteFault)
    requires p <= n <= |plugins|
    requires FailingPlugin(plugins, p, cache, rows, fault).index < n
    ensures RunPlugins(plugins[..n], p, cache, rows, fault) == RunPlugins(plugins, p, cache, rows, fault)
    decreases |plugins| - p
  {
    var pre := plugins[..n];
    assert pre[p] == plugins[p];
    var pl := plugins[p];
    if |pl.migrations| == 0 {
      RunsThroughFailure(plugins, n, p + 1, cache, rows, fault);
    } else {
      var units := RunUnits(pl.name, pl.migrations, 0, InitialCheckpoint(cache, pl), false, rows, fault);
      if units.err.None? {
        var cache' := if pl.name in cache then cache[pl.name := units.cp] else cache;
        RunsThroughFailure(plugins, n, p + 1, cache', units.rows, fault);
      }
    }
  }

  /** A run ends without error exactly when no plugin fails, and then in the state `FailingPlugin` records. */
  lemma {:induction false} CleanExactlyWhenNoneFails(plugins: seq<Plugin>, p: nat, cache: map<string, MigrationModel>,
                                                     rows: map<string, MigrationModel>, fault: WriteFault)
    requires p <= |plugins|
    ensures var r := RunPlugins(plugins, p, cache, rows, fault);
      var s := FailingPlugin(plugins, p, cache, rows, fault);
      && (r.err.None? <==> s.index == |plugins|)
      && (r.err.None? ==> r == Run(s.rows, s.trace, None))
    decreases |plugins| - p
  {
    if p < |plugins| {
      var pl := plugins[p];
      if |pl.migrations| == 0 {
        CleanExactlyWhenNoneFails(plugins, p + 1, cache, rows, fault);
      } else {
        var units := RunUnits(pl.name, pl.migrations, 0, InitialCheckpoint(cache, pl), false, rows, fault);
        if units.err.None? {
          var cache' := if pl.name in cache then cache[pl.name := units.cp] else cache;
          CleanExactlyWhenNoneFails(plugins, p + 1, cache', units.rows, fault);
        }
      }
    }
  }

  /** The loaded map stays keyed by plugin name up to the failing plugin. */
  lemma {:induction false} FailingPluginCacheKeyed(plugins: seq<Plugin>, p: nat, cache: map<string, MigrationModel>,
                                                   rows: map<string, MigrationModel>, fault: WriteFault)
    requires p <= |plugins| && KeyedByName(cache)
    ensures KeyedByName(FailingPlugin(plugins, p, cache, rows, fault).cache)
    decreases |plugins| - p
  {
    if p < |plugins| {
      var pl := plugins[p];
      if |pl.migrations| == 0 {
        FailingPluginCacheKeyed(plugins, p + 1, cache, rows, fault);
      } else {
        var cp := InitialCheckpoint(cache, pl);
        var units := RunUnits(pl.name, pl.migrations, 0, cp, false, rows, fault);
        if units.err.None? {
          var cache' := if pl.name in cache then cache[pl.name := units.cp] else cache;
          UnitsConfined(pl.name, pl.migrations, 0, cp, false, rows, fault);
          FailingPluginCacheKeyed(plugins, p + 1, cache', units.rows, fault);
        }
      }
    }
  }

  /**
   * When a plugin fails, the run's outcome is that plugin's units, run
   * from where the plugins before it left the table, after their log.
   */
  lemma {:induction false} FailingPluginOutcome(plugins: seq<Plugin>, p: nat, cache: map<string, MigrationModel>,
                                                rows: map<string, MigrationModel>, fault: WriteFault)
    requires p <= |plugins|
    ensures var r := RunPlugins(plugins, p, cache, rows, fault);
      var s := FailingPlugin(plugins, p, cache, rows, fault);
      s.index < |plugins| ==>
        && |plugins[s.index].migrations| > 0
        && var pl := plugins[s.index];
           var u := RunUnits(pl.name, pl.migrations, 0, InitialCheckpoint(s.cache, pl), false, s.rows, fault);
           u.err.Some? && r == Run(u.rows, s.trace + u.trace, u.err)
    decreases |plugins| - p
  {
    if p < |plugins| {
      var pl := plugins[p];
      if |pl.migrations| == 0 {
        FailingPluginOutcome(plugins, p + 1, cache, rows, fault);
      } else {
        var units := RunUnits(pl.name, pl.migrations, 0, InitialCheckpoint(cache, pl), false, rows, fault);
        if units.err.Some? {
          assert [] + units.trace == units.trace;
        } else {
          var cache' := if pl.name in cache then cache[pl.name := units.cp] else cache;
          FailingPluginOutcome(plugins, p + 1, cache', units.rows, fault);
          var s' := FailingPlugin(plugins, p + 1, cache', units.rows, fault);
          if s'.index < |plugins| {
            var pl' := plugins[s'.index];
            var u := RunUnits(pl'.name, pl'.migrations, 0, InitialCheckpoint(s'.cache, pl'), false, s'.rows, fault);
            assert units.trace + s'.trace + u.trace == units.trace + (s'.trace + u.trace);
          }
        }
      }
    }
  }

  /**
   * A run ends without error exactly when no plugin fails; otherwise its
   * outcome is the failing plugin's units, run from where the plugins
   * before it left the table, after their log.
   */
  lemma RunStopsAtFailingPlugin(plugins: seq<Plugin>, p: nat, cache: map<string, MigrationModel>,
                                rows: map<string, MigrationModel>, fault: WriteFault)
    requires p <= |plugins|
    ensures var r := RunPlugins(plugins, p, cache, rows, fault);
      var s := FailingPlugin(plugins, p, cache, rows, fault);
      && (r.err.None? <==> s.index == |plugins|)
      && (r.err.None? ==> r == Run(s.rows, s.trace, None))
      && (KeyedByName(cache) ==> KeyedByName(s.cache))
      && (s.index < |plugins| ==>
            && |plugins[s.index].migrations| > 0
            && var pl := plugins[s.index];
               var u := RunUnits(pl.name, pl.migrations, 0, InitialCheckpoint(s.cache, pl), false, s.rows, fault);
               u.err.Some? && r == Run(u.rows, s.trace + u.trace, u.err))
  {
    CleanExactlyWhenNoneFails(plugins, p, cache, rows, fault);
    if KeyedByName(cache) {
      FailingPluginCacheKeyed(plugins, p, cache, rows, fault);
    }
    FailingPluginOutcome(plugins, p, cache, rows, fault);
  }

  /** The last call in the log (nothing after it is a call) is to plugin `plugin`. */
  ghost predicate LastCallTo(t: seq<Event>, plugin: string)
  {
    exists j :: 0 <= j < |t| && t[j].Invoked? && t[j].plugin == plugin && forall j' :: j < j' < |t| ==> !t[j'].Invoked?
  }

  lemma LastCallOfFailure(a: seq<Event>, u: seq<Event>, e: MigrationError, name: string, pluginName: string)
    requires EndsWithFailure(u, e) && OwnedTrace(u, name, pluginName)
    ensures LastCallTo(a + u, name)
  {
    var t := a + u;
    assert t[|t| - 1] == u[|u| - 1];
    if e.UpFailed? {
      assert t[|t| - 2] == u[|u| - 2];
      assert t[|t| - 1].Saved?;
    } else {
      assert t[|t| - 1].Invoked?;
    }
  }

  /**
   * A plugin whose units fail, run after the log `a`: the log grows by
   * entries of that plugin alone, ending with the failing unit, so the
   * last call is to it, and only its row changes.
   */
  lemma FailingUnitsOwnTheEnd(pl: Plugin, cp: MigrationModel, rows: map<string, MigrationModel>,
                              fault: WriteFault, a: seq<Event>)
    requires cp.pluginName == pl.name
    ensures var u := RunUnits(pl.name, pl.migrations, 0, cp, false, rows, fault);
      var t := a + u.trace;
      u.err.Some? ==>
        && |a| < |t| && t[..|a|] == a && t[|a|..] == u.trace
        && OwnedTrace(u.trace, pl.name, pl.name)
        && EndsWithFailure(u.trace, u.err.value)
        && LastCallTo(t, pl.name)
        && u.rows.Keys <= rows.Keys + {pl.name}
        && (forall k :: k in rows && k != pl.name ==> k in u.rows && u.rows[k] == rows[k])
  {
    var u := RunUnits(pl.name, pl.migrations, 0, cp, false, rows, fault);
    UnitsConfined(pl.name, pl.migrations, 0, cp, false, rows, fault);
    UnitEventsOwned(pl.name, pl.migrations, 0, cp, false, rows, fault);
    UnitsEndAtFailure(pl.name, pl.migrations, 0, cp, false, rows, fault);
    if u.err.Some? {
      LastCallOfFailure(a, u.trace, u.err.value, pl.name, pl.name);
      assert (a + u.trace)[|a|..] == u.trace;
      assert (a + u.trace)[..|a|] == a;
    }
  }

  /**
   * A run that fails does so in one plugin, `f`, that has units: the
   * plugins from `p` up to `f` ran as a run that ended without error; the
   * log is theirs followed by `f`'s, in which every call is to `f` and
   * every row written is `f`'s, ending with the failing unit; the last call
   * of the whole run is to `f`; and only `f`'s row differs from the table
   * the earlier plugins left.
   */
  lemma FailingPluginEndsTheRun(plugins: seq<Plugin>, p: nat, cache: map<string, MigrationModel>,
                                rows: map<string, MigrationModel>, fault: WriteFault)
    requires p <= |plugins| && KeyedByName(cache)
    ensures var r := RunPlugins(plugins, p, cache, rows, fault);
      var s := FailingPlugin(plugins, p, cache, rows, fault);
      var f := s.index;
      r.err.Some? ==>
        && f < |plugins| && |plugins[f].migrations| > 0
        && RunPlugins(plugins[..f], p, cache, rows, fault) == Run(s.rows, s.trace, None)
        && |s.trace| < |r.trace| && r.trace[..|s.trace|] == s.trace
        && OwnedTrace(r.trace[|s.trace|..], plugins[f].name, plugins[f].name)
        && EndsWithFailure(r.trace[|s.trace|..], r.err.value)
        && LastCallTo(r.trace, plugins[f].name)
        && r.rows.Keys <= s.rows.Keys + {plugins[f].name}
        && (forall k :: k in s.rows && k != plugins[f].name ==> k in r.rows && r.rows[k] == s.rows[k])
  {
    var r := RunPlugins(plugins, p, cache, rows, fault);
    var s := FailingPlugin(plugins, p, cache, rows, fault);
    RunStopsAtFailingPlugin(plugins, p, cache, rows, fault);
    if r.err.Some? {
      var f := s.index;
      var pl := plugins[f];
      var cp := InitialCheckpoint(s.cache, pl);
      assert cp.pluginName == pl.name;
      var u := RunUnits(pl.name, pl.migrations, 0, cp, false, s.rows, fault);
      assert r == Run(u.rows, s.trace + u.trace, u.err);
      RunsBeforeFailure(plugins, p, cache, rows, fault);
      FailingUnitsOwnTheEnd(pl, cp, s.rows, fault, s.trace);
      assert r.trace == s.trace + u.trace && r.rows == u.rows && r.err == u.err;
    }
  }

  /** No plugin with units at an index from `p` to `f` is named `k`. */
  ghost predicate NotRunBetween(plugins: seq<Plugin>, p: nat, f: nat, k: string)
  {
    forall q :: p <= q <= f && q < |plugins| && |plugins[q].migrations| > 0 ==> plugins[q].name != k
  }

  /**
   * After a failed run, a row whose name no plugin up to the failing one
   * bears (such as that of a later plugin) is as it was, and no entry of
   * the log concerns it: a failure leaves later plugins untouched.
   */
  lemma LaterPluginsUntouched(plugins: seq<Plugin>, p: nat, cache: map<string, MigrationModel>,
                              rows: map<string, MigrationModel>, fault: WriteFault, k: string)
    requires p <= |plugins| && KeyedByName(cache)
    requires RunPlugins(plugins, p, cache, rows, fault).err.Some?
    requires NotRunBetween(plugins, p, FailingPlugin(plugins, p, cache, rows, fault).index, k)
    ensures var r := RunPlugins(plugins, p, cache, rows, fault);
      && (k in r.rows <==> k in rows)
      && (k in rows ==> r.rows[k] == rows[k])
      && (forall j :: 0 <= j < |r.trace| ==> !Touches(r.trace[j], k))
  {
    var f := FailingPlugin(plugins, p, cache, rows, fault).index;
    CleanExactlyWhenNoneFails(plugins, p, cache, rows, fault);
    RunsThroughFailure(plugins, f + 1, p, cache, rows, fault);
    var pre := plugins[..f + 1];
    assert NotRunFrom(pre, p, k) by {
      forall q | p <= q < |pre| && |pre[q].migrations| > 0
        ensures pre[q].name != k
      {
        assert pre[q] == plugins[q];
      }
    }
    RunTouchesOnlyItsPlugins(pre, p, cache, rows, fault, k);
  }

  /** The checkpoint is the row stored under its own name. */
  ghost predicate Stored(cp: MigrationModel, rows: map<string, MigrationModel>)
  {
    cp.pluginName in rows && rows[cp.pluginName] == cp
  }

  /**
   * After a plugin's units end without error, its checkpoint is in the
   * table: it was either there already or saved by a unit that ran.
   */
  lemma {:induction false} FinalCheckpointStored(name: string, migs: seq<Migration>, i: nat, cp: MigrationModel, ran: bool,
                                                 rows: map<string, MigrationModel>, fault: WriteFault)
    requires i <= |migs|
    requires Stored(cp, rows) || (i < |migs| && cp.version == 0)
    ensures var r := RunUnits(name, migs, i, cp, ran, rows, fault);
      r.err.None? ==> Stored(r.cp, r.rows)
    decreases |migs| - i
  {
    if i < |migs| {
      if cp.version == 0 || ran {
        var mig := migs[i];
        var step := ApplyUnit(name, i + 1, mig, cp, rows, fault);
        if step.err.None? {
          UpsertSemantics(rows, cp.(version := i + 1, lastUpgradeName := mig.name), fault(cp.(version := i + 1, lastUpgradeName := mig.name)));
          FinalCheckpointStored(name, migs, i + 1, step.cp, true, step.rows, fault);
        }
      } else if i + 1 == cp.version {
        FinalCheckpointStored(name, migs, i + 1, cp, true, rows, fault);
      } else {
        FinalCheckpointStored(name, migs, i + 1, cp, ran, rows, fault);
      }
    }
  }

  /** No two plugins share a name. */
  ghost predicate DistinctNames(plugins: seq<Plugin>)
  {
    forall q1, q2 :: 0 <= q1 < q2 < |plugins| ==> plugins[q1].name != plugins[q2].name
  }

  /** Nothing is pending for the row: it is at or past the last unit, or negative. */
  ghost predicate SettledRow(m: MigrationModel, units: nat)
  {
    m.version < 0 || units <= m.version
  }

  /** Every plugin from index `p` on that has units has a settled row. */
  ghost predicate SettledFrom(plugins: seq<Plugin>, p: nat, rows: map<string, MigrationModel>)
  {
    forall q :: p <= q < |plugins| && |plugins[q].migrations| > 0 ==>
      plugins[q].name in rows && SettledRow(rows[plugins[q].name], |plugins[q].migrations|)
  }

  /** When every plugin's loaded row is settled, a run calls no unit and writes nothing. */
  lemma {:induction false} SettledRunsNothing(plugins: seq<Plugin>, p: nat, cache: map<string, MigrationModel>,
                                              rows: map<string, MigrationModel>, fault: WriteFault)
    requires p <= |plugins| && SettledFrom(plugins, p, cache)
    ensures RunPlugins(plugins, p, cache, rows, fault) == Run(rows, [], None)
    decreases |plugins| - p
  {
    if p < |plugins| {
      var pl := plugins[p];
      if |pl.migrations| > 0 {
        NothingPendingRunsNothing(pl.name, pl.migrations, cache[pl.name], rows, fault);
        assert cache[pl.name := cache[pl.name]] == cache;
      }
      SettledRunsNothing(plugins, p + 1, cache, rows, fault);
    }
  }

  /**
   * A run from index `p` that ends without error leaves every plugin with
   * units a settled row, and keeps the table keyed by plugin name.
   */
  lemma {:induction false} CleanRunSettles(plugins: seq<Plugin>, p: nat, cache: map<string, MigrationModel>,
                                           rows: map<string, MigrationModel>, fault: WriteFault)
    requires p <= |plugins| && DistinctNames(plugins) && KeyedByName(rows) && IsSubMap(cache, rows)
    ensures var r := RunPlugins(plugins, p, cache, rows, fault);
      r.err == None ==> SettledFrom(plugins, p, r.rows) && KeyedByName(r.rows)
    decreases |plugins| - p
  {
    if p < |plugins| {
      var pl := plugins[p];
      if |pl.migrations| == 0 {
        CleanRunSettles(plugins, p + 1, cache, rows, fault);
      } else {
        var cp := InitialCheckpoint(cache, pl);
        assert cp.pluginName == pl.name;
        var units := RunUnits(pl.name, pl.migrations, 0, cp, false, rows, fault);
        if units.err.None? {
          UnitsConfined(pl.name, pl.migrations, 0, cp, false, rows, fault);
          FinalCheckpointStored(pl.name, pl.migrations, 0, cp, false, rows, fault);
          VersionNeverDecreases(pl.name, pl.migrations, cp, rows, fault);
          if cp.version < 0 {
            NegativeVersionRunsNothing(pl.name, pl.migrations, 0, cp, rows, fault);
          }
          assert SettledRow(units.cp, |pl.migrations|);
          var cache' := if pl.name in cache then cache[pl.name := units.cp] else cache;
          assert IsSubMap(cache', units.rows);
          CleanRunSettles(plugins, p + 1, cache', units.rows, fault);
          RunTouchesOnlyItsPlugins(plugins, p + 1, cache', units.rows, fault, pl.name);
        }
      }
    }
  }

  /**
   * After a run that ends without error, a second run that loads the table
   * the first one left (all of it, as when it holds at most `FindLimit`
   * rows) calls no unit and writes nothing, whatever the database faults.
   */
  lemma IdempotentRerun(plugins: seq<Plugin>, cache: map<string, MigrationModel>,
                        rows: map<string, MigrationModel>, fault: WriteFault, fault2: WriteFault)
    requires DistinctNames(plugins) && KeyedByName(rows) && IsSubMap(cache, rows)
    ensures var r := RunPlugins(plugins, 0, cache, rows, fault);
      r.err == None ==> RunPlugins(plugins, 0, r.rows, r.rows, fault2) == Run(r.rows, [], None)
  {
    var r := RunPlugins(plugins, 0, cache, rows, fault);
    CleanRunSettles(plugins, 0, cache, rows, fault);
    if r.err == None {
      SettledRunsNothing(plugins, 0, r.rows, r.rows, fault2);
    }
  }

  /** The database accepts every write. */
  ghost predicate WritesAccepted(fault: WriteFault)
  {
    forall m :: fault(m).None?
  }

  /** Every unit of every plugin succeeds. */
  ghost predicate PluginUnitsSucceed(plugins: seq<Plugin>)
  {
    forall q, k :: 0 <= q < |plugins| && 0 <= k < |plugins[q].migrations| ==> plugins[q].migrations[k].up.None?
  }

  /** Every plugin has a non-empty name. */
  ghost predicate NamedPlugins(plugins: seq<Plugin>)
  {
    forall q :: 0 <= q < |plugins| ==> plugins[q].name != ""
  }

  /** No loaded row carries a negative version. */
  ghost predicate VersionsNonNegative(cache: map<string, MigrationModel>)
  {
    forall k :: k in cache ==> 0 <= cache[k].version
  }

  /**
   * Reference log of a run where everything succeeds: for each plugin with
   * units, in order, the call and the save of each of its pending units,
   * counted from the version loaded for it.
   */
  ghost function CleanTrace(plugins: seq<Plugin>, p: nat, cache: map<string, MigrationModel>): seq<Event>
    requires p <= |plugins| && VersionsNonNegative(cache)
    decreases |plugins| - p
  {
    if p == |plugins| then []
    else if |plugins[p].migrations| == 0 then CleanTrace(plugins, p + 1, cache)
    else
      var pl := plugins[p];
      var cp := InitialCheckpoint(cache, pl);
      SuccessTrace(pl.name, pl.migrations, FirstPending(pl.migrations, cp), |pl.migrations|, cp.pluginName, cp.lastError)
      + CleanTrace(plugins, p + 1, cache)
  }

  /**
   * The row a plugin with units ends with after a clean run: the loaded one
   * when it is already at or past the last unit, otherwise one at the last
   * unit's version and name, keeping the loaded last error.
   */
  ghost function FinalRow(cache: map<string, MigrationModel>, pl: Plugin): MigrationModel
    requires |pl.migrations| > 0
  {
    var cp := InitialCheckpoint(cache, pl);
    if |pl.migrations| <= cp.version then cp
    else MigrationModel(pl.name, |pl.migrations|, pl.migrations[|pl.migrations| - 1].name, cp.lastError)
  }

  /** Loading a different row for a name no plugin from `p` on bears does not change the reference log. */
  lemma {:induction false} CleanTraceIgnores(plugins: seq<Plugin>, p: nat, cache: map<string, MigrationModel>,
                                             k: string, m: MigrationModel)
    requires p <= |plugins| && VersionsNonNegative(cache) && 0 <= m.version
    requires forall q :: p <= q < |plugins| ==> plugins[q].name != k
    ensures VersionsNonNegative(cache[k := m])
    ensures CleanTrace(plugins, p, cache[k := m]) == CleanTrace(plugins, p, cache)
    decreases |plugins| - p
  {
    if p < |plugins| {
      if |plugins[p].migrations| > 0 {
        assert InitialCheckpoint(cache[k := m], plugins[p]) == InitialCheckpoint(cache, plugins[p]);
      }
      CleanTraceIgnores(plugins, p + 1, cache, k, m);
    }
  }

  /**
   * One plugin with units in a run where everything succeeds: its units
   * end without error, log the reference entries and store `FinalRow`, and
   * the loaded map stays a part of the table.
   */
  lemma CleanPluginStep(pl: Plugin, cache: map<string, MigrationModel>, rows: map<string, MigrationModel>, fault: WriteFault)
    requires |pl.migrations| > 0 && pl.name != "" && WritesAccepted(fault)
    requires forall k :: 0 <= k < |pl.migrations| ==> pl.migrations[k].up.None?
    requires KeyedByName(rows) && IsSubMap(cache, rows) && VersionsNonNegative(cache)
    ensures var cp := InitialCheckpoint(cache, pl);
      var units := RunUnits(pl.name, pl.migrations, 0, cp, false, rows, fault);
      var cache' := if pl.name in cache then cache[pl.name := units.cp] else cache;
      && units.err == None
      && units.trace == SuccessTrace(pl.name, pl.migrations, FirstPending(pl.migrations, cp), |pl.migrations|, cp.pluginName, cp.lastError)
      && units.cp == FinalRow(cache, pl)
      && units.rows == rows[pl.name := units.cp]
      && KeyedByName(units.rows) && KeyedByName(cache')
      && IsSubMap(cache', units.rows) && VersionsNonNegative(cache')
  {
    var migs := pl.migrations;
    var cp := InitialCheckpoint(cache, pl);
    assert cp.pluginName == pl.name;
    var s := FirstPending(migs, cp);
    assert UnitsSucceed(migs, s, |migs|);
    assert SavesAccepted(fault, migs, s, |migs|, cp.pluginName, cp.lastError) by {
      forall k | s <= k < |migs|
        ensures fault(MigrationModel(cp.pluginName, k + 1, migs[k].name, cp.lastError)).None?
      {
      }
    }
    AllPendingUnitsRun(pl.name, migs, cp, rows, fault);
    if s == |migs| {
      assert rows[pl.name := cp] == rows;
    }
  }

  /** Every unit of the plugin at `p` succeeds. */
  lemma PluginSucceeds(plugins: seq<Plugin>, p: nat)
    requires p < |plugins| && PluginUnitsSucceed(plugins)
    ensures forall k :: 0 <= k < |plugins[p].migrations| ==> plugins[p].migrations[k].up.None?
  {
  }

  /**
   * When every unit succeeds and every write is accepted, a run over plugins
   * with distinct, non-empty names ends without error and its log is the
   * reference log.
   */
  lemma {:induction false} CleanRunLog(plugins: seq<Plugin>, p: nat, cache: map<string, MigrationModel>,
                                       rows: map<string, MigrationModel>, fault: WriteFault)
    requires p <= |plugins| && WritesAccepted(fault) && PluginUnitsSucceed(plugins)
    requires NamedPlugins(plugins) && DistinctNames(plugins)
    requires KeyedByName(rows) && IsSubMap(cache, rows) && VersionsNonNegative(cache)
    ensures var r := RunPlugins(plugins, p, cache, rows, fault);
      r.err == None && r.trace == CleanTrace(plugins, p, cache)
    decreases |plugins| - p
  {
    if p < |plugins| {
      var pl := plugins[p];
      if |pl.migrations| == 0 {
        CleanRunLog(plugins, p + 1, cache, rows, fault);
      } else {
        PluginSucceeds(plugins, p);
        CleanPluginStep(pl, cache, rows, fault);
        var units := RunUnits(pl.name, pl.migrations, 0, InitialCheckpoint(cache, pl), false, rows, fault);
        var cache' := if pl.name in cache then cache[pl.name := units.cp] else cache;
        if pl.name in cache {
          assert forall q :: p + 1 <= q < |plugins| ==> plugins[q].name != pl.name;
          CleanTraceIgnores(plugins, p + 1, cache, pl.name, units.cp);
        }
        CleanRunLog(plugins, p + 1, cache', units.rows, fault);
      }
    }
  }

  /**
   * In the same run, every plugin with units ends with its `FinalRow`.
   */
  lemma {:induction false} CleanRunRows(plugins: seq<Plugin>, p: nat, cache: map<string, MigrationModel>,
                                        rows: map<string, MigrationModel>, fault: WriteFault)
    requires p <= |plugins| && WritesAccepted(fault) && PluginUnitsSucceed(plugins)
    requires NamedPlugins(plugins) && DistinctNames(plugins)
    requires KeyedByName(rows) && IsSubMap(cache, rows) && VersionsNonNegative(cache)
    ensures var r := RunPlugins(plugins, p, cache, rows, fault);
      forall q :: p <= q < |plugins| && |plugins[q].migrations| > 0 ==>
        plugins[q].name in r.rows && r.rows[plugins[q].name] == FinalRow(cache, plugins[q])
    decreases |plugins| - p
  {
    if p < |plugins| {
      var pl := plugins[p];
      if |pl.migrations| == 0 {
        CleanRunRows(plugins, p + 1, cache, rows, fault);
      } else {
        PluginSucceeds(plugins, p);
        CleanPluginStep(pl, cache, rows, fault);
        var units := RunUnits(pl.name, pl.migrations, 0, InitialCheckpoint(cache, pl), false, rows, fault);
        var cache' := if pl.name in cache then cache[pl.name := units.cp] else cache;
        var rest := RunPlugins(plugins, p + 1, cache', units.rows, fault);
        assert RunPlugins(plugins, p, cache, rows, fault).rows == rest.rows;
        CleanRunRows(plugins, p + 1, cache', units.rows, fault);
        RunTouchesOnlyItsPlugins(plugins, p + 1, cache', units.rows, fault, pl.name);
        forall q | p <= q < |plugins| && |plugins[q].migrations| > 0
          ensures plugins[q].name in rest.rows && rest.rows[plugins[q].name] == FinalRow(cache, plugins[q])
        {
          if q > p {
            assert InitialCheckpoint(cache', plugins[q]) == InitialCheckpoint(cache, plugins[q]);
          }
        }
      }
    }
  }

  /**
   * When every unit succeeds and every write is accepted, a run over plugins
   * with distinct, non-empty names ends without error, its log is the
   * reference log, and every plugin with units ends with its `FinalRow`.
   */
  lemma CleanRunAccounting(plugins: seq<Plugin>, p: nat, cache: map<string, MigrationModel>,
                           rows: map<string, MigrationModel>, fault: WriteFault)
    requires p <= |plugins| && WritesAccepted(fault) && PluginUnitsSucceed(plugins)
    requires NamedPlugins(plugins) && DistinctNames(plugins)
    requires KeyedByName(rows) && IsSubMap(cache, rows) && VersionsNonNegative(cache)
    ensures var r := RunPlugins(plugins, p, cache, rows, fault);
      && r.err == None
      && r.trace == CleanTrace(plugins, p, cache)
      && KeyedByName(r.rows)
      && (forall q :: p <= q < |plugins| && |plugins[q].migrations| > 0 ==>
            plugins[q].name in r.rows && r.rows[plugins[q].name] == FinalRow(cache, plugins[q]))
  {
    CleanRunLog(plugins, p, cache, rows, fault);
    CleanRunRows(plugins, p, cache, rows, fault);
    CleanRunSettles(plugins, p, cache, rows, fault);
  }

  /** How many calls to a unit's `Up` a log holds. */
  ghost function Calls(t: seq<Event>): nat
  {
    if t == [] then 0 else (if t[0].Invoked? then 1 else 0) + Calls(t[1..])
  }

  lemma {:induction false} CallsConcat(a: seq<Event>, b: seq<Event>)
    ensures Calls(a + b) == Calls(a) + Calls(b)
    decreases |a|
  {
    if a == [] {
      assert a + b == b;
    } else {
      assert (a + b)[0] == a[0];
      assert (a + b)[1..] == a[1..] + b;
      CallsConcat(a[1..], b);
    }
  }

  /** The successful run of units `i` .. `j-1` calls `Up` once for each of them. */
  lemma {:induction false} SuccessTraceCalls(name: string, migs: seq<Migration>, i: nat, j: nat, pluginName: string, lastError: string)
    requires i <= j <= |migs|
    ensures Calls(SuccessTrace(name, migs, i, j, pluginName, lastError)) == j - i
    decreases j - i
  {
    if i < j {
      var head := [Invoked(name, i + 1, migs[i].name), Saved(MigrationModel(pluginName, i + 1, migs[i].name, lastError))];
      CallsConcat(head, SuccessTrace(name, migs, i + 1, j, pluginName, lastError));
      assert head[1..][1..] == [];
      SuccessTraceCalls(name, migs, i + 1, j, pluginName, lastError);
    }
  }

  /** The number of units pending, over all plugins from `p` on, given the loaded rows. */
  ghost function PendingCount(plugins: seq<Plugin>, p: nat, cache: map<string, MigrationModel>): nat
    requires p <= |plugins| && VersionsNonNegative(cache)
    decreases |plugins| - p
  {
    if p == |plugins| then 0
    else if |plugins[p].migrations| == 0 then PendingCount(plugins, p + 1, cache)
    else
      var pl := plugins[p];
      |pl.migrations| - FirstPending(pl.migrations, InitialCheckpoint(cache, pl)) + PendingCount(plugins, p + 1, cache)
  }

  lemma {:induction false} CleanTraceCalls(plugins: seq<Plugin>, p: nat, cache: map<string, MigrationModel>)
    requires p <= |plugins| && VersionsNonNegative(cache)
    ensures Calls(CleanTrace(plugins, p, cache)) == PendingCount(plugins, p, cache)
    decreases |plugins| - p
  {
    if p < |plugins| {
      var pl := plugins[p];
      CleanTraceCalls(plugins, p + 1, cache);
      if |pl.migrations| > 0 {
        var cp := InitialCheckpoint(cache, pl);
        var s := FirstPending(pl.migrations, cp);
        CallsConcat(SuccessTrace(pl.name, pl.migrations, s, |pl.migrations|, cp.pluginName, cp.lastError),
                    CleanTrace(plugins, p + 1, cache));
        SuccessTraceCalls(pl.name, pl.migrations, s, |pl.migrations|, cp.pluginName, cp.lastError);
      }
    }
  }

  /**
   * In a run where everything succeeds, `Up` is called exactly as many
   * times as there are pending units, each once, in the reference order.
   */
  lemma CleanRunCallsEachPendingUnitOnce(plugins: seq<Plugin>, cache: map<string, MigrationModel>,
                                         rows: map<string, MigrationModel>, fault: WriteFault)
    requires WritesAccepted(fault) && PluginUnitsSucceed(plugins) && NamedPlugins(plugins) && DistinctNames(plugins)
    requires KeyedByName(rows) && IsSubMap(cache, rows) && VersionsNonNegative(cache)
    ensures var r := RunPlugins(plugins, 0, cache, rows, fault);
      r.err == None && r.trace == CleanTrace(plugins, 0, cache) && Calls(r.trace) == PendingCount(plugins, 0, cache)
  {
    CleanRunAccounting(plugins, 0, cache, rows, fault);
    CleanTraceCalls(plugins, 0, cache);
  }

  /** The number of units of the plugins from `p` on. */
  ghost function TotalUnits(plugins: seq<Plugin>, p: nat): nat
    requires p <= |plugins|
    decreases |plugins| - p
  {
    if p == |plugins| then 0 else |plugins[p].migrations| + TotalUnits(plugins, p + 1)
  }

  lemma {:induction false} NothingLoadedAllPending(plugins: seq<Plugin>, p: nat)
    requires p <= |plugins|
    ensures PendingCount(plugins, p, map[]) == TotalUnits(plugins, p)
    decreases |plugins| - p
  {
    if p < |plugins| {
      NothingLoadedAllPending(plugins, p + 1);
    }
  }

  /**
   * On an empty table, a run where everything succeeds calls every unit
   * of every plugin once, and leaves each plugin with units a row at its
   * last unit's version and name, with no error recorded.
   */
  lemma FreshTableRunsEverything(plugins: seq<Plugin>, fault: WriteFault)
    requires WritesAccepted(fault) && PluginUnitsSucceed(plugins) && NamedPlugins(plugins) && DistinctNames(plugins)
    ensures var r := RunPlugins(plugins, 0, map[], map[], fault);
      && r.err == None
      && Calls(r.trace) == TotalUnits(plugins, 0)
      && (forall q :: 0 <= q < |plugins| && |plugins[q].migrations| > 0 ==>
            var pl := plugins[q];
            pl.name in r.rows
            && r.rows[pl.name] == MigrationModel(pl.name, |pl.migrations|, pl.migrations[|pl.migrations| - 1].name, ""))
  {
    CleanRunAccounting(plugins, 0, map[], map[], fault);
    CleanTraceCalls(plugins, 0, map[]);
    NothingLoadedAllPending(plugins, 0);
  }
}
