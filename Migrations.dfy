/**
 * The plugin migration engine (migration.go): a checkpoint table with one
 * row per plugin, and the `Up` run that applies every plugin's pending
 * migration units in registration order, saving the plugin's checkpoint
 * after every unit and stopping the whole run at the first failure.
 *
 * The database is the class `Database`: the `bolo_migrations` table is the
 * map `rows`, keyed by plugin name. Whether the DDL and the load query fail
 * is fixed by two constants, and how the database answers each write is a
 * function of the row written, since those failures come from the database
 * server. A ghost `log` records, in order, every call into a
 * unit's `Up` and every row that was written, so that properties about the
 * order of effects can be stated.
 */
module Migrations {
  import opened Wrappers
  import opened Plugins

  /** `FindAllMigrations` reads at most this many rows (`Limit(3000)`). */
  const FindLimit: nat := 3000

  /** The error the database reports when `Create` meets an existing primary key. */
  const DuplicateKeyError: string := "duplicate primary key"

  /** The error the database reports when the checkpoint table does not exist. */
  const NoTableError: string := "no such table: bolo_migrations"

  /** A row of `bolo_migrations` (`MigrationModel`); the timestamps are not modelled. */
  datatype MigrationModel = MigrationModel(
    pluginName: string,
    version: int,
    lastUpgradeName: string,
    lastError: string)

  /**
   * How the database answers the write of a row: `None` when it accepts
   * it, or the error it reports. The rows a run writes differ in plugin,
   * version, unit name or error, so the answer can differ from one write to
   * the next. There are two exceptions. One is a failing unit named like
   * the one before it, failing with the error already stored. The other is
   * a second plugin of the same name that is missing from the loaded rows:
   * it starts again from version 0 and writes the same rows once more. A
   * unit's outcome `up` is fixed, so such a unit also fails or succeeds as
   * it did the first time.
   */
  type WriteFault = MigrationModel -> Option<string>

  /** What the ghost log records: a call into a unit's `Up`, or a row written by `Save`. */
  datatype Event =
    | Invoked(plugin: string, version: int, unit: string)
    | Saved(row: MigrationModel)

  /** The errors `Up` returns, with the parts its `fmt.Errorf` messages wrap. */
  datatype MigrationError =
    | SetupFailed(cause: string)
    | LoadFailed(cause: string)
    | UpFailed(unit: string, cause: string)
    | SaveFailed(unit: string, cause: string)
    | SaveAfterUpFailed(unit: string, saveCause: string, upCause: string)

  /** An error of a unit or of its save: the kinds `Up` returns from inside its loops. */
  predicate UnitError(e: MigrationError)
  {
    e.UpFailed? || e.SaveFailed? || e.SaveAfterUpFailed?
  }

  /** Every row is stored under its own plugin name (the primary key). */
  ghost predicate KeyedByName(rows: map<string, MigrationModel>)
  {
    forall k :: k in rows ==> rows[k].pluginName == k
  }

  /** `small` holds some of the rows of `big`, unchanged. */
  ghost predicate IsSubMap(small: map<string, MigrationModel>, big: map<string, MigrationModel>)
  {
    forall k :: k in small ==> k in big && small[k] == big[k]
  }

  function Min(a: nat, b: nat): nat
  {
    if a <= b then a else b
  }

  /**
   * `MigrationModel.Save`: look the row up by plugin name, then `Create` when
   * the lookup found no name and `Save` (update) otherwise. The lookup copies
   * only `plugin_name`, so a row whose name is "" looks absent: saving a ""
   * row when one exists goes to `Create` and fails on the primary key.
   */
  function Upsert(rows: map<string, MigrationModel>, m: MigrationModel, fault: Option<string>)
    : Result<map<string, MigrationModel>, string>
  {
    if fault.Some? then Failure(fault.value)
    else if m.pluginName == "" && "" in rows then Failure(DuplicateKeyError)
    else Success(rows[m.pluginName := m])
  }

  /**
   * `Save` is an upsert keyed by plugin name: it fails exactly on a database
   * fault or on the "" key that already exists; otherwise it creates the row
   * when absent, overwrites it when present, and leaves every other row alone.
   */
  lemma UpsertSemantics(rows: map<string, MigrationModel>, m: MigrationModel, fault: Option<string>)
    ensures var r := Upsert(rows, m, fault);
      && (r.Failure? <==> fault.Some? || (m.pluginName == "" && "" in rows))
      && (fault.Some? ==> r == Failure(fault.value))
      && (r.Success? ==> r.value.Keys == rows.Keys + {m.pluginName} && r.value[m.pluginName] == m)
      && (r.Success? ==> forall k :: k in rows && k != m.pluginName ==> r.value[k] == rows[k])
      && (r.Success? && KeyedByName(rows) ==> KeyedByName(r.value))
  {
  }

  /** The checkpoint `Up` starts a plugin from: the loaded row, or a new one at version 0. */
  function InitialCheckpoint(cache: map<string, MigrationModel>, p: Plugin): (cp: MigrationModel)
    requires |p.migrations| > 0
    ensures p.name in cache ==> cp == cache[p.name]
    ensures p.name !in cache ==> cp.pluginName == p.name && cp.version == 0 && cp.lastError == ""
    ensures KeyedByName(cache) ==> cp.pluginName == p.name
  {
    if p.name in cache then cache[p.name]
    else MigrationModel(p.name, 0, p.migrations[0].name, "")
  }

  /** The outcome of one plugin's inner loop: its checkpoint, the table, the log entries and the error. */
  datatype PluginRun = PluginRun(
    cp: MigrationModel,
    rows: map<string, MigrationModel>,
    trace: seq<Event>,
    err: Option<MigrationError>)

  /** The outcome of a whole run from some plugin on. */
  datatype Run = Run(rows: map<string, MigrationModel>, trace: seq<Event>, err: Option<MigrationError>)

  function PrependUnits(t: seq<Event>, r: PluginRun): PluginRun
  {
    r.(trace := t + r.trace)
  }

  function PrependRun(t: seq<Event>, r: Run): Run
  {
    r.(trace := t + r.trace)
  }

  lemma ConcatAssoc(a: seq<Event>, b: seq<Event>, c: seq<Event>)
    ensures a + b + c == a + (b + c)
  {
  }

  lemma PrependUnitsTwice(a: seq<Event>, b: seq<Event>, r: PluginRun)
    ensures PrependUnits(a, PrependUnits(b, r)) == PrependUnits(a + b, r)
  {
  }

  lemma PrependRunTwice(a: seq<Event>, b: seq<Event>, r: Run)
    ensures PrependRun(a, PrependRun(b, r)) == PrependRun(a + b, r)
  {
  }

  /**
   * One unit that `Up` decided to run, at version `v`: call its `Up`. On
   * success store `Version = v` and the unit's name (the last error is left
   * as it was) and save; on failure store the name and the error and save.
   * `err` is set when the run must stop here.
   */
  function ApplyUnit(name: string, v: int, mig: Migration, cp: MigrationModel,
                     rows: map<string, MigrationModel>, fault: WriteFault): (step: PluginRun)
    ensures step.cp.pluginName == cp.pluginName
    ensures step.err.Some? ==> UnitError(step.err.value)
  {
    var call := Invoked(name, v, mig.name);
    if mig.up.Some? then
      var failed := cp.(lastUpgradeName := mig.name, lastError := mig.up.value);
      match Upsert(rows, failed, fault(failed))
      case Failure(e) => PluginRun(failed, rows, [call], Some(SaveAfterUpFailed(mig.name, e, mig.up.value)))
      case Success(rows') => PluginRun(failed, rows', [call, Saved(failed)], Some(UpFailed(mig.name, mig.up.value)))
    else
      var done := cp.(version := v, lastUpgradeName := mig.name);
      match Upsert(rows, done, fault(done))
      case Failure(e) => PluginRun(done, rows, [call], Some(SaveFailed(mig.name, e)))
      case Success(rows') => PluginRun(done, rows', [call, Saved(done)], None)
  }

  /**
   * The inner loop of `Up` from unit index `i` on, as written: a unit runs
   * when the checkpoint's version is 0 or `ran` (`lastMigRan != nil`) is set;
   * otherwise reaching the unit whose version equals the checkpoint's sets
   * `ran`. The first unit that fails, or whose checkpoint cannot be saved,
   * ends the loop.
   */
  function RunUnits(name: string, migs: seq<Migration>, i: nat, cp: MigrationModel, ran: bool,
                    rows: map<string, MigrationModel>, fault: WriteFault): (units: PluginRun)
    requires i <= |migs|
    ensures units.cp.pluginName == cp.pluginName
    ensures units.err.Some? ==> UnitError(units.err.value)
    decreases |migs| - i
  {
    if i == |migs| then PluginRun(cp, rows, [], None)
    else if cp.version == 0 || ran then
      var step := ApplyUnit(name, i + 1, migs[i], cp, rows, fault);
      if step.err.Some? then step
      else PrependUnits(step.trace, RunUnits(name, migs, i + 1, step.cp, true, step.rows, fault))
    else if i + 1 == cp.version then RunUnits(name, migs, i + 1, cp, true, rows, fault)
    else RunUnits(name, migs, i + 1, cp, ran, rows, fault)
  }

  /**
   * The outer loop of `Up` from plugin index `p` on: plugins without units
   * are skipped; every other plugin runs its units from its initial
   * checkpoint, and the first error ends the run.
   */
  function RunPlugins(plugins: seq<Plugin>, p: nat, cache: map<string, MigrationModel>,
                      rows: map<string, MigrationModel>, fault: WriteFault): Run
    requires p <= |plugins|
    decreases |plugins| - p, 1
  {
    if p == |plugins| then Run(rows, [], None)
    else if |plugins[p].migrations| == 0 then RunPlugins(plugins, p + 1, cache, rows, fault)
    else
      var pl := plugins[p];
      AfterPlugin(plugins, p, cache,
                  RunUnits(pl.name, pl.migrations, 0, InitialCheckpoint(cache, pl), false, rows, fault), fault)
  }

  /**
   * What follows a plugin's inner loop: on an error the run ends; otherwise
   * a checkpoint that came from the loaded map is updated there too (Go
   * updates the loaded record in place), and the run goes on with the next plugin.
   */
  function AfterPlugin(plugins: seq<Plugin>, p: nat, cache: map<string, MigrationModel>,
                       r: PluginRun, fault: WriteFault): Run
    requires p < |plugins|
    decreases |plugins| - p, 0
  {
    if r.err.Some? then Run(r.rows, r.trace, r.err)
    else
      var name := plugins[p].name;
      var cache' := if name in cache then cache[name := r.cp] else cache;
      PrependRun(r.trace, RunPlugins(plugins, p + 1, cache', r.rows, fault))
  }

  /** The database the engine works on; only the `bolo_migrations` table is modelled. */
  class Database {
    var tableExists: bool
    var rows: map<string, MigrationModel>
    const setupFault: Option<string>
    const loadFault: Option<string>
    const saveFault: WriteFault
    ghost var log: seq<Event>

    ghost predicate Valid()
      reads this
    {
      KeyedByName(rows) && (!tableExists ==> rows == map[])
    }

    constructor (tableExists: bool, rows: map<string, MigrationModel>,
                 setupFault: Option<string>, loadFault: Option<string>, saveFault: WriteFault)
      requires KeyedByName(rows) && (!tableExists ==> rows == map[])
      ensures Valid()
      ensures this.tableExists == tableExists && this.rows == rows && log == []
      ensures this.setupFault == setupFault && this.loadFault == loadFault && this.saveFault == saveFault
    {
      this.tableExists := tableExists;
      this.rows := rows;
      this.setupFault := setupFault;
      this.loadFault := loadFault;
      this.saveFault := saveFault;
      log := [];
    }

    /** `SetupMigrationEngine`: CREATE TABLE IF NOT EXISTS; existing rows are kept. */
    method SetupMigrationEngine() returns (err: Option<string>)
      requires Valid()
      modifies this`tableExists
      ensures Valid() && rows == old(rows)
      ensures err == setupFault
      ensures tableExists == (old(tableExists) || setupFault.None?)
    {
      if setupFault.Some? {
        return setupFault;
      }
      tableExists := true;
      return None;
    }

    /**
     * `FindAllMigrations`: all rows, but at most `FindLimit` of them. The
     * query has no ORDER BY, so which rows come back, and in which order, is
     * up to the database: here, an arbitrary choice.
     */
    method FindAllMigrations() returns (migs: seq<MigrationModel>, err: Option<string>)
      requires Valid()
      ensures err.None? <==> loadFault.None? && tableExists
      ensures loadFault.Some? ==> err == loadFault
      ensures err.Some? ==> migs == []
      ensures err.None? ==> |migs| == Min(|rows|, FindLimit)
      ensures forall j :: 0 <= j < |migs| ==> migs[j].pluginName in rows && rows[migs[j].pluginName] == migs[j]
      ensures forall j, k :: 0 <= j < k < |migs| ==> migs[j].pluginName != migs[k].pluginName
    {
      if loadFault.Some? {
        return [], loadFault;
      }
      if !tableExists {
        return [], Some(NoTableError);
      }
      migs := [];
      var left := rows.Keys;
      while left != {} && |migs| < FindLimit
        invariant left <= rows.Keys
        invariant |migs| + |left| == |rows|
        invariant |migs| <= FindLimit
        invariant forall j :: 0 <= j < |migs| ==> migs[j].pluginName in rows && rows[migs[j].pluginName] == migs[j]
        invariant forall j :: 0 <= j < |migs| ==> migs[j].pluginName !in left
        invariant forall j, k :: 0 <= j < k < |migs| ==> migs[j].pluginName != migs[k].pluginName
        decreases left
      {
        var k :| k in left;
        migs := migs + [rows[k]];
        left := left - {k};
      }
      err := None;
    }

    /** `FindAllMigrationsByPlugin`: the loaded rows as a map from plugin name to row. */
    method FindAllMigrationsByPlugin() returns (d: map<string, MigrationModel>, err: Option<string>)
      requires Valid()
      ensures err.None? <==> loadFault.None? && tableExists
      ensures loadFault.Some? ==> err == loadFault
      ensures err.Some? ==> d == map[]
      ensures KeyedByName(d) && IsSubMap(d, rows)
      ensures err.None? ==> |d| == Min(|rows|, FindLimit)
      ensures err.None? && |rows| <= FindLimit ==> d == rows
    {
      d := map[];
      var migs;
      migs, err := FindAllMigrations();
      if err.Some? {
        return;
      }
      var i := 0;
      while i < |migs|
        invariant 0 <= i <= |migs|
        invariant KeyedByName(d) && IsSubMap(d, rows)
        invariant forall k, j :: k in d && i <= j < |migs| ==> migs[j].pluginName != k
        invariant |d| == i
      {
        var mi := migs[i];
        assert mi.pluginName !in d;
        d := d[mi.pluginName := mi];
        i := i + 1;
      }
      if |rows| <= FindLimit {
        SubMapOfSameSize(d, rows);
      }
    }

    /** `MigrationModel.Save`, with the write recorded in the log when it succeeds. */
    method Save(m: MigrationModel) returns (err: Option<string>)
      requires Valid()
      modifies this`rows, this`log
      ensures Valid()
      ensures !old(tableExists) ==> err.Some? && rows == old(rows) && log == old(log)
      ensures old(tableExists) ==>
        match Upsert(old(rows), m, saveFault(m))
        case Failure(e) => err == Some(e) && rows == old(rows) && log == old(log)
        case Success(r) => err == None && rows == r && log == old(log) + [Saved(m)]
    {
      if !tableExists {
        return Some(NoTableError);
      }
      match Upsert(rows, m, saveFault(m))
      case Failure(e) =>
        return Some(e);
      case Success(r) =>
        UpsertSemantics(rows, m, saveFault(m));
        rows := r;
        log := log + [Saved(m)];
        return None;
    }

    /** Calls a unit's `Up`; the call is recorded in the log. */
    method InvokeUp(plugin: string, version: int, mig: Migration) returns (err: Option<string>)
      modifies this`log
      ensures err == mig.up
      ensures log == old(log) + [Invoked(plugin, version, mig.name)]
    {
      log := log + [Invoked(plugin, version, mig.name)];
      return mig.up;
    }
  }

  lemma SubMapOfSameSize(small: map<string, MigrationModel>, big: map<string, MigrationModel>)
    requires IsSubMap(small, big) && |small| == |big|
    ensures small == big
  {
    var extra := big.Keys - small.Keys;
    assert big.Keys == small.Keys + extra;
    assert small.Keys !! extra;
    assert |big.Keys| == |small.Keys| + |extra|;
    assert extra == {};
    assert small.Keys == big.Keys;
  }

  /** The body of `Up`'s inner loop for a unit that runs (migration.go:191-209). */
  method RunUnit(db: Database, name: string, v: int, mig: Migration, cp0: MigrationModel)
    returns (cp: MigrationModel, err: Option<MigrationError>)
    requires db.Valid() && db.tableExists
    modifies db`rows, db`log
    ensures db.Valid() && db.tableExists
    ensures var r := ApplyUnit(name, v, mig, cp0, old(db.rows), db.saveFault);
      db.rows == r.rows && db.log == old(db.log) + r.trace && cp == r.cp && err == r.err
  {
    var upErr := db.InvokeUp(name, v, mig);
    if upErr.Some? {
      cp := cp0.(lastUpgradeName := mig.name, lastError := upErr.value);
      var saveErr := db.Save(cp);
      if saveErr.Some? {
        return cp, Some(SaveAfterUpFailed(mig.name, saveErr.value, upErr.value));
      }
      return cp, Some(UpFailed(mig.name, upErr.value));
    }
    cp := cp0.(version := v, lastUpgradeName := mig.name);
    var saveErr := db.Save(cp);
    if saveErr.Some? {
      return cp, Some(SaveFailed(mig.name, saveErr.value));
    }
    err := None;
  }

  /**
   * The inner loop of `Up` for one plugin: the units of `migs` from its
   * checkpoint `cp0`, as `RunUnits` describes them.
   */
  method RunPluginUnits(db: Database, name: string, migs: seq<Migration>, cp0: MigrationModel)
    returns (cp: MigrationModel, err: Option<MigrationError>)
    requires db.Valid() && db.tableExists
    modifies db`rows, db`log
    ensures db.Valid() && db.tableExists
    ensures var r := RunUnits(name, migs, 0, cp0, false, old(db.rows), db.saveFault);
      db.rows == r.rows && db.log == old(db.log) + r.trace && cp == r.cp && err == r.err
  {
    ghost var log0 := db.log;
    ghost var total := RunUnits(name, migs, 0, cp0, false, db.rows, db.saveFault);
    ghost var inner: seq<Event> := [];
    cp := cp0;
    var ran := false;
    var i := 0;
    while i < |migs|
      invariant 0 <= i <= |migs|
      invariant db.Valid() && db.tableExists
      invariant db.log == log0 + inner
      invariant total == PrependUnits(inner, RunUnits(name, migs, i, cp, ran, db.rows, db.saveFault))
    {
      var v := i + 1;
      var mig := migs[i];
      if cp.version == 0 || ran {
        ghost var step := ApplyUnit(name, v, mig, cp, db.rows, db.saveFault);
        cp, err := RunUnit(db, name, v, mig, cp);
        if err.Some? {
          ConcatAssoc(log0, inner, step.trace);
          return;
        }
        PrependUnitsTwice(inner, step.trace, RunUnits(name, migs, i + 1, cp, true, db.rows, db.saveFault));
        ConcatAssoc(log0, inner, step.trace);
        inner := inner + step.trace;
        ran := true;
      } else if v == cp.version {
        ran := true;
      }
      i := i + 1;
    }
    err := None;
  }

  /**
   * The outer loop of `Up` (migration.go:146-222): every plugin in
   * registration order, starting from the loaded checkpoints `saved`.
   */
  method RunAllPlugins(db: Database, plugins: seq<Plugin>, saved: map<string, MigrationModel>)
    returns (err: Option<MigrationError>)
    requires db.Valid() && db.tableExists
    modifies db`rows, db`log
    ensures db.Valid() && db.tableExists
    ensures var r := RunPlugins(plugins, 0, saved, old(db.rows), db.saveFault);
      db.rows == r.rows && db.log == old(db.log) + r.trace && err == r.err
  {
    ghost var log0 := db.log;
    ghost var total := RunPlugins(plugins, 0, saved, db.rows, db.saveFault);
    ghost var outer: seq<Event> := [];
    var cache := saved;
    var p := 0;
    while p < |plugins|
      invariant 0 <= p <= |plugins|
      invariant db.Valid() && db.tableExists
      invariant db.log == log0 + outer
      invariant total == PrependRun(outer, RunPlugins(plugins, p, cache, db.rows, db.saveFault))
    {
      var plugin := plugins[p];
      var migs := plugin.migrations;
      if |migs| == 0 {
        p := p + 1;
        continue;
      }
      var cp := InitialCheckpoint(cache, plugin);
      ghost var units := RunUnits(plugin.name, migs, 0, cp, false, db.rows, db.saveFault);
      assert RunPlugins(plugins, p, cache, db.rows, db.saveFault) == AfterPlugin(plugins, p, cache, units, db.saveFault);
      var unitErr;
      cp, unitErr := RunPluginUnits(db, plugin.name, migs, cp);
      ConcatAssoc(log0, outer, units.trace);
      if unitErr.Some? {
        return unitErr;
      }
      PrependRunTwice(outer, units.trace, RunPlugins(plugins, p + 1, if plugin.name in cache then cache[plugin.name := cp] else cache, db.rows, db.saveFault));
      outer := outer + units.trace;
      if plugin.name in cache {
        cache := cache[plugin.name := cp];
      }
      p := p + 1;
    }
    assert RunPlugins(plugins, p, cache, db.rows, db.saveFault) == Run(db.rows, [], None);
    assert total.rows == db.rows && total.trace == outer + [];
    err := None;
  }

  /**
   * `Up`: create the table, load the checkpoints, then run every plugin's
   * pending units in registration order. The ghost `loaded` is the map the
   * load returned; what happens next is `RunPlugins` from that map.
   */
  method Up(db: Database, plugins: seq<Plugin>) returns (err: Option<MigrationError>, ghost loaded: map<string, MigrationModel>)
    requires db.Valid()
    modifies db
    ensures db.Valid()
    ensures db.setupFault.Some? ==>
      err == Some(SetupFailed(db.setupFault.value)) && db.rows == old(db.rows) && db.log == old(db.log)
    ensures db.setupFault.None? && db.loadFault.Some? ==>
      err == Some(LoadFailed(db.loadFault.value)) && db.rows == old(db.rows) && db.log == old(db.log)
    ensures db.setupFault.None? && db.loadFault.None? ==>
      && KeyedByName(loaded) && IsSubMap(loaded, old(db.rows))
      && |loaded| == Min(|old(db.rows)|, FindLimit)
      && (|old(db.rows)| <= FindLimit ==> loaded == old(db.rows))
      && var r := RunPlugins(plugins, 0, loaded, old(db.rows), db.saveFault);
         db.rows == r.rows && db.log == old(db.log) + r.trace && err == r.err
  {
    loaded := map[];
    var setupErr := db.SetupMigrationEngine();
    if setupErr.Some? {
      return Some(SetupFailed(setupErr.value)), loaded;
    }
    var saved, loadErr := db.FindAllMigrationsByPlugin();
    if loadErr.Some? {
      return Some(LoadFailed(loadErr.value)), loaded;
    }
    loaded := saved;
    err := RunAllPlugins(db, plugins, saved);
  }

  /** `Down`: not implemented in the source; it does nothing and reports success. */
  method Down(db: Database) returns (err: Option<MigrationError>)
    ensures err == None
  {
    err := None;
  }
}
