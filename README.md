# bolo core in Dafny

This project models the core of the bolo web framework. The main part is
the **plugin migration engine**. Every plugin registered on the application
contributes an ordered list of migration units, and the engine keeps one
checkpoint row per plugin in the `bolo_migrations` table. That row holds the
last version applied, the name of the last unit attempted and the last
error. `Up` applies each plugin's pending units in registration order. It
saves the checkpoint after every unit and stops the whole run at the first
failure.

Around the engine, the project models these parts of the framework:

- the application's plugin registry, roles and permission check (`Can`),
  router groups and default content type;
- the per-request context: the pager read from the query string, typed
  reads of stored values, body classes, response content type, offset
  arithmetic and the authenticated user's roles;
- the JSON error bodies and the mapping from HTTP codes to status words;
- the public-route test of the middlewares;
- the year extraction helper.

Modules:

- `Wrappers`: `Option` and `Result`.
- `Plugins`: the `Pluginer` contract and the `Migration` unit.
- `Migrations`:
  - the checkpoint table as the class `Database`, with the methods
    `SetupMigrationEngine`, `FindAllMigrations`, `FindAllMigrationsByPlugin`
    and `Save`;
  - the imperative `Up` with its two loops (`RunAllPlugins`,
    `RunPluginUnits`, `RunUnit`), each proved against the specification
    functions `RunPlugins`, `RunUnits` and `ApplyUnit`.
  - A ghost log records every call into a unit's `Up` and every row
    written, in order. The order of effects is stated against that log.
- `MigrationProperties`: what the engine guarantees. These are lemmas about
  `RunUnits` and `RunPlugins`.
- `Apps`: `App.go`, with the class `App`.
- `RequestContexts`: `RequestContext.go`, with the class `RequestContext`. It
  also models Go's `strconv.ParseInt(s, 10, 64)` exactly:
  - a text that is not a number is a syntax error with value 0;
  - an out-of-range value is clamped, with a range error.
- `Responses`, `Middlewares`, `Dates`: `responses.go`, `middlewares.go` and
  `helpers/date.go`.

The model follows the code in these points:

- A successful unit does not clear the checkpoint's last error.
  `SuccessTrace` carries the old `lastError` along.
- The error `Up` returns names only the unit, not the plugin.
- A unit is selected by the `lastMigRan` flag, not by comparing versions.
  - `SelectionMatchesVersionComparison` proves the two agree for every
    non-negative stored version.
  - A negative stored version runs nothing, whereas a version comparison
    would run every unit. `NegativeVersionRunsNothing` proves this.
- `Save` looks the row up by name and then picks between insert and update.
  A row whose plugin name is "" therefore looks absent, and saving it a
  second time fails on the primary key. `Upsert` models this.

## Model

| member | source | states |
|---|---|---|
| Migrations.Upsert | migration.go:96-124 | the save as written: lookup by plugin name, then insert or update; fails on a database fault or on an existing "" key |
| Migrations.UpsertSemantics | migration.go:96-124 | Save fails exactly on a database fault or an existing "" key; otherwise the row is created or overwritten under its name, other rows are kept, and every row stays keyed by its own name |
| Migrations.Database.constructor | migration.go:83-90 | a table in the given state, with an empty log |
| Migrations.Database.SetupMigrationEngine | migration.go:22-41 | creates the table unless the DDL fails; returns the DDL error; existing rows are kept |
| Migrations.Database.FindAllMigrations | migration.go:43-52 | without error, min(row count, 3000) distinct rows of the table, each as stored; a load fault or a missing table is an error with no rows |
| Migrations.Database.FindAllMigrationsByPlugin | migration.go:54-67 | the loaded rows keyed by plugin name, a sub-map of the table of size min(row count, 3000), and the whole table when it has at most 3000 rows; an empty map on error |
| Migrations.Database.Save | migration.go:96-124 | the table becomes what `Upsert` gives, and the write is logged; on an error the table and the log are unchanged |
| Migrations.Database.InvokeUp | migration.go:191 | the unit's outcome is returned and the call is logged |
| Migrations.InitialCheckpoint | migration.go:169-179 | the plugin's loaded row when there is one; otherwise a new checkpoint for the plugin at version 0 with no error; from a map keyed by name, always a checkpoint of this plugin |
| Migrations.ApplyUnit | migration.go:191-207 | the step of one selected unit keeps the checkpoint's plugin name, and the only errors it ends with are those of the unit's `Up` or of its save (the full outcome is `RunUnit`'s contract and `SuccessTrace`/`PendingStopsAtFirstFailure`) |
| Migrations.RunUnits | migration.go:181-221 | the inner loop keeps the checkpoint's plugin name, and stops only on a unit or save error, never a setup or load error |
| Migrations.RunPlugins | migration.go:146-222 | the outer loop from plugin `p` on: plugins without units are skipped, the rest run their units in order from `InitialCheckpoint`, and the first error ends the run. It has no contract of its own; `FailureEndsTheRun`, `FailingPluginEndsTheRun`, `CleanExactlyWhenNoneFails` and `CleanRunAccounting` state what it does |
| Migrations.AfterPlugin | migration.go:169-222 | after a plugin's inner loop: its error ends the run as it stands; otherwise a checkpoint that came from the loaded map is updated there, and the run goes on with the next plugin. It has no contract of its own; `RunStopsAtFailingPlugin` and `CleanRunAccounting` state what it does |
| Migrations.RunUnit | migration.go:190-209 | one selected unit: the call, then the saved checkpoint with the new version (success) or with the error (failure), and the error `Up` returns, as `ApplyUnit` |
| Migrations.RunPluginUnits | migration.go:167-221 | the inner loop leaves the table, the log, the checkpoint and the error that `RunUnits` describes |
| Migrations.RunAllPlugins | migration.go:146-222 | the outer loop: plugins without units skipped, the rest in registration order from their loaded or new checkpoint, stopping at the first error, as `RunPlugins` |
| Migrations.Up | migration.go:126-227 | a setup or load failure returns the error and changes nothing; otherwise the table, the log and the error are those of `RunPlugins`, starting from the loaded map |
| Migrations.Down | migration.go:229-232 | reports success and does nothing |
| MigrationProperties.RunningPhaseAgrees | migration.go:181-221 | once running (version 0 or a unit ran), the loop runs every remaining unit up to the first failure, as the version comparison |
| MigrationProperties.SkippingPhaseAgrees | migration.go:181-221 | before the stored version is reached, the flag-driven loop skips exactly the units the version comparison skips |
| MigrationProperties.SelectionMatchesVersionComparison | migration.go:190-220 | for a non-negative stored version, the unit of version v runs iff v is greater than the stored version |
| MigrationProperties.NegativeVersionRunsNothing | migration.go:190-220 | a negative stored version never sets the flag, so no unit runs and nothing is written |
| MigrationProperties.PendingSkipsTo | migration.go:190-220 | units at or below the stored version are skipped with no effect |
| MigrationProperties.NothingPendingRunsNothing | migration.go:181-221 | a checkpoint at or past the last unit, or a negative one, runs nothing: no call, no write, no error |
| MigrationProperties.SuccessTrace | migration.go:191-209 | the log of consecutive successful units has two entries per unit (a call, then a save) |
| MigrationProperties.PendingAllSucceed | migration.go:190-209 | when all units from i on succeed and the database accepts their saves, each is called once and saved in order, and the checkpoint ends at the last unit's version and name |
| MigrationProperties.PendingStopsAtFirstFailure | migration.go:190-200 | when unit f is the first to fail and the saves are accepted, the units before it run and are saved, f is called, its name and error are saved with the version of the last success, and the run stops with its error |
| MigrationProperties.PendingStopsAtSaveFailure | migration.go:190-207 | when the database refuses the save after unit f succeeds, the earlier units' saves stay in the table (the row holds unit f-1), f was the last call, and the run stops with the save error naming f |
| MigrationProperties.SaveFailureStopsThePlugin | migration.go:181-207 | the same from the stored checkpoint: a refused save of pending unit f leaves the table at the last accepted save and ends the plugin's loop with the save error |
| MigrationProperties.AllPendingUnitsRun | migration.go:167-221 | exactly-once: when every pending unit succeeds and its save is accepted, every unit past the stored version is called once, in order, each followed by its save; the final checkpoint has the unit count as its version |
| MigrationProperties.FirstFailureStopsThePlugin | migration.go:190-200 | with the saves accepted, the first failing pending unit f leaves version f, f's name and f's error in the table, and nothing after f is called |
| MigrationProperties.PendingKeepsOrRaisesVersion | migration.go:202 | the reference selection never lowers the version, keeps the plugin name and reaches the unit count on success |
| MigrationProperties.VersionNeverDecreases | migration.go:181-221 | the stored version never goes down; a run without error from a non-negative version ends at or past the last unit |
| MigrationProperties.SecondRunInvokesNothing | migration.go:181-221 | running a plugin again from the checkpoint a clean run left calls no unit and writes nothing |
| MigrationProperties.UnitsConfined | migration.go:181-221 | a plugin's loop writes only the row of its checkpoint's name, keeps every other row and keeps rows keyed by name |
| MigrationProperties.UnitEventsOwned | migration.go:181-221 | every call a plugin's loop makes is to that plugin, and every row it saves is that plugin's checkpoint |
| MigrationProperties.RunTouchesOnlyItsPlugins | migration.go:146-222 | a run never creates, changes or mentions in its log the row of a name that no plugin with units from the starting index on bears |
| MigrationProperties.UnitsEndAtFailure | migration.go:190-207 | when a plugin's loop fails, its last log entries are the failing unit's call and, for an `Up` failure, the save of its name and error |
| MigrationProperties.FailureEndsTheRun | migration.go:146-222 | a failed run's error is a unit's or its save's, never the setup's or the load's, and the log ends with the failing unit's call (and, for an `Up` failure, the save of its name and error); which plugin made that call is stated by `FailingPluginEndsTheRun` |
| MigrationProperties.RunsBeforeFailure | migration.go:146-222 | the plugins before the first failing one form a run of their own that ends without error, with the log and table the run has when it reaches the failing plugin |
| MigrationProperties.RunsThroughFailure | migration.go:146-222 | any prefix of the plugins that includes the failing one runs exactly as the whole list: nothing after the failing plugin has any effect |
| MigrationProperties.CleanExactlyWhenNoneFails | migration.go:146-226 | a run ends without error if and only if no plugin's loop fails |
| MigrationProperties.FailingPluginOutcome | migration.go:146-222 | a failed run's table, log and error are those of the failing plugin's loop, run from where the earlier plugins left the table, after their log |
| MigrationProperties.RunStopsAtFailingPlugin | migration.go:146-226 | the two lemmas above together, and the loaded map stays keyed by plugin name up to the failing plugin |
| MigrationProperties.FailingUnitsOwnTheEnd | migration.go:181-207 | a failing plugin's loop adds only that plugin's calls and rows to the log, ends it with the failing unit, makes the last call of the log, and changes only that plugin's row |
| MigrationProperties.FailingPluginEndsTheRun | migration.go:146-222 | a failed run fails in one plugin f with units: the earlier plugins ran cleanly and their log comes first, then f's own entries, ending with the failing unit; the last call of the run is to f, and only f's row differs from the table the earlier plugins left |
| MigrationProperties.LaterPluginsUntouched | migration.go:146-222 | after a failed run, a row whose name no plugin up to the failing one bears, such as a later plugin's, is present exactly when it was before, unchanged, and absent from the log |
| MigrationProperties.FinalCheckpointStored | migration.go:167-209 | after a plugin's loop ends without error, its checkpoint is the row stored under its name |
| MigrationProperties.SettledRunsNothing | migration.go:146-222 | when every plugin's loaded row is at or past its last unit, a run calls nothing and writes nothing |
| MigrationProperties.CleanRunSettles | migration.go:146-222 | with distinct plugin names, a run without error leaves every plugin with units settled in the table |
| MigrationProperties.IdempotentRerun | migration.go:126-227 | idempotent resume: after a clean run, a second run from the table it left calls no unit, writes nothing and succeeds |
| MigrationProperties.CleanPluginStep | migration.go:167-209 | one plugin whose units all succeed with every write accepted ends without error, logs each pending unit's call and save and stores its final row, keeping the loaded map a part of the table |
| MigrationProperties.CleanRunLog | migration.go:146-226 | with every unit succeeding, every write accepted and distinct non-empty plugin names, the run ends without error and its log is, plugin by plugin in order, the call and save of each pending unit |
| MigrationProperties.CleanRunRows | migration.go:146-222 | in that run each plugin with units ends with its final row: the loaded one when already at or past the last unit, otherwise the last unit's version and name |
| MigrationProperties.CleanRunAccounting | migration.go:146-226 | the two together: no error, the reference log, every plugin at its final row, and the table keyed by plugin name |
| MigrationProperties.SuccessTraceCalls | migration.go:190-209 | consecutive successful units call `Up` once each |
| MigrationProperties.CleanTraceCalls | migration.go:181-221 | the reference log calls `Up` as many times as there are pending units over all plugins |
| MigrationProperties.CleanRunCallsEachPendingUnitOnce | migration.go:126-227 | a run where everything succeeds calls `Up` exactly once per pending unit, in the reference order |
| MigrationProperties.FreshTableRunsEverything | migration.go:126-227 | on an empty table, such a run calls every unit of every plugin once and leaves each plugin with units at its last unit's version and name, with no error recorded |
| Apps.MoreRolesGrantMore | App.go:493-509 | a user with more roles is granted at least what they had |
| Apps.SingleRoleGrants | App.go:493-509 | one role grants a permission iff it is the administrator or a known role holding it |
| Apps.App.constructor | App.go:597-657 | NewApp: default content types, "application/json" when no default is set, the groups main "/", public "/public" and api "/api", and the "bolo" plugin registered |
| Apps.App.SetPlugin | App.go:167-170 | appends the plugin whatever its name; no error |
| Apps.App.RegisterPlugin | App.go:149-155 | panics iff the name is empty, leaving the list alone; otherwise appends |
| Apps.App.GetPlugin | App.go:157-165 | the first registered plugin of that name; none iff no plugin bears it |
| Apps.App.GetDefaultContentType | App.go:185-191 | the configured default, else "application/json"; never empty |
| Apps.App.SetRouterGroup | App.go:379-384 | creates a group only for a new name; a known name returns its existing group unchanged |
| Apps.App.Can | App.go:493-509 | allowed iff the user has the administrator role, or some known role of the user grants the permission |
| Apps.App.SetRole | App.go:511-514 | stores or replaces the role; `GetRole` then returns it |
| Apps.App.GetRole | App.go:520-526 | the stored role iff the name is known |
| Apps.App.SetRolePermission | App.go:528-541 | for a known role, the permission is held iff granted, other permissions and roles unchanged, and `Can` for that role alone follows; an unknown role changes nothing; never an error |
| RequestContexts.Wrap64 | RequestContext.go:532-541 | 64-bit two's-complement wrap: in range, identity on the range, congruent modulo 2^64 |
| RequestContexts.ScanUint | RequestContext.go:61-90 | the base-10 digit loop: a non-digit gives 0 with a syntax error; overflow stops with the largest unsigned value and a range error |
| RequestContexts.ParseInt | RequestContext.go:61-90 | always a 64-bit value; 0 on a syntax error; an end of the range on a range error |
| RequestContexts.ScanUintOfDigits | RequestContext.go:61-90 | on digits, the scan gives the number they denote, or the clamp with a range error when it exceeds 64 bits |
| RequestContexts.ParseIntMeaning | RequestContext.go:61-90 | a sign and digits parse to the signed number when it fits, to the nearer end with a range error when not; anything else is an error |
| RequestContexts.RequestPager | RequestContext.go:28-103 | no request or URL: the fresh pager; otherwise the path and the configured limit; for GET, a single valid limit strictly between 0 and the maximum replaces it, a single page sets the page, and exactly the other parameters go on to the query parser |
| RequestContexts.Offset | RequestContext.go:532-541 | 0 for pages below 2; otherwise limit × (page−1) when that fits in 64 bits |
| RequestContexts.PagesTile | RequestContext.go:532-541 | each page starts one page size after the previous one, modulo 2^64 |
| RequestContexts.Join | RequestContext.go:504-506 | `strings.Join`: "" for no parts, the part itself for one |
| RequestContexts.Split | RequestContext.go:504-506 | the reference inverse of joining; never empty |
| RequestContexts.SplitJoin | RequestContext.go:504-506 | splitting the joined text on a separator that no part holds gives back the parts |
| RequestContexts.RemoveBodyClassAsWritten | RequestContext.go:495-501 | the removal as written never shortens the list: the old list is kept as a prefix, the list grows by one element exactly when the class is present, and no class is added or lost |
| RequestContexts.RemoveBodyClassKeepsTheClass | RequestContext.go:495-501 | as written, removing a present class keeps it and lists it twice (`["home"]` becomes `["home","home"]`) |
| RequestContexts.WithoutClass | RequestContext.go:494-501 | the intended removal: the class is gone, every other class is kept, and nothing changes when it is absent |
| RequestContexts.WithoutClassKeepsUnique | RequestContext.go:485-501 | the intended removal keeps the class list free of duplicates |
| RequestContexts.RequestContext.constructor | RequestContext.go:41-58 | a context with the given pager and nothing else set |
| RequestContexts.RequestContext.Set | RequestContext.go:415-417 | the value is stored under the name, and the typed getter of its type then reads it back |
| RequestContexts.RequestContext.GetString | RequestContext.go:423-429 | "" when nothing is stored; the text when a text is stored; a panic on any other type |
| RequestContexts.RequestContext.GetBool | RequestContext.go:432-439 | false when nothing is stored; the flag when a flag is stored; a panic on any other type |
| RequestContexts.RequestContext.GetStringMap | RequestContext.go:442-449 | an empty list when nothing is stored; the list when one is stored; a panic on any other type |
| RequestContexts.RequestContext.AddBodyClass | RequestContext.go:486-492 | appends only a class not yet present; the class is then present and a duplicate-free list stays so |
| RequestContexts.RequestContext.RemoveBodyClass | RequestContext.go:494-501 | corrected: a present class is dropped and a duplicate-free list stays so; an absent one changes nothing |
| RequestContexts.RequestContext.GetBodyClassText | RequestContext.go:504-506 | "" for no classes; splitting the text on spaces gives the classes back when none holds a space |
| RequestContexts.RequestContext.GetResponseContentType | RequestContext.go:509-516 | the chosen response type when it is set and non-empty, else the request's Content-Type; a panic when a non-text is stored under the key |
| RequestContexts.RequestContext.SetResponseContentType | RequestContext.go:519-526 | refuses the empty type with an error and no change; any other is stored and read back by the getter |
| RequestContexts.RequestContext.GetOffset | RequestContext.go:532-541 | 0 for pages below 2, else limit × (page−1) when it fits, always a 64-bit value; the next page starts one limit later |
| RequestContexts.RequestContext.GetAuthenticatedRoles | RequestContext.go:547-553 | the user's roles when authenticated, else exactly ["unAuthenticated"] |
| RequestContexts.RequestContext.SetAuthenticatedUser | RequestContext.go:555-558 | the user is set and the context authenticated; the roles are unchanged and are what the getter returns |
| RequestContexts.RequestContext.SetAuthenticatedUserAndFillRoles | RequestContext.go:560-564 | the roles become the user's roles followed by "authenticated", which the getter then returns |
| Responses.ParseHTTPCodeToStatus | responses.go:57-71 | "success" iff the code is below 400, "warning" iff 4xx, "danger" iff 500 or more |
| Responses.StatusIsMonotone | responses.go:57-71 | a higher code never gets a milder status |
| Responses.ParseHTTPErrorToResponse | responses.go:29-41 | one message carrying the error's code, its status word and its message |
| Responses.ParseEchoHTTPErrorToResponse | responses.go:43-55 | one message carrying echo's code, its status word and echo's error text |
| Middlewares.IsPublicRoute | middlewares.go:43-45 | a path is public when it starts with "/health" or "/public"; what that admits is stated by the three lemmas below |
| Middlewares.PublicIsPrefixClosed | middlewares.go:43-45 | a public path stays public whatever follows it |
| Middlewares.PublicRoutesAreExtensions | middlewares.go:43-45 | a path is public iff it extends "/health" or "/public" |
| Middlewares.NotPublicExamples | middlewares.go:43-45 | "", "/api/public" and "/HEALTH" are not public; "/healthz" and "/public" are |
| Dates.YearIndex | helpers/date.go:20-28 | the leftmost index where four ASCII digits start, or the length when there is none |
| Dates.ExtractYearFromText | helpers/date.go:20-28 | four digits or ""; "" iff the text has no four digits in a row; otherwise the leftmost such run |
| Dates.FiveDigitsGiveFirstFour | helpers/date.go:20-28 | for every text that starts with five or more digits, the result is its first four digits |
| Dates.LeftmostYearWins | helpers/date.go:20-28 | for every text made of a part where no four digits in a row start, then a year, then anything (other years included), the result is that year |
| Dates.ShortNumbersGiveNothing | helpers/date.go:20-28 | every text with fewer than four digits in all gives "" |
| Dates.LeadingYearIsFound | helpers/date.go:20-28 | four leading digits are extracted exactly |

## Left out

- Logging (logrus) is left out, and so is the `recover` deferred in `Up`. No modelled operation panics inside the loop, so only `RegisterPlugin` and the typed getters model a panic.
- The SQL behind the checkpoint table is not modelled:
  - the DDL text, gorm and the created/updated timestamps are left out;
  - the failures of the table's setup and of the load are fixed faults of the `Database` object, because they come from the database server;
  - how the database answers a write is a function of the row written (`WriteFault`). The rows a run writes differ in plugin, version, unit name or error, except in two cases. The first is a failing unit that has the name of the unit before it and fails with the error already stored. The second is two registered plugins that share a name: registration does not reject the second, and a checkpoint created for a name missing from the loaded rows is not put back into the loaded map, so the second plugin starts again from version 0, calls the same units again and writes the same rows. Only in those cases would a database that answers the same row differently at different times behave otherwise than the model;
  - a unit's `Up` outcome is a fixed value (`Migration.up`), so a unit gives the same outcome on every call. With two plugins of the same name, a unit that failed or succeeded on its first call does the same on the second;
  - the failed lookup and the failed insert or update of `Save` are one write fault.
- `RequestContexts.Wrap64` and `RequestContexts.RequestContext.GetOffset`: Go's `int` is platform-sized, and the model fixes it at 64 bits. On a 32-bit platform the product in `GetOffset` would wrap at 2^32 instead.
- `Migrations.Database.FindAllMigrations`: the query has no ORDER BY. Which rows come back beyond the count, and in which order, is an arbitrary choice in the model.
- The effect of a migration unit's `Up` and `Down` on the application is outside the model. A unit is seen only through the outcome it returns.
- `Migrations.Down`: the source does nothing, so no rollback is modelled. `Down` of a unit is never called.
- `Migrations.Up`: the error is a datatype holding the parts that the source's error messages wrap, not the formatted text.
- `Migrations.Database.Save` and the other state-changing methods are proved against the specification functions. The properties of the engine are lemmas about those functions rather than contracts of the methods.
- A plugin's `Init`, and everything in `App.go` outside the members above, is not part of this model: templates, the router, the server, the sanitizer, the event manager and the configuration loader.
- The `Plugin` type behind the core "bolo" plugin is not part of this model. `Apps.App.constructor` takes its migrations as a parameter.
- `Apps.App.constructor`: `NewApp` leaves the roles map nil, so `SetRole` before the roles are loaded panics in Go. The model starts from an empty map and does not model that panic.
- An `acl.Role` is modelled as its set of permissions. The `acl` package's own lookup is not part of this model.
- `Apps.App.Can`: a role name missing from the roles map grants nothing. In Go that is a method call on a nil role; the model assumes the `acl` package returns false for it.
- `Apps.App.GetPlugins` and `RequestContexts.RequestContext.GetLimit` are plain field reads with no contract beyond that, so they have no row above.
- `RequestContexts.RequestPager`:
  - The configuration lookup `GetF` is a map with a default.
  - The origin, theme, layout and environment fields set from the configuration are left out.
  - The fresh `pagination.NewPager()` is a parameter.
  - `AddQueryParamFromRaw` is modelled as the set of parameter names handed to the query parser. What the parser does with them is not part of this model.
  - The `filteredParamArray` join is left out, because its result is discarded.
- `RequestContexts.RequestContext` values of types other than text, flag and text list are one opaque kind.
- `RequestContexts.RequestPager`: a missing request gives the fresh pager, as the test in App.go:231 does. `NewRequestContext` (RequestContext.go:56) instead reads the URL of a nil request and panics; that panic is not modelled.
- `RequestContexts.RequestContext.GetString`, `GetBool` and `GetStringMap`: Go reads a stored nil as nothing stored and returns the default (RequestContext.go:425). The model's stored values have no nil, so storing nil is not modelled.
- `Responses.ParseHTTPErrorToResponse`: the message of the application's HTTP error is modelled as a string, so `%v` prints it unchanged. Other message types are left out.
- `Responses.ParseEchoHTTPErrorToResponse`: the text of echo's `Error()` is a field of the error, not computed from its code and message.
- The request context's `echo.Context` is modelled through the stored values and the request's URL path, method, query and Content-Type header.

## Findings

| source | as written | input that shows it | evidently intended | confidence | as-written member | corrected member |
|---|---|---|---|---|---|---|
| RequestContext.go:495-501 | `RemoveBodyClass` appends the class again when it is present | body classes `["home"]`, remove "home": the list becomes `["home","home"]` | the class is dropped, and the list stays free of duplicates as `AddBodyClass` keeps it | not executed | RequestContexts.RemoveBodyClassKeepsTheClass | RequestContexts.WithoutClassKeepsUnique |

`RequestContexts.RemoveBodyClassAsWritten` is the code as written. The method
`RequestContexts.RequestContext.RemoveBodyClass` uses the corrected removal,
`RequestContexts.WithoutClass`.
