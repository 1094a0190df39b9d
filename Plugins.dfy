/**
 * The provider contract of the migration engine: a plugin (the `Pluginer`
 * interface) exposes a name and an ordered list of migration units.
 */
module Plugins {
  import opened Wrappers

  /**
   * A migration unit (`Migration`). The effect of its `Up` and `Down`
   * functions on the application is outside the model; what remains is the
   * outcome each returns: `None` for success, `Some(message)` for an error.
   */
  datatype Migration = Migration(name: string, up: Option<string>, down: Option<string>)

  /**
   * A plugin as the engine sees it: `GetName()` and `GetMigrations()`.
   * The position of a unit in `migrations` (1-based) is its version.
   */
  datatype Plugin = Plugin(name: string, migrations: seq<Migration>)
}
