/**
 * The application object (App.go): the registry of plugins in
 * registration order, the roles and their permissions with the `Can`
 * check, the named router groups and the default content type.
 */
module Apps {
  import opened Wrappers
  import opened Plugins

  /** The role that holds every permission. */
  const AdministratorRole: string := "administrator"

  /** The content type used when none is configured. */
  const FallbackContentType: string := "application/json"

  /** The plugin `NewApp` registers first. */
  const CorePluginName: string := "bolo"

  /** A role (`acl.Role`), seen through the permissions it grants. */
  datatype Role = Role(permissions: set<string>)

  /** A router group (`echo.Group`), seen through its path prefix. */
  datatype RouterGroup = RouterGroup(prefix: string)

  /**
   * What `Can` decides: an administrator may do anything; otherwise some
   * role of the user must be a known role that grants the permission.
   */
  ghost predicate Grants(rolesList: map<string, Role>, permission: string, userRoles: seq<string>)
  {
    || (exists i :: 0 <= i < |userRoles| && userRoles[i] == AdministratorRole)
    || (exists j :: 0 <= j < |userRoles| && userRoles[j] in rolesList && permission in rolesList[userRoles[j]].permissions)
  }

  /** Granting is monotone: a user with more roles may do at least as much. */
  lemma MoreRolesGrantMore(rolesList: map<string, Role>, permission: string, userRoles: seq<string>, extra: seq<string>)
    requires Grants(rolesList, permission, userRoles)
    ensures Grants(rolesList, permission, userRoles + extra)
    ensures Grants(rolesList, permission, extra + userRoles)
  {
    if exists i :: 0 <= i < |userRoles| && userRoles[i] == AdministratorRole {
      var i :| 0 <= i < |userRoles| && userRoles[i] == AdministratorRole;
      assert (userRoles + extra)[i] == AdministratorRole;
      assert (extra + userRoles)[|extra| + i] == AdministratorRole;
    } else {
      var j :| 0 <= j < |userRoles| && userRoles[j] in rolesList && permission in rolesList[userRoles[j]].permissions;
      assert (userRoles + extra)[j] == userRoles[j];
      assert (extra + userRoles)[|extra| + j] == userRoles[j];
    }
  }

  /** A user with a single role may do what that role grants, or anything when it is the administrator. */
  lemma SingleRoleGrants(rolesList: map<string, Role>, permission: string, role: string)
    ensures Grants(rolesList, permission, [role]) <==>
      role == AdministratorRole || (role in rolesList && permission in rolesList[role].permissions)
  {
    assert [role][0] == role;
  }

  class App {
    var plugins: seq<Plugin>
    var rolesList: map<string, Role>
    var routerGroups: map<string, RouterGroup>
    var defaultContentType: string
    var contentTypes: seq<string>

    /**
     * `NewApp`: fills in the default content types, creates the "main",
     * "public" and "api" router groups and registers the core plugin, whose
     * migrations are `coreMigrations`.
     */
    constructor (defaultContentType: string, contentTypes: seq<string>, coreMigrations: seq<Migration>)
      ensures this.defaultContentType == (if defaultContentType == "" then FallbackContentType else defaultContentType)
      ensures this.contentTypes == (if |contentTypes| == 0 then ["text/html", "application/json"] else contentTypes)
      ensures routerGroups == map["main" := RouterGroup("/"), "public" := RouterGroup("/public"), "api" := RouterGroup("/api")]
      ensures plugins == [Plugin(CorePluginName, coreMigrations)]
      ensures rolesList == map[]
    {
      this.defaultContentType := if defaultContentType == "" then FallbackContentType else defaultContentType;
      this.contentTypes := if |contentTypes| == 0 then ["text/html", "application/json"] else contentTypes;
      routerGroups := map["main" := RouterGroup("/"), "public" := RouterGroup("/public"), "api" := RouterGroup("/api")];
      plugins := [Plugin(CorePluginName, coreMigrations)];
      rolesList := map[];
    }

    /** `GetPlugins`: the registered plugins, in registration order. */
    function GetPlugins(): seq<Plugin>
      reads this
    {
      plugins
    }

    /** `SetPlugin`: appends, whatever the name; an earlier plugin of the same name stays. */
    method SetPlugin(name: string, plugin: Plugin) returns (err: Option<string>)
      modifies this`plugins
      ensures plugins == old(plugins) + [plugin]
      ensures err == None
    {
      plugins := plugins + [plugin];
      err := None;
    }

    /** `RegisterPlugin`: a plugin without a name makes it panic; any other is appended. */
    method RegisterPlugin(plugin: Plugin) returns (panicked: bool)
      modifies this`plugins
      ensures panicked <==> plugin.name == ""
      ensures panicked ==> plugins == old(plugins)
      ensures !panicked ==> plugins == old(plugins) + [plugin]
    {
      if plugin.name == "" {
        return true;
      }
      var _ := SetPlugin(plugin.name, plugin);
      panicked := false;
    }

    /** `GetPlugin`: the first registered plugin of that name, or none. */
    method GetPlugin(name: string) returns (found: Option<Plugin>)
      ensures found.None? <==> forall i :: 0 <= i < |plugins| ==> plugins[i].name != name
      ensures found.Some? ==>
        exists i :: 0 <= i < |plugins| && plugins[i] == found.value && found.value.name == name
                  && forall j :: 0 <= j < i ==> plugins[j].name != name
    {
      var i := 0;
      while i < |plugins|
        invariant 0 <= i <= |plugins|
        invariant forall j :: 0 <= j < i ==> plugins[j].name != name
      {
        if plugins[i].name == name {
          return Some(plugins[i]);
        }
        i := i + 1;
      }
      return None;
    }

    /** `GetDefaultContentType`: the configured default, or "application/json". */
    function GetDefaultContentType(): (r: string)
      reads this
      ensures r != ""
      ensures defaultContentType != "" ==> r == defaultContentType
      ensures defaultContentType == "" ==> r == FallbackContentType
    {
      if defaultContentType != "" then defaultContentType else FallbackContentType
    }

    /** `SetRouterGroup`: creates the group only the first time a name is used. */
    method SetRouterGroup(name: string, path: string) returns (group: RouterGroup)
      modifies this`routerGroups
      ensures name in old(routerGroups) ==> routerGroups == old(routerGroups) && group == old(routerGroups)[name]
      ensures name !in old(routerGroups) ==> routerGroups == old(routerGroups)[name := RouterGroup(path)] && group == RouterGroup(path)
      ensures name in routerGroups && routerGroups[name] == group
    {
      if name !in routerGroups {
        routerGroups := routerGroups[name := RouterGroup(path)];
      }
      group := routerGroups[name];
    }

    /** `Can`: the administrator short-circuit, then each of the user's roles in turn. */
    method Can(permission: string, userRoles: seq<string>) returns (allowed: bool)
      ensures allowed == Grants(rolesList, permission, userRoles)
    {
      var i := 0;
      while i < |userRoles|
        invariant 0 <= i <= |userRoles|
        invariant forall k :: 0 <= k < i ==> userRoles[k] != AdministratorRole
      {
        if userRoles[i] == AdministratorRole {
          return true;
        }
        i := i + 1;
      }
      var j := 0;
      while j < |userRoles|
        invariant 0 <= j <= |userRoles|
        invariant forall k :: 0 <= k < j ==> !(userRoles[k] in rolesList && permission in rolesList[userRoles[k]].permissions)
      {
        var name := userRoles[j];
        if name in rolesList && permission in rolesList[name].permissions {
          return true;
        }
        j := j + 1;
      }
      return false;
    }

    /** `SetRole`: stores the role under its name, replacing any earlier one. */
    method SetRole(name: string, role: Role) returns (err: Option<string>)
      modifies this`rolesList
      ensures rolesList == old(rolesList)[name := role]
      ensures GetRole(name) == Some(role)
      ensures err == None
    {
      rolesList := rolesList[name := role];
      err := None;
    }

    /** `GetRole`: the role stored under the name, if any. */
    function GetRole(name: string): (r: Option<Role>)
      reads this
      ensures r.Some? <==> name in rolesList
      ensures r.Some? ==> r.value == rolesList[name]
    {
      if name in rolesList then Some(rolesList[name]) else None
    }

    /**
     * `SetRolePermission`: grants or withdraws one permission of a known
     * role; an unknown role is left alone and no error is returned.
     */
    method SetRolePermission(name: string, permission: string, hasAccess: bool) returns (err: Option<string>)
      modifies this`rolesList
      ensures err == None
      ensures name !in old(rolesList) ==> rolesList == old(rolesList)
      ensures name in old(rolesList) ==>
        && rolesList.Keys == old(rolesList).Keys
        && (forall k :: k in rolesList && k != name ==> rolesList[k] == old(rolesList)[k])
        && (permission in rolesList[name].permissions <==> hasAccess)
        && (forall q :: q != permission ==> (q in rolesList[name].permissions <==> q in old(rolesList)[name].permissions))
      ensures name in old(rolesList) && name != AdministratorRole ==>
        (Grants(rolesList, permission, [name]) <==> hasAccess)
    {
      var role := GetRole(name);
      if role.None? {
        return None;
      }
      var perms := if hasAccess then role.value.permissions + {permission} else role.value.permissions - {permission};
      rolesList := rolesList[name := Role(perms)];
      SingleRoleGrants(rolesList, permission, name);
      err := None;
    }
  }
}
