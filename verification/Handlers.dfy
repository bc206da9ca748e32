/** The request handlers, which read rows, write rows one at a time and move handles in and out of the map. */
module Handlers {
  import opened Wrappers
  import opened Tables
  import opened Database
  import opened Permissions
  import opened Lifecycle

  class PluginHost {
    const packagesRoot: string
    var db: Db
    var active: map<string, Handle>

    constructor (packagesRoot: string)
      ensures this.packagesRoot == packagesRoot && State() == FRESH
    {
      this.packagesRoot := packagesRoot;
      db := EMPTY;
      active := map[];
    }

    function State(): Host
      reads this
    {
      Host(db, active)
    }

    // ---- The runtime manager's map ----

    method SetRuntimeHandle(p: string, handle: Handle)
      modifies this`active
      ensures active == old(active)[p := handle]
    {
      active := active[p := handle];
    }

    /** Atomic remove: of several callers only one gets the handle. */
    method RemoveRuntimeHandle(p: string) returns (handle: Option<Handle>)
      modifies this`active
      ensures active == old(active) - {p}
      ensures handle == if p in old(active) then Some(old(active)[p]) else None
    {
      handle := if p in active then Some(active[p]) else None;
      active := active - {p};
    }

    // ---- Single row writes ----

    method UpdatePluginRuntimeState(p: string, enabled: bool, status: string, written: bool)
      modifies this`db
      ensures db == UpdateRuntimeState(old(db), p, enabled, status, written)
    {
      if p in db.registry && written {
        var row := db.registry[p];
        db := db.(registry := db.registry[p := row.(enabled := enabled, status := status)]);
      }
    }

    method AppendAuditLog(p: string, action: string, written: bool)
      modifies this`db
      ensures db == AppendAudit(old(db), p, action, written)
    {
      if written {
        db := db.(audit := db.audit + [AuditRow(p, action)]);
      }
    }

    method UpsertPluginNavItem(p: string, itemKey: string, item: NavItem, written: bool, pick: nat)
      modifies this`db
      ensures db == if written
                    then old(db).(navItems := Upsert(old(db).navItems, Key(p, [itemKey]), item, pick))
                    else old(db)
    {
      if written {
        var existing := One(db.navItems, Key(p, [itemKey]), pick);
        if existing.Some? {
          db := db.(navItems := db.navItems[existing.value := Row(Key(p, [itemKey]), item)]);
        } else {
          db := db.(navItems := db.navItems + [Row(Key(p, [itemKey]), item)]);
        }
      }
    }

    /** Writes the grants one by one; `writes` of them succeed before one fails. */
    method ReplacePluginPermissionGrants(p: string, items: seq<GrantItem>, writes: nat, pick: nat) returns (ok: bool)
      modifies this`db
      ensures ok <==> writes >= |items|
      ensures db == old(db).(grants := ReplaceGrants(old(db).grants, p, if ok then items else items[..writes], pick))
    {
      var i := 0;
      while i < |items|
        invariant i <= |items| && i <= writes
        invariant db == old(db).(grants := ReplaceGrants(old(db).grants, p, items[..i], pick))
      {
        if i == writes {
          return false;
        }
        var k := GrantKey(p, items[i].permissionKey);
        var existing := One(db.grants, k, pick);
        if existing.Some? {
          db := db.(grants := db.grants[existing.value := Row(k, items[i].granted)]);
        } else {
          db := db.(grants := db.grants + [Row(k, items[i].granted)]);
        }
        assert items[..i + 1][..i] == items[..i];
        i := i + 1;
      }
      assert items[..|items|] == items;
      ok := true;
    }

    // ---- Requests ----

    method RegisterPlugin(p: string, version: string, permissions: seq<Permission>, e: RegisterEnv, pick: nat)
      returns (ok: bool)
      modifies this
      ensures Reply(State(), ok) == Register(old(State()), packagesRoot, p, version, permissions, e, pick)
    {
      if !e.prepared {
        return false;
      }
      var packageDir := JoinPath(JoinPath(packagesRoot, p), version);
      if !e.loaded || !e.rowWritten {
        return false;
      }
      if p in db.registry {
        var existing := db.registry[p];
        db := db.(registry := db.registry[p := existing.(currentVersion := Some(version), status := PENDING)]);
      } else {
        db := db.(registry := db.registry[p := RegistryRow("", Some(version), PENDING, false)]);
      }
      if !e.versionInserted {
        return false;
      }
      db := db.(versions := db.versions + [Row(VersionKey(p, version), VersionInfo(packageDir, PENDING))]);
      var granted := ReplacePluginPermissionGrants(p, DefaultPermissionGrants(permissions), e.grantWrites, pick);
      if !granted || !e.audited {
        return false;
      }
      AppendAuditLog(p, "register", true);
      ok := true;
    }

    method MaterializePlugin(p: string, version: string, e: MaterializeEnv, pick: nat) returns (ok: bool)
      modifies this
      ensures Reply(State(), ok) == Materialize(old(State()), p, version, e, pick)
    {
      if !e.prepared || !e.loaded {
        return false;
      }
      var previous := if p in db.registry then db.registry[p].currentVersion else None;
      if previous.Some? && previous.value != version {
        if !e.upgraded {
          return false;
        }
      }
      if p in db.registry {
        if !e.rowWritten {
          return false;
        }
        var existing := db.registry[p];
        db := db.(registry := db.registry[p :=
          existing.(currentVersion := Some(version), status := INSTALLED, enabled := false,
              runtimeKind := e.runtimeKind)]);
      }
      if !e.versionLoaded {
        return false;
      }
      var record := One(db.versions, VersionKey(p, version), pick);
      if record.Some? {
        if !e.versionWritten {
          return false;
        }
        var row := db.versions[record.value];
        db := db.(versions := db.versions[record.value := Row(row.key, row.value.(status := INSTALLED))]);
      }
      if !e.audited {
        return false;
      }
      AppendAuditLog(p, "materialize", true);
      ok := true;
    }

    method StartPluginRuntime(p: string, e: StartEnv, pick: nat) returns (ok: bool, launched: Option<string>)
      modifies this
      ensures Reply(State(), ok) == Start(old(State()), p, e, pick)
      ensures match StartGuard(old(State()), p, e, pick)
              case Ok(dir) => launched == Some(dir)
              case Err(_) => launched == None
    {
      launched := None;
      if !e.rowRead || p !in db.registry {
        return false, None;
      }
      var plugin := db.registry[p];
      if plugin.status == PENDING || plugin.status == RUNNING {
        return false, None;
      }
      if plugin.currentVersion.None? || !e.versionRead {
        return false, None;
      }
      var version := One(db.versions, VersionKey(p, plugin.currentVersion.value), pick);
      if version.None? || !e.manifestRead {
        return false, None;
      }
      UpdatePluginRuntimeState(p, true, RUNNING, e.runningWritten);
      launched := Some(db.versions[version.value].value.packagePath);
      match e.launch {
        case Some(token) =>
          SetRuntimeHandle(p, Handle(p, token));
          if e.navItem.Some? {
            UpsertPluginNavItem(p, "main", e.navItem.value, e.navWritten, pick);
          }
          AppendAuditLog(p, "start", e.audited);
          ok := true;
        case None =>
          UpdatePluginRuntimeState(p, plugin.enabled, plugin.status, e.rolledBack);
          AppendAuditLog(p, "start", e.audited);
          ok := false;
      }
    }

    method StopPluginRuntime(p: string, e: StopEnv) returns (ok: bool)
      modifies this
      ensures Reply(State(), ok) == Stop(old(State()), p, e)
    {
      if !e.rowRead || p !in db.registry || db.registry[p].status != RUNNING {
        return false;
      }
      var handle := RemoveRuntimeHandle(p);
      if handle.None? {
        assert active == old(active);
        return false;
      }
      if e.stopped {
        UpdatePluginRuntimeState(p, false, INSTALLED, e.rowWritten);
        AppendAuditLog(p, "stop", e.audited);
        ok := true;
      } else {
        SetRuntimeHandle(p, handle.value);
        assert active == old(active);
        AppendAuditLog(p, "stop", e.audited);
        ok := false;
      }
    }

    /** The seven deletes, one table after the other; a failed one is ignored. */
    method DeleteRows(p: string, d: Deletes)
      modifies this`db
      ensures db == DeletePluginRows(old(db), p, d)
    {
      db := db.(grants := DeletePlugin(db.grants, p, d.grants));
      db := db.(versions := DeletePlugin(db.versions, p, d.versions));
      db := db.(tasks := DeletePlugin(db.tasks, p, d.tasks));
      db := db.(navItems := DeletePlugin(db.navItems, p, d.navItems));
      db := db.(shared := DeletePlugin(db.shared, p, d.shared));
      db := db.(migrations := DeletePlugin(db.migrations, p, d.migrations));
      if d.registry {
        db := db.(registry := db.registry - {p});
      }
    }

    method UninstallPlugin(p: string, e: UninstallEnv) returns (ok: bool)
      modifies this
      ensures Reply(State(), ok) == Uninstall(old(State()), p, e)
    {
      var handle := RemoveRuntimeHandle(p);
      if handle.Some? && !e.stopped {
        return false;
      }
      if !e.rowRead || p !in db.registry {
        return false;
      }
      if db.registry[p].currentVersion.Some? && !e.versionRead {
        return false;
      }
      DeleteRows(p, e.deletes);
      AppendAuditLog(p, "uninstall", e.audited);
      ok := true;
    }
  }
}
