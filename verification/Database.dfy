/** The plugin tables and the single-table operations of the registry. */
module Database {
  import opened Wrappers
  import opened Tables

  const PENDING: string := "pending"
  const INSTALLED: string := "installed"
  const RUNNING: string := "running"

  /** A plugin's registry row, keyed by the plugin id, which is the table's primary key. */
  datatype RegistryRow = RegistryRow(runtimeKind: string, currentVersion: Option<string>, status: string, enabled: bool)

  /** The columns that identify a row: the plugin id, then those that tell its rows apart. */
  datatype Key = Key(plugin: string, rest: seq<string>)

  datatype VersionInfo = VersionInfo(packagePath: string, status: string)
  datatype Task = Task(mode: string, status: string, cron: Option<string>, lastError: Option<string>)
  datatype NavItem = NavItem(
    itemLabel: string, route: string, icon: string, visibility: string, groupKey: Option<string>,
    position: Option<string>, requiredPermission: Option<string>, sortOrder: int)
  datatype MigrationState = StateJson(text: string) | Applied(description: Option<string>, executedStatements: nat)
  datatype AuditRow = AuditRow(plugin: string, action: string)

  datatype Db = Db(
    registry: map<string, RegistryRow>,
    versions: seq<Row<Key, VersionInfo>>,
    grants: seq<Row<Key, bool>>,
    tasks: seq<Row<Key, Task>>,
    navItems: seq<Row<Key, NavItem>>,
    shared: seq<Row<Key, string>>,
    migrations: seq<Row<Key, MigrationState>>,
    audit: seq<AuditRow>)

  const EMPTY: Db := Db(map[], [], [], [], [], [], [], [])

  function OfPlugin(p: string): Key -> bool {
    (k: Key) => k.plugin == p
  }

  /** `update_plugin_runtime_state`, whose result its callers ignore: no row or a failed write changes nothing. */
  function UpdateRuntimeState(db: Db, p: string, enabled: bool, status: string, written: bool): Db {
    if written && p in db.registry
    then db.(registry := db.registry[p := db.registry[p].(enabled := enabled, status := status)])
    else db
  }

  function AppendAudit(db: Db, p: string, action: string, written: bool): Db {
    if written then db.(audit := db.audit + [AuditRow(p, action)]) else db
  }

  /** Which of an uninstall's seven deletes succeed. */
  datatype Deletes = Deletes(
    grants: bool, versions: bool, tasks: bool, navItems: bool, shared: bool, migrations: bool, registry: bool)
  {
    predicate All() {
      grants && versions && tasks && navItems && shared && migrations && registry
    }
  }

  function DeletePlugin<V>(rows: seq<Row<Key, V>>, p: string, done: bool): seq<Row<Key, V>> {
    if done then Delete(rows, OfPlugin(p)) else rows
  }

  function DeletePluginRows(db: Db, p: string, d: Deletes): Db {
    Db(if d.registry then db.registry - {p} else db.registry,
       DeletePlugin(db.versions, p, d.versions),
       DeletePlugin(db.grants, p, d.grants),
       DeletePlugin(db.tasks, p, d.tasks),
       DeletePlugin(db.navItems, p, d.navItems),
       DeletePlugin(db.shared, p, d.shared),
       DeletePlugin(db.migrations, p, d.migrations),
       db.audit)
  }

  ghost predicate NoRows<V>(rows: seq<Row<Key, V>>, p: string) {
    forall r :: r in rows ==> r.key.plugin != p
  }

  /** After a delete no row of the plugin is left and the other plugins' rows are the same, in order. */
  lemma DeletePluginExact<V>(rows: seq<Row<Key, V>>, p: string, q: string)
    ensures NoRows(DeletePlugin(rows, p, true), p)
    ensures q != p ==> Select(DeletePlugin(rows, p, true), OfPlugin(q)) == Select(rows, OfPlugin(q))
  {
    var left := Delete(rows, OfPlugin(p));
    forall r | r in left ensures r.key.plugin != p {
      SelectIn(rows, Not(OfPlugin(p)), r);
    }
    if q != p {
      DeleteOutside(rows, OfPlugin(p), OfPlugin(q));
    }
  }
}
