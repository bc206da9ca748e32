/** Permission grants: the table, its checks, and the defaults a registration writes. */
module Permissions {
  import opened Wrappers
  import opened Tables
  import opened Database

  datatype Permission =
    | AuthRead | UserLookup | UserPermissionCheck | VfsRead | VfsWrite | KvRead | KvWrite | KvDelete
    | DbSharedRead | DbSharedWrite | DbSqlite | WebApi | WebSocket | Scheduler | Network
    | ProcessExecution | DockerExecution

  function AsKey(p: Permission): string {
    match p
    case AuthRead => "auth-read"
    case UserLookup => "user-lookup"
    case UserPermissionCheck => "user-permission-check"
    case VfsRead => "vfs-read"
    case VfsWrite => "vfs-write"
    case KvRead => "kv-read"
    case KvWrite => "kv-write"
    case KvDelete => "kv-delete"
    case DbSharedRead => "db-shared-read"
    case DbSharedWrite => "db-shared-write"
    case DbSqlite => "db-sqlite"
    case WebApi => "web-api"
    case WebSocket => "web-socket"
    case Scheduler => "scheduler"
    case Network => "network"
    case ProcessExecution => "process-execution"
    case DockerExecution => "docker-execution"
  }

  datatype GrantItem = GrantItem(permissionKey: string, granted: bool)

  type Grants = seq<Row<Key, bool>>

  function GrantKey(plugin: string, permissionKey: string): Key {
    Key(plugin, [permissionKey])
  }

  function PermissionKeysToItems(permissions: seq<Permission>, grantedKeys: seq<string>): seq<GrantItem> {
    seq(|permissions|, i requires 0 <= i < |permissions| =>
      GrantItem(AsKey(permissions[i]), AsKey(permissions[i]) in grantedKeys))
  }

  function DefaultPermissionGrants(permissions: seq<Permission>): seq<GrantItem> {
    PermissionKeysToItems(permissions, [])
  }

  /** The table after the listed grants were written one by one. */
  function ReplaceGrants(rows: Grants, plugin: string, items: seq<GrantItem>, pick: nat): Grants {
    if items == [] then rows
    else
      var last := items[|items| - 1];
      Upsert(ReplaceGrants(rows, plugin, items[..|items| - 1], pick),
             GrantKey(plugin, last.permissionKey), last.granted, pick)
  }

  /** A plugin's grants as a map from permission keys; the last item of a list wins. */
  function ItemsMap(plugin: string, items: seq<GrantItem>): map<Key, bool> {
    if items == [] then map[]
    else
      var last := items[|items| - 1];
      ItemsMap(plugin, items[..|items| - 1])[GrantKey(plugin, last.permissionKey) := last.granted]
  }

  lemma MapUpdateLast<K, V>(m: map<K, V>, n: map<K, V>, k: K, v: V)
    ensures (m + n)[k := v] == m + n[k := v]
  {
  }

  /** Replacing grants keeps one row per key and overrides exactly the listed keys. */
  lemma {:induction false} ReplaceGrantsRefines(rows: Grants, plugin: string, items: seq<GrantItem>, pick: nat)
    requires UniqueKeys(rows)
    ensures UniqueKeys(ReplaceGrants(rows, plugin, items, pick))
    ensures ToMap(ReplaceGrants(rows, plugin, items, pick)) == ToMap(rows) + ItemsMap(plugin, items)
  {
    if items != [] {
      var n := |items| - 1;
      ReplaceGrantsRefines(rows, plugin, items[..n], pick);
      var before, k := ReplaceGrants(rows, plugin, items[..n], pick), GrantKey(plugin, items[n].permissionKey);
      UpsertRefines(before, k, items[n].granted, pick);
      MapUpdateLast(ToMap(rows), ItemsMap(plugin, items[..n]), k, items[n].granted);
    }
  }

  lemma {:induction false} ReplaceGrantsOtherPlugin(rows: Grants, plugin: string, items: seq<GrantItem>, pick: nat,
                                                    q: string)
    requires q != plugin
    ensures Select(ReplaceGrants(rows, plugin, items, pick), OfPlugin(q)) == Select(rows, OfPlugin(q))
  {
    if items != [] {
      var n := |items| - 1;
      ReplaceGrantsOtherPlugin(rows, plugin, items[..n], pick, q);
      UpsertOutside(ReplaceGrants(rows, plugin, items[..n], pick), GrantKey(plugin, items[n].permissionKey),
                    items[n].granted, pick, OfPlugin(q));
    }
  }

  // ---- Checks ----

  function CheckPluginPermission(rows: Grants, plugin: string, permission: Permission, pick: nat): bool {
    match One(rows, GrantKey(plugin, AsKey(permission)), pick)
    case Some(i) => rows[i].value
    case None => false
  }

  /** What a check means on the map of grants. */
  ghost predicate Granted(rows: Grants, plugin: string, permissionKey: string) {
    GrantKey(plugin, permissionKey) in ToMap(rows) && ToMap(rows)[GrantKey(plugin, permissionKey)]
  }

  lemma CheckIsGranted(rows: Grants, plugin: string, permission: Permission, pick: nat)
    requires UniqueKeys(rows)
    ensures CheckPluginPermission(rows, plugin, permission, pick) <==> Granted(rows, plugin, AsKey(permission))
  {
    var k := GrantKey(plugin, AsKey(permission));
    ToMapKeys(rows, k);
    match One(rows, k, pick)
    case Some(i) => ToMapAt(rows, i);
    case None =>
  }

  /** A check that holds read a row that grants; with one row a key, such a row is enough. */
  lemma CheckIsRow(rows: Grants, plugin: string, permission: Permission, pick: nat)
    ensures CheckPluginPermission(rows, plugin, permission, pick)
            ==> Row(Key(plugin, [AsKey(permission)]), true) in rows
    ensures UniqueKeys(rows) && Row(Key(plugin, [AsKey(permission)]), true) in rows
            ==> CheckPluginPermission(rows, plugin, permission, pick)
  {
    var k := Key(plugin, [AsKey(permission)]);
    match One(rows, k, pick)
    case Some(i) =>
      if UniqueKeys(rows) && Row(k, true) in rows {
        var j :| 0 <= j < |rows| && rows[j] == Row(k, true);
        assert i == j;
      }
    case None =>
  }

  /** All required permissions, checked in turn up to the first that is not granted. */
  method CheckPluginPermissions(rows: Grants, plugin: string, required: seq<Permission>, pick: nat) returns (ok: bool)
    requires UniqueKeys(rows)
    ensures ok <==> forall p :: p in required ==> Granted(rows, plugin, AsKey(p))
  {
    if required == [] {
      return true;
    }
    for i := 0 to |required|
      invariant forall j :: 0 <= j < i ==> Granted(rows, plugin, AsKey(required[j]))
    {
      CheckIsGranted(rows, plugin, required[i], pick);
      if !CheckPluginPermission(rows, plugin, required[i], pick) {
        assert required[i] in required;
        return false;
      }
    }
    ok := true;
  }

  /** The keys of a plugin's granted rows, in table order. */
  function GrantedKeysOf(rows: Grants): seq<string> {
    if rows == [] then []
    else
      var last := rows[|rows| - 1];
      GrantedKeysOf(rows[..|rows| - 1]) + if last.value && last.key.rest != [] then [last.key.rest[0]] else []
  }

  function GrantedPermissionKeys(rows: Grants, plugin: string): seq<string> {
    GrantedKeysOf(Select(rows, OfPlugin(plugin)))
  }

  /** Every row of the grant table is keyed by a plugin and one permission key. */
  ghost predicate GrantShaped(rows: Grants) {
    forall r :: r in rows ==> |r.key.rest| == 1
  }

  predicate GrantsKey(row: Row<Key, bool>, permissionKey: string) {
    row.value && row.key.rest == [permissionKey]
  }

  ghost predicate SomeGrants(rows: Grants, permissionKey: string) {
    exists i :: 0 <= i < |rows| && GrantsKey(rows[i], permissionKey)
  }

  lemma SomeGrantsSplits(rows: Grants, permissionKey: string)
    requires rows != []
    ensures var n := |rows| - 1;
      SomeGrants(rows, permissionKey) <==> SomeGrants(rows[..n], permissionKey) || GrantsKey(rows[n], permissionKey)
  {
    hide GrantsKey;
    var n := |rows| - 1;
    assert forall i :: 0 <= i < n ==> rows[..n][i] == rows[i];
  }

  lemma {:induction false} GrantedKeysIn(rows: Grants, permissionKey: string)
    requires GrantShaped(rows)
    ensures permissionKey in GrantedKeysOf(rows) <==> SomeGrants(rows, permissionKey)
  {
    hide SomeGrants;
    if rows != [] {
      var n := |rows| - 1;
      assert rows[n] in rows && rows[n].key.rest == [rows[n].key.rest[0]];
      GrantedKeysIn(rows[..n], permissionKey);
      SomeGrantsSplits(rows, permissionKey);
    } else {
      NoneGrants(permissionKey);
    }
  }

  lemma NoneGrants(permissionKey: string)
    ensures !SomeGrants([], permissionKey)
  {
  }

  /** The list of granted keys holds exactly the keys whose check is true. */
  lemma GrantedKeysAreChecks(rows: Grants, plugin: string, permissionKey: string)
    requires UniqueKeys(rows) && GrantShaped(rows)
    ensures permissionKey in GrantedPermissionKeys(rows, plugin) <==> Granted(rows, plugin, permissionKey)
  {
    var mine := Select(rows, OfPlugin(plugin));
    var k := GrantKey(plugin, permissionKey);
    SelectUnique(rows, OfPlugin(plugin));
    SelectRefines(rows, OfPlugin(plugin));
    forall r | r in mine ensures r.key.plugin == plugin && |r.key.rest| == 1 {
      SelectIn(rows, OfPlugin(plugin), r);
    }
    GrantedKeysIn(mine, permissionKey);
    ToMapKeys(mine, k);
    if i :| 0 <= i < |mine| && GrantsKey(mine[i], permissionKey) {
      assert mine[i] in mine;
      assert mine[i].key == k;
      ToMapAt(mine, i);
    }
    if Granted(rows, plugin, permissionKey) {
      assert k in ToMap(mine);
      var i :| 0 <= i < |mine| && mine[i].key == k;
      ToMapAt(mine, i);
      assert GrantsKey(mine[i], permissionKey);
    }
  }

  // ---- Registration ----

  lemma {:induction false} ItemsMapUngranted(plugin: string, items: seq<GrantItem>, i: nat)
    requires i < |items|
    requires forall j :: 0 <= j < |items| ==> !items[j].granted
    ensures var k := GrantKey(plugin, items[i].permissionKey);
        k in ItemsMap(plugin, items) && !ItemsMap(plugin, items)[k]
  {
    if i < |items| - 1 {
      ItemsMapUngranted(plugin, items[..|items| - 1], i);
    }
  }

  /** Registration leaves every declared permission ungranted, whatever was granted before. */
  lemma RegisterUngrants(rows: Grants, plugin: string, permissions: seq<Permission>, pick: nat, p: Permission)
    requires UniqueKeys(rows) && p in permissions
    ensures !Granted(ReplaceGrants(rows, plugin, DefaultPermissionGrants(permissions), pick), plugin, AsKey(p))
  {
    var items := DefaultPermissionGrants(permissions);
    var i :| 0 <= i < |permissions| && permissions[i] == p;
    ReplaceGrantsRefines(rows, plugin, items, pick);
    ItemsMapUngranted(plugin, items, i);
  }

  /** Distinct permissions have distinct keys, so a grant of one is never a grant of another. */
  lemma AsKeyInjective(p: Permission, q: Permission)
    requires AsKey(p) == AsKey(q)
    ensures p == q
  {
    KeyDecodes(p);
    KeyDecodes(q);
  }

  function FromKey(key: string): Option<Permission> {
    match key
    case "auth-read" => Some(AuthRead)
    case "user-lookup" => Some(UserLookup)
    case "user-permission-check" => Some(UserPermissionCheck)
    case "vfs-read" => Some(VfsRead)
    case "vfs-write" => Some(VfsWrite)
    case "kv-read" => Some(KvRead)
    case "kv-write" => Some(KvWrite)
    case "kv-delete" => Some(KvDelete)
    case "db-shared-read" => Some(DbSharedRead)
    case "db-shared-write" => Some(DbSharedWrite)
    case "db-sqlite" => Some(DbSqlite)
    case "web-api" => Some(WebApi)
    case "web-socket" => Some(WebSocket)
    case "scheduler" => Some(Scheduler)
    case "network" => Some(Network)
    case "process-execution" => Some(ProcessExecution)
    case "docker-execution" => Some(DockerExecution)
    case _ => None
  }

  lemma KeyDecodes(p: Permission)
    ensures FromKey(AsKey(p)) == Some(p)
  {
  }
}
