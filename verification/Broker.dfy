/**
 The host API's tables: shared records, tasks, navigation items and migration states, kept by
 find-then-insert-or-update requests, and the execution of an installed migration script.
 */
module Broker {
  import opened Wrappers
  import opened Text
  import opened Tables
  import opened Database
  import opened Permissions
  import opened SqlScript
  import opened Sequences
  import L = Lifecycle

  datatype Error = Unauthorized | BadRequest | Forbidden | NotFound | Internal

  /** Who calls: an authenticated user, the plugin runtime, both, or neither. */
  datatype Caller = Caller(user: Option<string>, pluginRuntime: bool)

  /** What the database makes of one statement; a rejected one may hold several and leave a part of its effect. */
  datatype SqlResult = SqlResult(db: Db, ok: bool)

  /** The database as a migration meets it: the n-th statement of a script, on the tables the host itself uses. */
  type Sql = (nat, string, Db) -> SqlResult

  /** What the outside did during a request: which queries and writes succeeded, and what was found. */
  datatype Env = Env(
    checked: bool,               // the permission query
    found: bool,                 // the query for existing rows
    written: bool,               // the row write, or the delete
    pick: nat,                   // which of several matching rows a query returns
    loaded: bool,                // the registry and version queries of a migration
    files: map<string, string>,  // the readable files by path
    sql: Sql)                    // the database executing a migration's statements

  datatype State = State(db: Db, executed: seq<string>)

  // ---- Admission ----

  function ValidateIdentifier(value: string): Result<string, Error> {
    var sanitized := Sanitize(value);
    if Trim(sanitized) == [] then Err(BadRequest) else Ok(sanitized)
  }

  /** One identifier after the other; the first bad one is the error. */
  function ValidateAll(values: seq<string>): Result<seq<string>, Error> {
    if values == [] then Ok([])
    else
      match ValidateIdentifier(values[0])
      case Err(e) => Err(e)
      case Ok(id) =>
        match ValidateAll(values[1..])
        case Err(e) => Err(e)
        case Ok(rest) => Ok([id] + rest)
  }

  predicate Authorized(c: Caller, needsUser: bool) {
    c.user.Some? || (c.pluginRuntime && !needsUser)
  }

  /** The checks before any row is touched: caller, identifiers with the plugin first, permission. */
  function Admit(grants: Grants, c: Caller, needsUser: bool, values: seq<string>, needs: Permission, e: Env)
    : Result<seq<string>, Error>
    requires values != []
  {
    if !Authorized(c, needsUser) then Err(Unauthorized)
    else
      match ValidateAll(values)
      case Err(error) => Err(error)
      case Ok(ids) =>
        ValidateAllExact(values);
        if e.checked && CheckPluginPermission(grants, ids[0], needs, e.pick) then Ok(ids) else Err(Forbidden)
  }

  function SanitizeAll(values: seq<string>): (r: seq<string>)
    ensures |r| == |values|
  {
    seq(|values|, i requires 0 <= i < |values| => Sanitize(values[i]))
  }

  lemma SanitizedTrimmed(s: string)
    ensures Trim(Sanitize(s)) == Sanitize(s)
  {
    TrimOfTrimmed(Sanitize(s));
  }

  /** Sanitised text has no whitespace to trim, so an identifier is refused exactly when it is empty. */
  lemma {:induction false} ValidateAllExact(values: seq<string>)
    ensures ValidateAll(values) == if "" in values then Err(BadRequest) else Ok(SanitizeAll(values))
  {
    if values != [] {
      SanitizedTrimmed(values[0]);
      ValidateAllExact(values[1..]);
      assert values == [values[0]] + values[1..];
      assert SanitizeAll(values) == [Sanitize(values[0])] + SanitizeAll(values[1..]);
      assert |Sanitize(values[0])| == |values[0]|;
    }
  }

  /** What a request must bring: a caller, non-empty names, and a grant of the sanitised plugin under the key. */
  function AdmitMaps(grants: map<Key, bool>, c: Caller, needsUser: bool, values: seq<string>, permissionKey: string,
                     checked: bool)
    : Result<seq<string>, Error>
    requires values != []
  {
    if c.user.None? && (needsUser || !c.pluginRuntime) then Err(Unauthorized)
    else if "" in values then Err(BadRequest)
    else
      var k := Key(Sanitize(values[0]), [permissionKey]);
      if checked && k in grants && grants[k] then Ok(SanitizeAll(values)) else Err(Forbidden)
  }

  lemma AdmitRefines(grants: Grants, c: Caller, needsUser: bool, values: seq<string>, needs: Permission, e: Env)
    requires UniqueKeys(grants) && values != []
    ensures Admit(grants, c, needsUser, values, needs, e)
        == AdmitMaps(ToMap(grants), c, needsUser, values, AsKey(needs), e.checked)
  {
    ValidateAllExact(values);
    CheckIsGranted(grants, Sanitize(values[0]), needs, e.pick);
  }

  // ---- Requests that write ----

  datatype Op =
    | PutShared(collection: string, recordKey: string, payload: string)
    | DropShared(collection: string, recordKey: string)
    | PutTask(taskKey: string, task: Task)
    | PutNav(itemKey: string, item: NavItem)
    | PutMigration(scope: string, migrationKey: string, stateJson: string)
    | ExecuteMigration(scope: string, migrationKey: string, description: Option<string>)
  {
    predicate NeedsUser() {
      PutShared? || DropShared?
    }

    function Needs(): Permission {
      match this
      case PutShared(_, _, _) => DbSharedWrite
      case DropShared(_, _) => DbSharedWrite
      case PutTask(_, _) => Scheduler
      case PutNav(_, _) => WebApi
      case PutMigration(_, _, _) => DbSqlite
      case ExecuteMigration(_, _, _) => DbSqlite
    }

    /** The names that identify a row within its plugin. */
    function Names(): (r: seq<string>)
      ensures |r| == if PutTask? || PutNav? then 1 else 2
    {
      match this
      case PutShared(c, k, _) => [c, k]
      case DropShared(c, k) => [c, k]
      case PutTask(k, _) => [k]
      case PutNav(k, _) => [k]
      case PutMigration(s, k, _) => [s, k]
      case ExecuteMigration(s, k, _) => [s, k]
    }
  }

  datatype Request = Request(caller: Caller, plugin: string, op: Op)
  {
    function Values(): (r: seq<string>)
      ensures |r| >= 2
    {
      [plugin] + op.Names()
    }

    /** The key of the row concerned; a shared record belongs to the calling user. */
    function RowKey(ids: seq<string>): Key
      requires ids != []
    {
      Key(ids[0], ids[1..] + if op.NeedsUser() && caller.user.Some? then [caller.user.value] else [])
    }
  }

  datatype Answer =
    | SharedRow(shared: Row<Key, string>)
    | TaskRow(task: Row<Key, Task>)
    | NavRow(nav: Row<Key, NavItem>)
    | MigrationRow(migration: Row<Key, MigrationState>)
    | Deleted(any: bool)

  datatype Response = Response(state: State, result: Result<Answer, Error>)

  /** The text of an installed migration: in the package directory of the plugin's current version. */
  function MigrationSql(db: Db, ids: seq<string>, e: Env): Option<string>
    requires |ids| == 3
  {
    if !e.loaded || ids[0] !in db.registry || db.registry[ids[0]].currentVersion.None? then None
    else
      match One(db.versions, L.VersionKey(ids[0], db.registry[ids[0]].currentVersion.value), e.pick)
      case None => None
      case Some(i) =>
        var dir := L.JoinPath(L.JoinPath(db.versions[i].value.packagePath, "migrations"), ids[1]);
        var path := L.JoinPath(dir, ids[2] + ".sql");
        if path in e.files then Some(e.files[path]) else None
  }

  function SameKey(k: Key): Key -> bool {
    (other: Key) => other == k
  }

  function Serve(s: State, q: Request, e: Env): Response {
    match Admit(s.db.grants, q.caller, q.op.NeedsUser(), q.Values(), q.op.Needs(), e)
    case Err(error) => Response(s, Err(error))
    case Ok(ids) =>
      ValidateAllExact(q.Values());
      var k := q.RowKey(ids);
      if q.op.ExecuteMigration? then Execute(s, ids, k, q.op.description, e)
      else if !(e.found || q.op.DropShared?) || !e.written then Response(s, Err(Internal))
      else
        match q.op
        case PutShared(_, _, payload) =>
          Response(s.(db := s.db.(shared := Upsert(s.db.shared, k, payload, e.pick))), Ok(SharedRow(Row(k, payload))))
        case DropShared(_, _) =>
          Response(s.(db := s.db.(shared := Delete(s.db.shared, SameKey(k)))), Ok(Deleted(HasRow(s.db.shared, k))))
        case PutTask(_, task) =>
          Response(s.(db := s.db.(tasks := Upsert(s.db.tasks, k, task, e.pick))), Ok(TaskRow(Row(k, task))))
        case PutNav(_, item) =>
          Response(s.(db := s.db.(navItems := Upsert(s.db.navItems, k, item, e.pick))), Ok(NavRow(Row(k, item))))
        case PutMigration(_, _, text) =>
          Response(s.(db := s.db.(migrations := Upsert(s.db.migrations, k, StateJson(text), e.pick))),
                   Ok(MigrationRow(Row(k, StateJson(text)))))
  }

  predicate HasRow<V>(rows: seq<Row<Key, V>>, k: Key) {
    FirstMatch(rows, k).Some?
  }

  /** A script after its first `accepted` statements, and the next one if that was rejected. */
  datatype Ran = Ran(db: Db, accepted: nat)

  /** Each statement acts on what those before it left, up to the first that is rejected. */
  function RunScript(db: Db, statements: seq<string>, sql: Sql): (r: Ran)
    ensures r.accepted <= |statements|
  {
    if statements == [] then Ran(db, 0)
    else
      var n := |statements| - 1;
      var before := RunScript(db, statements[..n], sql);
      if before.accepted < n then before
      else
        var last := sql(n, statements[n], before.db);
        Ran(last.db, if last.ok then n + 1 else n)
  }

  /** Runs a migration's statements, then records it; what was executed before a failure stays. */
  function Execute(s: State, ids: seq<string>, k: Key, description: Option<string>, e: Env): Response
    requires |ids| == 3
  {
    match MigrationSql(s.db, ids, e)
    case None => Response(s, Err(Internal))
    case Some(text) =>
      var statements := SplitSqlStatements(text);
      if statements == [] then Response(s, Err(BadRequest))
      else
        var ran := RunScript(s.db, statements, e.sql);
        var after := State(ran.db, s.executed + statements[..ran.accepted]);
        if ran.accepted < |statements| || !e.found || !e.written then Response(after, Err(Internal))
        else
          var applied := Applied(description, |statements|);
          Response(after.(db := ran.db.(migrations := Upsert(ran.db.migrations, k, applied, e.pick))),
                   Ok(MigrationRow(Row(k, applied))))
  }

  // ---- Requests that read ----

  function GetShared(db: Db, c: Caller, plugin: string, collection: string, recordKey: string, e: Env)
    : Result<Row<Key, string>, Error>
  {
    match Admit(db.grants, c, true, [plugin, collection, recordKey], DbSharedRead, e)
    case Err(error) => Err(error)
    case Ok(ids) =>
      ValidateAllExact([plugin, collection, recordKey]);
      if !e.found then Err(Internal)
      else
        match One(db.shared, Key(ids[0], ids[1..] + [c.user.value]), e.pick)
        case None => Err(NotFound)
        case Some(i) => Ok(db.shared[i])
  }

  function InCollection(plugin: string, collection: string, owner: string): Key -> bool {
    (k: Key) => k.plugin == plugin && |k.rest| == 3 && k.rest[0] == collection && k.rest[2] == owner
  }

  function ListShared(db: Db, c: Caller, plugin: string, collection: string, e: Env)
    : Result<seq<Row<Key, string>>, Error>
  {
    match Admit(db.grants, c, true, [plugin, collection], DbSharedRead, e)
    case Err(error) => Err(error)
    case Ok(ids) =>
      ValidateAllExact([plugin, collection]);
      if e.found then Ok(Select(db.shared, InCollection(ids[0], ids[1], c.user.value))) else Err(Internal)
  }

  function ListTasks(db: Db, c: Caller, plugin: string, e: Env): Result<seq<Row<Key, Task>>, Error> {
    match Admit(db.grants, c, false, [plugin], Scheduler, e)
    case Err(error) => Err(error)
    case Ok(ids) =>
      ValidateAllExact([plugin]);
      if e.found then Ok(Select(db.tasks, OfPlugin(ids[0]))) else Err(Internal)
  }

  /** Without a plugin id every plugin's items are listed, and no permission is asked for. */
  function ListNavItems(db: Db, c: Caller, plugin: Option<string>, e: Env): Result<seq<Row<Key, NavItem>>, Error> {
    if plugin.None? then
      if !Authorized(c, false) then Err(Unauthorized) else if e.found then Ok(db.navItems) else Err(Internal)
    else
      match Admit(db.grants, c, false, [plugin.value], WebApi, e)
      case Err(error) => Err(error)
      case Ok(ids) =>
        ValidateAllExact([plugin.value]);
        if e.found then Ok(Select(db.navItems, OfPlugin(ids[0]))) else Err(Internal)
  }

  // ---- The tables as maps ----

  datatype Maps = Maps(
    grants: map<Key, bool>,
    tasks: map<Key, Task>,
    navItems: map<Key, NavItem>,
    shared: map<Key, string>,
    migrations: map<Key, MigrationState>)

  function Abstract(db: Db): Maps {
    Maps(ToMap(db.grants), ToMap(db.tasks), ToMap(db.navItems), ToMap(db.shared), ToMap(db.migrations))
  }

  ghost predicate KeyedTables(db: Db) {
    && UniqueKeys(db.grants) && UniqueKeys(db.tasks) && UniqueKeys(db.navItems)
    && UniqueKeys(db.shared) && UniqueKeys(db.migrations)
  }

  datatype MapsResponse = MapsResponse(maps: Maps, result: Result<Answer, Error>)

  /** A loaded migration on maps: its statements, how many were accepted, and the maps they leave. */
  datatype Script = Script(total: nat, accepted: nat, maps: Maps)

  /**
   The reference meaning of a request: under the permission its kind asks for, it reads or changes the binding it
   names in one map. Only what a migration's own statements do to the maps is taken from outside.
   */
  function ServeMaps(m: Maps, q: Request, e: Env, script: Option<Script>): MapsResponse {
    var id, user := Sanitize(q.plugin), if q.caller.user.Some? then q.caller.user.value else "";
    match q.op
    case PutShared(c, r, payload) =>
      var k := Key(id, [Sanitize(c), Sanitize(r), user]);
      Guarded(m, AdmitMaps(m.grants, q.caller, true, [q.plugin, c, r], "db-shared-write", e.checked),
              e.found && e.written, m.(shared := m.shared[k := payload]), SharedRow(Row(k, payload)))
    case DropShared(c, r) =>
      var k := Key(id, [Sanitize(c), Sanitize(r), user]);
      Guarded(m, AdmitMaps(m.grants, q.caller, true, [q.plugin, c, r], "db-shared-write", e.checked), e.written,
              m.(shared := m.shared - {k}), Deleted(k in m.shared))
    case PutTask(t, task) =>
      var k := Key(id, [Sanitize(t)]);
      Guarded(m, AdmitMaps(m.grants, q.caller, false, [q.plugin, t], "scheduler", e.checked), e.found && e.written,
              m.(tasks := m.tasks[k := task]), TaskRow(Row(k, task)))
    case PutNav(i, item) =>
      var k := Key(id, [Sanitize(i)]);
      Guarded(m, AdmitMaps(m.grants, q.caller, false, [q.plugin, i], "web-api", e.checked), e.found && e.written,
              m.(navItems := m.navItems[k := item]), NavRow(Row(k, item)))
    case PutMigration(s, i, text) =>
      var k := Key(id, [Sanitize(s), Sanitize(i)]);
      Guarded(m, AdmitMaps(m.grants, q.caller, false, [q.plugin, s, i], "db-sqlite", e.checked), e.found && e.written,
              m.(migrations := m.migrations[k := StateJson(text)]), MigrationRow(Row(k, StateJson(text))))
    case ExecuteMigration(s, i, description) =>
      var admitted := AdmitMaps(m.grants, q.caller, false, [q.plugin, s, i], "db-sqlite", e.checked);
      if admitted.Err? then MapsResponse(m, Err(admitted.error))
      else if script.None? then MapsResponse(m, Err(Internal))
      else if script.value.total == 0 then MapsResponse(m, Err(BadRequest))
      else
        var k, n, after := Key(id, [Sanitize(s), Sanitize(i)]), script.value.total, script.value.maps;
        if script.value.accepted < n || !e.found || !e.written then MapsResponse(after, Err(Internal))
        else MapsResponse(after.(migrations := after.migrations[k := Applied(description, n)]),
                          Ok(MigrationRow(Row(k, Applied(description, n)))))
  }

  /** The outcome of an admission and of the database calls after it. */
  function Guarded(m: Maps, admitted: Result<seq<string>, Error>, done: bool, after: Maps, answer: Answer)
    : MapsResponse
  {
    if admitted.Err? then MapsResponse(m, Err(admitted.error))
    else if done then MapsResponse(after, Ok(answer))
    else MapsResponse(m, Err(Internal))
  }

  /** The text an execute request of the broker would run, if it names an installed migration. */
  function SqlOf(db: Db, q: Request, e: Env): Option<string> {
    if q.op.ExecuteMigration? then MigrationSql(db, SanitizeAll(q.Values()), e) else None
  }

  function ScriptMaps(db: Db, q: Request, e: Env): Option<Script> {
    match SqlOf(db, q, e)
    case None => None
    case Some(text) =>
      var statements := SplitSqlStatements(text);
      var ran := RunScript(db, statements, e.sql);
      Some(Script(|statements|, ran.accepted, Abstract(ran.db)))
  }

  /** The statements a request gives to the database: those of the migration it is admitted to execute, else none. */
  function ScriptOf(db: Db, q: Request, e: Env): seq<string> {
    if Admit(db.grants, q.caller, q.op.NeedsUser(), q.Values(), q.op.Needs(), e).Ok? && SqlOf(db, q, e).Some?
    then SplitSqlStatements(SqlOf(db, q, e).value) else []
  }

  /** The tables after those statements. */
  function Scripted(db: Db, q: Request, e: Env): Db {
    RunScript(db, ScriptOf(db, q, e), e.sql).db
  }

  lemma DeleteKeyRefines<V>(rows: seq<Row<Key, V>>, k: Key)
    requires UniqueKeys(rows)
    ensures UniqueKeys(Delete(rows, SameKey(k))) && ToMap(Delete(rows, SameKey(k))) == ToMap(rows) - {k}
    ensures HasRow(rows, k) <==> k in ToMap(rows)
  {
    DeleteRefines(rows, SameKey(k));
    ToMapKeys(rows, k);
  }

  /**
   Each request does to the rows what its meaning does to the maps, with the same answer; one row per key is
   kept by all but a migration's statements, and after those exactly if they leave it so.
   */
  lemma ServeRefines(s: State, q: Request, e: Env)
    requires KeyedTables(s.db)
    ensures var r, m := Serve(s, q, e), ServeMaps(Abstract(s.db), q, e, ScriptMaps(s.db, q, e));
      && r.result == m.result
      && (KeyedTables(r.state.db) <==> KeyedTables(Scripted(s.db, q, e)))
      && (KeyedTables(r.state.db) ==> Abstract(r.state.db) == m.maps)
  {
    hide ToMap, UniqueKeys, Admit, Upsert, Delete, ValidateAll, SplitSqlStatements, RunScript, Execute, MigrationSql,
      Sanitize;
    ValuesAre(q);
    AdmitRefines(s.db.grants, q.caller, q.op.NeedsUser(), q.Values(), q.op.Needs(), e);
    NothingToRun(s.db, e.sql);
    if Admit(s.db.grants, q.caller, q.op.NeedsUser(), q.Values(), q.op.Needs(), e).Ok? {
      ValidateAllExact(q.Values());
      RowKeyIs(q);
      var k := q.RowKey(SanitizeAll(q.Values()));
      match q.op
      case PutShared(_, _, payload) => UpsertRefines(s.db.shared, k, payload, e.pick);
      case DropShared(_, _) => DeleteKeyRefines(s.db.shared, k);
      case PutTask(_, task) => UpsertRefines(s.db.tasks, k, task, e.pick);
      case PutNav(_, item) => UpsertRefines(s.db.navItems, k, item, e.pick);
      case PutMigration(_, _, text) => UpsertRefines(s.db.migrations, k, StateJson(text), e.pick);
      case ExecuteMigration(_, _, description) =>
        ExecuteRefines(s, k, description, e, SanitizeAll(q.Values()));
    }
  }

  /** The row a request concerns: under the sanitised plugin id and names, a shared record also under its user. */
  lemma RowKeyIs(q: Request)
    requires q.op.NeedsUser() ==> q.caller.user.Some?
    ensures q.RowKey(SanitizeAll(q.Values()))
         == Key(Sanitize(q.plugin),
                match q.op
                case PutShared(c, r, _) => [Sanitize(c), Sanitize(r), q.caller.user.value]
                case DropShared(c, r) => [Sanitize(c), Sanitize(r), q.caller.user.value]
                case PutTask(t, _) => [Sanitize(t)]
                case PutNav(i, _) => [Sanitize(i)]
                case PutMigration(s, i, _) => [Sanitize(s), Sanitize(i)]
                case ExecuteMigration(s, i, _) => [Sanitize(s), Sanitize(i)])
  {
    hide Sanitize;
    assert SanitizeAll(q.Values())[1..] == SanitizeAll(q.op.Names());
  }

  /** The texts a request is validated by: the plugin's id, then the names. */
  lemma ValuesAre(q: Request)
    ensures q.Values() == match q.op
                          case PutShared(c, r, _) => [q.plugin, c, r]
                          case DropShared(c, r) => [q.plugin, c, r]
                          case PutTask(t, _) => [q.plugin, t]
                          case PutNav(i, _) => [q.plugin, i]
                          case PutMigration(s, i, _) => [q.plugin, s, i]
                          case ExecuteMigration(s, i, _) => [q.plugin, s, i]
  {
  }

  lemma NothingToRun(db: Db, sql: Sql)
    ensures RunScript(db, [], sql) == Ran(db, 0)
  {
  }

  lemma ExecuteRefines(s: State, k: Key, description: Option<string>, e: Env, ids: seq<string>)
    requires KeyedTables(s.db) && |ids| == 3
    ensures var r, text := Execute(s, ids, k, description, e), MigrationSql(s.db, ids, e);
      if text.None? then r == Response(s, Err(Internal))
      else
        var statements := SplitSqlStatements(text.value);
        var ran := RunScript(s.db, statements, e.sql);
        if statements == [] then r == Response(s, Err(BadRequest)) && ran.db == s.db
        else
          var applied := Applied(description, |statements|);
          && (KeyedTables(r.state.db) <==> KeyedTables(ran.db))
          && if ran.accepted < |statements| || !e.found || !e.written
             then r.result == Err(Internal) && r.state.db == ran.db
             else
               && r.result == Ok(MigrationRow(Row(k, applied)))
               && (KeyedTables(ran.db) ==>
                     Abstract(r.state.db)
                     == Abstract(ran.db).(migrations := Abstract(ran.db).migrations[k := applied]))
  {
    var text := MigrationSql(s.db, ids, e);
    if text.Some? {
      var statements := SplitSqlStatements(text.value);
      var ran := RunScript(s.db, statements, e.sql);
      UpsertUnique(ran.db.migrations, k, Applied(description, |statements|), e.pick);
      if KeyedTables(ran.db) {
        UpsertRefines(ran.db.migrations, k, Applied(description, |statements|), e.pick);
      }
    }
  }

  /** Reading a shared record is a lookup of the caller's own binding. */
  lemma GetSharedIsLookup(db: Db, c: Caller, plugin: string, collection: string, recordKey: string, e: Env)
    requires KeyedTables(db)
    ensures GetShared(db, c, plugin, collection, recordKey, e)
         == match AdmitMaps(ToMap(db.grants), c, true, [plugin, collection, recordKey], "db-shared-read", e.checked)
            case Err(error) => Err(error)
            case Ok(_) =>
              var k := Key(Sanitize(plugin), [Sanitize(collection), Sanitize(recordKey), c.user.value]);
              if !e.found then Err(Internal)
              else if k in ToMap(db.shared) then Ok(Row(k, ToMap(db.shared)[k])) else Err(NotFound)
  {
    var values := [plugin, collection, recordKey];
    AdmitRefines(db.grants, c, true, values, DbSharedRead, e);
    match Admit(db.grants, c, true, values, DbSharedRead, e)
    case Err(_) =>
    case Ok(ids) =>
      ValidateAllExact(values);
      var k := Key(ids[0], ids[1..] + [c.user.value]);
      assert k.rest == [Sanitize(collection), Sanitize(recordKey), c.user.value];
      ToMapKeys(db.shared, k);
      match One(db.shared, k, e.pick)
      case None =>
      case Some(i) => ToMapAt(db.shared, i);
  }

  lemma ListIsRestriction<V>(rows: seq<Row<Key, V>>, keep: Key -> bool)
    requires UniqueKeys(rows)
    ensures UniqueKeys(Select(rows, keep))
    ensures ToMap(Select(rows, keep)) == map k | k in ToMap(rows) && keep(k) :: ToMap(rows)[k]
  {
    SelectUnique(rows, keep);
    SelectRefines(rows, keep);
  }

  /** What a list answers once it is admitted or not: its rows, as a map and each once. */
  ghost predicate Lists<V>(r: Result<seq<Row<Key, V>>, Error>, admitted: Result<seq<string>, Error>, found: bool,
                           all: map<Key, V>, part: iset<Key>)
  {
    match r
    case Err(error) => error == (if admitted.Err? then admitted.error else Internal) && (admitted.Err? || !found)
    case Ok(rows) =>
      admitted.Ok? && found && UniqueKeys(rows) && ToMap(rows) == map k | k in all && k in part :: all[k]
  }

  /** A list is the part of the map under the names asked for, each binding once; it is refused as a get is. */
  lemma ListSharedIsRestriction(db: Db, c: Caller, plugin: string, collection: string, e: Env)
    requires KeyedTables(db)
    ensures Lists(ListShared(db, c, plugin, collection, e),
                  AdmitMaps(ToMap(db.grants), c, true, [plugin, collection], "db-shared-read", e.checked), e.found,
                  ToMap(db.shared),
                  iset k: Key | && k.plugin == Sanitize(plugin) && |k.rest| == 3 && k.rest[0] == Sanitize(collection)
                                && c.user == Some(k.rest[2]))
  {
    hide UniqueKeys, ToMap, Select, Admit, AdmitMaps, ValidateAll;
    AdmitRefines(db.grants, c, true, [plugin, collection], DbSharedRead, e);
    ValidateAllExact([plugin, collection]);
    if ListShared(db, c, plugin, collection, e).Ok? {
      AdmitGranted(db.grants, c, true, [plugin, collection], DbSharedRead, e);
      ListIsRestriction(db.shared, InCollection(Sanitize(plugin), Sanitize(collection), c.user.value));
    }
  }

  lemma ListTasksIsRestriction(db: Db, c: Caller, plugin: string, e: Env)
    requires KeyedTables(db)
    ensures Lists(ListTasks(db, c, plugin, e),
                  AdmitMaps(ToMap(db.grants), c, false, [plugin], "scheduler", e.checked), e.found,
                  ToMap(db.tasks), iset k: Key | k.plugin == Sanitize(plugin))
  {
    hide UniqueKeys, ToMap, Select, Admit, AdmitMaps, ValidateAll;
    AdmitRefines(db.grants, c, false, [plugin], Scheduler, e);
    ValidateAllExact([plugin]);
    if ListTasks(db, c, plugin, e).Ok? {
      AdmitGranted(db.grants, c, false, [plugin], Scheduler, e);
      ListIsRestriction(db.tasks, OfPlugin(Sanitize(plugin)));
    }
  }

  /** Without a plugin id every plugin's items are listed to any caller, and no grant is asked for. */
  lemma ListNavItemsIsRestriction(db: Db, c: Caller, plugin: Option<string>, e: Env)
    requires KeyedTables(db)
    ensures plugin.Some? ==>
        Lists(ListNavItems(db, c, plugin, e),
              AdmitMaps(ToMap(db.grants), c, false, [plugin.value], "web-api", e.checked), e.found,
              ToMap(db.navItems), iset k: Key | k.plugin == Sanitize(plugin.value))
    ensures plugin.None? ==>
        ListNavItems(db, c, plugin, e)
        == if c.user.None? && !c.pluginRuntime then Err(Unauthorized)
           else if e.found then Ok(db.navItems) else Err(Internal)
  {
    hide UniqueKeys, ToMap, Select, Admit, AdmitMaps, ValidateAll;
    if plugin.Some? {
      AdmitRefines(db.grants, c, false, [plugin.value], WebApi, e);
      ValidateAllExact([plugin.value]);
      if ListNavItems(db, c, plugin, e).Ok? {
        AdmitGranted(db.grants, c, false, [plugin.value], WebApi, e);
        ListIsRestriction(db.navItems, OfPlugin(Sanitize(plugin.value)));
      }
    }
  }

  // ---- Migrations ----

  /**
   The script of an installed migration: the file named by scope and key below the migrations directory of the
   current version's package directory.
   */
  lemma MigrationSqlIs(db: Db, ids: seq<string>, e: Env, dir: string)
    requires |ids| == 3 && (forall i :: 1 <= i < 3 ==> ids[i] != "" && '/' !in ids[i])
    requires dir != "" && dir[|dir| - 1] != '/'
    requires forall r :: r in db.versions && r.key.plugin == ids[0] ==> r.value.packagePath == dir
    ensures var path := dir + "/migrations/" + ids[1] + "/" + ids[2] + ".sql";
      MigrationSql(db, ids, e)
      == if e.loaded && ids[0] in db.registry && db.registry[ids[0]].currentVersion.Some?
            && HasKey(db.versions, Key(ids[0], [db.registry[ids[0]].currentVersion.value])) && path in e.files
         then Some(e.files[path]) else None
  {
    var path := dir + "/migrations/" + ids[1] + "/" + ids[2] + ".sql";
    assert L.JoinPath(dir, "migrations") == dir + "/migrations";
    assert L.JoinPath(dir + "/migrations", ids[1]) == dir + "/migrations/" + ids[1];
    assert L.JoinPath(dir + "/migrations/" + ids[1], ids[2] + ".sql") == path;
    if e.loaded && ids[0] in db.registry && db.registry[ids[0]].currentVersion.Some? {
      var found := One(db.versions, L.VersionKey(ids[0], db.registry[ids[0]].currentVersion.value), e.pick);
      if found.Some? {
        assert db.versions[found.value] in db.versions;
      }
    }
  }

  /** What statements make of the tables one after the other, whether accepted or not. */
  function Effects(db: Db, statements: seq<string>, sql: Sql): Db {
    if statements == [] then db
    else
      var n := |statements| - 1;
      sql(n, statements[n], Effects(db, statements[..n], sql)).db
  }

  /** The n-th statement is accepted after those before it took effect. */
  predicate Accepts(db: Db, statements: seq<string>, sql: Sql, n: nat)
    requires n < |statements|
  {
    sql(n, statements[n], Effects(db, statements[..n], sql)).ok
  }

  /** A run is the effects of all statements up to the first that is not accepted, that one included. */
  lemma {:induction false} RunIsEffects(db: Db, statements: seq<string>, sql: Sql)
    ensures var ran, n := RunScript(db, statements, sql), |statements|;
      && (forall i :: 0 <= i < ran.accepted ==> Accepts(db, statements, sql, i))
      && (ran.accepted < n ==> !Accepts(db, statements, sql, ran.accepted))
      && ran.db == Effects(db, statements[..if ran.accepted < n then ran.accepted + 1 else n], sql)
  {
    if statements != [] {
      var n := |statements| - 1;
      var before := statements[..n];
      RunIsEffects(db, before, sql);
      assert forall i :: 0 <= i <= n ==> before[..i] == statements[..i];
      assert statements[..n + 1] == statements;
      forall i | 0 <= i < n ensures Accepts(db, statements, sql, i) == Accepts(db, before, sql, i) {
        PrefixOfInit(statements, i);
      }
    }
  }

  /** An admitted request brought a caller and non-empty names, and its plugin holds a row of the grant. */
  lemma AdmitGranted(grants: Grants, c: Caller, needsUser: bool, values: seq<string>, needs: Permission, e: Env)
    requires values != [] && Admit(grants, c, needsUser, values, needs, e).Ok?
    ensures Authorized(c, needsUser) && "" !in values
    ensures Admit(grants, c, needsUser, values, needs, e) == Ok(SanitizeAll(values))
    ensures Row(GrantKey(Sanitize(values[0]), AsKey(needs)), true) in grants
  {
    ValidateAllExact(values);
    var k := GrantKey(Sanitize(values[0]), AsKey(needs));
    var i := One(grants, k, e.pick).value;
    assert grants[i] == Row(k, true);
  }

  /** With unique keys, what the map says of a key is what its row says. */
  lemma GrantIsRow(grants: Grants, k: Key)
    requires UniqueKeys(grants)
    ensures k in ToMap(grants) && ToMap(grants)[k] <==> Row(k, true) in grants
  {
    ToMapKeys(grants, k);
    if k in ToMap(grants) {
      var i :| 0 <= i < |grants| && grants[i].key == k;
      ToMapAt(grants, i);
    }
    if Row(k, true) in grants {
      var i :| 0 <= i < |grants| && grants[i] == Row(k, true);
      ToMapAt(grants, i);
    }
  }

  /**
   The permission each request asks for: none is served without a grant of it, and with one, unique keys, a
   caller of its kind and names, none is forbidden.
   */
  lemma ServeAsks(s: State, q: Request, e: Env)
    ensures var r, c := Serve(s, q, e).result, q.caller;
      var (user, asked) := match q.op
                           case PutShared(_, _, _) => (true, "db-shared-write")
                           case DropShared(_, _) => (true, "db-shared-write")
                           case PutTask(_, _) => (false, "scheduler")
                           case PutNav(_, _) => (false, "web-api")
                           case PutMigration(_, _, _) => (false, "db-sqlite")
                           case ExecuteMigration(_, _, _) => (false, "db-sqlite");
      var authorized := c.user.Some? || (c.pluginRuntime && !user);
      var granted := Row(Key(Sanitize(q.plugin), [asked]), true) in s.db.grants;
      && (r == Err(Unauthorized) <==> !authorized)
      && (r.Ok? ==> granted && "" !in q.Values())
      && (UniqueKeys(s.db.grants) ==>
            (r == Err(Forbidden) <==> authorized && "" !in q.Values() && !(e.checked && granted)))
  {
    hide Execute, Upsert, Delete, SanitizeAll, ValidateAll, Admit, UniqueKeys, ToMap;
    ValidateAllExact(q.Values());
    assert q.Values()[0] == q.plugin;
    var admitted := Admit(s.db.grants, q.caller, q.op.NeedsUser(), q.Values(), q.op.Needs(), e);
    var k := GrantKey(Sanitize(q.plugin), AsKey(q.op.Needs()));
    AdmitErrors(s.db.grants, q.caller, q.op.NeedsUser(), q.Values(), q.op.Needs(), e);
    if admitted.Ok? {
      AdmitGranted(s.db.grants, q.caller, q.op.NeedsUser(), q.Values(), q.op.Needs(), e);
      if q.op.ExecuteMigration? {
        ExecuteNeverForbids(s, q, e);
      }
    }
    if UniqueKeys(s.db.grants) {
      AdmitRefines(s.db.grants, q.caller, q.op.NeedsUser(), q.Values(), q.op.Needs(), e);
      GrantIsRow(s.db.grants, k);
    }
  }

  lemma AdmitErrors(grants: Grants, c: Caller, needsUser: bool, values: seq<string>, needs: Permission, e: Env)
    requires values != []
    ensures Admit(grants, c, needsUser, values, needs, e) == Err(Unauthorized) <==> !Authorized(c, needsUser)
  {
    ValidateAllExact(values);
  }

  lemma ExecuteNeverForbids(s: State, q: Request, e: Env)
    requires q.op.ExecuteMigration?
    ensures var r := Execute(s, SanitizeAll(q.Values()), q.RowKey(SanitizeAll(q.Values())), q.op.description, e).result;
      r.Err? ==> r.error in {BadRequest, Internal}
  {
  }

  /** What it takes for a request to give statements to the database. */
  ghost predicate MayRunScript(db: Db, q: Request, e: Env) {
    && q.op.ExecuteMigration? && Authorized(q.caller, false) && "" !in q.Values()
    && Row(GrantKey(Sanitize(q.plugin), "db-sqlite"), true) in db.grants
    && SqlOf(db, q, e).Some? && SplitSqlStatements(SqlOf(db, q, e).value) != []
  }

  lemma ScriptIsGuarded(db: Db, q: Request, e: Env)
    requires ScriptOf(db, q, e) != []
    ensures MayRunScript(db, q, e)
  {
    hide Admit, MigrationSql;
    AdmitGranted(db.grants, q.caller, q.op.NeedsUser(), q.Values(), q.op.Needs(), e);
  }

  lemma ExecuteRuns(s: State, q: Request, e: Env)
    requires q.op.ExecuteMigration?
    ensures var r, script := Serve(s, q, e), ScriptOf(s.db, q, e);
      var ran, k := RunScript(s.db, script, e.sql), q.RowKey(SanitizeAll(q.Values()));
      && r.state.executed == s.executed + script[..ran.accepted]
      && (r.result.Ok? <==> script != [] && ran.accepted == |script| && e.found && e.written)
      && if r.result.Ok? then
           var applied := Applied(q.op.description, |script|);
           && r.result.value == MigrationRow(Row(k, applied))
           && r.state.db == ran.db.(migrations := Upsert(ran.db.migrations, k, applied, e.pick))
         else r.state.db == ran.db
  {
    hide SplitSqlStatements, MigrationSql, ValidateAll, Upsert;
    ValidateAllExact(q.Values());
    assert s.executed + [] == s.executed;
  }

  /**
   An execute request gives the database well-formed statements that say exactly what the script says, one after
   the other, each on the tables as those before it left them. All accepted, their number is recorded if the row
   is written; otherwise the request fails, and what was executed, the rejected statement's part included, stays.
   */
  lemma MigrationRuns(s: State, q: Request, e: Env)
    requires q.op.ExecuteMigration?
    ensures var r, script := Serve(s, q, e), ScriptOf(s.db, q, e);
      && (script != [] ==> && MayRunScript(s.db, q, e)
                           && Significant(Concat(script)) == Significant(SqlOf(s.db, q, e).value))
      && (forall stmt :: stmt in script ==> WellFormedStatement(stmt))
      && s.executed <= r.state.executed
      && var ran := r.state.executed[|s.executed|..];
         && ran <= script
         && (forall i :: 0 <= i < |ran| ==> Accepts(s.db, script, e.sql, i))
         && (|ran| < |script| ==> !Accepts(s.db, script, e.sql, |ran|))
         && (r.result.Ok? <==> script != [] && ran == script && e.found && e.written)
         && var tried := Effects(s.db, script[..if |ran| < |script| then |ran| + 1 else |script|], e.sql);
            if r.result.Err? then r.state.db == tried
            else
              var k, applied := q.RowKey(SanitizeAll(q.Values())), Applied(q.op.description, |ran|);
              && r.result.value == MigrationRow(Row(k, applied))
              && r.state.db == tried.(migrations := Upsert(tried.migrations, k, applied, e.pick))
  {
    hide WellFormedStatement, Significant, Concat, SplitSqlStatements, MigrationSql, Execute, RunScript, Effects,
      Accepts, Upsert, Admit, Serve;
    var script := ScriptOf(s.db, q, e);
    ExecuteRuns(s, q, e);
    RunIsEffects(s.db, script, e.sql);
    if script != [] {
      ScriptIsGuarded(s.db, q, e);
      SplitPreservesText(SqlOf(s.db, q, e).value);
      SplitWellFormed(SqlOf(s.db, q, e).value);
    }
    var ran := Serve(s, q, e).state.executed[|s.executed|..];
    assert ran == script[..RunScript(s.db, script, e.sql).accepted];
  }

  /** What a migration is found and admitted by: registry, version rows and grants. */
  predicate SameInstallation(a: Db, b: Db) {
    a.registry == b.registry && a.versions == b.versions && a.grants == b.grants
  }

  /**
   Nothing asks whether a migration was applied before: repeating a successful request whose statements left
   registry, versions and grants alone gives all of them to the database again, from the first.
   */
  lemma MigrationRunsAgain(s: State, q: Request, e: Env)
    requires q.op.ExecuteMigration? && Serve(s, q, e).result.Ok?
    requires SameInstallation(Serve(s, q, e).state.db, s.db)
    ensures var once, script := Serve(s, q, e), ScriptOf(s.db, q, e); var again := Serve(once.state, q, e);
      && script != [] && once.state.executed == s.executed + script
      && var ran := RunScript(once.state.db, script, e.sql);
         && again.state.executed == s.executed + script + script[..ran.accepted]
         && (ran.accepted == |script| ==> again.result == once.result)
  {
    hide SplitSqlStatements, Serve, Upsert, Admit, RunScript;
    var once := Serve(s, q, e).state;
    ExecuteRuns(s, q, e);
    SameScript(s.db, once.db, q, e);
    ExecuteRuns(once, q, e);
    var script := ScriptOf(s.db, q, e);
    assert script[..|script|] == script;
  }

  lemma SameScript(a: Db, b: Db, q: Request, e: Env)
    requires SameInstallation(a, b)
    ensures ScriptOf(a, q, e) == ScriptOf(b, q, e)
  {
    hide Admit, SplitSqlStatements;
  }

  // ---- The handlers ----

  lemma {:induction false} RunStops(db: Db, statements: seq<string>, j: nat, sql: Sql)
    requires j <= |statements| && RunScript(db, statements[..j], sql).accepted < j
    ensures RunScript(db, statements, sql) == RunScript(db, statements[..j], sql)
  {
    if j == |statements| {
      assert statements[..j] == statements;
    } else {
      var n := |statements| - 1;
      assert statements[..n][..j] == statements[..j];
      RunStops(db, statements[..n], j, sql);
    }
  }

  class HostBroker {
    var db: Db
    var executed: seq<string>

    constructor (db: Db)
      ensures Now() == State(db, [])
    {
      this.db := db;
      executed := [];
    }

    function Now(): State
      reads this
    {
      State.State(db, executed)
    }

    method UpsertSharedRecord(caller: Caller, plugin: string, collection: string, recordKey: string, payload: string,
                              e: Env)
      returns (r: Result<Answer, Error>)
      modifies this`db
      ensures Response(Now(), r)
          == Serve(old(Now()), Request(caller, plugin, PutShared(collection, recordKey, payload)), e)
    {
      ghost var q := Request(caller, plugin, PutShared(collection, recordKey, payload));
      assert q.Values() == [plugin, collection, recordKey];
      var ids := Admit(db.grants, caller, true, [plugin, collection, recordKey], DbSharedWrite, e);
      if ids.Err? {
        return Err(ids.error);
      }
      ValidateAllExact([plugin, collection, recordKey]);
      var k := Key(ids.value[0], ids.value[1..] + [caller.user.value]);
      if !e.found || !e.written {
        return Err(Internal);
      }
      var existing := One(db.shared, k, e.pick);
      if existing.Some? {
        db := db.(shared := db.shared[existing.value := Row(k, payload)]);
      } else {
        db := db.(shared := db.shared + [Row(k, payload)]);
      }
      r := Ok(SharedRow(Row(k, payload)));
    }

    method DeleteSharedRecord(caller: Caller, plugin: string, collection: string, recordKey: string, e: Env)
      returns (r: Result<Answer, Error>)
      modifies this`db
      ensures Response(Now(), r) == Serve(old(Now()), Request(caller, plugin, DropShared(collection, recordKey)), e)
    {
      ghost var q := Request(caller, plugin, DropShared(collection, recordKey));
      assert q.Values() == [plugin, collection, recordKey];
      var ids := Admit(db.grants, caller, true, [plugin, collection, recordKey], DbSharedWrite, e);
      if ids.Err? {
        return Err(ids.error);
      }
      ValidateAllExact([plugin, collection, recordKey]);
      var k := Key(ids.value[0], ids.value[1..] + [caller.user.value]);
      if !e.written {
        return Err(Internal);
      }
      r := Ok(Deleted(HasRow(db.shared, k)));
      db := db.(shared := Delete(db.shared, SameKey(k)));
    }

    method UpsertTask(caller: Caller, plugin: string, taskKey: string, task: Task, e: Env)
      returns (r: Result<Answer, Error>)
      modifies this`db
      ensures Response(Now(), r) == Serve(old(Now()), Request(caller, plugin, PutTask(taskKey, task)), e)
    {
      ghost var q := Request(caller, plugin, PutTask(taskKey, task));
      assert q.Values() == [plugin, taskKey];
      var ids := Admit(db.grants, caller, false, [plugin, taskKey], Scheduler, e);
      if ids.Err? {
        return Err(ids.error);
      }
      ValidateAllExact([plugin, taskKey]);
      var k := Key(ids.value[0], [ids.value[1]]);
      assert k == q.RowKey(ids.value);
      if !e.found || !e.written {
        return Err(Internal);
      }
      var existing := One(db.tasks, k, e.pick);
      if existing.Some? {
        db := db.(tasks := db.tasks[existing.value := Row(k, task)]);
      } else {
        db := db.(tasks := db.tasks + [Row(k, task)]);
      }
      r := Ok(TaskRow(Row(k, task)));
    }

    method UpsertNavItem(caller: Caller, plugin: string, itemKey: string, item: NavItem, e: Env)
      returns (r: Result<Answer, Error>)
      modifies this`db
      ensures Response(Now(), r) == Serve(old(Now()), Request(caller, plugin, PutNav(itemKey, item)), e)
    {
      ghost var q := Request(caller, plugin, PutNav(itemKey, item));
      assert q.Values() == [plugin, itemKey];
      var ids := Admit(db.grants, caller, false, [plugin, itemKey], WebApi, e);
      if ids.Err? {
        return Err(ids.error);
      }
      ValidateAllExact([plugin, itemKey]);
      var k := Key(ids.value[0], [ids.value[1]]);
      assert k == q.RowKey(ids.value);
      if !e.found || !e.written {
        return Err(Internal);
      }
      var existing := One(db.navItems, k, e.pick);
      if existing.Some? {
        db := db.(navItems := db.navItems[existing.value := Row(k, item)]);
      } else {
        db := db.(navItems := db.navItems + [Row(k, item)]);
      }
      r := Ok(NavRow(Row(k, item)));
    }

    /** The two migration requests write their row the same way. */
    method WriteMigrationState(k: Key, migration: MigrationState, e: Env) returns (r: Result<Answer, Error>)
      modifies this`db
      ensures if e.found && e.written
              then r == Ok(MigrationRow(Row(k, migration)))
                && db == old(db).(migrations := Upsert(old(db).migrations, k, migration, e.pick))
              else r == Err(Internal) && db == old(db)
    {
      if !e.found || !e.written {
        return Err(Internal);
      }
      var existing := One(db.migrations, k, e.pick);
      if existing.Some? {
        db := db.(migrations := db.migrations[existing.value := Row(k, migration)]);
      } else {
        db := db.(migrations := db.migrations + [Row(k, migration)]);
      }
      r := Ok(MigrationRow(Row(k, migration)));
    }

    method UpsertMigrationState(caller: Caller, plugin: string, scope: string, migrationKey: string, text: string,
                                e: Env)
      returns (r: Result<Answer, Error>)
      modifies this`db
      ensures Response(Now(), r)
          == Serve(old(Now()), Request(caller, plugin, PutMigration(scope, migrationKey, text)), e)
    {
      ghost var q := Request(caller, plugin, PutMigration(scope, migrationKey, text));
      assert q.Values() == [plugin, scope, migrationKey];
      var ids := Admit(db.grants, caller, false, [plugin, scope, migrationKey], DbSqlite, e);
      if ids.Err? {
        return Err(ids.error);
      }
      ValidateAllExact([plugin, scope, migrationKey]);
      var k := Key(ids.value[0], ids.value[1..]);
      assert k == q.RowKey(ids.value);
      r := WriteMigrationState(k, StateJson(text), e);
    }

    /** Executes the statements one after the other, on this very database, up to the first that is rejected. */
    method ExecuteStatements(statements: seq<string>, sql: Sql) returns (ok: bool)
      modifies this
      ensures var ran := RunScript(old(db), statements, sql);
        && db == ran.db && executed == old(executed) + statements[..ran.accepted]
        && (ok <==> ran.accepted == |statements|)
    {
      var i := 0;
      while i < |statements|
        invariant i <= |statements|
        invariant RunScript(old(db), statements[..i], sql) == Ran(db, i)
        invariant executed == old(executed) + statements[..i]
      {
        assert statements[..i + 1][..i] == statements[..i];
        var r := sql(i, statements[i], db);
        db := r.db;
        if !r.ok {
          RunStops(old(db), statements, i + 1, sql);
          return false;
        }
        executed := executed + [statements[i]];
        i := i + 1;
      }
      assert statements[..|statements|] == statements;
      ok := true;
    }

    method RunMigration(ids: seq<string>, k: Key, description: Option<string>, e: Env)
      returns (r: Result<Answer, Error>)
      requires |ids| == 3
      modifies this
      ensures Response(Now(), r) == Execute(old(Now()), ids, k, description, e)
    {
      var sql := MigrationSql(db, ids, e);
      if sql.None? {
        return Err(Internal);
      }
      var statements := SplitSqlStatements(sql.value);
      if statements == [] {
        return Err(BadRequest);
      }
      var ok := ExecuteStatements(statements, e.sql);
      if !ok {
        return Err(Internal);
      }
      r := WriteMigrationState(k, Applied(description, |statements|), e);
    }

    method ExecuteMigrationScript(caller: Caller, plugin: string, scope: string, migrationKey: string,
                                  description: Option<string>, e: Env)
      returns (r: Result<Answer, Error>)
      modifies this
      ensures Response(Now(), r)
          == Serve(old(Now()), Request(caller, plugin, ExecuteMigration(scope, migrationKey, description)), e)
    {
      ghost var q := Request(caller, plugin, ExecuteMigration(scope, migrationKey, description));
      assert q.Values() == [plugin, scope, migrationKey];
      var ids := Admit(db.grants, caller, false, [plugin, scope, migrationKey], DbSqlite, e);
      if ids.Err? {
        return Err(ids.error);
      }
      ValidateAllExact([plugin, scope, migrationKey]);
      var k := Key(ids.value[0], ids.value[1..]);
      assert k == q.RowKey(ids.value);
      r := RunMigration(ids.value, k, description, e);
    }
  }
}
