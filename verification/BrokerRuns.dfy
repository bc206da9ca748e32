/**
 Runs of lifecycle and broker requests together: what the tables are then as maps, who can change whose rows,
 and what an uninstall leaves. A migration's statements may do anything to the tables, so these results say
 where such a migration comes in.
 */
module BrokerRuns {
  import opened Wrappers
  import opened Text
  import opened Tables
  import opened Database
  import opened Permissions
  import opened SqlScript
  import opened Sequences
  import opened Broker
  import L = Lifecycle

  datatype Event = LifecycleEvent(ev: L.Event) | BrokerEvent(q: Request, e: Env)

  datatype World = World(host: L.Host, executed: seq<string>)

  const START: World := World(L.FRESH, [])

  /** What the broker makes of a request. */
  function Served(w: World, q: Request, e: Env): Response {
    Serve(State(w.host.db, w.executed), q, e)
  }

  function Step(root: string, w: World, ev: Event): World {
    match ev
    case LifecycleEvent(l) => w.(host := L.Apply(root, w.host, l).host)
    case BrokerEvent(q, e) =>
      var next := Served(w, q, e).state;
      World(w.host.(db := next.db), next.executed)
  }

  function Run(root: string, events: seq<Event>): World {
    if |events| == 0 then START
    else Step(root, Run(root, events[..|events| - 1]), events[|events| - 1])
  }

  // ---- The tables as maps ----

  function Without<V>(m: map<Key, V>, p: string, done: bool): map<Key, V> {
    if done then map k | k in m && k.plugin != p :: m[k] else m
  }

  /** What a lifecycle request does to the maps. */
  function LifecycleMaps(m: Maps, s: L.Host, ev: L.Event): Maps {
    match ev
    case RegisterEvent(p, _, permissions, e, _) =>
      var items := DefaultPermissionGrants(permissions);
      if e.prepared && e.loaded && e.rowWritten && e.versionInserted
      then m.(grants := m.grants + ItemsMap(p, if e.grantWrites >= |items| then items else items[..e.grantWrites]))
      else m
    case StartEvent(p, e, pick) =>
      if L.StartGuard(s, p, e, pick).Ok? && e.launch.Some? && e.navItem.Some? && e.navWritten
      then m.(navItems := m.navItems[Key(p, ["main"]) := e.navItem.value]) else m
    case UninstallEvent(p, e) =>
      if L.UninstallProceeds(s, p, e)
      then Maps(Without(m.grants, p, e.deletes.grants), Without(m.tasks, p, e.deletes.tasks),
                Without(m.navItems, p, e.deletes.navItems), Without(m.shared, p, e.deletes.shared),
                Without(m.migrations, p, e.deletes.migrations))
      else m
    case GrantsEvent(p, items, _) => m.(grants := m.grants + ItemsMap(p, items))
    case _ => m
  }

  lemma DeletePluginRefines<V>(rows: seq<Row<Key, V>>, p: string, done: bool)
    requires UniqueKeys(rows)
    ensures UniqueKeys(DeletePlugin(rows, p, done))
        && ToMap(DeletePlugin(rows, p, done)) == Without(ToMap(rows), p, done)
  {
    DeleteRefines(rows, OfPlugin(p));
  }

  lemma RegisterRefines(root: string, s: L.Host, p: string, v: string, permissions: seq<Permission>, e: L.RegisterEnv,
                        pick: nat)
    requires KeyedTables(s.db)
    ensures var next := L.Register(s, root, p, v, permissions, e, pick).host.db;
      KeyedTables(next)
          && Abstract(next) == LifecycleMaps(Abstract(s.db), s, L.RegisterEvent(p, v, permissions, e, pick))
  {
    var items := DefaultPermissionGrants(permissions);
    ReplaceGrantsRefines(s.db.grants, p, if e.grantWrites >= |items| then items else items[..e.grantWrites], pick);
  }

  /** The broker's tables and the grants are the same rows. */
  predicate SameTables(a: Db, b: Db) {
    && a.grants == b.grants && a.tasks == b.tasks && a.navItems == b.navItems
    && a.shared == b.shared && a.migrations == b.migrations
  }

  lemma MaterializeKeepsTables(s: L.Host, p: string, v: string, m: L.MaterializeEnv, pick: nat)
    ensures SameTables(L.Materialize(s, p, v, m, pick).host.db, s.db)
  {
  }

  lemma StopKeepsTables(s: L.Host, p: string, e: L.StopEnv)
    ensures SameTables(L.Stop(s, p, e).host.db, s.db)
  {
  }

  lemma SameTablesSameMaps(a: Db, b: Db)
    requires SameTables(a, b)
    ensures Abstract(a) == Abstract(b) && (KeyedTables(a) <==> KeyedTables(b))
  {
    hide ToMap, UniqueKeys;
  }

  lemma StartTables(s: L.Host, p: string, e: L.StartEnv, pick: nat)
    ensures var next, put := L.Start(s, p, e, pick).host.db, L.StartGuard(s, p, e, pick).Ok? && e.launch.Some?;
      SameTables(next, if put then L.UpsertNav(s.db, p, e.navItem, e.navWritten, pick) else s.db)
  {
    hide L.StartGuard, Upsert;
  }

  lemma NavRefines(db: Db, p: string, item: Option<NavItem>, written: bool, pick: nat)
    requires KeyedTables(db)
    ensures var next := L.UpsertNav(db, p, item, written, pick);
      && KeyedTables(next)
      && Abstract(next) == if item.Some? && written
                           then Abstract(db).(navItems := Abstract(db).navItems[Key(p, ["main"]) := item.value])
                           else Abstract(db)
  {
    if item.Some? {
      UpsertRefines(db.navItems, Key(p, ["main"]), item.value, pick);
    }
  }

  lemma StartRefines(s: L.Host, p: string, e: L.StartEnv, pick: nat)
    requires KeyedTables(s.db)
    ensures var next := L.Start(s, p, e, pick).host.db;
      KeyedTables(next) && Abstract(next) == LifecycleMaps(Abstract(s.db), s, L.StartEvent(p, e, pick))
  {
    hide L.Start, L.StartGuard, L.UpsertNav, KeyedTables, Abstract, SameTables;
    var put := L.StartGuard(s, p, e, pick).Ok? && e.launch.Some?;
    StartTables(s, p, e, pick);
    NavRefines(s.db, p, e.navItem, e.navWritten, pick);
    SameTablesSameMaps(L.Start(s, p, e, pick).host.db,
                       if put then L.UpsertNav(s.db, p, e.navItem, e.navWritten, pick) else s.db);
  }

  lemma UninstallRefines(s: L.Host, p: string, e: L.UninstallEnv)
    requires KeyedTables(s.db)
    ensures var next := L.Uninstall(s, p, e).host.db;
      KeyedTables(next) && Abstract(next) == LifecycleMaps(Abstract(s.db), s, L.UninstallEvent(p, e))
  {
    DeletePluginRefines(s.db.grants, p, e.deletes.grants);
    DeletePluginRefines(s.db.tasks, p, e.deletes.tasks);
    DeletePluginRefines(s.db.navItems, p, e.deletes.navItems);
    DeletePluginRefines(s.db.shared, p, e.deletes.shared);
    DeletePluginRefines(s.db.migrations, p, e.deletes.migrations);
  }

  lemma LifecycleRefines(root: string, s: L.Host, ev: L.Event)
    requires KeyedTables(s.db)
    ensures var next := L.Apply(root, s, ev).host.db;
      KeyedTables(next) && Abstract(next) == LifecycleMaps(Abstract(s.db), s, ev)
  {
    hide L.Register, L.Materialize, L.Start, L.Stop, L.Uninstall, KeyedTables;
    match ev
    case RegisterEvent(p, v, permissions, e, pick) => RegisterRefines(root, s, p, v, permissions, e, pick);
    case MaterializeEvent(p, v, e, pick) =>
      MaterializeKeepsTables(s, p, v, e, pick);
      SameTablesSameMaps(L.Materialize(s, p, v, e, pick).host.db, s.db);
    case StartEvent(p, e, pick) => StartRefines(s, p, e, pick);
    case StopEvent(p, e) =>
      StopKeepsTables(s, p, e);
      SameTablesSameMaps(L.Stop(s, p, e).host.db, s.db);
    case UninstallEvent(p, e) => UninstallRefines(s, p, e);
    case GrantsEvent(p, items, pick) => GrantsRefines(s, p, items, pick);
    case RestartEvent =>
  }

  lemma GrantsRefines(s: L.Host, p: string, items: seq<GrantItem>, pick: nat)
    requires KeyedTables(s.db)
    ensures var next := s.db.(grants := ReplaceGrants(s.db.grants, p, items, pick));
      && KeyedTables(next)
      && Abstract(next) == Abstract(s.db).(grants := Abstract(s.db).grants + ItemsMap(p, items))
  {
    ReplaceGrantsRefines(s.db.grants, p, items, pick);
  }

  function StepMaps(m: Maps, w: World, ev: Event): Maps {
    match ev
    case LifecycleEvent(l) => LifecycleMaps(m, w.host, l)
    case BrokerEvent(q, e) => ServeMaps(m, q, e, ScriptMaps(w.host.db, q, e)).maps
  }

  /**
   The maps after a run, computed from maps alone but for the guards on registry, versions and handles, and for
   what the statements of migrations do.
   */
  function RunMaps(root: string, events: seq<Event>): Maps {
    if |events| == 0 then Maps(map[], map[], map[], map[], map[])
    else
      var before := events[..|events| - 1];
      StepMaps(RunMaps(root, before), Run(root, before), events[|events| - 1])
  }

  /** If the event gives statements to the database, they leave one row per key. */
  ghost predicate ScriptKeepsKeys(w: World, ev: Event) {
    match ev
    case LifecycleEvent(_) => true
    case BrokerEvent(q, e) => KeyedTables(Scripted(w.host.db, q, e))
  }

  lemma StepRefines(root: string, w: World, ev: Event)
    requires KeyedTables(w.host.db)
    ensures var next := Step(root, w, ev).host.db;
      && (KeyedTables(next) <==> ScriptKeepsKeys(w, ev))
      && (KeyedTables(next) ==> Abstract(next) == StepMaps(Abstract(w.host.db), w, ev))
  {
    hide KeyedTables, Abstract, Serve, ServeMaps, ScriptMaps, Scripted, L.Apply, LifecycleMaps;
    match ev
    case LifecycleEvent(l) => LifecycleRefines(root, w.host, l);
    case BrokerEvent(q, e) => ServeRefines(State(w.host.db, w.executed), q, e);
  }

  ghost predicate KeyedThroughout(root: string, events: seq<Event>) {
    forall i :: 0 <= i <= |events| ==> KeyedTables(Run(root, events[..i]).host.db)
  }

  ghost predicate ScriptsKeepKeys(root: string, events: seq<Event>) {
    forall i :: 0 <= i < |events| ==> ScriptKeepsKeys(Run(root, events[..i]), events[i])
  }

  /** Where each state is good exactly if the step to it was, all states are good exactly if all steps were. */
  lemma GoodThroughout(good: seq<bool>, steps: seq<bool>)
    requires |good| == |steps| + 1 && good[0]
    requires forall i :: 0 <= i < |steps| && good[i] ==> (good[i + 1] <==> steps[i])
    ensures (forall i :: 0 <= i < |good| ==> good[i]) <==> (forall i :: 0 <= i < |steps| ==> steps[i])
  {
    if forall i :: 0 <= i < |steps| ==> steps[i] {
      forall i | 0 <= i < |good| ensures good[i] {
        GoodUpTo(good, steps, i);
      }
    } else {
      var i :| 0 <= i < |steps| && !steps[i];
      assert !(good[i] && good[i + 1]);
    }
  }

  lemma {:induction false} GoodUpTo(good: seq<bool>, steps: seq<bool>, i: nat)
    requires |good| == |steps| + 1 && good[0] && i < |good|
    requires forall j :: 0 <= j < |steps| && good[j] ==> (good[j + 1] <==> steps[j])
    requires forall j :: 0 <= j < |steps| ==> steps[j]
    ensures good[i]
  {
    if i > 0 {
      GoodUpTo(good, steps, i - 1);
      assert steps[i - 1];
    }
  }

  lemma RunOfNothing(root: string)
    ensures Run(root, []) == START
  {
  }

  lemma RunNext(root: string, events: seq<Event>, ev: Event)
    ensures Run(root, events + [ev]) == Step(root, Run(root, events), ev)
  {
    hide Step;
    assert (events + [ev])[..|events|] == events;
  }

  lemma RunPrefix(root: string, events: seq<Event>, i: nat)
    requires i < |events|
    ensures Run(root, events[..i + 1]) == Step(root, Run(root, events[..i]), events[i])
  {
    hide Step;
    assert events[..i + 1][..i] == events[..i];
  }

  lemma KeysThroughout(root: string, events: seq<Event>)
    ensures KeyedThroughout(root, events) <==> ScriptsKeepKeys(root, events)
  {
    hide Run, Step, KeyedTables, ScriptKeepsKeys, StepMaps, Abstract;
    var keyed := seq(|events| + 1, i requires 0 <= i <= |events| => KeyedTables(Run(root, events[..i]).host.db));
    var kept := seq(|events|, i requires 0 <= i < |events| => ScriptKeepsKeys(Run(root, events[..i]), events[i]));
    forall i | 0 <= i < |events| && keyed[i] ensures keyed[i + 1] <==> kept[i] {
      RunPrefix(root, events, i);
      StepRefines(root, Run(root, events[..i]), events[i]);
    }
    RunOfNothing(root);
    assert events[..0] == [];
    StartIsKeyed();
    GoodThroughout(keyed, kept);
    assert forall i :: 0 <= i <= |events| ==> keyed[i] == KeyedTables(Run(root, events[..i]).host.db);
    assert forall i :: 0 <= i < |events| ==> kept[i] == ScriptKeepsKeys(Run(root, events[..i]), events[i]);
  }

  lemma StartIsKeyed()
    ensures KeyedTables(START.host.db) && L.Consistent(START.host)
    ensures Abstract(START.host.db) == Maps(map[], map[], map[], map[], map[])
  {
  }

  lemma {:induction false} MapsOfRun(root: string, events: seq<Event>)
    requires KeyedThroughout(root, events)
    ensures Abstract(Run(root, events).host.db) == RunMaps(root, events)
  {
    if |events| > 0 {
      hide KeyedTables, Step, StepMaps, Abstract;
      var before := events[..|events| - 1];
      assert forall i :: 0 <= i <= |before| ==> before[..i] == events[..i];
      assert events[..|events|] == events;
      MapsOfRun(root, before);
      StepRefines(root, Run(root, before), events[|events| - 1]);
    }
  }

  /**
   Over every run of lifecycle and broker requests the tables hold one row per key throughout exactly if the
   statements of every migration leave them so, and then they refine the maps.
   */
  lemma RunRefines(root: string, events: seq<Event>)
    ensures KeyedThroughout(root, events) <==> ScriptsKeepKeys(root, events)
    ensures KeyedThroughout(root, events) ==> Abstract(Run(root, events).host.db) == RunMaps(root, events)
  {
    hide Run, RunMaps, KeyedThroughout, ScriptsKeepKeys, Abstract;
    KeysThroughout(root, events);
    if KeyedThroughout(root, events) {
      MapsOfRun(root, events);
    }
  }

  /** The statements of the script act on other tables than these. */
  ghost predicate LeavesTables(sql: Sql) {
    forall n, statement, db :: SameTables(sql(n, statement, db).db, db)
  }

  lemma {:induction false} ScriptLeavesTables(db: Db, statements: seq<string>, sql: Sql)
    requires LeavesTables(sql)
    ensures SameTables(RunScript(db, statements, sql).db, db)
  {
    if statements != [] {
      ScriptLeavesTables(db, statements[..|statements| - 1], sql);
    }
  }

  lemma OwnTablesKeepKeys(w: World, ev: Event)
    requires KeyedTables(w.host.db) && (ev.BrokerEvent? ==> LeavesTables(ev.e.sql))
    ensures ScriptKeepsKeys(w, ev)
  {
    hide KeyedTables, LeavesTables, SameTables, RunScript;
    if ev.BrokerEvent? {
      var statements := ScriptOf(w.host.db, ev.q, ev.e);
      ScriptLeavesTables(w.host.db, statements, ev.e.sql);
      SameTablesSameMaps(RunScript(w.host.db, statements, ev.e.sql).db, w.host.db);
    }
  }

  /** So it is in particular when migrations keep to tables of their own. */
  lemma {:induction false} OwnTablesRefine(root: string, events: seq<Event>)
    requires forall ev :: ev in events && ev.BrokerEvent? ==> LeavesTables(ev.e.sql)
    ensures KeyedThroughout(root, events) && Abstract(Run(root, events).host.db) == RunMaps(root, events)
  {
    hide KeyedTables, Abstract, Step, StepMaps, ScriptKeepsKeys, LeavesTables;
    assert events[..|events|] == events;
    if |events| == 0 {
      StartIsKeyed();
    } else {
      var n := |events| - 1;
      assert events[n] in events;
      OwnTablesRefine(root, events[..n]);
      assert forall i :: 0 <= i <= n ==> events[..n][..i] == events[..i];
      OwnTablesKeepKeys(Run(root, events[..n]), events[n]);
      StepRefines(root, Run(root, events[..n]), events[n]);
    }
  }

  // ---- Handle, status and enabled in these runs ----

  /** A lifecycle request is faultless as before; a migration's statements must leave handle and row in agreement. */
  ghost predicate Faultless(w: World, ev: Event) {
    match ev
    case LifecycleEvent(l) => L.Faultless(w.host, l)
    case BrokerEvent(q, e) => L.Consistent(w.host.(db := Scripted(w.host.db, q, e)))
  }

  /** A request other than a migration that succeeds writes the row it names, in one table, and no more. */
  lemma ServeWritesOneRow(s: State, q: Request, e: Env)
    requires !q.op.ExecuteMigration?
    ensures var r, k, db := Serve(s, q, e), q.RowKey(SanitizeAll(q.Values())), s.db;
      if r.result.Err? then r.state == s
      else
        && Admit(s.db.grants, q.caller, q.op.NeedsUser(), q.Values(), q.op.Needs(), e).Ok?
        && r.state.executed == s.executed
        && match q.op
           case PutShared(_, _, payload) => r.state.db == db.(shared := Upsert(db.shared, k, payload, e.pick))
           case DropShared(_, _) => r.state.db == db.(shared := Delete(db.shared, SameKey(k)))
           case PutTask(_, task) => r.state.db == db.(tasks := Upsert(db.tasks, k, task, e.pick))
           case PutNav(_, item) => r.state.db == db.(navItems := Upsert(db.navItems, k, item, e.pick))
           case PutMigration(_, _, text) =>
             r.state.db == db.(migrations := Upsert(db.migrations, k, StateJson(text), e.pick))
           case ExecuteMigration(_, _, _) => true
  {
    hide Upsert, Delete, ValidateAll;
    ValidateAllExact(q.Values());
  }

  lemma ServedRegistry(w: World, q: Request, e: Env)
    ensures Served(w, q, e).state.db.registry == Scripted(w.host.db, q, e).registry
  {
    hide Upsert, Delete, ScriptOf, RunScript, Serve, Admit;
    var s := State(w.host.db, w.executed);
    if q.op.ExecuteMigration? {
      ExecuteRuns(s, q, e);
    } else {
      ServeWritesOneRow(s, q, e);
      NothingToRun(s.db, e.sql);
      NoMigrationNoScript(s.db, q, e);
    }
  }

  lemma NoMigrationNoScript(db: Db, q: Request, e: Env)
    requires !q.op.ExecuteMigration?
    ensures ScriptOf(db, q, e) == []
  {
  }

  lemma StepConsistent(root: string, w: World, ev: Event)
    requires L.Consistent(w.host)
    ensures L.Consistent(Step(root, w, ev).host) <==> Faultless(w, ev)
  {
    hide L.Apply, L.Faultless, Served, Scripted;
    match ev
    case LifecycleEvent(l) => L.StepConsistent(root, w.host, l);
    case BrokerEvent(q, e) => ServedRegistry(w, q, e);
  }

  /**
   The agreement of handles and rows along runs with broker requests: no such request disturbs it but a migration
   whose statements do.
   */
  lemma RunConsistent(root: string, events: seq<Event>)
    ensures (forall i :: 0 <= i <= |events| ==> L.Consistent(Run(root, events[..i]).host))
            <==> (forall i :: 0 <= i < |events| ==> Faultless(Run(root, events[..i]), events[i]))
  {
    hide Run, Step, L.Consistent, Faultless;
    var good := seq(|events| + 1, i requires 0 <= i <= |events| => L.Consistent(Run(root, events[..i]).host));
    var steps := seq(|events|, i requires 0 <= i < |events| => Faultless(Run(root, events[..i]), events[i]));
    forall i | 0 <= i < |events| && good[i] ensures good[i + 1] <==> steps[i] {
      RunPrefix(root, events, i);
      StepConsistent(root, Run(root, events[..i]), events[i]);
    }
    RunOfNothing(root);
    assert events[..0] == [];
    StartIsKeyed();
    GoodThroughout(good, steps);
    assert forall i :: 0 <= i <= |events| ==> good[i] == L.Consistent(Run(root, events[..i]).host);
    assert forall i :: 0 <= i < |events| ==> steps[i] == Faultless(Run(root, events[..i]), events[i]);
  }

  // ---- Who can change a shared record ----

  /** The rows of one shared record: one at most while keys are unique. */
  function RecordAt(db: Db, k: Key): seq<Row<Key, string>> {
    Select(db.shared, SameKey(k))
  }

  /**
   A request of the record's owner, with a grant of the plugin to write; an uninstall of its plugin; or a
   migration of any plugin with a grant for those.
   */
  ghost predicate MayChangeShared(w: World, ev: Event, k: Key) {
    match ev
    case LifecycleEvent(UninstallEvent(p, _)) => p == k.plugin
    case LifecycleEvent(_) => false
    case BrokerEvent(q, e) => MayRunScript(w.host.db, q, e) || OwnerMayWrite(w.host.db, q, k)
  }

  ghost predicate OwnerMayWrite(db: Db, q: Request, k: Key) {
    && q.op.NeedsUser() && q.caller.user.Some?
    && k == Key(Sanitize(q.plugin), SanitizeAll(q.op.Names()) + [q.caller.user.value])
    && Row(GrantKey(k.plugin, "db-shared-write"), true) in db.grants
  }

  lemma RowKeyOfNames(q: Request)
    ensures q.RowKey(SanitizeAll(q.Values()))
         == Key(Sanitize(q.plugin),
                SanitizeAll(q.op.Names())
                + if q.op.NeedsUser() && q.caller.user.Some? then [q.caller.user.value] else [])
  {
    assert SanitizeAll(q.Values())[1..] == SanitizeAll(q.op.Names());
  }

  /** A migration that gives nothing to the database changes nothing. */
  lemma NoScriptNoChange(s: State, q: Request, e: Env)
    requires q.op.ExecuteMigration? && ScriptOf(s.db, q, e) == []
    ensures Serve(s, q, e).state == s
  {
    hide Serve, ScriptOf, Upsert;
    ExecuteRuns(s, q, e);
    assert s.executed + [] == s.executed;
  }

  lemma ServeSharedIsolated(w: World, q: Request, e: Env, k: Key)
    ensures RecordAt(Served(w, q, e).state.db, k) == RecordAt(w.host.db, k)
         || MayRunScript(w.host.db, q, e) || OwnerMayWrite(w.host.db, q, k)
  {
    hide Serve, ScriptOf, Select, Upsert, Delete, Admit, MayRunScript;
    var s := State(w.host.db, w.executed);
    var row := q.RowKey(SanitizeAll(q.Values()));
    if q.op.ExecuteMigration? {
      if ScriptOf(s.db, q, e) != [] {
        ScriptIsGuarded(s.db, q, e);
      } else {
        NoScriptNoChange(s, q, e);
      }
    } else {
      ServeWritesOneRow(s, q, e);
      if Serve(s, q, e).result.Ok? && q.op.NeedsUser() {
        AdmitGranted(s.db.grants, q.caller, q.op.NeedsUser(), q.Values(), q.op.Needs(), e);
        RowKeyOfNames(q);
        if row != k {
          match q.op
          case PutShared(_, _, payload) => UpsertOutside(s.db.shared, row, payload, e.pick, SameKey(k));
          case DropShared(_, _) => DeleteOutside(s.db.shared, SameKey(row), SameKey(k));
        }
      }
    }
  }

  /** No lifecycle request but an uninstall touches shared records. */
  lemma LifecycleKeepsShared(root: string, s: L.Host, ev: L.Event)
    requires !ev.UninstallEvent?
    ensures L.Apply(root, s, ev).host.db.shared == s.db.shared
  {
    hide ReplaceGrants, DefaultPermissionGrants, L.StartGuard, Upsert;
  }

  lemma StepSharedIsolated(root: string, w: World, ev: Event, k: Key)
    ensures RecordAt(Step(root, w, ev).host.db, k) == RecordAt(w.host.db, k) || MayChangeShared(w, ev, k)
  {
    hide Serve, Select, MayRunScript, OwnerMayWrite;
    match ev
    case BrokerEvent(q, e) => ServeSharedIsolated(w, q, e, k);
    case LifecycleEvent(UninstallEvent(p, _)) =>
      if p != k.plugin {
        DeleteOutside(w.host.db.shared, OfPlugin(p), SameKey(k));
      }
    case LifecycleEvent(l) => LifecycleKeepsShared(root, w.host, l);
  }

  /** What differs at the end was changed by some step that may have changed it. */
  lemma {:induction false} SomeStepChanged<T>(states: seq<T>, changes: seq<bool>)
    requires |states| == |changes| + 1
    requires forall i :: 0 <= i < |changes| ==> states[i + 1] == states[i] || changes[i]
    ensures states[|changes|] == states[0] || exists i :: 0 <= i < |changes| && changes[i]
  {
    if changes != [] {
      SomeStepChanged(states[..|changes|], changes[..|changes| - 1]);
    }
  }

  lemma RunSplits(root: string, events: seq<Event>, more: seq<Event>, i: nat)
    requires i < |more|
    ensures Run(root, events + more[..i + 1]) == Step(root, Run(root, events + more[..i]), more[i])
  {
    hide Step;
    ConcatInit(events, more[..i + 1]);
    assert more[..i + 1][..i] == more[..i];
  }

  /**
   Along every run, whatever else is requested, a shared record differs later only if its owner wrote or
   deleted it in between, its plugin was uninstalled, or a plugin's migration was executed.
   */
  lemma SharedIsolated(root: string, events: seq<Event>, more: seq<Event>, k: Key)
    ensures RecordAt(Run(root, events + more).host.db, k) == RecordAt(Run(root, events).host.db, k)
         || exists i :: 0 <= i < |more| && MayChangeShared(Run(root, events + more[..i]), more[i], k)
  {
    hide Run, Step, MayChangeShared, RecordAt;
    var states := seq(|more| + 1, i requires 0 <= i <= |more| => RecordAt(Run(root, events + more[..i]).host.db, k));
    var changes := seq(|more|,
        i requires 0 <= i < |more| => MayChangeShared(Run(root, events + more[..i]), more[i], k));
    forall i | 0 <= i < |more| ensures states[i + 1] == states[i] || changes[i] {
      RunSplits(root, events, more, i);
      StepSharedIsolated(root, Run(root, events + more[..i]), more[i], k);
    }
    SomeStepChanged(states, changes);
    assert events + more[..0] == events && events + more[..|more|] == events + more;
  }

  // ---- What was stored is read back ----

  /** What a read of the record that `q` wrote or deleted answers while nothing else changed it. */
  function Expected(grants: Grants, q: Request, get: Env): Result<Row<Key, string>, Error>
    requires q.op.NeedsUser()
  {
    if !get.checked || !CheckPluginPermission(grants, Sanitize(q.plugin), DbSharedRead, get.pick) then Err(Forbidden)
    else if !get.found then Err(Internal)
    else if q.op.PutShared? then Ok(Row(q.RowKey(SanitizeAll(q.Values())), q.op.payload))
    else Err(NotFound)
  }

  lemma {:induction false} SelectUpdated<V>(rows: seq<Row<Key, V>>, i: nat, v: V)
    requires i < |rows| && |Select(rows, SameKey(rows[i].key))| <= 1
    ensures Select(rows[i := Row(rows[i].key, v)], SameKey(rows[i].key)) == [Row(rows[i].key, v)]
  {
    var n, k := |rows| - 1, rows[i].key;
    var next := rows[i := Row(k, v)];
    if i == n {
      assert next[..n] == rows[..n];
    } else {
      assert next[..n] == rows[..n][i := Row(k, v)];
      SelectIn(rows[..n], SameKey(k), rows[i]);
      assert rows[..n][i] == rows[i];
      SelectUpdated(rows[..n], i, v);
    }
  }

  lemma NoKeyNoRows<V>(rows: seq<Row<Key, V>>, k: Key)
    ensures HasKey(rows, k) <==> Select(rows, SameKey(k)) != []
  {
    HasKeyIsIn(rows, k);
    var found := Select(rows, SameKey(k));
    if found != [] {
      SelectIn(rows, SameKey(k), found[0]);
    }
    if HasKey(rows, k) {
      var r :| r in rows && r.key == k;
      SelectIn(rows, SameKey(k), r);
    }
  }

  lemma UpsertSelected<V>(rows: seq<Row<Key, V>>, k: Key, v: V, pick: nat)
    requires |Select(rows, SameKey(k))| <= 1
    ensures Select(Upsert(rows, k, v, pick), SameKey(k)) == [Row(k, v)]
  {
    match One(rows, k, pick)
    case Some(i) => SelectUpdated(rows, i, v);
    case None =>
      NoKeyNoRows(rows, k);
      assert (rows + [Row(k, v)])[..|rows|] == rows;
  }

  lemma DeletedSelected<V>(rows: seq<Row<Key, V>>, k: Key)
    ensures Select(Delete(rows, SameKey(k)), SameKey(k)) == []
  {
    NoKeyNoRows(Delete(rows, SameKey(k)), k);
    DeleteHasKey(rows, SameKey(k), k);
  }

  /** Unique keys leave at most one row to a record. */
  lemma KeyedIsSingle(db: Db, k: Key)
    requires KeyedTables(db)
    ensures |RecordAt(db, k)| <= 1
  {
    var found := RecordAt(db, k);
    SelectUnique(db.shared, SameKey(k));
    if |found| > 1 {
      SelectIn(db.shared, SameKey(k), found[0]);
      SelectIn(db.shared, SameKey(k), found[1]);
      assert false;
    }
  }

  /** One row of a key at most: the written row is all there is; with several, those there were may stay beside it. */
  lemma UpsertLeaves<V>(rows: seq<Row<Key, V>>, k: Key, v: V, pick: nat)
    ensures var next, before := Select(Upsert(rows, k, v, pick), SameKey(k)), Select(rows, SameKey(k));
      if |before| <= 1 then next == [Row(k, v)]
      else next != [] && forall r :: r in next ==> r == Row(k, v) || r in before
  {
    var after := Upsert(rows, k, v, pick);
    if |Select(rows, SameKey(k))| <= 1 {
      UpsertSelected(rows, k, v, pick);
    } else {
      UpsertHasRow(rows, k, v, pick);
      NoKeyNoRows(after, k);
      forall r | r in Select(after, SameKey(k)) ensures r == Row(k, v) || r in Select(rows, SameKey(k)) {
        SelectIn(after, SameKey(k), r);
        SelectIn(rows, SameKey(k), r);
      }
    }
  }

  lemma UpsertHasRow<V>(rows: seq<Row<Key, V>>, k: Key, v: V, pick: nat)
    ensures HasRow(Upsert(rows, k, v, pick), k)
  {
    match One(rows, k, pick)
    case Some(i) => assert rows[i := Row(k, v)][i].key == k;
    case None => assert (rows + [Row(k, v)])[|rows|].key == k;
  }

  /** What the rows of a record are after its owner wrote or deleted it, given what they were. */
  ghost predicate Written(before: seq<Row<Key, string>>, after: seq<Row<Key, string>>, q: Request)
    requires q.op.NeedsUser()
  {
    if q.op.DropShared? then after == []
    else
      var row := Row(q.RowKey(SanitizeAll(q.Values())), q.op.payload);
      if |before| <= 1 then after == [row] else after != [] && forall r :: r in after ==> r == row || r in before
  }

  lemma WrittenByServe(w: World, q: Request, e: Env)
    requires q.op.NeedsUser() && Served(w, q, e).result.Ok?
    ensures q.caller.user.Some? && "" !in q.Values()
    ensures var k := q.RowKey(SanitizeAll(q.Values()));
      Written(RecordAt(w.host.db, k), RecordAt(Served(w, q, e).state.db, k), q)
  {
    hide Upsert, Delete, Select, ValidateAll, Admit, Serve;
    var db, k := w.host.db, q.RowKey(SanitizeAll(q.Values()));
    ServeWritesOneRow(State(db, w.executed), q, e);
    AdmitGranted(db.grants, q.caller, q.op.NeedsUser(), q.Values(), q.op.Needs(), e);
    match q.op
    case PutShared(_, _, payload) => UpsertLeaves(db.shared, k, payload, e.pick);
    case DropShared(_, _) => DeletedSelected(db.shared, k);
  }

  /**
   What a user stored is what the user reads back, and what a user deleted is not found, until the record may
   have been changed; a read fails only for want of the read grant or because its query does. Only where keys
   were not unique, the record being several rows, may one of those be read instead.
   */
  lemma SharedReadBack(root: string, events: seq<Event>, q: Request, e: Env, more: seq<Event>, get: Env)
    requires q.op.NeedsUser() && Served(Run(root, events), q, e).result.Ok?
    requires var k, start := q.RowKey(SanitizeAll(q.Values())), events + [BrokerEvent(q, e)];
      forall i :: 0 <= i < |more| ==> !MayChangeShared(Run(root, start + more[..i]), more[i], k)
    ensures var before := RecordAt(Run(root, events).host.db, q.RowKey(SanitizeAll(q.Values())));
      var db := Run(root, events + [BrokerEvent(q, e)] + more).host.db;
      var read := GetShared(db, q.caller, q.plugin, q.op.collection, q.op.recordKey, get);
      && (KeyedTables(Run(root, events).host.db) ==> read == Expected(db.grants, q, get))
      && (|| read == Expected(db.grants, q, get)
          || (q.op.PutShared? && |before| > 1 && read.Ok? && read.value in before))
  {
    hide Run, MayChangeShared, GetShared, Serve, RecordAt, Expected, Written, KeyedTables;
    var start, k := events + [BrokerEvent(q, e)], q.RowKey(SanitizeAll(q.Values()));
    if KeyedTables(Run(root, events).host.db) {
      KeyedIsSingle(Run(root, events).host.db, k);
    }
    WrittenByServe(Run(root, events), q, e);
    RunNext(root, events, BrokerEvent(q, e));
    SharedIsolated(root, start, more, k);
    RecordIsRead(RecordAt(Run(root, events).host.db, k), Run(root, start + more).host.db, q, get);
  }

  lemma RecordIsRead(before: seq<Row<Key, string>>, db: Db, q: Request, get: Env)
    requires q.op.NeedsUser() && q.caller.user.Some? && "" !in q.Values()
    requires Written(before, RecordAt(db, q.RowKey(SanitizeAll(q.Values()))), q)
    ensures var read := GetShared(db, q.caller, q.plugin, q.op.collection, q.op.recordKey, get);
      || read == Expected(db.grants, q, get)
      || (q.op.PutShared? && |before| > 1 && read.Ok? && read.value in before)
  {
    hide Select, ValidateAll, CheckPluginPermission;
    var k := q.RowKey(SanitizeAll(q.Values()));
    assert q.Values() == [q.plugin, q.op.collection, q.op.recordKey];
    ValidateAllExact(q.Values());
    RowKeyOfNames(q);
    NoKeyNoRows(db.shared, k);
    match One(db.shared, k, get.pick)
    case None =>
    case Some(i) => SelectIn(db.shared, SameKey(k), db.shared[i]);
  }

  // ---- Who can change the rows in a plugin's name ----

  /** Two requests on the same table concern the same row exactly if their names agree once sanitised, and the user. */
  lemma SameRowSameNames(a: Request, b: Request)
    requires a.op.NeedsUser() == b.op.NeedsUser() && |a.op.Names()| == |b.op.Names()|
    requires a.op.NeedsUser() ==> a.caller.user.Some? && b.caller.user.Some?
    ensures a.RowKey(SanitizeAll(a.Values())) == b.RowKey(SanitizeAll(b.Values()))
            <==> && Sanitize(a.plugin) == Sanitize(b.plugin)
                 && SanitizeAll(a.op.Names()) == SanitizeAll(b.op.Names())
                 && (a.op.NeedsUser() ==> a.caller.user == b.caller.user)
  {
    RowKeyOfNames(a);
    RowKeyOfNames(b);
    var x, y := SanitizeAll(a.op.Names()), SanitizeAll(b.op.Names());
    if a.op.NeedsUser() {
      var u, v := a.caller.user.value, b.caller.user.value;
      assert (x + [u])[..|x|] == x && (y + [v])[..|y|] == y;
      assert (x + [u])[|x|] == u && (y + [v])[|y|] == v;
    } else {
      assert x + [] == x && y + [] == y;
    }
  }

  /** All that the tables hold under one plugin id. */
  datatype Rows = Rows(
    registry: Option<RegistryRow>,
    versions: seq<Row<Key, VersionInfo>>,
    grants: seq<Row<Key, bool>>,
    tasks: seq<Row<Key, Task>>,
    navItems: seq<Row<Key, NavItem>>,
    shared: seq<Row<Key, string>>,
    migrations: seq<Row<Key, MigrationState>>)

  function RowsOf(db: Db, name: string): Rows {
    Rows(if name in db.registry then Some(db.registry[name]) else None,
         Select(db.versions, OfPlugin(name)),
         Select(db.grants, OfPlugin(name)),
         Select(db.tasks, OfPlugin(name)),
         Select(db.navItems, OfPlugin(name)),
         Select(db.shared, OfPlugin(name)),
         Select(db.migrations, OfPlugin(name)))
  }

  lemma SameRows(a: Db, b: Db, name: string)
    ensures RowsOf(a, name) == RowsOf(b, name) <==> L.SameRowsOf(a, b, name)
  {
  }

  /**
   A lifecycle request of the very id, a broker request of a plugin with that sanitised id, or a migration of
   any plugin with a grant for those.
   */
  ghost predicate MayChangeRows(w: World, ev: Event, name: string) {
    match ev
    case LifecycleEvent(l) => !l.RestartEvent? && l.p == name
    case BrokerEvent(q, e) => MayRunScript(w.host.db, q, e) || Sanitize(q.plugin) == name
  }

  lemma RegisterRows(root: string, s: L.Host, p: string, v: string, permissions: seq<Permission>, e: L.RegisterEnv,
                     pick: nat, name: string)
    requires p != name
    ensures RowsOf(L.Register(s, root, p, v, permissions, e, pick).host.db, name) == RowsOf(s.db, name)
  {
    hide DefaultPermissionGrants, ReplaceGrants;
    var items := DefaultPermissionGrants(permissions);
    ReplaceGrantsOtherPlugin(s.db.grants, p, if e.grantWrites >= |items| then items else items[..e.grantWrites], pick,
                             name);
    var row := Row(L.VersionKey(p, v), VersionInfo(L.PackageDir(root, p, v), PENDING));
    assert (s.db.versions + [row])[..|s.db.versions|] == s.db.versions;
  }

  lemma MaterializeRows(s: L.Host, p: string, v: string, e: L.MaterializeEnv, pick: nat, name: string)
    requires p != name
    ensures RowsOf(L.Materialize(s, p, v, e, pick).host.db, name) == RowsOf(s.db, name)
  {
    hide Select;
    var found := One(s.db.versions, L.VersionKey(p, v), pick);
    if found.Some? {
      UpdateOutside(s.db.versions, found.value, s.db.versions[found.value].value.(status := INSTALLED), OfPlugin(name));
    }
  }

  lemma StartRows(s: L.Host, p: string, e: L.StartEnv, pick: nat, name: string)
    requires p != name
    ensures RowsOf(L.Start(s, p, e, pick).host.db, name) == RowsOf(s.db, name)
  {
    hide Select, Upsert, L.StartGuard;
    if e.navItem.Some? {
      UpsertOutside(s.db.navItems, Key(p, ["main"]), e.navItem.value, pick, OfPlugin(name));
    }
    if L.StartGuard(s, p, e, pick).Ok? {
      L.StartRow(s, p, e, pick);
    }
  }

  lemma UninstallRows(s: L.Host, p: string, e: L.UninstallEnv, name: string)
    requires p != name
    ensures RowsOf(L.Uninstall(s, p, e).host.db, name) == RowsOf(s.db, name)
  {
    hide L.Uninstall, Select;
    L.UninstallFrame(s, p, e, name);
  }

  lemma LifecycleRows(root: string, s: L.Host, ev: L.Event, name: string)
    requires ev.RestartEvent? || ev.p != name
    ensures RowsOf(L.Apply(root, s, ev).host.db, name) == RowsOf(s.db, name)
  {
    hide L.Register, L.Materialize, L.Start, L.Uninstall, Select, ReplaceGrants;
    match ev
    case RegisterEvent(p, v, permissions, e, pick) => RegisterRows(root, s, p, v, permissions, e, pick, name);
    case MaterializeEvent(p, v, e, pick) => MaterializeRows(s, p, v, e, pick, name);
    case StartEvent(p, e, pick) => StartRows(s, p, e, pick, name);
    case StopEvent(_, _) =>
    case UninstallEvent(p, e) => UninstallRows(s, p, e, name);
    case GrantsEvent(p, items, pick) => ReplaceGrantsOtherPlugin(s.db.grants, p, items, pick, name);
    case RestartEvent =>
  }

  lemma ServeRows(w: World, q: Request, e: Env, name: string)
    requires Sanitize(q.plugin) != name && !MayRunScript(w.host.db, q, e)
    ensures RowsOf(Served(w, q, e).state.db, name) == RowsOf(w.host.db, name)
  {
    hide Serve, ScriptOf, Select, Upsert, Delete, Admit, MayRunScript;
    var s, k := State(w.host.db, w.executed), q.RowKey(SanitizeAll(q.Values()));
    if q.op.ExecuteMigration? {
      if ScriptOf(s.db, q, e) != [] {
        ScriptIsGuarded(s.db, q, e);
      }
      NoScriptNoChange(s, q, e);
    } else {
      ServeWritesOneRow(s, q, e);
      match q.op
      case PutShared(_, _, payload) => UpsertOutside(s.db.shared, k, payload, e.pick, OfPlugin(name));
      case DropShared(_, _) => DeleteOutside(s.db.shared, SameKey(k), OfPlugin(name));
      case PutTask(_, task) => UpsertOutside(s.db.tasks, k, task, e.pick, OfPlugin(name));
      case PutNav(_, item) => UpsertOutside(s.db.navItems, k, item, e.pick, OfPlugin(name));
      case PutMigration(_, _, text) => UpsertOutside(s.db.migrations, k, StateJson(text), e.pick, OfPlugin(name));
    }
  }

  /**
   Along every run what the tables hold under an id differs later only if a request of a plugin with that
   sanitised id, a lifecycle request of the id itself, or a migration came in between.
   */
  lemma RowsIsolated(root: string, events: seq<Event>, more: seq<Event>, name: string)
    ensures L.SameRowsOf(Run(root, events + more).host.db, Run(root, events).host.db, name)
         || exists i :: 0 <= i < |more| && MayChangeRows(Run(root, events + more[..i]), more[i], name)
  {
    hide Run, L.Apply, Serve, MayRunScript, RowsOf, L.SameRowsOf;
    SameRows(Run(root, events + more).host.db, Run(root, events).host.db, name);
    var states := seq(|more| + 1, i requires 0 <= i <= |more| => RowsOf(Run(root, events + more[..i]).host.db, name));
    var changes := seq(|more|,
        i requires 0 <= i < |more| => MayChangeRows(Run(root, events + more[..i]), more[i], name));
    forall i | 0 <= i < |more| ensures states[i + 1] == states[i] || changes[i] {
      var w := Run(root, events + more[..i]);
      RunSplits(root, events, more, i);
      match more[i]
      case LifecycleEvent(l) => if l.RestartEvent? || l.p != name { LifecycleRows(root, w.host, l, name); }
      case BrokerEvent(q, e) =>
        if Sanitize(q.plugin) != name && !MayRunScript(w.host.db, q, e) { ServeRows(w, q, e, name); }
    }
    SomeStepChanged(states, changes);
    assert events + more[..0] == events && events + more[..|more|] == events + more;
  }

  // ---- Uninstall and sanitised ids ----

  /** Whether the row that a writing request concerns is in its table. */
  predicate Stored(db: Db, op: Op, k: Key) {
    match op
    case PutShared(_, _, _) => HasRow(db.shared, k)
    case DropShared(_, _) => HasRow(db.shared, k)
    case PutTask(_, _) => HasRow(db.tasks, k)
    case PutNav(_, _) => HasRow(db.navItems, k)
    case PutMigration(_, _, _) => HasRow(db.migrations, k)
    case ExecuteMigration(_, _, _) => HasRow(db.migrations, k)
  }

  lemma ServedIsStored(s: State, q: Request, e: Env)
    requires !q.op.DropShared? && Serve(s, q, e).result.Ok?
    ensures Stored(Serve(s, q, e).state.db, q.op, q.RowKey(SanitizeAll(q.Values())))
  {
    hide Serve, Upsert, HasRow, RunScript, ScriptOf, Admit;
    var k := q.RowKey(SanitizeAll(q.Values()));
    if q.op.ExecuteMigration? {
      var script := ScriptOf(s.db, q, e);
      ExecuteRuns(s, q, e);
      UpsertHasRow(RunScript(s.db, script, e.sql).db.migrations, k, Applied(q.op.description, |script|), e.pick);
    } else {
      ServeWritesOneRow(s, q, e);
      match q.op
      case PutShared(_, _, payload) => UpsertHasRow(s.db.shared, k, payload, e.pick);
      case PutTask(_, task) => UpsertHasRow(s.db.tasks, k, task, e.pick);
      case PutNav(_, item) => UpsertHasRow(s.db.navItems, k, item, e.pick);
      case PutMigration(_, _, text) => UpsertHasRow(s.db.migrations, k, StateJson(text), e.pick);
    }
  }

  lemma StoredAfterUninstall(s: L.Host, p: string, u: L.UninstallEnv, op: Op, k: Key)
    requires L.UninstallProceeds(s, p, u) && u.deletes.All()
    ensures Stored(L.Uninstall(s, p, u).host.db, op, k) <==> Stored(s.db, op, k) && k.plugin != p
  {
    hide Delete;
    DeleteHasKey(s.db.shared, OfPlugin(p), k);
    DeleteHasKey(s.db.tasks, OfPlugin(p), k);
    DeleteHasKey(s.db.navItems, OfPlugin(p), k);
    DeleteHasKey(s.db.migrations, OfPlugin(p), k);
  }

  /**
   A row that a request stored in the name of a plugin is gone after an uninstall exactly when the id that was
   uninstalled is the plugin's id sanitised: rows are stored under the sanitised id, deleted under the id. So a
   plugin's own uninstall leaves it unless the two are the same, and that of another plugin may delete it.
   */
  lemma UninstallClearsSanitised(w: World, q: Request, e: Env, id: string, u: L.UninstallEnv)
    requires !q.op.DropShared? && Served(w, q, e).result.Ok?
    requires L.UninstallProceeds(Step("", w, BrokerEvent(q, e)).host, id, u) && u.deletes.All()
    ensures var left := L.Uninstall(Step("", w, BrokerEvent(q, e)).host, id, u).host.db;
      !Stored(left, q.op, q.RowKey(SanitizeAll(q.Values()))) <==> id == Sanitize(q.plugin)
  {
    hide Serve, Stored, L.Uninstall, L.UninstallProceeds;
    var host := Step("", w, BrokerEvent(q, e)).host;
    ServedIsStored(State(w.host.db, w.executed), q, e);
    StoredAfterUninstall(host, id, u, q.op, q.RowKey(SanitizeAll(q.Values())));
    assert q.Values()[0] == q.plugin;
  }

  // ---- Runs in which this happens ----

  function Registers(p: string): Event {
    LifecycleEvent(L.RegisterEvent(p, "1", [], L.RegisterEnv(true, true, true, true, 0, true), 0))
  }

  function Grants(p: string, permission: Permission): Event {
    LifecycleEvent(L.GrantsEvent(Sanitize(p), [GrantItem(AsKey(permission), true)], 0))
  }

  /** The version rows of the plugin's current version, one at least, name its package directory. */
  ghost predicate InstalledAt(root: string, db: Db, p: string) {
    && p in db.registry && db.registry[p].currentVersion == Some("1") && HasKey(db.versions, L.VersionKey(p, "1"))
    && forall r :: r in db.versions && r.key == L.VersionKey(p, "1")
         ==> r.value.packagePath == L.PackageDir(root, p, "1")
  }

  /** The grant rows of the sanitised id, one at least, grant the permission. */
  ghost predicate Holds(db: Db, p: string, permission: Permission) {
    var k := GrantKey(Sanitize(p), AsKey(permission));
    HasKey(db.grants, k) && forall r :: r in db.grants && r.key == k ==> r.value
  }

  lemma OneGrant(rows: Grants, p: string, item: GrantItem)
    requires !HasKey(rows, GrantKey(p, item.permissionKey))
    ensures ReplaceGrants(rows, p, [item], 0) == rows + [Row(GrantKey(p, item.permissionKey), item.granted)]
  {
    assert [item][..0] == [];
  }

  lemma Registered(root: string, w: World, p: string)
    ensures var next := Step(root, w, Registers(p)); var row := Row(L.VersionKey(p, "1"),
        VersionInfo(L.PackageDir(root, p, "1"), PENDING));
      && next.host.db == w.host.db.(
           registry := w.host.db.registry[p := L.RegisteredRow(w.host.db, p, "1")],
           versions := w.host.db.versions + [row],
           audit := w.host.db.audit + [AuditRow(p, "register")])
      && next.host.active == w.host.active && next.executed == w.executed
  {
    assert DefaultPermissionGrants([]) == [];
  }

  /** Registering a plugin that is new to the tables and granting its sanitised id one permission. */
  lemma Equipped(root: string, w: World, p: string, permission: Permission)
    requires NoRows(w.host.db.versions, p) && NoRows(w.host.db.grants, Sanitize(p))
    ensures var next := Step(root, Step(root, w, Registers(p)), Grants(p, permission));
      && InstalledAt(root, next.host.db, p) && Holds(next.host.db, p, permission)
      && next.host.db == w.host.db.(
           registry := next.host.db.registry, versions := next.host.db.versions, audit := next.host.db.audit,
           grants := w.host.db.grants + [Row(GrantKey(Sanitize(p), AsKey(permission)), true)])
      && (forall r :: r in next.host.db.versions ==> r in w.host.db.versions || r.key.plugin == p)
      && next.host.active == w.host.active && next.executed == w.executed
  {
    hide L.PackageDir;
    var k := GrantKey(Sanitize(p), AsKey(permission));
    var registered := Step(root, w, Registers(p));
    Registered(root, w, p);
    HasKeyIsIn(w.host.db.grants, k);
    OneGrant(w.host.db.grants, Sanitize(p), GrantItem(AsKey(permission), true));
    HasKeyIsIn(w.host.db.grants + [Row(k, true)], k);
    HasKeyIsIn(registered.host.db.versions, L.VersionKey(p, "1"));
    assert registered.host.db.versions[|w.host.db.versions|].key == L.VersionKey(p, "1");
    assert (w.host.db.grants + [Row(k, true)])[|w.host.db.grants|].key == k;
  }

  lemma HoldsAdmits(db: Db, p: string, permission: Permission, c: Caller, needsUser: bool, names: seq<string>, e: Env)
    requires Holds(db, p, permission) && Authorized(c, needsUser) && "" !in [p] + names && e.checked
    ensures Admit(db.grants, c, needsUser, [p] + names, permission, e) == Ok(SanitizeAll([p] + names))
  {
    hide ValidateAll;
    ValidateAllExact([p] + names);
    assert ([p] + names)[0] == p;
    var k := GrantKey(Sanitize(p), AsKey(permission));
    var i := One(db.grants, k, e.pick).value;
    assert db.grants[i] in db.grants;
  }

  function Accepting(n: nat, statement: string, db: Db): SqlResult {
    SqlResult(db, true)
  }

  const ALL_DONE: Env := Env(true, true, true, 0, true, map[], Accepting)

  function StoresRecord(p: string): Request {
    Request(Caller(Some("u"), false), p, PutShared("c", "k", "x"))
  }

  function RecordKey(p: string): Key {
    Key(Sanitize(p), ["c", "k", "u"])
  }

  lemma RecordKeyOf(p: string)
    ensures StoresRecord(p).RowKey(SanitizeAll(StoresRecord(p).Values())) == RecordKey(p)
  {
    assert Sanitize("c") == "c" && Sanitize("k") == "k";
    RowKeyOfNames(StoresRecord(p));
    assert SanitizeAll(["c", "k"]) == ["c", "k"];
  }

  lemma RecordStored(root: string, w: World, p: string)
    requires Holds(w.host.db, p, DbSharedWrite) && p != "" && w.host.db.shared == []
    ensures Served(w, StoresRecord(p), ALL_DONE).result.Ok?
    ensures Step(root, w, BrokerEvent(StoresRecord(p), ALL_DONE))
         == w.(host := w.host.(db := w.host.db.(shared := [Row(RecordKey(p), "x")])))
  {
    hide Admit, ValidateAll;
    HoldsAdmits(w.host.db, p, DbSharedWrite, Caller(Some("u"), false), true, ["c", "k"], ALL_DONE);
    assert StoresRecord(p).Values() == [p] + ["c", "k"];
    RecordKeyOf(p);
    assert [] + [Row(RecordKey(p), "x")] == [Row(RecordKey(p), "x")];
  }

  /** A run that registers a plugin, grants it to write, and stores a record of a user in its name. */
  lemma StoredFirst(root: string, p: string) returns (events: seq<Event>)
    requires p != ""
    ensures var w := Run(root, events);
      && w.host.db.shared == [Row(RecordKey(p), "x")] && w.host.active == map[] && InstalledAt(root, w.host.db, p)
      && w.host.db.grants == [Row(GrantKey(Sanitize(p), "db-shared-write"), true)]
      && (forall r :: r in w.host.db.versions ==> r.key.plugin == p)
  {
    hide Run, Step, Registers, Grants, Holds, Served, StoresRecord, L.PackageDir;
    var registers, grants, stores :=
      Registers(p), Grants(p, DbSharedWrite), BrokerEvent(StoresRecord(p), ALL_DONE);
    var a := [registers];
    var b := a + [grants];
    RunOfNothing(root);
    RunNext(root, [], registers);
    assert [] + a == a;
    RunNext(root, a, grants);
    Equipped(root, START, p, DbSharedWrite);
    RecordStored(root, Run(root, b), p);
    RunNext(root, b, stores);
    events := b + [stores];
  }

  function Uninstalls(p: string): L.UninstallEnv {
    L.UninstallEnv(true, true, true, Deletes(true, true, true, true, true, true, true), true)
  }

  lemma RecordLeft(root: string, w: World, p: string)
    requires InstalledAt(root, w.host.db, p) && w.host.active == map[] && Sanitize(p) != p
    requires w.host.db.shared == [Row(RecordKey(p), "x")]
    ensures HasRow(w.host.db.shared, RecordKey(p)) && L.Uninstall(w.host, p, Uninstalls(p)).ok
    ensures var next := Step(root, w, LifecycleEvent(L.UninstallEvent(p, Uninstalls(p))));
      HasRow(next.host.db.shared, RecordKey(p))
  {
    hide DeletePlugin;
    StoredAfterUninstall(w.host, p, Uninstalls(p), StoresRecord(p).op, RecordKey(p));
    assert w.host.db.shared[0].key == RecordKey(p);
  }

  /** Every id that is not its own sanitised form has a run whose uninstall leaves a record stored in its name. */
  lemma RecordOutlivesUninstall(root: string, p: string)
    requires p != "" && Sanitize(p) != p
    ensures exists events, before :: (events == before + [LifecycleEvent(L.UninstallEvent(p, Uninstalls(p)))]
      && L.Uninstall(Run(root, before).host, p, Uninstalls(p)).ok
      && HasRow(Run(root, before).host.db.shared, RecordKey(p))
      && HasRow(Run(root, events).host.db.shared, RecordKey(p)))
  {
    hide Run, Step, Serve, L.Uninstall, Stored;
    var before := StoredFirst(root, p);
    var uninstall := LifecycleEvent(L.UninstallEvent(p, Uninstalls(p)));
    RunNext(root, before, uninstall);
    RecordLeft(root, Run(root, before), p);
    assert before + [uninstall] == before + [uninstall];
  }

  /** The migration "m" of scope "s" of a plugin's version "1", its statements, and what they do. */
  function Migrates(root: string, p: string, bodies: seq<string>, sql: Sql): Env {
    ALL_DONE.(sql := sql, files := map[
      L.JoinPath(L.JoinPath(L.JoinPath(L.PackageDir(root, p, "1"), "migrations"), "s"), "m" + ".sql")
      := PrintScript(bodies)])
  }

  /** The plugin runtime asks for it, on behalf of no user. */
  function Executes(p: string): Request {
    Request(Caller(None, true), p, ExecuteMigration("s", "m", None))
  }

  lemma ScriptIsFound(root: string, db: Db, p: string, bodies: seq<string>, sql: Sql)
    requires InstalledAt(root, db, p) && Holds(db, p, DbSqlite) && p != "" && Sanitize(p) == p
    ensures ScriptOf(db, Executes(p), Migrates(root, p, bodies, sql)) == SplitSqlStatements(PrintScript(bodies))
  {
    hide Admit, SplitSqlStatements, PrintScript, L.JoinPath, L.PackageDir, ValidateAll;
    var e, k := Migrates(root, p, bodies, sql), L.VersionKey(p, "1");
    HoldsAdmits(db, p, DbSqlite, Caller(None, true), false, ["s", "m"], e);
    assert Executes(p).Values() == [p] + ["s", "m"];
    assert Sanitize("s") == "s" && Sanitize("m") == "m";
    assert SanitizeAll([p] + ["s", "m"]) == [p, "s", "m"];
    var i := One(db.versions, k, e.pick).value;
    assert db.versions[i] in db.versions;
    assert MigrationSql(db, [p, "s", "m"], e) == Some(PrintScript(bodies));
  }

  /** A run after which a plugin may execute its migration. */
  lemma MayMigrate(root: string, q: string) returns (events: seq<Event>)
    ensures var w := Run(root, events);
      && InstalledAt(root, w.host.db, q) && Holds(w.host.db, q, DbSqlite) && w.executed == []
      && KeyedTables(w.host.db)
  {
    hide Run, Step, Registers, Grants, Holds, InstalledAt;
    var registers, grants := Registers(q), Grants(q, DbSqlite);
    var a := [registers];
    RunOfNothing(root);
    RunNext(root, [], registers);
    assert [] + a == a;
    RunNext(root, a, grants);
    Equipped(root, START, q, DbSqlite);
    events := a + [grants];
  }

  lemma OneStatement()
    ensures SplitSqlStatements(PrintScript(["x"])) == ["x;"]
  {
    SplitPrintedScript(["x"]);
    assert "x" + ";" == "x;";
  }

  lemma {:induction false} AcceptingRuns(db: Db, statements: seq<string>)
    ensures RunScript(db, statements, Accepting) == Ran(db, |statements|)
  {
    if statements != [] {
      AcceptingRuns(db, statements[..|statements| - 1]);
    }
  }

  function OneIsRun(root: string, p: string): Event {
    BrokerEvent(Executes(p), Migrates(root, p, ["x"], Accepting))
  }

  lemma ExecutedOnce(root: string, w: World, p: string)
    requires InstalledAt(root, w.host.db, p) && Holds(w.host.db, p, DbSqlite) && p != "" && Sanitize(p) == p
    ensures var next := Step(root, w, OneIsRun(root, p));
      && next.executed == w.executed + ["x;"]
      && InstalledAt(root, next.host.db, p) && Holds(next.host.db, p, DbSqlite)
  {
    hide Serve, ScriptOf, SplitSqlStatements, PrintScript, Upsert, RunScript;
    OneStatement();
    ScriptIsFound(root, w.host.db, p, ["x"], Accepting);
    ExecuteRuns(State(w.host.db, w.executed), Executes(p), Migrates(root, p, ["x"], Accepting));
    AcceptingRuns(w.host.db, ["x;"]);
    assert ["x;"][..1] == ["x;"];
  }

  /** Every plugin has a run that executes its migration twice. */
  lemma MigrationExecutedTwice(root: string, p: string)
    requires p != "" && Sanitize(p) == p
    ensures exists events :: Run(root, events).executed == ["x;", "x;"]
  {
    hide Run, Step, InstalledAt, Holds;
    var start := MayMigrate(root, p);
    var ev := OneIsRun(root, p);
    ExecutedOnce(root, Run(root, start), p);
    RunNext(root, start, ev);
    ExecutedOnce(root, Run(root, start + [ev]), p);
    RunNext(root, start + [ev], ev);
    assert [] + ["x;"] + ["x;"] == ["x;", "x;"];
    assert Run(root, start + [ev] + [ev]).executed == ["x;", "x;"];
  }

  // ---- Migrations that write the host's tables ----

  const UPDATE: string := "UPDATE shared SET value = 'y'"

  function Overwritten(rows: seq<Row<Key, string>>): seq<Row<Key, string>> {
    seq(|rows|, i requires 0 <= i < |rows| => Row(rows[i].key, "y"))
  }

  /** A database on which the update of the shared records does what it says, and any other statement is rejected. */
  function Updating(n: nat, statement: string, db: Db): SqlResult {
    if statement == UPDATE + ";" then SqlResult(db.(shared := Overwritten(db.shared)), true) else SqlResult(db, false)
  }

  const INSERT: string := "INSERT INTO shared VALUES r, r"

  /** A database on which the insert does what it says: the columns that tell rows apart are not unique. */
  function Inserting(n: nat, statement: string, db: Db): SqlResult {
    if statement == INSERT + ";"
    then SqlResult(db.(shared := db.shared + [Row(RecordKey("a"), "x")] + [Row(RecordKey("a"), "x")]), true)
    else SqlResult(db, false)
  }

  lemma TwoStatements()
    ensures SplitSqlStatements(PrintScript([UPDATE, "x"])) == [UPDATE + ";", "x;"]
  {
    assert UPDATE[0] == 'U' && UPDATE[|UPDATE| - 1] == '\'';
    SplitPrintedScript([UPDATE, "x"]);
    assert "x" + ";" == "x;";
  }

  lemma OneInsert()
    ensures SplitSqlStatements(PrintScript([INSERT])) == [INSERT + ";"]
  {
    assert INSERT[0] == 'I' && INSERT[|INSERT| - 1] == 'r';
    SplitPrintedScript([INSERT]);
  }

  lemma UpdatingRuns(db: Db)
    ensures RunScript(db, [UPDATE + ";", "x;"], Updating) == Ran(db.(shared := Overwritten(db.shared)), 1)
  {
    var statements := [UPDATE + ";", "x;"];
    assert statements[..1] == [UPDATE + ";"] && statements[..1][..0] == [];
    assert RunScript(db, statements[..1], Updating) == Ran(db.(shared := Overwritten(db.shared)), 1);
    assert |UPDATE + ";"| > |"x;"|;
  }

  lemma InsertingRuns(db: Db)
    ensures RunScript(db, [INSERT + ";"], Inserting)
         == Ran(db.(shared := db.shared + [Row(RecordKey("a"), "x")] + [Row(RecordKey("a"), "x")]), 1)
  {
    assert [INSERT + ";"][..0] == [];
  }

  function Overwrites(root: string, q: string): Event {
    BrokerEvent(Executes(q), Migrates(root, q, [UPDATE, "x"], Updating))
  }

  lemma MigrationOverwrites(root: string, w: World, q: string)
    requires InstalledAt(root, w.host.db, q) && Holds(w.host.db, q, DbSqlite) && q != "" && Sanitize(q) == q
    ensures Served(w, Executes(q), Overwrites(root, q).e).result.Err?
    ensures Step(root, w, Overwrites(root, q)).host.db == w.host.db.(shared := Overwritten(w.host.db.shared))
  {
    hide Serve, ScriptOf, SplitSqlStatements, PrintScript, Upsert, RunScript, UPDATE, Overwritten;
    TwoStatements();
    ScriptIsFound(root, w.host.db, q, [UPDATE, "x"], Updating);
    ExecuteRuns(State(w.host.db, w.executed), Executes(q), Overwrites(root, q).e);
    UpdatingRuns(w.host.db);
  }

  /**
   For any two plugins there is a run in which a migration of the one, called on behalf of no user and failing,
   overwrites the record a user stored with the other, though the grant to write shared records is the other's.
   */
  lemma MigrationOverwritesOthersRecord(root: string, p: string, q: string)
    requires p != "" && q != "" && p != q && Sanitize(p) == p && Sanitize(q) == q
    ensures exists events :: var w := Run(root, events);
      && RecordAt(w.host.db, RecordKey(p)) == [Row(RecordKey(p), "x")]
      && (forall r :: r in w.host.db.grants && r.key.plugin == q ==> r.key == GrantKey(q, "db-sqlite"))
      && Overwrites(root, q).q.caller.user.None?
      && Served(w, Executes(q), Overwrites(root, q).e).result.Err?
      && RecordAt(Step(root, w, Overwrites(root, q)).host.db, RecordKey(p)) == [Row(RecordKey(p), "y")]
  {
    hide Run, Step, Serve, Registers, Grants, Holds, InstalledAt, Migrates;
    var stored := StoredFirst(root, p);
    var registers, grants, w := Registers(q), Grants(q, DbSqlite), Run(root, stored);
    RunNext(root, stored, registers);
    RunNext(root, stored + [registers], grants);
    Equipped(root, w, q, DbSqlite);
    var next := Run(root, stored + [registers] + [grants]);
    MigrationOverwrites(root, next, q);
    OneRecord(next.host.db, RecordKey(p));
    assert next == Run(root, stored + [registers] + [grants]);
  }

  lemma OneSelected<V>(k: Key, v: V)
    ensures Select([Row(k, v)], SameKey(k)) == [Row(k, v)]
  {
    assert [Row(k, v)][..0] == [];
    assert Select([Row(k, v)][..0], SameKey(k)) == [];
  }

  lemma OneRecord(db: Db, k: Key)
    requires db.shared == [Row(k, "x")]
    ensures RecordAt(db, k) == db.shared
    ensures RecordAt(db.(shared := Overwritten(db.shared)), k) == [Row(k, "y")]
  {
    OneSelected(k, "x");
    OneSelected(k, "y");
    assert Overwritten(db.shared) == [Row(k, "y")];
  }

  /** Every plugin has a run, with unique keys so far, in which its migration leaves two rows to one key. */
  lemma MigrationBreaksKeys(root: string, q: string)
    requires q != "" && Sanitize(q) == q
    ensures exists events :: var w, e := Run(root, events), Migrates(root, q, [INSERT], Inserting);
      && KeyedTables(w.host.db) && Served(w, Executes(q), e).result.Ok?
      && !KeyedTables(Step(root, w, BrokerEvent(Executes(q), e)).host.db)
  {
    var events := MayMigrate(root, q);
    var w, e := Run(root, events), Migrates(root, q, [INSERT], Inserting);
    hide Run, Serve, ScriptOf, SplitSqlStatements, PrintScript, Upsert, RunScript, INSERT, InstalledAt, Holds;
    OneInsert();
    ScriptIsFound(root, w.host.db, q, [INSERT], Inserting);
    ExecuteRuns(State(w.host.db, w.executed), Executes(q), e);
    InsertingRuns(w.host.db);
    var after, n := Step(root, w, BrokerEvent(Executes(q), e)).host.db.shared, |w.host.db.shared|;
    assert after[n].key == after[n + 1].key;
    assert w == Run(root, events);
  }
}
