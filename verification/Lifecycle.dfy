/**
 The plugin lifecycle as serial requests: register, materialize, start, stop, uninstall, grant updates and
 a restart of the host. Each request is a function of the state and of what its environment did: which
 queries, row writes, launches and stops succeeded, and which of several matching rows a query returned.
 */
module Lifecycle {
  import opened Wrappers
  import opened Tables
  import opened Database
  import opened Permissions
  import opened Sequences

  /** A live runtime; the token stands for the process or container behind it. */
  datatype Handle = Handle(plugin: string, token: nat)

  datatype Host = Host(db: Db, active: map<string, Handle>)
  datatype Reply = Reply(host: Host, ok: bool)

  const FRESH: Host := Host(EMPTY, map[])

  /** `Path::join`: an absolute second part replaces the first. */
  function JoinPath(base: string, name: string): string {
    if name != [] && name[0] == '/' then name
    else if base == [] || base[|base| - 1] == '/' then base + name
    else base + "/" + name
  }

  function PackageDir(root: string, p: string, version: string): string {
    JoinPath(JoinPath(root, p), version)
  }

  function VersionKey(p: string, version: string): Key {
    Key(p, [version])
  }

  // ---- Register ----

  datatype RegisterEnv = RegisterEnv(
    prepared: bool,          // manifest read, checksum matched, package extracted and checked
    loaded: bool, rowWritten: bool, versionInserted: bool,
    grantWrites: nat,        // grant writes that succeed before one fails
    audited: bool)

  function RegisteredRow(db: Db, p: string, version: string): RegistryRow {
    if p in db.registry then db.registry[p].(currentVersion := Some(version), status := PENDING)
    else RegistryRow("", Some(version), PENDING, false)
  }

  function Register(s: Host, root: string, p: string, version: string, permissions: seq<Permission>, e: RegisterEnv,
                    pick: nat)
    : Reply
  {
    if !e.prepared || !e.loaded || !e.rowWritten then Reply(s, false)
    else
      var db1 := s.db.(registry := s.db.registry[p := RegisteredRow(s.db, p, version)]);
      if !e.versionInserted then Reply(s.(db := db1), false)
      else
        var db2 := db1.(versions := db1.versions
            + [Row(VersionKey(p, version), VersionInfo(PackageDir(root, p, version), PENDING))]);
        var items := DefaultPermissionGrants(permissions);
        var complete := e.grantWrites >= |items|;
        var written := if complete then items else items[..e.grantWrites];
        var db3 := db2.(grants := ReplaceGrants(db2.grants, p, written, pick));
        var done := complete && e.audited;
        Reply(s.(db := AppendAudit(db3, p, "register", done)), done)
  }

  // ---- Materialize ----

  datatype MaterializeEnv = MaterializeEnv(
    prepared: bool,          // manifest read, install commands run, runtime validated
    upgraded: bool,          // upgrade commands run, the previous version's directory removed
    runtimeKind: string,
    loaded: bool, rowWritten: bool, versionLoaded: bool, versionWritten: bool, audited: bool)

  /** Whether a materialize runs the upgrade commands and removes the previous version's directory. */
  predicate Upgrades(db: Db, p: string, version: string) {
    p in db.registry && db.registry[p].currentVersion.Some? && db.registry[p].currentVersion.value != version
  }

  /** Whether a materialize gets as far as its row write; only an upgrade asks for the outcome of one. */
  predicate MaterializeProceeds(db: Db, p: string, version: string, e: MaterializeEnv) {
    e.prepared && e.loaded && (Upgrades(db, p, version) ==> e.upgraded)
  }

  function Materialize(s: Host, p: string, version: string, e: MaterializeEnv, pick: nat): Reply {
    if !MaterializeProceeds(s.db, p, version, e) || (p in s.db.registry && !e.rowWritten) then Reply(s, false)
    else
      var db1 :=
        if p in s.db.registry
        then s.db.(registry := s.db.registry[p := RegistryRow(e.runtimeKind, Some(version), INSTALLED, false)])
        else s.db;
      var found := One(db1.versions, VersionKey(p, version), pick);
      if !e.versionLoaded || (found.Some? && !e.versionWritten) then Reply(s.(db := db1), false)
      else
        var db2 := if found.None? then db1 else db1.(versions := MarkInstalled(db1.versions, found.value));
        Reply(s.(db := AppendAudit(db2, p, "materialize", e.audited)), e.audited)
  }

  function MarkInstalled(versions: seq<Row<Key, VersionInfo>>, i: nat): seq<Row<Key, VersionInfo>>
    requires i < |versions|
  {
    versions[i := Row(versions[i].key, versions[i].value.(status := INSTALLED))]
  }

  // ---- Start ----

  datatype StartError = NotFound | StillPending | AlreadyRunning | NoVersion | NoVersionRow | Unreadable

  datatype StartEnv = StartEnv(
    rowRead: bool, versionRead: bool,
    manifestRead: bool,      // manifest and configuration paths
    runningWritten: bool,
    launch: Option<nat>,     // the token of the runtime that came up, if one did
    rolledBack: bool,
    navItem: Option<NavItem>, navWritten: bool,
    audited: bool)

  /** The checks before a launch, ending in the directory that is launched. */
  function StartGuard(s: Host, p: string, e: StartEnv, pick: nat): Result<string, StartError> {
    if !e.rowRead then Err(Unreadable)
    else if p !in s.db.registry then Err(NotFound)
    else
      var row := s.db.registry[p];
      if row.status == PENDING then Err(StillPending)
      else if row.status == RUNNING then Err(AlreadyRunning)
      else if row.currentVersion.None? then Err(NoVersion)
      else if !e.versionRead then Err(Unreadable)
      else
        match One(s.db.versions, VersionKey(p, row.currentVersion.value), pick)
        case None => Err(NoVersionRow)
        case Some(i) => if e.manifestRead then Ok(s.db.versions[i].value.packagePath) else Err(Unreadable)
  }

  function UpsertNav(db: Db, p: string, item: Option<NavItem>, written: bool, pick: nat): Db {
    if item.Some? && written then db.(navItems := Upsert(db.navItems, Key(p, ["main"]), item.value, pick)) else db
  }

  function Start(s: Host, p: string, e: StartEnv, pick: nat): Reply {
    if StartGuard(s, p, e, pick).Err? then Reply(s, false)
    else
      var row := s.db.registry[p];
      var running := UpdateRuntimeState(s.db, p, true, RUNNING, e.runningWritten);
      match e.launch
      case Some(token) =>
        var db := UpsertNav(running, p, e.navItem, e.navWritten, pick);
        Reply(Host(AppendAudit(db, p, "start", e.audited), s.active[p := Handle(p, token)]), true)
      case None =>
        var db := UpdateRuntimeState(running, p, row.enabled, row.status, e.rolledBack);
        Reply(s.(db := AppendAudit(db, p, "start", e.audited)), false)
  }

  // ---- Stop ----

  datatype StopEnv = StopEnv(rowRead: bool, stopped: bool, rowWritten: bool, audited: bool)

  function Stop(s: Host, p: string, e: StopEnv): Reply {
    if !e.rowRead || p !in s.db.registry || s.db.registry[p].status != RUNNING || p !in s.active then Reply(s, false)
    else if e.stopped then
      var db := UpdateRuntimeState(s.db, p, false, INSTALLED, e.rowWritten);
      Reply(Host(AppendAudit(db, p, "stop", e.audited), s.active - {p}), true)
    else Reply(s.(db := AppendAudit(s.db, p, "stop", e.audited)), false)
  }

  // ---- Uninstall ----

  datatype UninstallEnv = UninstallEnv(stopped: bool, rowRead: bool, versionRead: bool, deletes: Deletes, audited: bool)

  /** Whether the queries of an uninstall let it go on to the deletes. */
  predicate UninstallProceeds(s: Host, p: string, e: UninstallEnv) {
    && (p in s.active ==> e.stopped)
    && e.rowRead && p in s.db.registry
    && (s.db.registry[p].currentVersion.Some? ==> e.versionRead)
  }

  function Uninstall(s: Host, p: string, e: UninstallEnv): Reply {
    var active := s.active - {p};
    if !UninstallProceeds(s, p, e) then Reply(s.(active := active), false)
    else Reply(Host(AppendAudit(DeletePluginRows(s.db, p, e.deletes), p, "uninstall", e.audited), active), true)
  }

  // ---- Runs ----

  datatype Event =
    | RegisterEvent(p: string, version: string, permissions: seq<Permission>, register: RegisterEnv, pick: nat)
    | MaterializeEvent(p: string, version: string, materialize: MaterializeEnv, pick: nat)
    | StartEvent(p: string, start: StartEnv, pick: nat)
    | StopEvent(p: string, stop: StopEnv)
    | UninstallEvent(p: string, uninstall: UninstallEnv)
    | GrantsEvent(p: string, items: seq<GrantItem>, pick: nat)
    | RestartEvent

  /** A request, or a restart of the host process, which forgets every handle. */
  function Apply(root: string, s: Host, ev: Event): Reply {
    match ev
    case RegisterEvent(p, v, permissions, e, pick) => Register(s, root, p, v, permissions, e, pick)
    case MaterializeEvent(p, v, e, pick) => Materialize(s, p, v, e, pick)
    case StartEvent(p, e, pick) => Start(s, p, e, pick)
    case StopEvent(p, e) => Stop(s, p, e)
    case UninstallEvent(p, e) => Uninstall(s, p, e)
    case GrantsEvent(p, items, pick) =>
      Reply(s.(db := s.db.(grants := ReplaceGrants(s.db.grants, p, items, pick))), true)
    case RestartEvent => Reply(s.(active := map[]), true)
  }

  function Run(root: string, events: seq<Event>): Host {
    if events == [] then FRESH
    else Apply(root, Run(root, events[..|events| - 1]), events[|events| - 1]).host
  }

  // ---- Handle, status and enabled agree ----

  /** A plugin has a live handle exactly when its row says running, exactly when it is enabled. */
  ghost predicate Consistent(s: Host) {
    && (forall p :: p in s.db.registry ==>
          var row := s.db.registry[p];
          && row.status in {PENDING, INSTALLED, RUNNING}
          && (p in s.active <==> row.status == RUNNING)
          && (row.enabled <==> row.status == RUNNING))
    && (forall p :: p in s.active ==> p in s.db.registry)
  }

  /** The faults that a request must be spared: a condition on the state before it and on its environment. */
  ghost predicate Faultless(s: Host, ev: Event) {
    match ev
    case RegisterEvent(p, _, _, e, _) => e.prepared && e.loaded && e.rowWritten ==> p !in s.active
    case MaterializeEvent(p, v, e, _) =>
      p in s.db.registry && MaterializeProceeds(s.db, p, v, e) && e.rowWritten ==> p !in s.active
    case StartEvent(p, e, pick) =>
      StartGuard(s, p, e, pick).Ok? ==> if e.launch.Some? then e.runningWritten else e.runningWritten ==> e.rolledBack
    case StopEvent(p, e) => e.rowRead && p in s.active && e.stopped ==> e.rowWritten
    case UninstallEvent(p, e) => p in s.active ==> UninstallProceeds(s, p, e) && e.deletes.registry
    case GrantsEvent(_, _, _) => true
    case RestartEvent => s.active == map[]
  }

  lemma RegisterConsistent(root: string, s: Host, p: string, v: string, permissions: seq<Permission>, e: RegisterEnv,
                           pick: nat)
    requires Consistent(s)
    ensures Consistent(Register(s, root, p, v, permissions, e, pick).host)
            <==> Faultless(s, RegisterEvent(p, v, permissions, e, pick))
  {
    var next := Register(s, root, p, v, permissions, e, pick).host;
    assert next.active == s.active;
    if e.prepared && e.loaded && e.rowWritten {
      assert next.db.registry == s.db.registry[p := RegisteredRow(s.db, p, v)];
      assert p in next.db.registry && next.db.registry[p].status == PENDING;
    }
  }

  lemma MaterializeConsistent(s: Host, p: string, v: string, e: MaterializeEnv, pick: nat)
    requires Consistent(s)
    ensures Consistent(Materialize(s, p, v, e, pick).host) <==> Faultless(s, MaterializeEvent(p, v, e, pick))
  {
    var next := Materialize(s, p, v, e, pick).host;
    assert next.active == s.active;
    if p in s.db.registry && MaterializeProceeds(s.db, p, v, e) && e.rowWritten {
      assert next.db.registry == s.db.registry[p := RegistryRow(e.runtimeKind, Some(v), INSTALLED, false)];
      assert p in next.db.registry && next.db.registry[p].status == INSTALLED;
    } else {
      assert next.db.registry == s.db.registry;
    }
  }

  /** What a start that reached its launch leaves in the registry and among the handles. */
  lemma StartRow(s: Host, p: string, e: StartEnv, pick: nat)
    requires StartGuard(s, p, e, pick).Ok?
    ensures var next, row := Start(s, p, e, pick).host, s.db.registry[p];
      var running := if e.runningWritten then row.(enabled := true, status := RUNNING) else row;
      if e.launch.Some? then
        next.db.registry == s.db.registry[p := running] && next.active == s.active[p := Handle(p, e.launch.value)]
      else
        next.db.registry == s.db.registry[p := if e.rolledBack then row else running] && next.active == s.active
  {
    var row := s.db.registry[p];
    assert s.db.registry[p := row] == s.db.registry;
  }

  lemma StartConsistent(s: Host, p: string, e: StartEnv, pick: nat)
    requires Consistent(s)
    ensures Consistent(Start(s, p, e, pick).host) <==> Faultless(s, StartEvent(p, e, pick))
  {
    if StartGuard(s, p, e, pick).Ok? {
      StartRow(s, p, e, pick);
    }
  }

  lemma StopConsistent(s: Host, p: string, e: StopEnv)
    requires Consistent(s)
    ensures Consistent(Stop(s, p, e).host) <==> Faultless(s, StopEvent(p, e))
  {
    var next := Stop(s, p, e).host;
    if e.rowRead && p in s.active && e.stopped {
      assert p in next.db.registry && p !in next.active;
    }
  }

  lemma UninstallConsistent(s: Host, p: string, e: UninstallEnv)
    requires Consistent(s)
    ensures Consistent(Uninstall(s, p, e).host) <==> Faultless(s, UninstallEvent(p, e))
  {
    var next := Uninstall(s, p, e).host;
    assert p !in next.active;
    if p in s.active && !(UninstallProceeds(s, p, e) && e.deletes.registry) {
      assert p in next.db.registry && next.db.registry[p].status == RUNNING;
    }
  }

  lemma RestartConsistent(s: Host)
    requires Consistent(s)
    ensures Consistent(s.(active := map[])) <==> Faultless(s, RestartEvent)
  {
    if s.active != map[] {
      var p :| p in s.active;
      assert p in s.db.registry && s.db.registry[p].status == RUNNING;
    }
  }

  /** From a consistent state a request leads to a consistent state exactly when it is spared those faults. */
  lemma StepConsistent(root: string, s: Host, ev: Event)
    requires Consistent(s)
    ensures Consistent(Apply(root, s, ev).host) <==> Faultless(s, ev)
  {
    match ev
    case RegisterEvent(p, v, permissions, e, pick) => RegisterConsistent(root, s, p, v, permissions, e, pick);
    case MaterializeEvent(p, v, e, pick) => MaterializeConsistent(s, p, v, e, pick);
    case StartEvent(p, e, pick) => StartConsistent(s, p, e, pick);
    case StopEvent(p, e) => StopConsistent(s, p, e);
    case UninstallEvent(p, e) => UninstallConsistent(s, p, e);
    case GrantsEvent(p, items, pick) =>
    case RestartEvent => RestartConsistent(s);
  }

  ghost predicate ConsistentThroughout(root: string, events: seq<Event>) {
    forall i :: 0 <= i <= |events| ==> Consistent(Run(root, events[..i]))
  }

  ghost predicate FaultlessThroughout(root: string, events: seq<Event>) {
    forall i :: 0 <= i < |events| ==> Faultless(Run(root, events[..i]), events[i])
  }

  lemma ConsistentSplits(root: string, events: seq<Event>)
    requires events != []
    ensures var before := events[..|events| - 1];
      ConsistentThroughout(root, events) <==> ConsistentThroughout(root, before) && Consistent(Run(root, events))
  {
    hide Run, Consistent;
    var n := |events| - 1;
    assert forall i :: 0 <= i <= n ==> events[..n][..i] == events[..i];
    assert events[..|events|] == events;
  }

  lemma FaultlessSplits(root: string, events: seq<Event>)
    requires events != []
    ensures var before := events[..|events| - 1];
      FaultlessThroughout(root, events)
      <==> FaultlessThroughout(root, before) && Faultless(Run(root, before), events[|events| - 1])
  {
    hide Run, Faultless;
    var n := |events| - 1;
    assert forall i :: 0 <= i < n ==> events[..n][..i] == events[..i] && events[..n][i] == events[i];
  }

  /** Over a whole run: every state is consistent exactly when every request was faultless. */
  lemma {:induction false} RunConsistent(root: string, events: seq<Event>)
    ensures ConsistentThroughout(root, events) <==> FaultlessThroughout(root, events)
  {
    if events == [] {
      assert Consistent(FRESH);
    } else {
      var before := events[..|events| - 1];
      RunConsistent(root, before);
      ConsistentSplits(root, events);
      FaultlessSplits(root, events);
      if ConsistentThroughout(root, before) {
        assert before[..|before|] == before;
        StepConsistent(root, Run(root, before), events[|events| - 1]);
      }
    }
  }

  // ---- Facts of every run, faults included ----

  ghost predicate WellFormed(root: string, s: Host) {
    && (forall p :: p in s.db.registry ==> s.db.registry[p].status in {PENDING, INSTALLED, RUNNING})
    && (forall p :: p in s.active ==> s.active[p].plugin == p)
    && (forall i :: 0 <= i < |s.db.versions| ==> PathMatches(root, s.db.versions[i]))
    && UniqueKeys(s.db.grants) && UniqueKeys(s.db.navItems) && GrantShaped(s.db.grants)
  }

  ghost predicate PathMatches(root: string, r: Row<Key, VersionInfo>) {
    |r.key.rest| == 1 && r.value.packagePath == PackageDir(root, r.key.plugin, r.key.rest[0])
  }

  lemma {:induction false} ReplaceGrantsShaped(rows: Grants, p: string, items: seq<GrantItem>, pick: nat)
    requires GrantShaped(rows)
    ensures GrantShaped(ReplaceGrants(rows, p, items, pick))
  {
    if items != [] {
      ReplaceGrantsShaped(rows, p, items[..|items| - 1], pick);
    }
  }

  lemma DeleteWellFormed(root: string, db: Db, p: string, d: Deletes, r: Row<Key, VersionInfo>)
    requires forall i :: 0 <= i < |db.versions| ==> PathMatches(root, db.versions[i])
    ensures r in DeletePluginRows(db, p, d).versions ==> PathMatches(root, r)
  {
    SelectIn(db.versions, Not(OfPlugin(p)), r);
  }

  lemma UninstallWellFormed(root: string, s: Host, p: string, e: UninstallEnv)
    requires WellFormed(root, s)
    ensures WellFormed(root, Uninstall(s, p, e).host)
  {
    var db := DeletePluginRows(s.db, p, e.deletes);
    forall i | 0 <= i < |db.versions| ensures PathMatches(root, db.versions[i]) {
      DeleteWellFormed(root, s.db, p, e.deletes, db.versions[i]);
    }
    SelectUnique(s.db.grants, Not(OfPlugin(p)));
    SelectUnique(s.db.navItems, Not(OfPlugin(p)));
    forall r | r in db.grants ensures |r.key.rest| == 1 {
      SelectIn(s.db.grants, Not(OfPlugin(p)), r);
    }
  }

  lemma RegisterWellFormed(root: string, s: Host, p: string, v: string, permissions: seq<Permission>, e: RegisterEnv,
                           pick: nat)
    requires WellFormed(root, s)
    ensures WellFormed(root, Register(s, root, p, v, permissions, e, pick).host)
  {
    var items := DefaultPermissionGrants(permissions);
    var written := if e.grantWrites >= |items| then items else items[..e.grantWrites];
    ReplaceGrantsRefines(s.db.grants, p, written, pick);
    ReplaceGrantsShaped(s.db.grants, p, written, pick);
  }

  lemma StartKeepsTables(s: Host, p: string, e: StartEnv, pick: nat)
    ensures var db := Start(s, p, e, pick).host.db;
      && db.versions == s.db.versions && db.grants == s.db.grants
      && (db.navItems == s.db.navItems
          || (e.navItem.Some? && db.navItems == Upsert(s.db.navItems, Key(p, ["main"]), e.navItem.value, pick)))
  {
    hide StartGuard, Upsert;
  }

  lemma StartKeepsStatuses(s: Host, p: string, e: StartEnv, pick: nat)
    requires forall q :: q in s.db.registry ==> s.db.registry[q].status in {PENDING, INSTALLED, RUNNING}
    requires forall q :: q in s.active ==> s.active[q].plugin == q
    ensures var next := Start(s, p, e, pick).host;
      && (forall q :: q in next.db.registry ==> next.db.registry[q].status in {PENDING, INSTALLED, RUNNING})
      && (forall q :: q in next.active ==> next.active[q].plugin == q)
  {
    if StartGuard(s, p, e, pick).Ok? {
      StartRow(s, p, e, pick);
    }
  }

  lemma StartWellFormed(root: string, s: Host, p: string, e: StartEnv, pick: nat)
    requires WellFormed(root, s)
    ensures WellFormed(root, Start(s, p, e, pick).host)
  {
    hide Start, UniqueKeys, PathMatches, GrantShaped, Upsert;
    StartKeepsTables(s, p, e, pick);
    StartKeepsStatuses(s, p, e, pick);
    if e.navItem.Some? {
      UpsertRefines(s.db.navItems, Key(p, ["main"]), e.navItem.value, pick);
    }
  }

  lemma MaterializeWellFormed(root: string, s: Host, p: string, v: string, e: MaterializeEnv, pick: nat)
    requires WellFormed(root, s)
    ensures WellFormed(root, Materialize(s, p, v, e, pick).host)
  {
  }

  lemma StopWellFormed(root: string, s: Host, p: string, e: StopEnv)
    requires WellFormed(root, s)
    ensures WellFormed(root, Stop(s, p, e).host)
  {
  }

  lemma StepWellFormed(root: string, s: Host, ev: Event)
    requires WellFormed(root, s)
    ensures WellFormed(root, Apply(root, s, ev).host)
  {
    match ev
    case RegisterEvent(p, v, permissions, e, pick) => RegisterWellFormed(root, s, p, v, permissions, e, pick);
    case MaterializeEvent(p, v, e, pick) => MaterializeWellFormed(root, s, p, v, e, pick);
    case StartEvent(p, e, pick) => StartWellFormed(root, s, p, e, pick);
    case StopEvent(p, e) => StopWellFormed(root, s, p, e);
    case UninstallEvent(p, e) => UninstallWellFormed(root, s, p, e);
    case GrantsEvent(p, items, pick) =>
      ReplaceGrantsRefines(s.db.grants, p, items, pick);
      ReplaceGrantsShaped(s.db.grants, p, items, pick);
    case RestartEvent =>
  }

  lemma {:induction false} RunWellFormed(root: string, events: seq<Event>)
    ensures WellFormed(root, Run(root, events))
  {
    if events != [] {
      RunWellFormed(root, events[..|events| - 1]);
      StepWellFormed(root, Run(root, events[..|events| - 1]), events[|events| - 1]);
    }
  }

  // ---- History: what a launch was preceded by ----

  /** The event writes the registry row of `p` with a new version and status. */
  ghost predicate WritesRow(s: Host, ev: Event, p: string) {
    match ev
    case RegisterEvent(q, _, _, e, _) => q == p && e.prepared && e.loaded && e.rowWritten
    case MaterializeEvent(q, v, e, _) =>
      q == p && q in s.db.registry && MaterializeProceeds(s.db, q, v, e) && e.rowWritten
    case _ => false
  }

  /** The last event of a run that wrote the row of `p`. */
  ghost function LastWrite(root: string, events: seq<Event>, p: string): (r: Option<nat>)
    ensures r.Some? ==> r.value < |events|
  {
    if events == [] then None
    else
      var n := |events| - 1;
      if WritesRow(Run(root, events[..n]), events[n], p) then Some(n) else LastWrite(root, events[..n], p)
  }

  lemma {:induction false} LastWriteIsLast(root: string, events: seq<Event>, p: string)
    requires LastWrite(root, events, p).Some?
    ensures var j := LastWrite(root, events, p).value;
      && WritesRow(Run(root, events[..j]), events[j], p)
      && forall k :: j < k < |events| ==> !WritesRow(Run(root, events[..k]), events[k], p)
  {
    var n := |events| - 1;
    if !WritesRow(Run(root, events[..n]), events[n], p) {
      LastWriteIsLast(root, events[..n], p);
      forall k | LastWrite(root, events, p).value < k < |events|
        ensures !WritesRow(Run(root, events[..k]), events[k], p)
      {
        PrefixOfInit(events, k);
      }
      PrefixOfInit(events, LastWrite(root, events, p).value);
    }
  }

  /** A step that does not write the row of `p` keeps its version and never makes it leave pending. */
  lemma StepKeepsRow(root: string, s: Host, ev: Event, p: string)
    requires !WritesRow(s, ev, p)
    ensures var next := Apply(root, s, ev).host;
      p in next.db.registry ==>
        && p in s.db.registry
        && next.db.registry[p].currentVersion == s.db.registry[p].currentVersion
        && (next.db.registry[p].status != PENDING ==> s.db.registry[p].status != PENDING)
  {
    match ev
    case StartEvent(q, e, pick) =>
      if StartGuard(s, q, e, pick).Ok? {
        StartRow(s, q, e, pick);
      }
    case _ =>
  }

  lemma StepWritesRow(root: string, s: Host, ev: Event, p: string)
    requires WritesRow(s, ev, p)
    ensures var next := Apply(root, s, ev).host;
      && p in next.db.registry
      && next.db.registry[p].currentVersion == Some(ev.version)
      && (next.db.registry[p].status == PENDING <==> ev.RegisterEvent?)
  {
  }

  /** A registered plugin's row carries the version of its last write, and left pending only by a materialize. */
  lemma {:induction false} RowHistory(root: string, events: seq<Event>, p: string)
    requires p in Run(root, events).db.registry
    ensures var row, last := Run(root, events).db.registry[p], LastWrite(root, events, p);
      && last.Some?
      && WritesRow(Run(root, events[..last.value]), events[last.value], p)
      && row.currentVersion == Some(events[last.value].version)
      && (row.status != PENDING ==> events[last.value].MaterializeEvent?)
  {
    var n := |events| - 1;
    var s, ev := Run(root, events[..n]), events[n];
    if WritesRow(s, ev, p) {
      StepWritesRow(root, s, ev, p);
    } else {
      StepKeepsRow(root, s, ev, p);
      RowHistory(root, events[..n], p);
      var j := LastWrite(root, events[..n], p).value;
      assert events[..n][..j] == events[..j];
    }
  }

  /**
   When a start reaches its launch, the last event that wrote the plugin's row was a materialize of its
   current version, and the directory launched is that version's package directory, whichever of several
   version rows the query returned.
   */
  lemma LaunchFollowsMaterialize(root: string, events: seq<Event>, p: string, e: StartEnv, pick: nat)
    requires StartGuard(Run(root, events), p, e, pick).Ok?
    ensures exists j ::
      && 0 <= j < |events| && events[j].MaterializeEvent?
      && WritesRow(Run(root, events[..j]), events[j], p)
      && (forall k :: j < k < |events| ==> !WritesRow(Run(root, events[..k]), events[k], p))
      && Run(root, events).db.registry[p].currentVersion == Some(events[j].version)
      && StartGuard(Run(root, events), p, e, pick) == Ok(PackageDir(root, p, events[j].version))
  {
    var s := Run(root, events);
    RowHistory(root, events, p);
    LastWriteIsLast(root, events, p);
    RunWellFormed(root, events);
    var j := LastWrite(root, events, p).value;
    var i := One(s.db.versions, VersionKey(p, events[j].version), pick).value;
    assert PathMatches(root, s.db.versions[i]);
  }

  /** The directory from which a plugin's user interface is served: that of its current version's row. */
  function LoadPackageRoot(db: Db, p: string, pick: nat): Result<string, StartError> {
    if p !in db.registry then Err(NotFound)
    else if db.registry[p].currentVersion.None? then Err(NoVersion)
    else
      match One(db.versions, VersionKey(p, db.registry[p].currentVersion.value), pick)
      case None => Err(NoVersionRow)
      case Some(i) => Ok(db.versions[i].value.packagePath)
  }

  /** In every reachable state a launch and the user interface use the same directory, whichever rows are picked. */
  lemma ServedIsLaunched(root: string, events: seq<Event>, p: string, e: StartEnv, pick: nat, other: nat)
    requires LoadPackageRoot(Run(root, events).db, p, other).Ok?
    ensures var s, dir := Run(root, events), LoadPackageRoot(Run(root, events).db, p, other).value;
      && s.db.registry[p].currentVersion.Some? && dir == PackageDir(root, p, s.db.registry[p].currentVersion.value)
      && (StartGuard(s, p, e, pick).Ok? ==> StartGuard(s, p, e, pick).value == dir)
  {
    hide Run;
    RunWellFormed(root, events);
    var s := Run(root, events);
    var k := VersionKey(p, s.db.registry[p].currentVersion.value);
    var i := One(s.db.versions, k, other).value;
    assert PathMatches(root, s.db.versions[i]);
    match One(s.db.versions, k, pick)
    case None =>
    case Some(j) => assert PathMatches(root, s.db.versions[j]);
  }

  // ---- Uninstall ----

  /** The rows of one plugin in each table. */
  ghost predicate SameRowsOf(a: Db, b: Db, q: string) {
    && (q in a.registry <==> q in b.registry) && (q in a.registry ==> a.registry[q] == b.registry[q])
    && Select(a.versions, OfPlugin(q)) == Select(b.versions, OfPlugin(q))
    && Select(a.grants, OfPlugin(q)) == Select(b.grants, OfPlugin(q))
    && Select(a.tasks, OfPlugin(q)) == Select(b.tasks, OfPlugin(q))
    && Select(a.navItems, OfPlugin(q)) == Select(b.navItems, OfPlugin(q))
    && Select(a.shared, OfPlugin(q)) == Select(b.shared, OfPlugin(q))
    && Select(a.migrations, OfPlugin(q)) == Select(b.migrations, OfPlugin(q))
  }

  ghost predicate NoRowsOf(db: Db, p: string) {
    && p !in db.registry && NoRows(db.versions, p) && NoRows(db.grants, p) && NoRows(db.tasks, p)
    && NoRows(db.navItems, p) && NoRows(db.shared, p) && NoRows(db.migrations, p)
  }

  /**
   An uninstall that succeeds with its deletes leaves no row and no handle of the plugin, and adds one
   audit row.
   */
  lemma UninstallComplete(s: Host, p: string, e: UninstallEnv)
    requires Uninstall(s, p, e).ok && e.deletes.All() && e.audited
    ensures var next := Uninstall(s, p, e).host;
      && NoRowsOf(next.db, p)
      && next.active == s.active - {p}
      && next.db.audit == s.db.audit + [AuditRow(p, "uninstall")]
  {
    DeletePluginExact(s.db.versions, p, p);
    DeletePluginExact(s.db.grants, p, p);
    DeletePluginExact(s.db.tasks, p, p);
    DeletePluginExact(s.db.navItems, p, p);
    DeletePluginExact(s.db.shared, p, p);
    DeletePluginExact(s.db.migrations, p, p);
  }

  /** Whatever fails, an uninstall leaves every other plugin's rows and handle as they were. */
  lemma UninstallFrame(s: Host, p: string, e: UninstallEnv, q: string)
    requires q != p
    ensures var next := Uninstall(s, p, e).host;
      && SameRowsOf(next.db, s.db, q)
      && (q in next.active <==> q in s.active) && (q in s.active ==> next.active[q] == s.active[q])
  {
    hide Select, Delete, NoRows;
    DeletePluginExact(s.db.versions, p, q);
    DeletePluginExact(s.db.grants, p, q);
    DeletePluginExact(s.db.tasks, p, q);
    DeletePluginExact(s.db.navItems, p, q);
    DeletePluginExact(s.db.shared, p, q);
    DeletePluginExact(s.db.migrations, p, q);
  }

  // ---- The audit log ----

  lemma StepAudit(root: string, s: Host, ev: Event)
    ensures s.db.audit <= Apply(root, s, ev).host.db.audit
    ensures |Apply(root, s, ev).host.db.audit| <= |s.db.audit| + 1
  {
    hide StartGuard, Upsert, ReplaceGrants, DefaultPermissionGrants, Delete, MaterializeProceeds, PackageDir;
  }

  /** Along every run the audit log only grows, by at most one row a request. */
  lemma {:induction false} AuditGrows(root: string, events: seq<Event>, more: seq<Event>)
    ensures Run(root, events).db.audit <= Run(root, events + more).db.audit
    ensures |Run(root, events + more).db.audit| <= |Run(root, events).db.audit| + |more|
  {
    if more == [] {
      assert events + more == events;
    } else {
      var n := |more| - 1;
      AuditGrows(root, events, more[..n]);
      ConcatInit(events, more);
      StepAudit(root, Run(root, events + more[..n]), more[n]);
    }
  }
}
