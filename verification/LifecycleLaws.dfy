/** What the lifecycle requests answer, and how they compose: what one enables, undoes or leaves for the next. */
module LifecycleLaws {
  import opened Wrappers
  import opened Tables
  import opened Database
  import opened Permissions
  import opened Lifecycle

  /** The queries before a launch all succeed. */
  predicate Readable(e: StartEnv) {
    e.rowRead && e.versionRead && e.manifestRead
  }

  lemma {:induction false} LastIsFound<V>(rows: seq<Row<Key, V>>, k: Key, v: V)
    ensures HasKey(rows + [Row(k, v)], k)
  {
    assert (rows + [Row(k, v)])[|rows|].key == k;
  }

  lemma RegisterAddsVersion(s: Host, root: string, p: string, v: string, permissions: seq<Permission>, r: RegisterEnv,
                            pick: nat)
    requires WellFormed(root, s) && Register(s, root, p, v, permissions, r, pick).ok
    ensures var next := Register(s, root, p, v, permissions, r, pick).host;
      && WellFormed(root, next) && p in next.db.registry && next.db.registry[p].currentVersion == Some(v)
      && HasKey(next.db.versions, VersionKey(p, v)) && |next.db.versions| == |s.db.versions| + 1
  {
    RegisterWellFormed(root, s, p, v, permissions, r, pick);
    LastIsFound(s.db.versions, VersionKey(p, v), VersionInfo(PackageDir(root, p, v), PENDING));
  }

  /** The version row a materialize finds is marked installed; no row is added, removed or moved elsewhere. */
  lemma MaterializeMarks(s: Host, p: string, v: string, m: MaterializeEnv, pick: nat)
    requires Materialize(s, p, v, m, pick).ok && HasKey(s.db.versions, VersionKey(p, v))
    ensures var next := Materialize(s, p, v, m, pick).host;
      && |next.db.versions| == |s.db.versions|
      && (forall i :: 0 <= i < |s.db.versions| ==>
            next.db.versions[i].key == s.db.versions[i].key
            && next.db.versions[i].value.packagePath == s.db.versions[i].value.packagePath)
      && exists i :: 0 <= i < |next.db.versions| && next.db.versions[i].key == VersionKey(p, v)
                     && next.db.versions[i].value.status == INSTALLED
  {
    var i := One(s.db.versions, VersionKey(p, v), pick).value;
    assert Materialize(s, p, v, m, pick).host.db.versions[i].value.status == INSTALLED;
  }

  lemma StartableFrom(root: string, s: Host, p: string, v: string, e: StartEnv, pick: nat)
    requires WellFormed(root, s) && p in s.db.registry && s.db.registry[p].currentVersion == Some(v)
    requires s.db.registry[p].status == INSTALLED && HasKey(s.db.versions, VersionKey(p, v)) && Readable(e)
    ensures StartGuard(s, p, e, pick) == Ok(PackageDir(root, p, v))
  {
    var i := One(s.db.versions, VersionKey(p, v), pick).value;
    assert PathMatches(root, s.db.versions[i]);
  }

  /**
   Installing in two phases is enough to start: after a registration and a materialize of the same version
   a start reaches the launch of that version's package directory, whichever rows its queries return.
   */
  lemma InstallEnablesStart(s: Host, root: string, p: string, v: string, permissions: seq<Permission>, r: RegisterEnv,
                            m: MaterializeEnv, e: StartEnv, pick: nat, mpick: nat, spick: nat)
    requires WellFormed(root, s) && Readable(e)
    requires Register(s, root, p, v, permissions, r, pick).ok
    requires Materialize(Register(s, root, p, v, permissions, r, pick).host, p, v, m, mpick).ok
    ensures var installed := Materialize(Register(s, root, p, v, permissions, r, pick).host, p, v, m, mpick).host;
      StartGuard(installed, p, e, spick) == Ok(PackageDir(root, p, v))
  {
    hide Register, Materialize, StartGuard, WellFormed, HasKey, One;
    var registered := Register(s, root, p, v, permissions, r, pick).host;
    RegisterAddsVersion(s, root, p, v, permissions, r, pick);
    MaterializedRow(registered, root, p, v, m, mpick);
    StartableFrom(root, Materialize(registered, p, v, m, mpick).host, p, v, e, spick);
  }

  lemma MaterializedRow(s: Host, root: string, p: string, v: string, m: MaterializeEnv, pick: nat)
    requires WellFormed(root, s) && p in s.db.registry && HasKey(s.db.versions, VersionKey(p, v))
    requires Materialize(s, p, v, m, pick).ok
    ensures var next := Materialize(s, p, v, m, pick).host;
      && WellFormed(root, next) && p in next.db.registry && next.db.registry[p].currentVersion == Some(v)
      && next.db.registry[p].status == INSTALLED && HasKey(next.db.versions, VersionKey(p, v))
  {
    MaterializeWellFormed(root, s, p, v, m, pick);
    MaterializeMarks(s, p, v, m, pick);
  }

  /** A start whose launch fails is undone exactly when the running mark was not written or was rolled back. */
  lemma FailedStartUndone(s: Host, p: string, e: StartEnv, pick: nat)
    requires StartGuard(s, p, e, pick).Ok? && e.launch.None?
    ensures var next := Start(s, p, e, pick).host;
      next.active == s.active && (next.db.registry == s.db.registry <==> (e.runningWritten ==> e.rolledBack))
  {
    StartRow(s, p, e, pick);
    var row := s.db.registry[p];
    assert row.status != RUNNING;
    if e.runningWritten && !e.rolledBack {
      assert Start(s, p, e, pick).host.db.registry[p].status == RUNNING;
    }
  }

  /** From a consistent state, stopping what was just started gives back the registry and the handles. */
  lemma StopUndoesStart(s: Host, p: string, e: StartEnv, pick: nat, t: StopEnv)
    requires Consistent(s) && StartGuard(s, p, e, pick).Ok? && e.launch.Some? && e.runningWritten
    requires Stop(Start(s, p, e, pick).host, p, t).ok && t.rowWritten
    ensures var next := Stop(Start(s, p, e, pick).host, p, t).host;
      next.active == s.active && next.db.registry == s.db.registry
  {
    StartRow(s, p, e, pick);
    var started, row := Start(s, p, e, pick).host, s.db.registry[p];
    assert row.status == INSTALLED && !row.enabled;
    assert started.db.registry[p] == row.(enabled := true, status := RUNNING);
    assert Stop(started, p, t).host.db.registry == started.db.registry[p := row];
    assert s.db.registry[p := row] == s.db.registry;
    assert p !in s.active;
  }

  // ---- What a request answers, and what it then has written ----

  /** Which check refuses a start, told by what is stored and read. */
  lemma GuardAnswers(s: Host, p: string, e: StartEnv, pick: nat)
    ensures var r, known := StartGuard(s, p, e, pick), e.rowRead && p in s.db.registry;
      && (r == Err(NotFound) <==> e.rowRead && p !in s.db.registry)
      && (r == Err(StillPending) <==> known && s.db.registry[p].status == "pending")
      && (r == Err(AlreadyRunning) <==> known && s.db.registry[p].status == "running")
      && var idle := known && s.db.registry[p].status !in {"pending", "running"};
         && (r == Err(NoVersion) <==> idle && s.db.registry[p].currentVersion.None?)
         && var read := idle && s.db.registry[p].currentVersion.Some? && e.versionRead;
            && (r == Err(NoVersionRow) <==> read && !HasKey(s.db.versions, CurrentKey(s.db, p)))
            && (r.Ok? <==> read && HasKey(s.db.versions, CurrentKey(s.db, p)) && e.manifestRead)
            && (r.Ok? ==>
                  exists row ::
                    row in s.db.versions && row.key == CurrentKey(s.db, p) && r.value == row.value.packagePath)
  {
    if StartGuard(s, p, e, pick).Ok? {
      var i := One(s.db.versions, VersionKey(p, s.db.registry[p].currentVersion.value), pick).value;
      assert s.db.versions[i] in s.db.versions;
    }
  }

  /** Of several rows of the current version a start and the user interface may be given any. */
  lemma AnyRowMayBeRead(s: Host, p: string, e: StartEnv, i: nat)
    requires Readable(e) && p in s.db.registry && s.db.registry[p].status !in {"pending", "running"}
    requires s.db.registry[p].currentVersion.Some?
    requires i < |s.db.versions| && s.db.versions[i].key == CurrentKey(s.db, p)
    ensures exists pick ::
      && StartGuard(s, p, e, pick) == Ok(s.db.versions[i].value.packagePath)
      && LoadPackageRoot(s.db, p, pick) == Ok(s.db.versions[i].value.packagePath)
  {
    assert StartGuard(s, p, e, i) == Ok(s.db.versions[i].value.packagePath);
  }

  function CurrentKey(db: Db, p: string): Key
    requires p in db.registry && db.registry[p].currentVersion.Some?
  {
    Key(p, [db.registry[p].currentVersion.value])
  }

  /** The audit log after a request that may have recorded its action. */
  predicate Recorded(before: Db, after: Db, p: string, action: string, written: bool) {
    after.audit == before.audit + if written then [AuditRow(p, action)] else []
  }

  /**
   A start succeeds exactly if no check refuses it and the launch brings up a runtime. Refused, it changes
   nothing; failed, it changes no handle; successful, its handle is kept and the row says so if it was written.
   */
  lemma StartAnswers(s: Host, p: string, e: StartEnv, pick: nat)
    ensures var r, guard := Start(s, p, e, pick), StartGuard(s, p, e, pick);
      && (r.ok <==> guard.Ok? && e.launch.Some?)
      && (guard.Err? ==> r.host == s)
      && (guard.Ok? ==> Recorded(s.db, r.host.db, p, "start", e.audited))
      && (guard.Ok? && e.launch.None? ==> r.host.active == s.active && r.host.db.navItems == s.db.navItems)
      && (r.ok ==>
            && r.host.active == s.active[p := Handle(p, e.launch.value)]
            && (e.runningWritten ==>
                  r.host.db.registry == s.db.registry[p := s.db.registry[p].(enabled := true, status := "running")])
            && (e.navItem.Some? && e.navWritten ==>
                  Row(Key(p, ["main"]), e.navItem.value) in r.host.db.navItems)
            && (!(e.navItem.Some? && e.navWritten) ==> r.host.db.navItems == s.db.navItems))
      && r.host.db == s.db.(registry := r.host.db.registry, navItems := r.host.db.navItems, audit := r.host.db.audit)
  {
    hide StartGuard, Upsert;
    if StartGuard(s, p, e, pick).Ok? {
      StartRow(s, p, e, pick);
    }
    if Start(s, p, e, pick).ok && e.navItem.Some? {
      UpsertHolds(s.db.navItems, Key(p, ["main"]), e.navItem.value, pick);
    }
    assert s.db.audit + [] == s.db.audit;
  }

  lemma UpsertHolds<K, V>(rows: seq<Row<K, V>>, k: K, v: V, pick: nat)
    ensures Row(k, v) in Upsert(rows, k, v, pick)
  {
    match One(rows, k, pick)
    case Some(i) => assert rows[i := Row(k, v)][i] == Row(k, v);
    case None => assert (rows + [Row(k, v)])[|rows|] == Row(k, v);
  }

  /** A registration succeeds exactly if all of its steps do; it then leaves a pending row and a pending version. */
  lemma RegisterAnswers(s: Host, root: string, p: string, v: string, permissions: seq<Permission>, e: RegisterEnv,
                        pick: nat)
    ensures var r := Register(s, root, p, v, permissions, e, pick);
      && (r.ok <==> && e.prepared && e.loaded && e.rowWritten && e.versionInserted
                    && e.grantWrites >= |permissions| && e.audited)
      && (!(e.prepared && e.loaded && e.rowWritten) ==> r.host == s)
      && r.host.active == s.active && Recorded(s.db, r.host.db, p, "register", r.ok)
      && (r.ok ==>
            && r.host.db.registry == s.db.registry[p :=
                 if p in s.db.registry then s.db.registry[p].(currentVersion := Some(v), status := "pending")
                 else RegistryRow("", Some(v), "pending", false)]
            && r.host.db.versions == s.db.versions + [Row(Key(p, [v]), VersionInfo(PackageDir(root, p, v), "pending"))]
            && r.host.db == s.db.(registry := r.host.db.registry, versions := r.host.db.versions,
                                  grants := r.host.db.grants, audit := r.host.db.audit))
  {
    hide ReplaceGrants, PackageDir;
    assert s.db.audit + [] == s.db.audit;
  }

  /** The other two requests cannot fail: grants are replaced as listed, a restart forgets the handles and no row. */
  lemma AlwaysAnswered(root: string, s: Host, p: string, items: seq<GrantItem>, pick: nat)
    requires UniqueKeys(s.db.grants)
    ensures var r := Apply(root, s, GrantsEvent(p, items, pick));
      && r.ok && r.host == s.(db := s.db.(grants := r.host.db.grants))
      && ToMap(r.host.db.grants) == ToMap(s.db.grants) + ItemsMap(p, items)
    ensures Apply(root, s, RestartEvent) == Reply(s.(active := map[]), true)
  {
    ReplaceGrantsRefines(s.db.grants, p, items, pick);
  }

  /** Where the user interface is served from, or why it is not. */
  lemma LoadAnswers(db: Db, p: string, pick: nat)
    ensures var r, known := LoadPackageRoot(db, p, pick), p in db.registry;
      && (r == Err(NotFound) <==> !known)
      && (r == Err(NoVersion) <==> known && db.registry[p].currentVersion.None?)
      && var current := known && db.registry[p].currentVersion.Some?;
         && (r == Err(NoVersionRow) <==> current && !HasKey(db.versions, CurrentKey(db, p)))
         && (r.Ok? <==> current && HasKey(db.versions, CurrentKey(db, p)))
         && (r.Ok? ==>
               exists row :: row in db.versions && row.key == CurrentKey(db, p) && r.value == row.value.packagePath)
  {
    if LoadPackageRoot(db, p, pick).Ok? {
      var i := One(db.versions, VersionKey(p, db.registry[p].currentVersion.value), pick).value;
      assert db.versions[i] in db.versions;
    }
  }

  /** Joining paths: one slash between the parts, and an absolute second part alone. */
  lemma JoinPathIs(base: string, name: string)
    ensures "/" <= name ==> JoinPath(base, name) == name
    ensures !("/" <= name) && base == "" ==> JoinPath(base, name) == name
    ensures !("/" <= name) ==> JoinPath(base + "/", name) == base + "/" + name
    ensures !("/" <= name) && base != "" && base[|base| - 1] != '/' ==> JoinPath(base, name) == base + "/" + name
  {
  }

  /** The directory of a version: under the packages root, the plugin's and then the version's. */
  lemma PackageDirOf(root: string, p: string, v: string)
    requires root != "" && root[|root| - 1] != '/'
    requires p != "" && v != "" && '/' !in p && '/' !in v
    ensures PackageDir(root, p, v) == root + "/" + p + "/" + v
  {
    var dir := root + "/" + p;
    assert dir[|dir| - 1] == p[|p| - 1];
  }

  /** A materialize succeeds exactly if all of its steps do that it takes; an upgrade and a row are not needed. */
  lemma MaterializeAnswers(s: Host, p: string, v: string, e: MaterializeEnv, pick: nat)
    ensures var r, known := Materialize(s, p, v, e, pick), p in s.db.registry;
      && (r.ok <==> && e.prepared && e.loaded
                    && (known && s.db.registry[p].currentVersion.Some? && s.db.registry[p].currentVersion != Some(v)
                        ==> e.upgraded)
                    && (known ==> e.rowWritten)
                    && e.versionLoaded && (HasKey(s.db.versions, Key(p, [v])) ==> e.versionWritten) && e.audited)
      && r.host.active == s.active && Recorded(s.db, r.host.db, p, "materialize", r.ok)
      && (r.ok ==> r.host.db.registry
                   == if known then s.db.registry[p := RegistryRow(e.runtimeKind, Some(v), "installed", false)]
                      else s.db.registry)
      && r.host.db == s.db.(registry := r.host.db.registry, versions := r.host.db.versions, audit := r.host.db.audit)
  {
    assert s.db.audit + [] == s.db.audit;
  }

  /**
   A stop succeeds exactly if the row was read, says running, a handle is there and the runtime stops; failing,
   it changes nothing but, if the runtime did not stop, the audit log.
   */
  lemma StopAnswers(s: Host, p: string, e: StopEnv)
    ensures var r := Stop(s, p, e);
      var tried := e.rowRead && p in s.db.registry && s.db.registry[p].status == "running" && p in s.active;
      && (r.ok <==> tried && e.stopped)
      && Recorded(s.db, r.host.db, p, "stop", tried && e.audited)
      && r.host.active == (if r.ok then s.active - {p} else s.active)
      && r.host.db.registry == (if r.ok && e.rowWritten
                                then s.db.registry[p := s.db.registry[p].(enabled := false, status := "installed")]
                                else s.db.registry)
      && r.host.db == s.db.(registry := r.host.db.registry, audit := r.host.db.audit)
  {
    assert s.db.audit + [] == s.db.audit;
  }

  /** An uninstall takes the handle in any case; it succeeds exactly if stop and queries do, whatever the deletes. */
  lemma UninstallAnswers(s: Host, p: string, e: UninstallEnv)
    ensures var r := Uninstall(s, p, e);
      && (r.ok <==> && (p in s.active ==> e.stopped) && e.rowRead && p in s.db.registry
                    && (s.db.registry[p].currentVersion.Some? ==> e.versionRead))
      && r.host.active == s.active - {p}
      && (!r.ok ==> r.host.db == s.db)
      && Recorded(s.db, r.host.db, p, "uninstall", r.ok && e.audited)
      && (r.ok ==> && r.host.db.registry == (if e.deletes.registry then s.db.registry - {p} else s.db.registry)
                   && (!e.deletes.versions ==> r.host.db.versions == s.db.versions)
                   && (!e.deletes.grants ==> r.host.db.grants == s.db.grants)
                   && (!e.deletes.tasks ==> r.host.db.tasks == s.db.tasks)
                   && (!e.deletes.navItems ==> r.host.db.navItems == s.db.navItems)
                   && (!e.deletes.shared ==> r.host.db.shared == s.db.shared)
                   && (!e.deletes.migrations ==> r.host.db.migrations == s.db.migrations))
  {
    assert s.db.audit + [] == s.db.audit;
  }

  /** A materialize that would write its row depends on how an upgrade ends exactly if it takes that branch. */
  lemma UpgradeDecides(s: Host, p: string, version: string, e: MaterializeEnv, pick: nat)
    requires e.prepared && e.loaded && e.rowWritten
    ensures var failed, done := e.(upgraded := false), e.(upgraded := true);
      Materialize(s, p, version, failed, pick) != Materialize(s, p, version, done, pick) <==> Upgrades(s.db, p, version)
  {
    var next := Materialize(s, p, version, e.(upgraded := true), pick).host;
    if Upgrades(s.db, p, version) {
      assert next.db.registry[p].currentVersion == Some(version);
    }
  }

  /**
   In every run the outcome of an upgrade decides a materialize exactly when the last event that wrote the
   plugin's row was about another version; so never right after the registration of its version.
   */
  lemma UpgradesAfterOtherVersion(root: string, events: seq<Event>, p: string, version: string, e: MaterializeEnv,
                                  pick: nat)
    requires p in Run(root, events).db.registry && e.prepared && e.loaded && e.rowWritten
    ensures LastWrite(root, events, p).Some?
    ensures var last := events[LastWrite(root, events, p).value];
      && (last.RegisterEvent? || last.MaterializeEvent?)
      && var s := Run(root, events);
         var failed, done := e.(upgraded := false), e.(upgraded := true);
         Materialize(s, p, version, failed, pick) != Materialize(s, p, version, done, pick) <==> last.version != version
  {
    hide Run, LastWrite, Materialize;
    RowHistory(root, events, p);
    UpgradeDecides(Run(root, events), p, version, e, pick);
  }

  // ---- Runs in which the faults occur ----

  function Registers(p: string, v: string): Event {
    RegisterEvent(p, v, [], RegisterEnv(true, true, true, true, 0, true), 0)
  }

  function Materializes(p: string, v: string): Event {
    MaterializeEvent(p, v, MaterializeEnv(true, true, "process", true, true, true, true, true), 0)
  }

  function Starts(p: string): Event {
    StartEvent(p, StartEnv(true, true, true, true, Some(0), true, None, true, true), 0)
  }

  lemma RunNext(root: string, events: seq<Event>, ev: Event)
    ensures Run(root, events + [ev]) == Apply(root, Run(root, events), ev).host
  {
    hide Apply;
    assert (events + [ev])[..|events|] == events;
  }

  /** A host on which one plugin was installed, whatever its audit log says. */
  ghost predicate HasOnly(root: string, s: Host, p: string, v: string, row: RegistryRow) {
    && s.db.registry == map[p := row] && row.currentVersion == Some(v)
    && |s.db.versions| == 1 && s.db.versions[0].key == VersionKey(p, v)
    && s.db.versions[0].value.packagePath == PackageDir(root, p, v)
  }

  lemma RegistersFirst(root: string, p: string, v: string)
    ensures var s := Apply(root, FRESH, Registers(p, v)).host;
      HasOnly(root, s, p, v, RegistryRow("", Some(v), PENDING, false)) && s.active == map[] && s.db.grants == []
  {
    assert DefaultPermissionGrants([]) == [];
  }

  lemma MaterializesNext(root: string, s: Host, p: string, v: string, row: RegistryRow)
    requires HasOnly(root, s, p, v, row) && s.active == map[]
    ensures var next := Apply(root, s, Materializes(p, v)).host;
      HasOnly(root, next, p, v, RegistryRow("process", Some(v), INSTALLED, false)) && next.active == map[]
  {
  }

  lemma StartsNext(root: string, s: Host, p: string, v: string)
    requires HasOnly(root, s, p, v, RegistryRow("process", Some(v), INSTALLED, false)) && s.active == map[]
    ensures var next := Apply(root, s, Starts(p)).host;
      && HasOnly(root, next, p, v, RegistryRow("process", Some(v), RUNNING, true))
          && next.active == map[p := Handle(p, 0)]
  {
  }

  function UpToRunning(p: string, v: string): seq<Event> {
    [Registers(p, v)] + [Materializes(p, v)] + [Starts(p)]
  }

  lemma RunsUp(root: string, p: string, v: string)
    ensures var s := Run(root, UpToRunning(p, v));
      HasOnly(root, s, p, v, RegistryRow("process", Some(v), RUNNING, true)) && s.active == map[p := Handle(p, 0)]
  {
    hide Run, Apply, HasOnly, Registers, Materializes, Starts;
    var a, b := [Registers(p, v)], [Registers(p, v)] + [Materializes(p, v)];
    RunNext(root, [], Registers(p, v));
    assert [] + a == a;
    RunNext(root, a, Materializes(p, v));
    RunNext(root, b, Starts(p));
    RunOfNothing(root);
    RegistersFirst(root, p, v);
    MaterializesNext(root, Run(root, a), p, v, RegistryRow("", Some(v), PENDING, false));
    StartsNext(root, Run(root, b), p, v);
  }

  lemma RunOfNothing(root: string)
    ensures Run(root, []) == FRESH
  {
  }

  /**
   For every plugin there is a run, consistent to its end, after which registering the plugin again leaves a
   live handle beside a row that says pending.
   */
  lemma RegisterWhileRunning(root: string, p: string, v: string)
    ensures Consistent(Run(root, UpToRunning(p, v)))
    ensures var s := Run(root, UpToRunning(p, v) + [Registers(p, v)]);
      && !Consistent(s) && p in s.active && p in s.db.registry && s.db.registry[p].status == PENDING
  {
    hide Run;
    RunsUp(root, p, v);
    var s := Run(root, UpToRunning(p, v));
    RunNext(root, UpToRunning(p, v), Registers(p, v));
    StepConsistent(root, s, Registers(p, v));
  }

  /** In no run does a materialize upgrade when it follows the registration of its version at once. */
  lemma InstallNeverUpgrades(root: string, events: seq<Event>, p: string, v: string, permissions: seq<Permission>,
                             r: RegisterEnv, pick: nat)
    requires Register(Run(root, events), root, p, v, permissions, r, pick).ok
    ensures !Upgrades(Run(root, events + [RegisterEvent(p, v, permissions, r, pick)]).db, p, v)
  {
    RunNext(root, events, RegisterEvent(p, v, permissions, r, pick));
  }
}
