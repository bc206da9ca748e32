# Plugin manager: a verified model

A Dafny model of a plugin manager written in Rust: it installs plugin packages, runs plugins as processes or
containers, brokers storage and tables for them, and proxies requests to them. The model follows the source's
branches, error returns and constants; what the outside does (queries, row writes, the effect of a migration's
statements, launches, downloads, signals, the clock) is a parameter of each operation, and the theorems hold for
every value of it that their conditions admit. Migrations act on the tables the host itself uses: `BrokerRuns` has
the runs in which they occur, `Lifecycle` those of lifecycle requests alone.

`dafny verify dfyconfig.toml` checks the whole project.

## Components

- **Plugin lifecycle.** `Lifecycle` gives register, materialize, start, stop, uninstall, grant updates and a host
  restart as functions of the state and of the outcomes of their queries, writes, launches and stops. `Handlers`
  is the same as methods of a class that write one row or map entry at a time, each proved equal to its function.
  `Ownership` cuts start, stop and uninstall at their awaits and lets any number of them interleave with each
  other, with row writes by anyone, with requests dropped midway and with restarts; `Refinement` shows that a request
  run there without interruption is the serial one, and every serial run a run there. `LifecycleLaws` says what each
  request answers, and what it enables, undoes or leaves for another.
- **Installer.** `Filesystem` is a tree of files and directories with the calls the installer makes, `Paths` the
  components of a path text. `Archives` says what unpacking leaves; `PackageExtract` has the two extraction loops;
  `SetupSteps` the interpreter of setup commands with guards, `Template` variables and download overrides, and
  `SetupLaws` what each of its steps answers.
- **Host broker.** `Tables` and `Permissions` are tables of rows without a unique index; `Broker` the requests on
  shared records, tasks, navigation items and migrations; `BrokerRuns` their runs together with lifecycle requests;
  `SqlScript` the statement splitter; `KvBroker` the namespaced key-value store; `SignedContext` the signed headers.
- **Protocols.** `ProcessRuntime` is the health check and the terminate-then-kill loop against an adversarial system
  and clock; `WebSocketBridge` the two concurrent pumps.

## What the proofs found

- The agreement "handle present, status running, enabled" survives a request exactly under the conditions of
  `Lifecycle.Faultless`: among others, registering a plugin that has a live handle breaks it, because registering
  resets the status without looking at the handles (`Lifecycle.RunConsistent`, `LifecycleLaws.RegisterWhileRunning`).
- Runtimes are owned linearly in every interleaving, but one can be forgotten: exactly when a handle is inserted over
  another, the stop of an uninstall or the ending of a runtime that did not become healthy fails, a request that holds a
  runtime is dropped, or the host restarts (`Ownership.NothingForgotten`). Two overlapping starts of one plugin do it
  (`Ownership.OverlappingStartsForget`), and a start dropped during its health checks (`Ownership.DroppedStartForgets`).
- Registering resets the current version before materialize compares it, so upgrade commands and the removal of the old
  version's directory never follow the usual pair of requests (`LifecycleLaws.UpgradesAfterOtherVersion`).
- A template value is substituted again exactly when part of it is, or with what follows becomes, a placeholder replaced
  later (`Template.SubstitutesExactly`, `Template.BraceInValueIsResolvedAgain`).
- An archive name that the zip reader deems enclosed may climb once leading components are stripped, and is then written
  outside the destination; what stays below is told exactly by the rest of the name
  (`PackageExtract.SurvivorStaysBelow`, `PackageExtract.StrippedNameLeaves`).
- Guards of setup steps are not resolved like destinations are, so a guarded step runs once exactly when its guard
  lies at or above its resolved destination (`SetupSteps.GuardTurnsFalse`, `SetupSteps.PlaceholderRunsAgain`).
- Validation accepts checksums with upper-case digits, which no download can meet (`SetupSteps.ChecksumReachable`,
  `SetupSteps.UpperCaseNeverMatches`).
- The broker stores rows under the sanitised plugin id and uninstall deletes under the id itself, so an uninstall
  deletes what was stored in a plugin's name exactly when the id it is called with is that plugin's id sanitised: a
  plugin's own uninstall leaves the rows if the two differ, and uninstalling `a_b` deletes what `a b` stored
  (`BrokerRuns.UninstallClearsSanitised`, `BrokerRuns.RecordOutlivesUninstall`). Ids with one sanitised form share
  their rows (`BrokerRuns.SameRowSameNames`).
- The statements of a migration are executed on the host's own database, with no permission asked for but `db-sqlite`
  and no user needed. They can overwrite a user's record with another plugin, even if the request then fails
  (`BrokerRuns.MigrationOverwritesOthersRecord`), and leave two rows to one key (`BrokerRuns.MigrationBreaksKeys`). The
  tables keep one row per key exactly if every migration's statements leave them so (`BrokerRuns.RunRefines`), handles
  and rows agree exactly if these do no harm and the lifecycle requests are faultless (`BrokerRuns.RunConsistent`), and
  records are isolated but for migrations (`BrokerRuns.SharedIsolated`).
- A migration that was applied is executed again on request (`Broker.MigrationRunsAgain`,
  `BrokerRuns.MigrationExecutedTwice`).
- A forwarded request's own context headers come before the host's, so the user round trip holds exactly when they
  agree with it (`SignedContext.UserRoundTrip`, `SignedContext.OtherIdForwarded`). Without such headers it holds exactly
  for users whose id and name survive in a header: one with a letter outside ASCII, a blank end or no text is lost.
- What is signed does not tell users apart whose ids hold a colon, nor a plugin's id from a user's
  (`SignedContext.SignedAlike`, `SignedContext.PluginIdIsSignedAsUser`).
- The repository's README says that materialize verifies the runtime artifact and then executes the lifecycle commands,
  the uninstall commands among them. The code executes the install commands first, verifies after, and executes no
  uninstall commands anywhere; the model follows the code.

## Model

| member | source | states |
|---|---|---|
| Tables.UpsertRefines | src/registry.rs:163-203 | find by key, then update or insert, keeps one row per key and is map update, whichever matching row the unordered query returned |
| Tables.SelectRefines | src/registry.rs:128-148 | a filtered query is the map restricted to the filter |
| Tables.DeleteRefines | src/registry.rs:98-107 | a filtered delete removes exactly the bindings under the filter and keeps keys unique |
| Database.DeletePluginExact | src/registry.rs:98-107 | after a delete by plugin no row of it is left and every other plugin's rows are the same rows in the same order |
| Tables.UpsertOutside | src/permissions.rs:38-72 | writing a row leaves every filtered query its key is not in, such as another plugin's rows, as it was |
| Permissions.ReplaceGrantsRefines | src/permissions.rs:38-72 | replacing grants overrides exactly the listed keys with the last value listed and keeps one row per plugin and key |
| Permissions.ReplaceGrantsOtherPlugin | src/permissions.rs:38-72 | replacing one plugin's grants changes no row of another |
| Permissions.CheckIsGranted | src/permissions.rs:100-116 | the check is true exactly if the grant map binds the plugin and key to true |
| Permissions.CheckIsRow | src/permissions.rs:100-116 | a check that holds read a row that grants the key; with one row a key such a row is enough |
| Permissions.CheckPluginPermissions | src/permissions.rs:118-135 | the loop with early return decides the conjunction of all required checks, true for none |
| Permissions.GrantedKeysAreChecks | src/permissions.rs:74-84 | the listed granted keys are exactly those whose check is true |
| Permissions.RegisterUngrants | src/installer.rs:238-242 | after a registration every declared permission is ungranted, whatever was granted before |
| Permissions.AsKeyInjective | src/manifest.rs:28-48 | different permissions have different keys |
| Lifecycle.StepConsistent | src/handlers.rs:608-769 | from a consistent state a request ends in a consistent state if and only if it met none of the named faults, start rollback and stop restore included |
| Lifecycle.RunConsistent | src/handlers.rs:585-973 | along a whole run all states are consistent (handle, running and enabled agree; statuses are the three) if and only if all requests were faultless |
| Lifecycle.RegisterConsistent | src/installer.rs:380-432 | a registration keeps consistency exactly when a row it writes has no live handle |
| Lifecycle.UninstallConsistent | src/handlers.rs:980-1079 | an uninstall of a plugin with a handle keeps consistency exactly when its stop, queries and registry delete succeed |
| Lifecycle.RunWellFormed | src/installer.rs:351-424 | in every run, faults included, statuses are the three, handles sit under their plugin, version paths are packages_root/plugin/version, grants and nav items have unique keys |
| Lifecycle.RowHistory | src/installer.rs:380-409 | a plugin's row carries the version of the last event that wrote it, and is past pending only if that was a materialize |
| Lifecycle.LaunchFollowsMaterialize | src/handlers.rs:597-652 | when start reaches a launch, the last register or materialize write was a materialize of the current version, and the launched directory is that version's whichever duplicate row is returned |
| Lifecycle.ServedIsLaunched | src/public.rs:139-182 | the directory the user interface is served from is the current version's package directory, the one a start launches |
| Lifecycle.UninstallComplete | src/handlers.rs:1065-1079 | an uninstall whose deletes succeed leaves no row in the seven tables and no handle of the plugin, and adds one audit row |
| Lifecycle.UninstallFrame | src/handlers.rs:980-1079 | whatever fails, an uninstall leaves every other plugin's rows and handle unchanged |
| Lifecycle.AuditGrows | src/registry.rs:109-126 | along every run the audit log only grows, by at most one row a request |
| LifecycleLaws.RegisterAddsVersion | src/installer.rs:411-424 | a registration always adds one version row, so duplicates are possible, and makes the version current |
| LifecycleLaws.GuardAnswers | src/handlers.rs:597-662 | which check refuses a start: not found, "pending", "running", no version, no version row, each if and only if the rows say so; else the directory is that of a row of the current version |
| LifecycleLaws.AnyRowMayBeRead | src/registry.rs:67-78 | with several rows of one version a start and the user interface may be given any of them |
| LifecycleLaws.StartAnswers | src/handlers.rs:585-780 | a start succeeds if and only if no check refuses it and the launch brings up a runtime; refused it changes nothing, failed no handle, and its handle, row, navigation item and audit row are told |
| LifecycleLaws.RegisterAnswers | src/installer.rs:376-446 | a registration succeeds if and only if manifest, queries, both writes, all grants and the audit row do; its rows are told |
| LifecycleLaws.MaterializeAnswers | src/installer.rs:473-579 | the same for materialize, where an upgrade counts only for another version and a write only for a row that is there |
| LifecycleLaws.StopAnswers | src/handlers.rs:872-963 | a stop succeeds if and only if the row says running, a handle is there and the runtime stops; failing it changes neither row nor handle |
| LifecycleLaws.UninstallAnswers | src/handlers.rs:980-1079 | an uninstall takes the handle in any case and succeeds if and only if its stop and queries do; a delete that fails leaves its table |
| LifecycleLaws.AlwaysAnswered | src/permissions.rs:38-72 | updated grants override the listed keys and change no other table; a restart forgets the handles alone |
| LifecycleLaws.LoadAnswers | src/public.rs:139-182 | why the user interface is not served, each error if and only if a row is missing, or the directory of a row of the current version |
| LifecycleLaws.PackageDirOf | src/installer.rs:351 | a version's directory is packages_root/plugin/version |
| LifecycleLaws.JoinPathIs | src/host_api.rs:579-582 | joined path texts have one slash between them; an absolute second part stands alone |
| LifecycleLaws.MaterializeMarks | src/installer.rs:543-556 | the version row found is marked installed; no row is added, lost or given another path |
| LifecycleLaws.InstallEnablesStart | src/installer.rs:473-579 | after a registration and a materialize of one version a start reaches the launch of its package directory, whichever rows are returned |
| LifecycleLaws.FailedStartUndone | src/handlers.rs:744-769 | a failed launch leaves the handles, and leaves the registry as it was exactly if the running mark was not written or rolled back |
| LifecycleLaws.StopUndoesStart | src/handlers.rs:906-935 | stopping what was just started gives back registry and handles |
| LifecycleLaws.UpgradesAfterOtherVersion | src/installer.rs:499-527 | in every run the outcome of the upgrade commands and of removing the old version decides a materialize exactly if the last write to the plugin's row was about another version |
| LifecycleLaws.InstallNeverUpgrades | src/installer.rs:499-527 | in no run does a materialize upgrade right after the registration of its version |
| LifecycleLaws.RegisterWhileRunning | src/installer.rs:380-409 | for every plugin a run, consistent to its end, after which registering it again leaves a handle beside a pending row |
| Handlers.PluginHost.RemoveRuntimeHandle | src/manager.rs:161-165 | removes and returns the handle, or nothing |
| Handlers.PluginHost.UpdatePluginRuntimeState | src/registry.rs:79-96 | writes status and enabled of an existing row only |
| Handlers.PluginHost.UpsertPluginNavItem | src/registry.rs:163-203 | the row found is overwritten, or one is inserted |
| Handlers.PluginHost.ReplacePluginPermissionGrants | src/permissions.rs:38-72 | the loop of single upserts is the replacement of the items written before a failure |
| Handlers.PluginHost.RegisterPlugin | src/installer.rs:376-446 | the row writes of a registration, one by one with early returns, have the effect of `Register` |
| Handlers.PluginHost.MaterializePlugin | src/installer.rs:525-570 | the row writes of a materialize have the effect of `Materialize` |
| Handlers.PluginHost.StartPluginRuntime | src/handlers.rs:597-769 | guards, running mark, launch, insert or rollback have the effect of `Start`, launching the directory the guard ends in |
| Handlers.PluginHost.StopPluginRuntime | src/handlers.rs:872-963 | remove first, stop, then mark installed or restore the handle, has the effect of `Stop` |
| Handlers.PluginHost.DeleteRows | src/handlers.rs:1065-1071 | the seven deletes, each ignored if it fails |
| Handlers.PluginHost.UninstallPlugin | src/handlers.rs:980-1079 | remove, stop without restoring, queries and deletes have the effect of `Uninstall` |
| Ownership.StepLinear | src/handlers.rs:894-964 | every atomic step of any request, and a restart, keeps each spawned runtime in exactly one place, under its own plugin |
| Ownership.RunLinear | src/handlers.rs:894-964 | linear ownership in every interleaving of any number of start, stop and uninstall requests, each of which may be dropped at any await |
| Ownership.ChecksDecide | src/handlers.rs:608-628 | in every interleaving a start passes its checks if and only if the row it reads says neither "pending" nor "running", a stop if and only if it says "running"; refused they change nothing |
| Ownership.RowsStayGone | src/registry.rs:79-96 | no request brings back a registry row that is gone; a write from outside sets or removes one row |
| Ownership.NoDoubleStop | src/handlers.rs:906-942 | no two requests, a start that ends a silent runtime included, stop the same runtime at once |
| Ownership.StoppedForever | src/manager.rs:140-165 | a runtime whose stop succeeded never re-enters the map nor a request |
| Ownership.StoppedOnce | src/handlers.rs:906-942 | over a run each runtime is stopped at most once, and the stopped ones are those stopped once |
| Ownership.NothingForgotten | src/handlers.rs:980-1009 | no spawned runtime is lost in a run if and only if no step takes a forgetting branch, told by its guard |
| Ownership.NothingLost | src/runtime/process.rs:94-137 | then every runtime ever spawned is in the map, with a request, or stopped |
| Ownership.DroppedStartForgets | src/runtime/process.rs:94-127 | a run in which a start is dropped during its health checks and its runtime is forgotten |
| Ownership.OverlappingStartsForget | src/handlers.rs:619-731 | a run of two overlapping starts in which both launch and the first runtime is forgotten |
| Refinement.StartRefines | src/handlers.rs:597-769 | a start run without interruption in the interleaved machine does what the serial start does, however its launch fails |
| Refinement.StopRefines | src/handlers.rs:872-963 | the same for stop, failing stops included |
| Refinement.UninstallRefines | src/handlers.rs:980-1079 | the same for uninstall, failing stops included |
| Refinement.RunRefines | src/handlers.rs:585-1079 | every serial run has an interleaved run that ends with the same rows and handles and no request under way |
| Template.ChainIsSubstitution | src/installer.rs:54-69 | replacing placeholders in any order that names those of the template is simultaneous substitution when no literal and no value passes for a placeholder still to come |
| Template.PlaceholdersAre | src/installer.rs:54-69 | the five placeholders and what each stands for on a host, the name with its spaces percent-encoded |
| Template.ResolveIsSubstitution | src/installer.rs:54-69 | the chain of five replacements is simultaneous substitution when each value passes the placeholders replaced after it |
| Template.SubstitutesExactly | src/installer.rs:54-69 | with the other values free of braces, every template is resolved by simultaneous substitution if and only if no part of the value is, or begins, a placeholder replaced later |
| Template.NameMayHoldBraces | src/installer.rs:63-68 | the name, replaced last, may hold anything |
| Template.HostValuesSubstitute | src/installer.rs:54-69 | so it is for the values of a manifest whose version, id and name open no brace |
| Template.BraceInValueIsResolvedAgain | src/installer.rs:54-69 | a version that spells a later placeholder is substituted again in some template |
| Template.ResolvePlaceholderFree | src/installer.rs:54-69 | text without a placeholder is left as it is |
| Filesystem.CreateDirAllExact | src/installer.rs:159-165 | creating a directory succeeds exactly if no file is in the way, adds exactly the missing directories and keeps the tree a tree |
| Filesystem.RenameMoves | src/installer.rs:886-895 | a rename takes the whole subtree along, empties its old place and touches nothing else |
| Paths.SafeJoinStaysBelow | src/installer.rs:105-117 | an accepted archive name, joined, lies in the directory it is joined to |
| Paths.SafeJoinExactly | src/installer.rs:105-117 | a package's entry is accepted if and only if its name is relative and no segment of it is `..` |
| Paths.ComponentsAre | src/installer.rs:581-591 | the components of a path text by how it begins; a leading `.` is one of those that stripping counts |
| Paths.FollowingAre | src/installer.rs:581-591 | further on a `.` and an empty segment are none |
| Paths.StaysBelowExactly | src/installer.rs:639-648 | a way stays below the directory it starts in if and only if no part of it has more `..` than names |
| Archives.PlaceAllOnlyBelow | src/installer.rs:170-200 | on success or failure, entries going below a directory change nothing outside it but missing directories on the way |
| Archives.PlaceAllExact | src/installer.rs:170-200 | after success every path holds the last writer's bytes, or a needed directory, or what it held |
| Archives.PlaceAllSucceeds | src/installer.rs:170-200 | placing succeeds if and only if all entries are readable and no path is needed both as file and as directory |
| Archives.OrderDoesNotDecide | src/installer.rs:170-200 | whether an archive unpacks does not depend on the order or repetition of its entries |
| PackageExtract.ExtractPluginZipToDir | src/installer.rs:158-228 | the target is made, the archive opened, and its entries placed in order up to the first failure |
| PackageExtract.ExtractEntries | src/installer.rs:170-200 | the loop stops at the first entry that fails and leaves what was placed before |
| PackageExtract.EntryItemIs | src/installer.rs:170-200 | an entry can be placed if and only if its name is relative without `..` and it is a directory or a readable file with a name; it is then that directory or file below the target |
| PackageExtract.PackageExtracted | src/installer.rs:158-228 | into a fresh directory: success if and only if the archive opens, every entry can be placed and no path is both file and directory; then each path holds the bytes of the last file named so, or a needed directory, or nothing; outside nothing changes |
| PackageExtract.ExtractZipWithStrip | src/installer.rs:630-674 | the loop over a downloaded zip places the surviving entries in order, with the directories their ways climb back from, up to the first failure |
| PackageExtract.StripItemIs | src/installer.rs:632-674 | what each entry becomes once components are stripped: skipped, a directory, a file with its bytes, or a failure |
| PackageExtract.DetoursAre | src/installer.rs:652-660 | on the way to an entry are made exactly the directories from which its name climbs back |
| PackageExtract.SurvivorsArePlaced | src/installer.rs:632-674 | what is placed for an archive is what is placed for its surviving entries in order |
| PackageExtract.EntryCommutes | src/installer.rs:639-648 | stripping an entry is packing it without its leading components if and only if what is left of its name does not climb and reads as the same kind of entry |
| PackageExtract.StripCommutes | src/installer.rs:630-674 | extracting such entries with n components stripped is extracting, with none stripped, the archive packed without them |
| PackageExtract.StripAdds | src/installer.rs:581-591 | stripping m components and then n from what survives is stripping m + n |
| PackageExtract.SurvivorStaysBelow | src/installer.rs:639-648 | a surviving entry stays below the destination all the way if and only if what is left of its name never climbs |
| PackageExtract.UnstrippedStays | src/installer.rs:639-648 | with nothing stripped no surviving entry climbs |
| PackageExtract.StrippedOnlyBelow | src/installer.rs:630-674 | a downloaded zip of which no surviving entry climbs writes only below its destination |
| PackageExtract.StrippedNameLeaves | src/installer.rs:581-591 | an enclosed name that climbs once a component is stripped is written beside the destination |
| SetupSteps.ValidateCommands | src/manifest.rs:359-384 | the validation loop accepts exactly the lists whose downloads have a non-blank url and whose checksums are 64 hex digits |
| SetupSteps.ChecksumReachable | src/installer.rs:94-103 | a checksum that validates equals some printed hash exactly if it has no upper-case digit |
| SetupSteps.UpperCaseNeverMatches | src/installer.rs:94-103 | 64 letters A validate as a checksum and match no data |
| SetupSteps.DownloadCompares | src/installer.rs:826-829 | an answered download fails for its checksum if and only if it states one and the printed digest of the data is another text, and then writes nothing |
| SetupSteps.RunCompares | src/installer.rs:760-805 | in every run without error each enabled download with a checksum received data whose printed digest is that checksum |
| SetupSteps.UpperCaseFails | src/installer.rs:760-805 | a list that reaches a download whose validated checksum has an upper-case digit fails |
| SetupLaws.DownloadAnswers | src/installer.rs:818-875 | every error of a download, in order, each if and only if url, dest, answer, digest, destination or archive fail it; only a failed unpacking leaves something |
| SetupLaws.ExtractAnswers | src/installer.rs:876-885 | an extract step fails if and only if its source is missing, has no known format, or does not unpack; a zip unpacks if and only if its entries fit |
| SetupLaws.ExtractLeaves | src/installer.rs:876-885 | what an extracted zip leaves at every path, in the dest or else the package, with no component stripped unless said |
| SetupLaws.DetectedFormat | src/installer.rs:607-619 | the format by the end of the file name, letters in either case |
| SetupLaws.FormatNamed | src/installer.rs:712-747 | the format a download names, else that of its file |
| SetupLaws.MoveAnswers | src/installer.rs:886-895 | a move fails if and only if source or dest are missing or the tree forbids it, as told |
| SetupLaws.CopyAnswers | src/installer.rs:896-905 | a copy succeeds if and only if the source is a file and the dest can be written |
| SetupLaws.MkdirAnswers | src/installer.rs:937-942 | a directory is made, at the dest or else the source, if and only if no file is in the way |
| SetupLaws.RemoveAnswers | src/installer.rs:943-957 | a remove fails if and only if it names nothing or the root; otherwise its target and all below are gone |
| SetupLaws.TouchAnswers | src/installer.rs:958-976 | touch and write-file succeed if and only if there is a dest that can be written, and fail without a trace |
| SetupLaws.GuardIs | src/installer.rs:71-88 | when each kind of guard lets a step run |
| SetupLaws.ForeignAnswers | src/installer.rs:906-1009 | a step outside the model has its own effect, and its failure is the run's |
| SetupSteps.RunAppend | src/installer.rs:768-804 | running a + b is running a, then b from the filesystem, counter and requests a left, unless a fails |
| SetupSteps.FailureIsLocal | src/installer.rs:768-804 | a failed run leaves the effects of the steps before one step and that step's own partial effect |
| SetupSteps.KthDownload | src/installer.rs:794-800 | the download after k downloads whose guards held asks for override k if present, else its resolved url, and nothing else asks for anything |
| SetupSteps.OverridesAreSeparate | src/installer.rs:794-800 | no two downloads of a run look up the same override |
| SetupSteps.ValidNeverMissesUrl | src/installer.rs:818-821 | for a validated list the missing-url error cannot occur |
| SetupSteps.CreatedContents | src/installer.rs:837-976 | a creating step that succeeds leaves its bytes (downloaded, copied, written or none) or directory at its destination, directories above it, and everything else unchanged |
| SetupSteps.ArchiveUnpacked | src/installer.rs:831-860 | after a zip download every path is what the placed entries make of it, last writer winning, or what it was, and the archive is gone |
| SetupSteps.MovedSubtree | src/installer.rs:886-895 | a move step takes a whole subtree to its new place and makes only the directories above it |
| SetupSteps.RemovedGone | src/installer.rs:943-957 | a remove step that succeeds leaves nothing at or below its target and all else unchanged |
| SetupSteps.GuardTurnsFalse | src/installer.rs:71-88 | after a creating step its file_not_exists guard is false if and only if the guarded path lies at or above the resolved destination |
| SetupSteps.OwnDestCreatesOnce | src/installer.rs:782-792 | a guard on the step's own placeholder-free dest is such a guard |
| SetupSteps.PlaceholderRunsAgain | src/installer.rs:782-792 | a touch guarded by its own dest, written with a placeholder, succeeds and is still enabled |
| SetupSteps.RerunIsIdle | src/installer.rs:768-804 | once creating steps with such guards have run without error, a second run changes nothing and downloads nothing |
| SetupSteps.Installer.DownloadFile | src/installer.rs:819-875 | download, checksum, parent, write, extract and cleanup have the effect of `DownloadStep`, failures included |
| SetupSteps.Installer.Execute | src/installer.rs:807-1012 | each action has the effect of `ExecuteSetupStep`, with its partial effect on failure |
| SetupSteps.Installer.ExecuteCommandsWithOverrides | src/installer.rs:760-805 | the loop with its download counter and resolved copy has the effect of `RunSteps` |
| Text.TrimSplits | src/host_api.rs:542-554 | trimming cuts whitespace off both ends and nothing else |
| Text.SanitizeIdempotent | src/host_api.rs:487-498 | a sanitised identifier is its own sanitised form |
| Text.SanitizeIs | src/host_api.rs:487-498 | by code points: ASCII letters, digits, `-`, `.` and `_` stay, any other character becomes `_` |
| Text.WhitespaceIs | src/host_api.rs:542-554 | the characters that are trimmed, by code points |
| Text.DecimalIs | src/installer.rs:795 | decimal notation, from the last digit |
| SqlScript.PiecesJoin | src/host_api.rs:542-554 | splitting at the separator is exact: no piece contains it and joining gives the text back |
| SqlScript.SplitPreservesText | src/host_api.rs:542-554 | the statements, without whitespace and semicolons, say what the script says |
| SqlScript.SignificantOne | src/host_api.rs:542-554 | what a script says are its characters but whitespace and semicolons |
| SqlScript.SplitIsPieces | src/host_api.rs:542-554 | each statement is a trimmed piece, closed by a semicolon if it was not, and only blank pieces are left out |
| SqlScript.SplitWellFormed | src/host_api.rs:542-554 | every statement is non-empty, trimmed, ends in a semicolon and contains no separator |
| SqlScript.SplitPrintedScript | src/host_api.rs:542-554 | printing clean bodies one per line and splitting gives those statements back in order |
| KvBroker.NamespaceRoundTrip | src/host_api.rs:517-519 | parsing a printed key gives back the sanitised plugin id |
| KvBroker.NamespacedKeyInjective | src/host_api.rs:517-519 | printing is injective on sanitised id and key |
| KvBroker.NamespacedKeyIs | src/host_api.rs:517-519 | a stored key is `plugin:`, the id, a colon and the key |
| KvBroker.TargetPluginIs | src/host_api.rs:732-757 | a key is of a plugin's namespace if and only if it begins with `plugin:`, the id and a colon |
| KvBroker.ServeIs | src/host_api.rs:721-883 | a set asks for "kv-write", a get for "kv-read", a delete for "kv-delete", under the key's own plugin as caller; what each then does and answers |
| KvBroker.Broker.CheckNamespace | src/host_api.rs:732-757 | a namespaced key passes exactly for its own plugin with the grant; another key always does |
| KvBroker.Broker.SetKv | src/host_api.rs:721-770 | a set stores the value exactly if permitted and leaves everything else unchanged |
| KvBroker.Broker.GetKv | src/host_api.rs:789-835 | a get returns the stored value exactly if permitted |
| KvBroker.Broker.DeleteKv | src/host_api.rs:838-883 | a delete removes the binding if permitted and says whether there was one |
| KvBroker.NamespaceIsolated | src/host_api.rs:721-883 | over any run a binding in a plugin's namespace changes only by a request whose caller is that plugin and holds the grant |
| KvBroker.WriteReadBack | src/host_api.rs:721-883 | after a set the value, after a delete nothing is read back, until the plugin writes or deletes that key again |
| Broker.ValidateAllExact | src/host_api.rs:500-515 | identifiers are refused exactly if one is empty; otherwise they are sanitised |
| Broker.AdmitRefines | src/host_api.rs:1092-1104 | a request is admitted exactly with a caller, non-empty names and the sanitised plugin's grant, errors in that order |
| Broker.ServeAsks | src/host_api.rs:1087-1748 | the permission key each request asks for: none is served without a row granting it, and with unique keys a request is forbidden if and only if its caller and names are right and the grant is missing |
| Broker.RowKeyIs | src/host_api.rs:1087-1748 | the row each request concerns: sanitised id and names, a shared record also the user |
| Broker.ServeRefines | src/host_api.rs:1087-1798 | each request answers as its meaning on maps does; one row per key is kept exactly if a migration's statements, where there are any, leave it, and then the rows are those of the meaning |
| Broker.GetSharedIsLookup | src/host_api.rs:1155-1202 | a get asks for "db-shared-read" and is the lookup of the calling user's own binding, not found if there is none |
| Broker.ListSharedIsRestriction | src/host_api.rs:1205-1245 | the whole answer of a list: refused as a get is, else the map restricted to plugin, collection and owner, each binding once |
| Broker.ListTasksIsRestriction | src/host_api.rs:1630-1668 | a task list asks for "scheduler" and is the map restricted to the plugin |
| Broker.ListNavItemsIsRestriction | src/host_api.rs:1751-1798 | a navigation list asks for "web-api" and is the map restricted to the plugin; without a plugin it asks for a caller alone and is the whole table |
| Broker.MigrationSqlIs | src/host_api.rs:556-586 | the script executed is the file scope/key.sql below the migrations directory of the current version's package directory |
| Broker.MigrationRuns | src/host_api.rs:1466-1559 | the statements given to the database say exactly what the script says; each acts on what those before it left, up to the first that is rejected; all accepted and the row written, their number is recorded, else the request fails and their effects stay |
| Broker.MigrationRunsAgain | src/host_api.rs:1466-1559 | repeating a successful request whose statements left registry, versions and grants alone executes the script from its first statement again, with the same answer if all are accepted |
| Broker.HostBroker.UpsertSharedRecord | src/host_api.rs:1087-1148 | admission, find, then update or insert, has the effect of `Serve` |
| Broker.HostBroker.DeleteSharedRecord | src/host_api.rs:1252-1287 | admission and the filtered delete have the effect of `Serve` |
| Broker.HostBroker.UpsertTask | src/host_api.rs:1562-1627 | the same for tasks |
| Broker.HostBroker.UpsertNavItem | src/host_api.rs:1671-1748 | the same for navigation items |
| Broker.HostBroker.UpsertMigrationState | src/host_api.rs:1294-1358 | the same for migration states |
| Broker.HostBroker.ExecuteStatements | src/host_api.rs:1499-1506 | the loop executes each statement on the database as the last one left it, up to the first that is rejected |
| Broker.HostBroker.ExecuteMigrationScript | src/host_api.rs:1466-1559 | loading, splitting, executing and recording have the effect of `Serve`, what was executed before a failure included |
| BrokerRuns.LifecycleRefines | src/handlers.rs:1065-1071 | each lifecycle request does to these tables what it does to the maps |
| BrokerRuns.RunRefines | src/host_api.rs:1087-1798 | over every run of lifecycle and broker requests the tables keep one row per key throughout if and only if every migration's statements leave them so, and then they equal the maps computed by meaning |
| BrokerRuns.OwnTablesRefine | src/host_api.rs:1499-1506 | so it is in every run whose migrations keep to tables of their own |
| BrokerRuns.RunConsistent | src/host_api.rs:1499-1506 | along such runs handle, status and enabled agree throughout if and only if the lifecycle requests are faultless and no migration's statements disturb it |
| BrokerRuns.MigrationExecutedTwice | src/host_api.rs:1466-1559 | every plugin has a run that executes its migration twice |
| BrokerRuns.SharedIsolated | src/host_api.rs:1087-1287 | along every run the rows of a shared record change only by its owner's requests under the write grant, its plugin's uninstall, or a loaded, non-empty migration of some plugin with a grant for those |
| BrokerRuns.SharedReadBack | src/host_api.rs:1087-1287 | what a user stored is read back, and what a user deleted is not found, until the record may have been changed; a read fails only for want of the grant or of its query, and answers otherwise only by another row of a key that was not unique |
| BrokerRuns.SameRowSameNames | src/host_api.rs:487-515 | two requests on one table concern the same row if and only if plugin ids and names agree once sanitised, and for shared records the users |
| BrokerRuns.RowsIsolated | src/host_api.rs:487-515 | along every run what all tables hold under an id changes only by a broker request of a plugin with that sanitised id, a lifecycle request of the id itself, or such a migration |
| BrokerRuns.UninstallClearsSanitised | src/host_api.rs:487-515 | a row stored in a plugin's name is gone after an uninstall of any id exactly when that id is the plugin's id sanitised |
| BrokerRuns.RecordOutlivesUninstall | src/host_api.rs:487-515 | every id that is not its own sanitised form has a run whose uninstall leaves a record stored in its name |
| BrokerRuns.MigrationOverwritesOthersRecord | src/host_api.rs:1466-1506 | for any two plugins a run in which a failing migration of one, granted nothing but db-sqlite and called without a user, overwrites a user's record with the other |
| BrokerRuns.MigrationBreaksKeys | src/host_api.rs:1499-1506 | every plugin has a run in which its successful migration ends the uniqueness of keys |
| SignedContext.I16RoundTrip | src/host_api.rs:350-374 | a printed role parses back, for every 16-bit number |
| SignedContext.VerifyIsEquality | src/manager.rs:192-207 | the length test and the xor/or fold accept exactly the expected signature |
| SignedContext.BuildProxyHeaders | src/public.rs:312-356 | the builder appends forwarded headers, authorization, plugin id, user and signatures in that order |
| SignedContext.ReceivedValues | src/public.rs:312-356 | all values a plugin receives under every name: the inbound ones but for the ten names that stay behind, then the authorization, the signed plugin id and the signed user |
| SignedContext.HexAt | src/manager.rs:177-190 | a signature is printed with two lower-case digits a byte, the high one first |
| SignedContext.UserRoundTrip | src/public.rs:335-356 | for every user, printing into headers, parsing and verifying gives the user back if and only if each context header the forwarded request has agrees, and each it lacks is printed with text that survives in a header |
| SignedContext.PluginIdRoundTrip | src/host_api.rs:442-484 | the same for the signed plugin id |
| SignedContext.ForwardedUserIsSigned | src/host_api.rs:350-374 | the user returned is exactly the one the headers name with a signature over it |
| SignedContext.OtherIdForwarded | src/public.rs:312-356 | a forwarded request that names another id is not read as the user whose context was printed |
| SignedContext.SignedAlike | src/manager.rs:177-190 | two users are signed alike if and only if they agree in role, id and name, or one id is the other with the beginning of its name joined on by a colon |
| SignedContext.PlainIdsSignedApart | src/manager.rs:177-190 | ids without a colon are told apart, with names and roles, by what is signed |
| SignedContext.ColonSignedAlike | src/manager.rs:177-190 | two different users with a colon in their ids or names that are signed alike |
| SignedContext.PluginIdIsSignedAsUser | src/host_api.rs:442-484 | the signature of a plugin's id is that of a user of that id with role zero and no name, and is read as such |
| ProcessRuntime.Host.KillProcessGroup | src/runtime/process.rs:169-194 | the poll loop with its deadline makes the calls of `KillGroup` |
| ProcessRuntime.Host.StopProcessRuntime | src/runtime/process.rs:140-166 | the stop makes the calls of `StopRuntime` |
| ProcessRuntime.Host.StartProcessRuntime | src/runtime/process.rs:94-137 | spawn and the retry loop make the calls of `StartRuntime` |
| ProcessRuntime.AwaitBounded | src/runtime/process.rs:178-194 | for every system and monotone clock the terminate loop makes at most 101 polls, 100 ms apart, and kills only at 10000 ms or later |
| ProcessRuntime.StopProtocol | src/runtime/process.rs:140-194 | a stop that returns Ok saw the group gone or issued SIGKILL |
| ProcessRuntime.StartProtocol | src/runtime/process.rs:103-127 | a start with a base URL succeeds only if one of at most 15 probes did, with at most 14 sleeps of 7000 ms in all; a failed check signals the group |
| ProcessRuntime.StartSucceeds | src/runtime/process.rs:94-137 | a start succeeds if and only if log and spawn do and, with a health URL, one of the first 15 probes, 500 ms apart; it gives up after all 15 with 7000 ms slept |
| WebSocketBridge.StepFaithful | src/public.rs:437-483 | each step of a pump keeps: sent is a prefix of the converted messages taken, at most one unsent, nothing after a Close |
| WebSocketBridge.ConversionKeepsFrames | src/public.rs:437-477 | conversion keeps the opcode and payload of section 5.2 of RFC 6455 in both directions and drops exactly the raw frames |
| WebSocketBridge.AfterClose | src/public.rs:437-483 | once a Close was taken nothing more is taken and at most it is sent |
| WebSocketBridge.BridgeFaithful | src/public.rs:428-492 | both directions are faithful in every interleaving of the two pumps |
| WebSocketBridge.BridgeGrows | src/public.rs:428-492 | what a peer was sent only grows along a run |
| WebSocketBridge.BridgeIsTwoPumps | src/public.rs:485-492 | the bridge is its two pumps, each through its own events, up to the one with which either ends |
| WebSocketBridge.CloseEndsBridge | src/public.rs:485-489 | after a Close was sent every continuation sends nothing more, as section 5.5.1 of RFC 6455 asks for data frames |
| WebSocketBridge.ClientToServer | src/public.rs:437-458 | the client loop is the pump left alone, and serves the server as `ClientIsServed` says |
| WebSocketBridge.ServerToClient | src/public.rs:460-483 | the server loop is the pump left alone, raw frames skipped |
| WebSocketBridge.ClientIsServed | src/public.rs:437-458 | the client's loop sends the converted messages in order, each send accepted, and ends only with the whole stream sent, a Close sent or a send refused; without a Close or a refusal everything is sent |
| WebSocketBridge.ServerIsServed | src/public.rs:460-483 | the same for the server's loop |
| WebSocketBridge.AloneFaithful | src/public.rs:437-483 | a pump left alone is faithful and ends only at a Close, a failed send or the end of its stream |

## Left out

- Registry columns that only describe (display name, origin, kind of source), timestamps, row ids, audit texts and
  actors, icons.
- Docker and wasm launches and stops: a launch or stop is an outcome; only the process protocol is modelled, on Unix.
- The conversion of a process id from 32 unsigned to signed bits; process ids are natural numbers.
- Removal of a plugin's directories and of lingering processes during uninstall.
- The link between the installer's filesystem and the lifecycle: extraction, checksum and setup commands of a request
  are one outcome there.
- Interleaved versions of the table properties: find and insert are separate queries without a unique index, so those
  are stated for serial requests.
- In the interleaved machine the reads at the beginning of a start are one await, and the queries before an
  uninstall's deletes are one with the registry delete; a launch of any kind is a spawn and then a wait, which ends at
  once where there is no health URL.
- Runs of lifecycle and broker requests together carry over from those of `Lifecycle` the agreement of handles and rows;
  version history, launch directories and the audit log are stated for lifecycle requests alone, since a migration's
  statements can write those tables too.
- What a statement of a migration means: its effect on the tables is a parameter, any function of them.
- Unordered queries: a single-row query may return any matching row, while lists come in table order.
- Migration get and list requests, the SQLite file, virtual filesystem, notification, identity and configuration
  requests of the host API: further guarded reads and writes of the same shape.
- The text of a recorded migration state: the description and the number of statements stand for it.
- Expiry of key-value bindings and decoding of values that are not UTF-8.
- Hashing, message authentication, zip, tar and gzip reading, HTTP: parameters that may be any function.
- Symlink, chmod and run steps, and unpacking of tar and gzip archives: any function of the filesystem, with any
  outcome.
- Disk faults the tree does not imply, such as a full disk, permissions and symbolic links; file modes.
- Paths of setup steps are resolved component by component: a `..` after a missing directory and a trailing slash or
  `/.` on a file are not treated as the kernel treats them. Names with a NUL in plugin packages are not treated as
  invalid.
- An entry of a downloaded zip that overwrites the very archive being read is treated as read before.
- SetupSteps.RerunIsIdle: needs the guards to be file_not_exists guards, because a file_exists or an environment guard
  does not turn false by creating.
- Routing, OpenAPI, JSON wrapping, market catalog, JWT issue and the plugin configuration files: no state of interest.
- Log file handling of a process runtime is one call that succeeds or fails.
