/**
 The setup commands of a manifest: a small language of filesystem steps with guards, template variables and
 download overrides, run in order until one fails.
 */
module SetupSteps {
  import opened Wrappers
  import opened Text
  import opened Filesystem
  import opened Paths
  import opened Archives
  import opened PackageExtract
  import opened Template
  import S = SignedContext

  datatype Action = Download | Extract | Move | Copy | Symlink | Chmod | Mkdir | Remove | Run | Touch | WriteText

  datatype Condition = FileNotExists(path: string) | FileExists(path: string) | EnvNotSet(variable: string)

  /** A step of a manifest; `content` is its text as bytes, `action` WriteText the source's `write-file`. */
  datatype Step = Step(
    action: Action, url: Option<string>, source: Option<string>, dest: Option<string>,
    strip: Option<nat>, content: Option<Bytes>, sha256: Option<string>, archive: Option<string>,
    ifCondition: Option<Condition>, symlinkTarget: Option<string>, mode: Option<string>, args: seq<string>)

  datatype Error =
    | MissingUrl | MissingDest | MissingSource | DownloadFailed | ChecksumMismatch | BadArchive
    | DiskError | ForeignError

  datatype Format = Zip | TarGz | Gzip

  /** What the steps run in: the network, hashing, archive readers, and the steps that leave the model. */
  datatype World = World(
    fetch: (nat, string) -> Option<Bytes>,                // the answer to the n-th request
    digest: Bytes -> S.Digest,
    unzip: Bytes -> Option<seq<Entry>>,
    unpack: (Format, Fs, Path, Path, nat) -> Outcome,     // tar and gzip
    foreign: (Step, Fs, Path) -> Outcome,                 // symlink, chmod, run
    envSet: string -> bool)

  // ---- Manifest validation ----

  predicate IsHexDigit(c: char) {
    '0' <= c <= '9' || 'a' <= c <= 'f' || 'A' <= c <= 'F'
  }

  predicate ValidChecksum(sha: string) {
    |sha| == 64 && forall i :: 0 <= i < |sha| ==> IsHexDigit(sha[i])
  }

  predicate ValidStep(step: Step) {
    && (step.action.Download? ==> step.url.Some? && Trim(step.url.value) != [])
    && (step.sha256.Some? ==> ValidChecksum(step.sha256.value))
  }

  lemma BlankIsTrimmedAway(s: string)
    ensures Trim(s) == [] <==> AllWhitespace(s)
  {
    var lead, tail := TrimSplits(s);
    if Trim(s) != [] {
      assert s[|lead|] == Trim(s)[0] && s[|lead|] in s;
    }
  }

  lemma HexDigitIs(c: char)
    ensures IsHexDigit(c) <==> c in "0123456789abcdefABCDEF"
  {
  }

  /** A list is accepted exactly if each download has a url that is not blank, and each checksum is 64 hex digits. */
  method ValidateCommands(steps: seq<Step>) returns (ok: bool)
    ensures ok <==> forall i :: 0 <= i < |steps| ==> Stated(steps[i])
    ensures ok <==> forall i :: 0 <= i < |steps| ==> ValidStep(steps[i])
  {
    for i := 0 to |steps|
      invariant forall j :: 0 <= j < i ==> ValidStep(steps[j]) && Stated(steps[j])
    {
      var step := steps[i];
      StatedIsValid(step);
      if step.action.Download? && (step.url.None? || Trim(step.url.value) == []) {
        return false;
      }
      if step.sha256.Some? && !ValidChecksum(step.sha256.value) {
        return false;
      }
    }
    ok := true;
  }

  ghost predicate Stated(step: Step) {
    && (step.action.Download? ==> step.url.Some? && exists c :: c in step.url.value && !IsWhitespace(c))
    && (step.sha256.Some? ==>
          |step.sha256.value| == 64 && forall c :: c in step.sha256.value ==> c in "0123456789abcdefABCDEF")
  }

  lemma StatedIsValid(step: Step)
    ensures Stated(step) <==> ValidStep(step)
  {
    if step.url.Some? {
      BlankIsTrimmedAway(step.url.value);
    }
    forall c: char ensures IsHexDigit(c) <==> c in "0123456789abcdefABCDEF" {
      HexDigitIs(c);
    }
  }

  function VerifySha256(w: World, data: Bytes, expected: string): bool {
    S.HexEncode(w.digest(data)) == expected
  }

  // ---- One step ----

  datatype Effect = Effect(fs: Fs, fetched: seq<string>, error: Option<Error>)

  /** `ends_with`. */
  predicate EndsWith(s: string, suffix: string) {
    |suffix| <= |s| && s[|s| - |suffix|..] == suffix
  }

  /** No letter outside ASCII has one of the suffixes' letters as its lower case. */
  function ToLowercase(s: string): (r: string)
    ensures |r| == |s|
  {
    seq(|s|, i requires 0 <= i < |s| => if 'A' <= s[i] <= 'Z' then (s[i] as int + 32) as char else s[i])
  }

  function DetectArchiveFormat(archive: Path): Option<Format> {
    if archive == [] then None
    else
      var lower := ToLowercase(archive[|archive| - 1]);
      if EndsWith(lower, ".tar.gz") || EndsWith(lower, ".tgz") then Some(TarGz)
      else if EndsWith(lower, ".zip") then Some(Zip)
      else if EndsWith(lower, ".gz") then Some(Gzip)
      else None
  }

  function NamedFormat(format: string, archive: Path): Option<Format> {
    match format
    case "zip" => Some(Zip)
    case "tar.gz" => Some(TarGz)
    case "tgz" => Some(TarGz)
    case "gzip" => Some(Gzip)
    case _ => DetectArchiveFormat(archive)
  }

  function Unpack(w: World, fs: Fs, archive: Path, dest: Path, format: Option<Format>, strip: nat): Outcome {
    match format
    case None => Outcome(fs, false)
    case Some(Zip) =>
      if !IsFile(fs, archive) || w.unzip(fs[archive].data).None? then Outcome(fs, false)
      else PlaceAll(fs, StripItems(dest, w.unzip(fs[archive].data).value, strip))
    case Some(other) => w.unpack(other, fs, archive, dest, strip)
  }

  function Strip(step: Step): nat {
    if step.strip.Some? then step.strip.value else 0
  }

  function AsEffect(out: Outcome, fetched: seq<string>, error: Error): Effect {
    Effect(out.fs, fetched, if out.ok then None else Some(error))
  }

  function PathOf(text: Option<string>, pkg: Path): Option<Path> {
    match text
    case None => None
    case Some(t) => Some(Join(pkg, t))
  }

  function DownloadStep(w: World, fs: Fs, fetched: seq<string>, step: Step, pkg: Path): Effect {
    if step.url.None? then Effect(fs, fetched, Some(MissingUrl))
    else if step.dest.None? then Effect(fs, fetched, Some(MissingDest))
    else
      var asked := fetched + [step.url.value];
      var dest := Join(pkg, step.dest.value);
      match w.fetch(|fetched|, step.url.value)
      case None => Effect(fs, asked, Some(DownloadFailed))
      case Some(data) =>
        if step.sha256.Some? && !VerifySha256(w, data, step.sha256.value) then Effect(fs, asked, Some(ChecksumMismatch))
        else
          var put := Place(fs, PutFile(dest, data));
          if !put.ok || step.archive.None? then AsEffect(put, asked, DiskError)
          else
            var out := Unpack(w, put.fs, dest, Parent(dest), NamedFormat(step.archive.value, dest), Strip(step));
            if !out.ok then AsEffect(out, asked, BadArchive)
            else Effect(match RemoveFile(out.fs, dest) case Some(rest) => rest case None => out.fs, asked, None)
  }

  /** Moving or copying: the target's parent is made first, and stays if the call then fails. */
  function TransferStep(fs: Fs, src: Option<Path>, dst: Option<Path>, call: (Fs, Path, Path) -> Option<Fs>)
    : (Fs, Option<Error>)
  {
    if src.None? then (fs, Some(MissingSource))
    else if dst.None? then (fs, Some(MissingDest))
    else
      match CreateDirAll(fs, Parent(dst.value))
      case None => (fs, Some(DiskError))
      case Some(made) =>
        match call(made, src.value, dst.value)
        case None => (made, Some(DiskError))
        case Some(done) => (done, None)
  }

  function RemoveStep(fs: Fs, target: Path): (Fs, Option<Error>) {
    if target !in fs then (fs, None)
    else
      match if fs[target].Dir? then RemoveDirAll(fs, target) else RemoveFile(fs, target)
      case None => (fs, Some(DiskError))
      case Some(rest) => (rest, None)
  }

  function ExecuteSetupStep(w: World, fs: Fs, fetched: seq<string>, step: Step, pkg: Path): Effect {
    var src, dst := PathOf(step.source, pkg), PathOf(step.dest, pkg);
    match step.action
    case Download => DownloadStep(w, fs, fetched, step, pkg)
    case Extract =>
      if src.None? then Effect(fs, fetched, Some(MissingSource))
      else
        var dir := if dst.Some? then dst.value else pkg;
        AsEffect(Unpack(w, fs, src.value, dir, DetectArchiveFormat(src.value), Strip(step)), fetched, BadArchive)
    case Move => var (next, error) := TransferStep(fs, src, dst, Rename); Effect(next, fetched, error)
    case Copy => var (next, error) := TransferStep(fs, src, dst, CopyFile); Effect(next, fetched, error)
    case Mkdir =>
      var dir := if dst.Some? then dst else src;
      if dir.None? then Effect(fs, fetched, Some(MissingDest))
      else AsEffect(Place(fs, MakeDir(dir.value)), fetched, DiskError)
    case Remove =>
      var target := if dst.Some? then dst else src;
      if target.None? then Effect(fs, fetched, Some(MissingDest))
      else var (next, error) := RemoveStep(fs, target.value); Effect(next, fetched, error)
    case Touch =>
      if dst.None? then Effect(fs, fetched, Some(MissingDest))
      else AsEffect(Place(fs, PutFile(dst.value, [])), fetched, DiskError)
    case WriteText =>
      if dst.None? then Effect(fs, fetched, Some(MissingDest))
      else
        var content := if step.content.Some? then step.content.value else [];
        AsEffect(Place(fs, PutFile(dst.value, content)), fetched, DiskError)
    case _ => AsEffect(w.foreign(step, fs, pkg), fetched, ForeignError)
  }

  // ---- A list of steps ----

  datatype Setup = Setup(w: World, overrides: map<string, string>, values: Values, pkg: Path)

  datatype State = State(fs: Fs, dlIdx: nat, fetched: seq<string>)

  datatype Ran = Ran(state: State, error: Option<Error>)

  predicate CheckSetupCondition(c: Setup, condition: Condition, fs: Fs) {
    match condition
    case FileNotExists(path) => Join(c.pkg, path) !in fs
    case FileExists(path) => Join(c.pkg, path) in fs
    case EnvNotSet(variable) => !c.w.envSet(variable)
  }

  predicate Enabled(c: Setup, step: Step, fs: Fs) {
    step.ifCondition.Some? ==> CheckSetupCondition(c, step.ifCondition.value, fs)
  }

  function ResolveText(text: Option<string>, values: Values): Option<string> {
    match text
    case None => None
    case Some(t) => Some(ResolveTemplateVars(t, values))
  }

  function Resolve(step: Step, values: Values): Step {
    step.(url := ResolveText(step.url, values), source := ResolveText(step.source, values),
          dest := ResolveText(step.dest, values), symlinkTarget := ResolveText(step.symlinkTarget, values))
  }

  /** The step that is executed as the `k`-th download, or as whatever else it is. */
  function Resolved(c: Setup, step: Step, k: nat): Step {
    var resolved := Resolve(step, c.values);
    if step.action.Download? && Decimal(k) in c.overrides
    then resolved.(url := Some(c.overrides[Decimal(k)])) else resolved
  }

  function RunStep(c: Setup, s: State, step: Step): Ran {
    if !Enabled(c, step, s.fs) then Ran(s, None)
    else
      var e := ExecuteSetupStep(c.w, s.fs, s.fetched, Resolved(c, step, s.dlIdx), c.pkg);
      Ran(State(e.fs, if step.action.Download? then s.dlIdx + 1 else s.dlIdx, e.fetched), e.error)
  }

  function RunSteps(c: Setup, s: State, steps: seq<Step>): Ran {
    if steps == [] then Ran(s, None)
    else
      var before := RunSteps(c, s, steps[..|steps| - 1]);
      if before.error.Some? then before else RunStep(c, before.state, steps[|steps| - 1])
  }

  /** Running a list and then another is running the two joined, unless the first fails. */
  lemma {:induction false} RunAppend(c: Setup, s: State, a: seq<Step>, b: seq<Step>)
    ensures RunSteps(c, s, a + b)
         == var first := RunSteps(c, s, a); if first.error.Some? then first else RunSteps(c, first.state, b)
  {
    if b == [] {
      assert a + b == a;
    } else {
      RunAppend(c, s, a, b[..|b| - 1]);
      assert (a + b)[..|a + b| - 1] == a + b[..|b| - 1];
    }
  }

  /** The steps before `j` ran, step `j` failed, and what is left is their effect and its own. */
  ghost predicate FailedAt(c: Setup, s: State, steps: seq<Step>, j: nat)
    requires j < |steps|
  {
    var before := RunSteps(c, s, steps[..j]);
    && before.error.None?
    && Enabled(c, steps[j], before.state.fs)
    && RunStep(c, before.state, steps[j]).error.Some?
    && RunSteps(c, s, steps) == RunStep(c, before.state, steps[j])
  }

  /** A failed run failed at one step, and leaves the effects of the earlier ones and that step's own. */
  lemma {:induction false} FailureIsLocal(c: Setup, s: State, steps: seq<Step>)
    requires RunSteps(c, s, steps).error.Some?
    ensures exists j :: 0 <= j < |steps| && FailedAt(c, s, steps, j)
  {
    var n := |steps| - 1;
    if RunSteps(c, s, steps[..n]).error.Some? {
      FailureIsLocal(c, s, steps[..n]);
      var j :| 0 <= j < n && FailedAt(c, s, steps[..n], j);
      assert steps[..n][..j] == steps[..j];
      assert FailedAt(c, s, steps, j);
    } else {
      assert FailedAt(c, s, steps, n);
    }
  }

  /** How many of the steps, when it was their turn, were downloads whose guard held. */
  function HeldDownloads(c: Setup, s: State, steps: seq<Step>): nat {
    if steps == [] then 0
    else
      var before := RunSteps(c, s, steps[..|steps| - 1]);
      var last := steps[|steps| - 1];
      HeldDownloads(c, s, steps[..|steps| - 1])
      + if before.error.None? && last.action.Download? && Enabled(c, last, before.state.fs) then 1 else 0
  }

  lemma {:induction false} CounterCountsHeld(c: Setup, s: State, steps: seq<Step>)
    ensures RunSteps(c, s, steps).state.dlIdx == s.dlIdx + HeldDownloads(c, s, steps)
  {
    if steps != [] {
      CounterCountsHeld(c, s, steps[..|steps| - 1]);
    }
  }

  lemma DownloadAsks(w: World, fs: Fs, fetched: seq<string>, step: Step, pkg: Path)
    ensures var e := DownloadStep(w, fs, fetched, step, pkg);
      && (e.error == Some(MissingUrl) <==> step.url.None?)
      && (step.url.Some? && step.dest.Some? ==> e.fetched == fetched + [step.url.value])
  {
  }

  lemma NoUrlNeeded(w: World, fs: Fs, fetched: seq<string>, step: Step, pkg: Path)
    requires !step.action.Download?
    ensures ExecuteSetupStep(w, fs, fetched, step, pkg).error != Some(MissingUrl)
    ensures ExecuteSetupStep(w, fs, fetched, step, pkg).fetched == fetched
  {
    hide Place, Unpack, CreateDirAll, RemoveDirAll, RemoveFile, DetectArchiveFormat, Join;
    match step.action
    case Extract =>
    case Move =>
    case Copy =>
    case Mkdir =>
    case Remove =>
    case Touch =>
    case WriteText =>
    case _ =>
  }

  lemma RunOneMore(c: Setup, s: State, steps: seq<Step>, step: Step)
    ensures RunSteps(c, s, steps + [step])
         == if RunSteps(c, s, steps).error.Some? then RunSteps(c, s, steps)
             else RunStep(c, RunSteps(c, s, steps).state, step)
  {
    assert (steps + [step])[..|steps|] == steps;
  }

  /** The url a download asks for when `k` downloads were enabled before it: the override `k`, else its own. */
  function UrlFor(c: Setup, step: Step, k: nat): Option<string> {
    if Decimal(k) in c.overrides then Some(c.overrides[Decimal(k)]) else ResolveText(step.url, c.values)
  }

  /**
   A download whose guard holds after `k` downloads whose guards held asks for the override numbered `k` if
   there is one, else for its own resolved url, and for nothing else; no other step asks for anything.
   */
  lemma KthDownload(c: Setup, fs: Fs, steps: seq<Step>, step: Step)
    ensures var k, before, after :=
        HeldDownloads(c, State(fs, 0, []), steps), RunSteps(c, State(fs, 0, []), steps),
            RunSteps(c, State(fs, 0, []), steps + [step]);
      after.state.fetched == before.state.fetched
        + if before.error.None? && Enabled(c, step, before.state.fs) && step.action.Download?
             && UrlFor(c, step, k).Some? && step.dest.Some?
          then [UrlFor(c, step, k).value] else []
  {
    hide RunStep, Enabled, UrlFor, HeldDownloads;
    var before := RunSteps(c, State(fs, 0, []), steps);
    CounterCountsHeld(c, State(fs, 0, []), steps);
    RunOneMore(c, State(fs, 0, []), steps, step);
    StepAsks(c, before.state, step);
  }

  lemma {:induction false} HeldGrows(c: Setup, s: State, steps: seq<Step>, i: nat)
    requires i <= |steps|
    ensures HeldDownloads(c, s, steps[..i]) <= HeldDownloads(c, s, steps)
    decreases |steps|
  {
    hide Enabled;
    if i < |steps| {
      var before := steps[..|steps| - 1];
      assert before[..i] == steps[..i];
      HeldGrows(c, s, before, i);
    } else {
      assert steps[..i] == steps;
    }
  }

  /** No two downloads of a run whose guards held look up the same override. */
  lemma OverridesAreSeparate(c: Setup, s: State, steps: seq<Step>, i: nat, j: nat)
    requires i < j <= |steps| && steps[i].action.Download?
    requires var before := RunSteps(c, s, steps[..i]); before.error.None? && Enabled(c, steps[i], before.state.fs)
    ensures Decimal(HeldDownloads(c, s, steps[..i])) != Decimal(HeldDownloads(c, s, steps[..j]))
  {
    hide Enabled;
    assert steps[..i + 1][..i] == steps[..i];
    assert HeldDownloads(c, s, steps[..i + 1]) == HeldDownloads(c, s, steps[..i]) + 1;
    assert steps[..j][..i + 1] == steps[..i + 1];
    HeldGrows(c, s, steps[..j], i + 1);
    if Decimal(HeldDownloads(c, s, steps[..i])) == Decimal(HeldDownloads(c, s, steps[..j])) {
      DecimalInjective(HeldDownloads(c, s, steps[..i]), HeldDownloads(c, s, steps[..j]));
    }
  }

  lemma StepAsks(c: Setup, s: State, step: Step)
    ensures var url := UrlFor(c, step, s.dlIdx);
      RunStep(c, s, step).state.fetched == s.fetched
        + if Enabled(c, step, s.fs) && step.action.Download? && url.Some? && step.dest.Some? then [url.value] else []
    ensures RunStep(c, s, step).error == Some(MissingUrl) ==> step.action.Download? && step.url.None?
  {
    var resolved := Resolved(c, step, s.dlIdx);
    if step.action.Download? {
      DownloadAsks(c.w, s.fs, s.fetched, resolved, c.pkg);
    } else {
      NoUrlNeeded(c.w, s.fs, s.fetched, resolved, c.pkg);
    }
  }

  /** A manifest that validates never fails for want of a url, whatever guards, overrides and outcomes. */
  lemma {:induction false} ValidNeverMissesUrl(c: Setup, s: State, steps: seq<Step>)
    requires forall i :: 0 <= i < |steps| ==> ValidStep(steps[i])
    ensures RunSteps(c, s, steps).error != Some(MissingUrl)
  {
    if steps != [] {
      var n := |steps| - 1;
      ValidNeverMissesUrl(c, s, steps[..n]);
      assert ValidStep(steps[n]);
      StepAsks(c, RunSteps(c, s, steps[..n]).state, steps[n]);
    }
  }

  // ---- Checksums ----

  function HexValue(ch: char): (v: nat)
    requires ch in S.HEX
    ensures v < 16 && S.HEX[v] == ch
  {
    if '0' <= ch <= '9' then ch as int - '0' as int else 10 + (ch as int - 'a' as int)
  }

  lemma {:induction false} HexDecodes(s: string) returns (d: seq<S.Byte>)
    requires |s| % 2 == 0 && forall i :: 0 <= i < |s| ==> s[i] in S.HEX
    ensures S.HexEncode(d) == s
  {
    if s == [] {
      d := [];
    } else {
      var rest := HexDecodes(s[2..]);
      var b := HexByte(s[0], s[1]);
      d := [b] + rest;
      assert d[1..] == rest;
      assert s == [s[0], s[1]] + s[2..];
    }
  }

  lemma HexByte(high: char, low: char) returns (b: S.Byte)
    requires high in S.HEX && low in S.HEX
    ensures S.HEX[b / 16] == high && S.HEX[b % 16] == low
  {
    hide HexValue;
    b := 16 * HexValue(high) + HexValue(low);
    assert b / 16 == HexValue(high) && b % 16 == HexValue(low);
  }

  predicate LowerCase(s: string) {
    forall i :: 0 <= i < |s| ==> !('A' <= s[i] <= 'F')
  }

  /**
   A checksum that validates can be met by some data's hash exactly when it has no upper-case digit: the hash
   is printed in lower case and compared as text.
   */
  lemma ChecksumReachable(sha: string)
    requires ValidChecksum(sha)
    ensures (exists d: S.Digest :: S.HexEncode(d) == sha) <==> LowerCase(sha)
  {
    if LowerCase(sha) {
      forall i | 0 <= i < |sha| ensures sha[i] in S.HEX {
        LowerHexDigit(sha[i]);
      }
      var d := HexDecodes(sha);
      var digest: S.Digest := d;
      assert S.HexEncode(digest) == sha;
    } else {
      var i :| 0 <= i < |sha| && 'A' <= sha[i] <= 'F';
      UpperNotHex(sha[i]);
    }
  }

  /** A checksum of 64 letters A is accepted, and no data's hash is printed like it. */
  lemma UpperCaseNeverMatches(w: World, data: Bytes)
    ensures var sha := seq(64, _ => 'A'); ValidChecksum(sha) && !VerifySha256(w, data, sha)
  {
    var sha := seq(64, _ => 'A');
    ChecksumReachable(sha);
    assert sha[0] == 'A';
  }

  /** The bytes a download receives, if it asks and is answered. */
  function Received(c: Setup, s: State, step: Step): Option<Bytes> {
    var url := UrlFor(c, step, s.dlIdx);
    if url.None? then None else c.w.fetch(|s.fetched|, url.value)
  }

  /**
   What a download makes of the data it is answered with: it fails for the checksum, and then before anything
   is written, exactly if the step states one and the printed digest of the data is another text.
   */
  lemma DownloadCompares(w: World, fs: Fs, fetched: seq<string>, step: Step, pkg: Path, data: Bytes)
    requires step.url.Some? && step.dest.Some? && w.fetch(|fetched|, step.url.value) == Some(data)
    ensures var e := DownloadStep(w, fs, fetched, step, pkg);
      && (e.error == Some(ChecksumMismatch)
          <==> step.sha256.Some? && S.HexEncode(w.digest(data)) != step.sha256.value)
      && (e.error == Some(ChecksumMismatch) ==> e.fs == fs)
  {
    hide Place, Unpack, NamedFormat, Join, S.HexEncode;
  }

  lemma StepCompares(c: Setup, s: State, step: Step)
    requires step.action.Download? && step.sha256.Some? && Enabled(c, step, s.fs) && RunStep(c, s, step).error.None?
    ensures Received(c, s, step).Some? && S.HexEncode(c.w.digest(Received(c, s, step).value)) == step.sha256.value
  {
    hide Place, Unpack, NamedFormat, Join, S.HexEncode, ResolveTemplateVars;
    var resolved := Resolved(c, step, s.dlIdx);
    if Received(c, s, step).Some? && step.dest.Some? {
      DownloadCompares(c.w, s.fs, s.fetched, resolved, c.pkg, Received(c, s, step).value);
    }
  }

  /** In a run without error every download with a checksum, when its guard held, received data of that digest. */
  lemma {:induction false} RunCompares(c: Setup, s: State, steps: seq<Step>, i: nat)
    requires i < |steps| && RunSteps(c, s, steps).error.None?
    requires steps[i].action.Download? && steps[i].sha256.Some?
    ensures var before := RunSteps(c, s, steps[..i]);
      && before.error.None?
      && (Enabled(c, steps[i], before.state.fs) ==>
            && Received(c, before.state, steps[i]).Some?
            && S.HexEncode(c.w.digest(Received(c, before.state, steps[i]).value)) == steps[i].sha256.value)
    decreases |steps|
  {
    hide RunStep, Enabled, Received;
    var n := |steps| - 1;
    if i < n {
      RunCompares(c, s, steps[..n], i);
      assert steps[..n][..i] == steps[..i];
    } else if Enabled(c, steps[i], RunSteps(c, s, steps[..i]).state.fs) {
      StepCompares(c, RunSteps(c, s, steps[..i]).state, steps[i]);
    }
  }

  /** So a list with a download whose checksum has an upper-case digit, though it validates, fails if it gets there. */
  lemma UpperCaseFails(c: Setup, s: State, steps: seq<Step>, i: nat)
    requires i < |steps| && steps[i].action.Download? && steps[i].sha256.Some?
    requires ValidChecksum(steps[i].sha256.value) && !LowerCase(steps[i].sha256.value)
    requires Enabled(c, steps[i], RunSteps(c, s, steps[..i]).state.fs)
    ensures RunSteps(c, s, steps).error.Some?
  {
    hide RunSteps, Enabled, Received, ValidChecksum;
    if RunSteps(c, s, steps).error.None? {
      RunCompares(c, s, steps, i);
      ChecksumReachable(steps[i].sha256.value);
      assert false;
    }
  }

  lemma LowerHexDigit(ch: char)
    requires IsHexDigit(ch) && !('A' <= ch <= 'F')
    ensures ch in S.HEX
  {
    assert ch == S.HEX[if ch <= '9' then ch as int - '0' as int else 10 + (ch as int - 'a' as int)];
  }

  lemma UpperNotHex(ch: char)
    requires 'A' <= ch <= 'F'
    ensures ch !in S.HEX
  {
  }

  // ---- Running a setup again ----

  predicate Creates(step: Step) {
    step.action.Touch? || step.action.WriteText? || step.action.Mkdir? || step.action.Copy?
    || (step.action.Download? && step.archive.None?)
  }

  function DestPath(c: Setup, step: Step): Path
    requires step.dest.Some?
  {
    Join(c.pkg, ResolveTemplateVars(step.dest.value, c.values))
  }

  /** The step creates, and runs only while some path at or above what it creates is missing. */
  predicate CreatesOnce(c: Setup, step: Step) {
    && Creates(step) && step.dest.Some?
    && step.ifCondition.Some? && step.ifCondition.value.FileNotExists?
    && Prefix(Join(c.pkg, step.ifCondition.value.path), DestPath(c, step))
  }

  /** A guard on the step's own dest is such a guard, if the dest has no placeholder: guards are not resolved. */
  lemma OwnDestCreatesOnce(c: Setup, step: Step)
    requires Creates(step) && step.dest.Some? && PlaceholderFree(step.dest.value)
    requires step.ifCondition == Some(FileNotExists(step.dest.value))
    ensures CreatesOnce(c, step)
  {
    ResolvePlaceholderFree(step.dest.value, c.values);
  }

  /** A creating step that ran without error placed one item at its destination. */
  lemma CreatedItem(c: Setup, s: State, step: Step) returns (item: Item)
    requires Creates(step) && step.dest.Some? && Enabled(c, step, s.fs) && RunStep(c, s, step).error.None?
    ensures !item.Refuse? && item.path == DestPath(c, step)
    ensures Place(s.fs, item) == Outcome(RunStep(c, s, step).state.fs, true)
  {
    hide Place, TransferStep, DownloadStep, Join, ResolveTemplateVars;
    var dest := DestPath(c, step);
    var resolved := Resolved(c, step, s.dlIdx);
    match step.action
    case Touch => item := PutFile(dest, []);
    case WriteText => item := PutFile(dest, if step.content.Some? then step.content.value else []);
    case Mkdir => item := MakeDir(dest);
    case Copy => item := CopiedItem(s.fs, PathOf(resolved.source, c.pkg), dest);
    case Download => item := DownloadedItem(c.w, s.fs, s.fetched, resolved, c.pkg);
  }

  lemma CopiedItem(fs: Fs, src: Option<Path>, dest: Path) returns (item: Item)
    requires TransferStep(fs, src, Some(dest), CopyFile).1.None?
    ensures item.PutFile? && item.path == dest
    ensures Place(fs, item) == Outcome(TransferStep(fs, src, Some(dest), CopyFile).0, true)
  {
    hide CreateDirAll;
    var made := CreateDirAll(fs, Parent(dest)).value;
    item := PutFile(dest, if src.value == dest then [] else made[src.value].data);
  }

  lemma DownloadedItem(w: World, fs: Fs, fetched: seq<string>, step: Step, pkg: Path) returns (item: Item)
    requires step.dest.Some? && step.archive.None? && DownloadStep(w, fs, fetched, step, pkg).error.None?
    ensures item.PutFile? && item.path == Join(pkg, step.dest.value)
    ensures Place(fs, item) == Outcome(DownloadStep(w, fs, fetched, step, pkg).fs, true)
  {
    hide Place, Join;
    item := PutFile(Join(pkg, step.dest.value), w.fetch(|fetched|, step.url.value).value);
  }

  lemma PlacedAt(fs: Fs, item: Item, q: Path)
    requires WellFormed(fs) && !item.Refuse? && Place(fs, item).ok
    ensures q in Place(fs, item).fs <==> q in fs || Prefix(q, item.path)
  {
    PlaceExact(fs, item, q);
  }

  /** After a creating step the guard's path is there exactly when it lies at or above what was created. */
  lemma GuardTurnsFalse(c: Setup, s: State, step: Step)
    requires WellFormed(s.fs) && Creates(step) && step.dest.Some?
    requires step.ifCondition.Some? && step.ifCondition.value.FileNotExists?
    requires Enabled(c, step, s.fs) && RunStep(c, s, step).error.None?
    ensures !Enabled(c, step, RunStep(c, s, step).state.fs) <==> CreatesOnce(c, step)
  {
    var item := CreatedItem(c, s, step);
    PlacedAt(s.fs, item, Join(c.pkg, step.ifCondition.value.path));
  }

  /** A step that touches a version's file, guarded by its own destination as written. */
  const TOUCH_VERSION: Step := Step(
    Touch, None, None, Some("{version}"), None, None, None, None, Some(FileNotExists("{version}")), None, None, [])

  lemma VersionResolves(values: Values)
    requires values(Version) == "1"
    ensures ResolveTemplateVars("{version}", values) == "1"
  {
    ReplaceTag(Version, "", Version, "1");
    assert Tag(Version) + "" == "{version}" && "1" + Replace("", Tag(Version), "1") == "1";
    assert PlaceholderFree("1") by {
      forall h, i | 0 <= i <= 1 ensures !(Tag(h) <= "1"[i..]) {
        assert |"1"[i..]| <= 1 < |Tag(h)|;
      }
    }
    ResolvePlaceholderFree("1", values);
    forall h ensures Replace("1", Tag(h), values(h)) == "1" {
      ReplaceAbsent("1", h, values(h));
    }
  }

  lemma PlainJoin(base: Path, name: string)
    requires name !in {"", ".", ".."} && '/' !in name
    ensures Join(base, name) == base + [name]
  {
    SegmentsPlain(name);
    assert [name][1..] == [];
    assert ComponentsOf([name], true) == [Normal(name)] + ComponentsOf([], false) == [Normal(name)];
    assert Components(name) == [Normal(name)];
    assert [Normal(name)][..|[Normal(name)]| - 1] == [];
    assert Walk(base, [Normal(name)]) == Walk(base, []) + [name];
  }

  /** Where the destination holds a placeholder, the guard looks elsewhere and the step runs every time. */
  lemma PlaceholderRunsAgain(c: Setup)
    requires c.values(Version) == "1" && c.pkg == ["pkg"]
    ensures var s := State(map[[] := Dir], 0, []); var r := RunStep(c, s, TOUCH_VERSION);
      && Enabled(c, TOUCH_VERSION, s.fs) && r.error.None? && Lookup(r.state.fs, ["pkg", "1"]) == Some(File([]))
      && Enabled(c, TOUCH_VERSION, r.state.fs)
  {
    var s := State(map[[] := Dir], 0, []);
    TouchesVersion(c);
    TouchRuns(c, s);
    TouchedIn(s.fs);
    hide RunStep, Join, ResolveTemplateVars, Place, WellFormed, CreatesOnce, Enabled;
    GuardTurnsFalse(c, s, TOUCH_VERSION);
    PlaceExact(s.fs, PutFile(["pkg", "1"], []), ["pkg", "1"]);
  }

  lemma VersionPaths(c: Setup)
    requires c.values(Version) == "1" && c.pkg == ["pkg"]
    ensures Join(c.pkg, "{version}") == ["pkg", "{version}"]
    ensures Join(c.pkg, ResolveTemplateVars("{version}", c.values)) == ["pkg", "1"]
  {
    VersionResolves(c.values);
    hide ResolveTemplateVars, Join;
    PlainJoin(["pkg"], "1");
    PlainJoin(["pkg"], "{version}");
    assert ["pkg"] + ["1"] == ["pkg", "1"] && ["pkg"] + ["{version}"] == ["pkg", "{version}"];
  }

  lemma TouchesVersion(c: Setup)
    requires c.values(Version) == "1" && c.pkg == ["pkg"]
    ensures Join(c.pkg, "{version}") == ["pkg", "{version}"]
    ensures Join(c.pkg, ResolveTemplateVars("{version}", c.values)) == ["pkg", "1"]
    ensures !CreatesOnce(c, TOUCH_VERSION) && Creates(TOUCH_VERSION)
  {
    VersionPaths(c);
    hide Join, ResolveTemplateVars;
    VersionNames();
  }

  lemma VersionNames()
    ensures !Prefix(["pkg", "{version}"], ["pkg", "1"])
  {
    assert |"{version}"| != |"1"|;
    assert ["pkg", "{version}"][1] != ["pkg", "1"][1];
  }

  lemma TouchRuns(c: Setup, s: State)
    requires Join(c.pkg, "{version}") !in s.fs
    ensures var dest := Join(c.pkg, ResolveTemplateVars("{version}", c.values));
      && Enabled(c, TOUCH_VERSION, s.fs) && DestPath(c, TOUCH_VERSION) == dest
      && RunStep(c, s, TOUCH_VERSION).state.fs == Place(s.fs, PutFile(dest, [])).fs
      && (RunStep(c, s, TOUCH_VERSION).error.None? <==> Place(s.fs, PutFile(dest, [])).ok)
  {
    hide Place, Join, ResolveTemplateVars;
  }

  lemma TouchedIn(fs: Fs)
    requires fs == map[[] := Dir]
    ensures WellFormed(fs) && Place(fs, PutFile(["pkg", "1"], [])).ok
  {
    assert Parent(["pkg", "1"]) == ["pkg"] && Parent(["pkg"]) == [];
    assert CreateDirAll(fs, ["pkg"]) == Some(fs[["pkg"] := Dir]);
    assert |["pkg", "1"]| != |["pkg"]|;
  }

  lemma StepKeepsPaths(c: Setup, s: State, step: Step)
    requires WellFormed(s.fs) && Creates(step) && step.dest.Some? && RunStep(c, s, step).error.None?
    ensures WellFormed(RunStep(c, s, step).state.fs)
    ensures forall q :: q in s.fs ==> q in RunStep(c, s, step).state.fs
  {
    if Enabled(c, step, s.fs) {
      var item := CreatedItem(c, s, step);
      PlaceWellFormed(s.fs, item);
      forall q | q in s.fs ensures q in RunStep(c, s, step).state.fs {
        PlacedAt(s.fs, item, q);
      }
    }
  }

  /** After a step that creates once, whether it was enabled or not, it is not enabled. */
  lemma StepTurnsGuardFalse(c: Setup, s: State, step: Step)
    requires WellFormed(s.fs) && CreatesOnce(c, step) && RunStep(c, s, step).error.None?
    ensures !Enabled(c, step, RunStep(c, s, step).state.fs)
  {
    if Enabled(c, step, s.fs) {
      GuardTurnsFalse(c, s, step);
    }
  }

  lemma DisabledStays(c: Setup, a: Fs, b: Fs, step: Step)
    requires CreatesOnce(c, step) && !Enabled(c, step, a) && forall q :: q in a ==> q in b
    ensures !Enabled(c, step, b)
  {
  }

  ghost predicate AllDisabled(c: Setup, steps: seq<Step>, fs: Fs) {
    forall i :: 0 <= i < |steps| ==> !Enabled(c, steps[i], fs)
  }

  ghost predicate AllCreateOnce(c: Setup, steps: seq<Step>) {
    forall i :: 0 <= i < |steps| ==> CreatesOnce(c, steps[i])
  }

  lemma {:induction false} RunTurnsGuardsFalse(c: Setup, s: State, steps: seq<Step>)
    requires WellFormed(s.fs) && AllCreateOnce(c, steps) && RunSteps(c, s, steps).error.None?
    ensures WellFormed(RunSteps(c, s, steps).state.fs)
    ensures AllDisabled(c, steps, RunSteps(c, s, steps).state.fs)
  {
    hide RunStep, CreatesOnce, Enabled;
    if steps != [] {
      var n := |steps| - 1;
      var before, last := steps[..n], steps[n];
      var mid := RunSteps(c, s, before).state;
      RunTurnsGuardsFalse(c, s, before);
      OneMoreDisabled(c, mid, before, last);
      assert steps == before + [last];
    }
  }

  lemma OneMoreDisabled(c: Setup, mid: State, before: seq<Step>, last: Step)
    requires WellFormed(mid.fs) && AllCreateOnce(c, before) && CreatesOnce(c, last)
    requires AllDisabled(c, before, mid.fs) && RunStep(c, mid, last).error.None?
    ensures WellFormed(RunStep(c, mid, last).state.fs)
    ensures AllDisabled(c, before + [last], RunStep(c, mid, last).state.fs)
  {
    var next := RunStep(c, mid, last).state.fs;
    StepKeepsPaths(c, mid, last);
    StepTurnsGuardFalse(c, mid, last);
    forall i | 0 <= i < |before| ensures !Enabled(c, before[i], next) {
      DisabledStays(c, mid.fs, next, before[i]);
    }
  }

  lemma {:induction false} DisabledDoNothing(c: Setup, s: State, steps: seq<Step>)
    requires AllDisabled(c, steps, s.fs)
    ensures RunSteps(c, s, steps) == Ran(s, None)
  {
    if steps != [] {
      DisabledDoNothing(c, s, steps[..|steps| - 1]);
    }
  }

  /**
   Once a list of creating steps, each with its guard, has run without error, running it again, with the
   download counter at zero and whatever the network would answer, changes nothing and asks for nothing.
   */
  lemma RerunIsIdle(c: Setup, s: State, steps: seq<Step>, again: Setup)
    requires WellFormed(s.fs) && AllCreateOnce(c, steps)
    requires RunSteps(c, s, steps).error.None? && again.pkg == c.pkg
    ensures var done := State(RunSteps(c, s, steps).state.fs, 0, RunSteps(c, s, steps).state.fetched);
      RunSteps(again, done, steps) == Ran(done, None)
  {
    RunTurnsGuardsFalse(c, s, steps);
    var done := State(RunSteps(c, s, steps).state.fs, 0, RunSteps(c, s, steps).state.fetched);
    DisabledDoNothing(again, done, steps);
  }

  // ---- What a step leaves ----

  /** What a creating step puts at its destination. */
  function Created(c: Setup, s: State, step: Step): Option<Node>
    requires Creates(step)
  {
    match step.action
    case Mkdir => Some(Dir)
    case Touch => Some(File([]))
    case WriteText => Some(File(if step.content.Some? then step.content.value else []))
    case Copy =>
      var src := PathOf(ResolveText(step.source, c.values), c.pkg);
      if src.None? then None
      else if src == PathOf(ResolveText(step.dest, c.values), c.pkg) then Some(File([])) else Lookup(s.fs, src.value)
    case _ =>
      match Received(c, s, step)
      case None => None
      case Some(data) => Some(File(data))
  }

  /** A creating step that succeeds puts exactly that there, makes the directories above, and nothing else. */
  lemma CreatedContents(c: Setup, s: State, step: Step, q: Path)
    requires WellFormed(s.fs) && Creates(step) && step.dest.Some?
    requires Enabled(c, step, s.fs) && RunStep(c, s, step).error.None?
    ensures Lookup(RunStep(c, s, step).state.fs, q)
         == if q == DestPath(c, step) then Created(c, s, step)
            else if Prefix(q, DestPath(c, step)) then Some(Dir)
            else Lookup(s.fs, q)
  {
    var item := CreatedItem(c, s, step);
    PlaceExact(s.fs, item, q);
    if step.action.Copy? {
      CopiedBytes(c, s, step);
    }
    CreatedByItem(c, s, step, item);
  }

  lemma CopiedBytes(c: Setup, s: State, step: Step)
    requires WellFormed(s.fs) && step.action.Copy? && step.dest.Some?
    requires Enabled(c, step, s.fs) && RunStep(c, s, step).error.None?
    ensures step.source.Some?
    ensures var src := Join(c.pkg, ResolveTemplateVars(step.source.value, c.values));
      && CreateDirAll(s.fs, Parent(DestPath(c, step))).Some?
      && IsFile(CreateDirAll(s.fs, Parent(DestPath(c, step))).value, src)
      && Lookup(s.fs, src) == Lookup(CreateDirAll(s.fs, Parent(DestPath(c, step))).value, src)
  {
    var src := Join(c.pkg, ResolveTemplateVars(step.source.value, c.values));
    var up := Parent(DestPath(c, step));
    CreateDirAllExact(s.fs, up);
    var made := CreateDirAll(s.fs, up).value;
    assert if Prefix(src, up) then IsDir(made, src) else SameAt(made, s.fs, src);
  }

  /** The placed item is determined by the outcome it is placed with. */
  lemma CreatedByItem(c: Setup, s: State, step: Step, item: Item)
    requires WellFormed(s.fs) && Creates(step) && step.dest.Some?
    requires Enabled(c, step, s.fs) && RunStep(c, s, step).error.None?
    requires !item.Refuse? && item.path == DestPath(c, step)
    requires Place(s.fs, item) == Outcome(RunStep(c, s, step).state.fs, true)
    ensures Created(c, s, step) == if item.PutFile? then Some(File(item.data)) else Some(Dir)
  {
    var dest := DestPath(c, step);
    var after := RunStep(c, s, step).state.fs;
    PlaceExact(s.fs, item, dest);
    assert Lookup(after, dest) == if item.PutFile? then Some(File(item.data)) else Some(Dir);
    StepWrites(c, s, step);
  }

  lemma StepWrites(c: Setup, s: State, step: Step)
    requires WellFormed(s.fs) && Creates(step) && step.dest.Some?
    requires Enabled(c, step, s.fs) && RunStep(c, s, step).error.None?
    ensures Lookup(RunStep(c, s, step).state.fs, DestPath(c, step)) == Created(c, s, step)
  {
    var dest := DestPath(c, step);
    match step.action
    case Mkdir => PlaceExact(s.fs, MakeDir(dest), dest);
    case Touch => PlaceExact(s.fs, PutFile(dest, []), dest);
    case WriteText => PlaceExact(s.fs, PutFile(dest, if step.content.Some? then step.content.value else []), dest);
    case Copy => CopyWrites(c, s, step);
    case Download => DownloadWrites(c, s, step);
  }

  lemma CopyWrites(c: Setup, s: State, step: Step)
    requires WellFormed(s.fs) && step.action.Copy? && step.dest.Some?
    requires Enabled(c, step, s.fs) && RunStep(c, s, step).error.None?
    ensures Lookup(RunStep(c, s, step).state.fs, DestPath(c, step)) == Created(c, s, step)
  {
    CopiedBytes(c, s, step);
  }

  lemma DownloadWrites(c: Setup, s: State, step: Step)
    requires WellFormed(s.fs) && step.action.Download? && step.archive.None? && step.dest.Some?
    requires Enabled(c, step, s.fs) && RunStep(c, s, step).error.None?
    ensures Lookup(RunStep(c, s, step).state.fs, DestPath(c, step)) == Created(c, s, step)
  {
    var dest := DestPath(c, step);
    var data := c.w.fetch(|s.fetched|, UrlFor(c, step, s.dlIdx).value).value;
    PlaceExact(s.fs, PutFile(dest, data), dest);
  }

  /** The zip entries a download is unpacked into, once it is placed, and where. */
  function ArchiveItems(c: Setup, step: Step, data: Bytes): seq<Item>
    requires step.dest.Some? && c.w.unzip(data).Some?
  {
    StripItems(Parent(DestPath(c, step)), c.w.unzip(data).value, Strip(step))
  }

  predicate IsZipDownload(c: Setup, step: Step) {
    step.action.Download? && step.dest.Some? && step.archive.Some?
    && NamedFormat(step.archive.value, DestPath(c, step)) == Some(Zip)
  }

  lemma DownloadPlaces(w: World, fs: Fs, fetched: seq<string>, step: Step, pkg: Path)
    requires step.dest.Some? && step.archive.Some?
    requires NamedFormat(step.archive.value, Join(pkg, step.dest.value)) == Some(Zip)
    requires DownloadStep(w, fs, fetched, step, pkg).error.None?
    ensures step.url.Some? && w.fetch(|fetched|, step.url.value).Some?
    ensures var dest, data := Join(pkg, step.dest.value), w.fetch(|fetched|, step.url.value).value;
      var put := Place(fs, PutFile(dest, data));
      && put.ok && IsFile(put.fs, dest) && w.unzip(put.fs[dest].data).Some?
      && var out := PlaceAll(put.fs, StripItems(Parent(dest), w.unzip(put.fs[dest].data).value, Strip(step)));
         && out.ok
         && DownloadStep(w, fs, fetched, step, pkg).fs == if IsFile(out.fs, dest) then out.fs - {dest} else out.fs
  {
    hide PlaceAll, StripItems, NamedFormat, Place, VerifySha256;
  }

  /** A zip download that succeeds placed its data, then the entries, then removed the archive. */
  lemma ArchivePlaced(c: Setup, s: State, step: Step)
    requires WellFormed(s.fs) && IsZipDownload(c, step) && Enabled(c, step, s.fs) && RunStep(c, s, step).error.None?
    ensures Received(c, s, step).Some? && c.w.unzip(Received(c, s, step).value).Some?
    ensures var dest, data := DestPath(c, step), Received(c, s, step).value;
      var out := PlaceAll(s.fs, [PutFile(dest, data)] + ArchiveItems(c, step, data));
      out.ok && RunStep(c, s, step).state.fs == if IsFile(out.fs, dest) then out.fs - {dest} else out.fs
  {
    hide PlaceAll, StripItems, NamedFormat, DownloadStep, Join, WellFormed;
    var dest, resolved := DestPath(c, step), Resolved(c, step, s.dlIdx);
    DownloadPlaces(c.w, s.fs, s.fetched, resolved, c.pkg);
    var put := PutFile(dest, Received(c, s, step).value);
    PlaceExact(s.fs, put, dest);
    assert Place(s.fs, put).fs[dest] == File(put.data);
    PlaceFirst(s.fs, put, ArchiveItems(c, step, put.data));
  }

  /**
   A zip download that succeeds leaves what its entries say beside its destination, last writer winning,
   directories above them, and everything else as it was; the archive itself is gone.
   */
  lemma ArchiveUnpacked(c: Setup, s: State, step: Step, q: Path)
    requires WellFormed(s.fs) && IsZipDownload(c, step) && Enabled(c, step, s.fs) && RunStep(c, s, step).error.None?
    ensures Received(c, s, step).Some? && c.w.unzip(Received(c, s, step).value).Some?
    ensures var dest, data := DestPath(c, step), Received(c, s, step).value;
      Lookup(RunStep(c, s, step).state.fs, q)
      == if q == dest then None else Expected(s.fs, [PutFile(dest, data)] + ArchiveItems(c, step, data), q)
  {
    hide RunStep, WellFormed, ArchiveItems;
    ArchivePlaced(c, s, step);
    var dest, data := DestPath(c, step), Received(c, s, step).value;
    var all := [PutFile(dest, data)] + ArchiveItems(c, step, data);
    PlaceAllExact(s.fs, all, q);
    PlaceAllExact(s.fs, all, dest);
    StaysFile([PutFile(dest, data)], ArchiveItems(c, step, data), dest);
  }

  /** What was once named stays named, however many items follow. */
  lemma {:induction false} StaysFile(a: seq<Item>, b: seq<Item>, q: Path)
    requires Named(a, q)
    ensures Named(a + b, q)
  {
    if b == [] {
      assert a + b == a;
    } else {
      StaysFile(a, b[..|b| - 1], q);
      assert (a + b)[..|a + b| - 1] == a + b[..|b| - 1];
    }
  }

  /** A remove that succeeds leaves nothing at or below its target and everything else as it was. */
  lemma RemovedGone(fs: Fs, target: Path, q: Path)
    requires WellFormed(fs) && RemoveStep(fs, target).1.None?
    ensures Lookup(RemoveStep(fs, target).0, q) == if Prefix(target, q) then None else Lookup(fs, q)
  {
    if Prefix(target, q) && q != target && !IsDir(fs, target) {
      NothingBelow(fs, target, q);
    }
  }

  /** A move that succeeds takes the whole subtree along, makes the directories above its new place, and no more. */
  lemma MovedSubtree(fs: Fs, src: Path, dst: Path, q: Path)
    requires WellFormed(fs) && src != dst && TransferStep(fs, Some(src), Some(dst), Rename).1.None?
    ensures Lookup(TransferStep(fs, Some(src), Some(dst), Rename).0, q)
         == if Prefix(dst, q) then Lookup(fs, Rebase(q, dst, src))
            else if Prefix(src, q) then None
            else if Prefix(q, dst) then Some(Dir)
            else Lookup(fs, q)
  {
    var up := Parent(dst);
    CreateDirAllExact(fs, up);
    var made := CreateDirAll(fs, up).value;
    RenameMoves(made, src, dst, q);
    PrefixOfParent(q, dst);
    assert if Prefix(q, up) then IsDir(made, q) else SameAt(made, fs, q);
    if Prefix(dst, q) {
      var r := Rebase(q, dst, src);
      assert if Prefix(r, up) then IsDir(made, r) else SameAt(made, fs, r);
      if Prefix(r, up) {
        SourceOutsideTarget(made, src, dst, r);
      }
    }
  }

  lemma SourceOutsideTarget(made: Fs, src: Path, dst: Path, r: Path)
    requires WellFormed(made) && Rename(made, src, dst).Some? && src != dst
    requires Prefix(src, r) && IsDir(made, r)
    ensures !Prefix(r, Parent(dst))
  {
    if IsFile(made, src) && r != src {
      NothingBelow(made, src, r);
    }
    assert Prefix(r, Parent(dst)) ==> Prefix(src, dst);
  }

  // ---- The interpreter ----

  class Installer {
    const disk: Disk
    var fetched: seq<string>

    constructor (disk: Disk)
      ensures this.disk == disk && fetched == []
    {
      this.disk := disk;
      fetched := [];
    }

    method ExtractArchive(w: World, archive: Path, dest: Path, format: Option<Format>, strip: nat) returns (ok: bool)
      modifies disk
      ensures Outcome(disk.fs, ok) == Unpack(w, old(disk.fs), archive, dest, format, strip)
    {
      match format {
        case None => ok := false;
        case Some(Zip) =>
          if !IsFile(disk.fs, archive) {
            return false;
          }
          ok := ExtractZipWithStrip(disk, w.unzip(disk.fs[archive].data), dest, strip);
        case Some(other) =>
          var out := w.unpack(other, disk.fs, archive, dest, strip);
          disk.fs := out.fs;
          ok := out.ok;
      }
    }

    method DownloadFile(w: World, step: Step, pkg: Path) returns (error: Option<Error>)
      modifies disk, this`fetched
      ensures Effect(disk.fs, fetched, error) == DownloadStep(w, old(disk.fs), old(fetched), step, pkg)
    {
      if step.url.None? {
        return Some(MissingUrl);
      }
      if step.dest.None? {
        return Some(MissingDest);
      }
      var dest := Join(pkg, step.dest.value);
      var data := w.fetch(|fetched|, step.url.value);
      fetched := fetched + [step.url.value];
      if data.None? {
        return Some(DownloadFailed);
      }
      if step.sha256.Some? && !VerifySha256(w, data.value, step.sha256.value) {
        return Some(ChecksumMismatch);
      }
      var ok := PlaceEntry(disk, dest, RegularFile, Content(data.value));
      if !ok {
        return Some(DiskError);
      }
      if step.archive.None? {
        return None;
      }
      ok := ExtractArchive(w, dest, Parent(dest), NamedFormat(step.archive.value, dest), Strip(step));
      if !ok {
        return Some(BadArchive);
      }
      var removed := disk.Try(RemoveFile(disk.fs, dest));
      error := None;
    }

    method MakeParent(src: Option<Path>, dst: Option<Path>) returns (error: Option<Error>)
      modifies disk
      ensures error.None? ==> src.Some? && dst.Some?
      ensures error == if src.None? then Some(MissingSource) else if dst.None? then Some(MissingDest)
                       else if CreateDirAll(old(disk.fs), Parent(dst.value)).None? then Some(DiskError) else None
      ensures disk.fs == if error.None? then CreateDirAll(old(disk.fs), Parent(dst.value)).value else old(disk.fs)
    {
      if src.None? {
        return Some(MissingSource);
      }
      if dst.None? {
        return Some(MissingDest);
      }
      var ok := disk.Try(CreateDirAll(disk.fs, Parent(dst.value)));
      error := if ok then None else Some(DiskError);
    }

    method RemoveTarget(target: Path) returns (error: Option<Error>)
      modifies disk
      ensures (disk.fs, error) == RemoveStep(old(disk.fs), target)
    {
      if target !in disk.fs {
        return None;
      }
      var ok: bool;
      if disk.fs[target].Dir? {
        ok := disk.Try(RemoveDirAll(disk.fs, target));
      } else {
        ok := disk.Try(RemoveFile(disk.fs, target));
      }
      error := if ok then None else Some(DiskError);
    }

    method Execute(w: World, step: Step, pkg: Path) returns (error: Option<Error>)
      modifies disk, this`fetched
      ensures Effect(disk.fs, fetched, error) == ExecuteSetupStep(w, old(disk.fs), old(fetched), step, pkg)
    {
      var src, dst := PathOf(step.source, pkg), PathOf(step.dest, pkg);
      var ok := true;
      match step.action {
        case Download =>
          error := DownloadFile(w, step, pkg);
          return;
        case Extract =>
          if src.None? {
            return Some(MissingSource);
          }
          var dir := if dst.Some? then dst.value else pkg;
          ok := ExtractArchive(w, src.value, dir, DetectArchiveFormat(src.value), Strip(step));
          return if ok then None else Some(BadArchive);
        case Move =>
          error := MakeParent(src, dst);
          if error.Some? {
            return;
          }
          ok := disk.Try(Rename(disk.fs, src.value, dst.value));
        case Copy =>
          error := MakeParent(src, dst);
          if error.Some? {
            return;
          }
          ok := disk.Try(CopyFile(disk.fs, src.value, dst.value));
        case Mkdir =>
          var dir := if dst.Some? then dst else src;
          if dir.None? {
            return Some(MissingDest);
          }
          ok := disk.Try(CreateDirAll(disk.fs, dir.value));
        case Remove =>
          var target := if dst.Some? then dst else src;
          if target.None? {
            return Some(MissingDest);
          }
          error := RemoveTarget(target.value);
          return;
        case Touch =>
          if dst.None? {
            return Some(MissingDest);
          }
          ok := PlaceEntry(disk, dst.value, RegularFile, Content([]));
        case WriteText =>
          if dst.None? {
            return Some(MissingDest);
          }
          ok := PlaceEntry(disk, dst.value, RegularFile,
              Content(if step.content.Some? then step.content.value else []));
        case _ =>
          var out := w.foreign(step, disk.fs, pkg);
          disk.fs := out.fs;
          return if out.ok then None else Some(ForeignError);
      }
      error := if ok then None else Some(DiskError);
    }

    /** The commands of a manifest, in order; the counter of downloads decides which override applies. */
    method ExecuteCommandsWithOverrides(c: Setup, steps: seq<Step>) returns (error: Option<Error>)
      modifies disk, this`fetched
      ensures var r := RunSteps(c, State(old(disk.fs), 0, old(fetched)), steps);
        disk.fs == r.state.fs && fetched == r.state.fetched && error == r.error
    {
      hide CheckSetupCondition, Decimal, ExecuteSetupStep;
      ghost var start := State(disk.fs, 0, fetched);
      var dlIdx := 0;
      for i := 0 to |steps|
        invariant RunSteps(c, start, steps[..i]) == Ran(State(disk.fs, dlIdx, fetched), None)
      {
        var step := steps[i];
        assert steps[..i + 1][..i] == steps[..i];
        if step.ifCondition.Some? {
          if !CheckSetupCondition(c, step.ifCondition.value, disk.fs) {
            continue;
          }
        }
        var resolved := Resolve(step, c.values);
        ghost var k := dlIdx;
        if resolved.action.Download? {
          var key := Decimal(dlIdx);
          if key in c.overrides {
            resolved := resolved.(url := Some(c.overrides[key]));
          }
          dlIdx := dlIdx + 1;
        }
        assert resolved == Resolved(c, step, k);
        error := Execute(c.w, resolved, c.pkg);
        if error.Some? {
          assert steps == steps[..i + 1] + steps[i + 1..];
          RunAppend(c, start, steps[..i + 1], steps[i + 1..]);
          return;
        }
      }
      assert steps[..|steps|] == steps;
      error := None;
    }
  }
}
