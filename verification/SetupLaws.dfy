/**
 What each setup step answers: which error, and exactly when it succeeds, told by what the tree holds. What a
 successful step leaves is said in `SetupSteps`; a failed one leaves the tree alone but for what is told here.
 */
module SetupLaws {
  import opened Wrappers
  import opened Filesystem
  import opened Paths
  import opened Archives
  import opened PackageExtract
  import opened SetupSteps
  import S = SignedContext

  // ---- Files and directories ----

  /** A file can be written at the path: no file lies above it, and no directory at it. */
  ghost predicate Writable(fs: Fs, p: Path) {
    p != [] && !Blocks(fs, Parent(p)) && !IsDir(fs, p)
  }

  lemma MadeAbove(fs: Fs, p: Path)
    requires WellFormed(fs) && p != [] && !Blocks(fs, Parent(p))
    ensures CreateDirAll(fs, Parent(p)).Some?
    ensures var made := CreateDirAll(fs, Parent(p)).value;
      && WellFormed(made) && WithDirs(made, fs, Parent(p)) && IsDir(made, Parent(p))
      && SameAt(made, fs, p) && (HasChildren(made, p) <==> HasChildren(fs, p))
  {
    CreateDirAllExact(fs, Parent(p));
    var made := CreateDirAll(fs, Parent(p)).value;
    assert Prefix(Parent(p), Parent(p));
    assert !Prefix(p, Parent(p));
    assert SameAt(made, fs, p);
    forall q | Prefix(p, q) ensures q in made <==> q in fs {
      assert !Prefix(q, Parent(p));
      assert if Prefix(q, Parent(p)) then IsDir(made, q) else SameAt(made, fs, q);
    }
  }

  lemma NothingMade(fs: Fs, p: Path)
    requires WellFormed(fs) && IsDir(fs, p)
    ensures CreateDirAll(fs, Parent(p)) == Some(fs)
  {
    if p == [] {
      assert Parent(p) == [];
    } else {
      assert InDir(fs, p);
    }
  }

  /** A file is placed exactly if it can be written; if not, nothing changes. */
  lemma FilePlaced(fs: Fs, p: Path, data: Bytes)
    requires WellFormed(fs)
    ensures Place(fs, PutFile(p, data)).ok <==> Writable(fs, p)
    ensures !Place(fs, PutFile(p, data)).ok ==> Place(fs, PutFile(p, data)).fs == fs
  {
    CreateDirAllExact(fs, Parent(p));
    if IsDir(fs, p) {
      NothingMade(fs, p);
    } else if p != [] && !Blocks(fs, Parent(p)) {
      MadeAbove(fs, p);
    }
  }

  /** The error of a step that lacks a text, or whose call fails. */
  function Failing(error: Error, holds: bool): Option<Error> {
    if holds then None else Some(error)
  }

  lemma TouchAnswers(w: World, fs: Fs, fetched: seq<string>, step: Step, pkg: Path)
    requires WellFormed(fs) && (step.action.Touch? || step.action.WriteText?)
    ensures var e := ExecuteSetupStep(w, fs, fetched, step, pkg);
      && (step.dest.None? ==> e == Effect(fs, fetched, Some(MissingDest)))
      && (step.dest.Some? ==> e.error == Failing(DiskError, Writable(fs, Join(pkg, step.dest.value))))
      && (e.error.Some? ==> e.fs == fs)
  {
    hide Place, Join;
    if step.dest.Some? {
      var data := if step.action.WriteText? && step.content.Some? then step.content.value else [];
      FilePlaced(fs, Join(pkg, step.dest.value), data);
    }
  }

  /** The path a directory is made at, or something removed at: the dest, without one the source. */
  function TargetText(step: Step): Option<string> {
    match step.dest
    case Some(text) => Some(text)
    case None => step.source
  }

  lemma MkdirAnswers(w: World, fs: Fs, fetched: seq<string>, step: Step, pkg: Path)
    requires WellFormed(fs) && step.action.Mkdir?
    ensures var e := ExecuteSetupStep(w, fs, fetched, step, pkg);
      match TargetText(step)
      case None => e == Effect(fs, fetched, Some(MissingDest))
      case Some(text) =>
        var p := Join(pkg, text);
        && e.error == Failing(DiskError, !Blocks(fs, p))
        && (if e.error.Some? then e.fs == fs else WithDirs(e.fs, fs, p))
  {
    hide Join;
    if TargetText(step).Some? {
      CreateDirAllExact(fs, Join(pkg, TargetText(step).value));
    }
  }

  lemma RemoveAnswers(w: World, fs: Fs, fetched: seq<string>, step: Step, pkg: Path, q: Path)
    requires WellFormed(fs) && step.action.Remove?
    ensures var e := ExecuteSetupStep(w, fs, fetched, step, pkg);
      match TargetText(step)
      case None => e == Effect(fs, fetched, Some(MissingDest))
      case Some(text) =>
        var p := Join(pkg, text);
        && e.error == Failing(DiskError, p != [])
        && Lookup(e.fs, q) == if e.error.None? && Prefix(p, q) then None else Lookup(fs, q)
  {
    hide Join;
    if TargetText(step).Some? && Join(pkg, TargetText(step).value) != [] {
      RemovedGone(fs, Join(pkg, TargetText(step).value), q);
    }
  }

  // ---- Copying and moving ----

  lemma CopyAnswers(w: World, fs: Fs, fetched: seq<string>, step: Step, pkg: Path)
    requires WellFormed(fs) && step.action.Copy?
    ensures var e := ExecuteSetupStep(w, fs, fetched, step, pkg);
      if step.source.None? then e == Effect(fs, fetched, Some(MissingSource))
      else if step.dest.None? then e == Effect(fs, fetched, Some(MissingDest))
      else
        var src, dst := Join(pkg, step.source.value), Join(pkg, step.dest.value);
        && e.error == Failing(DiskError, IsFile(fs, src) && Writable(fs, dst))
        && (e.error.Some? ==> e.fs == fs || WithDirs(e.fs, fs, Parent(dst)))
  {
    hide Join;
    if step.source.Some? && step.dest.Some? {
      var src, dst := Join(pkg, step.source.value), Join(pkg, step.dest.value);
      CreateDirAllExact(fs, Parent(dst));
      if dst != [] && !Blocks(fs, Parent(dst)) {
        MadeAbove(fs, dst);
        var made := CreateDirAll(fs, Parent(dst)).value;
        assert if Prefix(src, Parent(dst)) then IsDir(made, src) else SameAt(made, fs, src);
      }
    }
  }

  /** A file takes the place of a file or of nothing, a directory that of an empty one outside itself or of nothing. */
  ghost predicate Movable(fs: Fs, src: Path, dst: Path) {
    && src != [] && dst != [] && src in fs && !Blocks(fs, Parent(dst))
    && (|| src == dst
        || (IsFile(fs, src) && !IsDir(fs, dst))
        || (IsDir(fs, src) && !Prefix(src, dst) && !IsFile(fs, dst)
            && forall q :: q in fs && Prefix(dst, q) ==> q == dst))
  }

  lemma MoveAnswers(w: World, fs: Fs, fetched: seq<string>, step: Step, pkg: Path)
    requires WellFormed(fs) && step.action.Move?
    ensures var e := ExecuteSetupStep(w, fs, fetched, step, pkg);
      if step.source.None? then e == Effect(fs, fetched, Some(MissingSource))
      else if step.dest.None? then e == Effect(fs, fetched, Some(MissingDest))
      else
        var src, dst := Join(pkg, step.source.value), Join(pkg, step.dest.value);
        && e.error == Failing(DiskError, Movable(fs, src, dst))
        && (e.error.Some? ==> e.fs == fs || WithDirs(e.fs, fs, Parent(dst)))
  {
    hide Join;
    if step.source.Some? && step.dest.Some? {
      RenameAnswers(fs, Join(pkg, step.source.value), Join(pkg, step.dest.value));
    }
  }

  lemma RenameAnswers(fs: Fs, src: Path, dst: Path)
    requires WellFormed(fs)
    ensures var r := TransferStep(fs, Some(src), Some(dst), Rename);
      && r.1 == Failing(DiskError, Movable(fs, src, dst))
      && (r.1.Some? ==> r.0 == fs || WithDirs(r.0, fs, Parent(dst)))
  {
    CreateDirAllExact(fs, Parent(dst));
    if dst != [] && !Blocks(fs, Parent(dst)) {
      MadeAbove(fs, dst);
      var made := CreateDirAll(fs, Parent(dst)).value;
      assert if Prefix(src, Parent(dst)) then IsDir(made, src) else SameAt(made, fs, src);
      if Prefix(src, Parent(dst)) {
        assert Prefix(src, dst) && src != dst;
        assert IsFile(fs, src) ==> Blocks(fs, Parent(dst));
      }
    }
  }

  // ---- Archives ----

  /** The name ends in the suffix, ASCII letters compared without their case. */
  predicate HasSuffix(name: string, suffix: string) {
    && |suffix| <= |name|
    && forall k :: 0 <= k < |suffix| ==> SameLetter(name[|name| - |suffix| + k], suffix[k])
  }

  predicate SameLetter(c: char, lower: char) {
    c == lower || (65 <= c as int <= 90 && c as int + 32 == lower as int)
  }

  lemma SuffixIs(name: string, suffix: string)
    requires forall c :: c in suffix ==> !('A' <= c <= 'Z')
    ensures EndsWith(ToLowercase(name), suffix) <==> HasSuffix(name, suffix)
  {
    var lower, n := ToLowercase(name), |name| - |suffix|;
    if |suffix| <= |name| {
      assert |lower[n..]| == |suffix|;
      forall k | 0 <= k < |suffix| ensures lower[n..][k] == suffix[k] <==> SameLetter(name[n + k], suffix[k]) {
        assert suffix[k] in suffix;
        assert lower[n..][k] == lower[n + k];
      }
      assert EndsWith(lower, suffix) <==> forall k :: 0 <= k < |suffix| ==> lower[n..][k] == suffix[k];
    }
  }

  /** An archive's format is told by the end of its name, in either case; a tar file may be packed as well. */
  lemma DetectedFormat(dir: Path, name: string)
    ensures DetectArchiveFormat(dir + [name])
         == if HasSuffix(name, ".tar.gz") || HasSuffix(name, ".tgz") then Some(TarGz)
            else if HasSuffix(name, ".zip") then Some(Zip)
            else if HasSuffix(name, ".gz") then Some(Gzip)
            else None
    ensures DetectArchiveFormat([]) == None
  {
    hide EndsWith, HasSuffix, ToLowercase;
    SuffixIs(name, ".tar.gz");
    SuffixIs(name, ".tgz");
    SuffixIs(name, ".zip");
    SuffixIs(name, ".gz");
  }

  /** A download's format is the one it names, else that of its file. */
  lemma FormatNamed(archive: Path, format: string)
    ensures NamedFormat("zip", archive) == Some(Zip)
    ensures NamedFormat("tar.gz", archive) == NamedFormat("tgz", archive) == Some(TarGz)
    ensures NamedFormat("gzip", archive) == Some(Gzip)
    ensures format !in {"zip", "tar.gz", "tgz", "gzip"} ==> NamedFormat(format, archive) == DetectArchiveFormat(archive)
  {
  }

  /** A zip unpacks exactly if it is a file that reads as one and its entries fit together and with what is there. */
  lemma ZipUnpacks(w: World, fs: Fs, archive: Path, dir: Path, strip: nat)
    requires WellFormed(fs)
    ensures var r := Unpack(w, fs, archive, dir, Some(Zip), strip);
      && (r.ok <==> && IsFile(fs, archive) && w.unzip(fs[archive].data).Some?
                    && Fits(fs, StripItems(dir, w.unzip(fs[archive].data).value, strip)))
      && (!IsFile(fs, archive) || w.unzip(fs[archive].data).None? ==> r.fs == fs)
  {
    if IsFile(fs, archive) && w.unzip(fs[archive].data).Some? {
      PlaceAllSucceeds(fs, StripItems(dir, w.unzip(fs[archive].data).value, strip));
    }
  }

  /** The number of components a step strips: none unless it says so. */
  ghost predicate Strips(step: Step, n: nat) {
    match step.strip
    case Some(m) => n == m
    case None => n == 0
  }

  /** An extract step unpacks its source into its dest, without one into the package, and says if that fails. */
  lemma ExtractAnswers(w: World, fs: Fs, fetched: seq<string>, step: Step, pkg: Path, n: nat)
    requires WellFormed(fs) && step.action.Extract? && Strips(step, n)
    ensures var e := ExecuteSetupStep(w, fs, fetched, step, pkg);
      if step.source.None? then e == Effect(fs, fetched, Some(MissingSource))
      else
        var src := Join(pkg, step.source.value);
        var dir := match step.dest case Some(text) => Join(pkg, text) case None => pkg;
        match DetectArchiveFormat(src)
        case None => e == Effect(fs, fetched, Some(BadArchive))
        case Some(Zip) =>
          e.error == Failing(BadArchive, && IsFile(fs, src) && w.unzip(fs[src].data).Some?
                                         && Fits(fs, StripItems(dir, w.unzip(fs[src].data).value, n)))
        case Some(format) =>
          var out := w.unpack(format, fs, src, dir, n);
          e == Effect(out.fs, fetched, Failing(BadArchive, out.ok))
  {
    hide Join, PlaceAll, StripItems, DetectArchiveFormat, Fits;
    if step.source.Some? {
      var dir := match step.dest case Some(text) => Join(pkg, text) case None => pkg;
      ZipUnpacks(w, fs, Join(pkg, step.source.value), dir, n);
    }
  }

  /** What an extracted zip leaves: its entries, last writer winning, directories above them, and all else as it was. */
  lemma ExtractLeaves(w: World, fs: Fs, fetched: seq<string>, step: Step, pkg: Path, n: nat, q: Path)
    requires WellFormed(fs) && step.action.Extract? && Strips(step, n) && step.source.Some?
    requires DetectArchiveFormat(Join(pkg, step.source.value)) == Some(Zip)
    requires ExecuteSetupStep(w, fs, fetched, step, pkg).error.None?
    ensures var src := Join(pkg, step.source.value);
      var dir := match step.dest case Some(text) => Join(pkg, text) case None => pkg;
      && IsFile(fs, src) && w.unzip(fs[src].data).Some?
      && Lookup(ExecuteSetupStep(w, fs, fetched, step, pkg).fs, q)
         == Expected(fs, StripItems(dir, w.unzip(fs[src].data).value, n), q)
  {
    hide Join, PlaceAll, StripItems, DetectArchiveFormat, Fits, Expected;
    ExtractAnswers(w, fs, fetched, step, pkg, n);
    var src := Join(pkg, step.source.value);
    var dir := match step.dest case Some(text) => Join(pkg, text) case None => pkg;
    PlaceAllExact(fs, StripItems(dir, w.unzip(fs[src].data).value, n), q);
  }

  // ---- Downloads ----

  /** The checksum the step states, if any, is the printed digest of the data. */
  predicate Verified(w: World, step: Step, data: Bytes) {
    match step.sha256
    case None => true
    case Some(sha) => S.HexEncode(w.digest(data)) == sha
  }

  /** Whether the data of a download, once stored, unpacks. */
  ghost predicate Unpacks(w: World, fs: Fs, dest: Path, format: Option<Format>, strip: nat) {
    match format
    case None => false
    case Some(Zip) =>
      && IsFile(fs, dest) && w.unzip(fs[dest].data).Some?
      && Fits(fs, StripItems(Parent(dest), w.unzip(fs[dest].data).value, strip))
    case Some(other) => w.unpack(other, fs, dest, Parent(dest), strip).ok
  }

  /**
   A download fails for want of a url or a dest before it asks; then if it gets no answer, if the checksum is not
   met, if the data cannot be written, and if an archive does not unpack, in that order. Only the last leaves
   something behind.
   */
  lemma DownloadAnswers(w: World, fs: Fs, fetched: seq<string>, step: Step, pkg: Path, n: nat)
    requires WellFormed(fs) && step.action.Download? && Strips(step, n)
    ensures var e := ExecuteSetupStep(w, fs, fetched, step, pkg);
      if step.url.None? then e == Effect(fs, fetched, Some(MissingUrl))
      else if step.dest.None? then e == Effect(fs, fetched, Some(MissingDest))
      else
        var asked, dest := fetched + [step.url.value], Join(pkg, step.dest.value);
        match w.fetch(|fetched|, step.url.value)
        case None => e == Effect(fs, asked, Some(DownloadFailed))
        case Some(data) =>
          if !Verified(w, step, data) then e == Effect(fs, asked, Some(ChecksumMismatch))
          else if !Writable(fs, dest) then e == Effect(fs, asked, Some(DiskError))
          else
            && e.fetched == asked
            && e.error == (if step.archive.None? then None
                           else Failing(BadArchive, Unpacks(w, Place(fs, PutFile(dest, data)).fs, dest,
                                                            NamedFormat(step.archive.value, dest), n)))
  {
    hide Join, Place, PlaceAll, StripItems, NamedFormat, Fits, S.HexEncode;
    if step.url.Some? && step.dest.Some? && w.fetch(|fetched|, step.url.value).Some? {
      var dest, data := Join(pkg, step.dest.value), w.fetch(|fetched|, step.url.value).value;
      FilePlaced(fs, dest, data);
      PlaceWellFormed(fs, PutFile(dest, data));
      ZipUnpacks(w, Place(fs, PutFile(dest, data)).fs, dest, Parent(dest), n);
    }
  }

  // ---- Guards and the other steps ----

  /** When a step runs: without a guard always, else while a path is missing, or there, or a variable is not set. */
  lemma GuardIs(c: Setup, step: Step, fs: Fs)
    ensures Enabled(c, step, fs)
        <==> match step.ifCondition
             case None => true
             case Some(FileNotExists(path)) => Lookup(fs, Join(c.pkg, path)) == None
             case Some(FileExists(path)) => Lookup(fs, Join(c.pkg, path)) != None
             case Some(EnvNotSet(variable)) => !c.w.envSet(variable)
  {
    hide Join;
  }

  /** A step outside the model does what it does, and its failure is the run's. */
  lemma ForeignAnswers(w: World, fs: Fs, fetched: seq<string>, step: Step, pkg: Path)
    requires step.action.Symlink? || step.action.Chmod? || step.action.Run?
    ensures var out := w.foreign(step, fs, pkg);
      ExecuteSetupStep(w, fs, fetched, step, pkg) == Effect(out.fs, fetched, Failing(ForeignError, out.ok))
  {
  }
}
