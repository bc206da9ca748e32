/** Unpacking a plugin package, and unpacking a downloaded zip with leading components stripped. */
module PackageExtract {
  import opened Wrappers
  import opened Filesystem
  import opened Paths
  import opened Archives
  import opened Sequences

  /** What the zip reader gives for an entry's contents. */
  datatype Body = Unopenable | Unreadable | Content(data: Bytes)

  datatype Entry = Entry(name: string, body: Body)
  {
    /** The zip reader's test for a directory. */
    predicate IsDirectory() {
      name != [] && name[|name| - 1] in {'/', '\\'}
    }
  }

  /** What is to be made at an entry's place; a path that does not end in a name cannot be written as a file. */
  datatype Kind = Directory | RegularFile | Unwritable

  function ItemAt(p: Path, kind: Kind, body: Body): Item {
    if body.Unopenable? then Refuse
    else if kind.Directory? then MakeDir(p)
    else if kind.Unwritable? || body.Unreadable? then PutUnreadable(p)
    else PutFile(p, body.data)
  }

  /** The path text ends in a name, not in a slash, `.` or `..`. */
  predicate EndsInName(text: string) {
    var segments := Segments(text);
    segments[|segments| - 1] !in {"", ".", ".."}
  }

  function KindOf(entry: Entry): Kind {
    if entry.IsDirectory() then Directory else if EndsInName(entry.name) then RegularFile else Unwritable
  }

  // ---- A plugin package ----

  function EntryItem(target: Path, entry: Entry): Item {
    match SafeJoin(target, entry.name)
    case None => Refuse
    case Some(p) => ItemAt(p, KindOf(entry), entry.body)
  }

  function EntryItems(target: Path, entries: seq<Entry>): (r: seq<Item>)
    ensures |r| == |entries|
  {
    seq(|entries|, i requires 0 <= i < |entries| => EntryItem(target, entries[i]))
  }

  /** The target is made first, then the archive is opened, then its entries are placed in order. */
  function PackageItems(archive: Option<seq<Entry>>, target: Path): seq<Item> {
    [MakeDir(target)] + if archive.None? then [Refuse] else EntryItems(target, archive.value)
  }

  method ExtractPluginZipToDir(disk: Disk, archive: Option<seq<Entry>>, target: Path) returns (ok: bool)
    modifies disk
    ensures Outcome(disk.fs, ok) == PlaceAll(old(disk.fs), PackageItems(archive, target))
  {
    PlaceFirst(disk.fs, MakeDir(target), if archive.None? then [Refuse] else EntryItems(target, archive.value));
    ok := disk.Try(CreateDirAll(disk.fs, target));
    if !ok {
      return;
    }
    if archive.None? {
      PlaceFirst(disk.fs, Refuse, []);
      return false;
    }
    ok := ExtractEntries(disk, target, archive.value);
  }

  lemma PlaceFirst(fs: Fs, first: Item, rest: seq<Item>)
    ensures PlaceAll(fs, [first] + rest) == if Place(fs, first).ok then PlaceAll(Place(fs, first).fs, rest)
        else Place(fs, first)
  {
    PlaceAllAppend(fs, [first], rest);
    assert [first][..0] == [];
  }

  method ExtractEntries(disk: Disk, target: Path, entries: seq<Entry>) returns (ok: bool)
    modifies disk
    ensures Outcome(disk.fs, ok) == PlaceAll(old(disk.fs), EntryItems(target, entries))
  {
    ghost var items := EntryItems(target, entries);
    for i := 0 to |entries|
      invariant PlaceAll(old(disk.fs), items[..i]) == Outcome(disk.fs, true)
    {
      PlaceNext(old(disk.fs), items, i);
      ok := ExtractEntry(disk, target, entries[i]);
      if !ok {
        Fails(old(disk.fs), items, i + 1);
        return;
      }
    }
    assert items[..|items|] == items;
    ok := true;
  }

  lemma PlaceNext(fs: Fs, items: seq<Item>, i: nat)
    requires i < |items| && PlaceAll(fs, items[..i]).ok
    ensures PlaceAll(fs, items[..i + 1]) == Place(PlaceAll(fs, items[..i]).fs, items[i])
  {
    assert items[..i + 1][..i] == items[..i];
  }

  /** An extraction that fails within a prefix of its items ends as that prefix does. */
  lemma {:induction false} Fails(fs: Fs, items: seq<Item>, i: nat)
    requires i <= |items| && !PlaceAll(fs, items[..i]).ok
    ensures PlaceAll(fs, items) == PlaceAll(fs, items[..i])
    decreases |items|
  {
    if i < |items| {
      var before := items[..|items| - 1];
      assert before[..i] == items[..i];
      Fails(fs, before, i);
    } else {
      assert items[..i] == items;
    }
  }

  method ExtractEntry(disk: Disk, target: Path, entry: Entry) returns (ok: bool)
    modifies disk
    ensures Outcome(disk.fs, ok) == Place(old(disk.fs), EntryItem(target, entry))
  {
    if entry.body.Unopenable? {
      return false;
    }
    var path := SafeJoin(target, entry.name);
    if path.None? {
      return false;
    }
    ok := PlaceEntry(disk, path.value, KindOf(entry), entry.body);
  }

  /** The part both extractions share: a directory is made; a file's parent is made, then it is written. */
  method PlaceEntry(disk: Disk, path: Path, kind: Kind, body: Body) returns (ok: bool)
    requires !body.Unopenable?
    modifies disk
    ensures Outcome(disk.fs, ok) == Place(old(disk.fs), ItemAt(path, kind, body))
  {
    if kind.Directory? {
      ok := disk.Try(CreateDirAll(disk.fs, path));
      return;
    }
    ok := disk.Try(CreateDirAll(disk.fs, Parent(path)));
    if !ok {
      return;
    }
    if body.Unreadable? || kind.Unwritable? {
      return false;
    }
    ok := disk.Try(WriteFile(disk.fs, path, body.data));
  }

  lemma PackageBelow(archive: Option<seq<Entry>>, target: Path)
    ensures Below(target, PackageItems(archive, target))
  {
    var items := PackageItems(archive, target);
    forall i | 0 <= i < |items| && !items[i].Refuse? ensures Prefix(target, items[i].path) {
      if i > 0 {
        var entry := archive.value[i - 1];
        assert items[i] == EntryItem(target, entry);
        SafeJoinStaysBelow(target, entry.name);
      }
    }
  }

  /** The entry makes a directory: its name ends in a slash of either kind. */
  predicate NamesDirectory(entry: Entry) {
    entry.name != "" && entry.name[|entry.name| - 1] in "/\\"
  }

  /** The entry can be placed: its name is relative without `..`, and it is a directory or a readable, named file. */
  predicate Placeable(entry: Entry) {
    && !("/" <= entry.name) && ".." !in Segments(entry.name) && !entry.body.Unopenable?
    && (NamesDirectory(entry)
        || (entry.body.Content? && Segments(entry.name)[|Segments(entry.name)| - 1] !in {"", "."}))
  }

  /** What is placed for each entry, and what is not. */
  lemma EntryItemIs(target: Path, entry: Entry)
    ensures var item, p := EntryItem(target, entry), Join(target, entry.name);
      && (Sound(item) <==> Placeable(entry))
      && (Placeable(entry) ==> item == if NamesDirectory(entry) then MakeDir(p) else PutFile(p, entry.body.data))
  {
    SafeJoinExactly(target, entry.name);
    assert Segments(entry.name)[|Segments(entry.name)| - 1] in Segments(entry.name);
    hide Join, SafeJoin, Segments;
  }

  /** The bytes of the last file among the entries whose name leads to the path. */
  function LastFile(target: Path, entries: seq<Entry>, q: Path): Option<Bytes> {
    if entries == [] then None
    else
      var n := |entries| - 1;
      if !NamesDirectory(entries[n]) && entries[n].body.Content? && Join(target, entries[n].name) == q
      then Some(entries[n].body.data) else LastFile(target, entries[..n], q)
  }

  /** The entry lies below the path, or is a directory at it. */
  predicate Under(target: Path, entry: Entry, q: Path) {
    var p := Join(target, entry.name);
    Prefix(q, p) && (NamesDirectory(entry) || q != p)
  }

  ghost predicate AllPlaceable(entries: seq<Entry>) {
    forall i :: 0 <= i < |entries| ==> Placeable(entries[i])
  }

  ghost predicate SomeUnder(target: Path, entries: seq<Entry>, q: Path) {
    exists i :: 0 <= i < |entries| && Under(target, entries[i], q)
  }

  lemma {:induction false} ItemsOfEntries(target: Path, entries: seq<Entry>, q: Path)
    requires AllPlaceable(entries)
    ensures LastData(EntryItems(target, entries), q) == LastFile(target, entries, q)
    ensures Covered(EntryItems(target, entries), q) <==> SomeUnder(target, entries, q)
  {
    hide Placeable, EntryItem, Join, NamesDirectory;
    if entries != [] {
      var n := |entries| - 1;
      ItemsOfEntries(target, entries[..n], q);
      assert EntryItems(target, entries)[..n] == EntryItems(target, entries[..n]);
      EntryItemIs(target, entries[n]);
      ItemOfEntry(target, entries[n], q);
      assert Under(target, entries[n], q) ==> SomeUnder(target, entries, q);
      assert forall i :: 0 <= i < n ==> entries[..n][i] == entries[i];
    }
  }

  lemma ItemOfEntry(target: Path, entry: Entry, q: Path)
    requires Placeable(entry)
    ensures var item := EntryItem(target, entry);
      && (Covers(item, q) <==> Under(target, entry, q))
      && (item.PutFile? <==> !NamesDirectory(entry)) && (item.PutFile? ==> entry.body.Content?)
      && (item.PutFile? ==> item.path == Join(target, entry.name) && item.data == entry.body.data)
  {
    EntryItemIs(target, entry);
    hide EntryItem, Join;
  }

  lemma {:induction false} FirstItem(target: Path, rest: seq<Item>, q: Path)
    ensures LastData([MakeDir(target)] + rest, q) == LastData(rest, q)
    ensures Covered([MakeDir(target)] + rest, q) <==> Prefix(q, target) || Covered(rest, q)
  {
    var items := [MakeDir(target)] + rest;
    if rest == [] {
      assert items[..0] == [];
    } else {
      FirstItem(target, rest[..|rest| - 1], q);
      assert items[..|items| - 1] == [MakeDir(target)] + rest[..|rest| - 1];
    }
  }

  /** The entries fit a directory that was not there: no path is needed both as a file and as a directory. */
  ghost predicate FitTogether(fs: Fs, entries: seq<Entry>, target: Path) {
    && !Blocks(fs, target) && AllPlaceable(entries)
    && forall q :: LastFile(target, entries, q).Some? ==> !Prefix(q, target) && !SomeUnder(target, entries, q)
  }

  lemma SoundItems(archive: Option<seq<Entry>>, target: Path)
    ensures (forall i :: 0 <= i < |PackageItems(archive, target)| ==> Sound(PackageItems(archive, target)[i]))
            <==> archive.Some? && AllPlaceable(archive.value)
  {
    hide EntryItem, Placeable, Sound;
    assert Sound(MakeDir(target)) && !Sound(Refuse) by { SoundOnes(target); }
    var items := PackageItems(archive, target);
    if archive.Some? {
      forall i | 0 <= i < |archive.value| ensures Sound(items[i + 1]) <==> Placeable(archive.value[i]) {
        EntryItemIs(target, archive.value[i]);
      }
    } else {
      assert items[1] == Refuse;
    }
  }

  lemma SoundOnes(target: Path)
    ensures Sound(MakeDir(target)) && !Sound(Refuse)
  {
  }

  lemma FitsIsTogether(fs: Fs, archive: Option<seq<Entry>>, target: Path)
    requires WellFormed(fs) && forall q :: q in fs ==> !Prefix(target, q)
    ensures Fits(fs, PackageItems(archive, target)) <==> archive.Some? && FitTogether(fs, archive.value, target)
  {
    hide EntryItem, Placeable, Sound, Covered, LastData, LastFile, SomeUnder, EntryItems, AllPlaceable, Join;
    var items := PackageItems(archive, target);
    SoundItems(archive, target);
    if archive.Some? && AllPlaceable(archive.value) {
      var entries := archive.value;
      forall q
        ensures LastData(items, q) == LastFile(target, entries, q)
        ensures Covered(items, q) <==> Prefix(q, target) || SomeUnder(target, entries, q)
      {
        ItemsOfEntries(target, entries, q);
        FirstItem(target, EntryItems(target, entries), q);
      }
      assert (forall q :: Covered(items, q) ==> !IsFile(fs, q)) <==> !Blocks(fs, target) by {
        CoveredIsFree(fs, entries, target);
      }
      forall q | Named(items, q) ensures !IsDir(fs, q) {
        NamedIsBelow(fs, entries, target, q);
      }
    }
  }

  lemma CoveredIsFree(fs: Fs, entries: seq<Entry>, target: Path)
    requires AllPlaceable(entries) && forall q :: q in fs ==> !Prefix(target, q)
    ensures (forall q :: Prefix(q, target) || SomeUnder(target, entries, q) ==> !IsFile(fs, q)) <==> !Blocks(fs, target)
  {
    hide LastFile, Join;
    forall q | SomeUnder(target, entries, q) ensures Prefix(q, target) || Prefix(target, q) {
      var i :| 0 <= i < |entries| && Under(target, entries[i], q);
      JoinsBelow(target, entries[i]);
    }
  }

  lemma JoinsBelow(target: Path, entry: Entry)
    requires Placeable(entry)
    ensures Prefix(target, Join(target, entry.name))
  {
    SafeJoinExactly(target, entry.name);
    SafeJoinStaysBelow(target, entry.name);
  }

  lemma {:induction false} NamedIsBelow(fs: Fs, entries: seq<Entry>, target: Path, q: Path)
    requires AllPlaceable(entries) && LastFile(target, entries, q).Some?
    ensures Prefix(target, q)
  {
    var n := |entries| - 1;
    if Join(target, entries[n].name) == q {
      JoinsBelow(target, entries[n]);
    } else {
      NamedIsBelow(fs, entries[..n], target, q);
    }
  }

  /**
   Unpacking a package changes nothing outside its directory whether it succeeds or fails. Into a directory that
   was not there it succeeds exactly if the archive opens and its entries can be placed and fit together; then
   each path holds the bytes of the last entry naming it, each needed directory exists, and nothing else does.
   */
  lemma PackageExtracted(fs: Fs, archive: Option<seq<Entry>>, target: Path)
    requires WellFormed(fs) && forall q :: q in fs ==> !Prefix(target, q)
    ensures var out := PlaceAll(fs, PackageItems(archive, target));
      && OnlyBelow(out.fs, fs, target)
      && (out.ok <==> archive.Some? && FitTogether(fs, archive.value, target))
      && (out.ok ==> forall q :: Prefix(target, q) ==>
            Lookup(out.fs, q) == match LastFile(target, archive.value, q)
                                 case Some(data) => Some(File(data))
                                 case None =>
                                   if q == target || SomeUnder(target, archive.value, q) then Some(Dir) else None)
  {
    var items := PackageItems(archive, target);
    PackageBelow(archive, target);
    PlaceAllOnlyBelow(fs, items, target);
    PlaceAllSucceeds(fs, items);
    FitsIsTogether(fs, archive, target);
    if PlaceAll(fs, items).ok {
      hide PlaceAll, LastFile, LastData, Covered, EntryItems, Join, Fits;
      forall q | Prefix(target, q)
        ensures Lookup(PlaceAll(fs, items).fs, q)
             == match LastFile(target, archive.value, q)
                case Some(data) => Some(File(data))
                case None => if q == target || SomeUnder(target, archive.value, q) then Some(Dir) else None
      {
        PlaceAllExact(fs, items, q);
        ItemsOfEntries(target, archive.value, q);
        FirstItem(target, EntryItems(target, archive.value), q);
      }
    }
  }

  // ---- A downloaded zip ----

  function StripPrefixComponents(route: seq<Component>, n: nat): Option<seq<Component>> {
    if |route| <= n then None else Some(route[n..])
  }

  /** The way from the destination to an entry's place, or nothing if the entry is skipped. */
  function Route(name: string, strip: nat): Option<seq<Component>> {
    match EnclosedName(name)
    case None => None
    case Some(route) => if strip == 0 then Some(route) else StripPrefixComponents(route, strip)
  }

  /** An entry that is not skipped; one that cannot be opened ends the extraction wherever it would go. */
  datatype Survivor = Broken | Survivor(route: seq<Component>, kind: Kind, body: Body)

  function FileKind(route: seq<Component>): Kind {
    if route != [] && route[|route| - 1].Normal? then RegularFile else Unwritable
  }

  /** Stripping rebuilds the path from its components, so a final `.` is lost with the first. */
  function Survive(entry: Entry, strip: nat): seq<Survivor> {
    if entry.body.Unopenable? then [Broken]
    else
      match Route(entry.name, strip)
      case None => []
      case Some(route) =>
        var kind := if strip == 0 || entry.IsDirectory() then KindOf(entry) else FileKind(route);
        [Survivor(route, kind, entry.body)]
  }

  function Survivors(entries: seq<Entry>, strip: nat): seq<Survivor> {
    if entries == [] then []
    else Survivors(entries[..|entries| - 1], strip) + Survive(entries[|entries| - 1], strip)
  }

  /** Going to a place makes every directory from which the way climbs back. */
  function Detours(dest: Path, route: seq<Component>): seq<Item> {
    if route == [] then []
    else
      var n := |route| - 1;
      Detours(dest, route[..n]) + if route[n].ParentDir? then [MakeDir(Walk(dest, route[..n]))] else []
  }

  function SurvivorItems(dest: Path, s: Survivor): (r: seq<Item>)
    ensures r != []
  {
    if s.Broken? then [Refuse] else Detours(dest, s.route) + [ItemAt(Walk(dest, s.route), s.kind, s.body)]
  }

  function AllItems(dest: Path, survivors: seq<Survivor>): seq<Item> {
    if survivors == [] then []
    else AllItems(dest, survivors[..|survivors| - 1]) + SurvivorItems(dest, survivors[|survivors| - 1])
  }

  function StripItem(dest: Path, entry: Entry, strip: nat): seq<Item> {
    AllItems(dest, Survive(entry, strip))
  }

  function StripItems(dest: Path, entries: seq<Entry>, strip: nat): seq<Item> {
    if entries == [] then []
    else StripItems(dest, entries[..|entries| - 1], strip) + StripItem(dest, entries[|entries| - 1], strip)
  }

  lemma OneItem(dest: Path, s: Survivor)
    ensures AllItems(dest, [s]) == SurvivorItems(dest, s)
  {
    assert [s][..0] == [];
    assert [] + SurvivorItems(dest, s) == SurvivorItems(dest, s);
  }

  method ExtractZipEntry(disk: Disk, dest: Path, entry: Entry, strip: nat) returns (ok: bool)
    modifies disk
    ensures Outcome(disk.fs, ok) == PlaceAll(old(disk.fs), StripItem(dest, entry, strip))
  {
    if entry.body.Unopenable? {
      OneItem(dest, Broken);
      PlaceFirst(disk.fs, Refuse, []);
      return false;
    }
    var route := Route(entry.name, strip);
    if route.None? {
      return true;
    }
    var kind := if strip == 0 || entry.IsDirectory() then KindOf(entry) else FileKind(route.value);
    OneItem(dest, Survivor(route.value, kind, entry.body));
    ok := PlaceSurvivor(disk, dest, route.value, kind, entry.body);
  }

  method PlaceSurvivor(disk: Disk, dest: Path, route: seq<Component>, kind: Kind, body: Body) returns (ok: bool)
    requires !body.Unopenable?
    modifies disk
    ensures Outcome(disk.fs, ok) == PlaceAll(old(disk.fs), SurvivorItems(dest, Survivor(route, kind, body)))
  {
    ghost var last := ItemAt(Walk(dest, route), kind, body);
    PlaceAllAppend(disk.fs, Detours(dest, route), [last]);
    var detours := PlaceAll(disk.fs, Detours(dest, route));
    disk.fs := detours.fs;
    if !detours.ok {
      return false;
    }
    PlaceFirst(disk.fs, last, []);
    assert [last] + [] == [last];
    ok := PlaceEntry(disk, Walk(dest, route), kind, body);
  }

  method ExtractZipWithStrip(disk: Disk, archive: Option<seq<Entry>>, dest: Path, strip: nat) returns (ok: bool)
    modifies disk
    ensures Outcome(disk.fs, ok)
         == if archive.None? then Outcome(old(disk.fs), false)
             else PlaceAll(old(disk.fs), StripItems(dest, archive.value, strip))
  {
    if archive.None? {
      return false;
    }
    var entries := archive.value;
    for i := 0 to |entries|
      invariant PlaceAll(old(disk.fs), StripItems(dest, entries[..i], strip)) == Outcome(disk.fs, true)
    {
      StripNext(old(disk.fs), dest, entries, strip, i);
      ok := ExtractZipEntry(disk, dest, entries[i], strip);
      if !ok {
        StripFails(old(disk.fs), dest, entries, strip, i + 1);
        return;
      }
    }
    assert entries[..|entries|] == entries;
    ok := true;
  }

  lemma StripNext(fs: Fs, dest: Path, entries: seq<Entry>, strip: nat, i: nat)
    requires i < |entries| && PlaceAll(fs, StripItems(dest, entries[..i], strip)).ok
    ensures PlaceAll(fs, StripItems(dest, entries[..i + 1], strip))
         == PlaceAll(PlaceAll(fs, StripItems(dest, entries[..i], strip)).fs, StripItem(dest, entries[i], strip))
  {
    assert entries[..i + 1][..i] == entries[..i];
    PlaceAllAppend(fs, StripItems(dest, entries[..i], strip), StripItem(dest, entries[i], strip));
  }

  lemma StripFails(fs: Fs, dest: Path, entries: seq<Entry>, strip: nat, i: nat)
    requires i <= |entries| && !PlaceAll(fs, StripItems(dest, entries[..i], strip)).ok
    ensures PlaceAll(fs, StripItems(dest, entries, strip)) == PlaceAll(fs, StripItems(dest, entries[..i], strip))
  {
    StripItemsPrefix(dest, entries, strip, i);
    var reached := StripItems(dest, entries[..i], strip);
    assert StripItems(dest, entries, strip)[..|reached|] == reached;
    Fails(fs, StripItems(dest, entries, strip), |reached|);
  }

  lemma {:induction false} PlaceAllAppend(fs: Fs, a: seq<Item>, b: seq<Item>)
    ensures PlaceAll(fs, a + b) == if PlaceAll(fs, a).ok then PlaceAll(PlaceAll(fs, a).fs, b) else PlaceAll(fs, a)
  {
    if b == [] {
      assert a + b == a;
    } else {
      PlaceAllAppend(fs, a, b[..|b| - 1]);
      assert (a + b)[..|a + b| - 1] == a + b[..|b| - 1];
    }
  }

  lemma {:induction false} StripItemsPrefix(dest: Path, entries: seq<Entry>, strip: nat, i: nat)
    requires i <= |entries|
    ensures StripItems(dest, entries[..i], strip) <= StripItems(dest, entries, strip)
    decreases |entries|
  {
    if i < |entries| {
      var before := entries[..|entries| - 1];
      assert before[..i] == entries[..i];
      StripItemsPrefix(dest, before, strip, i);
    } else {
      assert entries[..i] == entries;
    }
  }

  // ---- Stripping ----

  /** What is left of an entry that already lost some components when it loses `n` more. */
  function DropMore(s: Survivor, n: nat): seq<Survivor> {
    if n == 0 || s.Broken? then [s]
    else
      match StripPrefixComponents(s.route, n)
      case None => []
      case Some(rest) => [Survivor(rest, if s.kind.Directory? then Directory else FileKind(rest), s.body)]
  }

  function DropAll(survivors: seq<Survivor>, n: nat): seq<Survivor> {
    if survivors == [] then []
    else DropAll(survivors[..|survivors| - 1], n) + DropMore(survivors[|survivors| - 1], n)
  }

  lemma RouteAdds(name: string, m: nat, n: nat)
    requires n > 0
    ensures Route(name, m + n)
        == match Route(name, m) case None => None case Some(route) => StripPrefixComponents(route, n)
  {
    hide EnclosedName;
    if EnclosedName(name).Some? && |EnclosedName(name).value| > m + n {
      assert EnclosedName(name).value[m..][n..] == EnclosedName(name).value[m + n..];
    }
  }

  lemma DropOne(s: Survivor, n: nat)
    ensures DropAll([s], n) == DropMore(s, n)
  {
    assert [s][..0] == [];
    assert [] + DropMore(s, n) == DropMore(s, n);
  }

  lemma SurviveAdds(entry: Entry, m: nat, n: nat)
    ensures DropAll(Survive(entry, m), n) == Survive(entry, m + n)
  {
    hide Route, EnclosedName, DropAll, EndsInName;
    if n > 0 {
      RouteAdds(entry.name, m, n);
    }
    var once := Survive(entry, m);
    if once != [] {
      DropOne(once[0], n);
    } else {
      DropNone(n);
    }
  }

  lemma DropNone(n: nat)
    ensures DropAll([], n) == []
  {
  }

  lemma {:induction false} DropAllAppend(a: seq<Survivor>, b: seq<Survivor>, n: nat)
    ensures DropAll(a + b, n) == DropAll(a, n) + DropAll(b, n)
  {
    if b == [] {
      assert a + b == a;
    } else {
      DropAllAppend(a, b[..|b| - 1], n);
      ConcatInit(a, b);
    }
  }

  /** What one entry of a downloaded zip is placed as, once `strip` components of its name are gone, and what before. */
  lemma StripItemIs(dest: Path, entry: Entry, strip: nat)
    ensures StripItem(dest, entry, strip)
         == if entry.body.Unopenable? then [Refuse]
            else match EnclosedName(entry.name)
            case None => []
            case Some(route) =>
              if strip > 0 && |route| <= strip then []
              else
                var rest := route[strip..];
                var named := if strip == 0 then Segments(entry.name)[|Segments(entry.name)| - 1] !in {"", ".", ".."}
                             else rest[|rest| - 1].Normal?;
                var p := Walk(dest, rest);
                Detours(dest, rest) + [if NamesDirectory(entry) then MakeDir(p)
                                       else if named && entry.body.Content? then PutFile(p, entry.body.data)
                                       else PutUnreadable(p)]
  {
    hide Detours, Walk, Segments, EnclosedName, AllItems;
    if entry.body.Unopenable? {
      OneItem(dest, Broken);
    } else if Route(entry.name, strip).None? {
      NoItems(dest);
    } else {
      var route := Route(entry.name, strip).value;
      OneItem(dest, Survivor(route, if strip == 0 || entry.IsDirectory() then KindOf(entry) else FileKind(route),
                             entry.body));
    }
  }

  lemma NoItems(dest: Path)
    ensures AllItems(dest, []) == []
  {
  }

  /** The directories made on the way: exactly those from which the way climbs back. */
  lemma {:induction false} DetoursAre(dest: Path, route: seq<Component>, item: Item)
    ensures item in Detours(dest, route)
            <==> exists i :: 0 <= i < |route| && route[i].ParentDir? && item == MakeDir(Walk(dest, route[..i]))
  {
    hide Walk;
    if route != [] {
      var n := |route| - 1;
      var before := route[..n];
      DetoursAre(dest, before, item);
      assert forall i :: 0 <= i < n ==> before[i] == route[i] && before[..i] == route[..i];
    }
  }

  lemma {:induction false} AllItemsConcat(dest: Path, a: seq<Survivor>, b: seq<Survivor>)
    ensures AllItems(dest, a + b) == AllItems(dest, a) + AllItems(dest, b)
  {
    hide SurvivorItems;
    if b == [] {
      assert a + b == a;
    } else {
      AllItemsConcat(dest, a, b[..|b| - 1]);
      ConcatInit(a, b);
    }
  }

  /** What is placed for a list of entries is what is placed for its survivors, in order. */
  lemma {:induction false} SurvivorsArePlaced(dest: Path, entries: seq<Entry>, strip: nat)
    ensures StripItems(dest, entries, strip) == AllItems(dest, Survivors(entries, strip))
  {
    hide Survive;
    if entries == [] {
      NoItems(dest);
    } else {
      var n := |entries| - 1;
      SurvivorsArePlaced(dest, entries[..n], strip);
      AllItemsConcat(dest, Survivors(entries[..n], strip), Survive(entries[n], strip));
    }
  }

  /** Stripping `m` components and then `n` from what survives is stripping `m + n`. */
  lemma {:induction false} StripAdds(entries: seq<Entry>, m: nat, n: nat)
    ensures DropAll(Survivors(entries, m), n) == Survivors(entries, m + n)
  {
    if entries != [] {
      var last := |entries| - 1;
      StripAdds(entries[..last], m, n);
      DropAllAppend(Survivors(entries[..last], m), Survive(entries[last], m), n);
      SurviveAdds(entries[last], m, n);
    }
  }

  /** The entry that an archive packed without the leading components would hold: its name is printed anew. */
  function DroppedEntry(entry: Entry, n: nat): seq<Entry>
    requires n > 0
  {
    if entry.body.Unopenable? then [entry]
    else
      match Route(entry.name, n)
      case None => []
      case Some(route) =>
        RestIsInner(entry.name, n);
        [Entry(Render(route, if entry.IsDirectory() then "/" else ""), entry.body)]
  }

  function Dropped(entries: seq<Entry>, n: nat): seq<Entry>
    requires n > 0
  {
    if entries == [] then []
    else Dropped(entries[..|entries| - 1], n) + DroppedEntry(entries[|entries| - 1], n)
  }

  predicate EndsInBackslash(name: string) {
    name != [] && name[|name| - 1] == '\\'
  }

  /** A skipped entry, or one whose remaining name neither climbs nor reads as another kind of entry. */
  predicate Transparent(entry: Entry, n: nat) {
    entry.body.Unopenable? ||
    match Route(entry.name, n)
    case None => true
    case Some(route) =>
      && NeverClimbs(route)
      && (!entry.IsDirectory() && route != [] && route[|route| - 1].Normal?
          ==> !EndsInBackslash(route[|route| - 1].name))
  }

  lemma {:induction false} RenderEnds(route: seq<Component>, tail: string)
    requires route != [] && (forall c :: c in route ==> Inner(c))
    ensures var text, last := Render(route, tail), ComponentText(route[|route| - 1]) + tail;
      |last| <= |text| && text[|text| - |last|..] == last
  {
    if |route| > 1 {
      RenderEnds(route[1..], tail);
    }
  }

  lemma {:induction false} LastPrinted(route: seq<Component>)
    requires route != [] && (forall c :: c in route ==> Inner(c))
    ensures |Printed(route)| == |route|
    ensures Printed(route)[|route| - 1] == ComponentText(route[|route| - 1])
  {
    if |route| > 1 {
      LastPrinted(route[1..]);
    } else {
      assert route[1..] == [];
    }
  }

  /** The last character of a printed route without a tail is that of its last component. */
  lemma LastCharacter(route: seq<Component>)
    requires route != [] && (forall c :: c in route ==> Inner(c))
    ensures var text, last := Render(route, ""), ComponentText(route[|route| - 1]);
      text != [] && last != [] && text[|text| - 1] == last[|last| - 1] != '/'
  {
    RenderEnds(route, "");
    var last := route[|route| - 1];
    assert last in route && Inner(last);
    assert ComponentText(last) + "" == ComponentText(last);
  }

  lemma PrintedEndsInName(route: seq<Component>)
    requires route != [] && (forall c :: c in route ==> Inner(c))
    ensures EndsInName(Render(route, "")) <==> route[|route| - 1].Normal?
  {
    hide Render, Segments, Printed;
    SegmentsOfRender(route, "");
    LastPrinted(route);
    var last := route[|route| - 1];
    assert last in route && Inner(last);
  }

  lemma DroppedFile(entry: Entry, route: seq<Component>)
    requires route != [] && (forall c :: c in route ==> Inner(c))
    ensures KindOf(Entry(Render(route, ""), entry.body))
         == if route[|route| - 1].Normal? && EndsInBackslash(route[|route| - 1].name) then Directory
             else FileKind(route)
  {
    hide Render, Segments, EndsInName;
    LastCharacter(route);
    PrintedEndsInName(route);
    var last := route[|route| - 1];
    assert last in route && Inner(last);
    assert last.ParentDir? ==> ComponentText(last)[1] == '.';
    var printed := Entry(Render(route, ""), entry.body);
    assert printed.IsDirectory() <==> last.Normal? && EndsInBackslash(last.name);
  }

  lemma DroppedDirectory(entry: Entry, route: seq<Component>)
    requires route != [] && (forall c :: c in route ==> Inner(c))
    ensures KindOf(Entry(Render(route, "/"), entry.body)) == Directory
  {
    hide Segments, EndsInName, Render;
    RenderEnds(route, "/");
  }

  /** The kind an entry has under its printed name. */
  lemma DroppedKind(entry: Entry, route: seq<Component>)
    requires route != [] && (forall c :: c in route ==> Inner(c))
    ensures KindOf(Entry(Render(route, if entry.IsDirectory() then "/" else ""), entry.body))
         == if entry.IsDirectory() then Directory
            else if route[|route| - 1].Normal? && EndsInBackslash(route[|route| - 1].name) then Directory
            else FileKind(route)
  {
    hide Render, KindOf;
    DroppedFile(entry, route);
    DroppedDirectory(entry, route);
  }

  lemma DroppedSurvives(entry: Entry, n: nat)
    requires n > 0 && !entry.body.Unopenable? && Route(entry.name, n).Some?
    ensures var route := Route(entry.name, n).value;
      && route != [] && (forall c :: c in route ==> Inner(c))
      && Survive(DroppedEntry(entry, n)[0], 0)
         == if NeverClimbs(route) then [Survivor(route, KindOf(DroppedEntry(entry, n)[0]), entry.body)] else []
  {
    var route := Route(entry.name, n).value;
    RestIsInner(entry.name, n);
    var tail := if entry.IsDirectory() then "/" else "";
    ComponentsOfRender(route, tail);
    RenderWithoutNul(route, tail);
  }

  lemma OneEntry(dest: Path, entry: Entry, strip: nat)
    ensures StripItems(dest, [entry], strip) == StripItem(dest, entry, strip)
  {
    assert [entry][..0] == [];
    assert [] + StripItem(dest, entry, strip) == StripItem(dest, entry, strip);
  }

  /** Stripping an entry is the same as packing it without its leading components exactly if it is transparent. */
  lemma EntryCommutes(dest: Path, entry: Entry, n: nat)
    requires n > 0
    ensures StripItem(dest, entry, n) == StripItems(dest, DroppedEntry(entry, n), 0) <==> Transparent(entry, n)
  {
    if entry.body.Unopenable? {
      OneEntry(dest, entry, 0);
    } else if Route(entry.name, n).Some? {
      SurvivorCommutes(dest, entry, n, Route(entry.name, n).value);
    }
  }

  lemma SurvivorCommutes(dest: Path, entry: Entry, n: nat, route: seq<Component>)
    requires n > 0 && !entry.body.Unopenable? && Route(entry.name, n) == Some(route)
    ensures StripItem(dest, entry, n) == StripItems(dest, DroppedEntry(entry, n), 0) <==> Transparent(entry, n)
  {
    hide Route, NeverClimbs, Render, KindOf, StripItems, AllItems, SurvivorItems;
    DroppedSurvives(entry, n);
    DroppedKind(entry, route);
    var dropped := DroppedEntry(entry, n)[0];
    var stripped, other := Survive(entry, n)[0], Survivor(route, KindOf(dropped), entry.body);
    OneEntry(dest, dropped, 0);
    OneItem(dest, stripped);
    OneItem(dest, other);
    NothingLeft(dest);
    DirectoryKind(entry);
    ItemsTellKind(dest, stripped, other);
  }

  lemma DirectoryKind(entry: Entry)
    ensures entry.IsDirectory() ==> KindOf(entry) == Directory
  {
  }

  lemma NothingLeft(dest: Path)
    ensures AllItems(dest, []) == []
  {
  }

  /** Two ways to the same place with the same contents do the same exactly if they make the same kind. */
  lemma ItemsTellKind(dest: Path, a: Survivor, b: Survivor)
    requires a.Survivor? && b.Survivor? && a.route == b.route && a.body == b.body && !a.body.Unopenable?
    requires a.kind == b.kind || b.kind.Directory?
    ensures SurvivorItems(dest, a) == SurvivorItems(dest, b) <==> a.kind == b.kind
  {
    var n := |Detours(dest, a.route)|;
    assert SurvivorItems(dest, a)[n] == ItemAt(Walk(dest, a.route), a.kind, a.body);
    assert SurvivorItems(dest, b)[n] == ItemAt(Walk(dest, b.route), b.kind, b.body);
  }

  lemma {:induction false} StripItemsAppend(dest: Path, a: seq<Entry>, b: seq<Entry>, strip: nat)
    ensures StripItems(dest, a + b, strip) == StripItems(dest, a, strip) + StripItems(dest, b, strip)
  {
    hide StripItem;
    if b == [] {
      assert a + b == a;
    } else {
      StripItemsAppend(dest, a, b[..|b| - 1], strip);
      ConcatInit(a, b);
    }
  }

  /** Extracting with `n` components stripped is extracting the archive packed without them. */
  lemma {:induction false} StripCommutes(dest: Path, entries: seq<Entry>, n: nat)
    requires n > 0 && forall i :: 0 <= i < |entries| ==> Transparent(entries[i], n)
    ensures StripItems(dest, entries, n) == StripItems(dest, Dropped(entries, n), 0)
  {
    hide Transparent, DroppedEntry, StripItem;
    if entries != [] {
      var last := |entries| - 1;
      StripCommutes(dest, entries[..last], n);
      StripItemsAppend(dest, Dropped(entries[..last], n), DroppedEntry(entries[last], n), 0);
      EntryCommutes(dest, entries[last], n);
    }
  }

  // ---- Where a downloaded zip can write ----

  /** No entry that survives has a way that climbs above the destination. */
  predicate NoneClimbs(entries: seq<Entry>, strip: nat) {
    forall i :: 0 <= i < |entries| && Route(entries[i].name, strip).Some?
        ==> NeverClimbs(Route(entries[i].name, strip).value)
  }

  /** A surviving entry goes below the destination all the way exactly when what is left of its name never climbs. */
  lemma SurvivorStaysBelow(dest: Path, entry: Entry, strip: nat)
    requires dest != [] && Route(entry.name, strip).Some?
    ensures StaysBelow(dest, Route(entry.name, strip).value) <==> NeverClimbs(Route(entry.name, strip).value)
  {
    RouteHasNoRoot(entry.name, strip);
    StaysBelowExactly(dest, Route(entry.name, strip).value);
  }

  lemma RouteHasNoRoot(name: string, strip: nat)
    requires Route(name, strip).Some?
    ensures RootDir !in Route(name, strip).value
  {
    NamesHaveNoRoot(name);
  }

  /** With nothing stripped no name climbs: the reader has refused those that would. */
  lemma UnstrippedStays(entries: seq<Entry>)
    ensures NoneClimbs(entries, 0)
  {
  }

  lemma {:induction false} DetoursBelow(dest: Path, route: seq<Component>)
    requires RootDir !in route && NeverClimbs(route)
    ensures Below(dest, Detours(dest, route)) && Prefix(dest, Walk(dest, route))
  {
    WalkDepth(dest, route);
    if route != [] {
      var n := |route| - 1;
      forall i | 0 <= i <= n ensures Depth(route[..n][..i]) >= 0 {
        assert route[..n][..i] == route[..i];
      }
      DetoursBelow(dest, route[..n]);
    }
  }

  lemma {:induction false} StripBelow(dest: Path, entries: seq<Entry>, strip: nat)
    requires NoneClimbs(entries, strip)
    ensures Below(dest, StripItems(dest, entries, strip))
  {
    if entries != [] {
      var n := |entries| - 1;
      StripBelow(dest, entries[..n], strip);
      var survivors := Survive(entries[n], strip);
      if survivors != [] {
        OneItem(dest, survivors[0]);
        if !survivors[0].Broken? {
          RouteHasNoRoot(entries[n].name, strip);
          DetoursBelow(dest, survivors[0].route);
        }
      }
    }
  }

  /** A downloaded zip of which no surviving entry climbs writes only below its destination. */
  lemma StrippedOnlyBelow(fs: Fs, dest: Path, entries: seq<Entry>, strip: nat)
    requires WellFormed(fs) && NoneClimbs(entries, strip)
    ensures OnlyBelow(PlaceAll(fs, StripItems(dest, entries, strip)).fs, fs, dest)
  {
    StripBelow(dest, entries, strip);
    PlaceAllOnlyBelow(fs, StripItems(dest, entries, strip), dest);
  }

  lemma CompactName()
    ensures Components("a/../b") == [Normal("a"), ParentDir, Normal("b")]
  {
    hide Components;
    var route := [Normal("a"), ParentDir, Normal("b")];
    assert route[1..] == [ParentDir, Normal("b")] && route[1..][1..] == [Normal("b")];
    assert Render(route[1..][1..], "") == "b" + "" == "b";
    assert Render(route[1..], "") == ".." + "/" + "b";
    assert Render(route, "") == "a" + "/" + "../b";
    assert ".." + "/" + "b" == "../b" && "a" + "/" + "../b" == "a/../b";
    ComponentsOfRender(route, "");
  }

  lemma ClimbsNext(route: seq<Component>, c: Component)
    ensures Depth(route + [c]) == Depth(route) + if c.Normal? then 1 else if c.ParentDir? then -1 else 0
    ensures NeverClimbs(route + [c]) <==> NeverClimbs(route) && Depth(route + [c]) >= 0
  {
    var longer := route + [c];
    assert longer[..|route|] == route && longer[..|longer|] == longer;
    assert forall i :: 0 <= i <= |route| ==> longer[..i] == route[..i];
  }

  lemma CompactRoute()
    ensures EnclosedName("a/../b").Some? && Route("a/../b", 1) == Some([ParentDir, Normal("b")])
    ensures !NeverClimbs([ParentDir, Normal("b")])
  {
    hide NeverClimbs, Depth, Components;
    CompactName();
    NoClimbYet();
    ClimbsNext([], Normal("a"));
    ClimbsNext([Normal("a")], ParentDir);
    ClimbsNext([Normal("a"), ParentDir], Normal("b"));
    assert [] + [Normal("a")] == [Normal("a")];
    assert [Normal("a")] + [ParentDir] == [Normal("a"), ParentDir];
    assert [Normal("a"), ParentDir] + [Normal("b")] == [Normal("a"), ParentDir, Normal("b")];
    ClimbsNext([], ParentDir);
    ClimbsNext([ParentDir], Normal("b"));
    assert [] + [ParentDir] == [ParentDir] && [ParentDir] + [Normal("b")] == [ParentDir, Normal("b")];
    assert [Normal("a"), ParentDir, Normal("b")][1..] == [ParentDir, Normal("b")];
  }

  lemma NoClimbYet()
    ensures Depth([]) == 0 && NeverClimbs([])
  {
  }

  lemma SiblingNames()
    ensures !Prefix(["pkg"], ["b"]) && !Prefix(["b"], ["pkg"])
  {
    assert |"pkg"| != |"b"|;
    assert ["pkg"][0] != ["b"][0];
  }

  lemma CompactItems(data: Bytes)
    ensures SurvivorItems(["pkg"], Survivor([ParentDir, Normal("b")], RegularFile, Content(data)))
         == [MakeDir(["pkg"]), PutFile(["b"], data)]
  {
    var route := [ParentDir, Normal("b")];
    assert route[..0] == [] && route[..1] == [ParentDir] && route[..1][..0] == [];
    assert Walk(["pkg"], route[..1][..0]) == ["pkg"] && Walk(["pkg"], route[..1]) == []
        && Walk(["pkg"], route) == ["b"];
    assert Detours(["pkg"], route[..1]) == [MakeDir(["pkg"])];
    assert Detours(["pkg"], route) == [MakeDir(["pkg"])] + [];
  }

  lemma CompactPlaced(data: Bytes)
    ensures var fs: Fs := map[[] := Dir]; var out := PlaceAll(fs, [MakeDir(["pkg"]), PutFile(["b"], data)]);
      out.ok && Lookup(out.fs, ["b"]) == Some(File(data)) && !OnlyBelow(out.fs, fs, ["pkg"])
  {
    var fs: Fs := map[[] := Dir];
    PlaceFirst(fs, MakeDir(["pkg"]), [PutFile(["b"], data)]);
    assert [MakeDir(["pkg"])] + [PutFile(["b"], data)] == [MakeDir(["pkg"]), PutFile(["b"], data)];
    assert Parent(["pkg"]) == [] && Parent(["b"]) == [];
    var made := fs[["pkg"] := Dir];
    assert Place(fs, MakeDir(["pkg"])) == Outcome(made, true);
    PlaceFirst(made, PutFile(["b"], data), []);
    assert Place(made, PutFile(["b"], data)) == Outcome(made[["b"] := File(data)], true);
    assert [PutFile(["b"], data)] + [] == [PutFile(["b"], data)];
    SiblingNames();
  }

  /** An enclosed name that climbs once a component is stripped is written beside the destination. */
  lemma StrippedNameLeaves(data: Bytes)
    ensures var entries, fs: Fs := [Entry("a/../b", Content(data))], map[[] := Dir];
      var out := PlaceAll(fs, StripItems(["pkg"], entries, 1));
      && EnclosedName("a/../b").Some? && !NoneClimbs(entries, 1)
      && out.ok && Lookup(out.fs, ["b"]) == Some(File(data)) && !OnlyBelow(out.fs, fs, ["pkg"])
  {
    var entry := Entry("a/../b", Content(data));
    CompactRoute();
    hide EnclosedName, Route, NeverClimbs, OnlyBelow, PlaceAll;
    var left := Survivor([ParentDir, Normal("b")], RegularFile, Content(data));
    assert Survive(entry, 1) == [left];
    OneEntry(["pkg"], entry, 1);
    OneItem(["pkg"], left);
    CompactItems(data);
    CompactPlaced(data);
    assert !NoneClimbs([entry], 1) by { assert Route([entry][0].name, 1).Some?; }
  }
}
