/**
 What unpacking an archive does to a filesystem: entries are placed one after the other, and the first
 that fails ends it, leaving what was placed before.
 */
module Archives {
  import opened Wrappers
  import opened Filesystem

  /** An entry once it is known where it goes; an unreadable file fails after its directory was made. */
  datatype Item =
    | MakeDir(path: Path)
    | PutFile(path: Path, data: Bytes)
    | PutUnreadable(path: Path)
    | Refuse

  datatype Outcome = Outcome(fs: Fs, ok: bool)

  function Place(fs: Fs, item: Item): Outcome {
    match item
    case Refuse => Outcome(fs, false)
    case MakeDir(p) =>
      (match CreateDirAll(fs, p)
       case None => Outcome(fs, false)
       case Some(made) => Outcome(made, true))
    case PutUnreadable(p) =>
      (match CreateDirAll(fs, Parent(p))
       case None => Outcome(fs, false)
       case Some(made) => Outcome(made, false))
    case PutFile(p, data) =>
      (match CreateDirAll(fs, Parent(p))
       case None => Outcome(fs, false)
       case Some(made) =>
         match WriteFile(made, p, data)
         case None => Outcome(made, false)
         case Some(written) => Outcome(written, true))
  }

  function PlaceAll(fs: Fs, items: seq<Item>): Outcome {
    if items == [] then Outcome(fs, true)
    else
      var before := PlaceAll(fs, items[..|items| - 1]);
      if before.ok then Place(before.fs, items[|items| - 1]) else before
  }

  lemma PlaceWellFormed(fs: Fs, item: Item)
    requires WellFormed(fs)
    ensures WellFormed(Place(fs, item).fs)
  {
    if !item.Refuse? {
      var dir := if item.MakeDir? then item.path else Parent(item.path);
      CreateDirAllExact(fs, dir);
      if item.PutFile? && CreateDirAll(fs, dir).Some?
          && WriteFile(CreateDirAll(fs, dir).value, item.path, item.data).Some? {
        WriteFileWellFormed(CreateDirAll(fs, dir).value, item.path, item.data);
      }
    }
  }

  lemma {:induction false} PlaceAllWellFormed(fs: Fs, items: seq<Item>)
    requires WellFormed(fs)
    ensures WellFormed(PlaceAll(fs, items).fs)
  {
    if items != [] {
      PlaceAllWellFormed(fs, items[..|items| - 1]);
      PlaceWellFormed(PlaceAll(fs, items[..|items| - 1]).fs, items[|items| - 1]);
    }
  }

  // ---- Where an archive can write ----

  ghost predicate Below(target: Path, items: seq<Item>) {
    forall i :: 0 <= i < |items| && !items[i].Refuse? ==> Prefix(target, items[i].path)
  }

  /** Outside the target nothing changes, but that missing directories on the way to it may be made. */
  ghost predicate OnlyBelow(next: Fs, fs: Fs, target: Path) {
    forall q :: !Prefix(target, q) ==> SameAt(next, fs, q) || (Prefix(q, target) && q !in fs && IsDir(next, q))
  }

  lemma PlaceOnlyBelow(fs: Fs, item: Item, target: Path)
    requires WellFormed(fs) && (!item.Refuse? ==> Prefix(target, item.path))
    ensures OnlyBelow(Place(fs, item).fs, fs, target)
  {
    if !item.Refuse? {
      var dir := if item.MakeDir? then item.path else Parent(item.path);
      CreateDirAllExact(fs, dir);
      if CreateDirAll(fs, dir).Some? {
        forall q | !Prefix(target, q)
          ensures SameAt(Place(fs, item).fs, fs, q) || (Prefix(q, target) && q !in fs && IsDir(Place(fs, item).fs, q))
        {
          DirOnlyBelow(CreateDirAll(fs, dir).value, fs, dir, item.path, target, q);
        }
      }
    }
  }

  lemma DirOnlyBelow(made: Fs, fs: Fs, dir: Path, p: Path, target: Path, q: Path)
    requires WithDirs(made, fs, dir) && Prefix(dir, p) && Prefix(target, p) && !Prefix(target, q)
    requires CreateDirAll(fs, dir) == Some(made) && WellFormed(fs)
    ensures SameAt(made, fs, q) || (Prefix(q, target) && q !in fs && IsDir(made, q))
    ensures q != p
  {
    assert if Prefix(q, dir) then IsDir(made, q) else SameAt(made, fs, q);
    CreateDirAllExact(fs, dir);
    if Prefix(q, dir) {
      assert Prefix(q, p) && Prefix(q, target);
      assert !IsFile(fs, q);
    }
  }

  /** Succeed or fail, an archive whose entries all go below a directory changes nothing outside it. */
  lemma {:induction false} PlaceAllOnlyBelow(fs: Fs, items: seq<Item>, target: Path)
    requires WellFormed(fs) && Below(target, items)
    ensures OnlyBelow(PlaceAll(fs, items).fs, fs, target)
  {
    if items != [] {
      var n := |items| - 1;
      PlaceAllOnlyBelow(fs, items[..n], target);
      PlaceAllWellFormed(fs, items[..n]);
      var mid := PlaceAll(fs, items[..n]).fs;
      PlaceOnlyBelow(mid, items[n], target);
      var next := PlaceAll(fs, items).fs;
      forall q | !Prefix(target, q) ensures SameAt(next, fs, q) || (Prefix(q, target) && q !in fs && IsDir(next, q)) {
        assert SameAt(mid, fs, q) || (Prefix(q, target) && q !in fs && IsDir(mid, q));
      }
    }
  }

  // ---- What an archive leaves ----

  /** The item needs a directory at the path. */
  predicate Covers(item: Item, q: Path) {
    match item
    case Refuse => false
    case MakeDir(p) => Prefix(q, p)
    case PutFile(p, _) => Prefix(q, p) && q != p
    case PutUnreadable(p) => Prefix(q, p) && q != p
  }

  predicate Covered(items: seq<Item>, q: Path) {
    items != [] && (Covers(items[|items| - 1], q) || Covered(items[..|items| - 1], q))
  }

  /** The bytes of the last item that writes a path. */
  function LastData(items: seq<Item>, q: Path): Option<Bytes> {
    if items == [] then None
    else
      var last := items[|items| - 1];
      if last.PutFile? && last.path == q then Some(last.data) else LastData(items[..|items| - 1], q)
  }

  /** The last writer wins; otherwise a needed directory is there; otherwise nothing has changed. */
  function Expected(fs: Fs, items: seq<Item>, q: Path): Option<Node> {
    match LastData(items, q)
    case Some(data) => Some(File(data))
    case None => if Covered(items, q) then Some(Dir) else Lookup(fs, q)
  }

  lemma PlaceExact(fs: Fs, item: Item, q: Path)
    requires WellFormed(fs) && Place(fs, item).ok
    ensures Lookup(Place(fs, item).fs, q)
         == if item.PutFile? && item.path == q then Some(File(item.data))
            else if Covers(item, q) then Some(Dir)
            else Lookup(fs, q)
    ensures Covers(item, q) ==> !IsFile(fs, q)
  {
    var dir := if item.MakeDir? then item.path else Parent(item.path);
    CreateDirAllExact(fs, dir);
    var made := CreateDirAll(fs, dir).value;
    assert if Prefix(q, dir) then IsDir(made, q) else SameAt(made, fs, q);
    if item.PutFile? {
      assert item.path != [];
      PrefixOfParent(q, item.path);
    }
    if Covers(item, q) {
      assert Prefix(q, dir);
    }
  }

  /** Every path of the tree after a complete extraction. */
  lemma {:induction false} PlaceAllExact(fs: Fs, items: seq<Item>, q: Path)
    requires WellFormed(fs) && PlaceAll(fs, items).ok
    ensures Lookup(PlaceAll(fs, items).fs, q) == Expected(fs, items, q)
  {
    if items != [] {
      var n := |items| - 1;
      PlaceAllExact(fs, items[..n], q);
      PlaceAllWellFormed(fs, items[..n]);
      PlaceExact(PlaceAll(fs, items[..n]).fs, items[n], q);
    }
  }

  // ---- When an archive unpacks ----

  predicate Sound(item: Item) {
    item.MakeDir? || item.PutFile?
  }

  predicate Named(items: seq<Item>, q: Path) {
    LastData(items, q).Some?
  }

  /** Every entry readable, no path both a file and a directory, among the entries or with what was there. */
  ghost predicate Fits(fs: Fs, items: seq<Item>) {
    && (forall i :: 0 <= i < |items| ==> Sound(items[i]))
    && (forall q :: Named(items, q) ==> !Covered(items, q) && !IsDir(fs, q))
    && (forall q :: Covered(items, q) ==> !IsFile(fs, q))
  }

  /** What one more item adds to the condition. */
  ghost predicate FitsNext(fs: Fs, items: seq<Item>, item: Item) {
    && Sound(item)
    && (item.PutFile? ==> !Covered(items, item.path) && !IsDir(fs, item.path))
    && (forall q :: Covers(item, q) ==> !Named(items, q) && !IsFile(fs, q))
  }

  lemma FitsSplits(fs: Fs, items: seq<Item>)
    requires items != []
    ensures Fits(fs, items)
        <==> Fits(fs, items[..|items| - 1]) && FitsNext(fs, items[..|items| - 1], items[|items| - 1])
  {
    var n := |items| - 1;
    var before, last := items[..n], items[n];
    forall q
      ensures Covered(items, q) <==> Covers(last, q) || Covered(before, q)
      ensures Named(items, q) <==> Named(before, q) || (last.PutFile? && last.path == q)
    {
    }
    if Fits(fs, items) {
      assert Sound(items[n]);
      if last.PutFile? {
        assert Named(items, last.path);
      }
      assert forall q :: Covers(last, q) ==> Covered(items, q);
      assert forall q :: Named(before, q) ==> Named(items, q);
      assert forall q :: Covered(before, q) ==> Covered(items, q);
    }
  }

  lemma NextPlaces(fs: Fs, items: seq<Item>, item: Item)
    requires WellFormed(fs) && PlaceAll(fs, items).ok && Fits(fs, items)
    ensures Place(PlaceAll(fs, items).fs, item).ok <==> FitsNext(fs, items, item)
  {
    var mid := PlaceAll(fs, items).fs;
    PlaceAllWellFormed(fs, items);
    forall q ensures IsFile(mid, q) <==> Named(items, q) || IsFile(fs, q) {
      PlaceAllExact(fs, items, q);
    }
    if Sound(item) {
      var dir := if item.MakeDir? then item.path else Parent(item.path);
      CreateDirAllExact(mid, dir);
      if item.PutFile? {
        PlaceAllExact(fs, items, item.path);
        if item.path != [] {
          forall q ensures Covers(item, q) <==> Prefix(q, dir) {
            PrefixOfParent(q, item.path);
          }
          if CreateDirAll(mid, dir).Some? {
            var made := CreateDirAll(mid, dir).value;
            assert Prefix(dir, dir) && IsDir(made, dir);
            assert !Prefix(item.path, dir);
            assert SameAt(made, mid, item.path);
          }
        }
      }
    }
  }

  /** An archive unpacks exactly when it fits: the order of its entries plays no part in whether it does. */
  lemma {:induction false} PlaceAllSucceeds(fs: Fs, items: seq<Item>)
    requires WellFormed(fs)
    ensures PlaceAll(fs, items).ok <==> Fits(fs, items)
  {
    if items != [] {
      var before := items[..|items| - 1];
      PlaceAllSucceeds(fs, before);
      FitsSplits(fs, items);
      if PlaceAll(fs, before).ok {
        NextPlaces(fs, before, items[|items| - 1]);
      }
    }
  }

  lemma {:induction false} CoveredByMember(items: seq<Item>, q: Path)
    ensures Covered(items, q) <==> exists item :: item in items && Covers(item, q)
    ensures Named(items, q) <==> exists item :: item in items && item.PutFile? && item.path == q
  {
    if items != [] {
      var n := |items| - 1;
      CoveredByMember(items[..n], q);
      assert items == items[..n] + [items[n]];
    }
  }

  lemma OrderDoesNotDecide(fs: Fs, items: seq<Item>, other: seq<Item>)
    requires WellFormed(fs) && forall item :: item in items <==> item in other
    ensures PlaceAll(fs, items).ok <==> PlaceAll(fs, other).ok
  {
    PlaceAllSucceeds(fs, items);
    PlaceAllSucceeds(fs, other);
    forall q ensures Covered(items, q) == Covered(other, q) && Named(items, q) == Named(other, q) {
      CoveredByMember(items, q);
      CoveredByMember(other, q);
    }
    assert (forall item :: item in items ==> Sound(item)) <==> forall i :: 0 <= i < |items| ==> Sound(items[i]);
    assert (forall item :: item in other ==> Sound(item)) <==> forall i :: 0 <= i < |other| ==> Sound(other[i]);
  }
}
