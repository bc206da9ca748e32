/**
 A filesystem as a map from component sequences to files and directories, with the calls the installer makes.
 A call fails only for what the tree itself forbids; a failed call changes nothing.
 */
module Filesystem {
  import opened Wrappers

  type Bytes = seq<bv8>
  type Path = seq<string>

  datatype Node = Dir | File(data: Bytes)

  type Fs = map<Path, Node>

  predicate IsDir(fs: Fs, p: Path) {
    p in fs && fs[p].Dir?
  }

  predicate IsFile(fs: Fs, p: Path) {
    p in fs && fs[p].File?
  }

  function Parent(p: Path): Path {
    if p == [] then [] else p[..|p| - 1]
  }

  predicate Prefix(q: Path, p: Path) {
    q <= p
  }

  predicate InDir(fs: Fs, p: Path) {
    IsDir(fs, Parent(p))
  }

  /** There is a root, and everything lies in a directory. */
  ghost predicate WellFormed(fs: Fs) {
    IsDir(fs, []) && forall p {:trigger InDir(fs, p)} :: p in fs ==> InDir(fs, p)
  }

  ghost predicate SameAt(a: Fs, b: Fs, p: Path) {
    (p in a <==> p in b) && (p in a ==> a[p] == b[p])
  }

  /** What is not a directory blocks the creation of a directory at or below it. */
  ghost predicate Blocks(fs: Fs, p: Path) {
    exists q :: Prefix(q, p) && IsFile(fs, q)
  }

  /** `create_dir_all`: every missing ancestor is made, from the nearest existing one down. */
  function CreateDirAll(fs: Fs, p: Path): Option<Fs> {
    if p in fs then if fs[p].Dir? then Some(fs) else None
    else if p == [] then None
    else
      match CreateDirAll(fs, Parent(p))
      case None => None
      case Some(above) => Some(above[p := Dir])
  }

  /** `fs::write`: the file is created or replaced in a directory that exists. */
  function WriteFile(fs: Fs, p: Path, data: Bytes): Option<Fs> {
    if p == [] || !IsDir(fs, Parent(p)) || IsDir(fs, p) then None else Some(fs[p := File(data)])
  }

  function RemoveFile(fs: Fs, p: Path): Option<Fs> {
    if IsFile(fs, p) then Some(fs - {p}) else None
  }

  function RemoveDirAll(fs: Fs, p: Path): Option<Fs> {
    if p == [] || !IsDir(fs, p) then None else Some(map q | q in fs && !Prefix(p, q) :: fs[q])
  }

  /** `fs::copy`: the target is truncated before reading, so a copy onto itself empties the file. */
  function CopyFile(fs: Fs, src: Path, dst: Path): Option<Fs> {
    if !IsFile(fs, src) then None else WriteFile(fs, dst, if src == dst then [] else fs[src].data)
  }

  predicate HasChildren(fs: Fs, p: Path) {
    exists q :: q in fs && q != p && Prefix(p, q)
  }

  /** `fs::rename`: a file replaces a file, a directory only an empty directory outside itself. */
  function Rename(fs: Fs, src: Path, dst: Path): Option<Fs> {
    if src !in fs || src == [] || dst == [] || !IsDir(fs, Parent(dst)) then None
    else if src == dst then Some(fs)
    else if fs[src].File? then if IsDir(fs, dst) then None else Some((fs - {src})[dst := fs[src]])
    else if Prefix(src, dst) || IsFile(fs, dst) || HasChildren(fs, dst) then None
    else Some(MoveTree(fs, src, dst))
  }

  /** The subtree at `src` hung up at `dst` instead. */
  function MoveTree(fs: Fs, src: Path, dst: Path): Fs {
    var stay := map q | q in fs && !Prefix(src, q) :: fs[q];
    var places := set q | q in fs && Prefix(src, q) :: Rebase(q, src, dst);
    stay + map k | k in places && Rebase(k, dst, src) in fs :: fs[Rebase(k, dst, src)]
  }

  /** The path with the leading `src` exchanged for `dst`. */
  function Rebase(q: Path, src: Path, dst: Path): Path {
    if Prefix(src, q) then dst + q[|src|..] else q
  }

  lemma {:induction false} AncestorIsDir(fs: Fs, q: Path, p: Path)
    requires WellFormed(fs) && p in fs && Prefix(q, p) && q != p
    ensures IsDir(fs, q)
    decreases |p|
  {
    assert InDir(fs, p);
    if q != Parent(p) {
      AncestorIsDir(fs, q, Parent(p));
    }
  }

  /** The tree with the directories at and above a path in place. */
  ghost predicate WithDirs(made: Fs, fs: Fs, p: Path) {
    forall q :: if Prefix(q, p) then IsDir(made, q) else SameAt(made, fs, q)
  }

  lemma PrefixOfParent(q: Path, p: Path)
    requires p != []
    ensures Prefix(q, p) <==> Prefix(q, Parent(p)) || q == p
  {
  }

  /** Creating a directory succeeds exactly when no file is in the way, and adds exactly the missing ones. */
  lemma {:induction false} CreateDirAllExact(fs: Fs, p: Path)
    requires WellFormed(fs)
    ensures CreateDirAll(fs, p).Some? <==> !Blocks(fs, p)
    ensures CreateDirAll(fs, p).Some? ==>
      WellFormed(CreateDirAll(fs, p).value) && WithDirs(CreateDirAll(fs, p).value, fs, p)
    decreases |p|
  {
    if p in fs {
      assert Prefix(p, p);
      forall q | Prefix(q, p) && q != p ensures IsDir(fs, q) {
        AncestorIsDir(fs, q, p);
      }
    } else {
      var up := Parent(p);
      CreateDirAllExact(fs, up);
      forall q ensures Prefix(q, p) <==> Prefix(q, up) || q == p {
        PrefixOfParent(q, p);
      }
      if CreateDirAll(fs, up).Some? {
        assert Prefix(up, up);
        AddDir(CreateDirAll(fs, up).value, fs, p);
      } else {
        var q :| Prefix(q, up) && IsFile(fs, q);
        assert Prefix(q, p) && IsFile(fs, q);
      }
    }
  }

  lemma AddDir(above: Fs, fs: Fs, p: Path)
    requires p != [] && p !in fs && WellFormed(above) && WithDirs(above, fs, Parent(p)) && IsDir(above, Parent(p))
    requires forall q :: Prefix(q, p) <==> Prefix(q, Parent(p)) || q == p
    ensures WellFormed(above[p := Dir]) && WithDirs(above[p := Dir], fs, p)
  {
    var made := above[p := Dir];
    forall q ensures if Prefix(q, p) then IsDir(made, q) else SameAt(made, fs, q) {
      assert if Prefix(q, Parent(p)) then IsDir(above, q) else SameAt(above, fs, q);
    }
    forall q | q in made ensures InDir(made, q) {
      assert q == p || InDir(above, q);
    }
  }

  lemma WriteFileWellFormed(fs: Fs, p: Path, data: Bytes)
    requires WellFormed(fs) && WriteFile(fs, p, data).Some?
    ensures WellFormed(WriteFile(fs, p, data).value)
  {
    var next := WriteFile(fs, p, data).value;
    forall q | q in next ensures InDir(next, q) {
      assert InDir(fs, q);
    }
  }

  function Lookup(fs: Fs, p: Path): Option<Node> {
    if p in fs then Some(fs[p]) else None
  }

  lemma RebaseBack(q: Path, src: Path, dst: Path)
    requires Prefix(dst, q)
    ensures Prefix(src, Rebase(q, dst, src)) && Rebase(Rebase(q, dst, src), src, dst) == q
  {
  }

  lemma MoveTreeAt(fs: Fs, src: Path, dst: Path, q: Path)
    ensures Lookup(MoveTree(fs, src, dst), q)
         == if Prefix(dst, q) && Rebase(q, dst, src) in fs then Lookup(fs, Rebase(q, dst, src))
            else if Prefix(src, q) then None
            else Lookup(fs, q)
  {
    var places := set r | r in fs && Prefix(src, r) :: Rebase(r, src, dst);
    if Prefix(dst, q) {
      RebaseBack(q, src, dst);
      if Rebase(q, dst, src) in fs {
        assert Rebase(Rebase(q, dst, src), src, dst) in places;
      }
    } else {
      assert forall r :: Prefix(src, r) ==> Prefix(dst, Rebase(r, src, dst));
    }
  }

  lemma NothingBelow(fs: Fs, p: Path, q: Path)
    requires WellFormed(fs) && !IsDir(fs, p) && Prefix(p, q) && q != p
    ensures q !in fs
  {
    if q in fs {
      AncestorIsDir(fs, p, q);
      assert false;
    }
  }

  /** A move takes a whole subtree to its new place, empties the old one and touches nothing else. */
  lemma RenameMoves(fs: Fs, src: Path, dst: Path, q: Path)
    requires WellFormed(fs) && Rename(fs, src, dst).Some? && src != dst
    ensures Lookup(Rename(fs, src, dst).value, q)
         == if Prefix(dst, q) then Lookup(fs, Rebase(q, dst, src))
            else if Prefix(src, q) then None
            else Lookup(fs, q)
  {
    assert Rebase(dst, dst, src) == src;
    if fs[src].Dir? {
      MoveTreeAt(fs, src, dst, q);
      assert Prefix(dst, q) && q in fs && q != dst ==> HasChildren(fs, dst);
    } else {
      if Prefix(dst, q) && q != dst {
        NothingBelow(fs, dst, q);
        NothingBelow(fs, src, Rebase(q, dst, src));
      }
      if Prefix(src, q) && q != src {
        NothingBelow(fs, src, q);
      }
    }
  }

  /** The disk, which every step of an installation changes in place. */
  class Disk {
    var fs: Fs

    constructor ()
      ensures fs == map[[] := Dir]
    {
      fs := map[[] := Dir];
    }

    /** Lets a call's result take effect: a failed call leaves the disk alone. */
    method Try(next: Option<Fs>) returns (ok: bool)
      modifies this
      ensures ok == next.Some?
      ensures fs == if next.Some? then next.value else old(fs)
    {
      ok := next.Some?;
      if ok {
        fs := next.value;
      }
    }
  }
}
