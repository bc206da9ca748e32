/** Path text, its components, and joining it to a directory. */
module Paths {
  import opened Wrappers
  import opened Filesystem

  datatype Component = RootDir | CurDir | ParentDir | Normal(name: string)

  /** The text between slashes, never nothing. */
  function Segments(text: string): (r: seq<string>)
    ensures r != []
  {
    if text == [] then [""]
    else
      var rest := Segments(text[1..]);
      if text[0] == '/' then [""] + rest else [[text[0]] + rest[0]] + rest[1..]
  }

  function ComponentsOf(segments: seq<string>, first: bool): seq<Component> {
    if segments == [] then []
    else
      var rest := ComponentsOf(segments[1..], false);
      match segments[0]
      case "" => rest
      case "." => if first then [CurDir] + rest else rest
      case ".." => [ParentDir] + rest
      case name => [Normal(name)] + rest
  }

  predicate IsAbsolute(text: string) {
    text != [] && text[0] == '/'
  }

  /** `Path::components`: empty and inner `.` segments vanish, a leading `.` stays. */
  function Components(text: string): seq<Component> {
    (if IsAbsolute(text) then [RootDir] else []) + ComponentsOf(Segments(text), true)
  }

  /** Where components lead from a directory. */
  function Walk(base: Path, components: seq<Component>): Path {
    if components == [] then base
    else
      var at := Walk(base, components[..|components| - 1]);
      match components[|components| - 1]
      case RootDir => []
      case CurDir => at
      case ParentDir => Parent(at)
      case Normal(name) => at + [name]
  }

  /** `Path::join`. */
  function Join(base: Path, text: string): Path {
    Walk(base, Components(text))
  }

  /** The join of an archive entry's name, which may neither be absolute nor climb. */
  function SafeJoin(base: Path, name: string): Option<Path> {
    if IsAbsolute(name) || ParentDir in Components(name) then None else Some(Join(base, name))
  }

  lemma {:induction false} WalkStaysBelow(base: Path, components: seq<Component>)
    requires RootDir !in components && ParentDir !in components
    ensures Prefix(base, Walk(base, components))
  {
    if components != [] {
      WalkStaysBelow(base, components[..|components| - 1]);
      assert components[|components| - 1] in components;
    }
  }

  lemma {:induction false} NoRootInside(segments: seq<string>, first: bool)
    ensures RootDir !in ComponentsOf(segments, first)
  {
    if segments != [] {
      NoRootInside(segments[1..], false);
    }
  }

  /** Whatever the name, an accepted join lies in the directory it is joined to. */
  lemma SafeJoinStaysBelow(base: Path, name: string)
    requires SafeJoin(base, name).Some?
    ensures Prefix(base, SafeJoin(base, name).value)
  {
    NoRootInside(Segments(name), true);
    WalkStaysBelow(base, Components(name));
  }

  // ---- Archive names that may climb ----

  /** How many names deeper than its start a route ends, climbing counted back. */
  function Depth(route: seq<Component>): int {
    if route == [] then 0
    else
      Depth(route[..|route| - 1])
      + match route[|route| - 1]
        case Normal(_) => 1
        case ParentDir => -1
        case _ => 0
  }

  /** No part of the route has more `..` than names. */
  predicate NeverClimbs(route: seq<Component>) {
    forall i :: 0 <= i <= |route| ==> Depth(route[..i]) >= 0
  }

  /** The components of a name that a zip reader deems enclosed: relative, and never above its start. */
  function EnclosedName(name: string): Option<seq<Component>> {
    if '\0' in name || IsAbsolute(name) || !NeverClimbs(Components(name)) then None else Some(Components(name))
  }

  ghost predicate StaysBelow(base: Path, route: seq<Component>) {
    forall i :: 0 <= i <= |route| ==> Prefix(base, Walk(base, route[..i]))
  }

  lemma {:induction false} WalkDepth(base: Path, route: seq<Component>)
    requires RootDir !in route && NeverClimbs(route)
    ensures Prefix(base, Walk(base, route)) && |Walk(base, route)| == |base| + Depth(route)
  {
    assert route[..|route|] == route;
    if route != [] {
      var n := |route| - 1;
      forall i | 0 <= i <= n ensures Depth(route[..n][..i]) >= 0 {
        assert route[..n][..i] == route[..i];
      }
      WalkDepth(base, route[..n]);
      assert route[n] in route;
    }
  }

  /** The first part of a climbing route that is above its start. */
  function Climb(route: seq<Component>): (j: nat)
    requires !NeverClimbs(route)
    ensures 0 < j <= |route| && Depth(route[..j]) < 0 && NeverClimbs(route[..j - 1])
  {
    var n := |route| - 1;
    assert route[..|route|] == route;
    if NeverClimbs(route[..n]) then
      assert forall i :: 0 <= i <= n ==> route[..n][..i] == route[..i];
      |route|
    else
      var j := Climb(route[..n]);
      assert route[..n][..j] == route[..j] && route[..n][..j - 1] == route[..j - 1];
      j
  }

  /** A route stays below the directory it starts in exactly when it never climbs. */
  lemma StaysBelowExactly(base: Path, route: seq<Component>)
    requires RootDir !in route && base != []
    ensures StaysBelow(base, route) <==> NeverClimbs(route)
  {
    if NeverClimbs(route) {
      forall i | 0 <= i <= |route| ensures Prefix(base, Walk(base, route[..i])) {
        assert forall k :: 0 <= k <= i ==> route[..i][..k] == route[..k];
        WalkDepth(base, route[..i]);
      }
    } else {
      var j := Climb(route);
      assert route[..j][..j - 1] == route[..j - 1];
      WalkDepth(base, route[..j - 1]);
      assert |Walk(base, route[..j])| < |base|;
      assert !Prefix(base, Walk(base, route[..j]));
    }
  }

  // ---- Printing components ----

  /** A name that is a component of its own, printed and parsed unchanged. */
  predicate Proper(name: string) {
    name !in {"", ".", ".."} && '/' !in name && '\0' !in name
  }

  /** A component that can stand anywhere in a relative path. */
  predicate Inner(c: Component) {
    c == ParentDir || (c.Normal? && Proper(c.name))
  }

  function ComponentText(c: Component): string
    requires Inner(c)
  {
    if c.ParentDir? then ".." else c.name
  }

  /** The components between slashes, and then the tail. */
  function Render(route: seq<Component>, tail: string): string
    requires route != [] && forall c :: c in route ==> Inner(c)
  {
    if |route| == 1 then ComponentText(route[0]) + tail else ComponentText(route[0]) + "/" + Render(route[1..], tail)
  }

  lemma {:induction false} SegmentsPlain(text: string)
    requires '/' !in text
    ensures Segments(text) == [text]
  {
    if text != [] {
      SegmentsPlain(text[1..]);
      assert [text[0]] + text[1..] == text;
    }
  }

  lemma {:induction false} SegmentsSplit(a: string, rest: string)
    requires '/' !in a
    ensures Segments(a + "/" + rest) == [a] + Segments(rest)
  {
    var s := a + "/" + rest;
    if a == [] {
      assert s[1..] == rest;
    } else {
      SegmentsSplit(a[1..], rest);
      assert s[1..] == a[1..] + "/" + rest;
      assert [a[0]] + a[1..] == a;
    }
  }

  /** The components of a text that does not begin a path. */
  function Following(text: string): seq<Component> {
    ComponentsOf(Segments(text), false)
  }

  /** The components of a path, by how it begins: a leading `.` is one, and nothing between two slashes is. */
  lemma ComponentsAre(name: string, rest: string)
    requires name !in {"", ".", ".."} && '/' !in name
    ensures Components("") == [] && Components("/" + rest) == [RootDir] + Following(rest)
    ensures Components(".") == [CurDir] && Components("./" + rest) == [CurDir] + Following(rest)
    ensures Components("..") == [ParentDir] && Components("../" + rest) == [ParentDir] + Following(rest)
    ensures Components(name) == [Normal(name)] && Components(name + "/" + rest) == [Normal(name)] + Following(rest)
  {
    EachSegment(name, rest);
    assert "./" + rest == "." + "/" + rest && "../" + rest == ".." + "/" + rest && "/" + rest == "" + "/" + rest;
  }

  /** The same for what follows, where a `.` is nothing. */
  lemma FollowingAre(name: string, rest: string)
    requires name !in {"", ".", ".."} && '/' !in name
    ensures Following("") == [] && Following("/" + rest) == Following(rest)
    ensures Following(".") == [] && Following("./" + rest) == Following(rest)
    ensures Following("..") == [ParentDir] && Following("../" + rest) == [ParentDir] + Following(rest)
    ensures Following(name) == [Normal(name)] && Following(name + "/" + rest) == [Normal(name)] + Following(rest)
  {
    EachSegment(name, rest);
    assert "./" + rest == "." + "/" + rest && "../" + rest == ".." + "/" + rest && "/" + rest == "" + "/" + rest;
  }

  lemma EachSegment(name: string, rest: string)
    requires '/' !in name
    ensures forall s :: s in {"", ".", "..", name} ==>
      && Segments(s) == [s] && [s][1..] == []
      && Segments(s + "/" + rest) == [s] + Segments(rest) && ([s] + Segments(rest))[1..] == Segments(rest)
  {
    forall s | s in {"", ".", "..", name}
      ensures Segments(s) == [s] && Segments(s + "/" + rest) == [s] + Segments(rest)
    {
      SegmentsPlain(s);
      SegmentsSplit(s, rest);
    }
  }

  lemma {:induction false} ParentInSegments(segments: seq<string>, first: bool)
    ensures ParentDir in ComponentsOf(segments, first) <==> ".." in segments
  {
    if segments != [] {
      ParentInSegments(segments[1..], false);
      assert segments == [segments[0]] + segments[1..];
    }
  }

  /** A package's entry is accepted exactly if its name is relative and no segment of it is `..`. */
  lemma SafeJoinExactly(base: Path, name: string)
    ensures SafeJoin(base, name) == if "/" <= name || ".." in Segments(name) then None else Some(Join(base, name))
  {
    ParentInSegments(Segments(name), true);
  }

  /** The segments that a printed route has. */
  function Printed(route: seq<Component>): seq<string>
    requires forall c :: c in route ==> Inner(c)
  {
    if route == [] then [] else [ComponentText(route[0])] + Printed(route[1..])
  }

  lemma {:induction false} SegmentsOfRender(route: seq<Component>, tail: string)
    requires route != [] && (forall c :: c in route ==> Inner(c)) && tail in {"", "/"}
    ensures Segments(Render(route, tail)) == Printed(route) + if tail == "" then [] else [""]
  {
    var a := ComponentText(route[0]);
    if |route| == 1 {
      assert route[1..] == [];
      if tail == "" {
        SegmentsPlain(a);
        assert a + "" == a;
      } else {
        SegmentsSplit(a, "");
        assert a + "/" + "" == a + tail;
      }
    } else {
      SegmentsOfRender(route[1..], tail);
      SegmentsSplit(a, Render(route[1..], tail));
    }
  }

  lemma {:induction false} ComponentsOfPrinted(route: seq<Component>, tail: seq<string>, first: bool)
    requires (forall c :: c in route ==> Inner(c)) && (tail == [] || (tail == [""] && route != []))
    ensures ComponentsOf(Printed(route) + tail, first) == route
  {
    if route == [] {
      assert Printed(route) + tail == [];
    } else {
      var segments := Printed(route) + tail;
      assert segments[0] == ComponentText(route[0]) && segments[1..] == Printed(route[1..]) + tail;
      assert Inner(route[0]) && [route[0]] + route[1..] == route;
      if |route| == 1 {
        assert route[1..] == [];
        assert segments[1..] == tail;
        assert ComponentsOf(tail, false) == [] by { assert tail == [""] ==> ComponentsOf(tail[1..], false) == []; }
      } else {
        ComponentsOfPrinted(route[1..], tail, false);
      }
    }
  }

  /** Printing components and parsing them gives them back, with or without a trailing slash. */
  lemma ComponentsOfRender(route: seq<Component>, tail: string)
    requires route != [] && (forall c :: c in route ==> Inner(c)) && tail in {"", "/"}
    ensures Components(Render(route, tail)) == route && !IsAbsolute(Render(route, tail))
  {
    SegmentsOfRender(route, tail);
    ComponentsOfPrinted(route, if tail == "" then [] else [""], true);
    assert Inner(route[0]);
    assert Printed(route) + [] == Printed(route);
    assert Render(route, tail)[0] == ComponentText(route[0])[0] != '/';
  }

  lemma {:induction false} RenderWithoutNul(route: seq<Component>, tail: string)
    requires route != [] && (forall c :: c in route ==> Inner(c)) && tail in {"", "/"}
    ensures '\0' !in Render(route, tail)
  {
    assert Inner(route[0]);
    if |route| > 1 {
      RenderWithoutNul(route[1..], tail);
    }
  }

  // ---- What parsing gives ----

  lemma {:induction false} SegmentsClean(text: string)
    requires '\0' !in text
    ensures forall s :: s in Segments(text) ==> '/' !in s && '\0' !in s
  {
    if text != [] {
      SegmentsClean(text[1..]);
      var rest := Segments(text[1..]);
      assert rest[0] in rest;
      assert forall s :: s in rest[1..] ==> s in rest;
    }
  }

  lemma {:induction false} ComponentsInner(segments: seq<string>)
    requires forall s :: s in segments ==> '/' !in s && '\0' !in s
    ensures forall c :: c in ComponentsOf(segments, false) ==> Inner(c)
  {
    if segments != [] {
      ComponentsInner(segments[1..]);
      assert segments[0] in segments;
    }
  }

  /** Of a relative name without NUL every component but a leading `.` can stand anywhere. */
  lemma RestIsInner(name: string, n: nat)
    requires '\0' !in name && !IsAbsolute(name) && 0 < n <= |Components(name)|
    ensures forall c :: c in Components(name)[n..] ==> Inner(c)
  {
    var segments := Segments(name);
    SegmentsClean(name);
    ComponentsInner(segments);
    ComponentsInner(segments[1..]);
    assert Components(name) == ComponentsOf(segments, true);
    var all, rest := ComponentsOf(segments, true), ComponentsOf(segments[1..], false);
    assert all == rest || all[1..] == rest;
    assert forall c :: c in all[n..] ==> c in rest;
  }

  lemma {:induction false} NamesHaveNoRoot(name: string)
    requires !IsAbsolute(name)
    ensures RootDir !in Components(name)
  {
    NoRootInside(Segments(name), true);
  }
}
