/** Template variables in setup steps: a chain of textual replacements, and the substitution it means. */
module Template {
  import opened Sequences

  datatype Placeholder = Version | Os | Arch | PluginId | Name

  function Tag(h: Placeholder): (t: string)
    ensures |t| > 1 && t[0] == '{' && '{' !in t[1..]
  {
    match h
    case Version => "{version}"
    case Os => "{os}"
    case Arch => "{arch}"
    case PluginId => "{plugin_id}"
    case Name => "{name}"
  }

  /** `str::replace`: every occurrence from left to right, without rescanning what was put in. */
  function Replace(s: string, from: string, to: string): string
    requires from != []
  {
    if s == [] then []
    else if from <= s then to + Replace(s[|from|..], from, to)
    else [s[0]] + Replace(s[1..], from, to)
  }

  type Values = Placeholder -> string

  function ArchName(arch: string): string {
    match arch
    case "x86_64" => "amd64"
    case other => other
  }

  /** The values substituted on a host with the given operating system and architecture. */
  function HostValues(os: string, arch: string, version: string, pluginId: string, name: string): Values {
    (h: Placeholder) =>
      match h
      case Version => version
      case Os => os
      case Arch => ArchName(arch)
      case PluginId => pluginId
      case Name => Replace(name, " ", "%20")
  }

  /** A text with its spaces percent-encoded. */
  function WithoutSpaces(text: string): string {
    if text == [] then [] else (if text[0] == ' ' then "%20" else [text[0]]) + WithoutSpaces(text[1..])
  }

  lemma {:induction false} SpacesReplaced(text: string)
    ensures Replace(text, " ", "%20") == WithoutSpaces(text)
  {
    if text != [] {
      SpacesReplaced(text[1..]);
    }
  }

  /** The five placeholders and what each stands for. */
  lemma PlaceholdersAre(os: string, arch: string, version: string, pluginId: string, name: string)
    ensures var values := HostValues(os, arch, version, pluginId, name);
      && Tag(Version) == "{version}" && values(Version) == version
      && Tag(Os) == "{os}" && values(Os) == os
      && Tag(Arch) == "{arch}" && values(Arch) == (if arch == "x86_64" then "amd64" else arch)
      && Tag(PluginId) == "{plugin_id}" && values(PluginId) == pluginId
      && Tag(Name) == "{name}" && values(Name) == WithoutSpaces(name)
  {
    SpacesReplaced(name);
  }

  function ResolveTemplateVars(template: string, values: Values): string {
    var s1 := Replace(template, Tag(Version), values(Version));
    var s2 := Replace(s1, Tag(Os), values(Os));
    var s3 := Replace(s2, Tag(Arch), values(Arch));
    var s4 := Replace(s3, Tag(PluginId), values(PluginId));
    Replace(s4, Tag(Name), values(Name))
  }

  /** Replacements one after another in any order, with repetitions allowed. */
  function ReplaceChain(s: string, order: seq<Placeholder>, values: Values): string
    decreases |order|
  {
    if order == [] then s
    else ReplaceChain(Replace(s, Tag(order[0]), values(order[0])), order[1..], values)
  }

  datatype Token = Literal(text: string) | Hole(which: Placeholder)

  /** The template text that a list of tokens prints to. */
  function Print(tokens: seq<Token>): string {
    if tokens == [] then []
    else (match tokens[0] case Literal(t) => t case Hole(h) => Tag(h)) + Print(tokens[1..])
  }

  /** Simultaneous substitution: each hole becomes its value, each literal stays. */
  function Substitute(tokens: seq<Token>, values: Values): string {
    if tokens == [] then []
    else (match tokens[0] case Literal(t) => t case Hole(h) => values(h)) + Substitute(tokens[1..], values)
  }

  ghost predicate OpensNoBrace(tokens: seq<Token>) {
    forall i :: 0 <= i < |tokens| && tokens[i].Literal? ==> '{' !in tokens[i].text
  }

  /** Every literal passes the tags to be replaced. */
  ghost predicate LiteralsPass(tokens: seq<Token>, order: seq<Placeholder>) {
    forall i, j :: 0 <= i < |tokens| && tokens[i].Literal? && 0 <= j < |order| ==> Passes(tokens[i].text, order[j])
  }

  function Fill(tokens: seq<Token>, h: Placeholder, value: string): (r: seq<Token>)
    ensures |r| == |tokens|
    ensures forall i :: 0 <= i < |tokens| ==> r[i] == if tokens[i] == Hole(h) then Literal(value) else tokens[i]
  {
    seq(|tokens|, i requires 0 <= i < |tokens| => if tokens[i] == Hole(h) then Literal(value) else tokens[i])
  }

  /** No part of a text can begin a tag: nowhere does the tag start in it, nor could it start in what follows. */
  predicate Passes(text: string, h: Placeholder) {
    forall i :: 0 <= i < |text| ==> !(text[i..] <= Tag(h)) && !(Tag(h) <= text[i..])
  }

  lemma BraceFreePasses(text: string, h: Placeholder)
    requires '{' !in text
    ensures Passes(text, h)
  {
    forall i | 0 <= i < |text| ensures !(text[i..] <= Tag(h)) && !(Tag(h) <= text[i..]) {
      assert text[i..][0] == text[i] != '{';
    }
  }

  /** Text that passes a tag is passed over by its replacement, whatever follows. */
  lemma {:induction false} ReplaceSkips(l: string, rest: string, h: Placeholder, to: string)
    requires Passes(l, h)
    ensures Replace(l + rest, Tag(h), to) == l + Replace(rest, Tag(h), to)
  {
    if l == [] {
      assert l + rest == rest;
    } else {
      hide Passes, Tag;
      PassesTail(l, h);
      ReplaceSkips(l[1..], rest, h, to);
      ConcatTail(l, rest);
      NotStartedHere(l, rest, h);
      ReplaceElsewhere(l + rest, Tag(h), to);
      assert [l[0]] + (l[1..] + Replace(rest, Tag(h), to)) == l + Replace(rest, Tag(h), to);
    }
  }

  lemma PassesTail(l: string, h: Placeholder)
    requires l != [] && Passes(l, h)
    ensures Passes(l[1..], h)
  {
    forall i | 0 <= i < |l[1..]| ensures !(l[1..][i..] <= Tag(h)) && !(Tag(h) <= l[1..][i..]) {
      assert l[1..][i..] == l[i + 1..];
    }
  }

  lemma NotStartedHere(l: string, rest: string, h: Placeholder)
    requires l != [] && Passes(l, h)
    ensures !(Tag(h) <= l + rest)
  {
    assert l[0..] == l;
    if Tag(h) <= l + rest {
      PrefixOfConcat(Tag(h), l, rest);
    }
  }

  lemma ReplaceElsewhere(s: string, from: string, to: string)
    requires from != [] && s != [] && !(from <= s)
    ensures Replace(s, from, to) == [s[0]] + Replace(s[1..], from, to)
  {
  }

  lemma TagsDiffer(g: Placeholder, h: Placeholder)
    requires g != h
    ensures Tag(g)[1] != Tag(h)[1]
  {
  }

  lemma ReplaceHead(from: string, rest: string, to: string)
    requires from != []
    ensures Replace(from + rest, from, to) == to + Replace(rest, from, to)
  {
    assert (from + rest)[|from|..] == rest;
  }

  lemma ReplaceOtherTag(tag: string, rest: string, h: Placeholder, to: string)
    requires |tag| > 1 && '{' !in tag[1..] && tag[1] != Tag(h)[1]
    ensures Replace(tag + rest, Tag(h), to) == tag + Replace(rest, Tag(h), to)
  {
    var s, from := tag + rest, Tag(h);
    assert s[1] != from[1];
    BraceFreePasses(tag[1..], h);
    ReplaceSkips(tag[1..], rest, h, to);
    assert s[1..] == tag[1..] + rest;
    assert [s[0]] + (tag[1..] + Replace(rest, from, to)) == tag + Replace(rest, from, to);
  }

  lemma ReplaceTag(g: Placeholder, rest: string, h: Placeholder, to: string)
    ensures Replace(Tag(g) + rest, Tag(h), to) == (if g == h then to else Tag(g)) + Replace(rest, Tag(h), to)
  {
    if g == h {
      ReplaceHead(Tag(h), rest, to);
    } else {
      TagsDiffer(g, h);
      ReplaceOtherTag(Tag(g), rest, h, to);
    }
  }

  lemma {:induction false} ReplaceFills(tokens: seq<Token>, h: Placeholder, value: string)
    requires LiteralsPass(tokens, [h])
    ensures Replace(Print(tokens), Tag(h), value) == Print(Fill(tokens, h, value))
  {
    if tokens != [] {
      assert LiteralsPass(tokens[1..], [h]);
      ReplaceFills(tokens[1..], h, value);
      assert Fill(tokens, h, value)[1..] == Fill(tokens[1..], h, value);
      match tokens[0]
      case Literal(t) =>
        assert Passes(t, [h][0]);
        ReplaceSkips(t, Print(tokens[1..]), h, value);
      case Hole(g) => ReplaceTag(g, Print(tokens[1..]), h, value);
    }
  }

  lemma {:induction false} FillSubstitutes(tokens: seq<Token>, h: Placeholder, values: Values)
    ensures Substitute(Fill(tokens, h, values(h)), values) == Substitute(tokens, values)
  {
    if tokens != [] {
      FillSubstitutes(tokens[1..], h, values);
      assert Fill(tokens, h, values(h))[1..] == Fill(tokens[1..], h, values(h));
    }
  }

  lemma {:induction false} PrintWithoutHoles(tokens: seq<Token>, values: Values)
    requires forall i :: 0 <= i < |tokens| ==> tokens[i].Literal?
    ensures Print(tokens) == Substitute(tokens, values)
  {
    if tokens != [] {
      PrintWithoutHoles(tokens[1..], values);
    }
  }

  /** No value can be mistaken, alone or with what follows it, for a placeholder replaced after it. */
  ghost predicate ValuesPass(order: seq<Placeholder>, values: Values) {
    forall i, j :: 0 <= i < j < |order| ==> Passes(values(order[i]), order[j])
  }

  /**
   Replacing one placeholder after another, in any order that names every placeholder of the template, is
   simultaneous substitution, provided that no literal and no value passes for a placeholder still to come.
   */
  lemma {:induction false} ChainIsSubstitution(tokens: seq<Token>, order: seq<Placeholder>, values: Values)
    requires LiteralsPass(tokens, order) && ValuesPass(order, values)
    requires forall i :: 0 <= i < |tokens| && tokens[i].Hole? ==> tokens[i].which in order
    ensures ReplaceChain(Print(tokens), order, values) == Substitute(tokens, values)
    decreases |order|
  {
    if order == [] {
      PrintWithoutHoles(tokens, values);
    } else {
      var h, later := order[0], order[1..];
      var filled := Fill(tokens, h, values(h));
      assert LiteralsPass(tokens, [h]);
      ReplaceFills(tokens, h, values(h));
      FillSubstitutes(tokens, h, values);
      FilledPasses(tokens, order, values);
      assert forall i :: 0 <= i < |filled| && filled[i].Hole? ==> filled[i].which in later;
      ChainIsSubstitution(filled, later, values);
    }
  }

  lemma FilledPasses(tokens: seq<Token>, order: seq<Placeholder>, values: Values)
    requires order != [] && LiteralsPass(tokens, order) && ValuesPass(order, values)
    ensures LiteralsPass(Fill(tokens, order[0], values(order[0])), order[1..]) && ValuesPass(order[1..], values)
  {
    var filled, later := Fill(tokens, order[0], values(order[0])), order[1..];
    forall i, j | 0 <= i < |filled| && filled[i].Literal? && 0 <= j < |later| ensures Passes(filled[i].text, later[j]) {
      assert later[j] == order[j + 1];
      if tokens[i].Literal? {
        assert Passes(tokens[i].text, order[j + 1]);
      } else {
        assert Passes(values(order[0]), order[j + 1]);
      }
    }
    forall i, j | 0 <= i < j < |later| ensures Passes(values(later[i]), later[j]) {
      assert Passes(values(order[i + 1]), order[j + 1]);
    }
  }

  const ORDER: seq<Placeholder> := [Version, Os, Arch, PluginId, Name]

  lemma OrderIsComplete(h: Placeholder)
    ensures h in ORDER
  {
    match h
    case Version => assert ORDER[0] == Version;
    case Os => assert ORDER[1] == Os;
    case Arch => assert ORDER[2] == Arch;
    case PluginId => assert ORDER[3] == PluginId;
    case Name => assert ORDER[4] == Name;
  }

  /** The source's chain of replacements is simultaneous substitution when each value passes what comes after it. */
  lemma ResolveIsSubstitution(tokens: seq<Token>, values: Values)
    requires OpensNoBrace(tokens) && ValuesPass(ORDER, values)
    ensures ResolveTemplateVars(Print(tokens), values) == Substitute(tokens, values)
  {
    forall i, j | 0 <= i < |tokens| && tokens[i].Literal? && 0 <= j < |ORDER| ensures Passes(tokens[i].text, ORDER[j]) {
      BraceFreePasses(tokens[i].text, ORDER[j]);
    }
    forall i | 0 <= i < |tokens| && tokens[i].Hole? ensures tokens[i].which in ORDER {
      OrderIsComplete(tokens[i].which);
    }
    ChainIsSubstitution(tokens, ORDER, values);
    ResolveIsChain(Print(tokens), values);
  }

  lemma ResolveIsChain(s: string, values: Values)
    ensures ResolveTemplateVars(s, values) == ReplaceChain(s, ORDER, values)
  {
    var order := ORDER;
    var s1 := Replace(s, Tag(Version), values(Version));
    var s2 := Replace(s1, Tag(Os), values(Os));
    var s3 := Replace(s2, Tag(Arch), values(Arch));
    var s4 := Replace(s3, Tag(PluginId), values(PluginId));
    assert order[1..] == [Os, Arch, PluginId, Name];
    assert order[1..][1..] == [Arch, PluginId, Name];
    assert order[1..][1..][1..] == [PluginId, Name];
    assert order[1..][1..][1..][1..] == [Name];
    assert ReplaceChain(s4, [Name], values) == Replace(s4, Tag(Name), values(Name));
    assert ReplaceChain(s3, [PluginId, Name], values) == ReplaceChain(s4, [Name], values);
    assert ReplaceChain(s2, [Arch, PluginId, Name], values) == ReplaceChain(s3, [PluginId, Name], values);
    assert ReplaceChain(s1, [Os, Arch, PluginId, Name], values) == ReplaceChain(s2, [Arch, PluginId, Name], values);
  }

  /** The encoded name opens a brace only if the name does, so the law's hypothesis is one on the manifest. */
  lemma {:induction false} EncodedNameOpensNoBrace(name: string)
    requires '{' !in name
    ensures '{' !in Replace(name, " ", "%20")
  {
    if name != [] {
      EncodedNameOpensNoBrace(name[1..]);
    }
  }

  /** For a manifest whose version, id and name open no brace the source's chain is simultaneous substitution. */
  lemma HostValuesSubstitute(tokens: seq<Token>, os: string, arch: string, version: string, pluginId: string,
                             name: string)
    requires OpensNoBrace(tokens)
    requires '{' !in os && '{' !in arch && '{' !in version && '{' !in pluginId && '{' !in name
    ensures var values := HostValues(os, arch, version, pluginId, name);
      ResolveTemplateVars(Print(tokens), values) == Substitute(tokens, values)
  {
    var values := HostValues(os, arch, version, pluginId, name);
    EncodedNameOpensNoBrace(name);
    forall i, j | 0 <= i < j < |ORDER| ensures Passes(values(ORDER[i]), ORDER[j]) {
      BraceFreePasses(values(ORDER[i]), ORDER[j]);
    }
    ResolveIsSubstitution(tokens, values);
  }

  ghost predicate Occurs(s: string, pattern: string) {
    exists i :: 0 <= i <= |s| && pattern <= s[i..]
  }

  ghost predicate PlaceholderFree(s: string) {
    forall h :: !Occurs(s, Tag(h))
  }

  lemma {:induction false} ReplaceAbsent(s: string, h: Placeholder, to: string)
    requires !Occurs(s, Tag(h))
    ensures Replace(s, Tag(h), to) == s
  {
    if s != [] {
      assert s[0..] == s;
      forall i | 0 <= i <= |s[1..]| ensures !(Tag(h) <= s[1..][i..]) {
        assert s[1..][i..] == s[i + 1..];
      }
      ReplaceAbsent(s[1..], h, to);
    }
  }

  lemma ResolvePlaceholderFree(s: string, values: Values)
    requires PlaceholderFree(s)
    ensures ResolveTemplateVars(s, values) == s
  {
    forall h ensures Replace(s, Tag(h), values(h)) == s {
      ReplaceAbsent(s, h, values(h));
    }
  }

  // ---- Exactly when a value is substituted again ----

  function Braces(s: string): nat {
    if s == [] then 0 else (if s[0] == '{' then 1 else 0) + Braces(s[1..])
  }

  lemma {:induction false} BracesAdd(a: string, b: string)
    ensures Braces(a + b) == Braces(a) + Braces(b)
  {
    if a == [] {
      assert a + b == b;
    } else {
      ConcatTail(a, b);
      BracesAdd(a[1..], b);
    }
  }

  lemma {:induction false} NoBraces(s: string)
    requires '{' !in s
    ensures Braces(s) == 0
  {
    if s != [] {
      NoBraces(s[1..]);
    }
  }

  lemma TagBraces(h: Placeholder)
    ensures Braces(Tag(h)) == 1
  {
    NoBraces(Tag(h)[1..]);
  }

  /** A value that opens no brace takes away a brace for each tag it replaces, and adds none. */
  lemma {:induction false} ReplaceTakesBraces(s: string, h: Placeholder, to: string)
    requires '{' !in to
    ensures Braces(Replace(s, Tag(h), to)) <= Braces(s)
    ensures Occurs(s, Tag(h)) ==> Braces(Replace(s, Tag(h), to)) < Braces(s)
    decreases |s|
  {
    if s == [] {
      assert !Occurs(s, Tag(h)) by { assert s[0..] == []; }
    } else if Tag(h) <= s {
      var rest := s[|Tag(h)|..];
      ReplaceTakesBraces(rest, h, to);
      BracesAdd(to, Replace(rest, Tag(h), to));
      NoBraces(to);
      assert s == Tag(h) + rest;
      BracesAdd(Tag(h), rest);
      TagBraces(h);
    } else {
      ReplaceTakesBraces(s[1..], h, to);
      var tail := Replace(s[1..], Tag(h), to);
      assert ([s[0]] + tail)[1..] == tail;
      if Occurs(s, Tag(h)) {
        OccursLater(s, Tag(h));
      }
    }
  }

  lemma OccursLater(s: string, pattern: string)
    requires s != [] && !(pattern <= s) && Occurs(s, pattern)
    ensures Occurs(s[1..], pattern)
  {
    assert s[0..] == s;
    var i :| 0 <= i <= |s| && pattern <= s[i..];
    assert s[1..][i - 1..] == s[i..];
  }

  lemma {:induction false} ChainTakesBraces(s: string, order: seq<Placeholder>, values: Values)
    requires forall i :: 0 <= i < |order| ==> '{' !in values(order[i])
    ensures Braces(ReplaceChain(s, order, values)) <= Braces(s)
    ensures (exists j :: 0 <= j < |order| && Occurs(s, Tag(order[j]))) ==> ReplaceChain(s, order, values) != s
    decreases |order|
  {
    if order != [] {
      var h, next := order[0], Replace(s, Tag(order[0]), values(order[0]));
      ReplaceTakesBraces(s, h, values(h));
      ChainTakesBraces(next, order[1..], values);
      if !Occurs(s, Tag(h)) {
        ReplaceAbsent(s, h, values(h));
        assert forall j :: 1 <= j < |order| ==> order[1..][j - 1] == order[j];
      }
    }
  }

  /** Until its own turn comes a placeholder, with text behind it that opens no brace, stays as it is. */
  lemma {:induction false} ChainReaches(h: Placeholder, rest: string, order: seq<Placeholder>, k: nat, values: Values)
    requires '{' !in rest && k < |order| && order[k] == h && h !in order[..k]
    ensures ReplaceChain(Tag(h) + rest, order, values) == ReplaceChain(values(h) + rest, order[k + 1..], values)
    decreases |order|
  {
    var g := order[0];
    BraceFreePasses(rest, g);
    ReplaceSkips(rest, "", g, values(g));
    assert rest + "" == rest;
    ReplaceTag(h, rest, g, values(g));
    if k > 0 {
      assert g == order[..k][0] && order[1..][..k - 1] == order[..k][1..];
      ChainReaches(h, rest, order[1..], k - 1, values);
      assert order[1..][k..] == order[k + 1..];
    }
  }

  /** The template that turns a value into another tag: its hole, and what is missing of that tag. */
  function Completing(h: Placeholder, missing: string): seq<Token> {
    [Hole(h), Literal(missing)]
  }

  lemma CompletingText(h: Placeholder, missing: string, values: Values)
    ensures Print(Completing(h, missing)) == Tag(h) + missing
    ensures Substitute(Completing(h, missing), values) == values(h) + missing
  {
    var tokens := Completing(h, missing);
    assert tokens[1..] == [Literal(missing)] && [Literal(missing)][1..] == [];
    assert Print([Literal(missing)]) == missing + Print([]) == missing;
    assert Substitute([Literal(missing)], values) == missing + Substitute([], values) == missing;
  }

  lemma OccursAt(s: string, i: nat, pattern: string)
    requires i <= |s| && pattern <= s[i..]
    ensures Occurs(s, pattern)
  {
  }

  lemma CompletesAt(text: string, i: nat, tag: string) returns (missing: string)
    requires i < |text| && text[i..] <= tag && '{' !in tag[1..]
    ensures '{' !in missing && Occurs(text + missing, tag)
  {
    missing := tag[|text[i..]|..];
    assert missing == tag[1..][|text[i..]| - 1..];
    assert tag == text[i..] + missing;
    assert (text + missing)[i..] == text[i..] + missing;
    OccursAt(text + missing, i, tag);
  }

  /** What must follow a text for the tag to occur where part of it begins the tag. */
  lemma MissingPart(text: string, h: Placeholder) returns (missing: string)
    requires !Passes(text, h)
    ensures '{' !in missing && Occurs(text + missing, Tag(h))
  {
    hide Occurs;
    var i :| 0 <= i < |text| && (text[i..] <= Tag(h) || Tag(h) <= text[i..]);
    if text[i..] <= Tag(h) {
      missing := CompletesAt(text, i, Tag(h));
    } else {
      missing := "";
      assert text + missing == text;
      OccursAt(text, i, Tag(h));
    }
  }

  ghost predicate Substitutes(tokens: seq<Token>, values: Values) {
    ResolveTemplateVars(Print(tokens), values) == Substitute(tokens, values)
  }

  function Turn(h: Placeholder): (k: nat)
    ensures k < |ORDER| && ORDER[k] == h
  {
    match h
    case Version => 0
    case Os => 1
    case Arch => 2
    case PluginId => 3
    case Name => 4
  }

  /** A value that does not pass a later placeholder is substituted again in some template. */
  lemma SubstitutedAgain(h: Placeholder, values: Values, j: nat) returns (tokens: seq<Token>)
    requires (forall g :: g != h ==> '{' !in values(g)) && Turn(h) < j < |ORDER| && !Passes(values(h), ORDER[j])
    ensures OpensNoBrace(tokens) && !Substitutes(tokens, values)
  {
    hide ResolveTemplateVars, Replace, Tag, Passes, Occurs, Braces;
    var missing := MissingPart(values(h), ORDER[j]);
    tokens := Completing(h, missing);
    CompletingText(h, missing, values);
    ResolveIsChain(Tag(h) + missing, values);
    var k := Turn(h);
    assert forall i :: 0 <= i < |ORDER| ==> Turn(ORDER[i]) == i;
    ChainReaches(h, missing, ORDER, k, values);
    var later := ORDER[k + 1..];
    assert forall i :: 0 <= i < |later| ==> later[i] == ORDER[k + 1 + i] != h;
    assert later[j - k - 1] == ORDER[j];
    ChainTakesBraces(values(h) + missing, later, values);
  }

  /**
   With all other values free of opening braces, every template is resolved by simultaneous substitution
   exactly when no part of the value, alone or with what may follow it, is a placeholder replaced later.
   */
  lemma SubstitutesExactly(h: Placeholder, values: Values)
    requires forall g :: g != h ==> '{' !in values(g)
    ensures (forall tokens :: OpensNoBrace(tokens) ==> Substitutes(tokens, values))
            <==> forall j :: Turn(h) < j < |ORDER| ==> Passes(values(h), ORDER[j])
  {
    if j :| Turn(h) < j < |ORDER| && !Passes(values(h), ORDER[j]) {
      var tokens := SubstitutedAgain(h, values, j);
    } else {
      assert forall i :: 0 <= i < |ORDER| ==> Turn(ORDER[i]) == i;
      forall i, j | 0 <= i < j < |ORDER| ensures Passes(values(ORDER[i]), ORDER[j]) {
        if ORDER[i] != h {
          BraceFreePasses(values(ORDER[i]), ORDER[j]);
        }
      }
      forall tokens | OpensNoBrace(tokens) ensures Substitutes(tokens, values) {
        ResolveIsSubstitution(tokens, values);
      }
    }
  }

  /** The name is replaced last, so it may hold anything. */
  lemma NameMayHoldBraces(tokens: seq<Token>, values: Values)
    requires OpensNoBrace(tokens) && forall g :: g != Name ==> '{' !in values(g)
    ensures Substitutes(tokens, values)
  {
    SubstitutesExactly(Name, values);
  }

  /** A version that spells a later placeholder is substituted again. */
  lemma BraceInValueIsResolvedAgain()
    ensures
      var values: Values := (h: Placeholder) => if h == Version then "{os}" else "x";
      exists tokens :: OpensNoBrace(tokens) && !Substitutes(tokens, values)
  {
    var values: Values := (h: Placeholder) => if h == Version then "{os}" else "x";
    assert values(Version)[0..] == Tag(Os);
    assert !Passes(values(Version), ORDER[1]);
    var tokens := SubstitutedAgain(Version, values, 1);
  }
}
