/** The key-value broker: namespaced keys, and a store shared by all plugins that guards each namespace. */
module KvBroker {
  import opened Wrappers
  import opened Text
  import opened Tables
  import opened Database
  import opened Permissions

  const PREFIX: string := "plugin:"

  function KvNamespacedKey(pluginId: string, key: string): string {
    PREFIX + pluginId + ":" + key
  }

  /** The plugin whose namespace a key lies in: the text between the prefix and the next colon. */
  function TargetPlugin(key: string): Option<string> {
    if !(PREFIX <= key) then None
    else
      var stripped := key[|PREFIX|..];
      match Find(stripped, ':')
      case None => None
      case Some(i) => Some(stripped[..i])
  }

  lemma FindFirst(s: string, c: char, i: nat)
    requires i < |s| && s[i] == c && c !in s[..i]
    ensures Find(s, c) == Some(i)
  {
    var j := Find(s, c).value;
    assert forall k :: 0 <= k < i ==> s[..i][k] == s[k];
    assert forall k :: 0 <= k < j ==> s[..j][k] == s[k];
  }

  /** Parsing a printed key gives back the sanitised plugin id. */
  lemma NamespaceRoundTrip(p: string, key: string)
    ensures TargetPlugin(KvNamespacedKey(Sanitize(p), key)) == Some(Sanitize(p))
  {
    var id := Sanitize(p);
    var stripped := KvNamespacedKey(id, key)[|PREFIX|..];
    assert stripped == id + ":" + key;
    assert ':' !in id;
    assert stripped[..|id|] == id;
    FindFirst(stripped, ':', |id|);
  }

  /** Printing is injective: different sanitised ids or different keys never share a stored key. */
  lemma NamespacedKeyInjective(p: string, key: string, q: string, other: string)
    requires KvNamespacedKey(Sanitize(p), key) == KvNamespacedKey(Sanitize(q), other)
    ensures Sanitize(p) == Sanitize(q) && key == other
  {
    NamespaceRoundTrip(p, key);
    NamespaceRoundTrip(q, other);
    var id := Sanitize(p);
    assert KvNamespacedKey(id, key)[|PREFIX| + |id| + 1..] == key;
    assert KvNamespacedKey(Sanitize(q), other)[|PREFIX| + |Sanitize(q)| + 1..] == other;
  }

  // ---- Requests ----

  datatype State = State(store: map<string, string>, grants: Grants)

  /**
   `caller` is the authenticated plugin of a request that also carries a user, if there is one; `done` says
   whether the storage call succeeds, and `pick` which of several matching grant rows its check reads.
   */
  datatype Request =
    | Set(caller: Option<string>, key: string, value: string, done: bool, pick: nat)
    | Get(caller: Option<string>, key: string, done: bool, pick: nat)
    | Del(caller: Option<string>, key: string, done: bool, pick: nat)
    | Administer(grants: Grants)           // the grant table changes in any way

  function Needs(q: Request): Permission
    requires !q.Administer?
  {
    match q
    case Set(_, _, _, _, _) => KvWrite
    case Get(_, _, _, _) => KvRead
    case Del(_, _, _, _) => KvDelete
  }

  /** The guard of all three: a namespaced key needs its own plugin as caller, and that plugin's grant. */
  predicate Permitted(grants: Grants, q: Request)
    requires !q.Administer?
  {
    && q.caller.Some?
    && match TargetPlugin(q.key)
       case None => true
       case Some(target) => q.caller.value == target && CheckPluginPermission(grants, target, Needs(q), q.pick)
  }

  function Serve(s: State, q: Request): State {
    match q
    case Administer(grants) => s.(grants := grants)
    case Get(_, _, _, _) => s
    case Set(_, key, value, done, _) => if Permitted(s.grants, q) && done then s.(store := s.store[key := value]) else s
    case Del(_, key, done, _) => if Permitted(s.grants, q) && done then s.(store := s.store - {key}) else s
  }

  function Read(s: State, q: Request): Option<string>
    requires q.Get?
  {
    if Permitted(s.grants, q) && q.done && q.key in s.store then Some(s.store[q.key]) else None
  }

  class Broker {
    var store: map<string, string>
    var grants: Grants

    constructor (grants: Grants)
      ensures State(store, this.grants) == State.State(map[], grants)
    {
      store := map[];
      this.grants := grants;
    }

    method CheckNamespace(caller: string, key: string, permission: Permission, pick: nat) returns (ok: bool)
      ensures ok <==> match TargetPlugin(key)
                      case None => true
                      case Some(target) => caller == target && CheckPluginPermission(grants, target, permission, pick)
    {
      var target := TargetPlugin(key);
      if target.Some? {
        if caller != target.value {
          return false;
        }
        ok := CheckPluginPermission(grants, caller, permission, pick);
      } else {
        ok := true;
      }
    }

    method SetKv(caller: Option<string>, key: string, value: string, done: bool, pick: nat) returns (ok: bool)
      modifies this`store
      ensures ok <==> Permitted(grants, Set(caller, key, value, done, pick)) && done
      ensures State.State(store, grants) == Serve(State.State(old(store), grants), Set(caller, key, value, done, pick))
    {
      if caller.None? {
        return false;
      }
      var permitted := CheckNamespace(caller.value, key, KvWrite, pick);
      if !permitted || !done {
        return false;
      }
      store := store[key := value];
      ok := true;
    }

    method GetKv(caller: Option<string>, key: string, done: bool, pick: nat) returns (value: Option<string>)
      ensures value == Read(State.State(store, grants), Get(caller, key, done, pick))
    {
      value := None;
      if caller.Some? {
        var permitted := CheckNamespace(caller.value, key, KvRead, pick);
        if permitted && done && key in store {
          value := Some(store[key]);
        }
      }
    }

    method DeleteKv(caller: Option<string>, key: string, done: bool, pick: nat) returns (deleted: bool)
      modifies this`store
      ensures State.State(store, grants) == Serve(State.State(old(store), grants), Del(caller, key, done, pick))
      ensures deleted <==> key in old(store) && key !in store
    {
      deleted := false;
      if caller.Some? {
        var permitted := CheckNamespace(caller.value, key, KvDelete, pick);
        if permitted && done {
          deleted := key in store;
          store := store - {key};
        }
      }
    }
  }

  // ---- What each request asks for and does ----

  /** The keys of a plugin's namespace. */
  lemma TargetPluginIs(key: string, id: string)
    ensures TargetPlugin(key) == Some(id) <==> ':' !in id && exists rest :: key == "plugin:" + id + ":" + rest
  {
    if TargetPlugin(key) == Some(id) {
      TargetIsPrinted(key, id);
    }
    if ':' !in id && exists rest :: key == "plugin:" + id + ":" + rest {
      var rest :| key == "plugin:" + id + ":" + rest;
      PrintedIsTarget(id, rest);
    }
  }

  lemma TargetIsPrinted(key: string, id: string)
    requires TargetPlugin(key) == Some(id)
    ensures ':' !in id && exists rest :: key == "plugin:" + id + ":" + rest
  {
    CutAtColon(PREFIX, key, id);
  }

  lemma CutAtColon(prefix: string, key: string, id: string)
    requires prefix <= key && Find(key[|prefix|..], ':') == Some(|id|) && key[|prefix|..][..|id|] == id
    ensures ':' !in id && key == prefix + id + ":" + key[|prefix| + |id| + 1..]
  {
    var stripped := key[|prefix|..];
    assert stripped == id + ":" + stripped[|id| + 1..];
    assert stripped[|id| + 1..] == key[|prefix| + |id| + 1..];
    assert key == prefix + stripped;
  }

  lemma PasteAtColon(prefix: string, id: string, rest: string)
    requires ':' !in id
    ensures var key := prefix + id + ":" + rest;
      prefix <= key && Find(key[|prefix|..], ':') == Some(|id|) && key[|prefix|..][..|id|] == id
  {
    var stripped := (prefix + id + ":" + rest)[|prefix|..];
    assert stripped == id + ":" + rest && stripped[..|id|] == id;
    FindFirst(stripped, ':', |id|);
  }

  lemma PrintedIsTarget(id: string, rest: string)
    requires ':' !in id
    ensures TargetPlugin("plugin:" + id + ":" + rest) == Some(id)
  {
    PasteAtColon(PREFIX, id, rest);
  }

  /** The stored key of a plugin's own key. */
  lemma NamespacedKeyIs(p: string, key: string)
    ensures KvNamespacedKey(p, key) == "plugin:" + p + ":" + key
  {
  }

  /**
   What each request asks for and does: an authenticated plugin, and for a key of a namespace that it is that
   plugin's own and a grant to write, read or delete. A set stores the value, a delete removes it, else nothing
   changes, and a get returns what is stored.
   */
  lemma ServeIs(s: State, q: Request)
    requires !q.Administer? ==> UniqueKeys(s.grants)
    ensures match q
            case Administer(grants) => Serve(s, q) == s.(grants := grants)
            case Set(_, key, value, _, _) =>
              Serve(s, q) == if Served(s.grants, q, "kv-write") then s.(store := s.store[key := value]) else s
            case Get(_, key, _, _) =>
              && Serve(s, q) == s
              && Read(s, q) == if Served(s.grants, q, "kv-read") && key in s.store then Some(s.store[key]) else None
            case Del(_, key, _, _) =>
              Serve(s, q) == if Served(s.grants, q, "kv-delete") then s.(store := s.store - {key}) else s
  {
    hide CheckPluginPermission, TargetPlugin, UniqueKeys;
    if !q.Administer? {
      match TargetPlugin(q.key)
      case None =>
      case Some(target) => CheckIsRow(s.grants, target, Needs(q), q.pick);
    }
  }

  ghost predicate Served(grants: Grants, q: Request, permissionKey: string)
    requires !q.Administer?
  {
    && q.caller.Some? && q.done
    && forall id: string ::
         TargetPlugin(q.key) == Some(id) ==> q.caller.value == id && Row(Key(id, [permissionKey]), true) in grants
  }

  // ---- Isolation over runs ----

  function Run(s: State, requests: seq<Request>): State {
    if requests == [] then s
    else Serve(Run(s, requests[..|requests| - 1]), requests[|requests| - 1])
  }

  lemma {:induction false} RunAppend(s: State, a: seq<Request>, b: seq<Request>)
    ensures Run(s, a + b) == Run(Run(s, a), b)
  {
    hide Serve;
    if b == [] {
      assert a + b == a;
    } else {
      RunAppend(s, a, b[..|b| - 1]);
      assert (a + b)[..|a + b| - 1] == a + b[..|b| - 1];
    }
  }

  predicate SameBinding(a: map<string, string>, b: map<string, string>, key: string) {
    (key in a <==> key in b) && (key in a ==> a[key] == b[key])
  }

  /** The request wrote or deleted this very key, its caller being the plugin and holding the grant for it. */
  ghost predicate OwnWrite(s: State, q: Request, key: string, plugin: string) {
    && (q.Set? || q.Del?)
    && q.key == key && q.caller == Some(plugin)
    && Row(Key(plugin, [if q.Set? then "kv-write" else "kv-delete"]), true) in s.grants
  }

  lemma StepIsolated(s: State, q: Request, key: string, plugin: string)
    requires TargetPlugin(key) == Some(plugin)
    ensures SameBinding(Serve(s, q).store, s.store, key) || OwnWrite(s, q, key, plugin)
  {
    if (q.Set? || q.Del?) && q.key == key && Permitted(s.grants, q) {
      var i := One(s.grants, GrantKey(plugin, AsKey(Needs(q))), q.pick).value;
      assert s.grants[i] == Row(GrantKey(plugin, AsKey(Needs(q))), true);
    }
  }

  /**
   Over any run, whoever else calls and however grants change, a binding in a plugin's namespace differs
   only if some request of that very plugin, holding the grant at that time, wrote or deleted it.
   */
  lemma {:induction false} NamespaceIsolated(s: State, requests: seq<Request>, key: string, plugin: string)
    requires TargetPlugin(key) == Some(plugin)
    ensures SameBinding(Run(s, requests).store, s.store, key)
         || exists i :: 0 <= i < |requests| && OwnWrite(Run(s, requests[..i]), requests[i], key, plugin)
  {
    if requests != [] {
      var n := |requests| - 1;
      var before := requests[..n];
      NamespaceIsolated(s, before, key, plugin);
      StepIsolated(Run(s, before), requests[n], key, plugin);
      if !SameBinding(Run(s, before).store, s.store, key) {
        var i :| 0 <= i < n && OwnWrite(Run(s, before[..i]), before[i], key, plugin);
        assert before[..i] == requests[..i] && before[i] == requests[i];
      }
    }
  }

  /**
   Along every run, after a plugin stored or deleted a key of its namespace it reads back the value stored, or
   nothing, until it writes or deletes that key again.
   */
  lemma WriteReadBack(s: State, before: seq<Request>, write: Request, requests: seq<Request>, read: Request,
                      plugin: string)
    requires (write.Set? || write.Del?) && Permitted(Run(s, before).grants, write) && write.done
    requires TargetPlugin(write.key) == Some(plugin)
    requires var done := before + [write];
      && read.Get? && read.key == write.key && read.done && Permitted(Run(s, done + requests).grants, read)
      && forall i :: 0 <= i < |requests| ==> !OwnWrite(Run(s, done + requests[..i]), requests[i], write.key, plugin)
    ensures Read(Run(s, before + [write] + requests), read) == if write.Set? then Some(write.value) else None
  {
    hide Run, Permitted, OwnWrite;
    var done := before + [write];
    var after := Run(s, done);
    RunNext(s, before, write);
    RunAppend(s, done, requests);
    forall i | 0 <= i < |requests| ensures !OwnWrite(Run(after, requests[..i]), requests[i], write.key, plugin) {
      RunAppend(s, done, requests[..i]);
    }
    NamespaceIsolated(after, requests, write.key, plugin);
  }

  lemma RunNext(s: State, requests: seq<Request>, q: Request)
    ensures Run(s, requests + [q]) == Serve(Run(s, requests), q)
  {
    hide Serve;
    assert (requests + [q])[..|requests|] == requests;
  }
}
