/**
 The signed user context: printed into request headers for a plugin, parsed and verified when the
 plugin calls the host back. The keyed hash is a parameter: any function of the signed text will do.
 */
module SignedContext {
  import opened Wrappers
  import opened Text

  type Byte = b: int | 0 <= b < 256
  type Digest = d: seq<Byte> | |d| == 32 witness seq(32, _ => 0)
  type Mac = string -> Digest
  type I16 = n: int | -0x8000 <= n < 0x8000

  const HEX: string := "0123456789abcdef"

  function HexEncode(d: seq<Byte>): (s: string)
    ensures |s| == 2 * |d|
    ensures forall i :: 0 <= i < |s| ==> s[i] in HEX
  {
    if d == [] then [] else [HEX[d[0] / 16], HEX[d[0] % 16]] + HexEncode(d[1..])
  }

  lemma HexFirst(d: seq<Byte>)
    requires d != []
    ensures HexEncode(d) == HexEncode([d[0]]) + HexEncode(d[1..]) && |HexEncode([d[0]])| == 2
  {
    assert [d[0]][1..] == [];
    assert HexEncode([]) == "";
  }

  lemma {:induction false} DigitsAt(d: seq<Byte>, i: nat)
    requires i < |d|
    ensures HexEncode(d)[2 * i..2 * i + 2] == HexEncode([d[i]])
  {
    HexFirst(d);
    hide HexEncode;
    var first, rest := HexEncode([d[0]]), HexEncode(d[1..]);
    if i == 0 {
      assert (first + rest)[..2] == first;
    } else {
      DigitsAt(d[1..], i - 1);
      assert (first + rest)[2 * i..2 * i + 2] == rest[2 * (i - 1)..2 * (i - 1) + 2];
    }
  }

  /** Two lower-case digits a byte, the high one first. */
  lemma HexAt(d: seq<Byte>, i: nat)
    requires i < |d|
    ensures HexEncode(d)[2 * i..2 * i + 2] == ["0123456789abcdef"[d[i] / 16], "0123456789abcdef"[d[i] % 16]]
  {
    DigitsAt(d, i);
    assert [d[i]][1..] == [];
    assert HexEncode([]) == "";
  }

  // ---- Role numbers ----

  function Magnitude(n: int): nat {
    if n < 0 then -n else n
  }

  function PrintI16(n: I16): string {
    (if n < 0 then "-" else "") + Decimal(Magnitude(n))
  }

  /** `parse::<i16>`: an optional sign, then one or more digits, in range. */
  function ParseI16(s: string): Option<I16> {
    var signed := s != [] && (s[0] == '-' || s[0] == '+');
    var digits := if signed then s[1..] else s;
    if digits == [] || !AllDigits(digits) then None
    else
      var v: int := if signed && s[0] == '-' then 0 - DigitsValue(digits) else DigitsValue(digits);
      if -0x8000 <= v < 0x8000 then Some(v) else None
  }

  lemma I16RoundTrip(n: I16)
    ensures ParseI16(PrintI16(n)) == Some(n)
  {
    var s, digits := PrintI16(n), Decimal(Magnitude(n));
    DecimalRoundTrip(Magnitude(n));
    assert '0' <= digits[0] <= '9';
    if n < 0 {
      assert s[0] == '-' && s[1..] == digits;
    } else {
      assert s == digits;
    }
  }

  // ---- Signatures ----

  ghost predicate IsAscii(s: string) {
    forall i :: 0 <= i < |s| ==> s[i] as int < 128
  }

  function Bytes(s: string): (b: seq<Byte>)
    requires IsAscii(s)
    ensures |b| == |s| && forall i :: 0 <= i < |s| ==> b[i] == s[i] as int
  {
    seq(|s|, i requires 0 <= i < |s| => s[i] as int)
  }

  lemma BytesInjective(s: string, t: string)
    requires IsAscii(s) && IsAscii(t) && Bytes(s) == Bytes(t)
    ensures s == t
  {
    assert |s| == |Bytes(s)| == |t|;
    forall i | 0 <= i < |s| ensures s[i] == t[i] {
      assert Bytes(s)[i] == Bytes(t)[i];
    }
  }

  /** Bitwise exclusive or, from the lowest bit up. */
  function Xor(x: nat, y: nat): nat
    decreases x + y
  {
    if x == 0 && y == 0 then 0 else 2 * Xor(x / 2, y / 2) + if x % 2 == y % 2 then 0 else 1
  }

  /** Bitwise or, from the lowest bit up. */
  function Or(x: nat, y: nat): nat
    decreases x + y
  {
    if x == 0 && y == 0 then 0 else 2 * Or(x / 2, y / 2) + if x % 2 == 0 && y % 2 == 0 then 0 else 1
  }

  lemma {:induction false} XorZero(x: nat, y: nat)
    ensures Xor(x, y) == 0 <==> x == y
    decreases x + y
  {
    if x != 0 || y != 0 {
      XorZero(x / 2, y / 2);
    }
  }

  lemma {:induction false} OrZero(x: nat, y: nat)
    ensures Or(x, y) == 0 <==> x == 0 && y == 0
    decreases x + y
  {
    if x != 0 || y != 0 {
      OrZero(x / 2, y / 2);
    }
  }

  /** The differences of two equally long byte strings, or-ed together. */
  function XorFold(acc: nat, a: seq<Byte>, b: seq<Byte>): nat
    requires |a| == |b|
    decreases |a|
  {
    if a == [] then acc else XorFold(Or(acc, Xor(a[0], b[0])), a[1..], b[1..])
  }

  lemma {:induction false} XorFoldZero(acc: nat, a: seq<Byte>, b: seq<Byte>)
    requires |a| == |b|
    ensures XorFold(acc, a, b) == 0 <==> acc == 0 && a == b
    decreases |a|
  {
    if a != [] {
      XorFoldZero(Or(acc, Xor(a[0], b[0])), a[1..], b[1..]);
      OrZero(acc, Xor(a[0], b[0]));
      XorZero(a[0], b[0]);
      assert a == [a[0]] + a[1..] && b == [b[0]] + b[1..];
    }
  }

  function SignedText(userId: string, username: string, role: I16): string {
    userId + ":" + username + ":" + PrintI16(role)
  }

  function SignUserContext(mac: Mac, userId: string, username: string, role: I16): (s: string)
    ensures |s| == 64 && IsAscii(s)
  {
    var s := HexEncode(mac(SignedText(userId, username, role)));
    assert forall c :: c in HEX ==> c as int < 128;
    s
  }

  function VerifyUserContextSignature(mac: Mac, userId: string, username: string, role: I16, signature: seq<Byte>): bool
  {
    var expected := Bytes(SignUserContext(mac, userId, username, role));
    |expected| == |signature| && XorFold(0, expected, signature) == 0
  }

  /** The constant-time comparison accepts exactly the expected signature. */
  lemma VerifyIsEquality(mac: Mac, userId: string, username: string, role: I16, signature: seq<Byte>)
    ensures VerifyUserContextSignature(mac, userId, username, role, signature)
            <==> signature == Bytes(SignUserContext(mac, userId, username, role))
  {
    var expected := Bytes(SignUserContext(mac, userId, username, role));
    if |expected| == |signature| {
      XorFoldZero(0, expected, signature);
    }
  }

  // ---- Headers ----

  /** Header names are case-insensitive; they are written in lower case here. */
  datatype Header = Header(name: string, value: string)

  const USER_ID: string := "x-plugin-user-id"
  const USER_ROLE: string := "x-plugin-user-role"
  const USER_NAME: string := "x-plugin-user-name"
  const USER_SIGNATURE: string := "x-plugin-user-signature"
  const PLUGIN_ID: string := "x-plugin-id"
  const PLUGIN_ID_SIGNATURE: string := "x-plugin-id-signature"

  predicate Visible(s: string) {
    forall i :: 0 <= i < |s| ==> ' ' <= s[i] <= '~' || s[i] == '\t'
  }

  /** `HeaderMap::get`: the first value under a name. */
  function Get(headers: seq<Header>, name: string): Option<string> {
    if headers == [] then None
    else if headers[0].name == name then Some(headers[0].value)
    else Get(headers[1..], name)
  }

  /** What a reader makes of a header value: its trimmed text, if it is visible ASCII and not blank. */
  function HeaderText(v: string): (r: Option<string>)
    ensures r.Some? ==> IsAscii(r.value)
  {
    if !Visible(v) then None
    else
      var t := Trim(v);
      TrimVisible(v);
      if t == [] then None else Some(t)
  }

  function HeaderString(headers: seq<Header>, name: string): (r: Option<string>)
    ensures r.Some? ==> IsAscii(r.value)
  {
    match Get(headers, name)
    case None => None
    case Some(v) => HeaderText(v)
  }

  lemma TrimVisible(v: string)
    requires Visible(v)
    ensures IsAscii(Trim(v))
  {
    var lead, tail := TrimSplits(v);
    forall i | 0 <= i < |Trim(v)| ensures Trim(v)[i] as int < 128 {
      assert Trim(v)[i] == v[|lead| + i];
    }
  }

  datatype User = User(userId: string, role: I16, username: Option<string>)
  {
    function SignedName(): string {
      if username.Some? then username.value else ""
    }
  }

  function ForwardedUserFromHeaders(mac: Mac, headers: seq<Header>): Option<User> {
    match (HeaderString(headers, USER_ID), HeaderString(headers, USER_ROLE), HeaderString(headers, USER_SIGNATURE))
    case (Some(userId), Some(roleText), Some(signature)) =>
      (match ParseI16(roleText)
       case None => None
       case Some(role) =>
         var user := User(userId, role, HeaderString(headers, USER_NAME));
         if VerifyUserContextSignature(mac, userId, user.SignedName(), role, Bytes(signature)) then Some(user)
         else None)
    case _ => None
  }

  function RequireAuthenticatedPluginId(mac: Mac, headers: seq<Header>): Option<string> {
    match (HeaderString(headers, PLUGIN_ID), HeaderString(headers, PLUGIN_ID_SIGNATURE))
    case (Some(pluginId), Some(signature)) =>
      if VerifyUserContextSignature(mac, pluginId, "", 0, Bytes(signature)) then Some(pluginId) else None
    case _ => None
  }

  predicate ShouldForwardRequestHeader(name: string) {
    name !in {"connection", "content-length", "host", "keep-alive", "proxy-authenticate",
              "proxy-authorization", "te", "trailer", "transfer-encoding", "upgrade"}
  }

  function ForwardedHeaders(inbound: seq<Header>): seq<Header> {
    if inbound == [] then []
    else
      var last := inbound[|inbound| - 1];
      ForwardedHeaders(inbound[..|inbound| - 1]) + if ShouldForwardRequestHeader(last.name) then [last] else []
  }

  /** The caller's authorization, passed on under a name of its own. */
  function AuthorizationHeader(inbound: seq<Header>): seq<Header> {
    match Get(inbound, "authorization")
    case Some(v) => if Visible(v) && Trim(v) != [] then [Header("x-plugin-authorization", v)] else []
    case None => []
  }

  function PluginIdHeaders(mac: Mac, pluginId: string): seq<Header> {
    [Header(PLUGIN_ID, pluginId), Header(PLUGIN_ID_SIGNATURE, SignUserContext(mac, pluginId, "", 0))]
  }

  function UserHeaders(mac: Mac, user: User): seq<Header> {
    [Header(USER_ID, user.userId), Header(USER_ROLE, PrintI16(user.role))]
    + (if user.username.Some? then [Header(USER_NAME, user.username.value)] else [])
    + [Header(USER_SIGNATURE, SignUserContext(mac, user.userId, user.SignedName(), user.role))]
  }

  function ProxyHeaders(mac: Mac, inbound: seq<Header>, pluginId: string, user: Option<User>): seq<Header> {
    ForwardedHeaders(inbound) + AuthorizationHeader(inbound) + PluginIdHeaders(mac, pluginId)
    + if user.Some? then UserHeaders(mac, user.value) else []
  }

  /** The headers of the inbound request that are passed on, in order. */
  method ForwardHeaders(inbound: seq<Header>) returns (headers: seq<Header>)
    ensures headers == ForwardedHeaders(inbound)
  {
    headers := [];
    for i := 0 to |inbound|
      invariant headers == ForwardedHeaders(inbound[..i])
    {
      assert inbound[..i + 1][..i] == inbound[..i];
      if ShouldForwardRequestHeader(inbound[i].name) {
        headers := headers + [inbound[i]];
      }
    }
    assert inbound[..|inbound|] == inbound;
  }

  /** The request builder: headers are appended one by one. */
  method BuildProxyHeaders(mac: Mac, inbound: seq<Header>, pluginId: string, user: Option<User>)
    returns (headers: seq<Header>)
    ensures headers == ProxyHeaders(mac, inbound, pluginId, user)
  {
    hide Trim, UserHeaders, SignUserContext;
    headers := ForwardHeaders(inbound);
    var authorization := Get(inbound, "authorization");
    if authorization.Some? && Visible(authorization.value) && Trim(authorization.value) != [] {
      headers := headers + [Header("x-plugin-authorization", authorization.value)];
    }
    headers := headers + [Header(PLUGIN_ID, pluginId)];
    headers := headers + [Header(PLUGIN_ID_SIGNATURE, SignUserContext(mac, pluginId, "", 0))];
    if user.Some? {
      headers := AddUserHeaders(mac, headers, user.value);
    }
  }

  method AddUserHeaders(mac: Mac, before: seq<Header>, u: User) returns (headers: seq<Header>)
    ensures headers == before + UserHeaders(mac, u)
  {
    headers := before + [Header(USER_ID, u.userId)];
    headers := headers + [Header(USER_ROLE, PrintI16(u.role))];
    if u.username.Some? {
      headers := headers + [Header(USER_NAME, u.username.value)];
    }
    headers := headers + [Header(USER_SIGNATURE, SignUserContext(mac, u.userId, u.SignedName(), u.role))];
  }

  // ---- What a plugin receives ----

  /** All values under a name, in order. */
  function ValuesOf(headers: seq<Header>, name: string): seq<string> {
    if headers == [] then []
    else
      var last := headers[|headers| - 1];
      ValuesOf(headers[..|headers| - 1], name) + if last.name == name then [last.value] else []
  }

  lemma {:induction false} ValuesOfConcat(a: seq<Header>, b: seq<Header>, name: string)
    ensures ValuesOf(a + b, name) == ValuesOf(a, name) + ValuesOf(b, name)
  {
    if b == [] {
      assert a + b == a;
    } else {
      var n := |b| - 1;
      ValuesOfConcat(a, b[..n], name);
      assert (a + b)[..|a + b| - 1] == a + b[..n] && (a + b)[|a + b| - 1] == b[n];
      var last := if b[n].name == name then [b[n].value] else [];
      assert ValuesOf(b, name) == ValuesOf(b[..n], name) + last;
      assert ValuesOf(a + b, name) == ValuesOf(a + b[..n], name) + last;
    }
  }

  /** The headers of a single hop, and those that describe the body and the target, stay behind. */
  lemma {:induction false} ForwardedValues(inbound: seq<Header>, name: string)
    ensures ValuesOf(ForwardedHeaders(inbound), name)
         == if name in {"connection", "content-length", "host", "keep-alive", "proxy-authenticate",
                        "proxy-authorization", "te", "trailer", "transfer-encoding", "upgrade"}
            then [] else ValuesOf(inbound, name)
  {
    if inbound != [] {
      var n := |inbound| - 1;
      ForwardedValues(inbound[..n], name);
      ValuesOfConcat(ForwardedHeaders(inbound[..n]),
                     if ShouldForwardRequestHeader(inbound[n].name) then [inbound[n]] else [], name);
      assert [inbound[n]][..0] == [];
    }
  }

  lemma {:induction false} OneValue(h: Header, name: string)
    ensures ValuesOf([h], name) == if h.name == name then [h.value] else []
  {
    assert [h][..0] == [];
  }

  lemma UserValues(mac: Mac, u: User, name: string)
    ensures ValuesOf(UserHeaders(mac, u), name)
         == if name == "x-plugin-user-id" then [u.userId]
            else if name == "x-plugin-user-role" then [PrintI16(u.role)]
            else if name == "x-plugin-user-name" then (if u.username.Some? then [u.username.value] else [])
            else if name == "x-plugin-user-signature" then
              [HexEncode(mac(u.userId + ":" + (if u.username.Some? then u.username.value else "") + ":"
                             + PrintI16(u.role)))]
            else []
  {
    hide ValuesOf, PrintI16, HexEncode;
    var id, role := Header(USER_ID, u.userId), Header(USER_ROLE, PrintI16(u.role));
    var printed := if u.username.Some? then [Header(USER_NAME, u.username.value)] else [];
    var signature := Header(USER_SIGNATURE, SignUserContext(mac, u.userId, u.SignedName(), u.role));
    assert UserHeaders(mac, u) == [id] + [role] + printed + [signature];
    ValuesOfConcat([id] + [role] + printed, [signature], name);
    ValuesOfConcat([id] + [role], printed, name);
    ValuesOfConcat([id], [role], name);
    OneValue(id, name);
    OneValue(role, name);
    OneValue(signature, name);
    if u.username.Some? {
      OneValue(printed[0], name);
    } else {
      NoValue(name);
    }
  }

  lemma NoValue(name: string)
    ensures ValuesOf([], name) == []
  {
  }

  lemma AuthorizationValues(inbound: seq<Header>, name: string)
    ensures ValuesOf(AuthorizationHeader(inbound), name)
         == if name == "x-plugin-authorization" && Get(inbound, "authorization").Some?
               && HeaderText(Get(inbound, "authorization").value).Some?
            then [Get(inbound, "authorization").value] else []
  {
    hide ValuesOf, Get;
    NoValue(name);
    match Get(inbound, "authorization")
    case Some(v) => OneValue(Header("x-plugin-authorization", v), name);
    case None =>
  }

  /** What the host adds under each name. */
  function Added(mac: Mac, inbound: seq<Header>, pluginId: string, user: Option<User>, name: string): seq<string> {
    if name == "x-plugin-authorization" then ValuesOf(AuthorizationHeader(inbound), name)
    else if name == "x-plugin-id" then [pluginId]
    else if name == "x-plugin-id-signature" then [HexEncode(mac(pluginId + ":" + "" + ":" + "0"))]
    else if user.Some? then ValuesOf(UserHeaders(mac, user.value), name)
    else []
  }

  lemma AddedValues(mac: Mac, inbound: seq<Header>, pluginId: string, user: Option<User>, name: string)
    ensures var rest := if user.Some? then UserHeaders(mac, user.value) else [];
      ValuesOf(AuthorizationHeader(inbound), name)
      + (ValuesOf(PluginIdHeaders(mac, pluginId), name) + ValuesOf(rest, name))
      == Added(mac, inbound, pluginId, user, name)
  {
    PluginIdValues(mac, pluginId, name);
    hide ValuesOf, HexEncode, AuthorizationHeader, UserHeaders, PluginIdHeaders, PrintI16, HeaderText;
    AuthorizationValues(inbound, name);
    if user.Some? {
      UserValues(mac, user.value, name);
    } else {
      NoValue(name);
    }
  }

  lemma PluginIdValues(mac: Mac, pluginId: string, name: string)
    ensures ValuesOf(PluginIdHeaders(mac, pluginId), name)
         == if name == "x-plugin-id" then [pluginId]
            else if name == "x-plugin-id-signature" then [HexEncode(mac(pluginId + ":" + "" + ":" + "0"))]
            else []
  {
    hide ValuesOf, HexEncode;
    var id, signature := Header(PLUGIN_ID, pluginId),
        Header(PLUGIN_ID_SIGNATURE, SignUserContext(mac, pluginId, "", 0));
    assert PrintI16(0) == "0" by { assert "" + Decimal(0) == Decimal(0); }
    assert PluginIdHeaders(mac, pluginId) == [id] + [signature];
    ValuesOfConcat([id], [signature], name);
    OneValue(id, name);
    OneValue(signature, name);
  }

  /**
   What a plugin receives under each name: the inbound values but for the ten names that are not forwarded, then
   the readable authorization under a name of its own, the signed plugin id, and the signed user if there is one.
   */
  lemma ReceivedValues(mac: Mac, inbound: seq<Header>, pluginId: string, user: Option<User>, name: string)
    ensures ValuesOf(ProxyHeaders(mac, inbound, pluginId, user), name)
         == (if name in {"connection", "content-length", "host", "keep-alive", "proxy-authenticate",
                         "proxy-authorization", "te", "trailer", "transfer-encoding", "upgrade"}
             then [] else ValuesOf(inbound, name))
            + Added(mac, inbound, pluginId, user, name)
  {
    var forwarded, authorization := ForwardedHeaders(inbound), AuthorizationHeader(inbound);
    var own, rest := PluginIdHeaders(mac, pluginId), if user.Some? then UserHeaders(mac, user.value) else [];
    assert ProxyHeaders(mac, inbound, pluginId, user) == forwarded + authorization + own + rest;
    hide *;
    FourParts(forwarded, authorization, own, rest, name);
    ForwardedValues(inbound, name);
    AddedValues(mac, inbound, pluginId, user, name);
  }

  lemma FourParts(a: seq<Header>, b: seq<Header>, c: seq<Header>, d: seq<Header>, name: string)
    ensures ValuesOf(a + b + c + d, name)
         == ValuesOf(a, name) + (ValuesOf(b, name) + (ValuesOf(c, name) + ValuesOf(d, name)))
  {
    hide ValuesOf;
    ValuesOfConcat(a + b + c, d, name);
    ValuesOfConcat(a + b, c, name);
    ValuesOfConcat(a, b, name);
  }

  lemma {:induction false} GetSkips(before: seq<Header>, after: seq<Header>, name: string)
    requires forall h :: h in before ==> h.name != name
    ensures Get(before + after, name) == Get(after, name)
  {
    if before == [] {
      assert before + after == after;
    } else {
      GetSkips(before[1..], after, name);
      assert before[0] in before && (before + after)[1..] == before[1..] + after;
    }
  }

  /** A value that survives a header: visible ASCII, no surrounding whitespace, not empty. */
  ghost predicate HeaderSafe(s: string) {
    s != [] && Visible(s) && Trimmed(s)
  }

  /** The header-safe values are those a reader finds as they were written. */
  lemma SafeIsReadBack(s: string)
    ensures HeaderText(s) == Some(s) <==> HeaderSafe(s)
  {
    if Trimmed(s) {
      TrimOfTrimmed(s);
    } else {
      var lead, tail := TrimSplits(s);
    }
  }

  lemma DecimalSafe(n: nat)
    ensures Visible(Decimal(n)) && Trimmed(Decimal(n))
  {
    var s := Decimal(n);
    assert '0' <= s[0] <= '9' && '0' <= s[|s| - 1] <= '9';
  }

  lemma PrintedRoleSafe(role: I16)
    ensures HeaderSafe(PrintI16(role))
  {
    DecimalSafe(Magnitude(role));
    assert "" + Decimal(Magnitude(role)) == Decimal(Magnitude(role));
  }

  lemma HexSafe(d: seq<Byte>)
    requires d != []
    ensures HeaderSafe(HexEncode(d))
  {
    var s := HexEncode(d);
    forall i | 0 <= i < |s| ensures ' ' <= s[i] <= '~' && !IsWhitespace(s[i]) {
      HexCharSafe(s[i]);
    }
  }

  lemma HexCharSafe(c: char)
    requires c in HEX
    ensures ' ' < c <= '~' && !IsWhitespace(c)
  {
  }

  lemma PrintedValuesSafe(mac: Mac, userId: string, username: string, role: I16)
    ensures HeaderSafe(PrintI16(role))
    ensures HeaderSafe(SignUserContext(mac, userId, username, role))
  {
    PrintedRoleSafe(role);
    HexSafe(mac(SignedText(userId, username, role)));
  }

  lemma {:induction false} GetAppend(a: seq<Header>, b: seq<Header>, name: string)
    ensures Get(a + b, name) == if Get(a, name).Some? then Get(a, name) else Get(b, name)
  {
    if a == [] {
      assert a + b == b;
    } else {
      GetAppend(a[1..], b, name);
      assert (a + b)[0] == a[0] && (a + b)[1..] == a[1..] + b;
    }
  }

  /** Forwarding keeps the first value of every header that is forwarded at all. */
  lemma {:induction false} GetForwarded(inbound: seq<Header>, name: string)
    requires ShouldForwardRequestHeader(name)
    ensures Get(ForwardedHeaders(inbound), name) == Get(inbound, name)
  {
    if inbound != [] {
      var n := |inbound| - 1;
      GetForwarded(inbound[..n], name);
      assert inbound == inbound[..n] + [inbound[n]];
      GetAppend(inbound[..n], [inbound[n]], name);
      GetAppend(ForwardedHeaders(inbound[..n]), [inbound[n]], name);
      assert Get([inbound[n]], name) == if inbound[n].name == name then Some(inbound[n].value) else None;
      assert ForwardedHeaders(inbound[..n]) + [] == ForwardedHeaders(inbound[..n]);
    }
  }

  lemma PrintedUserHeaders(mac: Mac, user: User)
    ensures var headers := UserHeaders(mac, user);
            && Get(headers, USER_ID) == Some(user.userId)
            && Get(headers, USER_ROLE) == Some(PrintI16(user.role))
            && Get(headers, USER_NAME) == user.username
            && Get(headers, USER_SIGNATURE) == Some(SignUserContext(mac, user.userId, user.SignedName(), user.role))
  {
    var first := [Header(USER_ID, user.userId), Header(USER_ROLE, PrintI16(user.role))];
    var name := if user.username.Some? then [Header(USER_NAME, user.username.value)] else [];
    var last := [Header(USER_SIGNATURE, SignUserContext(mac, user.userId, user.SignedName(), user.role))];
    var u := first + name + last;
    assert u[1..][0] == first[1];
    GetSkips(first + name, last, USER_SIGNATURE);
    GetSkips(first, name + last, USER_NAME);
    assert u == first + (name + last);
    assert Get(last, USER_NAME) == Get(last[1..], USER_NAME) == None;
  }

  lemma NotAuthorization(inbound: seq<Header>, name: string)
    requires name != "x-plugin-authorization"
    ensures Get(AuthorizationHeader(inbound), name) == None
  {
    var headers := AuthorizationHeader(inbound);
    if headers != [] {
      assert headers[1..] == [];
    }
  }

  /** Headers of the same name in the forwarded request come first, so they are what is read. */
  lemma ContextHeaderFound(mac: Mac, inbound: seq<Header>, pluginId: string, user: Option<User>, name: string)
    requires name in {USER_ID, USER_ROLE, USER_NAME, USER_SIGNATURE, PLUGIN_ID, PLUGIN_ID_SIGNATURE}
    ensures Get(ProxyHeaders(mac, inbound, pluginId, user), name)
         == if Get(inbound, name).Some? then Get(inbound, name)
            else Get(PluginIdHeaders(mac, pluginId) + if user.Some? then UserHeaders(mac, user.value) else [], name)
  {
    var own := PluginIdHeaders(mac, pluginId);
    var rest := if user.Some? then UserHeaders(mac, user.value) else [];
    var before := ForwardedHeaders(inbound) + AuthorizationHeader(inbound);
    assert ProxyHeaders(mac, inbound, pluginId, user) == before + (own + rest);
    hide PluginIdHeaders, UserHeaders, AuthorizationHeader, ForwardedHeaders, Get;
    GetAppend(before, own + rest, name);
    GetAppend(ForwardedHeaders(inbound), AuthorizationHeader(inbound), name);
    GetForwarded(inbound, name);
    NotAuthorization(inbound, name);
  }

  lemma UserHeaderFound(mac: Mac, inbound: seq<Header>, pluginId: string, user: User, name: string)
    requires name in {USER_ID, USER_ROLE, USER_NAME, USER_SIGNATURE}
    ensures Get(ProxyHeaders(mac, inbound, pluginId, Some(user)), name)
         == if Get(inbound, name).Some? then Get(inbound, name) else Get(UserHeaders(mac, user), name)
  {
    ContextHeaderFound(mac, inbound, pluginId, Some(user), name);
    GetSkips(PluginIdHeaders(mac, pluginId), UserHeaders(mac, user), name);
  }

  lemma PluginIdHeaderFound(mac: Mac, inbound: seq<Header>, pluginId: string, user: Option<User>, name: string)
    requires name in {PLUGIN_ID, PLUGIN_ID_SIGNATURE}
    ensures Get(ProxyHeaders(mac, inbound, pluginId, user), name)
         == if Get(inbound, name).Some? then Get(inbound, name)
            else Some(if name == PLUGIN_ID then pluginId else SignUserContext(mac, pluginId, "", 0))
  {
    var own := PluginIdHeaders(mac, pluginId);
    var rest := if user.Some? then UserHeaders(mac, user.value) else [];
    ContextHeaderFound(mac, inbound, pluginId, user, name);
    GetAppend(own, rest, name);
    assert own[1..] == [own[1]];
  }

  /**
   A header of the inbound request, if there is one, reads as the expected text; if there is none, the text
   printed has to survive in a header, which blank ends and letters outside ASCII do not.
   */
  ghost predicate Agrees(inbound: seq<Header>, name: string, expected: Option<string>) {
    match Get(inbound, name)
    case None => expected.Some? ==> HeaderSafe(expected.value)
    case Some(v) => HeaderText(v) == expected
  }

  /** The same for the role, which is read as a number. */
  predicate AgreesOnRole(inbound: seq<Header>, role: I16) {
    match Get(inbound, USER_ROLE)
    case None => true
    case Some(v) => HeaderText(v).Some? && ParseI16(HeaderText(v).value) == Some(role)
  }

  /**
   Printing a user into headers, then parsing and verifying, gives the same user back exactly when id and name
   survive in a header and the forwarded request carries no context header that says otherwise.
   */
  lemma UserRoundTrip(mac: Mac, inbound: seq<Header>, pluginId: string, user: User)
    ensures ForwardedUserFromHeaders(mac, ProxyHeaders(mac, inbound, pluginId, Some(user))) == Some(user)
            <==> && Agrees(inbound, USER_ID, Some(user.userId))
                 && AgreesOnRole(inbound, user.role)
                 && Agrees(inbound, USER_NAME, user.username)
                 && Agrees(inbound, USER_SIGNATURE,
                     Some(SignUserContext(mac, user.userId, user.SignedName(), user.role)))
  {
    var headers := ProxyHeaders(mac, inbound, pluginId, Some(user));
    var signature := SignUserContext(mac, user.userId, user.SignedName(), user.role);
    UserHeaderFound(mac, inbound, pluginId, user, USER_ID);
    UserHeaderFound(mac, inbound, pluginId, user, USER_ROLE);
    UserHeaderFound(mac, inbound, pluginId, user, USER_NAME);
    UserHeaderFound(mac, inbound, pluginId, user, USER_SIGNATURE);
    PrintedUserHeaders(mac, user);
    PrintedValuesSafe(mac, user.userId, user.SignedName(), user.role);
    SafeIsReadBack(user.userId);
    SafeIsReadBack(PrintI16(user.role));
    SafeIsReadBack(signature);
    if user.username.Some? {
      SafeIsReadBack(user.username.value);
    }
    I16RoundTrip(user.role);
    hide HeaderSafe, HeaderText, Get, SignUserContext, ParseI16, ProxyHeaders;
    ForwardedUserIsSigned(mac, headers, user);
  }

  /** The signed plugin id round-trips in the same way. */
  lemma PluginIdRoundTrip(mac: Mac, inbound: seq<Header>, pluginId: string, user: Option<User>)
    ensures RequireAuthenticatedPluginId(mac, ProxyHeaders(mac, inbound, pluginId, user)) == Some(pluginId)
            <==> && Agrees(inbound, PLUGIN_ID, Some(pluginId))
                 && Agrees(inbound, PLUGIN_ID_SIGNATURE, Some(SignUserContext(mac, pluginId, "", 0)))
  {
    var headers := ProxyHeaders(mac, inbound, pluginId, user);
    var expected := SignUserContext(mac, pluginId, "", 0);
    PluginIdHeaderFound(mac, inbound, pluginId, user, PLUGIN_ID);
    PluginIdHeaderFound(mac, inbound, pluginId, user, PLUGIN_ID_SIGNATURE);
    PrintedValuesSafe(mac, pluginId, "", 0);
    SafeIsReadBack(pluginId);
    SafeIsReadBack(expected);
    match HeaderString(headers, PLUGIN_ID_SIGNATURE)
    case None =>
    case Some(signature) =>
      VerifyIsEquality(mac, pluginId, "", 0, Bytes(signature));
      if Bytes(signature) == Bytes(expected) {
        BytesInjective(signature, expected);
      }
  }

  /** The user returned is exactly the one the headers name, with the signature of that user's signed text. */
  lemma ForwardedUserIsSigned(mac: Mac, headers: seq<Header>, user: User)
    ensures ForwardedUserFromHeaders(mac, headers) == Some(user)
            <==> && HeaderString(headers, USER_ID) == Some(user.userId)
                 && HeaderString(headers, USER_NAME) == user.username
                 && (exists text :: HeaderString(headers, USER_ROLE) == Some(text) && ParseI16(text) == Some(user.role))
                 && HeaderString(headers, USER_SIGNATURE)
                    == Some(SignUserContext(mac, user.userId, user.SignedName(), user.role))
  {
    var expected := SignUserContext(mac, user.userId, user.SignedName(), user.role);
    match HeaderString(headers, USER_SIGNATURE)
    case None =>
    case Some(signature) =>
      VerifyIsEquality(mac, user.userId, user.SignedName(), user.role, Bytes(signature));
      if Bytes(signature) == Bytes(expected) {
        BytesInjective(signature, expected);
      }
  }

  // ---- When two users are signed alike ----

  lemma RoleHasNoColon(role: I16)
    ensures ':' !in PrintI16(role) && PrintI16(role) != []
  {
    var digits := Decimal(Magnitude(role));
    assert forall c :: c in digits ==> '0' <= c <= '9';
  }

  /** Two texts cut at their last colon. */
  lemma LastColon(a: string, x: string, b: string, y: string)
    requires ':' !in x && ':' !in y && a + ":" + x == b + ":" + y
    ensures a == b && x == y
  {
    var s, t := a + ":" + x, b + ":" + y;
    assert forall k :: |a| < k < |s| ==> s[k] == x[k - |a| - 1] != ':';
    assert forall k :: |b| < k < |t| ==> t[k] == y[k - |b| - 1] != ':';
    assert s[|a|] == ':' && t[|b|] == ':';
    assert a == s[..|a|] && b == t[..|b|] && x == s[|a| + 1..] && y == t[|b| + 1..];
  }

  /** The second id is the first with a part of its name joined on. */
  ghost predicate Shifted(id: string, name: string, otherId: string, otherName: string) {
    exists part :: ShiftedBy(part, id, name, otherId, otherName)
  }

  predicate ShiftedBy(part: string, id: string, name: string, otherId: string, otherName: string) {
    otherId == id + ":" + part && name == part + ":" + otherName
  }

  lemma ShiftedTexts(part: string, id: string, name: string, otherId: string, otherName: string)
    requires ShiftedBy(part, id, name, otherId, otherName)
    ensures id + ":" + name == otherId + ":" + otherName
  {
    assert id + ":" + (part + ":" + otherName) == (id + ":" + part) + ":" + otherName;
  }

  lemma ShiftedHasColon(part: string, id: string, name: string, otherId: string, otherName: string)
    requires ShiftedBy(part, id, name, otherId, otherName)
    ensures ':' in otherId
  {
    assert otherId[|id|] == ':';
  }

  lemma LongerId(id: string, name: string, otherId: string, otherName: string)
    requires id + ":" + name == otherId + ":" + otherName && |id| < |otherId|
    ensures Shifted(id, name, otherId, otherName)
  {
    var s := id + ":" + name;
    var part := otherId[|id| + 1..];
    assert otherId == s[..|otherId|];
    assert otherId[..|id|] == s[..|id|] == id && otherId[|id|] == s[|id|] == ':';
    assert otherId == id + ":" + part;
    assert name == s[|id| + 1..] == (otherId + ":" + otherName)[|id| + 1..];
    assert (otherId + ":" + otherName)[|id| + 1..] == part + ":" + otherName;
    assert ShiftedBy(part, id, name, otherId, otherName);
  }

  /**
   Two users are signed alike exactly when their roles are equal and so are their ids and names, or the one
   id is the other with the beginning of the other's name joined on by a colon.
   */
  lemma SignedAlike(id: string, name: string, role: I16, otherId: string, otherName: string, otherRole: I16)
    ensures SignedText(id, name, role) == SignedText(otherId, otherName, otherRole)
            <==> && role == otherRole
                 && ((id == otherId && name == otherName)
                     || Shifted(id, name, otherId, otherName) || Shifted(otherId, otherName, id, name))
  {
    RoleHasNoColon(role);
    RoleHasNoColon(otherRole);
    var a, b := id + ":" + name, otherId + ":" + otherName;
    if a + ":" + PrintI16(role) == b + ":" + PrintI16(otherRole) {
      LastColon(a, PrintI16(role), b, PrintI16(otherRole));
      I16RoundTrip(role);
      I16RoundTrip(otherRole);
      if |id| < |otherId| {
        LongerId(id, name, otherId, otherName);
      } else if |otherId| < |id| {
        LongerId(otherId, otherName, id, name);
      } else {
        assert id == a[..|id|] && otherId == b[..|id|];
        assert name == a[|id| + 1..] && otherName == b[|id| + 1..];
      }
    }
    if part :| ShiftedBy(part, id, name, otherId, otherName) {
      ShiftedTexts(part, id, name, otherId, otherName);
    }
    if part :| ShiftedBy(part, otherId, otherName, id, name) {
      ShiftedTexts(part, otherId, otherName, id, name);
    }
  }

  /** Ids without a colon are told apart by what is signed, with their names and roles. */
  lemma PlainIdsSignedApart(a: User, b: User)
    requires ':' !in a.userId && ':' !in b.userId
    ensures SignedText(a.userId, a.SignedName(), a.role) == SignedText(b.userId, b.SignedName(), b.role)
            <==> a.userId == b.userId && a.SignedName() == b.SignedName() && a.role == b.role
  {
    SignedAlike(a.userId, a.SignedName(), a.role, b.userId, b.SignedName(), b.role);
    if part :| ShiftedBy(part, a.userId, a.SignedName(), b.userId, b.SignedName()) {
      ShiftedHasColon(part, a.userId, a.SignedName(), b.userId, b.SignedName());
    }
    if part :| ShiftedBy(part, b.userId, b.SignedName(), a.userId, a.SignedName()) {
      ShiftedHasColon(part, b.userId, b.SignedName(), a.userId, a.SignedName());
    }
  }

  /** With a colon in an id they need not be. */
  lemma ColonSignedAlike()
    ensures SignedText("a", "b:c", 0) == SignedText("a:b", "c", 0)
  {
    assert "a" + ":" + "b:c" == "a:b" + ":" + "c";
  }

  /** The headers a plugin's id is signed with are those of a user of that id, with role zero and no name. */
  lemma PluginIdIsSignedAsUser(mac: Mac, pluginId: string)
    requires HeaderSafe(pluginId)
    ensures var signature := SignUserContext(mac, pluginId, "", 0);
      ForwardedUserFromHeaders(mac,
          [Header(USER_ID, pluginId), Header(USER_ROLE, "0"), Header(USER_SIGNATURE, signature)])
      == Some(User(pluginId, 0, None))
  {
    var user := User(pluginId, 0, None);
    var headers := UserHeaders(mac, user);
    assert PrintI16(0) == "0" by { assert "" + Decimal(0) == Decimal(0); }
    PrintedUserHeaders(mac, user);
    PrintedValuesSafe(mac, pluginId, "", 0);
    TrimOfTrimmed(pluginId);
    TrimOfTrimmed(PrintI16(0));
    TrimOfTrimmed(SignUserContext(mac, pluginId, "", 0));
    I16RoundTrip(0);
    ForwardedUserIsSigned(mac, headers, user);
    assert headers == [Header(USER_ID, pluginId), Header(USER_ROLE, "0"),
                       Header(USER_SIGNATURE, SignUserContext(mac, pluginId, "", 0))];
  }

  /** A forwarded request that names another user id is not read as the user whose context was printed. */
  lemma OtherIdForwarded(mac: Mac, pluginId: string)
    ensures var user := User("a", 0, None);
      ForwardedUserFromHeaders(mac, ProxyHeaders(mac, [Header(USER_ID, "b")], pluginId, Some(user))) != Some(user)
  {
    var inbound := [Header(USER_ID, "b")];
    UserRoundTrip(mac, inbound, pluginId, User("a", 0, None));
    TrimOfTrimmed("b");
    assert Get(inbound, USER_ID) == Some("b") && HeaderText("b") == Some("b");
  }
}
