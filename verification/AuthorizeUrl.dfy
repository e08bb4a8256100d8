/**
 The bounce through the login page. An authorize request that needs a login is
 printed as a URL (percent-encoding of section 2.1 of RFC 3986), carried as
 `return_to`, and parsed again afterwards. The resumed request is the same request
 without the parameters that demand a fresh login, so it never bounces again for
 that reason. Strings are sequences of bytes, held in characters below 256.
 */
module AuthorizeUrl {
  import opened Wrappers
  import Pkce
  import Credentials

  datatype Params = Params(
    clientId: string, redirectUri: string, state: string, codeChallenge: string,
    responseType: Option<string>, scope: Option<string>, codeChallengeMethod: Option<string>, nonce: Option<string>,
    acrValues: Option<string>, maxAge: Option<string>, prompt: Option<string>,
    responseMode: Option<string>, loginHint: Option<string>)

  predicate IsBytes(s: string) { forall i :: 0 <= i < |s| ==> s[i] as int < 256 }

  predicate AreBytes(o: Option<string>) { o.Some? ==> IsBytes(o.value) }

  predicate ParamsAreBytes(p: Params) {
    && IsBytes(p.clientId) && IsBytes(p.redirectUri) && IsBytes(p.state) && IsBytes(p.codeChallenge)
    && AreBytes(p.scope) && AreBytes(p.codeChallengeMethod) && AreBytes(p.nonce) && AreBytes(p.acrValues)
  }

  // ── Percent-encoding ─────────────────────────────────────────────────────

  function HexDigit(v: int): char
    requires 0 <= v < 16
  {
    if v < 10 then '0' + v as char else 'A' + (v - 10) as char
  }

  function HexValue(c: char): Option<int> {
    if '0' <= c <= '9' then Some(c as int - '0' as int)
    else if 'A' <= c <= 'F' then Some(c as int - 'A' as int + 10)
    else if 'a' <= c <= 'f' then Some(c as int - 'a' as int + 10)
    else None
  }

  function EncodeByte(c: char): string {
    if Pkce.IsUnreserved(c) then [c]
    else ['%', HexDigit(c as int / 16 % 16), HexDigit(c as int % 16)]
  }

  function Encode(s: string): string {
    if s == [] then [] else EncodeByte(s[0]) + Encode(s[1..])
  }

  /** A form decoder: escapes and plus signs; a malformed escape stands for itself. */
  function Decode(s: string): string {
    if s == [] then []
    else if s[0] == '%' && |s| >= 3 && HexValue(s[1]).Some? && HexValue(s[2]).Some? then
      [(HexValue(s[1]).value * 16 + HexValue(s[2]).value) as char] + Decode(s[3..])
    else if s[0] == '+' then [' '] + Decode(s[1..])
    else [s[0]] + Decode(s[1..])
  }

  lemma HexBack(c: char)
    requires c as int < 256
    ensures HexValue(HexDigit(c as int / 16 % 16)) == Some(c as int / 16)
    ensures HexValue(HexDigit(c as int % 16)) == Some(c as int % 16)
  {
  }

  lemma DecodeByte(c: char, rest: string)
    requires c as int < 256
    ensures Decode(EncodeByte(c) + rest) == [c] + Decode(rest)
  {
    var s := EncodeByte(c) + rest;
    if Pkce.IsUnreserved(c) {
      assert s[0] == c && s[1..] == rest;
    } else {
      HexBack(c);
      assert s[0] == '%' && s[3..] == rest;
    }
  }

  lemma {:induction false} DecodeEncode(s: string)
    requires IsBytes(s)
    ensures Decode(Encode(s)) == s
  {
    hide EncodeByte;
    if s != [] {
      DecodeEncode(s[1..]);
      DecodeByte(s[0], Encode(s[1..]));
      assert s == [s[0]] + s[1..];
    }
  }

  predicate IsEncodedChar(c: char) { Pkce.IsUnreserved(c) || c == '%' }

  /** Encoded text is free of every delimiter. */
  lemma {:induction false} EncodedChars(s: string, i: nat)
    requires i < |Encode(s)|
    ensures IsEncodedChar(Encode(s)[i])
  {
    var e := EncodeByte(s[0]);
    if i >= |e| {
      EncodedChars(s[1..], i - |e|);
    }
  }

  // ── Query strings ────────────────────────────────────────────────────────

  function Join(parts: seq<string>): string {
    if parts == [] then "" else if |parts| == 1 then parts[0] else parts[0] + "&" + Join(parts[1..])
  }

  function Before(s: string, c: char): string { if s == [] || s[0] == c then [] else [s[0]] + Before(s[1..], c) }

  lemma {:induction false} BeforeLength(s: string, c: char)
    ensures |Before(s, c)| <= |s|
  {
    if s != [] && s[0] != c {
      BeforeLength(s[1..], c);
    }
  }

  lemma {:induction false} BeforeIs(a: string, c: char, b: string)
    requires c !in a
    ensures Before(a + [c] + b, c) == a && Before(a, c) == a
  {
    if a != [] {
      BeforeIs(a[1..], c, b);
      assert (a + [c] + b)[1..] == a[1..] + [c] + b;
      assert a == [a[0]] + a[1..];
    }
  }

  function Split(s: string): seq<string>
    decreases |s|
  {
    BeforeLength(s, '&');
    var part := Before(s, '&');
    if |part| == |s| then [part] else [part] + Split(s[|part| + 1..])
  }

  lemma {:induction false} SplitJoin(parts: seq<string>)
    requires parts != [] && forall i :: 0 <= i < |parts| ==> '&' !in parts[i]
    ensures Split(Join(parts)) == parts
  {
    var rest := Join(parts[1..]);
    BeforeIs(parts[0], '&', rest);
    if |parts| > 1 {
      SplitJoin(parts[1..]);
      var s := parts[0] + "&" + rest;
      assert s == parts[0] + ['&'] + rest;
      assert s[|parts[0]| + 1..] == rest;
      assert parts == [parts[0]] + parts[1..];
    }
  }

  type Pair = (string, string)

  function PrintPair(p: Pair): string { p.0 + "=" + Encode(p.1) }

  function ParsePair(s: string): Pair {
    BeforeLength(s, '=');
    var key := Before(s, '=');
    (Decode(key), if |key| == |s| then "" else Decode(s[|key| + 1..]))
  }

  function PrintPairs(ps: seq<Pair>): seq<string> { seq(|ps|, i requires 0 <= i < |ps| => PrintPair(ps[i])) }

  function ParsePairs(parts: seq<string>): seq<Pair> {
    seq(|parts|, i requires 0 <= i < |parts| => ParsePair(parts[i]))
  }

  /** Parameter names print as themselves. */
  predicate IsName(s: string) {
    s != [] && forall i :: 0 <= i < |s| ==> 'a' <= s[i] <= 'z' || s[i] == '_'
  }

  lemma {:induction false} NameDecodes(s: string)
    requires IsName(s) || s == []
    ensures Decode(s) == s
  {
    if s != [] {
      assert s[1..] == [] || IsName(s[1..]);
      NameDecodes(s[1..]);
    }
  }

  lemma PairRoundTrip(p: Pair)
    requires IsName(p.0) && IsBytes(p.1)
    ensures ParsePair(PrintPair(p)) == p && '&' !in PrintPair(p)
  {
    hide Encode, Decode;
    PairHasNoSeparator(p);
    var s := PrintPair(p);
    assert s == p.0 + ['='] + Encode(p.1);
    BeforeIs(p.0, '=', Encode(p.1));
    NameDecodes(p.0);
    DecodeEncode(p.1);
    assert s[|p.0| + 1..] == Encode(p.1);
  }

  lemma PairHasNoSeparator(p: Pair)
    requires IsName(p.0) && IsBytes(p.1)
    ensures '&' !in PrintPair(p)
  {
    hide Encode;
    var s := PrintPair(p);
    forall i | 0 <= i < |s|
      ensures s[i] != '&'
    {
      if i > |p.0| {
        EncodedChars(p.1, i - |p.0| - 1);
      }
    }
  }

  ghost predicate Printable(ps: seq<Pair>) {
    ps != [] && forall i :: 0 <= i < |ps| ==> IsName(ps[i].0) && IsBytes(ps[i].1)
  }

  lemma QueryRoundTrip(ps: seq<Pair>)
    requires Printable(ps)
    ensures ParsePairs(Split(Join(PrintPairs(ps)))) == ps
  {
    forall i | 0 <= i < |ps|
      ensures ParsePair(PrintPair(ps[i])) == ps[i] && '&' !in PrintPairs(ps)[i]
    {
      PairRoundTrip(ps[i]);
    }
    SplitJoin(PrintPairs(ps));
  }

  // ── The authorize URL ────────────────────────────────────────────────────

  const AUTHORIZE: string := "/oauth2/authorize?"

  function Optional(name: string, value: Option<string>): seq<Pair> {
    if value.Some? then [(name, value.value)] else []
  }

  /** What the rebuilt URL carries, in order. */
  function Pairs(p: Params): seq<Pair> {
    [("client_id", p.clientId), ("redirect_uri", p.redirectUri), ("state", p.state),
     ("code_challenge", p.codeChallenge), ("response_type", "code")]
    + Optional("scope", p.scope) + Optional("code_challenge_method", p.codeChallengeMethod)
    + Optional("nonce", p.nonce) + Optional("acr_values", p.acrValues)
  }

  function ToUrl(p: Params): string { AUTHORIZE + Join(PrintPairs(Pairs(p))) }

  function Get(ps: seq<Pair>, name: string): Option<string> {
    if ps == [] then None else if ps[0].0 == name then Some(ps[0].1) else Get(ps[1..], name)
  }

  /** The query extractor: four parameters are required, the rest optional, unknown ones ignored. */
  function FromPairs(ps: seq<Pair>): Option<Params> {
    if Get(ps, "client_id").None? || Get(ps, "redirect_uri").None? || Get(ps, "state").None?
       || Get(ps, "code_challenge").None? then None
    else
      Some(Params(Get(ps, "client_id").value, Get(ps, "redirect_uri").value, Get(ps, "state").value,
                  Get(ps, "code_challenge").value,
                  Get(ps, "response_type"), Get(ps, "scope"), Get(ps, "code_challenge_method"), Get(ps, "nonce"),
                  Get(ps, "acr_values"), Get(ps, "max_age"), Get(ps, "prompt"), Get(ps, "response_mode"),
                  Get(ps, "login_hint")))
  }

  function FromUrl(url: string): Option<Params> {
    if AUTHORIZE <= url then FromPairs(ParsePairs(Split(url[|AUTHORIZE|..]))) else None
  }

  /** The request that resumes after the login. */
  function Resumed(p: Params): Params {
    p.(responseType := Some("code"), maxAge := None, prompt := None, responseMode := None, loginHint := None)
  }

  lemma {:induction false} GetAppend(a: seq<Pair>, b: seq<Pair>, name: string)
    ensures Get(a + b, name) == if Get(a, name).Some? then Get(a, name) else Get(b, name)
  {
    if a == [] {
      assert a + b == b;
    } else {
      assert (a + b)[1..] == a[1..] + b;
      GetAppend(a[1..], b, name);
    }
  }

  /** Looking a name up in the printed parameters, group by group. */
  lemma GetPairs(p: Params, name: string)
    ensures Get(Pairs(p), name) ==
            if name == "client_id" then Some(p.clientId)
            else if name == "redirect_uri" then Some(p.redirectUri)
            else if name == "state" then Some(p.state)
            else if name == "code_challenge" then Some(p.codeChallenge)
            else if name == "response_type" then Some("code")
            else if name == "scope" then p.scope
            else if name == "code_challenge_method" then p.codeChallengeMethod
            else if name == "nonce" then p.nonce
            else if name == "acr_values" then p.acrValues
            else None
  {
    hide Get, Optional;
    var fixed := [("client_id", p.clientId), ("redirect_uri", p.redirectUri), ("state", p.state),
                  ("code_challenge", p.codeChallenge), ("response_type", "code")];
    var a, b, c, d := Optional("scope", p.scope), Optional("code_challenge_method", p.codeChallengeMethod),
                      Optional("nonce", p.nonce), Optional("acr_values", p.acrValues);
    GetFixed(p, name);
    GetAppend(fixed, a, name);
    GetAppend(fixed + a, b, name);
    GetAppend(fixed + a + b, c, name);
    GetAppend(fixed + a + b + c, d, name);
    GetOptional("scope", p.scope, name);
    GetOptional("code_challenge_method", p.codeChallengeMethod, name);
    GetOptional("nonce", p.nonce, name);
    GetOptional("acr_values", p.acrValues, name);
  }

  lemma GetOptional(key: string, value: Option<string>, name: string)
    ensures Get(Optional(key, value), name) == if name == key then value else None
  {
  }

  lemma GetFixed(p: Params, name: string)
    ensures Get([("client_id", p.clientId), ("redirect_uri", p.redirectUri), ("state", p.state),
                 ("code_challenge", p.codeChallenge), ("response_type", "code")], name) ==
            if name == "client_id" then Some(p.clientId)
            else if name == "redirect_uri" then Some(p.redirectUri)
            else if name == "state" then Some(p.state)
            else if name == "code_challenge" then Some(p.codeChallenge)
            else if name == "response_type" then Some("code")
            else None
  {
    var e4 := [("response_type", "code")];
    var e3 := [("code_challenge", p.codeChallenge)];
    var e2 := [("state", p.state)];
    var e1 := [("redirect_uri", p.redirectUri)];
    var e0 := [("client_id", p.clientId)];
    GetAppend(e0, e1, name);
    GetAppend(e0 + e1, e2, name);
    GetAppend(e0 + e1 + e2, e3, name);
    GetAppend(e0 + e1 + e2 + e3, e4, name);
    assert e0 + e1 + e2 + e3 + e4 ==
           [("client_id", p.clientId), ("redirect_uri", p.redirectUri), ("state", p.state),
            ("code_challenge", p.codeChallenge), ("response_type", "code")];
  }

  lemma PairsArePrintable(p: Params)
    requires ParamsAreBytes(p)
    ensures Printable(Pairs(p))
  {
    var fixed := [("client_id", p.clientId), ("redirect_uri", p.redirectUri), ("state", p.state),
                  ("code_challenge", p.codeChallenge), ("response_type", "code")];
    FixedPrintable(p);
    NamesArePrintable();
    hide Printable, IsName, Optional;
    AppendPrintable(fixed, "scope", p.scope);
    var a := fixed + Optional("scope", p.scope);
    AppendPrintable(a, "code_challenge_method", p.codeChallengeMethod);
    var b := a + Optional("code_challenge_method", p.codeChallengeMethod);
    AppendPrintable(b, "nonce", p.nonce);
    AppendPrintable(b + Optional("nonce", p.nonce), "acr_values", p.acrValues);
  }

  lemma FixedPrintable(p: Params)
    requires ParamsAreBytes(p)
    ensures Printable([("client_id", p.clientId), ("redirect_uri", p.redirectUri), ("state", p.state),
                       ("code_challenge", p.codeChallenge), ("response_type", "code")])
  {
  }

  lemma NamesArePrintable()
    ensures IsName("scope") && IsName("code_challenge_method") && IsName("nonce") && IsName("acr_values")
  {
  }

  lemma AppendPrintable(ps: seq<Pair>, name: string, value: Option<string>)
    requires Printable(ps) && IsName(name) && AreBytes(value)
    ensures Printable(ps + Optional(name, value))
  {
  }

  /** Parsing the rebuilt URL gives back the same request, without what demanded the login. */
  lemma UrlRoundTrip(p: Params)
    requires ParamsAreBytes(p)
    ensures FromUrl(ToUrl(p)) == Some(Resumed(p))
  {
    hide Get, Pairs, Join, Split, ParsePairs, PrintPairs;
    PairsArePrintable(p);
    QueryRoundTrip(Pairs(p));
    assert ToUrl(p)[|AUTHORIZE|..] == Join(PrintPairs(Pairs(p)));
    GetPairs(p, "client_id");
    GetPairs(p, "redirect_uri");
    GetPairs(p, "state");
    GetPairs(p, "code_challenge");
    GetPairs(p, "response_type");
    GetPairs(p, "scope");
    GetPairs(p, "code_challenge_method");
    GetPairs(p, "nonce");
    GetPairs(p, "acr_values");
    GetPairs(p, "max_age");
    GetPairs(p, "prompt");
    GetPairs(p, "response_mode");
    GetPairs(p, "login_hint");
  }

  /** Rebuilding is idempotent: resuming a resumed request changes nothing. */
  lemma RebuildingIsIdempotent(p: Params)
    requires ParamsAreBytes(p)
    ensures FromUrl(ToUrl(p)).Some? && ToUrl(FromUrl(ToUrl(p)).value) == ToUrl(p)
  {
    hide FromUrl;
    UrlRoundTrip(p);
    assert Pairs(Resumed(p)) == Pairs(p);
  }

  /** The parts are pushed one by one and joined. */
  method BuildUrl(p: Params) returns (url: string)
    ensures url == ToUrl(p)
  {
    hide Encode, Join, Optional;
    var parts := ["client_id" + "=" + Encode(p.clientId), "redirect_uri" + "=" + Encode(p.redirectUri),
                  "state" + "=" + Encode(p.state), "code_challenge" + "=" + Encode(p.codeChallenge),
                  "response_type=code"];
    ghost var ps := [("client_id", p.clientId), ("redirect_uri", p.redirectUri), ("state", p.state),
                     ("code_challenge", p.codeChallenge), ("response_type", "code")];
    CodeEncodesAsItself();
    assert "response_type=code" == "response_type" + "=" + "code";
    assert parts == PrintPairs(ps);
    if p.scope.Some? {
      parts := parts + ["scope" + "=" + Encode(p.scope.value)];
    }
    PrintOptional(ps, "scope", p.scope);
    ps := ps + Optional("scope", p.scope);
    assert parts == PrintPairs(ps);
    if p.codeChallengeMethod.Some? {
      parts := parts + ["code_challenge_method" + "=" + Encode(p.codeChallengeMethod.value)];
    }
    PrintOptional(ps, "code_challenge_method", p.codeChallengeMethod);
    ps := ps + Optional("code_challenge_method", p.codeChallengeMethod);
    assert parts == PrintPairs(ps);
    if p.nonce.Some? {
      parts := parts + ["nonce" + "=" + Encode(p.nonce.value)];
    }
    PrintOptional(ps, "nonce", p.nonce);
    ps := ps + Optional("nonce", p.nonce);
    assert parts == PrintPairs(ps);
    if p.acrValues.Some? {
      parts := parts + ["acr_values" + "=" + Encode(p.acrValues.value)];
    }
    PrintOptional(ps, "acr_values", p.acrValues);
    ps := ps + Optional("acr_values", p.acrValues);
    assert parts == PrintPairs(ps);
    url := AUTHORIZE + Join(parts);
  }

  lemma PrintOptional(ps: seq<Pair>, name: string, value: Option<string>)
    ensures PrintPairs(ps + Optional(name, value)) ==
            PrintPairs(ps) + if value.Some? then [name + "=" + Encode(value.value)] else []
  {
  }

  lemma CodeEncodesAsItself()
    ensures Encode("code") == "code"
  {
  }

  // ── The bounce ───────────────────────────────────────────────────────────

  function LoginRedirect(p: Params, promptLogin: bool): string {
    (if promptLogin then "/login?prompt=login&return_to=" else "/login?return_to=") + Encode(ToUrl(p))
  }

  /** What the login page reads from `return_to` is the authorize URL, and it is host-relative. */
  lemma ReturnToSurvives(p: Params, promptLogin: bool)
    requires ParamsAreBytes(p)
    ensures var head := if promptLogin then "/login?prompt=login&return_to=" else "/login?return_to=";
            && head <= LoginRedirect(p, promptLogin)
            && Decode(LoginRedirect(p, promptLogin)[|head|..]) == ToUrl(p)
    ensures AUTHORIZE <= ToUrl(p) && ToUrl(p)[0] == '/' && ToUrl(p)[1] != '/'
  {
    hide Decode, Encode;
    UrlIsBytes(p);
    DecodeEncode(ToUrl(p));
    var head := if promptLogin then "/login?prompt=login&return_to=" else "/login?return_to=";
    assert LoginRedirect(p, promptLogin)[|head|..] == Encode(ToUrl(p));
    assert ToUrl(p)[1] == AUTHORIZE[1];
  }

  lemma UrlIsBytes(p: Params)
    requires ParamsAreBytes(p)
    ensures IsBytes(ToUrl(p))
  {
    PairsArePrintable(p);
    JoinIsBytes(Pairs(p));
  }

  lemma {:induction false} JoinIsBytes(ps: seq<Pair>)
    requires Printable(ps)
    ensures IsBytes(Join(PrintPairs(ps)))
  {
    var s := PrintPair(ps[0]);
    forall i | 0 <= i < |s|
      ensures s[i] as int < 256
    {
      if i > |ps[0].0| {
        EncodedChars(ps[0].1, i - |ps[0].0| - 1);
      }
    }
    if |ps| > 1 {
      JoinIsBytes(ps[1..]);
      assert PrintPairs(ps)[1..] == PrintPairs(ps[1..]);
    }
  }

  /** The service request made of the parameters; `words` splits at white space, `age` parses `max_age`. */
  function ToRequest(p: Params, sso: nat, words: string -> seq<string>, age: string -> Option<nat>)
    : Option<Credentials.AuthorizeRequest>
  {
    if p.responseType.Some? && p.responseType.value != "code" then None
    else if p.responseMode.Some? && p.responseMode.value != "query" then None
    else if p.codeChallengeMethod.Some? && p.codeChallengeMethod.value != "S256" then None
    else if p.maxAge.Some? && age(p.maxAge.value).None? then None
    else
      Some(Credentials.AuthorizeRequest(
        p.clientId, p.redirectUri, p.codeChallenge, Pkce.S256, sso,
        words(if p.scope.Some? then p.scope.value else ""),
        if p.maxAge.Some? then age(p.maxAge.value) else None, p.prompt))
  }

  /** When the service asks for a fresh login: never unless `prompt` or `max_age` does. */
  lemma OnlyDemandsReauthenticate(s: Credentials.State, tenant: nat, req: Credentials.AuthorizeRequest,
                                  cfg: Credentials.Config)
    requires Credentials.Authorize(s, tenant, req, cfg).1 == Credentials.Refused(Credentials.ReAuthRequired)
    ensures req.prompt == Some("login") || req.maxAge.Some?
  {
  }

  /**
   Whatever the first request asked, `max_age=0` included, the request parsed from
   the URL it bounced with is never sent to log in again, in any state of the server.
   */
  lemma ResumedRequestDoesNotBounce(p: Params, sso: nat, words: string -> seq<string>, age: string -> Option<nat>,
                                    s: Credentials.State, tenant: nat, cfg: Credentials.Config)
    requires ParamsAreBytes(p) && ToRequest(p, sso, words, age).Some?
    ensures FromUrl(ToUrl(p)).Some? && ToRequest(FromUrl(ToUrl(p)).value, sso, words, age).Some?
    ensures var req := ToRequest(FromUrl(ToUrl(p)).value, sso, words, age).value;
            Credentials.Authorize(s, tenant, req, cfg).1 != Credentials.Refused(Credentials.ReAuthRequired)
  {
    hide FromUrl, ToUrl, Credentials.Authorize;
    UrlRoundTrip(p);
    var req := ToRequest(Resumed(p), sso, words, age).value;
    if Credentials.Authorize(s, tenant, req, cfg).1 == Credentials.Refused(Credentials.ReAuthRequired) {
      OnlyDemandsReauthenticate(s, tenant, req, cfg);
    }
  }

  /** Kept in the URL, `max_age=0` would refuse every session older than the current second. */
  lemma ZeroMaxAgeAlwaysDemands(s: Credentials.State, tenant: nat, pool: nat, sso: nat)
    requires Credentials.ValidateSession(s, tenant, pool, sso, None).Success?
    ensures Credentials.ValidateSession(s, tenant, pool, sso, Some(0)) ==
            if Credentials.ValidateSession(s, tenant, pool, sso, None).value.createdAt < s.now
            then Failure(Credentials.ReAuthRequired)
            else Credentials.ValidateSession(s, tenant, pool, sso, None)
  {
  }
}
