/** The authentication middleware `verifyCognitoJwt` and the authorisation
    gate `requireGroups`. The signature, issuer and audience checks of the
    JWT library are an oracle (`Verifier`) that either yields the verified
    claims or fails with an error message. */
module Auth {
  import opened Common
  import opened Config

  // ---------------------------------------------------------------------
  // Claims

  /** A JSON claim value as the verified payload carries it. Numbers are kept
      as the text `String(n)` gives them; of an object only whether it has
      an own `toString` key is kept, since that decides what `String` does
      with it. */
  datatype ClaimValue =
    | Undefined
    | Null
    | Bool(b: bool)
    | Num(text: string)
    | Str(s: string)
    | Arr(items: seq<ClaimValue>)
    | Obj(ownToString: bool)

  type Claims = map<string, ClaimValue>

  /** `payload[key]` */
  function Claim(payload: Claims, key: string): ClaimValue {
    if key in payload then payload[key] else Undefined
  }

  /** JavaScript truthiness of a claim value. */
  predicate Truthy(v: ClaimValue) {
    match v
    case Undefined => false
    case Null => false
    case Bool(b) => b
    case Num(t) => t != "0" && t != "NaN"
    case Str(s) => s != ""
    case Arr(_) => true
    case Obj(_) => true
  }

  /** `String(v)` throws a `TypeError`: an object with an own `toString` key
      has a `toString` that JSON cannot make callable and a `valueOf` that
      returns the object itself, so no primitive is found; an array throws
      when one of its elements does. */
  predicate StringThrows(v: ClaimValue)
    decreases v
  {
    match v
    case Obj(own) => own
    case Arr(items) => exists i :: 0 <= i < |items| && StringThrows(items[i])
    case _ => false
  }

  /** The message of that `TypeError`. */
  const NoPrimitive: string := "Cannot convert object to primitive value"

  /** `items.join(',')` for strings. */
  function JoinComma(parts: seq<string>): string {
    if parts == [] then ""
    else if |parts| == 1 then parts[0]
    else parts[0] + "," + JoinComma(parts[1..])
  }

  /** `String(v)` for a value it does not throw on: arrays are joined with
      commas, their null and undefined elements rendering as empty. */
  function JsString(v: ClaimValue): (r: string)
    requires !StringThrows(v)
    ensures v.Undefined? ==> r == "undefined"
    ensures v.Null? ==> r == "null"
    ensures v.Bool? ==> r == (if v.b then "true" else "false")
    ensures v.Str? ==> r == v.s
    ensures v.Obj? ==> r == "[object Object]"
    ensures r == "" ==> v.Str? || v.Arr? || v.Num?
    decreases v
  {
    match v
    case Undefined => "undefined"
    case Null => "null"
    case Bool(b) => if b then "true" else "false"
    case Num(t) => t
    case Str(s) => s
    case Arr(items) =>
      JoinComma(seq(|items|, i requires 0 <= i < |items| =>
        if items[i].Undefined? || items[i].Null? then "" else JsString(items[i])))
    case Obj(_) => "[object Object]"
  }

  /** The identity attached to the request (`req.user`). `groups` holds the
      array exactly as the token carried it: its elements are not checked to
      be strings. */
  datatype AuthUser = AuthUser(
    sub: string,
    email: Option<string>,
    username: Option<string>,
    groups: Option<seq<ClaimValue>>,
    raw: Claims)

  /** The placeholder identity used when authentication is disabled. */
  const LocalUser: AuthUser := AuthUser("local-user", None, Some("local"), None, map[])

  /** `req.user?.sub` when it is truthy: the identity the
      controllers act for. */
  function Subject(user: Option<AuthUser>): (r: Option<string>)
    ensures r.Some? <==> user.Some? && user.value.sub != ""
    ensures r.Some? ==> r.value == user.value.sub
  {
    if user.Some? && user.value.sub != "" then Some(user.value.sub) else None
  }

  /** `payload[key] ? String(payload[key]) : undefined`, for a claim
      `String` does not throw on. */
  function OptionalClaim(payload: Claims, key: string): (r: Option<string>)
    requires !StringThrows(Claim(payload, key))
    ensures r.Some? <==> Truthy(Claim(payload, key))
    ensures r.Some? ==> r.value == JsString(Claim(payload, key))
    ensures Claim(payload, key).Str? && Claim(payload, key).s != "" ==> r == Some(Claim(payload, key).s)
  {
    if Truthy(Claim(payload, key)) then Some(JsString(Claim(payload, key))) else None
  }

  /** The `req.user` record built from a verified payload, or the
      `TypeError` thrown while building it. `String` is applied to `sub`
      unless it is undefined or null and to `email` and `cognito:username`
      when they are truthy; a value it throws on is never undefined, null or
      falsy, so building fails exactly when one of the three throws. */
  function UserFromClaims(payload: Claims): (r: Result<AuthUser, string>)
    ensures r.Err? <==>
      StringThrows(Claim(payload, "sub")) || StringThrows(Claim(payload, "email")) ||
      StringThrows(Claim(payload, "cognito:username"))
    ensures r.Err? ==> r.error == NoPrimitive
    ensures r.Ok? ==> r.value.raw == payload
    ensures r.Ok? ==> (r.value.groups.Some? <==> Claim(payload, "cognito:groups").Arr?)
    ensures r.Ok? && r.value.groups.Some? ==> r.value.groups.value == Claim(payload, "cognito:groups").items
    ensures r.Ok? && Claim(payload, "sub").Str? ==> r.value.sub == Claim(payload, "sub").s
    ensures r.Ok? && (Claim(payload, "sub").Undefined? || Claim(payload, "sub").Null?) ==> r.value.sub == ""
    ensures r.Ok? && !(Claim(payload, "sub").Undefined? || Claim(payload, "sub").Null?) ==>
      r.value.sub == JsString(Claim(payload, "sub"))
    ensures r.Ok? ==> (r.value.email.Some? <==> Truthy(Claim(payload, "email")))
    ensures r.Ok? && r.value.email.Some? ==> r.value.email.value == JsString(Claim(payload, "email"))
    ensures r.Ok? ==> (r.value.username.Some? <==> Truthy(Claim(payload, "cognito:username")))
    ensures r.Ok? && r.value.username.Some? ==>
      r.value.username.value == JsString(Claim(payload, "cognito:username"))
  {
    var sub := Claim(payload, "sub");
    var groups := Claim(payload, "cognito:groups");
    if StringThrows(sub) || StringThrows(Claim(payload, "email")) ||
       StringThrows(Claim(payload, "cognito:username"))
    then Err(NoPrimitive)
    else
      Ok(AuthUser(
        sub := if sub.Undefined? || sub.Null? then "" else JsString(sub),
        email := OptionalClaim(payload, "email"),
        username := OptionalClaim(payload, "cognito:username"),
        groups := if groups.Arr? then Some(groups.items) else None,
        raw := payload))
  }

  /** An empty array as `sub` renders as the empty string, so a verified
      token whose subject is `[]` has no subject. */
  lemma EmptyArraySubIsMissing(payload: Claims)
    requires Claim(payload, "sub") == Arr([])
    ensures UserFromClaims(payload).Err? || UserFromClaims(payload).value.sub == ""
  {
  }

  /** `String` throws on an object with an own `toString` key and on an array
      holding one, and renders any other object as `[object Object]`. */
  lemma ToStringKeyThrows()
    ensures StringThrows(Obj(true)) && !StringThrows(Obj(false))
    ensures StringThrows(Arr([Null, Obj(true)])) && !StringThrows(Arr([Null, Obj(false)]))
    ensures JsString(Arr([Null, Obj(false)])) == ",[object Object]"
  {
    assert StringThrows(Arr([Null, Obj(true)])) by {
      assert Arr([Null, Obj(true)]).items[1] == Obj(true);
    }
    assert JsString(Arr([Null, Obj(false)])) == ",[object Object]" by {
      var items := [Null, Obj(false)];
      var parts := seq(|items|, i requires 0 <= i < |items| =>
        if items[i].Undefined? || items[i].Null? then "" else JsString(items[i]));
      assert parts == ["", "[object Object]"];
      assert parts[1..] == ["[object Object]"];
      assert JoinComma(parts) == "" + "," + "[object Object]";
    }
  }

  // ---------------------------------------------------------------------
  // Bearer token extraction: `auth.match(/^Bearer\s+(.+)$/i)`

  /** `\s` of JavaScript regular expressions. */
  predicate IsSpace(c: char) {
    c == '\t' || c == '\n' || c == '\U{B}' || c == '\U{C}' || c == '\r' || c == ' ' ||
    c == '\U{A0}' || c == '\U{1680}' || ('\U{2000}' <= c <= '\U{200A}') ||
    c == '\U{2028}' || c == '\U{2029}' || c == '\U{202F}' || c == '\U{205F}' ||
    c == '\U{3000}' || c == '\U{FEFF}'
  }

  /** The characters `.` does not match. */
  predicate IsLineTerminator(c: char) {
    c == '\n' || c == '\r' || c == '\U{2028}' || c == '\U{2029}'
  }

  predicate NoLineTerminator(t: string) {
    forall k :: 0 <= k < |t| ==> !IsLineTerminator(t[k])
  }

  /** The header starts with `Bearer` in any letter case. */
  predicate HasScheme(h: string) {
    |h| >= 6 && Lower(h[..6]) == "bearer"
  }

  /** The regular expression matches `h` with `\s+` covering `h[6..k]` and
      `(.+)` covering `h[k..]`. */
  predicate MatchSplit(h: string, k: int) {
    HasScheme(h) && 6 < k < |h| &&
    (forall m :: 6 <= m < k ==> IsSpace(h[m])) &&
    NoLineTerminator(h[k..])
  }

  /** The length of the run of `\s` characters starting at `i`. */
  function SpaceRun(h: string, i: nat): (n: nat)
    requires i <= |h|
    ensures i + n <= |h|
    ensures forall m :: i <= m < i + n ==> IsSpace(h[m])
    ensures i + n < |h| ==> !IsSpace(h[i + n])
    decreases |h| - i
  {
    if i < |h| && IsSpace(h[i]) then 1 + SpaceRun(h, i + 1) else 0
  }

  /** The greedy match: `\s+` takes the whole run of spaces, and gives back
      one space only when nothing would be left for `(.+)`. */
  function MatchBearer(h: string): Option<string> {
    if !HasScheme(h) then None
    else
      var e := 6 + SpaceRun(h, 6);
      if e == 6 then None
      else if e < |h| then (if NoLineTerminator(h[e..]) then Some(h[e..]) else None)
      else if e - 6 >= 2 && !IsLineTerminator(h[|h| - 1]) then Some(h[|h| - 1..])
      else None
  }

  /** The greedy computation agrees with the regular expression: it finds a
      token exactly when some split matches, and then returns the group of
      the split whose `\s+` is longest, which is the one a backtracking
      matcher reports. */
  lemma {:induction false} MatchBearerIsRegex(h: string)
    ensures MatchBearer(h).None? <==> forall k :: !MatchSplit(h, k)
    ensures MatchBearer(h).Some? ==>
      exists k :: MatchSplit(h, k) && MatchBearer(h).value == h[k..] &&
        forall k' :: MatchSplit(h, k') ==> k' <= k
  {
    if HasScheme(h) {
      var e := 6 + SpaceRun(h, 6);
      // no split reaches past the run of spaces
      assert e == |h| || !IsSpace(h[e]);
      forall k | MatchSplit(h, k) ensures k <= e {
      }
      if e == 6 {
      } else if e < |h| {
        if NoLineTerminator(h[e..]) {
          assert MatchSplit(h, e);
        } else {
          var p :| 0 <= p < |h[e..]| && IsLineTerminator(h[e..][p]);
          forall k | 6 < k <= e ensures !NoLineTerminator(h[k..]) {
            assert h[k..][e + p - k] == h[e..][p];
          }
        }
      } else {
        if e - 6 >= 2 && !IsLineTerminator(h[|h| - 1]) {
          assert MatchSplit(h, |h| - 1);
        } else {
          forall k | 6 < k < |h| ensures !NoLineTerminator(h[k..]) {
            assert h[k..][|h| - 1 - k] == h[|h| - 1];
          }
        }
      }
    }
  }

  /** `getBearerToken(req)`, given the Authorization header (None when it is
      absent). */
  function GetBearerToken(header: Option<string>): (r: Option<string>)
    ensures r.Some? ==> header.Some? && 0 < |r.value| <= |header.value| - 7
    ensures r.Some? ==> header.value[|header.value| - |r.value|..] == r.value
    ensures r.Some? ==> HasScheme(header.value) && IsSpace(header.value[6])
  {
    match header
    case None => None
    case Some(h) =>
      if h == "" then None
      else
        MatchBearerIsRegex(h);
        MatchBearer(h)
  }

  lemma BearerExamples()
    ensures GetBearerToken(Some("Bearer abc")) == Some("abc")
    ensures GetBearerToken(Some("Bearerabc")) == None
    ensures GetBearerToken(None) == None
  {
    assert Lower("Bearer") == "bearer";
    assert SpaceRun("Bearer abc", 6) == 1;
    assert SpaceRun("Bearerabc", 6) == 0;
    assert "Bearer abc"[7..] == "abc";
  }

  // ---------------------------------------------------------------------
  // The cached key set

  /** The remote key set, identified by the URL it is fetched from. */
  datatype Jwks = RemoteJwkSet(url: string)

  const NotConfigured: string := "COGNITO_USER_POOL_ID / COGNITO_REGION are not configured"

  /** The issuer URL: the region inside the host name, the pool id as the
      path. */
  function Issuer(env: Env): (r: string)
    ensures |r| == 35 + |env.cognitoRegion| + |env.cognitoUserPoolId|
    ensures r[..20] == "https://cognito-idp." && r[20..20 + |env.cognitoRegion|] == env.cognitoRegion
    ensures r[20 + |env.cognitoRegion|..35 + |env.cognitoRegion|] == ".amazonaws.com/"
    ensures r[35 + |env.cognitoRegion|..] == env.cognitoUserPoolId
  {
    "https://cognito-idp." + env.cognitoRegion + ".amazonaws.com/" + env.cognitoUserPoolId
  }

  /** `env.cognitoClientId || undefined` */
  function Audience(env: Env): (a: Option<string>)
    ensures a.None? <==> env.cognitoClientId == ""
    ensures a.Some? ==> a.value == env.cognitoClientId
  {
    if env.cognitoClientId == "" then None else Some(env.cognitoClientId)
  }

  /** The message of the `TypeError` that `new URL(...)` throws. */
  const InvalidUrl: string := "Invalid URL"

  /** Characters that end the authority part of a URL or move the host
      within it: where they stand in the region decides whether the URL
      parses, so a region holding one is not judged here. */
  predicate MovesHost(c: char) {
    c == '/' || c == '\\' || c == '?' || c == '#' || c == '@'
  }

  /** ASCII characters that fail URL host parsing wherever they stand in the
      host: the forbidden host and domain code points of the WHATWG URL
      standard, less the delimiters above, the tab, line feed and carriage
      return the parser strips, and `%` (see `BarePercent`); and `:`, which
      starts a port that `.amazonaws.com` then makes non-numeric. */
  predicate BreaksHost(c: char) {
    c == ' ' || c == '<' || c == '>' || c == '^' || c == '|' || c == '[' || c == ']' ||
    c == ':' || c == '\U{7F}' || (c < ' ' && c != '\t' && c != '\n' && c != '\r')
  }

  predicate IsHexDigit(c: char) {
    ('0' <= c <= '9') || ('a' <= c <= 'f') || ('A' <= c <= 'F')
  }

  /** A `%` at `i` that does not start a two-hex-digit escape. The host is
      percent-decoded before it is checked, so such a `%` stays in it and
      fails as a forbidden domain code point. The region is followed by `.`,
      so a `%` among its last two characters never starts an escape. */
  predicate BarePercent(region: string, i: int)
    requires 0 <= i < |region|
  {
    region[i] == '%' && !(i + 2 < |region| && IsHexDigit(region[i + 1]) && IsHexDigit(region[i + 2]))
  }

  /** A region that makes `new URL(issuer + '/.well-known/jwks.json')`
      throw: the host `cognito-idp.<region>.amazonaws.com` is not split by
      the region and holds a character no host may contain. */
  predicate InvalidHostRegion(region: string) {
    (forall i :: 0 <= i < |region| ==> !MovesHost(region[i])) &&
    (exists i :: 0 <= i < |region| && (BreaksHost(region[i]) || BarePercent(region, i)))
  }

  /** What `getJwks()` returns (or throws) given the cached value. */
  function JwksLookup(cached: Option<Jwks>, env: Env): (r: Result<Jwks, string>)
    ensures cached.Some? ==> r == Ok(cached.value)
    ensures cached.None? ==>
      (r.Err? <==> env.cognitoUserPoolId == "" || env.cognitoRegion == "" || InvalidHostRegion(env.cognitoRegion))
    ensures r.Err? && (env.cognitoUserPoolId == "" || env.cognitoRegion == "") ==> r.error == NotConfigured
    ensures r.Err? && env.cognitoUserPoolId != "" && env.cognitoRegion != "" ==> r.error == InvalidUrl
    ensures cached.None? && r.Ok? ==> r.value.url == Issuer(env) + "/.well-known/jwks.json"
  {
    match cached
    case Some(j) => Ok(j)
    case None =>
      if env.cognitoUserPoolId == "" || env.cognitoRegion == "" then Err(NotConfigured)
      else if InvalidHostRegion(env.cognitoRegion) then Err(InvalidUrl)
      else Ok(RemoteJwkSet(Issuer(env) + "/.well-known/jwks.json"))
  }

  /** The cache after one `getJwks()` call. */
  function CacheAfter(cached: Option<Jwks>, env: Env): Option<Jwks> {
    match JwksLookup(cached, env)
    case Ok(j) => Some(j)
    case Err(_) => cached
  }

  /** The module-level `jwks` variable. */
  class JwksCache {
    var jwks: Option<Jwks>

    constructor()
      ensures jwks == None
    {
      jwks := None;
    }

    /** `getJwks()`: a cached key set is returned as is; otherwise both
        configuration values are required, the URL must parse, and the new
        key set is cached. */
    method GetJwks(env: Env) returns (r: Result<Jwks, string>)
      modifies this
      ensures r == JwksLookup(old(jwks), env)
      ensures jwks == CacheAfter(old(jwks), env)
    {
      if jwks.Some? {
        return Ok(jwks.value);
      }
      if env.cognitoUserPoolId == "" || env.cognitoRegion == "" {
        return Err(NotConfigured);
      }
      if InvalidHostRegion(env.cognitoRegion) {
        return Err(InvalidUrl);
      }
      var issuer := Issuer(env);
      jwks := Some(RemoteJwkSet(issuer + "/.well-known/jwks.json"));
      r := Ok(jwks.value);
    }
  }

  /** Once filled, the cache answers with the same key set forever, whatever
      the configuration says later. */
  lemma CacheIsSticky(j: Jwks, env: Env)
    ensures JwksLookup(Some(j), env) == Ok(j)
    ensures CacheAfter(Some(j), env) == Some(j)
  {
  }

  // ---------------------------------------------------------------------
  // verifyCognitoJwt

  /** What the JWT library's verification yields: the payload, or a thrown
      value (Some(message) for an `Error`, None for anything else). */
  datatype VerifyOutcome = Verified(payload: Claims) | Rejected(error: Option<string>)

  /** `jwtVerify(token, jwks, { issuer, audience })` */
  type Verifier = (string, Jwks, string, Option<string>) -> VerifyOutcome

  /** The middleware's outcome: continue with `req.user`, or answer with an
      error envelope. */
  datatype Gate = Next(user: AuthUser) | Deny(code: int, message: string)

  const MissingToken: string := "Missing Authorization Bearer token"
  const MissingSub: string := "Invalid token (missing sub)"

  /** The outcome of `verifyCognitoJwt` for one request, given the cache as
      it stands before the request. */
  function Authenticate(env: Env, header: Option<string>, cached: Option<Jwks>, verify: Verifier): (g: Gate)
    ensures env.authDisabled ==> g == Next(LocalUser)
    ensures !env.authDisabled && GetBearerToken(header).None? ==> g == Deny(401, MissingToken)
    ensures g.Deny? ==> g.code == 401
    ensures !env.authDisabled && g.Next? ==> g.user.sub != "" && GetBearerToken(header).Some?
    ensures !env.authDisabled && GetBearerToken(header).Some? && JwksLookup(cached, env).Err? ==>
      g == Deny(401, JwksLookup(cached, env).error)
  {
    if env.authDisabled then Next(LocalUser)
    else
      match GetBearerToken(header)
      case None => Deny(401, MissingToken)
      case Some(token) =>
        match JwksLookup(cached, env)
        case Err(m) => Deny(401, m)
        case Ok(jwks) =>
          match verify(token, jwks, Issuer(env), Audience(env))
          case Rejected(e) => Deny(401, e.GetOr("Invalid token"))
          case Verified(payload) =>
            match UserFromClaims(payload)
            case Err(m) => Deny(401, m)
            case Ok(u) => if u.sub == "" then Deny(401, MissingSub) else Next(u)
  }

  /** Without a well-formed bearer header the verifier is never consulted:
      any two verifiers give the same answer. */
  lemma NoTokenNoVerification(env: Env, header: Option<string>, cached: Option<Jwks>, v1: Verifier, v2: Verifier)
    requires !env.authDisabled && GetBearerToken(header).None?
    ensures Authenticate(env, header, cached, v1) == Authenticate(env, header, cached, v2)
  {
  }

  /** A verified token is accepted exactly when its claims convert and its
      subject renders as a non-empty string, and the identity is then built
      from its claims; a claim `String` throws on is answered with 401 and
      the `TypeError`'s message. */
  lemma {:induction false} VerifiedTokenOutcome(env: Env, header: Option<string>, cached: Option<Jwks>,
                                                verify: Verifier, token: string, jwks: Jwks, payload: Claims)
    requires !env.authDisabled && GetBearerToken(header) == Some(token)
    requires JwksLookup(cached, env) == Ok(jwks)
    requires verify(token, jwks, Issuer(env), Audience(env)) == Verified(payload)
    ensures UserFromClaims(payload).Err? ==> Authenticate(env, header, cached, verify) == Deny(401, NoPrimitive)
    ensures UserFromClaims(payload).Ok? && UserFromClaims(payload).value.sub == "" ==>
      Authenticate(env, header, cached, verify) == Deny(401, MissingSub)
    ensures UserFromClaims(payload).Ok? && UserFromClaims(payload).value.sub != "" ==>
      Authenticate(env, header, cached, verify) == Next(UserFromClaims(payload).value)
  {
  }

  /** A verifier failure is answered with 401 and its message. */
  lemma {:induction false} RejectedTokenOutcome(env: Env, header: Option<string>, cached: Option<Jwks>,
                                                verify: Verifier, token: string, jwks: Jwks, error: Option<string>)
    requires !env.authDisabled && GetBearerToken(header) == Some(token)
    requires JwksLookup(cached, env) == Ok(jwks)
    requires verify(token, jwks, Issuer(env), Audience(env)) == Rejected(error)
    ensures Authenticate(env, header, cached, verify) == Deny(401, error.GetOr("Invalid token"))
  {
  }

  /** A region with a space (or another character no host may contain)
      makes every request with a token fail with 401 "Invalid URL" before
      the verifier is consulted, and the cache stays empty, so the next
      request fails the same way. */
  lemma {:induction false} InvalidRegionDenied(env: Env, header: Option<string>, verify: Verifier)
    requires !env.authDisabled && GetBearerToken(header).Some?
    requires env.cognitoUserPoolId != "" && env.cognitoRegion != ""
    requires InvalidHostRegion(env.cognitoRegion)
    ensures Authenticate(env, header, None, verify) == Deny(401, InvalidUrl)
    ensures CacheAfter(None, env) == None
  {
  }

  /** The region `eu west-1` is such a region. */
  lemma SpacedRegionIsInvalid()
    ensures InvalidHostRegion("eu west-1")
    ensures !InvalidHostRegion("eu-west-1")
  {
    assert BreaksHost("eu west-1"[2]);
  }

  /** A `%` that starts no escape breaks the host, wherever it stands; one
      that starts an escape is not judged by itself. */
  lemma BarePercentRegionIsInvalid()
    ensures InvalidHostRegion("eu%") && InvalidHostRegion("eu%4") && InvalidHostRegion("eu%west")
    ensures !InvalidHostRegion("eu%41")
  {
    assert BarePercent("eu%", 2);
    assert BarePercent("eu%4", 2);
    assert BarePercent("eu%west", 2);
    assert !BarePercent("eu%41", 2);
  }

  /** The key-set cache after one request: `getJwks()` is evaluated only
      when authentication is on and a bearer token was found. */
  function CacheAfterRequest(env: Env, header: Option<string>, cached: Option<Jwks>): Option<Jwks> {
    if !env.authDisabled && GetBearerToken(header).Some? then CacheAfter(cached, env) else cached
  }

  /** `verifyCognitoJwt(req, res, next)` */
  method VerifyCognitoJwt(cache: JwksCache, env: Env, header: Option<string>, verify: Verifier) returns (g: Gate)
    modifies cache
    ensures g == Authenticate(env, header, old(cache.jwks), verify)
    ensures cache.jwks == CacheAfterRequest(env, header, old(cache.jwks))
  {
    if env.authDisabled {
      return Next(LocalUser);
    }
    var token := GetBearerToken(header);
    if token.None? {
      return Deny(401, MissingToken);
    }
    var issuer := Issuer(env);
    var jwks := cache.GetJwks(env);
    if jwks.Err? {
      return Deny(401, jwks.error);
    }
    var outcome := verify(token.value, jwks.value, issuer, Audience(env));
    if outcome.Rejected? {
      return Deny(401, outcome.error.GetOr("Invalid token"));
    }
    var built := UserFromClaims(outcome.payload);
    if built.Err? {
      return Deny(401, built.error);
    }
    var user := built.value;
    if user.sub == "" {
      return Deny(401, MissingSub);
    }
    g := Next(user);
  }

  // ---------------------------------------------------------------------
  // requireGroups

  datatype Verdict = Continue | Reject(code: int, message: string)

  /** `req.user?.groups ?? []` */
  function GroupsOf(user: Option<AuthUser>): (r: seq<ClaimValue>)
    ensures user.Some? && user.value.groups.Some? ==> r == user.value.groups.value
    ensures user.None? || user.value.groups.None? ==> r == []
  {
    if user.Some? && user.value.groups.Some? then user.value.groups.value else []
  }

  /** `allowed.some((g) => groups.includes(g))`: a group name matches only a
      string element equal to it. */
  function AnyAllowed(allowed: seq<string>, groups: seq<ClaimValue>): (r: bool)
    ensures r <==> exists i :: 0 <= i < |allowed| && Str(allowed[i]) in groups
  {
    if allowed == [] then false
    else if Str(allowed[0]) in groups then true
    else
      assert forall i :: 1 <= i < |allowed| ==> allowed[i] == allowed[1..][i - 1];
      AnyAllowed(allowed[1..], groups)
  }

  /** The middleware built by `requireGroups(allowed)`. */
  function RequireGroups(env: Env, allowed: seq<string>, user: Option<AuthUser>): (v: Verdict)
    ensures v.Reject? ==> v == Reject(403, "Forbidden")
    ensures v.Continue? <==>
      env.authDisabled || exists i :: 0 <= i < |allowed| && Str(allowed[i]) in GroupsOf(user)
  {
    if env.authDisabled then Continue
    else if AnyAllowed(allowed, GroupsOf(user)) then Continue
    else Reject(403, "Forbidden")
  }

  /** An empty list of allowed groups forbids everyone when authentication
      is on. */
  lemma {:induction false} EmptyAllowedForbids(env: Env, user: Option<AuthUser>)
    requires !env.authDisabled
    ensures RequireGroups(env, [], user) == Reject(403, "Forbidden")
  {
  }

  /** A user without a `groups` array is forbidden whatever the list. */
  lemma {:induction false} NoGroupsForbidden(env: Env, allowed: seq<string>, user: Option<AuthUser>)
    requires !env.authDisabled
    requires user.None? || user.value.groups.None?
    ensures RequireGroups(env, allowed, user) == Reject(403, "Forbidden")
  {
  }

  /** With authentication disabled every request, with or without a header,
      gets the placeholder identity and passes every group check. */
  lemma {:induction false} DisabledModeAdmitsAll(env: Env, header: Option<string>, cached: Option<Jwks>,
                                                 verify: Verifier, allowed: seq<string>)
    requires env.authDisabled
    ensures Authenticate(env, header, cached, verify) == Next(LocalUser)
    ensures RequireGroups(env, allowed, Some(LocalUser)) == Continue
  {
  }
}
