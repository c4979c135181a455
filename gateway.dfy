/**
 * The gateway's JWT relay filter. A request whose first Authorization value
 * is "Bearer <token>" with a token that parses is forwarded with X-User-Id
 * and X-User-Role set from the token's "uid" and "role" claims ("" when a
 * claim is absent). Every other request, including one whose token fails to
 * parse or whose claims are not strings, is forwarded exactly as it came.
 * The result is the one request handed to the rest of the filter chain.
 */
module Gateway {
  import opened Common

  /** Header name to its values, in order. */
  type Headers = map<string, seq<string>>

  datatype Request = Request(path: string, headers: Headers)

  /** A claim's JSON value: a string, or a value of any other JSON type. */
  datatype ClaimValue = Text(text: string) | NonText

  type Claims = map<string, ClaimValue>

  const Authorization := "Authorization"
  const BearerPrefix := "Bearer "
  const UserIdHeader := "X-User-Id"
  const RoleHeader := "X-User-Role"

  /** The first value of header `name`, if any. */
  function FirstHeader(headers: Headers, name: string): Option<string> {
    if name in headers && |headers[name]| > 0 then Some(headers[name][0]) else None
  }

  /** The token of an Authorization value that starts with exactly "Bearer ": the value minus its first 7 characters. */
  function TokenOf(authHeader: string): (token: Option<string>)
    ensures token.Some? <==> |BearerPrefix| <= |authHeader| && authHeader[..|BearerPrefix|] == BearerPrefix
    ensures token.Some? ==> authHeader == BearerPrefix + token.value
  {
    if |authHeader| >= 7 && authHeader[..7] == BearerPrefix then Some(authHeader[7..]) else None
  }

  /** "Bearer " + t yields the token t. */
  lemma TokenOfBearer(t: string)
    ensures TokenOf(BearerPrefix + t) == Some(t)
  {
    assert (BearerPrefix + t)[..7] == BearerPrefix;
  }

  /** `(String) claims.get(name)`: absent is null (None); a non-string value makes the cast throw. */
  function Claim(claims: Claims, name: string): Result<Option<string>, string> {
    if name !in claims then Success(None)
    else match claims[name]
      case Text(s) => Success(Some(s))
      case NonText => Failure("ClassCastException")
  }

  function OrEmpty(s: Option<string>): string {
    if s.Some? then s.value else ""
  }

  /**
   * The identity a request carries: the (uid, role) header values derived
   * from its bearer token, or None when the filter falls through.
   * `parseClaims` is the token parser (None where it throws).
   */
  function Identity(req: Request, parseClaims: string -> Option<Claims>): Option<(string, string)> {
    var auth := FirstHeader(req.headers, Authorization);
    if auth.None? || TokenOf(auth.value).None? then None
    else
      var parsed := parseClaims(TokenOf(auth.value).value);
      if parsed.None? then None
      else
        var uid := Claim(parsed.value, "uid");
        var role := Claim(parsed.value, "role");
        if uid.Failure? || role.Failure? then None
        else Some((OrEmpty(uid.value), OrEmpty(role.value)))
  }

  /**
   * The request passed down the chain: unchanged when there is no identity;
   * otherwise the same request with X-User-Id and X-User-Role replaced by the
   * single values derived from the token, every other header as it was.
   */
  function Filter(req: Request, parseClaims: string -> Option<Claims>): (forwarded: Request)
    ensures Identity(req, parseClaims).None? ==> forwarded == req
    ensures forwarded.path == req.path
    ensures forall n :: n != UserIdHeader && n != RoleHeader ==>
      (n in forwarded.headers <==> n in req.headers) && (n in req.headers ==> forwarded.headers[n] == req.headers[n])
    ensures Identity(req, parseClaims).Some? ==>
      && UserIdHeader in forwarded.headers && RoleHeader in forwarded.headers
      && forwarded.headers[UserIdHeader] == [Identity(req, parseClaims).value.0]
      && forwarded.headers[RoleHeader] == [Identity(req, parseClaims).value.1]
  {
    match Identity(req, parseClaims)
    case None => req
    case Some((uid, role)) => req.(headers := req.headers[UserIdHeader := [uid]][RoleHeader := [role]])
  }

  /** Without an Authorization value starting with "Bearer " the request is forwarded unchanged. */
  lemma NoBearerPassesThrough(req: Request, parseClaims: string -> Option<Claims>)
    requires FirstHeader(req.headers, Authorization).None? ||
             !(|BearerPrefix| <= |FirstHeader(req.headers, Authorization).value| &&
               FirstHeader(req.headers, Authorization).value[..|BearerPrefix|] == BearerPrefix)
    ensures Filter(req, parseClaims) == req
  {
  }

  /**
   * With Authorization "Bearer " + t and a token t that parses to `claims`
   * whose uid and role (where present) are strings, X-User-Id is the uid
   * claim or "" and X-User-Role the role claim or "".
   */
  lemma ValidTokenRelaysClaims(req: Request, t: string, claims: Claims, parseClaims: string -> Option<Claims>)
    requires FirstHeader(req.headers, Authorization) == Some(BearerPrefix + t)
    requires parseClaims(t) == Some(claims)
    requires "uid" in claims ==> claims["uid"].Text?
    requires "role" in claims ==> claims["role"].Text?
    ensures Filter(req, parseClaims).headers[UserIdHeader] == [if "uid" in claims then claims["uid"].text else ""]
    ensures Filter(req, parseClaims).headers[RoleHeader] == [if "role" in claims then claims["role"].text else ""]
  {
    TokenOfBearer(t);
  }

  /**
   * A token that fails to parse, or whose uid or role claim is not a string,
   * lets the request through as it came, so a client-supplied X-User-Id
   * reaches the service untouched.
   */
  lemma InvalidTokenPassesThrough(req: Request, t: string, parseClaims: string -> Option<Claims>)
    requires FirstHeader(req.headers, Authorization) == Some(BearerPrefix + t)
    requires parseClaims(t).None? ||
             ("uid" in parseClaims(t).value && parseClaims(t).value["uid"].NonText?) ||
             ("role" in parseClaims(t).value && parseClaims(t).value["role"].NonText?)
    ensures Filter(req, parseClaims) == req
    ensures FirstHeader(Filter(req, parseClaims).headers, UserIdHeader) == FirstHeader(req.headers, UserIdHeader)
  {
    TokenOfBearer(t);
  }
}
