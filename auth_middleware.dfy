/** The request guards: `authRequired` reads a bearer token and admits the
    seller and client roles only; `requireRole` admits the listed roles. Token
    verification is a parameter. */
module AuthMiddleware {
  import opened Js

  /** The verified token payload `{ id, role }`. */
  datatype Payload = Payload(id: nat, role: string)

  /** A guard either rejects with a status and message or calls `next` with the
      request's user. */
  datatype Outcome = Reject(code: int, message: string) | Next(user: Payload)

  const BearerPrefix := "Bearer "
  const AllowedRoles: seq<string> := ["seller", "client"]

  predicate StartsWith(s: string, prefix: string) {
    |prefix| <= |s| && s[..|prefix|] == prefix
  }

  /** `authHeader.substring(7)`. */
  function TokenOf(header: string): string
    requires StartsWith(header, BearerPrefix)
  {
    header[7..]
  }

  /** `authRequired`: missing or non-bearer header 401, unverifiable token 401, a
      role other than seller or client 403, else `next` with the payload.
      `verify` is `jwt.verify` with the server secret: None when it throws. */
  function AuthRequired(header: Option<string>, verify: string -> Option<Payload>): (r: Outcome)
    ensures r == Reject(401, "Token manquant") <==> header.None? || !StartsWith(header.value, BearerPrefix)
    ensures r == Reject(401, "Token invalide") <==>
      header.Some? && StartsWith(header.value, BearerPrefix) && verify(TokenOf(header.value)).None?
    ensures r.Reject? && r.code == 403 <==>
      && header.Some? && StartsWith(header.value, BearerPrefix)
      && verify(TokenOf(header.value)).Some? && verify(TokenOf(header.value)).value.role !in AllowedRoles
    ensures r.Next? ==>
      && header.Some? && StartsWith(header.value, BearerPrefix)
      && verify(TokenOf(header.value)) == Some(r.user) && r.user.role in AllowedRoles
  {
    if header.None? || !StartsWith(header.value, BearerPrefix) then Reject(401, "Token manquant")
    else
      var token := TokenOf(header.value);
      match verify(token)
      case None => Reject(401, "Token invalide")
      case Some(payload) =>
        if payload.role !in AllowedRoles then Reject(403, "Accès refusé") else Next(payload)
  }

  /** `requireRole(...roles)`: admits a request iff it has a user whose role is listed. */
  function RequireRole(roles: seq<string>, user: Option<Payload>): (r: Outcome)
    ensures r.Next? <==> user.Some? && user.value.role in roles
    ensures r.Next? ==> r.user == user.value
    ensures r.Reject? ==> r == Reject(403, "Accès refusé")
  {
    if user.None? || user.value.role !in roles then Reject(403, "Accès refusé") else Next(user.value)
  }

  /** Two guards in a row: the second runs only when the first calls `next`. */
  function Then(first: Outcome, roles: seq<string>): Outcome {
    match first
    case Reject(_, _) => first
    case Next(user) => RequireRole(roles, Some(user))
  }

  /** The header `jsonHeaders` sends gives back exactly the token it carries. */
  lemma BearerRoundTrip(token: string)
    ensures StartsWith(BearerPrefix + token, BearerPrefix)
    ensures TokenOf(BearerPrefix + token) == token
  {
    assert (BearerPrefix + token)[..|BearerPrefix|] == BearerPrefix;
  }

  /** Behind `authRequired`, `requireRole("pro", "admin")` admits no request at all:
      the first guard passes only seller and client users. */
  lemma ProOrAdminUnreachable(header: Option<string>, verify: string -> Option<Payload>)
    ensures Then(AuthRequired(header, verify), ["pro", "admin"]).Reject?
  {
  }

  /** A token issued for a buyer or pro account is refused with 403. */
  lemma RegisteredRolesRefused(token: string, verify: string -> Option<Payload>, id: nat, role: string)
    requires role == "buyer" || role == "pro"
    requires verify(token) == Some(Payload(id, role))
    ensures AuthRequired(Some(BearerPrefix + token), verify) == Reject(403, "Accès refusé")
  {
    BearerRoundTrip(token);
  }

  /** A well-formed bearer header for a token verifying to a seller or client passes. */
  lemma SellerOrClientAdmitted(token: string, verify: string -> Option<Payload>, p: Payload)
    requires verify(token) == Some(p) && p.role in AllowedRoles
    ensures AuthRequired(Some(BearerPrefix + token), verify) == Next(p)
  {
    BearerRoundTrip(token);
  }
}
