/** The `verifyJWT` guard. The bearer token is the Authorization header with
    its first "Bearer " removed (the header form of section 2.1 of RFC 6750);
    no header means no token. Signature checking is not modelled: the access
    tokens that verify under the access secret, with the claims they carry,
    form the map `accessKeys`. */
module AuthMiddleware {
  import opened Common
  import opened Collections
  import opened Models

  /** The claims of a verified token; only `_id` is read. */
  datatype Claims = Claims(id: string)

  /** `req.header("Authorization") && req.header("Authorization").replace("Bearer ", "")` */
  function BearerToken(header: Option<string>): (r: Option<Token>)
    ensures header.None? <==> r.None?
  {
    match header
    case None => None
    case Some(h) => Some(ReplaceFirst(h, "Bearer ", ""))
  }

  /** `jwt.verify`: the claims of a token that verifies; it throws on a
      missing or empty token and on one that does not verify. */
  function Verify(accessKeys: map<Token, Claims>, token: Option<Token>): (r: Option<Claims>)
    ensures r.Some? <==> token.Some? && token.value != "" && token.value in accessKeys
    ensures r.Some? ==> r.value == accessKeys[token.value]
  {
    if token.Some? && token.value != "" && token.value in accessKeys then Some(accessKeys[token.value]) else None
  }

  /** What the guard decides: the value `req.user` is given, or the error it throws. */
  function Authenticate(users: seq<User>, accessKeys: map<Token, Claims>, header: Option<string>)
      : (r: Result<Option<PublicUser>>)
    ensures r.Err? <==> Verify(accessKeys, BearerToken(header)).None?
    ensures r.Err? ==> r.error == ApiError(404, "Unauthorized access")
    ensures r.Ok? ==> r.value == LookupPublic(users, Verify(accessKeys, BearerToken(header)).value.id)
  {
    match Verify(accessKeys, BearerToken(header))
    case None => Err(ApiError(404, "Unauthorized access"))
    case Some(claims) => Ok(LookupPublic(users, claims.id))
  }

  /** A header of the form "Bearer <token>" carries exactly that token. */
  lemma BearerHeaderYieldsToken(t: Token)
    ensures BearerToken(Some("Bearer " + t)) == Some(t)
  {
    ReplaceFirstOfPrefix("Bearer ", t, "");
    assert "" + t == t;
  }

  /** A header without "Bearer " in it is taken as the token itself. */
  lemma BareHeaderIsToken(h: string)
    requires !Contains(h, "Bearer ")
    ensures BearerToken(Some(h)) == Some(h)
  {
    ReplaceFirstAbsent(h, "Bearer ", "");
  }

  /** Identity comes only from the decoded token: a bearer header for a token
      that verifies resolves to the user its `_id` claim names, with no
      password or refresh token; any other token is refused with 404. */
  lemma IdentityFromTokenOnly(users: seq<User>, accessKeys: map<Token, Claims>, t: Token)
    ensures var r := Authenticate(users, accessKeys, Some("Bearer " + t));
            (t != "" && t in accessKeys ==>
               r == Ok(LookupPublic(users, accessKeys[t].id))) &&
            (!(t != "" && t in accessKeys) ==> r == Err(ApiError(404, "Unauthorized access")))
  {
    BearerHeaderYieldsToken(t);
  }

  /** The request as the guard leaves it. */
  class Request {
    var user: Option<PublicUser>
    var nextCalled: bool

    constructor ()
      ensures user.None? && !nextCalled
    {
      user := None;
      nextCalled := false;
    }
  }

  /** `verifyJWT`. The lookup is not awaited, so the 401 branch for a missing
      user can never fire: a token that verifies always reaches `next`, with
      `req.user` set to the lookup result, which may be null. */
  method VerifyJwt(req: Request, users: seq<User>, accessKeys: map<Token, Claims>, header: Option<string>)
      returns (thrown: Option<Thrown>)
    modifies req
    ensures var a := Authenticate(users, accessKeys, header);
            (a.Err? ==> thrown == Some(a.error) && req.user == old(req.user) && req.nextCalled == old(req.nextCalled)) &&
            (a.Ok? ==> thrown.None? && req.user == a.value && req.nextCalled)
  {
    var token := BearerToken(header);
    var decoded := Verify(accessKeys, token);
    if decoded.None? {
      return Some(ApiError(404, "Unauthorized access"));
    }
    req.user := LookupPublic(users, decoded.value.id);
    req.nextCalled := true;
    return None;
  }
}
