/** The two-step gate in front of the protected routes of server.js: `authenticateToken`
    (find the token in the Authorization header and verify it) then `authorize(roles)`. */
module Gate {
  import opened Common
  import opened Text
  import opened Schema
  import opened Token

  /** `authHeader && authHeader.split(' ')[1]`, kept only when truthy: the second
      space-separated field of the header, or None when the header, or that field, is
      missing or empty. */
  function ExtractToken(header: Option<string>): (r: Option<string>)
    ensures r.Some? ==> header.Some? && r.value != [] && ' ' !in r.value
    ensures r.Some? ==> |Split(header.value, ' ')| >= 2 && r.value == Split(header.value, ' ')[1]
    ensures header.Some? && |Split(header.value, ' ')| >= 2 && Split(header.value, ' ')[1] != [] ==>
      r == Some(Split(header.value, ' ')[1])
  {
    match header
    case None => None
    case Some(h) =>
      var fields := Split(h, ' ');
      if |fields| >= 2 && fields[1] != [] then (assert fields[1] in fields; Some(fields[1]))
      else None
  }

  /** Whatever the first word is (the scheme is not checked), a header `<word> <token>` yields
      the token. */
  lemma {:induction false} SecondField(scheme: string, token: string)
    requires ' ' !in scheme && ' ' !in token && token != []
    ensures ExtractToken(Some(scheme + " " + token)) == Some(token)
  {
    assert scheme + " " + token == scheme + [' '] + token;
    SplitAtFirstSeparator(scheme, ' ', token);
    SplitWithoutSeparator(token, ' ');
  }

  /** A header with no space, such as a bare `Bearer`, carries no token. */
  lemma {:induction false} NoSecondField(header: string)
    requires ' ' !in header
    ensures ExtractToken(Some(header)).None?
  {
    SplitWithoutSeparator(header, ' ');
  }

  /** `authenticateToken`: 401 with no token, 403 when the token does not verify, otherwise
      the decoded claims become the request's `req.user`. */
  function Authenticate(secret: nat, header: Option<string>): (r: Result<Claims>)
    ensures r == Err(Unauthorized) <==> ExtractToken(header).None?
    ensures r == Err(Forbidden) <==>
      ExtractToken(header).Some? && Verify(secret, ExtractToken(header).value).None?
    ensures r.Ok? ==> Verify(secret, ExtractToken(header).value) == Some(r.value)
  {
    match ExtractToken(header)
    case None => Err(Unauthorized)
    case Some(token) =>
      match Verify(secret, token)
      case None => Err(Forbidden)
      case Some(c) => Ok(c)
  }

  /** `authorize(roles)`: passes the request on exactly when the caller's role is listed. */
  function Authorize(roles: seq<Role>, c: Claims): (r: Result<Claims>)
    ensures r.Ok? <==> c.role in roles
    ensures r.Ok? ==> r.value == c
    ensures r.Err? ==> r.error == AccessDenied
  {
    if c.role in roles then Ok(c) else Err(AccessDenied)
  }

  /** `authenticateToken` followed by `authorize(roles)`. */
  function Admit(secret: nat, header: Option<string>, roles: seq<Role>): (r: Result<Claims>)
    ensures r.Ok? <==> Authenticate(secret, header).Ok? && Authenticate(secret, header).value.role in roles
    ensures r.Ok? ==> r == Authenticate(secret, header)
    ensures Authenticate(secret, header).Err? ==> r == Authenticate(secret, header)
  {
    match Authenticate(secret, header)
    case Err(e) => Err(e)
    case Ok(c) => Authorize(roles, c)
  }

  /** The header a page builds from its stored token. */
  function BearerHeader(token: string): string {
    "Bearer " + token
  }

  /** A token issued by register or login authenticates as exactly the claims it was signed with. */
  lemma AuthenticateIssued(secret: nat, c: Claims)
    ensures Authenticate(secret, Some(BearerHeader(Sign(secret, c)))) == Ok(c)
  {
    assert BearerHeader(Sign(secret, c)) == "Bearer" + " " + Sign(secret, c);
    SecondField("Bearer", Sign(secret, c));
    VerifySigned(secret, c);
  }

  /** A token issued under another secret is refused with 403, not 401. */
  lemma AuthenticateForeign(signer: nat, verifier: nat, c: Claims)
    requires signer != verifier
    ensures Authenticate(verifier, Some(BearerHeader(Sign(signer, c)))) == Err(Forbidden)
  {
    assert BearerHeader(Sign(signer, c)) == "Bearer" + " " + Sign(signer, c);
    SecondField("Bearer", Sign(signer, c));
    VerifyOtherSecret(signer, verifier, c);
  }

  /** A page with no stored token sends `Bearer null`: that is a 403, not a 401. */
  lemma AuthenticateNull(secret: nat)
    ensures Authenticate(secret, Some(BearerHeader("null"))) == Err(Forbidden)
  {
    assert BearerHeader("null") == "Bearer" + " " + "null";
    SecondField("Bearer", "null");
    NullDoesNotVerify(secret);
  }

  /** The admin-only routes: with no header the answer is 401; with an issued token it is
      admitted exactly for an admin, and any other role gets 403 'Access denied'. */
  lemma AdminOnly(secret: nat, c: Claims)
    ensures Admit(secret, None, [Admin]) == Err(Unauthorized)
    ensures Admit(secret, Some(BearerHeader(Sign(secret, c))), [Admin]) ==
      (if c.role == Admin then Ok(c) else Err(AccessDenied))
  {
    AuthenticateIssued(secret, c);
  }
}
