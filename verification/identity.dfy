/**
 * The identity gate of the protected routes: the bearer token is the second
 * space-separated piece of the `Authorization` header, and the identity
 * provider resolves it to a user. The scheme word is never looked at.
 */
module Identity {
  import opened Wrappers
  import opened Text
  import opened Entities
  import opened Http

  /** The identity provider's token check: the user a token belongs to, if any. */
  type IdentityProvider = string -> Option<User>

  const TokenRequired: string := "Authorization token required"
  const TokenInvalid: string := "Invalid or expired token"

  /** `header?.split(' ')[1]`, treating an empty piece as absent. */
  function BearerToken(header: Option<string>): (token: Option<string>)
    ensures token.Some? ==> token.value != "" && ' ' !in token.value
  {
    match header
    case None => None
    case Some(h) =>
      var parts := Split(h, ' ');
      if |parts| >= 2 && parts[1] != "" then Some(parts[1]) else None
  }

  /**
   * `h` reads `<scheme> <token><rest>`: a space-free scheme word, one space,
   * a non-empty space-free token, then nothing or a space-led remainder.
   */
  predicate HeaderShape(h: string, scheme: string, token: string, rest: string) {
    && ' ' !in scheme
    && token != "" && ' ' !in token
    && (rest == "" || rest[0] == ' ')
    && h == scheme + " " + token + rest
  }

  /** The first piece of `<token><rest>` is the token when `rest` is empty or starts with a space. */
  lemma FirstPieceIsToken(token: string, rest: string)
    requires ' ' !in token
    requires rest == "" || rest[0] == ' '
    ensures Split(token + rest, ' ')[0] == token
  {
    if rest == "" {
      assert token + rest == token;
    } else {
      assert token + rest == token + [' '] + rest[1..];
      SplitAfterFree(token, ' ', rest[1..]);
    }
  }

  lemma ShapeYieldsToken(h: string, scheme: string, token: string, rest: string)
    requires HeaderShape(h, scheme, token, rest)
    ensures BearerToken(Some(h)) == Some(token)
  {
    var tail := token + rest;
    assert h == scheme + [' '] + tail;
    SplitAfterFree(scheme, ' ', tail);
    FirstPieceIsToken(token, rest);
    var parts := Split(h, ' ');
    assert parts == [scheme] + Split(tail, ' ');
    assert parts[1] == token;
  }

  lemma TokenHasShape(h: string)
    requires BearerToken(Some(h)).Some?
    ensures exists scheme, rest :: HeaderShape(h, scheme, BearerToken(Some(h)).value, rest)
  {
    var parts := Split(h, ' ');
    assert parts[1..][0] == parts[1];
    var rest := if |parts| > 2 then " " + Join(parts[2..], ' ') else "";
    if |parts| > 2 {
      assert parts[1..][1..] == parts[2..];
    }
    assert Join(parts[1..], ' ') == parts[1] + rest;
    assert HeaderShape(h, parts[0], parts[1], rest);
  }

  /**
   * The token extracted from `h` is `token` exactly when `h` has the shape
   * `<scheme> <token>` optionally followed by a space and anything.
   */
  lemma BearerTokenCharacterized(h: string, token: string)
    ensures BearerToken(Some(h)) == Some(token) <==> exists scheme, rest :: HeaderShape(h, scheme, token, rest)
  {
    if BearerToken(Some(h)) == Some(token) {
      TokenHasShape(h);
    }
    if exists scheme, rest :: HeaderShape(h, scheme, token, rest) {
      var scheme, rest :| HeaderShape(h, scheme, token, rest);
      ShapeYieldsToken(h, scheme, token, rest);
    }
  }

  /** `Bearer <token>` and any other scheme word give back the token. */
  lemma AnySchemeAccepted(scheme: string, token: string)
    requires ' ' !in scheme && token != "" && ' ' !in token
    ensures BearerToken(Some(scheme + " " + token)) == Some(token)
  {
  }

  /** The outcome of the identity gate. */
  datatype Auth = Authenticated(user: User) | NoToken | BadToken

  /** Extracts the token and asks the identity provider about it. */
  function Authenticate(header: Option<string>, idp: IdentityProvider): (a: Auth)
    ensures a.NoToken? <==> BearerToken(header).None?
    ensures a.Authenticated? <==> BearerToken(header).Some? && idp(BearerToken(header).value).Some?
    ensures a.Authenticated? ==> idp(BearerToken(header).value) == Some(a.user)
  {
    match BearerToken(header)
    case None => NoToken
    case Some(token) =>
      match idp(token)
      case None => BadToken
      case Some(user) => Authenticated(user)
  }

  /** The 401 of a protected route whose gate did not let the caller through. */
  function Unauthorized(a: Auth): (r: Response)
    requires !a.Authenticated?
    ensures r.status == StatusUnauthorized && r.body.ErrorBody?
    ensures r.body.error == TokenRequired <==> a.NoToken?
    ensures r.body.error == TokenInvalid <==> a.BadToken?
  {
    if a.NoToken? then Fail(StatusUnauthorized, TokenRequired) else Fail(StatusUnauthorized, TokenInvalid)
  }

  /** `GET /profile`: the caller's identity, or 401. */
  function Profile(header: Option<string>, idp: IdentityProvider): (r: Response)
    ensures r.status == StatusOk || r.status == StatusUnauthorized
    ensures r.status == StatusOk <==> Authenticate(header, idp).Authenticated?
    ensures r.status == StatusOk ==>
      var u := Authenticate(header, idp).user;
      r.body == ProfileBody(u.id, u.email, u.name)
    ensures BearerToken(header).None? ==> r == Fail(StatusUnauthorized, TokenRequired)
    ensures r.status != StatusOk ==> r == Unauthorized(Authenticate(header, idp))
  {
    match Authenticate(header, idp)
    case Authenticated(u) => Reply(ProfileBody(u.id, u.email, u.name))
    case other => Unauthorized(other)
  }
}
