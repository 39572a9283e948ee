/** internal/service_echo/auth.go: the claims of an issued token, sign-up,
    sign-in and the IsAuthorized filter in front of the task handlers.
    bcrypt and the JWT library are oracles: the service only ever sees their
    results. */
module Auth {
  import opened Wrappers
  import opened Strings
  import opened Types
  import opened Http
  import opened UserDb

  /** The lifetime of a token in seconds: a day. */
  const TokenExpirySec := 24 * 3600

  const AuthBearer := "Bearer"

  /** The claims of a token: the user's e-mail and the standard issued-at and
      expires-at times, in Unix seconds. */
  datatype Claims = Claims(email: string, issuedAt: int, expiresAt: int)

  /** What jwt.ParseWithClaims returns with the service's key function. */
  datatype ParseOutcome =
    | Parsed(claims: Claims, valid: bool)   // no error; `valid` is tkn.Valid
    | SignatureInvalid                      // the error is jwt.ErrSignatureInvalid
    | ParseFailed(message: string)          // any other error, the key function's refusal of a non-HMAC method among them

  /** The cryptographic libraries, as functions of their inputs:
      `hash` is bcrypt.GenerateFromPassword at the default cost, `matches`
      is a nil result of bcrypt.CompareHashAndPassword(hash, password),
      `sign` signs claims with HS256 under a key, and `parse` is
      ParseWithClaims of a token under a key at a clock reading. */
  datatype Crypto = Crypto(
    hash: string -> Result<string, string>,
    matches: (string, string) -> bool,
    sign: (string, Claims) -> Result<string, string>,
    parse: (string, string, int) -> ParseOutcome)

  /** The promises of the libraries that the end-to-end property relies on:
      a password matches its own hash, and a token signed under a key parses
      under that key, valid, with the signed claims, for as long as its
      claims are current; a compact JWT holds no spaces. */
  ghost predicate Sound(crypto: Crypto)
  {
    && (forall p :: crypto.hash(p).Success? ==> crypto.matches(crypto.hash(p).value, p))
    && (forall key, c :: crypto.sign(key, c).Success? ==> ' ' !in crypto.sign(key, c).value)
    && (forall key, c, now ::
          crypto.sign(key, c).Success? && c.issuedAt <= now <= c.expiresAt
          ==> crypto.parse(crypto.sign(key, c).value, key, now) == Parsed(c, true))
  }

  // ---------------------------------------------------------------------
  // Issuing tokens.

  /** The claims generateToken signs at clock reading `now`. */
  function NewClaims(email: string, now: int): Claims
  {
    Claims(email, now, now + TokenExpirySec)
  }

  /** generateToken: the HS256 token of the claims issued now for `email`. */
  function GenerateToken(email: string, signingKey: string, now: int, crypto: Crypto): Result<string, string>
  {
    crypto.sign(signingKey, NewClaims(email, now))
  }

  /** An issued token names its user, starts now and lives for exactly the
      `expires_in` that sign-in reports (a day, whatever the source's comment
      on the constant says). */
  lemma TokenLifetime(email: string, now: int)
    ensures NewClaims(email, now).email == email && NewClaims(email, now).issuedAt == now
    ensures NewClaims(email, now).expiresAt - NewClaims(email, now).issuedAt == TokenExpirySec == 86400
  {
  }

  // ---------------------------------------------------------------------
  // Sign-up and sign-in.

  /** The record signUp persists, or the error it returns before persisting
      anything: a bind failure and an invalid user are 400s, a hashing
      failure is passed up as it is. */
  function SignUpRecord(bound: Result<User, string>, crypto: Crypto): (r: Result<User, Error>)
    ensures bound.Failure? ==> r == Failure(BadRequest(bound.error))
    ensures bound.Success? && bound.value.Validate().Some?
            ==> r == Failure(BadRequest(bound.value.Validate().value))
    ensures bound.Success? && bound.value.Validate().None? && crypto.hash(bound.value.password).Failure?
            ==> r == Failure(Raw(crypto.hash(bound.value.password).error))
    ensures r.Success? <==> bound.Success? && bound.value.Validate().None? && crypto.hash(bound.value.password).Success?
    // what is stored is the hash of the password, never the password itself
    ensures r.Success? ==> r.value == bound.value.(password := crypto.hash(bound.value.password).value)
  {
    match bound
    case Failure(e) => Failure(BadRequest(e))
    case Success(req) =>
      match req.Validate()
      case Some(e) => Failure(BadRequest(e))
      case None =>
        match crypto.hash(req.password)
        case Failure(e) => Failure(Raw(e))
        case Success(hashed) => Success(req.(password := hashed))
  }

  const SignedUp := "Successfully signed up!"
  const IncorrectPassword := "incorrect password"

  /** signUp: bind, validate, hash, store. `bound` is the outcome of binding
      the request body. A stored user can be looked up by its e-mail at once,
      both for sign-in and for the id IsAuthorized needs. */
  method SignUp(bound: Result<User, string>, crypto: Crypto, users: UserStore) returns (reply: Reply)
    modifies users
    ensures SignUpRecord(bound, crypto).Failure? ==> reply == Fail(SignUpRecord(bound, crypto).error) && unchanged(users)
    ensures SignUpRecord(bound, crypto).Success? ==>
              var u := SignUpRecord(bound, crypto).value;
              var err := users.insertError(old(users.users), u);
              && (err.None? ==>
                    && reply == Ok(Message(MsgResp(SignedUp)))
                    && users.users == Inserted(old(users.users), u.email, u)
                    && users.ids == Inserted(old(users.ids), u.email, users.assignId(old(users.ids)))
                    && u.email in users.users && u.email in users.ids)
              && (err.Some? ==>
                    reply == Fail(Raw(err.value)) && users.users == old(users.users) && users.ids == old(users.ids))
    ensures old(users.Valid()) ==> users.Valid()
  {
    if bound.Failure? {
      return Fail(BadRequest(bound.error));
    }
    var req := bound.value;

    var invalid := req.Validate();
    if invalid.Some? {
      return Fail(BadRequest(invalid.value));
    }

    var hashed := crypto.hash(req.password);
    if hashed.Failure? {
      return Fail(Raw(hashed.error));
    }
    req := req.(password := hashed.value);

    var err := users.CreateUser(req);
    if err.Some? {
      return Fail(Raw(err.value));
    }
    return Ok(Message(MsgResp(SignedUp)));
  }

  /** signIn: look the user up by the e-mail of the request, compare the
      password with the stored hash, and issue a token for the stored e-mail.
      The token type is left empty. */
  function SignIn(bound: Result<User, string>, users: UserStore, signingKey: string, now: int, crypto: Crypto): (r: Reply)
    reads users
    ensures bound.Failure? ==> r == Fail(BadRequest(bound.error))
    ensures bound.Success? && users.GetUser(bound.value.email).Failure? ==> r == Fail(users.GetUser(bound.value.email).error)
    // a wrong password is a 400 carrying the message record
    ensures bound.Success? && bound.value.email in users.users
            && !crypto.matches(users.users[bound.value.email].password, bound.value.password)
            ==> r == Fail(HttpError(StatusBadRequest, Body(MsgResp(IncorrectPassword))))
    // a matching password gets the stored e-mail's token, or the signing error
    ensures bound.Success? && bound.value.email in users.users
            && crypto.matches(users.users[bound.value.email].password, bound.value.password) ==>
              var token := GenerateToken(users.users[bound.value.email].email, signingKey, now, crypto);
              && (token.Success? ==> r == Ok(TokenJson(Token("", TokenExpirySec, token.value))))
              && (token.Failure? ==> r == Fail(Raw(token.error)))
    ensures r.Ok? ==> bound.Success? && bound.value.email in users.users
    ensures r.Ok? ==> crypto.matches(users.users[bound.value.email].password, bound.value.password)
    ensures r.Ok? ==> r.body.TokenJson? && r.body.token.tokenType == "" && r.body.token.expiresIn == TokenExpirySec
    ensures r.Ok? ==> Success(r.body.token.jwtToken)
                      == GenerateToken(users.users[bound.value.email].email, signingKey, now, crypto)
  {
    match bound
    case Failure(e) => Fail(BadRequest(e))
    case Success(req) =>
      match users.GetUser(req.email)
      case Failure(e) => Fail(e)
      case Success(user) =>
        if !crypto.matches(user.password, req.password) then
          Fail(HttpError(StatusBadRequest, Body(MsgResp(IncorrectPassword))))
        else
          match GenerateToken(user.email, signingKey, now, crypto)
          case Failure(e) => Fail(Raw(e))
          case Success(token) => Ok(TokenJson(Token("", TokenExpirySec, token)))
  }

  // ---------------------------------------------------------------------
  // The authorization filter.

  /** The token IsAuthorized hands to the parser: the header after its
      six-character "Bearer" prefix, spaces cut from both ends. */
  function BearerToken(header: string): string
    requires HasPrefix(header, AuthBearer)
  {
    Trim(header[|AuthBearer|..])
  }

  /** What IsAuthorized decides for a request. */
  datatype Decision = Admit(context: SecurityContext) | Reject(error: Error)

  /** The decision of IsAuthorized on the Authorization header `header` at
      clock reading `now`. */
  function Authorize(header: string, signingKey: string, now: int, crypto: Crypto, users: UserStore): Decision
    reads users
  {
    if !HasPrefix(header, AuthBearer) then Reject(HttpError(StatusUnauthorized, StatusText))
    else
      match crypto.parse(BearerToken(header), signingKey, now)
      case SignatureInvalid => Reject(HttpError(StatusUnauthorized, StatusText))
      case ParseFailed(_) => Reject(HttpError(StatusBadRequest, StatusText))
      case Parsed(claims, valid) =>
        if !valid then Reject(HttpError(StatusUnauthorized, StatusText))
        else
          match users.GetUserID(claims.email)
          case Failure(e) => Reject(e)
          case Success(id) => Admit(SecurityContext(claims.email, id))
  }

  /** A request gets through exactly when its header starts with "Bearer" and
      the token after it parses, valid, into claims whose e-mail has an id;
      it is then authenticated as that e-mail and that id. */
  lemma AdmitIff(header: string, signingKey: string, now: int, crypto: Crypto, users: UserStore)
    ensures Authorize(header, signingKey, now, crypto, users).Admit?
            <==> HasPrefix(header, AuthBearer)
                 && crypto.parse(BearerToken(header), signingKey, now).Parsed?
                 && crypto.parse(BearerToken(header), signingKey, now).valid
                 && crypto.parse(BearerToken(header), signingKey, now).claims.email in users.ids
    ensures Authorize(header, signingKey, now, crypto, users).Admit? ==>
              var email := crypto.parse(BearerToken(header), signingKey, now).claims.email;
              Authorize(header, signingKey, now, crypto, users).context == SecurityContext(email, users.ids[email])
  {
  }

  /** The status of each refusal: no "Bearer" prefix, an invalid signature
      and a parsed but invalid token are 401s, any other parse error is a
      400, and a failed id lookup is passed up unchanged. */
  lemma RejectStatuses(header: string, signingKey: string, now: int, crypto: Crypto, users: UserStore)
    ensures !HasPrefix(header, AuthBearer)
            ==> Authorize(header, signingKey, now, crypto, users) == Reject(HttpError(StatusUnauthorized, StatusText))
    ensures HasPrefix(header, AuthBearer) ==>
              var outcome := crypto.parse(BearerToken(header), signingKey, now);
              && (outcome.SignatureInvalid? || (outcome.Parsed? && !outcome.valid)
                  ==> Authorize(header, signingKey, now, crypto, users) == Reject(HttpError(StatusUnauthorized, StatusText)))
              && (outcome.ParseFailed?
                  ==> Authorize(header, signingKey, now, crypto, users) == Reject(HttpError(StatusBadRequest, StatusText)))
              && (outcome.Parsed? && outcome.valid && users.GetUserID(outcome.claims.email).Failure?
                  ==> Authorize(header, signingKey, now, crypto, users) == Reject(users.GetUserID(outcome.claims.email).error))
  {
  }

  /** The parser receives the token however many spaces surround it, and no
      space is needed after "Bearer" at all. */
  lemma {:induction false} BearerTokenPadded(left: nat, token: string, right: nat)
    requires token == [] || (token[0] != ' ' && token[|token| - 1] != ' ')
    ensures HasPrefix(AuthBearer + Spaces(left) + token + Spaces(right), AuthBearer)
    ensures BearerToken(AuthBearer + Spaces(left) + token + Spaces(right)) == token
  {
    var header := AuthBearer + Spaces(left) + token + Spaces(right);
    assert header[..|AuthBearer|] == AuthBearer;
    assert header[|AuthBearer|..] == Spaces(left) + token + Spaces(right);
    TrimPadded(left, token, right);
  }

  /** The handler IsAuthorized wraps, as far as the filter can observe it:
      the security contexts of the requests it was given, and its reply. */
  class Handler {
    var calls: seq<SecurityContext>
    const reply: SecurityContext -> Reply

    constructor (reply: SecurityContext -> Reply)
      ensures calls == [] && this.reply == reply
    {
      calls := [];
      this.reply := reply;
    }

    /** Serving a request needs its security context. */
    method Serve(c: Context) returns (r: Reply)
      requires c.security.Some?
      modifies this
      ensures calls == old(calls) + [c.security.value]
      ensures r == reply(c.security.value)
    {
      calls := calls + [c.security.value];
      r := reply(c.security.value);
    }
  }

  /** IsAuthorized(next) serving request `c` at clock reading `now`: a
      refused request is answered with its error, leaving the context unset
      and `next` uncalled; an admitted one gets its security context set
      and is answered by `next`, whose reply is returned unchanged. */
  method IsAuthorized(c: Context, signingKey: string, now: int, crypto: Crypto, users: UserStore, next: Handler)
    returns (reply: Reply)
    modifies c, next
    ensures Authorize(c.authorization, signingKey, now, crypto, users).Reject? ==>
              && reply == Fail(Authorize(c.authorization, signingKey, now, crypto, users).error)
              && c.security == old(c.security) && next.calls == old(next.calls)
    ensures Authorize(c.authorization, signingKey, now, crypto, users).Admit? ==>
              var sc := Authorize(c.authorization, signingKey, now, crypto, users).context;
              && c.security == Some(sc)
              && next.calls == old(next.calls) + [sc]
              && reply == next.reply(sc)
  {
    var h := c.authorization;

    if !HasPrefix(h, AuthBearer) {
      return Fail(HttpError(StatusUnauthorized, StatusText));
    }

    var authToken := Trim(h[|AuthBearer|..]);

    var outcome := crypto.parse(authToken, signingKey, now);
    if !outcome.Parsed? {
      if outcome.SignatureInvalid? {
        return Fail(HttpError(StatusUnauthorized, StatusText));
      }
      return Fail(HttpError(StatusBadRequest, StatusText));
    }

    if !outcome.valid {
      return Fail(HttpError(StatusUnauthorized, StatusText));
    }

    var userID := users.GetUserID(outcome.claims.email);
    if userID.Failure? {
      return Fail(userID.error);
    }

    c.security := Some(SecurityContext(outcome.claims.email, userID.value));
    reply := next.Serve(c);
  }

  // ---------------------------------------------------------------------
  // Round trips through sign-up, sign-in and the filter.

  /** A password that was signed up with signs in: the stored hash matches
      it, and sign-in issues the token of the stored e-mail. */
  lemma SignInAfterSignUp(signUp: User, password: string, users: UserStore, signingKey: string, now: int, crypto: Crypto)
    requires Sound(crypto)
    requires SignUpRecord(Success(signUp), crypto).Success?
    requires var u := SignUpRecord(Success(signUp), crypto).value; u.email in users.users && users.users[u.email] == u
    requires password == signUp.password
    requires GenerateToken(signUp.email, signingKey, now, crypto).Success?
    ensures SignIn(Success(User(signUp.email, "", password)), users, signingKey, now, crypto)
            == Ok(TokenJson(Token("", TokenExpirySec, GenerateToken(signUp.email, signingKey, now, crypto).value)))
  {
  }

  /** A token that sign-in issued, sent back as a bearer token while its
      claims are current, authenticates the user it was issued to. */
  lemma SignedInIsAuthorized(
    bound: Result<User, string>, users: UserStore, signingKey: string, issued: int, now: int, crypto: Crypto,
    left: nat, right: nat)
    requires Sound(crypto) && users.Valid()
    requires SignIn(bound, users, signingKey, issued, crypto).Ok?
    requires issued <= now <= issued + TokenExpirySec
    ensures bound.Success? && bound.value.email in users.ids
    ensures var token := SignIn(bound, users, signingKey, issued, crypto).body.token.jwtToken;
            Authorize(AuthBearer + Spaces(left) + token + Spaces(right), signingKey, now, crypto, users)
            == Admit(SecurityContext(bound.value.email, users.ids[bound.value.email]))
  {
    var email := bound.value.email;
    var token := SignIn(bound, users, signingKey, issued, crypto).body.token.jwtToken;
    var claims := NewClaims(email, issued);
    assert users.users[email].email == email;
    assert crypto.sign(signingKey, claims) == Success(token);
    assert ' ' !in token;
    if token != [] {
      assert token[0] in token && token[|token| - 1] in token;
    }
    BearerTokenPadded(left, token, right);
    assert crypto.parse(token, signingKey, now) == Parsed(claims, true);
  }
}
