/** Authentication on the backend (backend/auth.go): the bearer-header
    check, the admin gate, password comparison, token claims, and the
    register / login / me handlers. bcrypt, JWT signing and validation and
    the user table are oracles whose answers are parameters. */
module Auth {
  import opened Common
  import opened Types
  import opened Http

  // ---- strings.Split(s, " ") ----------------------------------------------

  /** `strings.Split(s, " ")`: the pieces between single blanks; an empty
      string gives one empty piece, and adjacent blanks give empty pieces. */
  function Split(s: string): (parts: seq<string>)
    ensures |parts| >= 1
    ensures forall k :: 0 <= k < |parts| ==> ' ' !in parts[k]
  {
    if s == [] then [""]
    else
      var rest := Split(s[1..]);
      if s[0] == ' ' then [""] + rest
      else [[s[0]] + rest[0]] + rest[1..]
  }

  /** `strings.Join(parts, " ")`. */
  function Join(parts: seq<string>): string
    requires |parts| >= 1
  {
    if |parts| == 1 then parts[0] else parts[0] + " " + Join(parts[1..])
  }

  /** Splitting loses nothing: joining the pieces gives the input back. */
  lemma {:induction false} JoinSplit(s: string)
    ensures Join(Split(s)) == s
  {
    if s != [] {
      var rest := Split(s[1..]);
      JoinSplit(s[1..]);
      if s[0] == ' ' {
        assert Split(s) == [""] + rest;
        assert ([""] + rest)[1..] == rest;
        assert Join(Split(s)) == "" + " " + Join(rest);
        assert s == [s[0]] + s[1..];
      } else {
        var parts := [[s[0]] + rest[0]] + rest[1..];
        assert Split(s) == parts;
        if |rest| == 1 {
          assert Join(parts) == [s[0]] + rest[0];
        } else {
          assert parts[1..] == rest[1..];
          assert Join(parts) == [s[0]] + rest[0] + " " + Join(rest[1..]);
          assert Join(rest) == rest[0] + " " + Join(rest[1..]);
        }
        assert s == [s[0]] + s[1..];
      }
    }
  }

  /** A word without blanks followed by a blank splits off as one piece. */
  lemma {:induction false} SplitWord(w: string, rest: string)
    requires ' ' !in w
    ensures Split(w + " " + rest) == [w] + Split(rest)
  {
    if w == [] {
      assert w + " " + rest == [' '] + rest;
      assert ([' '] + rest)[1..] == rest;
    } else {
      var s := w + " " + rest;
      assert s[0] == w[0] && s[1..] == w[1..] + " " + rest;
      SplitWord(w[1..], rest);
      assert w == [w[0]] + w[1..];
    }
  }

  /** A string without blanks is a single piece. */
  lemma {:induction false} SplitNoBlank(w: string)
    requires ' ' !in w
    ensures Split(w) == [w]
  {
    if w != [] {
      SplitNoBlank(w[1..]);
      assert w == [w[0]] + w[1..];
    }
  }

  // ---- authMiddleware / adminMiddleware -----------------------------------

  /** The middleware's verdict: reject with a status, or go on with claims. */
  datatype Gate = Deny(code: int, message: string) | Pass(claims: Claims)

  /** The first two steps of `authMiddleware`: the header must be present,
      and must split into exactly `Bearer` and one more piece. */
  datatype HeaderCheck = HeaderRejected(code: int, message: string) | BearerToken(token: string)

  function ParseAuthHeader(header: string): (r: HeaderCheck)
    ensures header == "" <==> r == HeaderRejected(StatusUnauthorized, "Authorization header required")
    ensures r.HeaderRejected? && header != "" ==> r == HeaderRejected(StatusUnauthorized, "Invalid authorization header")
    ensures r.BearerToken? ==> ' ' !in r.token
  {
    if header == "" then HeaderRejected(StatusUnauthorized, "Authorization header required")
    else
      var parts := Split(header);
      if |parts| != 2 || parts[0] != "Bearer" then HeaderRejected(StatusUnauthorized, "Invalid authorization header")
      else BearerToken(parts[1])
  }

  /** A header is accepted with token `t` exactly when it is `"Bearer "`
      followed by `t`, and `t` has no blank. */
  lemma BearerAcceptedIff(header: string, t: string)
    ensures ParseAuthHeader(header) == BearerToken(t) <==> header == "Bearer " + t && ' ' !in t
  {
    if header == "Bearer " + t && ' ' !in t {
      assert header == "Bearer" + " " + t;
      SplitWord("Bearer", t);
      SplitNoBlank(t);
      assert Split(header) == ["Bearer", t];
    }
    if ParseAuthHeader(header) == BearerToken(t) {
      var parts := Split(header);
      JoinSplit(header);
      assert parts == [parts[0], parts[1]];
      assert Join(parts) == parts[0] + " " + Join(parts[1..]);
      assert parts[1..] == [t];
    }
  }

  /** A lower-case scheme is rejected. */
  lemma RejectsLowerCaseScheme()
    ensures ParseAuthHeader("bearer x") == HeaderRejected(StatusUnauthorized, "Invalid authorization header")
  {
    SplitNoBlank("x");
    assert "bearer x" == "bearer" + " " + "x";
    SplitWord("bearer", "x");
  }

  /** A scheme without a token is rejected. */
  lemma RejectsMissingToken()
    ensures ParseAuthHeader("Bearer") == HeaderRejected(StatusUnauthorized, "Invalid authorization header")
  {
    SplitNoBlank("Bearer");
  }

  /** A token with a blank in it is rejected. */
  lemma RejectsExtraPiece()
    ensures ParseAuthHeader("Bearer a b") == HeaderRejected(StatusUnauthorized, "Invalid authorization header")
  {
    SplitNoBlank("b");
    assert "a b" == "a" + " " + "b";
    SplitWord("a", "b");
    assert "Bearer a b" == "Bearer" + " " + "a b";
    SplitWord("Bearer", "a b");
  }

  /** `"Bearer "` passes, handing an empty token to validation. */
  lemma AcceptsEmptyToken()
    ensures ParseAuthHeader("Bearer ") == BearerToken("")
  {
    assert "Bearer " == "Bearer" + " " + "";
    SplitWord("Bearer", "");
  }

  /** `authMiddleware`, with `validateToken` as an oracle. */
  function AuthMiddleware(header: string, validate: string -> Option<Claims>): (g: Gate)
    ensures header == "" ==> g == Deny(StatusUnauthorized, "Authorization header required")
    ensures g.Pass? <==> exists t :: header == "Bearer " + t && ' ' !in t && validate(t).Some?
    ensures g.Deny? ==> g.code == StatusUnauthorized
    ensures forall t :: header == "Bearer " + t && ' ' !in t ==>
      g == (if validate(t).None? then Deny(StatusUnauthorized, "Invalid token") else Pass(validate(t).value))
  {
    match ParseAuthHeader(header)
    case HeaderRejected(code, message) =>
      assert forall t :: header == "Bearer " + t && ' ' !in t ==> false by {
        forall t | header == "Bearer " + t && ' ' !in t ensures false {
          BearerAcceptedIff(header, t);
        }
      }
      Deny(code, message)
    case BearerToken(t) =>
      BearerAcceptedIff(header, t);
      assert forall t' :: header == "Bearer " + t' && ' ' !in t' ==> t' == t by {
        forall t' | header == "Bearer " + t' && ' ' !in t' ensures t' == t {
          BearerAcceptedIff(header, t');
        }
      }
      match validate(t)
      case None => Deny(StatusUnauthorized, "Invalid token")
      case Some(claims) => Pass(claims)
  }

  /** `adminMiddleware`: claims must be present and carry the admin role. */
  function AdminMiddleware(claims: Option<Claims>): (g: Gate)
    ensures g.Pass? <==> claims.Some? && claims.value.role == Admin
    ensures g.Deny? ==> g == Deny(StatusForbidden, "Admin access required")
    ensures g.Pass? ==> g.claims == claims.value
  {
    if claims.None? || claims.value.role != Admin then Deny(StatusForbidden, "Admin access required")
    else Pass(claims.value)
  }

  // ---- Passwords and tokens -----------------------------------------------

  /** What `bcrypt.CompareHashAndPassword` reported. */
  datatype Comparison = Same | Mismatched | CompareFailed(error: string)

  datatype PasswordCheck = PasswordCheck(matched: bool, error: Option<string>)

  /** `checkPassword`: a mismatch is not an error, any other failure is. */
  function CheckPassword(cmp: Comparison): (r: PasswordCheck)
    ensures r.matched <==> cmp.Same?
    ensures r.error.Some? <==> cmp.CompareFailed?
    ensures r.error.Some? ==> !r.matched
  {
    match cmp
    case Same => PasswordCheck(true, None)
    case Mismatched => PasswordCheck(false, None)
    case CompareFailed(e) => PasswordCheck(false, Some(e))
  }

  /** bcrypt cost used by `hashPassword`. */
  const BcryptCost: int := 14

  /** Token lifetime: four hours, in seconds. */
  const TokenLifetime: int := 4 * 60 * 60

  /** The two clock readings `generateToken` takes, the expiry's first,
      each in whole seconds as `jwt.NewNumericDate` truncates them. */
  datatype ClockReads = ClockReads(expRead: int, iatRead: int)

  /** The claims `generateToken` signs for a user. */
  function TokenClaims(user: User, clock: ClockReads): (c: Claims)
    ensures c.expiresAt == clock.expRead + TokenLifetime && c.issuedAt == clock.iatRead
    ensures c.userId == user.id && c.email == user.email && c.role == user.role
  {
    Claims(user.id, user.email, user.role, clock.iatRead, clock.expRead + TokenLifetime)
  }

  /** With a clock that does not run backwards the token lives at most four
      hours; it is one second short when the two readings straddle a second. */
  lemma TokenLifetimeWindow(user: User, clock: ClockReads)
    requires clock.expRead <= clock.iatRead
    ensures TokenClaims(user, clock).expiresAt - TokenClaims(user, clock).issuedAt <= 14400
    ensures clock.iatRead == clock.expRead ==>
      TokenClaims(user, clock).expiresAt - TokenClaims(user, clock).issuedAt == 14400
    ensures clock.iatRead == clock.expRead + 1 ==>
      TokenClaims(user, clock).expiresAt - TokenClaims(user, clock).issuedAt == 14399
  {
  }

  // ---- Handlers -----------------------------------------------------------

  /** `registerHandler`. `existing` is what the e-mail lookup returned (its
      error is discarded, so a failed lookup reads as no user); `hash`,
      `count`, `createdId` and `sign` are the hashing, counting, insert and
      signing oracles, `None` meaning that step failed. */
  method RegisterHandler(
    decoded: Option<RegisterRequest>,
    existing: Option<User>,
    hash: Option<string>,
    count: Option<int>,
    createdId: Option<int>,
    clock: ClockReads,
    sign: Claims -> Option<string>)
    returns (reply: Reply<AuthResponse>)
    ensures decoded.None? ==> reply == HttpError(StatusBadRequest, "Invalid request body")
    ensures decoded.Some? && (decoded.value.email == "" || decoded.value.password == "" || decoded.value.name == "") ==>
      reply == HttpError(StatusBadRequest, "Email, password, and name are required")
    ensures decoded.Some? && decoded.value.email != "" && decoded.value.password != "" && decoded.value.name != "" ==>
      (existing.Some? <==> reply == HttpError(StatusConflict, "Email already registered"))
    ensures reply.Json? ==>
      decoded.Some? && existing.None? && hash.Some? && createdId.Some? &&
      reply.code == StatusCreated &&
      reply.body.user == User(createdId.value, decoded.value.email, "", reply.body.user.role, decoded.value.name) &&
      (reply.body.user.role == Admin <==> count == Some(0)) &&
      IsDocumentedRole(reply.body.user.role) &&
      Some(reply.body.token) == sign(TokenClaims(reply.body.user.(password := hash.value), clock)) &&
      "password" !in UserJsonKeys(reply.body.user)
    ensures (decoded.Some? && decoded.value.email != "" && decoded.value.password != "" && decoded.value.name != "" &&
      existing.None? && hash.Some? && createdId.Some?) ==>
      (reply.Json? <==> sign(TokenClaims(User(createdId.value, decoded.value.email, hash.value,
                                               if count == Some(0) then Admin else Customer, decoded.value.name), clock)).Some?)
  {
    if decoded.None? {
      return HttpError(StatusBadRequest, "Invalid request body");
    }
    var req := decoded.value;
    if req.email == "" || req.password == "" || req.name == "" {
      return HttpError(StatusBadRequest, "Email, password, and name are required");
    }
    if existing.Some? {
      return HttpError(StatusConflict, "Email already registered");
    }
    if hash.None? {
      return HttpError(StatusInternalServerError, "Failed to process password");
    }
    var role := Customer;
    if count.Some? && count.value == 0 {
      role := Admin;
    }
    var user := User(0, req.email, hash.value, role, req.name);
    if createdId.None? {
      return HttpError(StatusInternalServerError, "Failed to create user");
    }
    user := user.(id := createdId.value);
    var token := sign(TokenClaims(user, clock));
    if token.None? {
      return HttpError(StatusInternalServerError, "Failed to generate token");
    }
    user := user.(password := "");
    reply := Json(StatusCreated, AuthResponse(token.value, user));
  }

  /** What the user lookup by e-mail or id returned; any error reads as no user. */
  type Lookup = Option<User>

  /** `loginHandler`. */
  function LoginHandler(
    decoded: Option<LoginRequest>,
    found: Lookup,
    cmp: Comparison,
    clock: ClockReads,
    sign: Claims -> Option<string>): (reply: Reply<AuthResponse>)
    ensures decoded.Some? && decoded.value.email != "" && decoded.value.password != "" && found.Some? ==>
      (reply.Json? <==> cmp.Same? && sign(TokenClaims(found.value, clock)).Some?)
    ensures reply.Json? ==>
      reply.code == StatusOK && found.Some? &&
      reply.body.user == WithoutPassword(found.value) &&
      Some(reply.body.token) == sign(TokenClaims(found.value, clock)) &&
      "password" !in UserJsonKeys(reply.body.user)
    ensures decoded.Some? && decoded.value.email != "" && decoded.value.password != "" && found.Some? && cmp.Mismatched? ==>
      reply == HttpError(StatusUnauthorized, "Invalid credentials")
    ensures decoded.Some? && decoded.value.email != "" && decoded.value.password != "" && found.Some? && cmp.CompareFailed? ==>
      reply == HttpError(StatusInternalServerError, "Internal server error")
    ensures decoded.Some? && decoded.value.email != "" && decoded.value.password != "" && found.None? ==>
      reply.HttpError? && reply.code == StatusUnauthorized
    ensures decoded.None? || decoded.value.email == "" || decoded.value.password == "" ==>
      reply.HttpError? && reply.code == StatusBadRequest
  {
    if decoded.None? then HttpError(StatusBadRequest, "Invalid request body")
    else if decoded.value.email == "" || decoded.value.password == "" then
      HttpError(StatusBadRequest, "Email and password are required")
    else if found.None? then
      HttpError(StatusUnauthorized, "Invalid credentials or User is not registered")
    else
      var check := CheckPassword(cmp);
      if check.error.Some? then HttpError(StatusInternalServerError, "Internal server error")
      else if !check.matched then HttpError(StatusUnauthorized, "Invalid credentials")
      else
        var user := found.value;
        match sign(TokenClaims(user, clock))
        case None => HttpError(StatusInternalServerError, "Failed to generate token")
        case Some(token) => Json(StatusOK, AuthResponse(token, user.(password := "")))
  }

  /** `getMeHandler`: runs behind `authMiddleware`, so claims are normally
      present; the user is re-read by id. */
  function GetMeHandler(claims: Option<Claims>, found: Lookup): (reply: Reply<User>)
    ensures claims.None? ==> reply == HttpError(StatusUnauthorized, "Unauthorized")
    ensures claims.Some? && found.None? ==> reply == HttpError(StatusNotFound, "User not found")
    ensures claims.Some? && found.Some? ==>
      reply == Json(StatusOK, WithoutPassword(found.value)) && "password" !in UserJsonKeys(reply.body)
  {
    if claims.None? then HttpError(StatusUnauthorized, "Unauthorized")
    else if found.None? then HttpError(StatusNotFound, "User not found")
    else Json(StatusOK, found.value.(password := ""))
  }
}
