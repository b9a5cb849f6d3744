/**
  The HTTP layer of the authentication service: the JSON/schema gate that every
  body-carrying route passes first, the token gate of the protected routes, and
  the handlers that map service outcomes to a status and an error code.
 */
module AuthRoutes {
  import opened Common
  import opened Schemas
  import opened Models
  import opened AuthService

  // ---------------------------------------------------------------------------
  // Requests and responses
  // ---------------------------------------------------------------------------

  /** The request body as the framework decodes it: unparsable, the literal `null`, or any other JSON value. */
  datatype JsonBody = Malformed | Null | Decoded(doc: Document)

  datatype HttpRequest = HttpRequest(isJson: bool, body: JsonBody)

  datatype Body =
    | ErrorBody(error: string, message: string, details: Option<seq<string>>)
    | TokenBody(message: string, accessToken: Token, refreshToken: Token, tokenType: string, expiresIn: int, user: UserView)
    | AccessBody(accessToken: Token, tokenType: string, expiresIn: int)
    | ProfileBody(user: UserView)
    | MessageBody(message: string)

  datatype Response = Response(status: int, body: Body)

  /** The default `token_type` of both token responses. */
  const Bearer := "bearer"

  function Error(status: int, code: string, message: string): Response {
    Response(status, ErrorBody(code, message, None))
  }

  // ---------------------------------------------------------------------------
  // validate_json
  // ---------------------------------------------------------------------------

  const NotJson := Response(400, ErrorBody("invalid_request", "Request must be JSON", None))
  const EmptyJson := Response(400, ErrorBody("validation_error", "Invalid JSON", Some(["Request body is empty or malformed"])))
  const UndecodableJson := Response(400, ErrorBody("validation_error", "Validation failed", Some(["Failed to decode JSON object"])))

  /** Content-type and body checks, which run before any schema check; any decoded value but `null` goes on to the schema. */
  function DecodeJson(req: HttpRequest): (r: Result<Document, Response>)
    ensures !req.isJson ==> r == Failure(NotJson)
    ensures r.Success? <==> req.isJson && req.body.Decoded?
    ensures r.Success? ==> r.value == req.body.doc
    ensures req.isJson && req.body.Null? ==> r == Failure(EmptyJson)
    ensures r.Failure? ==> r.error.status == 400
  {
    if !req.isJson then Failure(NotJson)
    else match req.body
      case Malformed => Failure(UndecodableJson)
      case Null => Failure(EmptyJson)
      case Decoded(doc) => Success(doc)
  }

  /** One `"field: message"` detail line. */
  function Detail(e: FieldError): (d: string)
    ensures |d| == |e.loc| + 2 + |e.msg|
    ensures d[..|e.loc|] == e.loc && d[|e.loc|..|e.loc| + 2] == ": " && d[|e.loc| + 2..] == e.msg
  {
    e.loc + ": " + e.msg
  }

  /** The details of a schema failure, one line per reported error, in reported order. */
  function Details(errs: seq<FieldError>): (ds: seq<string>)
    ensures |ds| == |errs|
  {
    seq(|errs|, i requires 0 <= i < |errs| => Detail(errs[i]))
  }

  /** The error-detail loop of `validate_json`. */
  method FormatErrors(errs: seq<FieldError>) returns (details: seq<string>)
    ensures |details| == |errs|
    ensures forall i :: 0 <= i < |errs| ==> details[i] == errs[i].loc + ": " + errs[i].msg
  {
    details := [];
    var i := 0;
    while i < |errs|
      invariant 0 <= i <= |errs|
      invariant |details| == i
      invariant forall k :: 0 <= k < i ==> details[k] == Detail(errs[k])
    {
      details := details + [Detail(errs[i])];
      i := i + 1;
    }
  }

  function ValidationFailed(details: seq<string>): Response {
    Response(400, ErrorBody("validation_error", "Validation failed", Some(details)))
  }

  /** A schema outcome as the gate reports it. */
  function SchemaOutcome<T>(v: Result<T, seq<FieldError>>): (r: Result<T, Response>)
    ensures r.Success? <==> v.Success?
    ensures r.Success? ==> r.value == v.value
    ensures r.Failure? ==>
      && r.error.status == 400 && r.error.body.ErrorBody?
      && r.error.body.error == "validation_error" && r.error.body.details == Some(Details(v.error))
  {
    match v
    case Success(x) => Success(x)
    case Failure(errs) => Failure(ValidationFailed(Details(errs)))
  }

  /** The schema half of `validate_json`, through the detail loop. */
  method CheckSchema<T>(v: Result<T, seq<FieldError>>) returns (r: Result<T, Response>)
    ensures r == SchemaOutcome(v)
  {
    match v
    case Success(x) =>
      r := Success(x);
    case Failure(errs) =>
      var details := FormatErrors(errs);
      assert details == Details(errs);
      r := Failure(ValidationFailed(details));
  }

  /** `UserRegistrationRequest.model_validate` on a decoded body. */
  function RegistrationOf(doc: Document, checkEmail: EmailCheck): Result<Registration, seq<FieldError>> {
    match doc
    case Object(b) => ValidateRegistration(b, checkEmail)
    case NonObject => Failure(NotAnObject("UserRegistrationRequest"))
  }

  /** `UserLoginRequest.model_validate` on a decoded body. */
  function LoginOf(doc: Document, checkEmail: EmailCheck): Result<Login, seq<FieldError>> {
    match doc
    case Object(b) => ValidateLogin(b, checkEmail)
    case NonObject => Failure(NotAnObject("UserLoginRequest"))
  }

  /** `TokenRefreshRequest.model_validate` on a decoded body. */
  function RefreshOf(doc: Document): Result<string, seq<FieldError>> {
    match doc
    case Object(b) => ValidateRefreshRequest(b)
    case NonObject => Failure(NotAnObject("TokenRefreshRequest"))
  }

  /** `PasswordChangeRequest.model_validate` on a decoded body. */
  function PasswordChangeOf(doc: Document): Result<PasswordChange, seq<FieldError>> {
    match doc
    case Object(b) => ValidatePasswordChange(b)
    case NonObject => Failure(NotAnObject("PasswordChangeRequest"))
  }

  function RegistrationInput(req: HttpRequest, checkEmail: EmailCheck): Result<Registration, Response> {
    match DecodeJson(req)
    case Failure(resp) => Failure(resp)
    case Success(doc) => SchemaOutcome(RegistrationOf(doc, checkEmail))
  }

  function LoginInput(req: HttpRequest, checkEmail: EmailCheck): Result<Login, Response> {
    match DecodeJson(req)
    case Failure(resp) => Failure(resp)
    case Success(doc) => SchemaOutcome(LoginOf(doc, checkEmail))
  }

  function RefreshInput(req: HttpRequest): Result<string, Response> {
    match DecodeJson(req)
    case Failure(resp) => Failure(resp)
    case Success(doc) => SchemaOutcome(RefreshOf(doc))
  }

  function PasswordChangeInput(req: HttpRequest): Result<PasswordChange, Response> {
    match DecodeJson(req)
    case Failure(resp) => Failure(resp)
    case Success(doc) => SchemaOutcome(PasswordChangeOf(doc))
  }

  /** A non-JSON request is refused with `invalid_request` whatever its body, before any schema runs. */
  lemma NonJsonRefusedFirst(req: HttpRequest, checkEmail: EmailCheck)
    requires !req.isJson
    ensures RegistrationInput(req, checkEmail) == Failure(NotJson)
    ensures LoginInput(req, checkEmail) == Failure(NotJson)
    ensures RefreshInput(req) == Failure(NotJson)
    ensures PasswordChangeInput(req) == Failure(NotJson)
  {
  }

  /** A failure of the body as a whole is detailed with an empty location. */
  lemma RootDetail(m: string)
    ensures Details([FieldError("", m)]) == [": " + m]
  {
    assert Details([FieldError("", m)])[0] == "" + ": " + m;
    assert "" + ": " + m == ": " + m;
  }

  /**
    A JSON body that is an array, a string, a number or a boolean passes the
    decoder and is refused by the schema as a whole: one detail line with an
    empty location, naming the schema.
   */
  lemma NonObjectRefusedBySchema(req: HttpRequest, checkEmail: EmailCheck)
    requires req.isJson && req.body == Decoded(NonObject)
    ensures RegistrationInput(req, checkEmail) ==
      Failure(ValidationFailed([": " + NotADictionary + "UserRegistrationRequest"]))
    ensures LoginInput(req, checkEmail) ==
      Failure(ValidationFailed([": " + NotADictionary + "UserLoginRequest"]))
    ensures RefreshInput(req) ==
      Failure(ValidationFailed([": " + NotADictionary + "TokenRefreshRequest"]))
    ensures PasswordChangeInput(req) ==
      Failure(ValidationFailed([": " + NotADictionary + "PasswordChangeRequest"]))
  {
    assert DecodeJson(req) == Success(NonObject);
    RootDetail(NotADictionary + "UserRegistrationRequest");
    assert ": " + (NotADictionary + "UserRegistrationRequest") == ": " + NotADictionary + "UserRegistrationRequest";
    assert RegistrationOf(NonObject, checkEmail) == Failure(NotAnObject("UserRegistrationRequest"));
    RootDetail(NotADictionary + "UserLoginRequest");
    assert ": " + (NotADictionary + "UserLoginRequest") == ": " + NotADictionary + "UserLoginRequest";
    assert LoginOf(NonObject, checkEmail) == Failure(NotAnObject("UserLoginRequest"));
    RootDetail(NotADictionary + "TokenRefreshRequest");
    assert ": " + (NotADictionary + "TokenRefreshRequest") == ": " + NotADictionary + "TokenRefreshRequest";
    assert RefreshOf(NonObject) == Failure(NotAnObject("TokenRefreshRequest"));
    RootDetail(NotADictionary + "PasswordChangeRequest");
    assert ": " + (NotADictionary + "PasswordChangeRequest") == ": " + NotADictionary + "PasswordChangeRequest";
    assert PasswordChangeOf(NonObject) == Failure(NotAnObject("PasswordChangeRequest"));
  }

  // ---------------------------------------------------------------------------
  // The token gate
  // ---------------------------------------------------------------------------

  /**
    A protected route runs only with an unexpired token of the kind it
    requires; otherwise the application's token error handlers answer 401
    (missing token, expired token, or a token of the other kind).
   */
  function Authorize(token: Option<Token>, kind: TokenKind, now: int): (r: Result<UserId, Response>)
    ensures r.Success? <==> token.Some? && now < token.value.exp && token.value.kind == kind
    ensures r.Success? ==> r.value == token.value.sub
    ensures r.Failure? ==> r.error.status == 401 && r.error.body.ErrorBody?
    ensures r.Failure? ==> (r.error.body.error == "token_expired" <==> token.Some? && now >= token.value.exp)
    ensures r.Failure? ==> (r.error.body.error == "authorization_required" <==> token.None?)
  {
    match token
    case None => Failure(Error(401, "authorization_required", "Authorization token is required"))
    case Some(t) =>
      match CheckToken(t, kind, now)
      case Success(id) => Success(id)
      case Failure(Expired) => Failure(Error(401, "token_expired", "Token has expired"))
      case Failure(WrongKind) => Failure(Error(401, "invalid_token", "Invalid token"))
  }

  // ---------------------------------------------------------------------------
  // Handlers
  // ---------------------------------------------------------------------------

  const UserExists := Error(409, "user_exists", DuplicateEmail)
  const InvalidCredentials := Error(401, "invalid_credentials", "Invalid email or password")
  const AccountInactive := Error(403, "account_inactive", "Account is deactivated")

  /** The token body returned on registration and login. */
  function TokenResponse(status: int, message: string, user: User, now: int, cfg: JwtConfig): Response {
    Response(status, TokenBody(message, CreateAccessToken(user.id, now, cfg), CreateRefreshToken(user.id, now, cfg),
                               Bearer, AccessTtl(cfg), ToDict(user)))
  }

  /** `POST /register`. */
  method Register(svc: UserTable, req: HttpRequest, checkEmail: EmailCheck, now: int, cfg: JwtConfig)
    returns (resp: Response)
    requires svc.Valid()
    modifies svc
    ensures svc.Valid()
    ensures RegistrationInput(req, checkEmail).Failure? ==>
      resp == RegistrationInput(req, checkEmail).error && svc.users == old(svc.users)
    ensures RegistrationInput(req, checkEmail).Success? ==>
      var data := RegistrationInput(req, checkEmail).value;
      if exists i :: 0 <= i < |old(svc.users)| && old(svc.users)[i].email == data.email then
        resp == UserExists && svc.users == old(svc.users)
      else
        var user := NewUser(|old(svc.users)| + 1, data.email, HashPassword(data.password), data.firstName, data.lastName, now);
        && svc.users == old(svc.users) + [user]
        && resp == TokenResponse(201, "User registered successfully", user, now, cfg)
  {
    var body := DecodeJson(req);
    if body.Failure? {
      return body.error;
    }
    var input := CheckSchema(RegistrationOf(body.value, checkEmail));
    if input.Failure? {
      return input.error;
    }
    var data := input.value;
    if FindEmail(svc.users, data.email).Some? {
      return UserExists;
    }
    var created := svc.CreateUser(data.email, data.password, data.firstName, data.lastName, now);
    match created
    case Failure(message) =>
      resp := Error(409, "user_exists", message);
    case Success(user) =>
      resp := TokenResponse(201, "User registered successfully", user, now, cfg);
  }

  /** `POST /login`: nothing in the table changes. */
  method Login(svc: UserTable, req: HttpRequest, checkEmail: EmailCheck, now: int, cfg: JwtConfig)
    returns (resp: Response)
    requires svc.Valid()
    ensures LoginInput(req, checkEmail).Failure? ==> resp == LoginInput(req, checkEmail).error
    ensures LoginInput(req, checkEmail).Success? ==>
      var data := LoginInput(req, checkEmail).value;
      match svc.AuthenticateUser(data.email, data.password)
      case None => resp == InvalidCredentials
      case Some(user) =>
        resp == if user.isActive then TokenResponse(200, "Login successful", user, now, cfg) else AccountInactive
    ensures resp == AccountInactive ==> exists i ::
      0 <= i < |svc.users| && !svc.users[i].isActive &&
      VerifyPassword(LoginInput(req, checkEmail).value.password, svc.users[i].passwordHash)
  {
    var body := DecodeJson(req);
    if body.Failure? {
      return body.error;
    }
    var input := CheckSchema(LoginOf(body.value, checkEmail));
    if input.Failure? {
      return input.error;
    }
    var data := input.value;
    var user := svc.AuthenticateUser(data.email, data.password);
    if user.None? {
      return InvalidCredentials;
    }
    if !user.value.isActive {
      return AccountInactive;
    }
    resp := TokenResponse(200, "Login successful", user.value, now, cfg);
  }

  /** What `/refresh` answers once the refresh token and the body have been accepted: it never reads the body. */
  function RefreshOutcome(users: seq<User>, id: UserId, now: int, cfg: JwtConfig): (resp: Response)
    requires WellFormedTable(users)
    ensures resp.status == 200 <==> 1 <= id <= |users| && users[id - 1].isActive
    ensures resp.status == 200 ==> resp.body == AccessBody(Token(id, Access, now + AccessTtl(cfg)), Bearer, AccessTtl(cfg))
    ensures resp.status != 200 ==> resp == Error(404, "user_not_found", "User not found or inactive")
  {
    match FindId(users, id)
    case Some(user) =>
      if user.isActive then Response(200, AccessBody(CreateAccessToken(user.id, now, cfg), Bearer, AccessTtl(cfg)))
      else Error(404, "user_not_found", "User not found or inactive")
    case None => Error(404, "user_not_found", "User not found or inactive")
  }

  /** `POST /refresh`: a new access token only; the refresh token is neither re-issued nor compared with the body. */
  method RefreshAccessToken(svc: UserTable, token: Option<Token>, req: HttpRequest, now: int, cfg: JwtConfig)
    returns (resp: Response)
    requires svc.Valid()
    ensures Authorize(token, Refresh, now).Failure? ==> resp == Authorize(token, Refresh, now).error
    ensures Authorize(token, Refresh, now).Success? && RefreshInput(req).Failure? ==> resp == RefreshInput(req).error
    ensures Authorize(token, Refresh, now).Success? && RefreshInput(req).Success? ==>
      resp == RefreshOutcome(svc.users, token.value.sub, now, cfg)
    ensures resp.status == 200 ==>
      && resp.body.AccessBody? && resp.body.accessToken.kind == Access
      && resp.body.accessToken.sub == token.value.sub && resp.body.expiresIn == AccessTtl(cfg)
    ensures resp.status == 404 ==>
      svc.GetUserById(token.value.sub).None? || !svc.GetUserById(token.value.sub).value.isActive
  {
    var gate := Authorize(token, Refresh, now);
    if gate.Failure? {
      return gate.error;
    }
    var body := DecodeJson(req);
    if body.Failure? {
      return body.error;
    }
    var input := CheckSchema(RefreshOf(body.value));
    if input.Failure? {
      return input.error;
    }
    var user := svc.GetUserById(gate.value);
    if user.None? || !user.value.isActive {
      return Error(404, "user_not_found", "User not found or inactive");
    }
    resp := Response(200, AccessBody(CreateAccessToken(user.value.id, now, cfg), Bearer, AccessTtl(cfg)));
  }

  /**
    `GET /me` as written: the profile object is handed to the JSON encoder
    without being turned into a dictionary first, the encoder refuses it, and
    the handler's catch-all answers 500 for every user it finds.
   */
  method GetCurrentUserAsWritten(svc: UserTable, token: Option<Token>, now: int) returns (resp: Response)
    requires svc.Valid()
    ensures Authorize(token, Access, now).Failure? ==> resp == Authorize(token, Access, now).error
    ensures Authorize(token, Access, now).Success? ==>
      match svc.GetUserById(token.value.sub)
      case None => resp == Error(404, "user_not_found", "User not found")
      case Some(_) => resp == Error(500, "internal_error", "An error occurred")
    ensures resp.status != 200
  {
    var gate := Authorize(token, Access, now);
    if gate.Failure? {
      return gate.error;
    }
    var user := svc.GetUserById(gate.value);
    if user.None? {
      return Error(404, "user_not_found", "User not found");
    }
    resp := Error(500, "internal_error", "An error occurred");
  }

  /** `GET /me` as intended: the public view of the token's user, whether active or not. */
  method GetCurrentUser(svc: UserTable, token: Option<Token>, now: int) returns (resp: Response)
    requires svc.Valid()
    ensures Authorize(token, Access, now).Failure? ==> resp == Authorize(token, Access, now).error
    ensures Authorize(token, Access, now).Success? ==>
      match svc.GetUserById(token.value.sub)
      case None => resp == Error(404, "user_not_found", "User not found")
      case Some(user) => resp == Response(200, ProfileBody(ToDict(user)))
  {
    var gate := Authorize(token, Access, now);
    if gate.Failure? {
      return gate.error;
    }
    var user := svc.GetUserById(gate.value);
    if user.None? {
      return Error(404, "user_not_found", "User not found");
    }
    resp := Response(200, ProfileBody(ToDict(user.value)));
  }

  /** `POST /change-password`. */
  method ChangePassword(svc: UserTable, token: Option<Token>, req: HttpRequest, now: int) returns (resp: Response)
    requires svc.Valid()
    modifies svc
    ensures svc.Valid()
    ensures resp.status != 200 ==> svc.users == old(svc.users)
    ensures Authorize(token, Access, now).Failure? ==> resp == Authorize(token, Access, now).error
    ensures Authorize(token, Access, now).Success? && PasswordChangeInput(req).Failure? ==>
      resp == PasswordChangeInput(req).error
    ensures Authorize(token, Access, now).Success? && PasswordChangeInput(req).Success? ==>
      var id := token.value.sub;
      var data := PasswordChangeInput(req).value;
      if 1 <= id <= |old(svc.users)| && VerifyPassword(data.currentPassword, old(svc.users)[id - 1].passwordHash) then
        resp == Response(200, MessageBody("Password changed successfully")) &&
        svc.users == WithPassword(old(svc.users), id - 1, data.newPassword)
      else
        resp == Error(400, "invalid_current_password", "Current password is incorrect")
  {
    var gate := Authorize(token, Access, now);
    if gate.Failure? {
      return gate.error;
    }
    var body := DecodeJson(req);
    if body.Failure? {
      return body.error;
    }
    var input := CheckSchema(PasswordChangeOf(body.value));
    if input.Failure? {
      return input.error;
    }
    var ok := svc.ChangePassword(gate.value, input.value.currentPassword, input.value.newPassword);
    if !ok {
      return Error(400, "invalid_current_password", "Current password is incorrect");
    }
    resp := Response(200, MessageBody("Password changed successfully"));
  }

  /** `POST /logout` (access token) and `POST /logout/refresh` (refresh token): no server-side state is touched. */
  function Logout(token: Option<Token>, kind: TokenKind, now: int): (resp: Response)
    ensures resp.status == 200 <==> Authorize(token, kind, now).Success?
    ensures resp.status != 200 ==> resp.status == 401
  {
    match Authorize(token, kind, now)
    case Failure(r) => r
    case Success(_) => Response(200, MessageBody("Successfully logged out"))
  }

  /** After logout the same access token is still accepted until it expires: there is no revocation. */
  lemma LogoutRevokesNothing(t: Token, now: int, later: int)
    requires Logout(Some(t), Access, now).status == 200
    requires now <= later < t.exp
    ensures Authorize(Some(t), Access, later).Success?
  {
  }
}
