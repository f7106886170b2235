/** Login and registration (controllers/auth_controller.go), over the user table,
    an abstract bcrypt (hash and match) and the abstract JWT library. */
module AuthController {

  import opened Wrappers
  import opened Models
  import opened Configs
  import opened Jwt
  import opened Fiber
  import opened Store

  datatype Body = ErrorBody(error: string) | SessionBody(user: UserResponse, redirectUrl: string)

  datatype Response = Response(status: int, body: Body)

  const InvalidLoginData := "Dados de login inválidos"
  const EmailAndPasswordRequired := "Email e senha são obrigatórios"
  const DatabaseConnectionError := "Erro na conexão com o banco de dados"
  const InvalidCredentials := "Credenciais inválidas"
  const TokenGenerationError := "Erro ao gerar token de autenticação"
  const InvalidRegisterData := "Dados de registro inválidos"
  const RegisterFieldsRequired := "Email, senha e nome são obrigatórios"
  const EmailInUse := "Este email já está em uso"
  const PasswordProcessingError := "Erro ao processar senha"
  const CreateUserErrorPrefix := "Erro ao criar usuário: "

  /** Where clients, and roles the switch does not name, are sent. */
  const ClientHome := "/cliente/visao-geral"

  /** The page each role lands on after login or registration; the same switch
      is written out in both handlers. */
  function LoginRedirect(role: Role): (url: string)
    ensures url == "/dashboard" <==> role == ADMIN
    ensures url == ClientHome <==> role == CLIENT || !IsNamedRole(role)
    ensures role == EMPLOYEE ==> url == "/funcionario/visao-geral"
    ensures role == AFFILIATE ==> url == "/afiliado/visao-geral"
  {
    if role == ADMIN then "/dashboard"
    else if role == CLIENT then ClientHome
    else if role == EMPLOYEE then "/funcionario/visao-geral"
    else if role == AFFILIATE then "/afiliado/visao-geral"
    else ClientHome
  }

  /** The user the login query scans: the password hash goes to a separate
      variable, and a NULL avatar becomes "". */
  function UserFromRow(row: UserRow): User
  {
    User(row.id, row.email, "", row.name, row.role,
         if row.profileAvatar.Some? then row.profileAvatar.value else "",
         row.createdAt, row.updatedAt)
  }

  function ToUserResponse(user: User, token: string): UserResponse
  {
    UserResponse(user.id, user.email, user.name, user.role, user.profileAvatar, token)
  }

  /** The row whose credentials a login request presents: the first row with the
      email, provided the password matches its hash. */
  function CredentialRow(rows: seq<UserRow>, matches: (string, string) -> bool, req: LoginRequest): Option<UserRow>
  {
    match FindByEmail(rows, req.email)
    case None => None
    case Some(row) => if matches(req.password, row.password) then Some(row) else None
  }

  /** Login: 400 for an unreadable body or a missing email or password (before
      the store is asked anything), 500 when the store is down, one identical 401
      for an unknown email and for a wrong password, 500 when signing fails, and
      otherwise 200 with the stored user, a token for it and its landing page. */
  function Login(rows: seq<UserRow>, available: bool, config: Config, lib: Library,
                 matches: (string, string) -> bool, body: Option<LoginRequest>, now: int): (r: Response)
    ensures body.None? ==> r == Response(StatusBadRequest, ErrorBody(InvalidLoginData))
    ensures body.Some? && (body.value.email == "" || body.value.password == "") ==>
              r == Response(StatusBadRequest, ErrorBody(EmailAndPasswordRequired))
    ensures r.status == StatusUnauthorized ==> r == Response(StatusUnauthorized, ErrorBody(InvalidCredentials))
    ensures r.status == StatusUnauthorized <==>
              && body.Some? && body.value.email != "" && body.value.password != "" && available
              && CredentialRow(rows, matches, body.value).None?
    ensures r.status == StatusOK ==>
              && body.Some? && available
              && CredentialRow(rows, matches, body.value).Some?
              && var row := CredentialRow(rows, matches, body.value).value;
                 && var claims := BuildClaims(UserFromRow(row), config, now);
                 && lib.sign(HS256, claims, config.jwtSecret).Some?
                 && r.body == SessionBody(ToUserResponse(UserFromRow(row), lib.sign(HS256, claims, config.jwtSecret).value),
                                          LoginRedirect(row.role))
    ensures r.status in {StatusOK, StatusBadRequest, StatusUnauthorized, StatusInternalServerError}
    ensures var valid := body.Some? && body.value.email != "" && body.value.password != "";
            && (r.status == StatusBadRequest <==> !valid)
            && (r.status == StatusOK <==>
                  && valid && available && CredentialRow(rows, matches, body.value).Some?
                  && lib.sign(HS256, BuildClaims(UserFromRow(CredentialRow(rows, matches, body.value).value), config, now),
                              config.jwtSecret).Some?)
            && (r.status == StatusInternalServerError <==>
                  && valid
                  && (|| !available
                      || (&& CredentialRow(rows, matches, body.value).Some?
                          && lib.sign(HS256, BuildClaims(UserFromRow(CredentialRow(rows, matches, body.value).value), config, now),
                                      config.jwtSecret).None?)))
    ensures body.Some? && body.value.email != "" && body.value.password != "" && !available ==>
              r == Response(StatusInternalServerError, ErrorBody(DatabaseConnectionError))
    ensures r.status == StatusInternalServerError && available ==> r.body == ErrorBody(TokenGenerationError)
  {
    if body.None? then Response(StatusBadRequest, ErrorBody(InvalidLoginData))
    else
      var req := body.value;
      if req.email == "" || req.password == "" then Response(StatusBadRequest, ErrorBody(EmailAndPasswordRequired))
      else if !available then Response(StatusInternalServerError, ErrorBody(DatabaseConnectionError))
      else
        match FindByEmail(rows, req.email)
        case None => Response(StatusUnauthorized, ErrorBody(InvalidCredentials))
        case Some(row) =>
          if !matches(req.password, row.password) then Response(StatusUnauthorized, ErrorBody(InvalidCredentials))
          else
            var user := UserFromRow(row);
            var signed := GenerateToken(lib, user, config, now);
            if signed.err.Some? then Response(StatusInternalServerError, ErrorBody(TokenGenerationError))
            else Response(StatusOK, SessionBody(ToUserResponse(user, signed.token), LoginRedirect(user.role)))
  }

  /** The session JSON sent with a successful login has no password key and
      carries the signed token. */
  lemma LoginJsonHidesPassword(rows: seq<UserRow>, available: bool, config: Config, lib: Library,
                               matches: (string, string) -> bool, body: Option<LoginRequest>, now: int)
    ensures var r := Login(rows, available, config, lib, matches, body, now);
            r.status == StatusOK ==>
              && "password" !in UserResponseJson(r.body.user)
              && UserResponseJson(r.body.user)["token"]
                   == JString(lib.sign(HS256, BuildClaims(UserFromRow(CredentialRow(rows, matches, body.value).value), config, now),
                                       config.jwtSecret).value)
  {
  }

  /** The role a new user gets: the requested one verbatim, or CLIENT when none. */
  function DefaultRole(requested: Role): Role
  {
    if requested != NoRole then requested else CLIENT
  }

  /** The row Register inserts. */
  function NewUserRow(req: RegisterRequest, hashed: string, id: string, now: int): UserRow
  {
    UserRow(id, req.email, hashed, req.name, DefaultRole(req.role), None, now, now)
  }

  /** Register as a function of the table before it: the response and the table
      after it. */
  function RegisterSpec(rows: seq<UserRow>, available: bool, config: Config, lib: Library,
                        hash: string -> Option<string>, body: Option<RegisterRequest>,
                        id: string, now: int): (Response, seq<UserRow>)
  {
    if body.None? then (Response(StatusBadRequest, ErrorBody(InvalidRegisterData)), rows)
    else
      var req := body.value;
      if req.email == "" || req.password == "" || req.name == "" then
        (Response(StatusBadRequest, ErrorBody(RegisterFieldsRequired)), rows)
      else if !available then (Response(StatusInternalServerError, ErrorBody(DatabaseConnectionError)), rows)
      else if CountEmail(rows, req.email) > 0 then (Response(StatusBadRequest, ErrorBody(EmailInUse)), rows)
      else
        match hash(req.password)
        case None => (Response(StatusInternalServerError, ErrorBody(PasswordProcessingError)), rows)
        case Some(hashed) =>
          if FindById(rows, id).Some? then
            (Response(StatusInternalServerError, ErrorBody(CreateUserErrorPrefix + DuplicateIdError)), rows)
          else
            var rows' := rows + [NewUserRow(req, hashed, id, now)];
            var role := DefaultRole(req.role);
            var user := User(id, req.email, "", req.name, role, "", now, now);
            var signed := GenerateToken(lib, user, config, now);
            if signed.err.Some? then (Response(StatusInternalServerError, ErrorBody(TokenGenerationError)), rows')
            else (Response(StatusCreated, SessionBody(ToUserResponse(user, signed.token), LoginRedirect(role))), rows')
  }

  /** Register: validate, check the email is unused, hash the password, insert the
      row, sign a token for the new user. */
  method Register(store: UserStore, config: Config, lib: Library, hash: string -> Option<string>,
                  body: Option<RegisterRequest>, id: string, now: int) returns (r: Response)
    modifies store
    ensures (r, store.rows) == RegisterSpec(old(store.rows), old(store.available), config, lib, hash, body, id, now)
    ensures store.available == old(store.available)
  {
    if body.None? {
      return Response(StatusBadRequest, ErrorBody(InvalidRegisterData));
    }
    var req := body.value;
    if req.email == "" || req.password == "" || req.name == "" {
      return Response(StatusBadRequest, ErrorBody(RegisterFieldsRequired));
    }
    if !store.available {
      return Response(StatusInternalServerError, ErrorBody(DatabaseConnectionError));
    }
    var count := CountEmail(store.rows, req.email);
    if count > 0 {
      return Response(StatusBadRequest, ErrorBody(EmailInUse));
    }
    var hashed := hash(req.password);
    if hashed.None? {
      return Response(StatusInternalServerError, ErrorBody(PasswordProcessingError));
    }
    var role := CLIENT;
    if req.role != NoRole {
      role := req.role;
    }
    var err := store.Insert(UserRow(id, req.email, hashed.value, req.name, role, None, now, now));
    if err.Some? {
      return Response(StatusInternalServerError, ErrorBody(CreateUserErrorPrefix + err.value));
    }
    var user := User(id, req.email, "", req.name, role, "", now, now);
    var signed := GenerateToken(lib, user, config, now);
    if signed.err.Some? {
      return Response(StatusInternalServerError, ErrorBody(TokenGenerationError));
    }
    return Response(StatusCreated, SessionBody(ToUserResponse(user, signed.token), LoginRedirect(user.role)));
  }

  /** What Register does to the table: nothing, except append the new row, whose
      password is the hash of the given one and whose role is the requested one or
      CLIENT. Invalid input and an email already counted leave the table alone; a
      signing failure after the insert answers 500 but keeps the row. */
  lemma RegisterOutcomes(rows: seq<UserRow>, available: bool, config: Config, lib: Library,
                         hash: string -> Option<string>, body: Option<RegisterRequest>, id: string, now: int)
    ensures var (r, rows') := RegisterSpec(rows, available, config, lib, hash, body, id, now);
            && (rows' == rows ||
                  (body.Some? && hash(body.value.password).Some?
                   && rows' == rows + [NewUserRow(body.value, hash(body.value.password).value, id, now)]))
            && (rows' != rows <==> r.status == StatusCreated || r == Response(StatusInternalServerError, ErrorBody(TokenGenerationError)))
            && (body.None? || body.value.email == "" || body.value.password == "" || body.value.name == "" ==>
                  r.status == StatusBadRequest && rows' == rows)
            && (body.Some? && body.value.email != "" && body.value.password != "" && body.value.name != "" && available
                && CountEmail(rows, body.value.email) > 0 ==>
                  r == Response(StatusBadRequest, ErrorBody(EmailInUse)) && rows' == rows)
  {
  }

  /** The new row stores the bcrypt hash, and the role defaults to CLIENT only when
      none was requested; any other requested role, ADMIN included, is stored as
      it is. */
  lemma {:induction false} RegisterStoresHashAndRole(rows: seq<UserRow>, available: bool, config: Config, lib: Library,
                                  hash: string -> Option<string>, req: RegisterRequest, id: string, now: int)
    requires RegisterSpec(rows, available, config, lib, hash, Some(req), id, now).0.status == StatusCreated
    ensures var rows' := RegisterSpec(rows, available, config, lib, hash, Some(req), id, now).1;
            && |rows'| == |rows| + 1 && rows'[..|rows|] == rows
            && rows'[|rows|].password == hash(req.password).value
            && rows'[|rows|].role == (if req.role == NoRole then CLIENT else req.role)
            && rows'[|rows|].email == req.email && rows'[|rows|].id == id
  {
    RegisterOutcomes(rows, available, config, lib, hash, Some(req), id, now);
  }

  /** Register keeps ids and emails unique in the table. */
  lemma {:induction false} RegisterKeepsUnique(rows: seq<UserRow>, available: bool, config: Config, lib: Library,
                                               hash: string -> Option<string>, body: Option<RegisterRequest>, id: string, now: int)
    requires UniqueIds(rows) && UniqueEmails(rows)
    ensures var rows' := RegisterSpec(rows, available, config, lib, hash, body, id, now).1;
            UniqueIds(rows') && UniqueEmails(rows')
  {
    var rows' := RegisterSpec(rows, available, config, lib, hash, body, id, now).1;
    if rows' != rows {
      var req := body.value;
      var row := NewUserRow(req, hash(req.password).value, id, now);
      assert CountEmail(rows, req.email) == 0 && FindById(rows, id).None?;
      AppendKeepsUnique(rows, row);
    }
  }

  /** A user who has just registered can log in with the same email and password
      (given that bcrypt accepts a password against its own hash): at the same
      instant the login answers 200 with exactly the body the registration sent,
      the same user, token and landing page. */
  lemma {:induction false} RegisterThenLogin(rows: seq<UserRow>, available: bool, config: Config, lib: Library,
                                             hash: string -> Option<string>, matches: (string, string) -> bool,
                                             req: RegisterRequest, id: string, now: int)
    requires hash(req.password).Some? && matches(req.password, hash(req.password).value)
    requires RegisterSpec(rows, available, config, lib, hash, Some(req), id, now).0.status == StatusCreated
    ensures var (registered, rows') := RegisterSpec(rows, available, config, lib, hash, Some(req), id, now);
            var login := Login(rows', available, config, lib, matches, Some(LoginRequest(req.email, req.password)), now);
            && login.status == StatusOK
            && login.body == registered.body
            && login.body.user.id == id
  {
    var rows' := RegisterSpec(rows, available, config, lib, hash, Some(req), id, now).1;
    var row := NewUserRow(req, hash(req.password).value, id, now);
    assert rows' == rows + [row];
    assert CountEmail(rows, req.email) == 0;
    var found := FindByEmail(rows', req.email);
    assert found == Some(row) by {
      assert found.Some? by { assert rows'[|rows|].email == req.email; }
      var k :| 0 <= k < |rows'| && rows'[k] == found.value;
      assert k == |rows|;
    }
    assert UserFromRow(row) == User(id, req.email, "", req.name, DefaultRole(req.role), "", now, now);
  }

  /** Registering alice@example.com with password hunter22 and no role yields a
      CLIENT; logging in with hunter22 succeeds and with hunter23 fails with the
      invalid-credentials answer (given a hash that accepts the first password
      and not the second). */
  lemma AliceScenario(rows: seq<UserRow>, available: bool, config: Config, lib: Library,
                      hash: string -> Option<string>, matches: (string, string) -> bool, id: string, now: int)
    requires hash("hunter22").Some?
    requires matches("hunter22", hash("hunter22").value) && !matches("hunter23", hash("hunter22").value)
    requires RegisterSpec(rows, available, config, lib, hash,
                          Some(RegisterRequest("alice@example.com", "hunter22", "Alice", NoRole)), id, now).0.status == StatusCreated
    ensures var rows' := RegisterSpec(rows, available, config, lib, hash,
                                      Some(RegisterRequest("alice@example.com", "hunter22", "Alice", NoRole)), id, now).1;
            && rows'[|rows|].role == CLIENT
            && Login(rows', available, config, lib, matches, Some(LoginRequest("alice@example.com", "hunter22")), now).status == StatusOK
            && Login(rows', available, config, lib, matches, Some(LoginRequest("alice@example.com", "hunter23")), now)
                 == Response(StatusUnauthorized, ErrorBody(InvalidCredentials))
  {
    var req := RegisterRequest("alice@example.com", "hunter22", "Alice", NoRole);
    RegisterStoresHashAndRole(rows, available, config, lib, hash, req, id, now);
    RegisterThenLogin(rows, available, config, lib, hash, matches, req, id, now);
    var rows' := RegisterSpec(rows, available, config, lib, hash, Some(req), id, now).1;
    assert FindByEmail(rows', req.email) == Some(rows'[|rows|]);
  }
}
