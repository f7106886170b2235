/** The request authenticator and the role gate (middleware/auth_middleware.go),
    and the two chained in front of a route group (routes/user_routes.go). */
module Middleware {

  import opened Wrappers
  import opened Models
  import opened Configs
  import opened Jwt
  import opened Strings
  import opened Fiber

  const MissingToken := "Não autorizado: token não fornecido"
  const BadAuthorizationFormat := "Formato de autorização inválido"
  const InvalidTokenPrefix := "Token inválido: "
  const MissingAuthInfo := "Informações de autenticação ausentes"
  const AccessDenied := "Acesso negado: permissão insuficiente"

  /** The header shape check: split on single spaces, accept exactly two parts of
      which the first is "Bearer", and take the second as the token. */
  function BearerToken(header: string): Option<string>
  {
    var parts := Split(header, ' ');
    if |parts| != 2 || parts[0] != "Bearer" then None else Some(parts[1])
  }

  /** The shape check accepts exactly "Bearer " followed by a space-free token,
      which may be empty. */
  lemma BearerTokenShape(header: string)
    ensures BearerToken(header).Some? <==> |header| >= 7 && header[..7] == "Bearer " && ' ' !in header[7..]
    ensures BearerToken(header).Some? ==> BearerToken(header).value == header[7..]
  {
    var parts := Split(header, ' ');
    if |parts| == 2 && parts[0] == "Bearer" {
      assert header == Join(parts, ' ') == "Bearer" + [' '] + parts[1];
      assert header[7..] == parts[1];
    } else if |header| >= 7 && header[..7] == "Bearer " && ' ' !in header[7..] {
      var shaped := ["Bearer", header[7..]];
      assert ' ' !in shaped[0];
      assert Join(shaped, ' ') == header;
      SplitJoin(shaped, ' ');
      assert false;
    }
  }

  /** Examples of the shape check: a wrong scheme, a missing token part and a
      token with a space are refused. */
  lemma MalformedHeadersRefused()
    ensures BearerToken("Token abc") == None
    ensures BearerToken("Bearer") == None
    ensures BearerToken("Bearer a b") == None
  {
    var wrongScheme := "Token abc";
    BearerTokenShape(wrongScheme);
    assert wrongScheme[0] != "Bearer "[0];
    BearerTokenShape("Bearer");
    var twoSpaces := "Bearer a b";
    BearerTokenShape(twoSpaces);
    assert twoSpaces[7..][1] == ' ';
  }

  /** "Bearer " passes the shape check and hands an empty token on. */
  lemma EmptyTokenPassesShapeCheck()
    ensures BearerToken("Bearer ") == Some("")
  {
    var h := "Bearer ";
    BearerTokenShape(h);
    assert h[..7] == "Bearer ";
    assert h[7..] == "";
  }

  /** What AuthMiddleware decides for an Authorization header. */
  datatype AuthDecision = Reject(status: int, error: string) | Accept(claims: JWTClaims)

  /** AuthMiddleware's decision: an empty header, a header of the wrong shape and a
      token ValidateToken refuses all give 401; the claims come only from a token
      that validated. */
  function Authenticate(config: Config, lib: Library, header: string): (d: AuthDecision)
    ensures d.Reject? ==> d.status == StatusUnauthorized
    ensures header == "" ==> d == Reject(StatusUnauthorized, MissingToken)
    ensures header != "" && BearerToken(header).None? ==> d == Reject(StatusUnauthorized, BadAuthorizationFormat)
    ensures d.Accept? <==>
              BearerToken(header).Some? && ValidateToken(lib, BearerToken(header).value, config).err.None?
    ensures d.Accept? ==> Some(d.claims) == ValidateToken(lib, BearerToken(header).value, config).claims
  {
    if header == "" then Reject(StatusUnauthorized, MissingToken)
    else
      match BearerToken(header)
      case None => Reject(StatusUnauthorized, BadAuthorizationFormat)
      case Some(tokenString) =>
        var v := ValidateToken(lib, tokenString, config);
        if v.err.Some? then Reject(StatusUnauthorized, InvalidTokenPrefix + v.err.value)
        else Accept(v.claims.value)
  }

  /** A request is let through exactly when its header is "Bearer <t>" with a
      space-free t that ValidateToken accepts; those claims are the ones used. */
  lemma AuthenticateAccepts(config: Config, lib: Library, header: string)
    ensures Authenticate(config, lib, header).Accept? <==>
              && |header| >= 7 && header[..7] == "Bearer " && ' ' !in header[7..]
              && ValidateToken(lib, header[7..], config).claims.Some?
    ensures Authenticate(config, lib, header).Accept? ==>
              Authenticate(config, lib, header).claims == lib.decode(header[7..]).value.claims
  {
    BearerTokenShape(header);
  }

  /** The locals after a successful authentication. */
  function Populate(locals: map<string, Local>, claims: JWTClaims): map<string, Local>
  {
    locals["userId" := StrLocal(claims.userId)]["userRole" := RoleLocal(claims.role)]
  }

  /** AuthMiddleware: answers 401 without touching the locals, or stores the
      token's user id and role in them and passes the request on. */
  method AuthMiddleware(config: Config, lib: Library, c: Ctx) returns (o: Outcome)
    modifies c
    ensures match Authenticate(config, lib, c.authorization)
            case Reject(status, error) => o == Respond(status, error) && c.locals == old(c.locals)
            case Accept(claims) => o == Next && c.locals == Populate(old(c.locals), claims)
    ensures o.Respond? ==> o.status == StatusUnauthorized
  {
    var authHeader := c.authorization;
    if authHeader == "" {
      return Respond(StatusUnauthorized, MissingToken);
    }
    var parts := Split(authHeader, ' ');
    if |parts| != 2 || parts[0] != "Bearer" {
      return Respond(StatusUnauthorized, BadAuthorizationFormat);
    }
    var tokenString := parts[1];
    var v := ValidateToken(lib, tokenString, config);
    if v.err.Some? {
      return Respond(StatusUnauthorized, InvalidTokenPrefix + v.err.value);
    }
    var claims := v.claims.value;
    c.locals := c.locals["userId" := StrLocal(claims.userId)];
    c.locals := c.locals["userRole" := RoleLocal(claims.role)];
    return Next;
  }

  /** `c.Locals("userRole").(models.Role)`: the role, when the locals hold one. */
  function ContextRole(locals: map<string, Local>): Option<Role>
  {
    if "userRole" in locals && locals["userRole"].RoleLocal? then Some(locals["userRole"].role) else None
  }

  /** The role gate's decision for an allow-list. */
  function Guard(roles: seq<Role>, locals: map<string, Local>): Outcome
  {
    match ContextRole(locals)
    case None => Respond(StatusUnauthorized, MissingAuthInfo)
    case Some(userRole) => if userRole in roles then Next else Respond(StatusForbidden, AccessDenied)
  }

  /** RoleGuard: 401 when the locals hold no Role, the next handler when the role is
      on the allow-list, 403 otherwise. It reads the locals and changes nothing. */
  method RoleGuard(roles: seq<Role>, c: Ctx) returns (o: Outcome)
    ensures o == Guard(roles, c.locals)
    ensures o == Next <==> ContextRole(c.locals).Some? && ContextRole(c.locals).value in roles
  {
    var userRole := ContextRole(c.locals);
    if userRole.None? {
      return Respond(StatusUnauthorized, MissingAuthInfo);
    }
    for i := 0 to |roles|
      invariant forall j :: 0 <= j < i ==> roles[j] != userRole.value
    {
      if userRole.value == roles[i] {
        return Next;
      }
    }
    return Respond(StatusForbidden, AccessDenied);
  }

  /** With an empty allow-list nothing passes: 401 without a role, 403 with one. */
  lemma EmptyAllowListRejects(locals: map<string, Local>)
    ensures Guard([], locals) == if ContextRole(locals).None? then Respond(StatusUnauthorized, MissingAuthInfo)
                                 else Respond(StatusForbidden, AccessDenied)
  {
  }

  /** The two stages chained in order, AuthMiddleware first. */
  function AuthenticateThenGuard(config: Config, lib: Library, header: string,
                                 locals: map<string, Local>, roles: seq<Role>): Outcome
  {
    match Authenticate(config, lib, header)
    case Reject(status, error) => Respond(status, error)
    case Accept(claims) => Guard(roles, Populate(locals, claims))
  }

  /** Chained in order, the gate sees the role of the validated token and never
      fails for a missing role: the request passes iff the token is well formed,
      validates and carries an allowed role; it gets 401 iff authentication fails
      and 403 iff the role is not allowed. */
  lemma AuthenticateThenGuardDecides(config: Config, lib: Library, header: string,
                                     locals: map<string, Local>, roles: seq<Role>)
    ensures var o := AuthenticateThenGuard(config, lib, header, locals, roles);
            var d := Authenticate(config, lib, header);
            && (o == Next <==>
                  && |header| >= 7 && header[..7] == "Bearer " && ' ' !in header[7..]
                  && ValidateToken(lib, header[7..], config).claims.Some?
                  && ValidateToken(lib, header[7..], config).claims.value.role in roles)
            && (o.Respond? && o.status == StatusUnauthorized <==> d.Reject?)
            && (o.Respond? && o.status == StatusForbidden <==> d.Accept? && d.claims.role !in roles)
  {
    AuthenticateAccepts(config, lib, header);
    BearerTokenShape(header);
    var d := Authenticate(config, lib, header);
    if d.Accept? {
      assert ContextRole(Populate(locals, d.claims)) == Some(d.claims.role);
    }
  }

  /** The "/admin" group: AuthMiddleware, then RoleGuard(ADMIN), then the handler. */
  method AdminGroup(config: Config, lib: Library, c: Ctx) returns (o: Outcome)
    modifies c
    ensures o == AuthenticateThenGuard(config, lib, c.authorization, old(c.locals), [ADMIN])
    ensures c.locals == match Authenticate(config, lib, c.authorization)
                        case Reject(_, _) => old(c.locals)
                        case Accept(claims) => Populate(old(c.locals), claims)
  {
    o := AuthMiddleware(config, lib, c);
    if o == Next {
      o := RoleGuard([ADMIN], c);
    }
  }
}
