/** The authentication status endpoint (controllers/auth_status_controller.go). */
module AuthStatusController {

  import opened Wrappers
  import opened Models
  import opened Fiber
  import opened Jwt
  import opened Middleware
  import AuthController
  import Configs

  /** {"authenticated": false, "message": ...} or {"authenticated": true, "redirectUrl": ...}. */
  datatype Body = Unauthenticated(message: string) | Authenticated(redirectUrl: string)

  datatype Response = Response(status: int, body: Body)

  const NotAuthenticated := "Usuário não autenticado"

  /** The landing page for a role; unlike the login switch, a role it does not
      name is sent to "/". */
  function StatusRedirect(role: Role): (url: string)
    ensures url == "/" <==> !IsNamedRole(role)
    ensures IsNamedRole(role) ==> url == AuthController.LoginRedirect(role)
  {
    if role == ADMIN then "/dashboard"
    else if role == CLIENT then "/cliente/visao-geral"
    else if role == EMPLOYEE then "/funcionario/visao-geral"
    else if role == AFFILIATE then "/afiliado/visao-geral"
    else "/"
  }

  /** GetAuthStatus: 401 and authenticated=false without a Role in the locals,
      otherwise 200, authenticated=true and the role's landing page. */
  function GetAuthStatus(locals: map<string, Local>): (r: Response)
    ensures r.status == StatusUnauthorized <==> ContextRole(locals).None?
    ensures r.status == StatusUnauthorized ==> r.body == Unauthenticated(NotAuthenticated)
    ensures r.status != StatusUnauthorized ==>
              r.status == StatusOK && r.body == Authenticated(StatusRedirect(ContextRole(locals).value))
  {
    match ContextRole(locals)
    case None => Response(StatusUnauthorized, Unauthenticated(NotAuthenticated))
    case Some(userRole) => Response(StatusOK, Authenticated(StatusRedirect(userRole)))
  }

  /** The two switches agree on the four named roles and part ways on any other:
      login sends it to the client page, the status endpoint to "/". */
  lemma RedirectSwitchesDiffer(role: Role)
    ensures StatusRedirect(role) == AuthController.LoginRedirect(role) <==> IsNamedRole(role)
    ensures !IsNamedRole(role) ==> AuthController.LoginRedirect(role) == AuthController.ClientHome
  {
    if !IsNamedRole(role) {
      assert AuthController.LoginRedirect(role) == AuthController.ClientHome;
      assert AuthController.ClientHome[0] == '/' && |AuthController.ClientHome| > 1;
    }
  }

  /** Behind AuthMiddleware the endpoint always reports authenticated, with the
      landing page of the token's role. */
  lemma StatusAfterAuthentication(config: Configs.Config, lib: Library, header: string, locals: map<string, Local>)
    requires Authenticate(config, lib, header).Accept?
    ensures var claims := Authenticate(config, lib, header).claims;
            GetAuthStatus(Populate(locals, claims)) == Response(StatusOK, Authenticated(StatusRedirect(claims.role)))
  {
    var claims := Authenticate(config, lib, header).claims;
    assert ContextRole(Populate(locals, claims)) == Some(claims.role);
  }
}
