# Authentication core of the Mais Criança backend, in Dafny

This project models the authentication and user-profile core of the Mais Criança
backend, a Go web service built on Fiber and PostgreSQL. The model covers:

- the user model and its JSON shape (`Models`);
- configuration loaded from the environment (`Configs`);
- JWT issuance and validation over an abstract JWT library (`Jwt`);
- the `Authorization: Bearer` middleware and the role gate (`Middleware`);
- login and registration (`AuthController`);
- the authentication-status endpoint (`AuthStatusController`);
- the profile read and update endpoints (`UserController`);
- the profile UPDATE statement with numbered placeholders (`ProfileUpdate`).

Supporting modules:

- `Wrappers` holds `Option` and `Result`.
- `Strings` models Go's `strings.Split` on one character, with its inverse `Join`.
- `Fiber` models status codes and the request context, a class whose `locals` map the middleware updates.
- `Store` models the `"User"` table as a sequence of rows. PostgreSQL returns the
  rows of a SELECT without ORDER BY in no fixed order. The model chooses
  insertion order, so a `QueryRow` lookup sees the first matching row. Which row
  a lookup returns matters only when two rows share an email. The modelled table
  allows duplicate emails; the real schema is not part of the code.

Effects the model cannot run are parameters:

- bcrypt is `hash: string -> Option<string>` and `matches: (password, hash) -> bool`;
- the JWT library is a `Library` value with `sign`, `decode` and `verify` functions;
- the clock (`now`, in seconds) and the generated UUID are parameters;
- whether the database answers is a boolean `available`.

Behaviour of the code worth knowing, which the model reproduces:

- Registration stores the requested role verbatim, `ADMIN` included. Only an
  absent role becomes `CLIENT`.
- The status endpoint sends a role it does not name to `"/"`. Login and
  registration send such a role to `/cliente/visao-geral`.
- Token expiry is not checked by the handlers or the middleware themselves. It is
  left to the library's claim validation, which is part of `verify`.
- A failing INSERT answers 500 with the database's error text. It does not give a
  dedicated "email in use" answer.

## Model

| member | source | states |
|---|---|---|
| Models.NamedRolesAreFour | models/user.go:11-16 | the four role constants are pairwise distinct and are exactly the named roles |
| Models.RoleIsOpen | models/user.go:8-16 | `Role` is an open string type: a role outside the four constants exists, and a register request can carry it |
| Models.UserJson | models/user.go:19-28 | the JSON of a User never has a "password" key; "profileAvatar" appears iff the avatar is non-empty; the exact key set |
| Models.UserResponseJson | models/user.go:31-38 | the JSON of a UserResponse has no password, carries the token, and omits an empty avatar |
| Configs.LoadConfig | configs/config.go:18-36 | PORT and JWT_SECRET fall back to "8080" and the default secret when empty, and are otherwise used as given; the lifetime is 24 hours; DATABASE_URL and ALLOWED_ORIGINS are copied; port and secret are never empty |
| Configs.LoadConfigReadsFourVariables | configs/config.go:18-36 | the configuration depends on the four variables it reads and on nothing else in the environment |
| Strings.Split | middleware/auth_middleware.go:24 | the parts of strings.Split are at least one, contain no separator, and join back to the input |
| Strings.SplitJoin | middleware/auth_middleware.go:24 | splitting the join of separator-free parts gives the parts back, so the split is unique |
| Jwt.BuildClaims | auth/jwt.go:22-32 | the claims carry the user's id, role and email (as subject), issued-at now, expiry now plus the configured hours |
| Jwt.ClaimsLifetime | configs/config.go:31 | with the loaded configuration, expiry minus issuance is exactly 24 hours |
| Jwt.GenerateToken | auth/jwt.go:21-42 | the token is the HS256 signature of the built claims under the secret; a signing error gives "" and an error |
| Jwt.KeyFunc | auth/jwt.go:48-53 | the key function hands out the secret iff the declared method is HMAC |
| Jwt.ValidateToken | auth/jwt.go:45-64 | claims are returned iff there is no error, iff the token decodes, declares an HMAC method and verifies under the secret; the claims are the decoded ones |
| Jwt.AlgorithmGate | auth/jwt.go:48-53 | a token declaring a non-HMAC algorithm ("none", RS256, ...) is refused with the unexpected-method error naming it; HS384 and HS512 pass |
| Middleware.BearerTokenShape | middleware/auth_middleware.go:24-31 | the header passes the shape check iff it is "Bearer " followed by a space-free token, and the token is the rest of the header |
| Middleware.MalformedHeadersRefused | middleware/auth_middleware.go:24-29 | "Token abc", "Bearer" and "Bearer a b" are refused |
| Middleware.EmptyTokenPassesShapeCheck | middleware/auth_middleware.go:24-31 | "Bearer " passes the shape check with an empty token |
| Middleware.Authenticate | middleware/auth_middleware.go:15-38 | every rejection is 401; an empty header and a badly shaped one give their own messages; the request is accepted iff the header is well shaped and the token validates, with the token's claims |
| Middleware.AuthenticateAccepts | middleware/auth_middleware.go:15-38 | acceptance stated on the header text itself: "Bearer " plus a space-free token that ValidateToken accepts, whose decoded claims are used |
| Middleware.AuthMiddleware | middleware/auth_middleware.go:13-46 | on rejection it answers and leaves the locals alone; on acceptance it stores userId and userRole from the claims and calls the next handler |
| Middleware.RoleGuard | middleware/auth_middleware.go:49-68 | 401 without a Role in the locals; the next handler iff the role is in the allow-list; otherwise 403 |
| Middleware.EmptyAllowListRejects | middleware/auth_middleware.go:59-67 | with no allowed role nothing passes: 401 without a role, 403 with one |
| Middleware.AuthenticateThenGuardDecides | routes/user_routes.go:23 | authentication then role gate: the request passes iff the header is well formed, the token validates and its role is allowed; 401 iff authentication fails; 403 iff the token's role is not allowed |
| Middleware.AdminGroup | routes/user_routes.go:23 | the "/admin" chain behaves as authentication followed by the gate with ADMIN as the only allowed role; the locals afterwards are untouched on rejection and hold the token's id and role on acceptance |
| Store.FindBy | controllers/auth_controller.go:67-81 | a QueryRow lookup finds a row iff some row satisfies the WHERE condition, and the row it finds satisfies it (used with the email for login and with the id for the profile) |
| Store.CountEmail | controllers/auth_controller.go:179-194 | the email count is positive iff some row has that email |
| Store.UpdateProfileRows | controllers/user_controller.go:93-111 | the UPDATE changes only the rows with that id: their update time, and name or avatar only where one was given |
| Store.UserStore.Insert | controllers/auth_controller.go:215-256 | the insert fails with the duplicate-key error iff the id is in use, and otherwise appends the row |
| Store.UserStore.UpdateProfile | controllers/user_controller.go:113 | the Exec of the UPDATE leaves the table as UpdateProfileRows says |
| Store.AppendKeepsUnique | controllers/auth_controller.go:178-194 | appending a row with a fresh id keeps ids unique, and with an uncounted email keeps emails unique |
| AuthController.LoginRedirect | controllers/auth_controller.go:120-133 | "/dashboard" iff ADMIN; the client page iff CLIENT or an unnamed role; the employee page for EMPLOYEE and the affiliate page for AFFILIATE |
| AuthController.Login | controllers/auth_controller.go:30-147 | 400 iff the body is unreadable or lacks email or password; an identical 401 for an unknown email and a wrong password, and 401 exactly then; 200 iff the credentials match a stored row and signing succeeds, with the stored user, its signed token and its landing page; 500 iff the store is down (connection error) or signing fails after the password check (token error); no other statuses |
| AuthController.LoginJsonHidesPassword | controllers/auth_controller.go:136-146 | the JSON of a successful login has no password key and carries the signed token |
| AuthController.Register | controllers/auth_controller.go:150-296 | the response and the new table are those of RegisterSpec on the old table; availability is unchanged |
| AuthController.RegisterOutcomes | controllers/auth_controller.go:150-296 | the table is unchanged or gains exactly the new row; it changes iff the answer is 201 or the signing-failure 500; invalid input gives 400; a counted email gives the "email in use" 400 |
| AuthController.RegisterStoresHashAndRole | controllers/auth_controller.go:196-209 | after a 201 the new row holds the password's hash and the requested role, or CLIENT when none was requested |
| AuthController.RegisterKeepsUnique | controllers/auth_controller.go:178-194 | registration keeps ids and emails unique in the table |
| AuthController.RegisterThenLogin | controllers/auth_controller.go:30-147 | after a 201 registration, logging in with the same email and password answers 200 with exactly the registration's body |
| AuthController.AliceScenario | controllers/auth_controller.go:205-209 | a registration without a role stores a CLIENT; login with the right password answers 200 and with a wrong one the invalid-credentials 401 |
| AuthStatusController.StatusRedirect | controllers/auth_status_controller.go:32-45 | "/" iff the role is not one of the four; on the four it agrees with the login switch |
| AuthStatusController.GetAuthStatus | controllers/auth_status_controller.go:22-52 | 401 with "not authenticated" iff the locals hold no Role; otherwise 200 with the role's landing page |
| AuthStatusController.RedirectSwitchesDiffer | controllers/auth_status_controller.go:32-45 | the status switch and the login switch agree exactly on the four named roles |
| AuthStatusController.StatusAfterAuthentication | controllers/auth_status_controller.go:22-52 | behind a successful authentication the endpoint answers 200 with the landing page of the token's role |
| UserController.GetUserProfileAsWritten | controllers/user_controller.go:24-56 | as written: 404 iff no row has the id; 500 iff the store fails or the row's avatar is NULL; 200 iff the row exists with a non-NULL avatar, with the stored user as body |
| UserController.GetUserProfile | controllers/user_controller.go:24-56 | corrected: 500 only when the store fails, 404 for an unknown id, otherwise 200 with the stored user, without its password |
| UserController.ProfileJsonHidesPassword | models/user.go:22-25 | the profile JSON of a 200 has no password key, and has "profileAvatar" iff the stored avatar is set and non-empty |
| UserController.NewUserProfileFailsAsWritten | controllers/user_controller.go:24-56 | for every freshly registered user the profile as written answers 500, and the corrected one answers 200 with that user |
| UserController.UpdateUserProfile | controllers/user_controller.go:59-125 | 500, then 404 before the body is read, then 400; otherwise 200, and the table changes only when a name or an avatar was given, as UpdateProfileRows says |
| UserController.UpdateStatementMatchesRows | controllers/user_controller.go:93-113 | the column values the built UPDATE binds are exactly what the user's row takes in the table; columns it does not bind keep their value; its WHERE argument is that row's id |
| ProfileUpdate.StatementColumns | controllers/user_controller.go:93-111 | read back from the statement, the name column is set iff a name was given (to that name), the avatar column likewise, and the id is the last argument |
| UserController.UpdateNeverClears | controllers/user_controller.go:93-111 | the update never clears a name or an avatar, and leaves other users' rows alone |
| ProfileUpdate.BuildUpdate | controllers/user_controller.go:93-111 | the built statement is the reference statement for the given fields: the name clause before the avatar clause, then WHERE id |
| ProfileUpdate.Placeholder | controllers/user_controller.go:99-110 | the text `$k` is a dollar sign followed by the digit of k |
| ProfileUpdate.UpdateStatementPlaceholders | controllers/user_controller.go:93-111 | the statement's placeholders are $1 to $n in order, where n is the number of arguments |
| ProfileUpdate.UpdateStatementArguments | controllers/user_controller.go:93-111 | there are at most three arguments, the user id last, and before it exactly the non-empty fields, name first |

## Left out

- The JWT library is not modelled. Signing, decoding and signature checking are parameters (`Jwt.Library`). `Jwt.ParseWithClaims` models only the flow the core relies on: decode, key function, verify.
- The library's own claim checks ("exp" and the others) are part of the abstract `verify`. The core performs none of its own.
- bcrypt hashing and comparison are parameters. Their cost and salt are not modelled.
- SQL text is not interpreted. The effect of each query on the table is modelled directly.
- The model does not capture that the profile handlers name the columns `profile_avatar`, `created_at` and `updated_at`, while login and registration use `"profileAvatar"`, `"createdAt"` and `"updatedAt"`.
- Database availability is one boolean. When it is false, every handler answers as it does for a failed Ping, or for the first query failing. The model fixes two error texts: the connection error of the Ping, and the driver's duplicate-key text ("pq: duplicate key value ...") for an INSERT with an id in use. No other query failure is modelled, so three answers of the source cannot occur in the model:
  - Login's SELECT failing after a successful Ping, which answers 500 "Erro interno do servidor: " followed by the error (controllers/auth_controller.go:97-100);
  - Register's COUNT failing after a successful Ping, which answers 500 "Erro interno do servidor" (controllers/auth_controller.go:183-188);
  - UpdateUserProfile's Exec failing, which answers 500 "Erro ao atualizar perfil" (controllers/user_controller.go:114-119).
- `time.Now()` is one `now` parameter per request. Go reads the clock twice in GenerateToken, and the database's NOW() once more.
- Timestamps are unbounded integers. The int64 range of Go's time values and of "exp"/"iat" is not modelled.
- Requests run one at a time. The race between the email count and the INSERT in registration is not modelled, and the modelled table allows duplicate emails (the real schema is not part of the code).
- Logging is left out, and so is the JSON body parser beyond "readable or not".
- Out of scope: the books, categories and dashboard controllers, the database diagnostic scripts, and the wiring in main.go.
- Routes: only the "/admin" group is modelled (`Middleware.AdminGroup`). The "/employee", "/client" and "/affiliate" groups differ from it only in the allowed role. The "/user" group, which serves the profile handlers, runs AuthMiddleware alone (`Middleware.AuthMiddleware`) and checks no role.
- Jwt.ValidateToken: the library's error texts other than the key-function error are abstract strings.
- ProfileUpdate.BuildUpdate: a placeholder number is one digit. That holds because there are at most three arguments, but `rune('0'+paramCount)` is not modelled beyond 9.

## Findings

| source | as written | input that shows it | evidently intended | confidence | as-written member | corrected member |
|---|---|---|---|---|---|---|
| controllers/user_controller.go:28-51 | the nullable avatar column is scanned into a plain `string`, so a row whose avatar is NULL fails the scan and answers 500 "Erro interno do servidor" | GET /api/user/profile by a user who has just registered: registration inserts no avatar, so the column is NULL | read a NULL avatar as "" (as login does with `sql.NullString`) and answer 200 with the user | medium, not executed | UserController.GetUserProfileAsWritten, UserController.NewUserProfileFailsAsWritten | UserController.GetUserProfile |
