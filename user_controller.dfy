/** The profile endpoints (controllers/user_controller.go): reading the current
    user and the UPDATE built with numbered placeholders. */
module UserController {

  import opened Wrappers
  import opened Models
  import opened Fiber
  import opened Store
  import AuthController
  import Configs
  import Jwt
  import ProfileUpdate

  datatype Body = ErrorBody(error: string) | ProfileBody(user: User) | MessageBody(message: string)

  datatype Response = Response(status: int, body: Body)

  /** The body of a profile update; an absent field decodes to "". */
  datatype UpdateRequest = UpdateRequest(name: string, profileAvatar: string)

  const UserNotFound := "Usuário não encontrado"
  const InternalError := "Erro interno do servidor"
  const InvalidData := "Dados inválidos"
  const ProfileUpdated := "Perfil atualizado com sucesso"

  /** `ctx.Locals("userId").(string)`: an unchecked type assertion, which panics
      unless AuthMiddleware has stored the id; callers must run behind it. */
  predicate HasUserId(locals: map<string, Local>)
  {
    "userId" in locals && locals["userId"].StrLocal?
  }

  function ContextUserId(locals: map<string, Local>): string
    requires HasUserId(locals)
  {
    locals["userId"].s
  }

  /** GetUserProfile as written: the nullable avatar column is scanned into a
      plain string, so a row whose avatar is NULL fails the scan and answers 500
      like any other store error. */
  function GetUserProfileAsWritten(rows: seq<UserRow>, available: bool, locals: map<string, Local>): (r: Response)
    requires HasUserId(locals)
    ensures r.status == StatusNotFound <==> available && FindById(rows, ContextUserId(locals)).None?
    ensures r.status == StatusOK <==>
              available && FindById(rows, ContextUserId(locals)).Some?
              && FindById(rows, ContextUserId(locals)).value.profileAvatar.Some?
    ensures r.status == StatusInternalServerError <==>
              !available || (FindById(rows, ContextUserId(locals)).Some?
                             && FindById(rows, ContextUserId(locals)).value.profileAvatar.None?)
    ensures r.status == StatusOK ==> r.body == ProfileBody(AuthController.UserFromRow(FindById(rows, ContextUserId(locals)).value))
  {
    var userId := ContextUserId(locals);
    if !available then Response(StatusInternalServerError, ErrorBody(InternalError))
    else
      match FindById(rows, userId)
      case None => Response(StatusNotFound, ErrorBody(UserNotFound))
      case Some(row) =>
        match row.profileAvatar
        case None => Response(StatusInternalServerError, ErrorBody(InternalError))
        case Some(avatar) => Response(StatusOK, ProfileBody(User(row.id, row.email, "", row.name, row.role, avatar, row.createdAt, row.updatedAt)))
  }

  /** GetUserProfile as evidently intended (and as the login query does it): a
      NULL avatar reads as "". 404 for an unknown id, 500 only when the store
      fails, and otherwise the stored user without its password. */
  function GetUserProfile(rows: seq<UserRow>, available: bool, locals: map<string, Local>): (r: Response)
    requires HasUserId(locals)
    ensures !available ==> r == Response(StatusInternalServerError, ErrorBody(InternalError))
    ensures available && FindById(rows, ContextUserId(locals)).None? ==> r == Response(StatusNotFound, ErrorBody(UserNotFound))
    ensures available && FindById(rows, ContextUserId(locals)).Some? ==>
              && r.status == StatusOK && r.body.ProfileBody?
              && r.body.user == AuthController.UserFromRow(FindById(rows, ContextUserId(locals)).value)
              && r.body.user.id == ContextUserId(locals) && r.body.user.password == ""
  {
    var userId := ContextUserId(locals);
    if !available then Response(StatusInternalServerError, ErrorBody(InternalError))
    else
      match FindById(rows, userId)
      case None => Response(StatusNotFound, ErrorBody(UserNotFound))
      case Some(row) => Response(StatusOK, ProfileBody(AuthController.UserFromRow(row)))
  }

  /** The profile JSON sent with a 200 has no password key, and it has a
      "profileAvatar" key exactly when the stored avatar is set and non-empty. */
  lemma ProfileJsonHidesPassword(rows: seq<UserRow>, available: bool, locals: map<string, Local>)
    requires HasUserId(locals)
    ensures var r := GetUserProfile(rows, available, locals);
            r.status == StatusOK ==>
              && "password" !in UserJson(r.body.user)
              && ("profileAvatar" in UserJson(r.body.user) <==>
                    && FindById(rows, ContextUserId(locals)).value.profileAvatar.Some?
                    && FindById(rows, ContextUserId(locals)).value.profileAvatar.value != "")
  {
  }

  /** Every freshly registered user has a NULL avatar, so as written their own
      profile answers 500, where the corrected reading answers 200 with them. */
  lemma {:induction false} NewUserProfileFailsAsWritten(rows: seq<UserRow>, available: bool, config: Configs.Config,
                                                        lib: Jwt.Library, hash: string -> Option<string>,
                                                        req: RegisterRequest, id: string, now: int)
    requires AuthController.RegisterSpec(rows, available, config, lib, hash, Some(req), id, now).0.status == StatusCreated
    ensures var rows' := AuthController.RegisterSpec(rows, available, config, lib, hash, Some(req), id, now).1;
            var locals := map["userId" := StrLocal(id)];
            && GetUserProfileAsWritten(rows', available, locals).status == StatusInternalServerError
            && GetUserProfile(rows', available, locals).status == StatusOK
            && GetUserProfile(rows', available, locals).body.user.email == req.email
  {
    var rows' := AuthController.RegisterSpec(rows, available, config, lib, hash, Some(req), id, now).1;
    var row := AuthController.NewUserRow(req, hash(req.password).value, id, now);
    assert rows' == rows + [row];
    assert FindById(rows, id).None?;
    var found := FindById(rows', id);
    assert found == Some(row) by {
      assert found.Some? by { assert rows'[|rows|].id == id; }
      var k :| 0 <= k < |rows'| && rows'[k] == found.value;
      assert k == |rows|;
    }
  }

  /** UpdateUserProfile: 500 when the store fails, 404 for an unknown user before
      the body is read, 400 for an unreadable body; otherwise it reports success,
      and it runs the UPDATE only when a name or an avatar was given, changing
      only the given fields of that user's row. */
  method UpdateUserProfile(store: UserStore, locals: map<string, Local>, body: Option<UpdateRequest>, now: int)
    returns (r: Response)
    requires HasUserId(locals)
    modifies store
    ensures store.available == old(store.available)
    ensures !old(store.available) ==>
              r == Response(StatusInternalServerError, ErrorBody(InternalError)) && store.rows == old(store.rows)
    ensures old(store.available) && FindById(old(store.rows), ContextUserId(locals)).None? ==>
              r == Response(StatusNotFound, ErrorBody(UserNotFound)) && store.rows == old(store.rows)
    ensures old(store.available) && FindById(old(store.rows), ContextUserId(locals)).Some? && body.None? ==>
              r == Response(StatusBadRequest, ErrorBody(InvalidData)) && store.rows == old(store.rows)
    ensures old(store.available) && FindById(old(store.rows), ContextUserId(locals)).Some? && body.Some? ==>
              && r == Response(StatusOK, MessageBody(ProfileUpdated))
              && store.rows == if body.value.name == "" && body.value.profileAvatar == "" then old(store.rows)
                               else UpdateProfileRows(old(store.rows), ContextUserId(locals), body.value.name,
                                                      body.value.profileAvatar, now)
  {
    var userId := ContextUserId(locals);
    if !store.available {
      return Response(StatusInternalServerError, ErrorBody(InternalError));
    }
    var found := FindById(store.rows, userId).Some?;
    if !found {
      return Response(StatusNotFound, ErrorBody(UserNotFound));
    }
    if body.None? {
      return Response(StatusBadRequest, ErrorBody(InvalidData));
    }
    var req := body.value;
    if req.name != "" || req.profileAvatar != "" {
      var query, args := ProfileUpdate.BuildUpdate(req.name, req.profileAvatar, userId);
      store.UpdateProfile(userId, req.name, req.profileAvatar, now);
    }
    return Response(StatusOK, MessageBody(ProfileUpdated));
  }

  /** The statement the handler builds and the change to the table agree: the
      user's row takes each column value the statement binds, keeps the others,
      and the statement's WHERE argument is that user's id. */
  lemma {:induction false} UpdateStatementMatchesRows(rows: seq<UserRow>, userId: string, name: string, avatar: string,
                                                      now: int, j: int)
    requires 0 <= j < |rows| && rows[j].id == userId
    ensures var st := ProfileUpdate.UpdateStatement(name, avatar, userId);
            var row := UpdateProfileRows(rows, userId, name, avatar, now)[j];
            && row.name == (match ProfileUpdate.NameValue(st) case Some(v) => v case None => rows[j].name)
            && row.profileAvatar == (match ProfileUpdate.AvatarValue(st) case Some(v) => Some(v) case None => rows[j].profileAvatar)
            && st.args[|st.args| - 1] == row.id
  {
    ProfileUpdate.StatementColumns(name, avatar, userId);
  }

  /** The update never clears a field: a row's non-empty name stays non-empty and
      a set avatar stays set, and every other row is untouched. */
  lemma UpdateNeverClears(rows: seq<UserRow>, id: string, name: string, avatar: string, now: int, j: int)
    requires 0 <= j < |rows|
    ensures var rows' := UpdateProfileRows(rows, id, name, avatar, now);
            && (rows[j].name != "" ==> rows'[j].name != "")
            && (rows[j].profileAvatar.Some? && rows[j].profileAvatar.value != "" ==>
                  rows'[j].profileAvatar.Some? && rows'[j].profileAvatar.value != "")
            && (rows[j].id != id ==> rows'[j] == rows[j])
  {
  }
}
