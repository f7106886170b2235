/** The user data model: roles, the stored user record, the response sent after
    authentication and the two request bodies (models/user.go). */
module Models {

  /** `type Role string`: an open string type. Any text is a Role, the four
      constants below are only names for four of them. Wrapping the string keeps a
      Role distinct from a plain string, as Go's named type is. */
  datatype Role = Role(name: string)

  const CLIENT: Role := Role("CLIENT")
  const EMPLOYEE: Role := Role("EMPLOYEE")
  const ADMIN: Role := Role("ADMIN")
  const AFFILIATE: Role := Role("AFFILIATE")

  /** The empty role, which a register request carries when it omits "role". */
  const NoRole: Role := Role("")

  predicate IsNamedRole(r: Role)
  {
    r == CLIENT || r == EMPLOYEE || r == ADMIN || r == AFFILIATE
  }

  /** There are exactly four named roles, and they are pairwise different. */
  lemma NamedRolesAreFour()
    ensures |{CLIENT, EMPLOYEE, ADMIN, AFFILIATE}| == 4
    ensures forall r :: IsNamedRole(r) <==> r in {CLIENT, EMPLOYEE, ADMIN, AFFILIATE}
  {
    assert CLIENT.name[0] == 'C' && EMPLOYEE.name[0] == 'E' && ADMIN.name[0] == 'A';
    assert AFFILIATE.name[1] == 'F' && ADMIN.name[1] == 'D';
    assert CLIENT != EMPLOYEE && CLIENT != ADMIN && CLIENT != AFFILIATE;
    assert EMPLOYEE != ADMIN && EMPLOYEE != AFFILIATE && ADMIN != AFFILIATE;
    var s := {CLIENT, EMPLOYEE, ADMIN, AFFILIATE};
    assert s == {CLIENT} + {EMPLOYEE} + {ADMIN} + {AFFILIATE};
    assert |{CLIENT} + {EMPLOYEE}| == 2;
    assert |{CLIENT} + {EMPLOYEE} + {ADMIN}| == 3;
  }

  /** The type is open: a role outside the four constants exists, and a register
      request can carry it. */
  lemma RoleIsOpen()
    ensures exists r: Role :: !IsNamedRole(r) && r != NoRole
    ensures exists req: RegisterRequest :: !IsNamedRole(req.role)
  {
    var guest := Role("GUEST");
    assert guest.name[0] == 'G';
    assert !IsNamedRole(guest) && guest != NoRole;
    var req := RegisterRequest("a@b", "pw", "A", guest);
    assert !IsNamedRole(req.role);
  }

  /** A user as the controllers hold it after reading it from the store. */
  datatype User = User(
    id: string,
    email: string,
    password: string,
    name: string,
    role: Role,
    profileAvatar: string,
    createdAt: int,
    updatedAt: int)

  /** What login and registration send back; it has no password field. */
  datatype UserResponse = UserResponse(
    id: string,
    email: string,
    name: string,
    role: Role,
    profileAvatar: string,
    token: string)

  datatype LoginRequest = LoginRequest(email: string, password: string)

  /** A request body without "role" decodes to the zero value of the string
      type, NoRole. */
  datatype RegisterRequest = RegisterRequest(email: string, password: string, name: string, role: Role)

  /** A JSON member value: a string, or a timestamp (seconds). */
  datatype JsonValue = JString(s: string) | JTime(t: int)

  /** The JSON object encoding/json produces for a User, following its struct tags:
      the password is tagged "-" and the avatar "omitempty". */
  function UserJson(u: User): (obj: map<string, JsonValue>)
    ensures "password" !in obj
    ensures "profileAvatar" in obj <==> u.profileAvatar != ""
    ensures obj.Keys == {"id", "email", "name", "role", "createdAt", "updatedAt"}
                        + (if u.profileAvatar != "" then {"profileAvatar"} else {})
    ensures obj["id"] == JString(u.id) && obj["email"] == JString(u.email)
    ensures obj["role"] == JString(u.role.name)
  {
    var always := map[
      "id" := JString(u.id),
      "email" := JString(u.email),
      "name" := JString(u.name),
      "role" := JString(u.role.name),
      "createdAt" := JTime(u.createdAt),
      "updatedAt" := JTime(u.updatedAt)];
    if u.profileAvatar != "" then always["profileAvatar" := JString(u.profileAvatar)] else always
  }

  /** The JSON object for a UserResponse: identity, role, optional avatar and the token. */
  function UserResponseJson(r: UserResponse): (obj: map<string, JsonValue>)
    ensures "password" !in obj
    ensures "profileAvatar" in obj <==> r.profileAvatar != ""
    ensures obj.Keys == {"id", "email", "name", "role", "token"}
                        + (if r.profileAvatar != "" then {"profileAvatar"} else {})
    ensures obj["token"] == JString(r.token) && obj["role"] == JString(r.role.name)
  {
    var always := map[
      "id" := JString(r.id),
      "email" := JString(r.email),
      "name" := JString(r.name),
      "role" := JString(r.role.name),
      "token" := JString(r.token)];
    if r.profileAvatar != "" then always["profileAvatar" := JString(r.profileAvatar)] else always
  }
}
