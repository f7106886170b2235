/** The "User" table the controllers query, as a sequence of rows. The database
    returns the rows of a SELECT without ORDER BY in no fixed order; the model
    chooses insertion order, so a QueryRow lookup sees the first matching row. */
module Store {

  import opened Wrappers
  import opened Models

  /** A row of the table; "profileAvatar" is NULL until the user sets one, and
      password holds the bcrypt hash. */
  datatype UserRow = UserRow(
    id: string,
    email: string,
    password: string,
    name: string,
    role: Role,
    profileAvatar: Option<string>,
    createdAt: int,
    updatedAt: int)

  /** The index of the first row satisfying p, if any. */
  function FindFirst(rows: seq<UserRow>, p: UserRow -> bool): (r: Option<nat>)
    ensures r.Some? ==> r.value < |rows| && p(rows[r.value])
    ensures r.Some? ==> forall j :: 0 <= j < r.value ==> !p(rows[j])
    ensures r.None? <==> forall j :: 0 <= j < |rows| ==> !p(rows[j])
  {
    if |rows| == 0 then None
    else if p(rows[0]) then Some(0)
    else
      match FindFirst(rows[1..], p)
      case None => None
      case Some(k) => Some(k + 1)
  }

  /** A QueryRow lookup: the first row satisfying the WHERE condition p. */
  function FindBy(rows: seq<UserRow>, p: UserRow -> bool): (r: Option<UserRow>)
    ensures r.None? <==> forall j :: 0 <= j < |rows| ==> !p(rows[j])
    ensures r.Some? ==> r.value in rows && p(r.value)
  {
    match FindFirst(rows, p)
    case None => None
    case Some(k) => Some(rows[k])
  }

  /** `SELECT ... WHERE email = $1` through QueryRow. */
  function FindByEmail(rows: seq<UserRow>, email: string): Option<UserRow>
  {
    FindBy(rows, (u: UserRow) => u.email == email)
  }

  /** `SELECT ... WHERE id = $1` through QueryRow. */
  function FindById(rows: seq<UserRow>, id: string): Option<UserRow>
  {
    FindBy(rows, (u: UserRow) => u.id == id)
  }

  /** `SELECT COUNT(*) FROM "User" WHERE email = $1`. */
  function CountEmail(rows: seq<UserRow>, email: string): (n: nat)
    ensures n <= |rows|
    ensures n > 0 <==> exists j :: 0 <= j < |rows| && rows[j].email == email
  {
    if |rows| == 0 then 0
    else (if rows[0].email == email then 1 else 0) + CountEmail(rows[1..], email)
  }

  ghost predicate UniqueIds(rows: seq<UserRow>)
  {
    forall i, j :: 0 <= i < j < |rows| ==> rows[i].id != rows[j].id
  }

  ghost predicate UniqueEmails(rows: seq<UserRow>)
  {
    forall i, j :: 0 <= i < j < |rows| ==> rows[i].email != rows[j].email
  }

  /** The effect of the profile UPDATE on the table: the rows with that id get the
      new update time, and a new name or avatar only where one was given. */
  function UpdateProfileRows(rows: seq<UserRow>, id: string, name: string, avatar: string, now: int): (r: seq<UserRow>)
    ensures |r| == |rows|
    ensures forall j :: 0 <= j < |rows| && rows[j].id != id ==> r[j] == rows[j]
    ensures forall j :: 0 <= j < |rows| && rows[j].id == id ==>
              && r[j].id == rows[j].id && r[j].email == rows[j].email
              && r[j].password == rows[j].password && r[j].role == rows[j].role
              && r[j].createdAt == rows[j].createdAt && r[j].updatedAt == now
              && r[j].name == (if name != "" then name else rows[j].name)
              && r[j].profileAvatar == (if avatar != "" then Some(avatar) else rows[j].profileAvatar)
  {
    seq(|rows|, j requires 0 <= j < |rows| =>
      var u := rows[j];
      if u.id != id then u
      else u.(name := if name != "" then name else u.name,
              profileAvatar := if avatar != "" then Some(avatar) else u.profileAvatar,
              updatedAt := now))
  }

  /** The error text of the PostgreSQL driver (its "pq: " prefix, then the
      server's message) for an insert with an id already in use. */
  const DuplicateIdError := "pq: duplicate key value violates unique constraint \"User_pkey\""

  /** The database: its rows, and whether it answers at all (a failing Ping, or
      any query failing for want of a connection). */
  class UserStore {
    var rows: seq<UserRow>
    var available: bool

    constructor (rows: seq<UserRow>, available: bool)
      ensures this.rows == rows && this.available == available
    {
      this.rows := rows;
      this.available := available;
    }

    /** The INSERT: it fails on a duplicate primary key, and otherwise appends. */
    method Insert(row: UserRow) returns (err: Option<string>)
      modifies this`rows
      ensures err.None? <==> FindById(old(rows), row.id).None?
      ensures err.Some? ==> err.value == DuplicateIdError
      ensures rows == if err.None? then old(rows) + [row] else old(rows)
    {
      if FindById(rows, row.id).Some? {
        return Some(DuplicateIdError);
      }
      rows := rows + [row];
      return None;
    }

    /** The Exec of the profile UPDATE. */
    method UpdateProfile(id: string, name: string, avatar: string, now: int)
      modifies this`rows
      ensures rows == UpdateProfileRows(old(rows), id, name, avatar, now)
    {
      rows := UpdateProfileRows(rows, id, name, avatar, now);
    }
  }

  /** An insert keeps ids unique, and keeps emails unique when the email was not
      in use. */
  lemma {:induction false} AppendKeepsUnique(rows: seq<UserRow>, row: UserRow)
    requires UniqueIds(rows) && FindById(rows, row.id).None?
    ensures UniqueIds(rows + [row])
    ensures UniqueEmails(rows) && CountEmail(rows, row.email) == 0 ==> UniqueEmails(rows + [row])
  {
    var rows' := rows + [row];
    forall i, j | 0 <= i < j < |rows'| ensures rows'[i].id != rows'[j].id {
      if j == |rows| { assert rows'[i] == rows[i]; }
    }
    if UniqueEmails(rows) && CountEmail(rows, row.email) == 0 {
      forall i, j | 0 <= i < j < |rows'| ensures rows'[i].email != rows'[j].email {
        if j == |rows| { assert rows'[i] == rows[i]; }
      }
    }
  }
}
