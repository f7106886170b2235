/** The dynamic UPDATE of UpdateUserProfile (controllers/user_controller.go): the
    statement text with numbered placeholders and its argument list. */
module ProfileUpdate {

  import opened Wrappers

  /** A parameterised statement: SQL text with $n placeholders and the arguments
      they stand for ($n is args[n-1]). */
  datatype Statement = Statement(query: string, args: seq<string>)

  const UpdateHead := "UPDATE \"User\" SET updated_at = NOW()"
  const SetName := ", name = "
  const SetAvatar := ", profile_avatar = "
  const WhereId := " WHERE id = "

  /** The profile UPDATE for each combination of given fields, spelled out with
      literal placeholder numbers: the name column before the avatar column,
      consecutive numbers from $1, the id last. */
  function UpdateStatement(name: string, avatar: string, userId: string): Statement
  {
    if name != "" && avatar != "" then
      Statement(UpdateHead + SetName + Placeholder(1) + SetAvatar + Placeholder(2) + WhereId + Placeholder(3), [name, avatar, userId])
    else if name != "" then
      Statement(UpdateHead + SetName + Placeholder(1) + WhereId + Placeholder(2), [name, userId])
    else if avatar != "" then
      Statement(UpdateHead + SetAvatar + Placeholder(1) + WhereId + Placeholder(2), [avatar, userId])
    else
      Statement(UpdateHead + WhereId + Placeholder(1), [userId])
  }

  /** The statement builder: appends a clause per non-empty field, numbering each
      placeholder with the digit rune('0' + paramCount). */
  method BuildUpdate(name: string, avatar: string, userId: string) returns (query: string, args: seq<string>)
    ensures Statement(query, args) == UpdateStatement(name, avatar, userId)
  {
    query := UpdateHead;
    args := [];
    var paramCount := 1;

    if name != "" {
      query := query + SetName + Placeholder(paramCount);
      args := args + [name];
      paramCount := paramCount + 1;
    }

    if avatar != "" {
      query := query + SetAvatar + Placeholder(paramCount);
      args := args + [avatar];
      paramCount := paramCount + 1;
    }

    query := query + WhereId + Placeholder(paramCount);
    args := args + [userId];
  }

  /** The text "$k" for 1 <= k <= 9: a dollar sign and the digit rune('0' + k). */
  function Placeholder(k: int): (p: string)
    requires 1 <= k <= 9
    ensures |p| == 2 && p[0] == '$' && p[1] as int - '0' as int == k
  {
    ['$', ('0' as int + k) as char]
  }

  /** The numbers of the $n placeholders in a query, in order of appearance. */
  function Placeholders(q: string): seq<int>
  {
    if q == [] then []
    else if q[0] == '$' && |q| >= 2 then [q[1] as int - '0' as int] + Placeholders(q[2..])
    else Placeholders(q[1..])
  }

  lemma {:induction false} PlaceholdersNone(s: string)
    requires '$' !in s
    ensures Placeholders(s) == []
  {
    if s != [] {
      PlaceholdersNone(s[1..]);
    }
  }

  lemma {:induction false} PlaceholdersAppend(a: string, b: string)
    requires a == [] || a[|a| - 1] != '$'
    ensures Placeholders(a + b) == Placeholders(a) + Placeholders(b)
  {
    var ab := a + b;
    if a == [] {
      assert ab == b;
    } else if a[0] == '$' && |a| >= 2 {
      assert ab[0] == '$' && ab[1] == a[1] && ab[2..] == a[2..] + b;
      PlaceholdersAppend(a[2..], b);
    } else {
      assert ab[0] == a[0] && ab[1..] == a[1..] + b;
      PlaceholdersAppend(a[1..], b);
    }
  }

  /** Appending a placeholder-free piece and then "$k" adds k to the numbers. */
  lemma AppendClause(prefix: string, piece: string, k: int)
    requires 1 <= k <= 9
    requires prefix == [] || prefix[|prefix| - 1] != '$'
    requires '$' !in piece && piece != []
    ensures var q := prefix + piece + Placeholder(k);
            Placeholders(q) == Placeholders(prefix) + [k] && q[|q| - 1] != '$'
  {
    var p := Placeholder(k);
    PlaceholdersNone(piece);
    PlaceholdersAppend(prefix, piece);
    PlaceholdersAppend(prefix + piece, p);
    assert Placeholders(p[2..]) == [];
  }

  /** Placeholder numbers of one, two and three clauses after a placeholder-free
      head, each clause a placeholder-free piece followed by the next "$k". */
  lemma ClausesPlaceholders(head: string, a: string, b: string, w: string)
    requires '$' !in head && '$' !in a && '$' !in b && '$' !in w
    requires head != [] && a != [] && b != [] && w != []
    ensures Placeholders(head + w + Placeholder(1)) == [1]
    ensures Placeholders(head + a + Placeholder(1) + w + Placeholder(2)) == [1, 2]
    ensures Placeholders(head + a + Placeholder(1) + b + Placeholder(2) + w + Placeholder(3)) == [1, 2, 3]
  {
    PlaceholdersNone(head);
    AppendClause(head, w, 1);
    AppendClause(head, a, 1);
    var q1 := head + a + Placeholder(1);
    AppendClause(q1, w, 2);
    AppendClause(q1, b, 2);
    AppendClause(q1 + b + Placeholder(2), w, 3);
  }

  /** In every statement the builder can produce, the placeholders are $1 to $n in
      order, where n is the number of arguments: $k stands for args[k-1], and the
      WHERE placeholder, the last one, for the last argument. */
  lemma UpdateStatementPlaceholders(name: string, avatar: string, userId: string)
    ensures var st := UpdateStatement(name, avatar, userId);
            Placeholders(st.query) == seq(|st.args|, i => i + 1)
  {
    PiecesAreLiteral();
    if name != "" && avatar != "" {
      ClausesPlaceholders(UpdateHead, SetName, SetAvatar, WhereId);
      assert seq(3, i => i + 1) == [1, 2, 3];
    } else if name != "" {
      ClausesPlaceholders(UpdateHead, SetName, SetName, WhereId);
      assert seq(2, i => i + 1) == [1, 2];
    } else if avatar != "" {
      ClausesPlaceholders(UpdateHead, SetAvatar, SetAvatar, WhereId);
      assert seq(2, i => i + 1) == [1, 2];
    } else {
      ClausesPlaceholders(UpdateHead, WhereId, WhereId, WhereId);
      assert seq(1, i => i + 1) == [1];
    }
  }

  /** The fixed pieces of the statement are non-empty and contain no '$'. */
  lemma PiecesAreLiteral()
    ensures '$' !in UpdateHead && '$' !in SetName && '$' !in SetAvatar && '$' !in WhereId
    ensures UpdateHead != [] && SetName != [] && SetAvatar != [] && WhereId != []
  {
  }

  /** The value the statement binds to the name column: the first argument,
      when the clause right after the head sets the name. */
  function NameValue(st: Statement): Option<string>
  {
    if |st.args| >= 2 && UpdateHead + SetName <= st.query then Some(st.args[0]) else None
  }

  /** The value the statement binds to the avatar column: the second argument
      when the name clause and then the avatar clause follow the head, or the
      first when the clause after the head sets the avatar. */
  function AvatarValue(st: Statement): Option<string>
  {
    if |st.args| == 3 && UpdateHead + SetName + Placeholder(1) + SetAvatar <= st.query then Some(st.args[1])
    else if |st.args| == 2 && UpdateHead + SetAvatar <= st.query then Some(st.args[0])
    else None
  }

  lemma PrefixOfAppend(p: string, q: string, r: string)
    requires p <= q
    ensures p <= q + r
  {
    assert (q + r)[..|q|] == q;
  }

  /** Two clauses that differ at their third character cannot both follow the
      head at the start of one query. */
  lemma ClausesExclusive(head: string, a: string, b: string, q: string)
    requires |a| >= 3 && |b| >= 3 && a[2] != b[2]
    requires head + b <= q
    ensures !(head + a <= q)
  {
    assert q[|head| + 2] == (head + b)[|head| + 2] == b[2];
    assert (head + a)[|head| + 2] == a[2];
  }

  /** Read back from the statement, the name column is set to the name exactly
      when one was given, and likewise the avatar column: the statement carries
      each given field to its own column and nothing else. */
  lemma {:induction false} StatementColumns(name: string, avatar: string, userId: string)
    ensures var st := UpdateStatement(name, avatar, userId);
            && NameValue(st) == (if name != "" then Some(name) else None)
            && AvatarValue(st) == (if avatar != "" then Some(avatar) else None)
            && st.args[|st.args| - 1] == userId
  {
    var st := UpdateStatement(name, avatar, userId);
    var p1, p2, p3 := Placeholder(1), Placeholder(2), Placeholder(3);
    if name != "" && avatar != "" {
      PrefixOfAppend(UpdateHead + SetName, UpdateHead + SetName, p1);
      PrefixOfAppend(UpdateHead + SetName, UpdateHead + SetName + p1, SetAvatar);
      PrefixOfAppend(UpdateHead + SetName, UpdateHead + SetName + p1 + SetAvatar, p2);
      PrefixOfAppend(UpdateHead + SetName, UpdateHead + SetName + p1 + SetAvatar + p2, WhereId);
      PrefixOfAppend(UpdateHead + SetName, UpdateHead + SetName + p1 + SetAvatar + p2 + WhereId, p3);
    } else if name != "" {
      PrefixOfAppend(UpdateHead + SetName, UpdateHead + SetName, p1);
      PrefixOfAppend(UpdateHead + SetName, UpdateHead + SetName + p1, WhereId);
      PrefixOfAppend(UpdateHead + SetName, UpdateHead + SetName + p1 + WhereId, p2);
      ClausesExclusive(UpdateHead, SetAvatar, SetName, st.query);
    } else if avatar != "" {
      PrefixOfAppend(UpdateHead + SetAvatar, UpdateHead + SetAvatar, p1);
      PrefixOfAppend(UpdateHead + SetAvatar, UpdateHead + SetAvatar + p1, WhereId);
      PrefixOfAppend(UpdateHead + SetAvatar, UpdateHead + SetAvatar + p1 + WhereId, p2);
      ClausesExclusive(UpdateHead, SetName, SetAvatar, st.query);
    }
  }

  /** The arguments: at most 3 (so each placeholder number is one digit), the user
      id last, and before it exactly the given fields, name first, none of them
      empty: the update never sets a field to "". */
  lemma UpdateStatementArguments(name: string, avatar: string, userId: string)
    ensures var st := UpdateStatement(name, avatar, userId);
            && 1 <= |st.args| <= 3
            && st.args[|st.args| - 1] == userId
            && st.args[..|st.args| - 1] == (if name != "" then [name] else []) + (if avatar != "" then [avatar] else [])
            && (forall i :: 0 <= i < |st.args| - 1 ==> st.args[i] != "")
  {
  }
}
