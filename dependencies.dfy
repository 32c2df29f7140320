/** app/dependencies.py: the request dependencies that turn a bearer token into the calling
    user and gate an endpoint on that user's state and role. Decoding the token is outside
    this model: its "sub" claim is a parameter. */
module Dependencies {
  import opened Wrappers
  import opened Seqs
  import opened Models
  import opened Decimal
  import opened Database
  import UserCrud

  /** `get_current_user`: a missing or empty "sub" is 401; a "sub" that `int` refuses raises
      (500); otherwise the user with that id, or `get_user`'s 404. */
  function GetCurrentUser(users: seq<User>, sub: Option<string>): (r: Result<User>)
    ensures !Truthy(sub) ==> r == Fail(401, "Invalid authentication token")
    ensures Truthy(sub) && ParseInt(sub.value).None? ==> StatusOf(r) == 500
    ensures Truthy(sub) && ParseInt(sub.value).Some? ==> r == UserCrud.GetUser(users, ParseInt(sub.value).value)
  {
    if !Truthy(sub) then Fail(401, "Invalid authentication token")
    else match ParseInt(sub.value)
      case None => Fail(500, "invalid literal for int() with base 10")
      case Some(id) => UserCrud.GetUser(users, id)
  }

  /** A token issued at login carries `str(user.id)`; presented while that user exists, it
      identifies exactly that user, and once the user is deleted it is a 404. */
  lemma TokenIdentifiesUser(users: seq<User>, u: User)
    requires UniqueKeys(users, UserKey)
    ensures u in users ==> GetCurrentUser(users, Some(ShowInt(u.id))) == Ok(u)
    ensures (forall v :: v in users ==> v.id != u.id) ==>
              GetCurrentUser(users, Some(ShowInt(u.id))) == Fail(404, "User not found")
  {
    ParseShowInt(u.id);
    assert |ShowInt(u.id)| > 0;
    if u in users {
      FindUnique(users, UserKey, u);
    }
  }

  /** `check_not_blocked`: 403 for a blocked user, else the user unchanged. */
  function CheckNotBlocked(u: User): (r: Result<User>)
    ensures r.Ok? <==> !u.isBlocked
    ensures r.Ok? ==> r.value == u
    ensures r.Err? ==> r.error == HttpError(403, "Your account is blocked. Please contact support.")
  {
    if u.isBlocked then Fail(403, "Your account is blocked. Please contact support.") else Ok(u)
  }

  /** `sep.join(parts)`: the parts in order, with `sep` between each two. */
  function Join(sep: string, parts: seq<string>): (r: string)
    ensures |parts| == 0 ==> r == ""
    ensures |parts| == 1 ==> r == parts[0]
    ensures |parts| > 1 ==> r == Join(sep, parts[..|parts| - 1]) + sep + parts[|parts| - 1]
  {
    if |parts| == 0 then ""
    else if |parts| == 1 then parts[0]
    else
      var rest := parts[1..];
      assert rest[..|rest| - 1] == parts[1..|parts| - 1];
      assert parts[..|parts| - 1][1..] == parts[1..|parts| - 1];
      parts[0] + sep + Join(sep, rest)
  }

  /** Joining one more part appends the separator and that part. */
  lemma JoinAppend(sep: string, parts: seq<string>, x: string)
    requires |parts| > 0
    ensures Join(sep, parts + [x]) == Join(sep, parts) + sep + x
  {
    assert (parts + [x])[..|parts|] == parts;
  }

  function RoleValues(roles: seq<Role>): (r: seq<string>)
    ensures |r| == |roles| && forall i :: 0 <= i < |roles| ==> r[i] == RoleValue(roles[i])
  {
    seq(|roles|, i requires 0 <= i < |roles| => RoleValue(roles[i]))
  }

  const RolePrefix := "You do not have the required role to access this resource. Required roles: "

  /** `role_required(required)`: the user when its role is listed, else 403 naming the
      required roles. It depends on `get_current_user`, not on `check_not_blocked`. */
  function RoleRequired(required: seq<Role>, u: User): (r: Result<User>)
    ensures r.Ok? <==> u.role in required
    ensures r.Ok? ==> r.value == u
    ensures r.Err? ==> r.error == HttpError(403, RolePrefix + Join(", ", RoleValues(required)))
  {
    if u.role !in required then Fail(403, RolePrefix + Join(", ", RoleValues(required)))
    else Ok(u)
  }

  /** A role gate lets a blocked user through exactly when it lets the same user, unblocked,
      through: it never looks at the flag. */
  lemma RoleGateIgnoresBlocking(required: seq<Role>, u: User, blocked: bool)
    ensures RoleRequired(required, u.(isBlocked := blocked)).Ok? == RoleRequired(required, u).Ok?
    ensures RoleRequired(required, u).Err? ==>
              RoleRequired(required, u.(isBlocked := blocked)) == RoleRequired(required, u)
  {
  }

  /** The 403 of a one-role gate names that role alone. */
  lemma SingleRoleMessage(role: Role, u: User)
    requires u.role != role
    ensures RoleRequired([role], u) == Fail(403, RolePrefix + RoleValue(role))
  {
  }

  /** The 403 of the `[OWNER, ADMIN]` gate on the access-code routes names both roles, in
      that order. */
  lemma OwnerOrAdminMessage(u: User)
    requires u.role == USER
    ensures RoleRequired([OWNER, ADMIN], u) == Fail(403, RolePrefix + "OWNER, ADMIN")
  {
    assert RoleValues([OWNER, ADMIN]) == ["OWNER", "ADMIN"];
    assert Join(", ", ["OWNER", "ADMIN"]) == "OWNER" + ", " + "ADMIN";
  }
}
