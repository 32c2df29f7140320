/** app/crud/user.py: users are created with a hashed password, updated field by field by
    themselves or an admin, deleted by themselves or an admin, looked up, authenticated by
    email and password, and blocked or unblocked. */
module UserCrud {
  import opened Wrappers
  import opened Seqs
  import opened Models
  import opened Database

  /** The user with that email (`scalar_one_or_none` on the UNIQUE email column). */
  function FindByEmail(users: seq<User>, email: string): (r: Option<User>)
    ensures r.Some? ==> r.value in users && r.value.email == email
    ensures r.None? <==> forall u :: u in users ==> u.email != email
  {
    if users == [] then None
    else if users[0].email == email then Some(users[0])
    else FindByEmail(users[1..], email)
  }

  /** Some row other than `id` already holds `email`. */
  predicate EmailTaken(users: seq<User>, email: string, id: int) {
    exists u :: u in users && u.id != id && u.email == email
  }


  /** `get_user`: 404 for an unknown id. */
  function GetUser(users: seq<User>, id: int): (r: Result<User>)
    ensures r.Ok? ==> r.value in users && r.value.id == id
    ensures r.Err? <==> forall u :: u in users ==> u.id != id
    ensures r.Err? ==> r.error == HttpError(404, "User not found")
  {
    match Find(users, UserKey, id)
    case None => Fail(404, "User not found")
    case Some(u) => Ok(u)
  }

  /** `create_user`: the row the INSERT would store (the next id, the hashed password, not
      blocked), or the unique-email violation. */
  function NewUser(users: seq<User>, nextId: int, data: UserCreate): (r: Result<User>)
    ensures r.Ok? <==> forall u :: u in users ==> u.email != data.email
    ensures r.Ok? ==> r.value.password == HashPassword(data.password) && !r.value.isBlocked
    ensures r.Ok? ==> r.value.id == nextId && r.value.email == data.email && r.value.role == data.role
    ensures r.Ok? ==> r.value.firstName == data.firstName && r.value.lastName == data.lastName
    ensures r.Err? ==> r.error.status == 500
  {
    if FindByEmail(users, data.email).Some? then Fail(500, DuplicateKey)
    else Ok(User(nextId, data.firstName, data.lastName, data.email,
                 HashPassword(data.password), data.role, false))
  }

  /** The stored password never is the plaintext of a created user. */
  lemma CreatedPasswordIsHashed(users: seq<User>, nextId: int, data: UserCreate)
    requires NewUser(users, nextId, data).Ok?
    ensures NewUser(users, nextId, data).value.password.Hashed?
    ensures VerifyPassword(data.password, NewUser(users, nextId, data).value.password)
  {
  }

  method CreateUser(db: Db, data: UserCreate) returns (r: Result<User>)
    requires db.Valid()
    modifies db`users, db`nextUserId
    ensures db.Valid()
    ensures r == NewUser(old(db.users), old(db.nextUserId), data)
    ensures r.Ok? ==> db.users == old(db.users) + [r.value] && db.nextUserId == old(db.nextUserId) + 1
    ensures r.Err? ==> db.users == old(db.users) && db.nextUserId == old(db.nextUserId)
  {
    r := NewUser(db.users, db.nextUserId, data);
    if r.Ok? {
      var old_users := db.users;
      AppendKeepsKeys(old_users, UserKey, db.nextUserId, r.value);
      AppendPairwise(old_users, DistinctEmails, r.value);
      forall k | HasUser(old_users, k) ensures HasUser(old_users + [r.value], k) {
        AppendPresence(old_users, UserKey, r.value, k);
      }
      UsersKept(old_users, old_users + [r.value], db.properties, db.bookings, db.nextPropertyId, db.nextBookingId);
      db.users := old_users + [r.value];
      db.nextUserId := db.nextUserId + 1;
    }
  }

  /** The self-or-admin rule of `update_user` and `delete_user`, checked before any lookup. */
  function SelfOrAdmin(targetId: int, caller: User, action: string): (r: Result<()>)
    ensures r.Ok? <==> targetId == caller.id || caller.role == ADMIN
    ensures r.Err? ==> r.error.status == 403
  {
    if targetId != caller.id && caller.role != ADMIN then
      Fail(403, "You are not allowed to " + action + " this user.")
    else Ok(())
  }

  /** The stored password after an update: a truthy password is hashed; an empty one is not
      hashed (`if user.password` fails) yet still copied (it is not None). */
  function UpdatedPassword(update: Option<string>, current: StoredPassword): StoredPassword {
    if Truthy(update) then HashPassword(update.value)
    else if update.Some? then Plain(update.value)
    else current
  }

  /** Copy the non-None fields of the update; id and the blocked flag never change. */
  function ApplyUserUpdate(u: User, upd: UserUpdate): (r: User)
    ensures r.id == u.id && r.isBlocked == u.isBlocked
    ensures upd.firstName.None? ==> r.firstName == u.firstName
    ensures upd.lastName.None? ==> r.lastName == u.lastName
    ensures upd.email.None? ==> r.email == u.email
    ensures upd.role.None? ==> r.role == u.role
    ensures upd.password.None? ==> r.password == u.password
    ensures upd.firstName.Some? ==> r.firstName == upd.firstName.value
    ensures upd.lastName.Some? ==> r.lastName == upd.lastName.value
    ensures upd.email.Some? ==> r.email == upd.email.value
    ensures upd.role.Some? ==> r.role == upd.role.value
    ensures Truthy(upd.password) ==> VerifyPassword(upd.password.value, r.password)
  {
    u.(firstName := Merge(upd.firstName, u.firstName),
       lastName := Merge(upd.lastName, u.lastName),
       email := Merge(upd.email, u.email),
       role := Merge(upd.role, u.role),
       password := UpdatedPassword(upd.password, u.password))
  }

  /** An update with no fields set changes nothing. */
  lemma EmptyUserUpdate(u: User)
    ensures ApplyUserUpdate(u, UserUpdate(None, None, None, None, None)) == u
  {
  }

  /** An empty password in an update is written to the column without hashing, and then no
      password verifies against it. */
  lemma EmptyPasswordStoredUnhashed(u: User, upd: UserUpdate, attempt: string)
    requires upd.password == Some("")
    ensures ApplyUserUpdate(u, upd).password == Plain("")
    ensures !VerifyPassword(attempt, ApplyUserUpdate(u, upd).password)
  {
  }

  /** `update_user`: 403 unless self or admin (even for an unknown id), 404 for an unknown id,
      the unique-email violation, else the updated row. */
  function UpdateUserResult(users: seq<User>, targetId: int, upd: UserUpdate, caller: User): (r: Result<User>)
    ensures StatusOf(r) == 403 <==> targetId != caller.id && caller.role != ADMIN
    ensures (SelfOrAdmin(targetId, caller, "update").Ok? && forall u :: u in users ==> u.id != targetId) ==>
              r == Fail(404, "User not found")
    ensures r.Ok? ==> exists u :: u in users && u.id == targetId && r.value == ApplyUserUpdate(u, upd)
    ensures r.Ok? ==> !EmailTaken(users, r.value.email, targetId)
    ensures SelfOrAdmin(targetId, caller, "update").Ok? && GetUser(users, targetId).Ok? ==>
              (r.Ok? <==> !EmailTaken(users, ApplyUserUpdate(GetUser(users, targetId).value, upd).email, targetId))
  {
    var _ :- SelfOrAdmin(targetId, caller, "update");
    var stored :- GetUser(users, targetId);
    var updated := ApplyUserUpdate(stored, upd);
    if EmailTaken(users, updated.email, targetId) then Fail(500, DuplicateKey) else Ok(updated)
  }

  method UpdateUser(db: Db, targetId: int, upd: UserUpdate, caller: User) returns (r: Result<User>)
    requires db.Valid()
    modifies db`users
    ensures db.Valid()
    ensures r == UpdateUserResult(old(db.users), targetId, upd, caller)
    ensures r.Ok? ==> db.users == Replace(old(db.users), UserKey, targetId, r.value)
    ensures r.Err? ==> db.users == old(db.users)
  {
    r := UpdateUserResult(db.users, targetId, upd, caller);
    if r.Ok? {
      var old_users := db.users;
      var row := r.value;
      ReplaceKeepsKeys(old_users, UserKey, db.nextUserId, row);
      var new_users := Replace(old_users, UserKey, targetId, row);
      forall k ensures HasUser(new_users, k) == HasUser(old_users, k) {
        ReplaceKeepsPresence(old_users, UserKey, row, k);
      }
      ReplacePairwise(old_users, UserKey, row, DistinctEmails);
      UsersKept(old_users, new_users, db.properties, db.bookings, db.nextPropertyId, db.nextBookingId);
      db.users := new_users;
    }
  }

  /** A row of `properties` or `bookings` still holds a foreign key to this user. */
  predicate UserReferenced(properties: seq<Property>, bookings: seq<Booking>, id: int) {
    (exists p :: p in properties && p.ownerId == id) || (exists b :: b in bookings && b.userId == id)
  }

  /** `delete_user`: 403 unless self or admin, 404 for an unknown id, the foreign-key
      violation when the user still owns properties or bookings, else the deleted row. */
  function DeleteUserResult(
    users: seq<User>, properties: seq<Property>, bookings: seq<Booking>, targetId: int, caller: User)
    : (r: Result<User>)
    ensures StatusOf(r) == 403 <==> targetId != caller.id && caller.role != ADMIN
    ensures r.Ok? ==> r.value in users && r.value.id == targetId
    ensures r.Ok? ==> !UserReferenced(properties, bookings, targetId)
    ensures (SelfOrAdmin(targetId, caller, "delete").Ok? && forall u :: u in users ==> u.id != targetId) ==>
              r == Fail(404, "User not found")
  {
    var _ :- SelfOrAdmin(targetId, caller, "delete");
    var stored :- GetUser(users, targetId);
    if UserReferenced(properties, bookings, targetId) then Fail(500, StillReferenced) else Ok(stored)
  }

  method DeleteUser(db: Db, targetId: int, caller: User) returns (r: Result<User>)
    requires db.Valid()
    modifies db`users
    ensures db.Valid()
    ensures r == DeleteUserResult(old(db.users), db.properties, db.bookings, targetId, caller)
    ensures r.Ok? ==> db.users == RemoveKey(old(db.users), UserKey, targetId)
    ensures r.Err? ==> db.users == old(db.users)
  {
    r := DeleteUserResult(db.users, db.properties, db.bookings, targetId, caller);
    if r.Ok? {
      var old_users := db.users;
      var new_users := RemoveKey(old_users, UserKey, targetId);
      FilterKeepsKeys(KeyIsNot(UserKey, targetId), old_users, UserKey, db.nextUserId);
      FilterPairwise(KeyIsNot(UserKey, targetId), old_users, DistinctEmails);
      forall k | HasUser(old_users, k) && k != targetId ensures HasUser(new_users, k) {
        HasKeyMember(old_users, UserKey, k);
        FilterPresence(KeyIsNot(UserKey, targetId), old_users, UserKey, k);
      }
      assert forall p :: p in db.properties ==> p.ownerId != targetId;
      assert forall b :: b in db.bookings ==> b.userId != targetId;
      db.users := new_users;
    }
  }

  /** `authenticate_user`: 404 for an unknown email, 401 for a wrong password, else the user
      with that email. */
  function AuthenticateUser(users: seq<User>, email: string, password: string): (r: Result<User>)
    ensures r.Ok? ==> r.value in users && r.value.email == email && VerifyPassword(password, r.value.password)
    ensures (forall u :: u in users ==> u.email != email) <==> r == Fail(404, "User not found")
    ensures r.Err? && r.error.status != 404 ==> r == Fail(401, "Incorrect password")
    ensures UniqueEmails(users) ==>
              (r.Ok? <==> exists u :: u in users && u.email == email && VerifyPassword(password, u.password))
  {
    match FindByEmail(users, email)
    case None => Fail(404, "User not found")
    case Some(u) =>
      if !VerifyPassword(password, u.password) then
        assert UniqueEmails(users) ==> forall v :: v in users && v.email == email ==> v == u by {
          if UniqueEmails(users) {
            forall v | v in users && v.email == email ensures v == u {
              var i :| 0 <= i < |users| && users[i] == v;
              var j :| 0 <= j < |users| && users[j] == u;
              assert i == j;
            }
          }
        }
        Fail(401, "Incorrect password")
      else Ok(u)
  }

  /** The users table with the blocked flag of user `id` set to `flag`. */
  function SetBlocked(users: seq<User>, id: int, flag: bool): (r: seq<User>)
    ensures |r| == |users|
    ensures forall i :: 0 <= i < |users| ==>
              r[i] == if users[i].id == id then users[i].(isBlocked := flag) else users[i]
  {
    seq(|users|, i requires 0 <= i < |users| =>
      if users[i].id == id then users[i].(isBlocked := flag) else users[i])
  }

  /** Setting the flag twice is setting it once; blocking then unblocking a user who was not
      blocked restores the table. */
  lemma BlockIdempotent(users: seq<User>, id: int, flag: bool)
    ensures SetBlocked(SetBlocked(users, id, flag), id, flag) == SetBlocked(users, id, flag)
    ensures (forall u :: u in users && u.id == id ==> !u.isBlocked) ==>
              SetBlocked(SetBlocked(users, id, true), id, false) == users
  {
    if forall u :: u in users && u.id == id ==> !u.isBlocked {
      var r := SetBlocked(SetBlocked(users, id, true), id, false);
      forall i | 0 <= i < |users| ensures r[i] == users[i] {
        assert users[i] in users;
      }
    }
  }

  /** Setting one user's flag keeps the keys, the unique emails and every foreign key to the
      users table. */
  lemma BlockKeepsTables(users: seq<User>, properties: seq<Property>, bookings: seq<Booking>,
    nextUser: int, nextProperty: int, nextBooking: int, id: int, flag: bool)
    requires UsersValid(users, nextUser) && GetUser(users, id).Ok?
    requires PropertiesValid(users, properties, nextProperty)
    requires BookingsValid(users, properties, bookings, nextBooking)
    ensures UsersValid(SetBlocked(users, id, flag), nextUser)
    ensures PropertiesValid(SetBlocked(users, id, flag), properties, nextProperty)
    ensures BookingsValid(SetBlocked(users, id, flag), properties, bookings, nextBooking)
  {
    var found := GetUser(users, id);
    var old_users := users;
    var row := found.value.(isBlocked := flag);
    var new_users := SetBlocked(old_users, id, flag);
    assert new_users == Replace(old_users, UserKey, id, row) by {
      forall i | 0 <= i < |old_users| && old_users[i].id == id ensures old_users[i] == found.value {
        assert UserKey(old_users[i]) == UserKey(found.value);
        var j :| 0 <= j < |old_users| && old_users[j] == found.value;
        assert i == j;
      }
    }
    ReplaceKeepsKeys(old_users, UserKey, nextUser, row);
    forall k ensures HasUser(new_users, k) == HasUser(old_users, k) {
      ReplaceKeepsPresence(old_users, UserKey, row, k);
    }
    UsersKept(old_users, new_users, properties, bookings, nextProperty, nextBooking);
    forall x | x in old_users && x.id != id ensures DistinctEmails(x, row) && DistinctEmails(row, x) {
      var i :| 0 <= i < |old_users| && old_users[i] == x;
      var j :| 0 <= j < |old_users| && old_users[j] == found.value;
      assert i != j;
    }
    ReplacePairwise(old_users, UserKey, row, DistinctEmails);
  }

  /** `block_user` (flag true) and `unblock_user` (flag false): 404 for an unknown id, else the
      user with the flag set; only that row changes. */
  method SetUserBlocked(db: Db, id: int, flag: bool) returns (r: Result<User>)
    requires db.Valid()
    modifies db`users
    ensures db.Valid()
    ensures r.Err? <==> forall u :: u in old(db.users) ==> u.id != id
    ensures r.Err? ==> r.error == HttpError(404, "User not found") && db.users == old(db.users)
    ensures r.Ok? ==> r.value.id == id && r.value.isBlocked == flag
    ensures r.Ok? ==> old(GetUser(db.users, id)) == Ok(r.value.(isBlocked := !flag)) ||
                      old(GetUser(db.users, id)) == Ok(r.value)
    ensures r.Ok? ==> db.users == SetBlocked(old(db.users), id, flag)
  {
    var found := GetUser(db.users, id);
    if found.Err? {
      return found;
    }
    var row := found.value.(isBlocked := flag);
    var new_users := SetBlocked(db.users, id, flag);
    BlockKeepsTables(db.users, db.properties, db.bookings, db.nextUserId, db.nextPropertyId,
                     db.nextBookingId, id, flag);
    db.users := new_users;
    r := Ok(row);
  }
}
