/**
 * Login entities, the role gate, the credential check and the login /
 * register handlers, all working on the `"user"` entry of the session and on
 * the `"users"` collection.
 */
module MgoAuth {
  import opened Wrappers
  import opened Web
  import opened Store
  import Subtle

  /** The role names the package exports for callers of RequireRole. */
  const Admin := "admin"
  const Default := "default"

  /** The session key under which the logged-in user is kept. */
  const UserKey := "user"
  /** The collection of registered users, keyed by user id. */
  const Users := "users"

  /** A login entity. `roles` is a Go map from role to flag: a role that is missing reads as false. */
  datatype User = User(id: string, password: string, mail: string, alias: string, roles: map<string, bool>)

  /** `&User{}`: every field at its zero value. */
  function EmptyUser(): User
  {
    User("", "", "", "", map[])
  }

  /** `user.Roles[role]`, where a missing key (or a nil map) yields false. */
  predicate HasRole(u: User, role: string)
  {
    role in u.roles && u.roles[role]
  }

  /**
   * The JSON encoding of a User: `_id` is omitted when empty; the tag on Mail is
   * malformed (a space after the colon), so that field keeps its Go name.
   */
  function UserJson(u: User): (j: Json)
    ensures j.JObject? && j.fields.Keys == {"password", "Mail", "alias", "roles"} + (if u.id == "" then {} else {"_id"})
    ensures u.id != "" ==> j.fields["_id"] == JString(u.id)
    ensures j.fields["password"] == JString(u.password) && j.fields["alias"] == JString(u.alias)
    ensures j.fields["Mail"] == JString(u.mail) && "mail" !in j.fields
    ensures j.fields["roles"].JObject? && j.fields["roles"].fields.Keys == u.roles.Keys
    ensures forall r :: r in u.roles ==> j.fields["roles"].fields[r] == JBool(u.roles[r])
  {
    var rest := map["password" := JString(u.password), "Mail" := JString(u.mail),
                    "alias" := JString(u.alias),
                    "roles" := JObject(map r | r in u.roles :: JBool(u.roles[r]))];
    JObject(if u.id == "" then rest else rest["_id" := JString(u.id)])
  }

  /**
   * The cookie session of one client: what Get and Set see during the request
   * (`values`) and what the session store holds (`persisted`), which changes
   * only by a successful Save.
   */
  class Session {
    var values: map<string, User>
    var persisted: map<string, User>
    /** The session store's answer to Save, chosen by the environment. */
    const saveFails: bool

    constructor (stored: map<string, User>, saveFails: bool)
      ensures values == stored && persisted == stored && this.saveFails == saveFails
    {
      values := stored;
      persisted := stored;
      this.saveFails := saveFails;
    }

    /** `session.Set(key, u)`. */
    method Set(key: string, u: User)
      modifies this`values
      ensures values == old(values)[key := u]
    {
      values := values[key := u];
    }

    /** `session.Save()`: reports whether it failed; on success the store holds what Set wrote. */
    method Save() returns (failed: bool)
      modifies this`persisted
      ensures failed == saveFails
      ensures persisted == if failed then old(persisted) else values
    {
      failed := saveFails;
      if !failed {
        persisted := values;
      }
    }
  }

  /** GetUserId: the id of the session's user, or the empty string when no user is stored. */
  function GetUserId(values: map<string, User>): (id: string)
    ensures UserKey in values ==> id == values[UserKey].id
    ensures UserKey !in values ==> id == ""
  {
    if UserKey in values then values[UserKey].id else ""
  }

  /** The three outcomes of the role gate. */
  datatype Gate = DenyNotLoggedIn | DenyNoPermission | Continue

  /** The decision RequireRole takes on a request whose session holds `values`. */
  function Decide(values: map<string, User>, role: string): (g: Gate)
    ensures g == DenyNotLoggedIn <==> UserKey !in values
    ensures g == DenyNoPermission <==> UserKey in values && !HasRole(values[UserKey], role)
    ensures g == Continue <==> UserKey in values && HasRole(values[UserKey], role)
  {
    if UserKey !in values then DenyNotLoggedIn
    else if !HasRole(values[UserKey], role) then DenyNoPermission
    else Continue
  }

  /** NotLoggedIn: 401 "User not logged in!" and abort. */
  method NotLoggedIn(c: Context)
    modifies c`replies, c`aborted
    ensures c.replies == old(c.replies) + [Reply(StatusUnauthorized, Text("User not logged in!"))]
    ensures c.aborted
  {
    c.String(StatusUnauthorized, "User not logged in!");
    c.Abort();
  }

  /** NoPermission: 401 "No permission!" and abort. */
  method NoPermission(c: Context)
    modifies c`replies, c`aborted
    ensures c.replies == old(c.replies) + [Reply(StatusUnauthorized, Text("No permission!"))]
    ensures c.aborted
  {
    c.String(StatusUnauthorized, "No permission!");
    c.Abort();
  }

  /** The middleware `RequireRole(role)` returns, run on one request. */
  method RequireRole(role: string, c: Context, s: Session)
    modifies c`replies, c`aborted, c`nextCalled
    ensures Decide(s.values, role) == DenyNotLoggedIn ==>
      c.replies == old(c.replies) + [Reply(StatusUnauthorized, Text("User not logged in!"))] &&
      c.aborted && c.nextCalled == old(c.nextCalled)
    ensures Decide(s.values, role) == DenyNoPermission ==>
      c.replies == old(c.replies) + [Reply(StatusUnauthorized, Text("No permission!"))] &&
      c.aborted && c.nextCalled == old(c.nextCalled)
    ensures Decide(s.values, role) == Continue ==>
      c.replies == old(c.replies) && c.aborted == old(c.aborted) && c.nextCalled
  {
    if UserKey in s.values {
      var user := s.values[UserKey];
      if !HasRole(user, role) {
        NoPermission(c);
      } else {
        c.Next();
      }
    } else {
      NotLoggedIn(c);
    }
  }

  /** The two denials share their status and differ in their text. */
  lemma DenialsDistinguishable()
    ensures Reply(StatusUnauthorized, Text("User not logged in!")).status == Reply(StatusUnauthorized, Text("No permission!")).status
    ensures Reply(StatusUnauthorized, Text("User not logged in!")) != Reply(StatusUnauthorized, Text("No permission!"))
  {
    assert "User not logged in!"[0] != "No permission!"[0];
  }

  /** A SHA-256 digest: 32 bytes. */
  type Digest = d: seq<bv8> | |d| == 32 witness seq(32, _ => 0 as bv8)

  /** secureCompare: compares the SHA-256 digests of the two strings in constant time. */
  function SecureCompare(sha256: string -> Digest, given: string, actual: string): (ok: bool)
    ensures ok <==> sha256(given) == sha256(actual)
  {
    Subtle.ConstantTimeCompare(sha256(given), sha256(actual)) == 1
  }

  lemma SecureCompareReflexive(sha256: string -> Digest, s: string)
    ensures SecureCompare(sha256, s, s)
  {
  }

  lemma SecureCompareSymmetric(sha256: string -> Digest, a: string, b: string)
    ensures SecureCompare(sha256, a, b) == SecureCompare(sha256, b, a)
  {
  }

  /** When the hash does not collide on `a` and `b`, secureCompare is string equality. */
  lemma SecureCompareExact(sha256: string -> Digest, a: string, b: string)
    requires sha256(a) == sha256(b) ==> a == b
    ensures SecureCompare(sha256, a, b) <==> a == b
  {
  }

  /** Why doLogin refused: empty credentials, or the submitted user and the lookup's error (None when the lookup succeeded but the passwords differ). */
  datatype LoginError = EmptyCredentials | Rejected(submitted: User, lookup: Option<StoreError>)

  /**
   * doLogin: refuses empty credentials outright; otherwise looks the user up by
   * `_id` and, when the passwords match, returns the STORED record.
   */
  function DoLogin(actual: User, db: Database<string, User>, sha256: string -> Digest): (r: Result<User, LoginError>)
    reads db
    ensures actual.id == "" || actual.password == "" ==> r == Failure(EmptyCredentials)
    ensures r.Success? <==>
      actual.id != "" && actual.password != "" && db.FindId(Users, actual.id).Success? &&
      sha256(actual.password) == sha256(db.FindId(Users, actual.id).value.password)
    ensures r.Success? ==> r.value == db.C(Users)[actual.id]
  {
    if actual.id != "" && actual.password != "" then
      var found := db.FindId(Users, actual.id);
      if found.Success? && SecureCompare(sha256, actual.password, found.value.password) then
        Success(found.value)
      else
        Failure(Rejected(actual, if found.Failure? then Some(found.error) else None))
    else
      Failure(EmptyCredentials)
  }

  /** Empty credentials are refused whatever the store holds. */
  lemma DoLoginEmptyIgnoresStore(actual: User, db1: Database<string, User>, db2: Database<string, User>, sha256: string -> Digest)
    requires actual.id == "" || actual.password == ""
    ensures DoLogin(actual, db1, sha256) == DoLogin(actual, db2, sha256) == Failure(EmptyCredentials)
  {
  }

  /** Only the submitted id and password matter: roles, mail and alias sent by the client never reach the result. */
  lemma DoLoginIgnoresClientFields(a: User, b: User, db: Database<string, User>, sha256: string -> Digest)
    requires a.id == b.id && a.password == b.password
    ensures DoLogin(a, db, sha256).Success? <==> DoLogin(b, db, sha256).Success?
    ensures DoLogin(a, db, sha256).Success? ==> DoLogin(a, db, sha256) == DoLogin(b, db, sha256)
  {
  }

  /** Every stored user sits under its own id. */
  ghost predicate KeyedById(users: map<string, User>)
  {
    forall k :: k in users ==> users[k].id == k
  }

  /** In a collection keyed by id, a successful login returns the user with the submitted id and the stored roles. */
  lemma DoLoginReturnsStoredUser(actual: User, db: Database<string, User>, sha256: string -> Digest)
    requires KeyedById(db.C(Users))
    requires DoLogin(actual, db, sha256).Success?
    ensures DoLogin(actual, db, sha256).value.id == actual.id
    ensures DoLogin(actual, db, sha256).value.roles == db.C(Users)[actual.id].roles
  {
  }

  /**
   * When the hash does not collide on the submitted and the stored password,
   * a successful login means the submitted password is the stored one.
   */
  lemma DoLoginNeedsStoredPassword(actual: User, db: Database<string, User>, sha256: string -> Digest)
    requires actual.id in db.C(Users) ==>
      (sha256(actual.password) == sha256(db.C(Users)[actual.id].password) ==> actual.password == db.C(Users)[actual.id].password)
    requires DoLogin(actual, db, sha256).Success?
    ensures actual.id in db.C(Users) && db.C(Users)[actual.id].password == actual.password
  {
  }

  /**
   * PostLogin: checks the credentials the client sent and, on success, puts the
   * stored user into the session and saves it. It writes no reply of its own.
   */
  method PostLogin(s: Session, db: Database<string, User>, submitted: User, sha256: string -> Digest)
    modifies s
    ensures DoLogin(submitted, db, sha256).Success? ==>
      s.values == old(s.values)[UserKey := DoLogin(submitted, db, sha256).value] &&
      s.persisted == (if s.saveFails then old(s.persisted) else s.values)
    ensures DoLogin(submitted, db, sha256).Failure? ==>
      s.values == old(s.values) && s.persisted == old(s.persisted)
  {
    var r := DoLogin(submitted, db, sha256);
    if r.Success? {
      s.Set(UserKey, r.value);
      var failed := s.Save();
    }
  }

  /** GetLogin: 200 with the session's user as JSON, or 401 "User not logged in!" (without aborting). */
  method GetLogin(c: Context, s: Session)
    modifies c`replies
    ensures UserKey in s.values ==> c.replies == old(c.replies) + [Reply(StatusOK, JsonBody(UserJson(s.values[UserKey])))]
    ensures UserKey !in s.values ==> c.replies == old(c.replies) + [Reply(StatusUnauthorized, Text("User not logged in!"))]
  {
    if UserKey in s.values {
      var user := s.values[UserKey];
      c.JSON(StatusOK, UserJson(user));
    } else {
      c.String(StatusUnauthorized, "User not logged in!");
    }
  }

  /**
   * PostRegister: when the body decodes, inserts the user only if the lookup of
   * its id answers ErrNotFound; any other answer is reported as a conflict.
   */
  method PostRegister(c: Context, db: Database<string, User>, decoded: Option<User>)
    modifies c`replies, c`panicked, db
    ensures decoded.None? ==> c.replies == old(c.replies) && db.collections == old(db.collections) && c.panicked == old(c.panicked)
    ensures decoded.Some? && old(db.FindId(Users, decoded.value.id)) != Failure(ErrNotFound) ==>
      c.replies == old(c.replies) + [Reply(StatusConflict, Text("UserID already in use."))] &&
      db.collections == old(db.collections) && c.panicked == old(c.panicked)
    ensures decoded.Some? && old(db.FindId(Users, decoded.value.id)) == Failure(ErrNotFound) && InsertOp !in db.failing ==>
      c.replies == old(c.replies) + [Reply(StatusOK, Text("Registered."))] &&
      db.collections == old(db.collections)[Users := old(db.C(Users))[decoded.value.id := decoded.value]] &&
      c.panicked == old(c.panicked)
    ensures decoded.Some? && old(db.FindId(Users, decoded.value.id)) == Failure(ErrNotFound) && InsertOp in db.failing ==>
      c.replies == old(c.replies) && db.collections == old(db.collections) && c.panicked
    ensures KeyedById(old(db.C(Users))) ==> KeyedById(db.C(Users))
  {
    if decoded.Some? {
      var user := decoded.value;
      if db.FindId(Users, user.id) == Failure(ErrNotFound) {
        var err := db.Insert(Users, user.id, user);
        if err.Some? {
          c.Panic();
          return;
        }
      } else {
        c.String(StatusConflict, "UserID already in use.");
        return;
      }
      c.String(StatusOK, "Registered.");
    }
  }
}
