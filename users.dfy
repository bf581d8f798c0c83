/**
 * The user routes of routes/users.ts: `POST /register`, `POST /login` and
 * `PUT /profile`. The user table is a sequence of rows in insertion order,
 * and `findOne` returns the first row that matches. Password hashing, the
 * bcrypt comparison and JWT signing are functions passed in by the caller.
 */
module Users {
  import opened Js

  datatype User = User(
    id: int,
    email: string,
    passwordHash: string,
    name: Option<string>,
    role: Option<string>,
    phoneNumber: Option<string>,
    bio: Option<string>)

  /** `findOne`: the index of the first row satisfying p, if any. */
  method FindFirst(rows: seq<User>, p: User -> bool) returns (i: Option<nat>)
    ensures i.Some? ==> i.value < |rows| && p(rows[i.value])
    ensures i.Some? ==> forall j :: 0 <= j < i.value ==> !p(rows[j])
    ensures i.None? ==> forall j :: 0 <= j < |rows| ==> !p(rows[j])
  {
    var k := 0;
    while k < |rows|
      invariant 0 <= k <= |rows|
      invariant forall j :: 0 <= j < k ==> !p(rows[j])
    {
      if p(rows[k]) {
        return Some(k);
      }
      k := k + 1;
    }
    return None;
  }

  /**
   * The profile patch: name, phoneNumber and bio each take the supplied
   * value when it is truthy and keep the current one otherwise; nothing else
   * about the user changes.
   */
  function ProfilePatch(u: User, name: Option<string>, phoneNumber: Option<string>, bio: Option<string>): (r: User)
    ensures r.id == u.id && r.email == u.email && r.passwordHash == u.passwordHash && r.role == u.role
    ensures TruthyStr(name) ==> r.name == name
    ensures !TruthyStr(name) ==> r.name == u.name
    ensures TruthyStr(phoneNumber) ==> r.phoneNumber == phoneNumber
    ensures !TruthyStr(phoneNumber) ==> r.phoneNumber == u.phoneNumber
    ensures TruthyStr(bio) ==> r.bio == bio
    ensures !TruthyStr(bio) ==> r.bio == u.bio
  {
    u.(name := OrStr(name, u.name), phoneNumber := OrStr(phoneNumber, u.phoneNumber), bio := OrStr(bio, u.bio))
  }

  /** The user table. */
  class UserRepository {
    var rows: seq<User>

    /** Ids are assigned 1, 2, 3, ... in row order, and no two users share an email. */
    ghost predicate Valid()
      reads this
    {
      && (forall i :: 0 <= i < |rows| ==> rows[i].id == i + 1)
      && (forall i, j :: 0 <= i < j < |rows| ==> rows[i].email != rows[j].email)
    }

    constructor ()
      ensures Valid() && rows == []
    {
      rows := [];
    }

    /**
     * `POST /register`: 400 when a user with this email exists, and no user
     * is created; otherwise a new user is stored with the hash of the
     * password (not the password), the given email, name and role, and no
     * phone number or bio.
     */
    method Register(email: string, password: string, name: Option<string>, role: Option<string>, hash: string -> string)
      returns (code: int)
      requires Valid()
      modifies this
      ensures Valid()
      ensures code == BadRequest <==> exists i :: 0 <= i < |old(rows)| && old(rows)[i].email == email
      ensures code == Created <==> forall i :: 0 <= i < |old(rows)| ==> old(rows)[i].email != email
      ensures code != Created ==> rows == old(rows)
      ensures code == Created ==> rows == old(rows) + [User(|old(rows)| + 1, email, hash(password), name, role, None, None)]
    {
      var existing := FindFirst(rows, (u: User) => u.email == email);
      if existing.Some? {
        return BadRequest;
      }
      var hashedPassword := hash(password);
      var user := User(|rows| + 1, email, hashedPassword, name, role, None, None);
      rows := rows + [user];
      code := Created;
    }

    /**
     * `POST /login`: 401 with no token both when no user has this email and
     * when the password does not match the stored hash, so the two failures
     * look the same; otherwise 200 with the token signed over the user's id
     * and role.
     */
    method Login(email: string, password: string, compare: (string, string) -> bool, sign: (int, Option<string>) -> string)
      returns (code: int, token: Option<string>)
      requires Valid()
      ensures code == Ok || code == Unauthorized
      ensures code == Unauthorized ==> token == None
      ensures code == Ok <==>
        exists i :: 0 <= i < |rows| && rows[i].email == email && compare(password, rows[i].passwordHash)
      ensures code == Ok ==>
        exists i :: 0 <= i < |rows| && rows[i].email == email && token == Some(sign(rows[i].id, rows[i].role))
    {
      var found := FindFirst(rows, (u: User) => u.email == email);
      if found.None? {
        return Unauthorized, None;
      }
      var user := rows[found.value];
      if !compare(password, user.passwordHash) {
        return Unauthorized, None;
      }
      return Ok, Some(sign(user.id, user.role));
    }

    /**
     * `PUT /profile`: 404 when no user has this id, and nothing changes;
     * otherwise only that user's name, phone number and bio change, by the
     * truthiness patch.
     */
    method UpdateProfile(userId: int, name: Option<string>, phoneNumber: Option<string>, bio: Option<string>)
      returns (code: int)
      requires Valid()
      modifies this
      ensures Valid()
      ensures code == NotFound <==> forall i :: 0 <= i < |old(rows)| ==> old(rows)[i].id != userId
      ensures code == NotFound || code == Ok
      ensures code == NotFound ==> rows == old(rows)
      ensures code == Ok ==>
        && 0 < userId <= |old(rows)|
        && rows == old(rows)[userId - 1 := ProfilePatch(old(rows)[userId - 1], name, phoneNumber, bio)]
    {
      var found := FindFirst(rows, (u: User) => u.id == userId);
      if found.None? {
        return NotFound;
      }
      var user := rows[found.value];
      user := ProfilePatch(user, name, phoneNumber, bio);
      rows := rows[found.value := user];
      code := Ok;
    }
  }
}
