/**
  The `users` table of the authentication service: one row per account, its
  public view (`to_dict`) and the constructor from a plain dictionary
  (`from_dict`). Timestamps are clock readings supplied by the caller.
 */
module Models {
  import opened Common

  /** The table's integer primary key. */
  type UserId = int

  datatype User = User(
    id: UserId,
    email: string,
    passwordHash: string,
    firstName: string,
    lastName: string,
    isActive: bool,
    isVerified: bool,
    createdAt: Option<int>,
    updatedAt: Option<int>)

  /** A row as inserted: `is_active` and `is_verified` take their column defaults, both timestamps the clock. */
  function NewUser(id: UserId, email: string, passwordHash: string, firstName: string, lastName: string, now: int): User {
    User(id, email, passwordHash, firstName, lastName, true, false, Some(now), Some(now))
  }

  lemma NewUserDefaults(id: UserId, email: string, passwordHash: string, firstName: string, lastName: string, now: int)
    ensures var u := NewUser(id, email, passwordHash, firstName, lastName, now);
      u.isActive && !u.isVerified && u.email == email && u.passwordHash == passwordHash
  {
  }

  /** No two rows share an email (the column is unique and non-null). */
  ghost predicate EmailsUnique(users: seq<User>) {
    forall i, j :: 0 <= i < j < |users| ==> users[i].email != users[j].email
  }

  /** The public view: every column except `password_hash`. */
  datatype UserView = UserView(
    id: UserId,
    email: string,
    firstName: string,
    lastName: string,
    isActive: bool,
    isVerified: bool,
    createdAt: Option<int>,
    updatedAt: Option<int>)

  /** `User.to_dict`. */
  function ToDict(u: User): (d: UserView)
    ensures d.id == u.id && d.email == u.email
    ensures d.firstName == u.firstName && d.lastName == u.lastName
    ensures d.isActive == u.isActive && d.isVerified == u.isVerified
    ensures d.createdAt.None? <==> u.createdAt.None?
    ensures d.updatedAt.None? <==> u.updatedAt.None?
  {
    UserView(u.id, u.email, u.firstName, u.lastName, u.isActive, u.isVerified,
             if u.createdAt.Some? then u.createdAt else None,
             if u.updatedAt.Some? then u.updatedAt else None)
  }

  /** The view does not depend on the password hash: nothing of it can leak through `to_dict`. */
  lemma ToDictHidesHash(u: User, h: string)
    ensures ToDict(u.(passwordHash := h)) == ToDict(u)
  {
  }

  /** The fields `from_dict` demands, in the order it checks them. */
  const RequiredFields: seq<string> := ["email", "password_hash", "first_name", "last_name"]

  /** The first of `fields` that `data` lacks, if any. */
  function FirstMissing(fields: seq<string>, data: map<string, string>): (r: Option<string>)
    ensures r.None? <==> forall k :: 0 <= k < |fields| ==> fields[k] in data
    ensures r.Some? ==> exists k ::
      0 <= k < |fields| && fields[k] == r.value && r.value !in data &&
      (forall j :: 0 <= j < k ==> fields[j] in data)
  {
    if fields == [] then None
    else if fields[0] !in data then Some(fields[0])
    else
      var r := FirstMissing(fields[1..], data);
      assert forall k :: 1 <= k < |fields| ==> fields[k] == fields[1..][k - 1];
      if r.Some? then
        var k :| 0 <= k < |fields[1..]| && fields[1..][k] == r.value && r.value !in data &&
          (forall j :: 0 <= j < k ==> fields[1..][j] in data);
        assert fields[k + 1] == r.value;
        r
      else r
  }

  /** The message `from_dict` raises for a missing field. */
  function MissingField(f: string): string { "Missing required field: " + f }

  /** A user object built from a dictionary, before the table assigns its id and defaults. */
  datatype UserDraft = UserDraft(email: string, passwordHash: string, firstName: string, lastName: string)

  /** `User.from_dict`: raise naming the first missing required field, else build from the four values. */
  function FromDict(data: map<string, string>): (r: Result<UserDraft, string>)
    ensures r.Success? <==> forall f :: f in RequiredFields ==> f in data
    ensures r.Success? ==> r.value == UserDraft(data["email"], data["password_hash"], data["first_name"], data["last_name"])
    ensures "email" !in data ==> r == Failure(MissingField("email"))
    ensures "email" in data && "password_hash" !in data ==> r == Failure(MissingField("password_hash"))
    ensures "email" in data && "password_hash" in data && "first_name" !in data ==>
      r == Failure(MissingField("first_name"))
    ensures "email" in data && "password_hash" in data && "first_name" in data && "last_name" !in data ==>
      r == Failure(MissingField("last_name"))
  {
    match FirstMissing(RequiredFields, data)
    case Some(f) =>
      var k :| 0 <= k < |RequiredFields| && RequiredFields[k] == f && f !in data &&
        (forall j :: 0 <= j < k ==> RequiredFields[j] in data);
      assert RequiredFields[0] == "email" && RequiredFields[1] == "password_hash";
      assert RequiredFields[2] == "first_name" && RequiredFields[3] == "last_name";
      assert k == 0 <==> "email" !in data;
      assert k == 1 <==> "email" in data && "password_hash" !in data;
      assert k == 2 <==> "email" in data && "password_hash" in data && "first_name" !in data;
      Failure(MissingField(f))
    case None =>
      assert RequiredFields[0] in data && RequiredFields[1] in data && RequiredFields[2] in data && RequiredFields[3] in data;
      Success(UserDraft(data["email"], data["password_hash"], data["first_name"], data["last_name"]))
  }
}
