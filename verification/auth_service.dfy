/**
  The authentication service: password hashing and checking, token issuance,
  and the user table's create / authenticate / look-up / change-password /
  deactivate operations.

  The hash is a symbolic stand-in for a salted PBKDF2 digest: a scheme tag
  prefixed to its input, which keeps the three facts the service relies on
  (a password verifies against its own hash, against no other password's
  hash, and the hash is never the plaintext). Tokens are the claim records
  `{sub, kind, exp}`; signing is not modelled.
 */
module AuthService {
  import opened Common
  import opened Models

  // ---------------------------------------------------------------------------
  // Password hasher
  // ---------------------------------------------------------------------------

  const HashScheme := "pbkdf2:sha256$"

  /** `hash_password`. */
  function HashPassword(password: string): (h: string)
    ensures |h| > |password|
  {
    HashScheme + password
  }

  /** `verify_password`: does `password` match the stored `hash`? */
  predicate VerifyPassword(password: string, hash: string) {
    hash == HashPassword(password)
  }

  lemma VerifyOwnHash(password: string)
    ensures VerifyPassword(password, HashPassword(password))
    ensures HashPassword(password) != password
  {
  }

  /** Different passwords never verify against each other's hashes. */
  lemma VerifyRejectsOtherPasswords(password: string, other: string)
    requires password != other
    ensures !VerifyPassword(password, HashPassword(other))
  {
    assert HashPassword(other)[|HashScheme|..] == other;
    assert HashPassword(password)[|HashScheme|..] == password;
  }

  // ---------------------------------------------------------------------------
  // Tokens
  // ---------------------------------------------------------------------------

  datatype TokenKind = Access | Refresh

  /** The claims of a signed token: subject, kind and expiry (seconds of the clock). */
  datatype Token = Token(sub: UserId, kind: TokenKind, exp: int)

  /** The configured lifetimes, in whole seconds; an absent entry takes the service's default. */
  datatype JwtConfig = JwtConfig(accessExpires: Option<nat>, refreshExpires: Option<nat>)

  const DefaultAccessTtl: nat := 60 * 60
  const DefaultRefreshTtl: nat := 30 * 24 * 60 * 60

  /** The configuration the application ships with. */
  const ShippedConfig := JwtConfig(Some(60 * 60), Some(30 * 24 * 60 * 60))

  /** flask_jwt_extended's own lifetimes: 15 minutes for access tokens, 30 days for refresh tokens. */
  const LibraryAccessTtl: nat := 15 * 60
  const LibraryRefreshTtl: nat := 30 * 24 * 60 * 60

  /**
    `jwt.init_app(app)`: before any request is served, the token library
    writes its own lifetime into every entry the configuration lacks.
   */
  function InitJwt(cfg: JwtConfig): (c: JwtConfig)
    ensures c.accessExpires.Some? && c.refreshExpires.Some?
    ensures cfg.accessExpires.Some? ==> c.accessExpires == cfg.accessExpires
    ensures cfg.refreshExpires.Some? ==> c.refreshExpires == cfg.refreshExpires
  {
    JwtConfig(Some(cfg.accessExpires.GetOr(LibraryAccessTtl)), Some(cfg.refreshExpires.GetOr(LibraryRefreshTtl)))
  }

  /**
    Once the library is initialised the service's own fallbacks are never
    taken: an entry missing from the configuration gets the library's
    lifetime, so an unconfigured access token lives 15 minutes, not an hour.
   */
  lemma ServiceFallbacksUnreached(cfg: JwtConfig)
    ensures AccessTtl(InitJwt(cfg)) == cfg.accessExpires.GetOr(LibraryAccessTtl)
    ensures RefreshTtl(InitJwt(cfg)) == cfg.refreshExpires.GetOr(LibraryRefreshTtl)
    ensures cfg.accessExpires.None? ==> AccessTtl(InitJwt(cfg)) != DefaultAccessTtl
    ensures InitJwt(InitJwt(cfg)) == InitJwt(cfg)
  {
  }

  /** `config.get('JWT_ACCESS_TOKEN_EXPIRES', timedelta(hours=1))`, in seconds. */
  function AccessTtl(cfg: JwtConfig): (ttl: nat)
    ensures cfg.accessExpires.Some? ==> ttl == cfg.accessExpires.value
    ensures cfg.accessExpires.None? ==> ttl == DefaultAccessTtl
  {
    cfg.accessExpires.GetOr(DefaultAccessTtl)
  }

  /** `config.get('JWT_REFRESH_TOKEN_EXPIRES', timedelta(days=30))`, in seconds. */
  function RefreshTtl(cfg: JwtConfig): (ttl: nat)
    ensures cfg.refreshExpires.Some? ==> ttl == cfg.refreshExpires.value
    ensures cfg.refreshExpires.None? ==> ttl == DefaultRefreshTtl
  {
    cfg.refreshExpires.GetOr(DefaultRefreshTtl)
  }

  /** `create_access_token`: issued at `now`. */
  function CreateAccessToken(userId: UserId, now: int, cfg: JwtConfig): Token {
    Token(userId, Access, now + AccessTtl(cfg))
  }

  /** `create_refresh_token`: issued at `now`. */
  function CreateRefreshToken(userId: UserId, now: int, cfg: JwtConfig): Token {
    Token(userId, Refresh, now + RefreshTtl(cfg))
  }

  datatype TokenError = Expired | WrongKind

  /**
    What a protected route accepts: an unexpired token of the kind it requires.
    The token library counts a token as expired from the second `exp` itself.
   */
  function CheckToken(t: Token, expected: TokenKind, now: int): (r: Result<UserId, TokenError>)
    ensures r.Success? <==> now < t.exp && t.kind == expected
    ensures r.Success? ==> r.value == t.sub
    ensures now >= t.exp ==> r == Failure(Expired)
  {
    if now >= t.exp then Failure(Expired)
    else if t.kind != expected then Failure(WrongKind)
    else Success(t.sub)
  }

  /** Issued tokens identify their user until their lifetime has elapsed, and only where their kind is expected. */
  lemma IssuedTokensCheck(userId: UserId, now: int, cfg: JwtConfig, at: int)
    ensures var a := CreateAccessToken(userId, now, cfg);
      && (at < now + AccessTtl(cfg) ==> CheckToken(a, Access, at) == Success(userId))
      && (at >= now + AccessTtl(cfg) ==> CheckToken(a, Access, at) == Failure(Expired))
      && CheckToken(a, Refresh, at).Failure?
    ensures var r := CreateRefreshToken(userId, now, cfg);
      && (at < now + RefreshTtl(cfg) ==> CheckToken(r, Refresh, at) == Success(userId))
      && (at >= now + RefreshTtl(cfg) ==> CheckToken(r, Refresh, at) == Failure(Expired))
      && CheckToken(r, Access, at).Failure?
  {
  }

  /**
    With the shipped configuration an access token lives one hour and a
    refresh token thirty days; an application configured with neither gets
    the library's 15 minutes and 30 days.
   */
  lemma ShippedLifetimes(userId: UserId, now: int)
    ensures InitJwt(ShippedConfig) == ShippedConfig
    ensures CreateAccessToken(userId, now, InitJwt(ShippedConfig)).exp == now + 3600
    ensures CreateRefreshToken(userId, now, InitJwt(ShippedConfig)).exp == now + 2592000
    ensures AccessTtl(InitJwt(JwtConfig(None, None))) == 900
    ensures RefreshTtl(InitJwt(JwtConfig(None, None))) == 2592000
  {
  }

  // ---------------------------------------------------------------------------
  // The user table as a value
  // ---------------------------------------------------------------------------

  /** Row `i` holds the user whose autoincrement id is `i + 1`; emails are unique. */
  ghost predicate WellFormedTable(users: seq<User>) {
    && (forall i :: 0 <= i < |users| ==> users[i].id == i + 1)
    && EmailsUnique(users)
  }

  /** `.filter(User.email == email).first()`: the position of the first row with that email. */
  function FindEmail(users: seq<User>, email: string): (r: Option<nat>)
    ensures r.None? <==> forall i :: 0 <= i < |users| ==> users[i].email != email
    ensures r.Some? ==> r.value < |users| && users[r.value].email == email
    ensures r.Some? ==> forall i :: 0 <= i < r.value ==> users[i].email != email
  {
    if users == [] then None
    else if users[0].email == email then Some(0)
    else
      var r := FindEmail(users[1..], email);
      assert forall i :: 1 <= i < |users| ==> users[i] == users[1..][i - 1];
      if r.Some? then Some(r.value + 1) else None
  }

  /** `.filter(User.id == user_id).first()`. */
  function FindId(users: seq<User>, id: UserId): (r: Option<User>)
    requires WellFormedTable(users)
    ensures r.Some? <==> exists i :: 0 <= i < |users| && users[i].id == id
    ensures r.Some? ==> r.value in users && r.value.id == id
  {
    if 1 <= id <= |users| then Some(users[id - 1]) else None
  }

  /** The table after `change_password` succeeded for the row at `i`. */
  function WithPassword(users: seq<User>, i: nat, newPassword: string): (r: seq<User>)
    requires i < |users|
    ensures |r| == |users| && VerifyPassword(newPassword, r[i].passwordHash)
    ensures forall j :: 0 <= j < |users| && j != i ==> r[j] == users[j]
    ensures r[i] == users[i].(passwordHash := r[i].passwordHash)
  {
    users[i := users[i].(passwordHash := HashPassword(newPassword))]
  }

  /** After a change the new password opens the account and a different old one no longer does. */
  lemma ChangeLocksOutOldPassword(users: seq<User>, i: nat, oldPassword: string, newPassword: string)
    requires i < |users| && oldPassword != newPassword
    ensures VerifyPassword(newPassword, WithPassword(users, i, newPassword)[i].passwordHash)
    ensures !VerifyPassword(oldPassword, WithPassword(users, i, newPassword)[i].passwordHash)
  {
    VerifyRejectsOtherPasswords(oldPassword, newPassword);
  }

  /** The table after `deactivate_user` for the row at `i`. */
  function Deactivated(users: seq<User>, i: nat): (r: seq<User>)
    requires i < |users|
    ensures |r| == |users| && !r[i].isActive
    ensures forall j :: 0 <= j < |users| && j != i ==> r[j] == users[j]
    ensures r[i] == users[i].(isActive := false)
  {
    users[i := users[i].(isActive := false)]
  }

  /** Deactivating twice is deactivating once. */
  lemma DeactivateIdempotent(users: seq<User>, i: nat)
    requires i < |users|
    ensures Deactivated(Deactivated(users, i), i) == Deactivated(users, i)
  {
  }

  lemma {:induction false} UpdatesKeepTableWellFormed(users: seq<User>, i: nat, newPassword: string)
    requires WellFormedTable(users) && i < |users|
    ensures WellFormedTable(WithPassword(users, i, newPassword))
    ensures WellFormedTable(Deactivated(users, i))
  {
    var a := WithPassword(users, i, newPassword);
    var b := Deactivated(users, i);
    forall j, k | 0 <= j < k < |users| ensures a[j].email != a[k].email && b[j].email != b[k].email {
      assert users[j].email != users[k].email;
    }
  }

  // ---------------------------------------------------------------------------
  // The service over its table
  // ---------------------------------------------------------------------------

  const DuplicateEmail := "User with this email already exists"

  class UserTable {
    var users: seq<User>

    ghost predicate Valid()
      reads this
    {
      WellFormedTable(users)
    }

    constructor ()
      ensures Valid() && users == []
    {
      users := [];
    }

    /** `get_user_by_id`. */
    function GetUserById(id: UserId): (r: Option<User>)
      reads this
      requires Valid()
      ensures r.Some? <==> exists i :: 0 <= i < |users| && users[i].id == id
      ensures r.Some? ==> r.value in users && r.value.id == id
    {
      FindId(users, id)
    }

    /** `authenticate_user`: the stored user when the email exists and the password verifies, active or not. */
    function AuthenticateUser(email: string, password: string): (r: Option<User>)
      reads this
      requires Valid()
      ensures r.Some? <==> exists i ::
        0 <= i < |users| && users[i].email == email && VerifyPassword(password, users[i].passwordHash)
      ensures r.Some? ==> r.value in users && r.value.email == email
    {
      match FindEmail(users, email)
      case None => None
      case Some(i) =>
        if VerifyPassword(password, users[i].passwordHash) then Some(users[i]) else None
    }

    /** `create_user`: refuse a stored email, else insert one row with the hashed password. */
    method CreateUser(email: string, password: string, firstName: string, lastName: string, now: int)
      returns (r: Result<User, string>)
      requires Valid()
      modifies this
      ensures Valid()
      ensures (exists i :: 0 <= i < |old(users)| && old(users)[i].email == email) ==>
        r == Failure(DuplicateEmail) && users == old(users)
      ensures !(exists i :: 0 <= i < |old(users)| && old(users)[i].email == email) ==>
        && r == Success(NewUser(|old(users)| + 1, email, HashPassword(password), firstName, lastName, now))
        && users == old(users) + [r.value]
    {
      var existing := FindEmail(users, email);
      if existing.Some? {
        return Failure(DuplicateEmail);
      }
      var user := NewUser(|users| + 1, email, HashPassword(password), firstName, lastName, now);
      users := users + [user];
      r := Success(user);
    }

    /** `change_password`: false for an unknown id or a wrong current password; else store the new hash. */
    method ChangePassword(id: UserId, currentPassword: string, newPassword: string) returns (ok: bool)
      requires Valid()
      modifies this
      ensures Valid()
      ensures ok <==> 1 <= id <= |old(users)| && VerifyPassword(currentPassword, old(users)[id - 1].passwordHash)
      ensures ok ==> users == WithPassword(old(users), id - 1, newPassword)
      ensures !ok ==> users == old(users)
    {
      var user := FindId(users, id);
      if user.None? || !VerifyPassword(currentPassword, user.value.passwordHash) {
        return false;
      }
      UpdatesKeepTableWellFormed(users, id - 1, newPassword);
      users := WithPassword(users, id - 1, newPassword);
      ok := true;
    }

    /** `deactivate_user`: false for an unknown id; else clear `is_active`. */
    method DeactivateUser(id: UserId) returns (ok: bool)
      requires Valid()
      modifies this
      ensures Valid()
      ensures ok <==> 1 <= id <= |old(users)|
      ensures ok ==> users == Deactivated(old(users), id - 1)
      ensures !ok ==> users == old(users)
    {
      var user := FindId(users, id);
      if user.None? {
        return false;
      }
      UpdatesKeepTableWellFormed(users, id - 1, "");
      users := Deactivated(users, id - 1);
      ok := true;
    }
  }
}
