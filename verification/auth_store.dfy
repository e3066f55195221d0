/** The credential store of src/auth_store.py: a map from normalised
    email to `{password_hash, created_at}`, with `register_user` and
    `verify_password`. The JSON file behind it is the map itself. */
module AuthStore {
  import opened Common
  import Text

  /** The salt `bcrypt.gensalt()` draws. */
  type Salt = nat

  /** bcrypt's key-derivation step: password and salt to a digest. It is
      left uninterpreted; the store is given one. */
  type Kdf = (string, Salt) -> string

  /** A bcrypt hash string carries the salt it was made with next to the digest. */
  datatype PasswordHash = PasswordHash(salt: Salt, digest: string)

  /** `bcrypt.hashpw(password, salt)` */
  function HashPw(kdf: Kdf, password: string, salt: Salt): PasswordHash {
    PasswordHash(salt, kdf(password, salt))
  }

  /** `bcrypt.checkpw(password, stored)`: re-hash with the stored salt and compare. */
  function CheckPw(kdf: Kdf, password: string, stored: PasswordHash): bool {
    kdf(password, stored.salt) == stored.digest
  }

  /** The one property of bcrypt the store relies on. */
  lemma CheckHashed(kdf: Kdf, password: string, salt: Salt)
    ensures CheckPw(kdf, password, HashPw(kdf, password, salt))
  {
  }

  datatype UserRecord = UserRecord(passwordHash: PasswordHash, createdAt: int)

  type Users = map<string, UserRecord>

  datatype RegisterError = InvalidEmail | WeakPassword | AlreadyExists

  /** Shortest password `register_user` accepts. */
  const MinPasswordLength: nat := 6

  /** The test `register_user` applies to the normalised email. */
  predicate ValidEmail(key: string) {
    key != [] && '@' in key
  }

  /** The message `register_user` returns with its flag. */
  function RegisterMessage(error: Option<RegisterError>): string {
    match error
    case None => "Registered successfully."
    case Some(InvalidEmail) => "Enter a valid email."
    case Some(WeakPassword) => "Password must be at least 6 characters."
    case Some(AlreadyExists) => "User already exists. Please login."
  }

  datatype RegisterOutcome = RegisterOutcome(error: Option<RegisterError>, users: Users)

  /** `register_user(email, password)` on the map `users`, with the drawn
      `salt` and the clock reading `now` (already truncated by `int()`). */
  function Register(users: Users, kdf: Kdf, email: string, password: string, salt: Salt, now: int): (r: RegisterOutcome)
    // the email test comes first, then the password, then the lookup
    ensures r.error == Some(InvalidEmail) <==> !ValidEmail(Text.Normalize(email))
    ensures r.error == Some(WeakPassword) <==> ValidEmail(Text.Normalize(email)) && |password| < MinPasswordLength
    ensures r.error == Some(AlreadyExists) <==>
              ValidEmail(Text.Normalize(email)) && |password| >= MinPasswordLength && Text.Normalize(email) in users
    // a rejection saves nothing
    ensures r.error.Some? ==> r.users == users
    // a success adds exactly one key and leaves the others alone
    ensures r.error.None? ==>
              && Text.Normalize(email) !in users
              && r.users.Keys == users.Keys + {Text.Normalize(email)}
              && r.users[Text.Normalize(email)] == UserRecord(HashPw(kdf, password, salt), now)
              && forall k :: k in users ==> r.users[k] == users[k]
  {
    var key := Text.Normalize(email);
    if !ValidEmail(key) then RegisterOutcome(Some(InvalidEmail), users)
    else if |password| < MinPasswordLength then RegisterOutcome(Some(WeakPassword), users)
    else if key in users then RegisterOutcome(Some(AlreadyExists), users)
    else RegisterOutcome(None, users[key := UserRecord(HashPw(kdf, password, salt), now)])
  }

  /** `verify_password(email, password)` */
  function VerifyPassword(users: Users, kdf: Kdf, email: string, password: string): (ok: bool)
    ensures Text.Normalize(email) !in users ==> !ok
    // a known email verifies exactly when the password re-hashes to its stored digest
    ensures Text.Normalize(email) in users ==>
              (ok <==> CheckPw(kdf, password, users[Text.Normalize(email)].passwordHash))
  {
    var key := Text.Normalize(email);
    key in users && CheckPw(kdf, password, users[key].passwordHash)
  }

  /** Registering and then logging in with the same password and any
      spelling of the email that normalises to the same key succeeds. */
  lemma RegisterThenVerify(users: Users, kdf: Kdf, email: string, password: string, salt: Salt, now: int, login: string)
    requires Register(users, kdf, email, password, salt, now).error.None?
    requires Text.Normalize(login) == Text.Normalize(email)
    ensures VerifyPassword(Register(users, kdf, email, password, salt, now).users, kdf, login, password)
  {
    CheckHashed(kdf, password, salt);
  }

  /** Registering someone else does not change whether a login verifies. */
  lemma RegisterKeepsOtherLogins(users: Users, kdf: Kdf, email: string, password: string, salt: Salt, now: int,
                                 login: string, attempt: string)
    requires Text.Normalize(login) != Text.Normalize(email)
    ensures VerifyPassword(Register(users, kdf, email, password, salt, now).users, kdf, login, attempt)
            == VerifyPassword(users, kdf, login, attempt)
  {
  }

  /** A second registration of the same key, whatever the password, is
      refused and keeps the first record. */
  lemma ReRegisterRejected(users: Users, kdf: Kdf, email: string, password: string, salt: Salt, now: int,
                           again: string, password2: string, salt2: Salt, now2: int)
    requires Register(users, kdf, email, password, salt, now).error.None?
    requires Text.Normalize(again) == Text.Normalize(email) && |password2| >= MinPasswordLength
    ensures var u := Register(users, kdf, email, password, salt, now).users;
            Register(u, kdf, again, password2, salt2, now2) == RegisterOutcome(Some(AlreadyExists), u)
  {
  }

  /** The store object: the map `_load_users` reads, updated in place by
      registration and written back whole by `_save_users`. */
  class UserStore {
    const kdf: Kdf
    var users: Users

    constructor (kdf: Kdf, users: Users)
      ensures this.kdf == kdf && this.users == users
    {
      this.kdf := kdf;
      this.users := users;
    }

    /** `register_user(email, password)`: returns the flag and the message. */
    method RegisterUser(email: string, password: string, salt: Salt, now: int) returns (ok: bool, message: string)
      modifies this
      ensures var r := Register(old(users), kdf, email, password, salt, now);
              users == r.users && ok == r.error.None? && message == RegisterMessage(r.error)
    {
      ghost var r := Register(users, kdf, email, password, salt, now);
      var key := Text.Normalize(email);
      if key == [] || '@' !in key {
        assert r == RegisterOutcome(Some(InvalidEmail), users);
        return false, RegisterMessage(Some(InvalidEmail));
      }
      if |password| < MinPasswordLength {
        assert r == RegisterOutcome(Some(WeakPassword), users);
        return false, RegisterMessage(Some(WeakPassword));
      }
      if key in users {
        assert r == RegisterOutcome(Some(AlreadyExists), users);
        return false, RegisterMessage(Some(AlreadyExists));
      }
      var hashed := HashPw(kdf, password, salt);
      assert r == RegisterOutcome(None, users[key := UserRecord(hashed, now)]);
      users := users[key := UserRecord(hashed, now)];
      return true, RegisterMessage(None);
    }

    /** `verify_password(email, password)` against the current map. */
    function Verify(email: string, password: string): (ok: bool)
      reads this
      ensures ok ==> Text.Normalize(email) in users
      ensures ok == VerifyPassword(users, kdf, email, password)
    {
      VerifyPassword(users, kdf, email, password)
    }
  }
}
