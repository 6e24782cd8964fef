/**
 * `UserService`: salted PBKDF2 password hashes, login by username and
 * password, and registration, which checks the password policy before it
 * looks for an existing user with the same name.
 */
module Users {
  import opened Common
  import opened Numerals
  import opened DocStore
  import opened Passwords

  /** PBKDF2-HMAC-SHA256 (RFC 8018 section 5.2) of a password and salt, hex-encoded. */
  type Kdf = (string, string, nat) -> string

  const Pbkdf2Iterations: nat := 100000

  /** `secrets.token_hex(16)` draws sixteen random bytes. */
  const SaltBytes: nat := 16

  /** `bytes.hex()`: two lower-case hex digits per byte, high half first. */
  function HexOf(bytes: seq<uint8>): (r: string)
    ensures |r| == 2 * |bytes|
    ensures forall i :: 0 <= i < |r| ==> IsHexDigit(r[i])
    decreases |bytes|
  {
    if bytes == [] then []
    else [HexDigit(bytes[0] as nat / 16), HexDigit(bytes[0] as nat % 16)] + HexOf(bytes[1..])
  }

  /** Reading a hex string back into bytes. */
  function FromHex(s: string): seq<uint8>
    requires |s| % 2 == 0 && forall i :: 0 <= i < |s| ==> IsHexDigit(s[i])
    decreases |s|
  {
    if s == [] then []
    else [(HexValue(s[0]) * 16 + HexValue(s[1])) as uint8] + FromHex(s[2..])
  }

  /** The hex form loses nothing: distinct random bytes give distinct salts. */
  lemma {:induction false} HexRoundTrip(bytes: seq<uint8>)
    ensures FromHex(HexOf(bytes)) == bytes
    decreases |bytes|
  {
    if bytes != [] {
      HexRoundTrip(bytes[1..]);
      var b := bytes[0] as nat;
      assert HexValue(HexDigit(b / 16)) == b / 16;
      assert HexValue(HexDigit(b % 16)) == b % 16;
      var h := HexOf(bytes);
      assert h[2..] == HexOf(bytes[1..]);
    }
  }

  /**
   * `hash_password`: the derived key for the given salt, or for a fresh salt
   * made of the random bytes; the salt used is returned alongside.
   */
  function HashPassword(kdf: Kdf, password: string, salt: Option<string>, entropy: seq<uint8>): (r: (string, string))
    ensures salt.Some? ==> r.1 == salt.value
    ensures salt.None? ==> r.1 == HexOf(entropy) && |r.1| == 2 * |entropy|
    ensures r.0 == kdf(password, r.1, Pbkdf2Iterations)
  {
    var s := if salt.Some? then salt.value else HexOf(entropy);
    (kdf(password, s, Pbkdf2Iterations), s)
  }

  /** `verify_password`: recompute with the stored salt and compare. */
  function VerifyPassword(kdf: Kdf, password: string, hashed: string, salt: string): (r: bool)
    ensures r <==> kdf(password, salt, Pbkdf2Iterations) == hashed
  {
    HashPassword(kdf, password, Some(salt), []).0 == hashed
  }

  /** A hash and the salt it was made with verify the password they were made from. */
  lemma HashThenVerify(kdf: Kdf, password: string, salt: Option<string>, entropy: seq<uint8>)
    ensures var (hashed, used) := HashPassword(kdf, password, salt, entropy);
            VerifyPassword(kdf, password, hashed, used)
  {
  }

  /** With a given salt the hash depends on nothing else: the random bytes play no part. */
  lemma HashDeterministic(kdf: Kdf, password: string, salt: string, e1: seq<uint8>, e2: seq<uint8>)
    ensures HashPassword(kdf, password, Some(salt), e1) == HashPassword(kdf, password, Some(salt), e2)
  {
  }

  /** A stored user document of the `users` collection. */
  datatype UserDoc = UserDoc(
    username: string,
    email: Option<string>,
    passwordHash: string,
    salt: string,
    isActive: Option<bool>,
    createdAt: Option<int>,
    updatedAt: Option<int>)

  /** The `User` model handed to callers. */
  datatype User = User(
    id: Option<string>,
    username: string,
    email: Option<string>,
    isActive: bool,
    createdAt: Option<int>,
    updatedAt: Option<int>)

  /** `{"username": username}`. */
  function ByUsername(username: string): Stored<UserDoc> -> bool
  {
    (s: Stored<UserDoc>) => s.doc.username == username
  }

  /** The `User` built from a stored document; `is_active` defaults to True. */
  function UserOf(s: Stored<UserDoc>): User
  {
    User(Some(s.id), s.doc.username, s.doc.email, s.doc.isActive.GetOr(true), s.doc.createdAt, s.doc.updatedAt)
  }

  const DuplicateUsername: string := "用户名已存在"

  class UserService {
    const users: Collection<UserDoc>
    const kdf: Kdf
    /** The `PASSWORD_*` settings in force. */
    const policy: PasswordPolicy

    constructor(users: Collection<UserDoc>, kdf: Kdf, policy: PasswordPolicy)
      ensures this.users == users && this.kdf == kdf && this.policy == policy
    {
      this.users := users;
      this.kdf := kdf;
      this.policy := policy;
    }

    /**
     * `authenticate_user`: the first user with that name, when the password
     * verifies against its stored hash and salt; whether the user is active
     * is reported, not checked.
     */
    function AuthenticateUser(username: string, password: string): (r: Option<User>)
      reads users
      ensures var found := users.FindOne(ByUsername(username));
              && (r.Some? <==> found.Some? && VerifyPassword(kdf, password, found.value.doc.passwordHash, found.value.doc.salt))
              && (r.Some? ==> r.value == UserOf(found.value) && r.value.username == username)
    {
      match users.FindOne(ByUsername(username))
      case None => None
      case Some(s) =>
        if !VerifyPassword(kdf, password, s.doc.passwordHash, s.doc.salt) then None
        else Some(UserOf(s))
    }

    /**
     * `create_user`: a password breaking the policy raises with the errors
     * joined by "; "; a taken username raises; otherwise one active user is
     * inserted with a fresh salt and `created_at == updated_at`, and the new
     * user can log in at once.
     */
    method CreateUser(username: string, password: string, email: Option<string>, entropy: seq<uint8>,
                      now: int, generatedId: string)
      returns (r: Outcome<User>)
      requires |entropy| == SaltBytes
      modifies users`docs
      ensures var errors := Messages(Violations(policy, password), policy);
              errors != [] ==> r == Raised(Join(errors, "; ")) && users.docs == old(users.docs)
      ensures Violations(policy, password) == [] && old(users.FindOne(ByUsername(username))).Some? ==>
                r == Raised(DuplicateUsername) && users.docs == old(users.docs)
      ensures Violations(policy, password) == [] && old(users.FindOne(ByUsername(username))).None? ==>
                var salt := HexOf(entropy);
                var doc := UserDoc(username, email, kdf(password, salt, Pbkdf2Iterations), salt, Some(true), Some(now), Some(now));
                var inserted := users.up && !old(users.HasId(generatedId));
                && r == Ok(User(if inserted then Some(generatedId) else None, username, email, true, Some(now), Some(now)))
                && users.docs == if inserted then old(users.docs) + [Stored(generatedId, doc)] else old(users.docs)
      ensures r.Ok? && r.value.id.Some? ==> AuthenticateUser(username, password) == Some(r.value)
    {
      var valid, errors := Validate(policy, password);
      if !valid {
        return Raised(Join(errors, "; "));
      }
      var existing := users.FindOne(ByUsername(username));
      if existing.Some? {
        return Raised(DuplicateUsername);
      }
      var hashed := HashPassword(kdf, password, None, entropy);
      var doc := UserDoc(username, email, hashed.0, hashed.1, Some(true), Some(now), Some(now));
      ghost var before := users.docs;
      var id := users.InsertOne(doc, None, generatedId);
      r := Ok(User(id, username, email, true, Some(now), Some(now)));
      if id.Some? {
        AppendedIsFirst(before, Stored(generatedId, doc), ByUsername(username));
        assert users.FindOne(ByUsername(username)) == Some(Stored(generatedId, doc));
      }
    }
  }
}
