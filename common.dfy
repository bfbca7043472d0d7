/** Vocabulary shared by every service: optional values, the exceptions the
    services throw, the role and status ordinals, and the password hash. */
module Common {

  datatype Option<+T> = None | Some(value: T)

  /** The exceptions of the NestJS services, with the message they carry. */
  datatype HttpError =
    | Unauthorized(message: string)   // UnauthorizedException (401)
    | Forbidden(message: string)      // ForbiddenException, or HttpException with FORBIDDEN (403)
    | BadRequest(message: string)     // BadRequestException (400)
    | Conflict(message: string)       // ConflictException (409)
    | PlainError(message: string)     // a bare `new Error(...)`
    | Internal(cause: string)         // an error nobody catches: a Prisma error or a TypeError (500)

  datatype Result<+T> = Ok(value: T) | Err(error: HttpError)

  /** Causes of `Internal` errors. */
  const UniqueViolation := "unique constraint violated"
  const RecordNotFound := "record to update or delete does not exist"
  const NegativeSkip := "skip must not be negative"
  const NullTarget := "cannot read properties of null"

  /** Ordinals of the `Roles` enum of the shared package. The enum itself is not
      part of this model: admin = 2 and super = 3 are the values the services
      compare against; public = 1 is assumed. */
  const PublicRole: int := 1
  const AdminRole: int := 2
  const SuperRole: int := 3

  /** `Roles[n]`: the reverse lookup of a numeric enum; undefined for any other number. */
  function RoleName(n: int): (r: Option<string>)
    ensures r == Some("admin") <==> n == AdminRole
    ensures r.None? <==> n !in {PublicRole, AdminRole, SuperRole}
  {
    if n == PublicRole then Some("public")
    else if n == AdminRole then Some("admin")
    else if n == SuperRole then Some("super")
    else None
  }

  /** `UserStatusEnum.DISABLED` (assumed 0, so that it is also the falsy status). */
  const Disabled: int := 0

  /** A status is falsy in JavaScript exactly when it is 0. */
  predicate Falsy(status: int) { status == 0 }

  /** `String.prototype.startsWith`. */
  predicate StartsWith(s: string, prefix: string) {
    |prefix| <= |s| && s[..|prefix|] == prefix
  }

  /** Concatenating a fixed prefix is injective: keys built as prefix + name
      for different names never collide. */
  lemma PrefixInjective(prefix: string, a: string, b: string)
    requires prefix + a == prefix + b
    ensures a == b
  {
    assert a == (prefix + a)[|prefix|..];
    assert b == (prefix + b)[|prefix|..];
  }

  /** `findUnique` over a unique column: the index of the first row whose
      column `f` holds `key`, and none exactly when no row does. */
  function IndexOf<T>(rows: seq<T>, f: T -> string, key: string): (r: Option<nat>)
    ensures r.Some? ==> r.value < |rows| && f(rows[r.value]) == key
    ensures r.None? <==> forall j :: 0 <= j < |rows| ==> f(rows[j]) != key
  {
    if rows == [] then None
    else if f(rows[0]) == key then Some(0)
    else match IndexOf(rows[1..], f, key)
      case Some(k) => Some(k + 1)
      case None => None
  }

  /** What a cache-aside read (`get`, then the store on a miss) returns: the
      cached value on a hit, else the store's answer. */
  function Served<K, V>(cache: map<K, V>, key: K, stored: Option<V>): Option<V> {
    if key in cache then Some(cache[key]) else stored
  }

  /** The cache after a cache-aside read: a miss caches the store's answer
      when there is one, and nothing otherwise. */
  function Filled<K, V>(cache: map<K, V>, key: K, stored: Option<V>): map<K, V> {
    if key in cache then cache
    else match stored
      case Some(v) => cache[key := v]
      case None => cache
  }

  /** An argon2 hash. The model keeps the password it was computed from and the
      random salt, so that two hashes of one password differ when their salts do
      (argon2 is salted), while verification succeeds exactly for the password
      that was hashed (no collisions). */
  datatype PasswordHash = Argon2(password: string, salt: int)

  /** argon2 `hash(password)`, with the salt drawn by the library made a parameter. */
  function Hash(password: string, salt: int): PasswordHash {
    Argon2(password, salt)
  }

  /** argon2 `verify(hash, password)`. */
  predicate VerifyHash(h: PasswordHash, password: string) {
    h.password == password
  }

  lemma HashThenVerify(password: string, attempt: string, salt: int)
    ensures VerifyHash(Hash(password, salt), attempt) <==> attempt == password
  {
  }
}
