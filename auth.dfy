/** AuthService (auth.service.ts): login, registration, password reset,
    logout, token refresh, the e-mail verification codes kept in a TTL cache,
    and the GitHub sign-in. Time `now` is in milliseconds since the epoch;
    tokens are issued and checked at `now / 1000` seconds, as jsonwebtoken
    floors the clock. */
module Auth {
  import opened Common
  import opened Jwt
  import opened Cookies
  import opened Users

  const UserMissing := "用户不存在"
  const UserBanned := "用户已被封禁，请联系管理员！"
  const WrongPassword := "密码错误"
  const UserExists := "用户已存在"
  const ForgetRejected := "Invalid or expired forget password"
  const RefreshMissing := "Refresh token is missing"
  const RefreshRejected := "Invalid or expired refresh token"
  const CodeRejected := "验证码错误或已过期"
  const CodeSent := "验证码已发送，请检查邮箱"
  const CodeNotSent := "验证码发送失败，请联系管理员"

  /** The TTL of the code cache and of each entry set in it, in milliseconds. */
  const CodeTtl: int := 60 * 1000

  /** What the code cache holds: a code string, or the lock's `true`. */
  datatype Stored = Code(text: string) | Lock

  datatype CodeEntry = CodeEntry(value: Stored, expiresAt: int)

  function CodeKey(email: string): string { "verify_" + email }
  function LockKey(email: string): string { "verify_lock_" + email }

  /** A cache read at time `now`: an entry is returned until its expiry time
      has passed. */
  function Live(store: map<string, CodeEntry>, key: string, now: int): (r: Option<Stored>)
    ensures r.Some? <==> key in store && now <= store[key].expiresAt
  {
    if key in store && now <= store[key].expiresAt then Some(store[key].value) else None
  }

  /** `cache.set(key, v, ttl)` then `cache.get`: the key reads back `v` until
      `ttl` milliseconds after the write and nothing afterwards; every other
      key reads as before. */
  lemma SetThenRead(store: map<string, CodeEntry>, key: string, v: Stored, at: int, ttl: nat, other: string, now: int)
    ensures Live(store[key := CodeEntry(v, at + ttl)], key, now) == (if now <= at + ttl then Some(v) else None)
    ensures other != key ==> Live(store[key := CodeEntry(v, at + ttl)], other, now) == Live(store, other, now)
  {
  }

  /** JavaScript truthiness of a cached value. */
  predicate Truthy(v: Stored) {
    match v
    case Code(t) => t != ""
    case Lock => true
  }

  /** `if (isLocked)` in sendVerificationCode. */
  predicate Locked(store: map<string, CodeEntry>, email: string, now: int) {
    var v := Live(store, LockKey(email), now);
    v.Some? && Truthy(v.value)
  }

  /** verifyCode's test: a live, truthy saved value that is strictly equal to
      the input. The lock's `true` never equals a string. */
  predicate CodeAccepted(store: map<string, CodeEntry>, email: string, input: string, now: int) {
    var v := Live(store, CodeKey(email), now);
    v.Some? && Truthy(v.value) && v.value == Code(input)
  }

  lemma CodeAcceptedMeaning(store: map<string, CodeEntry>, email: string, input: string, now: int)
    ensures CodeAccepted(store, email, input, now) <==>
              && CodeKey(email) in store && now <= store[CodeKey(email)].expiresAt
              && store[CodeKey(email)].value == Code(input) && input != ""
  {
  }

  /** A code key and a lock key for the same address never coincide... */
  lemma OwnKeysDistinct(email: string)
    ensures CodeKey(email) != LockKey(email)
  {
    assert |CodeKey(email)| != |LockKey(email)|;
  }

  /** ...but the keys are plain concatenations, so the lock of `e` is the code
      slot of the address "lock_" + e: asking for a code for that address
      locks `e` out for a minute. */
  lemma LockKeyIsCodeKey(email: string)
    ensures LockKey(email) == CodeKey("lock_" + email)
  {
    assert "verify_lock_" + email == "verify_" + ("lock_" + email);
  }

  /** The decimal digit of 0 <= d < 10. */
  function Digit(d: int): char
    requires 0 <= d < 10
  {
    "0123456789"[d]
  }

  /** `n.toString()` for a natural number. */
  function DecimalString(n: nat): (s: string)
    ensures |s| >= 1
    ensures forall i :: 0 <= i < |s| ==> '0' <= s[i] <= '9'
    decreases n
  {
    if n < 10 then [Digit(n)] else DecimalString(n / 10) + [Digit(n % 10)]
  }

  /** The number a string of decimal digits denotes. */
  function DecimalValue(s: string): nat
    requires forall i :: 0 <= i < |s| ==> '0' <= s[i] <= '9'
  {
    if s == [] then 0 else DecimalValue(s[..|s| - 1]) * 10 + ((s[|s| - 1] as int) - ('0' as int))
  }

  /** The rendering can be read back: distinct codes are distinct strings. */
  lemma {:induction false} DecimalRoundTrip(n: nat)
    ensures DecimalValue(DecimalString(n)) == n
    decreases n
  {
    if n >= 10 {
      DecimalRoundTrip(n / 10);
      var s := DecimalString(n);
      assert s[..|s| - 1] == DecimalString(n / 10);
    }
  }

  /** Numbers from 10^(k-1) up to 10^k have k digits; the issued codes
      `Math.floor(100000 + Math.random() * 900000)` have six. */
  lemma {:induction false} SixDigitCodes(n: nat)
    requires 100000 <= n < 1000000
    ensures |DecimalString(n)| == 6
  {
    var a := n / 10;
    var b := a / 10;
    var c := b / 10;
    var d := c / 10;
    var e := d / 10;
    assert 1 <= e < 10;
    assert |DecimalString(e)| == 1;
    assert |DecimalString(d)| == 2;
    assert |DecimalString(c)| == 3;
    assert |DecimalString(b)| == 4;
    assert |DecimalString(a)| == 5;
  }

  /** The code issued for a draw 0 <= draw < 900000 of the random source. */
  function IssuedCode(draw: int): (code: string)
    requires 0 <= draw < 900000
    ensures |code| == 6 && code != ""
  {
    SixDigitCodes(100000 + draw);
    DecimalString(100000 + draw)
  }

  /** The cache after sendVerificationCode stores a code at time `now`. */
  function Issue(store: map<string, CodeEntry>, email: string, code: string, now: int): map<string, CodeEntry> {
    store[CodeKey(email) := CodeEntry(Code(code), now + CodeTtl)][LockKey(email) := CodeEntry(Lock, now + CodeTtl)]
  }

  /** An issued code verifies exactly when it is entered within the TTL. */
  lemma IssuedCodeVerifies(store: map<string, CodeEntry>, email: string, code: string, input: string, now: int, later: int)
    requires code != ""
    ensures CodeAccepted(Issue(store, email, code, now), email, input, later) <==> input == code && later <= now + CodeTtl
  {
    OwnKeysDistinct(email);
  }

  /** For the whole TTL after an issue, the address stays locked. */
  lemma LockHoldsForTtl(store: map<string, CodeEntry>, email: string, code: string, now: int, later: int)
    requires later <= now + CodeTtl
    ensures Locked(Issue(store, email, code, now), email, later)
  {
  }

  /** What Login replies with. */
  datatype LoginReply = LoginReply(userInfo: UserInfo, accessToken: Token)

  /** RegisterDto and ForgetDTO. */
  datatype RegisterForm = RegisterForm(email: string, username: string, password: string, emailCode: string)
  datatype ForgetForm = ForgetForm(email: string, password: string, emailCode: string)

  /** Login's claims: the submitted password in clear, and `role_id` as `role`. */
  function LoginClaims(u: User, password: string): UserInfo {
    UserInfo(u.id, u.username, u.email, PlainPassword(password), u.avatar, u.roleId, u.status)
  }

  /** Refresh's claims: no password at all. */
  function RefreshClaims(u: User): UserInfo {
    UserInfo(u.id, u.username, u.email, NoPassword, u.avatar, u.roleId, u.status)
  }

  /** The GitHub flow's claims: the stored hash. */
  function GithubClaims(u: User): UserInfo {
    UserInfo(u.id, u.username, u.email, HashedPassword(u.password), u.avatar, u.roleId, u.status)
  }

  /** Anyone who reads a login access token, without any key, reads the
      password the user typed. */
  lemma LoginTokenCarriesPassword(u: User, password: string, keys: Keys, now: int)
    ensures DecodeAccessToken(GenerateAccessToken(LoginClaims(u, password), keys, now)).value.user.password
         == PlainPassword(password)
  {
  }

  class AuthService {
    /** The code cache: `verify_<email>` and `verify_lock_<email>`. */
    var codes: map<string, CodeEntry>
    const users: UserService
    const keys: Keys

    constructor (users: UserService, keys: Keys)
      ensures codes == map[] && this.users == users && this.keys == keys
    {
      codes := map[];
      this.users := users;
      this.keys := keys;
    }

    /** Login: in this order, an unknown e-mail, a disabled user and a wrong
        password are Forbidden. Otherwise set the httpOnly refresh cookie for
        seven days and reply with the claims and a fresh access token. */
    method Login(email: string, password: string, res: Response, now: int) returns (r: Result<LoginReply>)
      modifies users`cache, res
      ensures users.cache == Filled(old(users.cache), EmailKey(email), ByEmail(users.users, email))
      ensures var u := Served(old(users.cache), EmailKey(email), ByEmail(users.users, email));
              if u.None? then r == Err(Forbidden(UserMissing)) && res.cookies == old(res.cookies)
              else if u.value.status == Disabled then r == Err(Forbidden(UserBanned)) && res.cookies == old(res.cookies)
              else if !VerifyHash(u.value.password, password) then
                r == Err(Forbidden(WrongPassword)) && res.cookies == old(res.cookies)
              else
                var info := LoginClaims(u.value, password);
                && r == Ok(LoginReply(info, GenerateAccessToken(info, keys, now / 1000)))
                && res.cookies == old(res.cookies)[RefreshCookie :=
                     Cookie(TokenContent(GenerateRefreshToken(info, keys, now / 1000)), RefreshMaxAge, true)]
    {
      var u := users.FindByEmail(email);
      if u.None? {
        return Err(Forbidden(UserMissing));
      }
      if u.value.status == Disabled {
        return Err(Forbidden(UserBanned));
      }
      if !VerifyHash(u.value.password, password) {
        return Err(Forbidden(WrongPassword));
      }
      var info := LoginClaims(u.value, password);
      var access := GenerateAccessToken(info, keys, now / 1000);
      var refresh := GenerateRefreshToken(info, keys, now / 1000);
      res.SetTokenCookie(RefreshCookie, refresh, RefreshMaxAge, true);
      r := Ok(LoginReply(info, access));
    }

    /** verifyCode: BadRequest unless `CodeAccepted`, the cache then being
        untouched; on success the code is deleted, so it cannot verify again. */
    method VerifyCode(email: string, input: string, now: int) returns (r: Result<bool>)
      modifies this`codes
      ensures r.Ok? <==> CodeAccepted(old(codes), email, input, now)
      ensures r.Ok? ==> r.value && codes == old(codes) - {CodeKey(email)} && !CodeAccepted(codes, email, input, now)
      ensures r.Err? ==> r.error == BadRequest(CodeRejected) && codes == old(codes)
    {
      var saved := Live(codes, CodeKey(email), now);
      if saved.None? || !Truthy(saved.value) || saved.value != Code(input) {
        return Err(BadRequest(CodeRejected));
      }
      codes := codes - {CodeKey(email)};
      r := Ok(true);
    }

    /** sendVerificationCode: while the address is locked nothing is stored and
        the failure message is returned (the BadRequest is swallowed).
        Otherwise store the code and the lock, each for a minute, then mail;
        a failed mail keeps both and returns the failure message. */
    method SendVerificationCode(email: string, now: int, draw: int, mailDelivered: bool) returns (message: string)
      requires 0 <= draw < 900000
      modifies this`codes
      ensures Locked(old(codes), email, now) ==> message == CodeNotSent && codes == old(codes)
      ensures !Locked(old(codes), email, now) ==>
                && codes == Issue(old(codes), email, IssuedCode(draw), now)
                && message == (if mailDelivered then CodeSent else CodeNotSent)
    {
      if Locked(codes, email, now) {
        return CodeNotSent;
      }
      var code := IssuedCode(draw);
      codes := codes[CodeKey(email) := CodeEntry(Code(code), now + CodeTtl)];
      codes := codes[LockKey(email) := CodeEntry(Lock, now + CodeTtl)];
      message := if mailDelivered then CodeSent else CodeNotSent;
    }

    /** Register: Conflict when the e-mail or the username is found, before the
        code is looked at, so the code survives; then the code must verify;
        then the user is created from the form without `emailCode`. */
    method Register(form: RegisterForm, salt: int, now: int) returns (r: Result<User>)
      requires users.Valid()
      modifies this`codes, users`users, users`nextId, users`cache
      ensures users.Valid()
      ensures var c1 := Filled(old(users.cache), EmailKey(form.email), ByEmail(old(users.users), form.email));
              var byEmail := Served(old(users.cache), EmailKey(form.email), ByEmail(old(users.users), form.email));
              var byName := Served(c1, UsernameKey(form.username), ByName(old(users.users), form.username));
              var c2 := Filled(c1, UsernameKey(form.username), ByName(old(users.users), form.username));
              if byEmail.Some? || byName.Some? then
                && r == Err(Conflict(UserExists)) && codes == old(codes)
                && users.users == old(users.users) && users.cache == c2
              else if !CodeAccepted(old(codes), form.email, form.emailCode, now) then
                && r == Err(BadRequest(CodeRejected)) && codes == old(codes)
                && users.users == old(users.users) && users.cache == old(users.cache)
              else
                var u := User(old(users.nextId), form.username, form.email, Hash(form.password, salt), None,
                              DefaultRole, DefaultRoleId, DefaultStatus);
                && r == Ok(u) && codes == old(codes) - {CodeKey(form.email)}
                && users.users == old(users.users) + [u]
                && users.cache == old(users.cache)[EmailKey(u.email) := u][UsernameKey(u.username) := u]
      ensures old(users.Coherent()) ==> users.Coherent()
    {
      var byEmail := users.FindByEmail(form.email);
      var byName := users.FindByName(form.username);
      if byEmail.Some? || byName.Some? {
        return Err(Conflict(UserExists));
      }
      var verified := VerifyCode(form.email, form.emailCode, now);
      if verified.Err? {
        return Err(verified.error);
      }
      r := users.Create(NewUser(form.username, form.email, form.password, None), salt);
    }

    /** Forget: the lookup by e-mail is not awaited, so it never rejects the
        request (its cache fill still happens); a code that does not verify is
        Forbidden. The password update is returned without await, so its own
        failure escapes the catch unchanged. */
    method Forget(form: ForgetForm, salt: int, now: int) returns (r: Result<User>)
      requires users.Valid()
      modifies this`codes, users`users, users`cache
      ensures users.Valid()
      ensures var filled := Filled(old(users.cache), EmailKey(form.email), ByEmail(old(users.users), form.email));
              if !CodeAccepted(old(codes), form.email, form.emailCode, now) then
                && r == Err(Forbidden(ForgetRejected)) && codes == old(codes)
                && users.users == old(users.users) && users.cache == filled
              else
                && codes == old(codes) - {CodeKey(form.email)}
                && match IndexOfEmail(old(users.users), form.email)
                   case None =>
                     r == Err(Internal(RecordNotFound)) && users.users == old(users.users) && users.cache == filled
                   case Some(i) =>
                     var u := old(users.users)[i].(password := Hash(form.password, salt));
                     r == Ok(u) && users.users == old(users.users)[i := u] && users.cache == EvictAfterRehash(filled, u)
    {
      var _ := users.FindByEmail(form.email);
      var verified := VerifyCode(form.email, form.emailCode, now);
      if verified.Err? {
        return Err(Forbidden(ForgetRejected));
      }
      r := users.UpdatePassword(form.email, form.password, salt);
    }

    /** Logout: clear the refresh cookie. */
    method Logout(res: Response)
      modifies res
      ensures res.cookies == old(res.cookies) - {RefreshCookie}
    {
      res.ClearTokenCookie(RefreshCookie);
    }

    /** Refresh: a missing or empty refresh cookie is Forbidden; every failure
        after it is reported as 'Invalid or expired refresh token', and only an
        unknown or falsy-status user also clears the cookie. Otherwise a new
        access token for the stored user, without a password. `requestCookies`
        is the request's cookie jar; `parse` reads a token string. */
    method Refresh(requestCookies: map<string, string>, parse: string -> Token, res: Response, now: int)
      returns (r: Result<Token>)
      modifies users`cache, res
      ensures var raw := if RefreshCookie in requestCookies then requestCookies[RefreshCookie] else "";
              var v := VerifyRefreshToken(parse(raw), keys, now / 1000);
              if raw == "" then
                r == Err(Forbidden(RefreshMissing)) && users.cache == old(users.cache) && res.cookies == old(res.cookies)
              else if v.Err? then
                r == Err(Forbidden(RefreshRejected)) && users.cache == old(users.cache) && res.cookies == old(res.cookies)
              else
                var name := v.value.user.username;
                var u := Served(old(users.cache), UsernameKey(name), ByName(users.users, name));
                && users.cache == Filled(old(users.cache), UsernameKey(name), ByName(users.users, name))
                && if u.None? || Falsy(u.value.status) then
                     r == Err(Forbidden(RefreshRejected)) && res.cookies == old(res.cookies) - {RefreshCookie}
                   else
                     r == Ok(GenerateAccessToken(RefreshClaims(u.value), keys, now / 1000)) && res.cookies == old(res.cookies)
    {
      var raw := if RefreshCookie in requestCookies then requestCookies[RefreshCookie] else "";
      if raw == "" {
        return Err(Forbidden(RefreshMissing));
      }
      var v := VerifyRefreshToken(parse(raw), keys, now / 1000);
      if v.Err? {
        return Err(Forbidden(RefreshRejected));
      }
      var u := users.FindByName(v.value.user.username);
      if u.None? || Falsy(u.value.status) {
        res.ClearTokenCookie(RefreshCookie);
        return Err(Forbidden(RefreshRejected));
      }
      r := Ok(GenerateAccessToken(RefreshClaims(u.value), keys, now / 1000));
    }

    /** findOrCreate: the user found by e-mail, or else one created with the
        GitHub id as its password; only the refresh cookie is set, and no
        access token is returned. */
    method FindOrCreate(githubId: string, username: string, email: string, avatar: string,
                        res: Response, now: int, salt: int) returns (r: Result<()>)
      requires users.Valid()
      modifies users`users, users`nextId, users`cache, res
      ensures users.Valid()
      ensures var found := Served(old(users.cache), EmailKey(email), ByEmail(old(users.users), email));
              var filled := Filled(old(users.cache), EmailKey(email), ByEmail(old(users.users), email));
              if found.Some? then
                && r == Ok(()) && users.users == old(users.users) && users.cache == filled
                && res.cookies == old(res.cookies)[RefreshCookie :=
                     Cookie(TokenContent(GenerateRefreshToken(GithubClaims(found.value), keys, now / 1000)), RefreshMaxAge, true)]
              else if ByName(old(users.users), username).Some? then
                && r == Err(Internal(UniqueViolation)) && users.users == old(users.users)
                && users.cache == old(users.cache) && res.cookies == old(res.cookies)
              else
                var u := User(old(users.nextId), username, email, Hash(githubId, salt), Some(avatar),
                              DefaultRole, DefaultRoleId, DefaultStatus);
                && r == Ok(()) && users.users == old(users.users) + [u]
                && users.cache == old(users.cache)[EmailKey(u.email) := u][UsernameKey(u.username) := u]
                && res.cookies == old(res.cookies)[RefreshCookie :=
                     Cookie(TokenContent(GenerateRefreshToken(GithubClaims(u), keys, now / 1000)), RefreshMaxAge, true)]
      ensures old(users.Coherent()) ==> users.Coherent()
    {
      var user := users.FindByEmail(email);
      if user.None? {
        var created := users.Create(NewUser(username, email, githubId, Some(avatar)), salt);
        if created.Err? {
          return Err(created.error);
        }
        user := Some(created.value);
      }
      var refresh := GenerateRefreshToken(GithubClaims(user.value), keys, now / 1000);
      res.SetTokenCookie(RefreshCookie, refresh, RefreshMaxAge, true);
      r := Ok(());
    }
  }
}
