/** UserService (user.service.ts): the users table and its read-through cache
    under `user:email:<email>` and `user:username:<username>`, plus the cached
    list of administrators under `users:admins`. */
module Users {
  import opened Common
  import opened Cookies

  /** A row of the users table (timestamps are not modelled). The table has a
      scalar `role` column, which getAllAdmin, update and info read, and the
      foreign key `role_id` of the `roles` relation, which super connects and
      the auth flows put into tokens. */
  datatype User = User(
    id: int, username: string, email: string, password: PasswordHash,
    avatar: Option<string>, role: int, roleId: int, status: int)

  /** CreateUserDto, with the fields its callers fill in. */
  datatype NewUser = NewUser(username: string, email: string, password: string, avatar: Option<string>)

  /** UpdateUserDto: an absent field leaves the column as it is. */
  datatype UserPatch = UserPatch(
    username: Option<string>, avatar: Option<string>, email: Option<string>,
    role: Option<int>, status: Option<int>)

  /** AdminInfo: the three columns getAllAdmin selects. */
  datatype AdminInfo = AdminInfo(username: string, avatar: Option<string>, email: string)

  /** What `info` replies with: every column of the user except the password
      (the timestamp columns it also drops are not modelled). */
  datatype PublicUser = PublicUser(
    id: int, username: string, email: string, avatar: Option<string>, role: int, roleId: int, status: int)

  /** Column defaults of the users table (the schema is not part of this model). */
  const DefaultRole: int := PublicRole
  const DefaultRoleId: int := PublicRole
  const DefaultStatus: int := 1

  const UserNotFound := "User Not Found"
  const Escalation := "非法操作"
  const UpdateSucceeded := "更新成功"
  const UpdateFailed := "更新失败"

  /** The two per-user cache keys. */
  datatype UserKey = EmailKey(email: string) | UsernameKey(username: string)

  /** The cache key as the service spells it. */
  function Render(k: UserKey): string {
    match k
    case EmailKey(e) => "user:email:" + e
    case UsernameKey(n) => "user:username:" + n
  }

  const AdminsKey := "users:admins"

  /** Distinct keys are distinct strings, and none is the admin-list key: the
      cache can be modelled on UserKey without losing collisions. */
  lemma RenderInjective(k1: UserKey, k2: UserKey)
    ensures Render(k1) == Render(k2) ==> k1 == k2
    ensures Render(k1) != AdminsKey
  {
    var s1, s2 := Render(k1), Render(k2);
    assert s1[4] == ':' && AdminsKey[4] == 's';
    if s1 == s2 {
      assert s1[5] == s2[5];
      match k1
      case EmailKey(e1) =>
        var e2 := k2.email;
        PrefixInjective("user:email:", e1, e2);
      case UsernameKey(n1) =>
        var n2 := k2.username;
        PrefixInjective("user:username:", n1, n2);
    }
  }

  /** `findUnique({where: {email}})`: the index of the row with that email. */
  function IndexOfEmail(users: seq<User>, email: string): (r: Option<nat>)
    ensures r.Some? ==> r.value < |users| && users[r.value].email == email
    ensures r.None? <==> forall j :: 0 <= j < |users| ==> users[j].email != email
  {
    IndexOf(users, (u: User) => u.email, email)
  }

  /** `findUnique({where: {username}})`: the index of the row with that username. */
  function IndexOfName(users: seq<User>, username: string): (r: Option<nat>)
    ensures r.Some? ==> r.value < |users| && users[r.value].username == username
    ensures r.None? <==> forall j :: 0 <= j < |users| ==> users[j].username != username
  {
    IndexOf(users, (u: User) => u.username, username)
  }

  function ByEmail(users: seq<User>, email: string): Option<User> {
    match IndexOfEmail(users, email)
    case Some(i) => Some(users[i])
    case None => None
  }

  function ByName(users: seq<User>, username: string): Option<User> {
    match IndexOfName(users, username)
    case Some(i) => Some(users[i])
    case None => None
  }

  /** The unique columns of the table: id, username, email. */
  ghost predicate UniqueKeys(users: seq<User>) {
    forall i, j :: 0 <= i < |users| && 0 <= j < |users| && i != j ==>
      users[i].id != users[j].id && users[i].username != users[j].username && users[i].email != users[j].email
  }

  /** With unique columns, looking a user up by its email or name finds it. */
  lemma LookupFinds(users: seq<User>, u: User)
    requires UniqueKeys(users) && u in users
    ensures ByEmail(users, u.email) == Some(u) && ByName(users, u.username) == Some(u)
  {
    var i :| 0 <= i < |users| && users[i] == u;
    assert IndexOfEmail(users, u.email) == Some(i);
    assert IndexOfName(users, u.username) == Some(i);
  }

  /** Replacing a row by one whose unique columns no other row holds keeps them unique. */
  lemma UniqueReplace(users: seq<User>, i: nat, u: User)
    requires UniqueKeys(users) && i < |users|
    requires forall j :: 0 <= j < |users| && j != i ==>
               users[j].id != u.id && users[j].username != u.username && users[j].email != u.email
    ensures UniqueKeys(users[i := u])
  {
  }

  /** Removing a row keeps the unique columns unique. */
  lemma UniqueRemove(users: seq<User>, i: nat)
    requires UniqueKeys(users) && i < |users|
    ensures UniqueKeys(users[..i] + users[i + 1..])
    ensures forall v :: v in users[..i] + users[i + 1..] ==> v in users
  {
    var rest := users[..i] + users[i + 1..];
    forall a, b | 0 <= a < |rest| && 0 <= b < |rest| && a != b
      ensures rest[a].id != rest[b].id && rest[a].username != rest[b].username && rest[a].email != rest[b].email
    {
      var a', b' := if a < i then a else a + 1, if b < i then b else b + 1;
      assert rest[a] == users[a'] && rest[b] == users[b'];
    }
    forall j | 0 <= j < |rest| ensures rest[j] in users {
      assert rest[j] == users[if j < i then j else j + 1];
    }
  }

  /** The cache holds, under every key, a user of the table that the key names. */
  ghost predicate CacheCoherent(cache: map<UserKey, User>, users: seq<User>) {
    forall k :: k in cache ==>
      cache[k] in users
      && (k.EmailKey? ==> cache[k].email == k.email)
      && (k.UsernameKey? ==> cache[k].username == k.username)
  }

  /** A coherent cache is invisible: a read through it answers what the table
      answers, and leaves it coherent. */
  lemma ReadThroughTransparent(cache: map<UserKey, User>, users: seq<User>, email: string, username: string)
    requires UniqueKeys(users) && CacheCoherent(cache, users)
    ensures Served(cache, EmailKey(email), ByEmail(users, email)) == ByEmail(users, email)
    ensures Served(cache, UsernameKey(username), ByName(users, username)) == ByName(users, username)
    ensures CacheCoherent(Filled(cache, EmailKey(email), ByEmail(users, email)), users)
    ensures CacheCoherent(Filled(cache, UsernameKey(username), ByName(users, username)), users)
  {
    if EmailKey(email) in cache { LookupFinds(users, cache[EmailKey(email)]); }
    if UsernameKey(username) in cache { LookupFinds(users, cache[UsernameKey(username)]); }
  }

  /** Caching a user of the table under its own two keys keeps the cache coherent. */
  lemma CoherentPut(cache: map<UserKey, User>, users: seq<User>, u: User)
    requires CacheCoherent(cache, users) && u in users
    ensures CacheCoherent(cache[EmailKey(u.email) := u][UsernameKey(u.username) := u], users)
    ensures CacheCoherent(cache[UsernameKey(u.username) := u][EmailKey(u.email) := u], users)
  {
  }

  /** Appending a row keeps every cached user in the table. */
  lemma CoherentInsert(cache: map<UserKey, User>, users: seq<User>, u: User)
    requires CacheCoherent(cache, users)
    ensures CacheCoherent(cache, users + [u])
  {
  }

  /** Once both keys of row i are evicted, row i may be replaced or removed. */
  lemma CoherentEvict(cache: map<UserKey, User>, users: seq<User>, i: nat, u: User)
    requires CacheCoherent(cache, users) && i < |users|
    ensures CacheCoherent(cache - {UsernameKey(users[i].username), EmailKey(users[i].email)}, users[i := u])
    ensures CacheCoherent(cache - {UsernameKey(users[i].username), EmailKey(users[i].email)}, users[..i] + users[i + 1..])
  {
    var c := cache - {UsernameKey(users[i].username), EmailKey(users[i].email)};
    forall k | k in c ensures c[k] in users[i := u] && c[k] in users[..i] + users[i + 1..] {
      var j :| 0 <= j < |users| && users[j] == c[k];
      assert j != i;
      assert users[i := u][j] == c[k];
      if j < i { assert (users[..i] + users[i + 1..])[j] == c[k]; }
      else { assert (users[..i] + users[i + 1..])[j - 1] == c[k]; }
    }
  }

  /** updatePassword's eviction: the email key, and the username key unless
      the username is empty. It keeps the cache coherent unless an entry is
      left under the empty username. */
  function EvictAfterRehash(cache: map<UserKey, User>, u: User): map<UserKey, User> {
    cache - {EmailKey(u.email)} - (if u.username != "" then {UsernameKey(u.username)} else {})
  }

  lemma CoherentAfterRehash(cache: map<UserKey, User>, users: seq<User>, i: nat, u: User)
    requires CacheCoherent(cache, users) && i < |users|
    requires u.email == users[i].email && u.username == users[i].username
    requires u.username == "" ==> UsernameKey("") !in cache
    ensures CacheCoherent(EvictAfterRehash(cache, u), users[i := u])
  {
    CoherentEvict(cache, users, i, u);
    assert EvictAfterRehash(cache, u) == cache - {UsernameKey(users[i].username), EmailKey(users[i].email)};
  }

  /** The columns `update` writes; an absent field keeps its column. */
  function ApplyPatch(u: User, p: UserPatch): User {
    u.(username := if p.username.Some? then p.username.value else u.username,
       avatar := if p.avatar.Some? then p.avatar else u.avatar,
       email := if p.email.Some? then p.email.value else u.email,
       role := if p.role.Some? then p.role.value else u.role,
       status := if p.status.Some? then p.status.value else u.status)
  }

  /** Some row other than row i already has u's username or email. */
  predicate ClashesWithOthers(users: seq<User>, i: nat, u: User) {
    exists j :: 0 <= j < |users| && j != i && (users[j].username == u.username || users[j].email == u.email)
  }

  predicate IsAdminTier(u: User) {
    u.role == AdminRole || u.role == SuperRole
  }

  function AdminView(u: User): AdminInfo {
    AdminInfo(u.username, u.avatar, u.email)
  }

  /** `findMany({where: {role: {in: [2, 3]}}, select: {username, avatar, email}})`. */
  function Admins(users: seq<User>): (r: seq<AdminInfo>)
    ensures forall i :: 0 <= i < |users| && IsAdminTier(users[i]) ==> AdminView(users[i]) in r
    ensures forall a :: a in r ==> exists i :: 0 <= i < |users| && IsAdminTier(users[i]) && AdminView(users[i]) == a
  {
    if users == [] then []
    else
      var rest := Admins(users[1..]);
      assert forall i :: 1 <= i < |users| ==> users[i] == users[1..][i - 1];
      (if IsAdminTier(users[0]) then [AdminView(users[0])] else []) + rest
  }

  function PublicView(u: User): PublicUser {
    PublicUser(u.id, u.username, u.email, u.avatar, u.role, u.roleId, u.status)
  }

  class UserService {
    /** The users table, in the order findMany returns it. */
    var users: seq<User>
    /** The next autoincrement id. */
    var nextId: int
    /** The per-user cache entries. */
    var cache: map<UserKey, User>
    /** The `users:admins` cache entry. */
    var adminsCache: Option<seq<AdminInfo>>

    ghost predicate Valid()
      reads this
    {
      UniqueKeys(users) && forall i :: 0 <= i < |users| ==> users[i].id < nextId
    }

    ghost predicate Coherent()
      reads this
    {
      CacheCoherent(cache, users)
    }

    constructor ()
      ensures Valid() && Coherent()
      ensures users == [] && cache == map[] && adminsCache == None
    {
      users := [];
      nextId := 1;
      cache := map[];
      adminsCache := None;
    }

    /** Whether the unique columns already hold this username or email. */
    function Taken(username: string, email: string): bool
      reads this
    {
      ByName(users, username).Some? || ByEmail(users, email).Some?
    }

    /** Insert a row with a hashed password; a taken username or email is
        Prisma's unique-constraint error. */
    method Insert(dto: NewUser, salt: int, roleId: int) returns (r: Result<User>)
      requires Valid()
      modifies this`users, this`nextId
      ensures Valid()
      ensures old(Taken(dto.username, dto.email)) ==>
                r == Err(Internal(UniqueViolation)) && users == old(users) && nextId == old(nextId)
      ensures !old(Taken(dto.username, dto.email)) ==>
                var u := User(old(nextId), dto.username, dto.email, Hash(dto.password, salt), dto.avatar, DefaultRole, roleId, DefaultStatus);
                r == Ok(u) && users == old(users) + [u] && nextId == old(nextId) + 1
    {
      if Taken(dto.username, dto.email) {
        return Err(Internal(UniqueViolation));
      }
      var u := User(nextId, dto.username, dto.email, Hash(dto.password, salt), dto.avatar, DefaultRole, roleId, DefaultStatus);
      assert forall j :: 0 <= j < |users| ==> users[j].username != u.username && users[j].email != u.email;
      users := users + [u];
      nextId := nextId + 1;
      r := Ok(u);
    }

    /** create: store the user with its password hashed, then cache it under
        both of its keys. */
    method Create(dto: NewUser, salt: int) returns (r: Result<User>)
      requires Valid()
      modifies this`users, this`nextId, this`cache
      ensures Valid()
      ensures old(Taken(dto.username, dto.email)) ==>
                r == Err(Internal(UniqueViolation)) && users == old(users) && nextId == old(nextId) && cache == old(cache)
      ensures !old(Taken(dto.username, dto.email)) ==>
                var u := User(old(nextId), dto.username, dto.email, Hash(dto.password, salt), dto.avatar, DefaultRole, DefaultRoleId, DefaultStatus);
                && r == Ok(u) && users == old(users) + [u] && nextId == old(nextId) + 1
                && cache == old(cache)[EmailKey(u.email) := u][UsernameKey(u.username) := u]
      ensures old(Coherent()) ==> Coherent()
    {
      ghost var before := cache;
      ghost var wasCoherent := Coherent();
      r := Insert(dto, salt, DefaultRoleId);
      if r.Ok? {
        var u := r.value;
        cache := cache[EmailKey(u.email) := u];
        cache := cache[UsernameKey(u.username) := u];
        if wasCoherent {
          CoherentInsert(before, old(users), u);
          CoherentPut(before, users, u);
        }
      }
    }

    /** super: store a user whose `role_id` is connected to role 3, the `role`
        column keeping its default; nothing is cached. */
    method Super(dto: NewUser, salt: int) returns (r: Result<User>)
      requires Valid()
      modifies this`users, this`nextId
      ensures Valid()
      ensures old(Taken(dto.username, dto.email)) ==>
                r == Err(Internal(UniqueViolation)) && users == old(users) && nextId == old(nextId)
      ensures !old(Taken(dto.username, dto.email)) ==>
                var u := User(old(nextId), dto.username, dto.email, Hash(dto.password, salt), dto.avatar, DefaultRole, SuperRole, DefaultStatus);
                r == Ok(u) && users == old(users) + [u] && nextId == old(nextId) + 1
      ensures old(Coherent()) ==> Coherent()
    {
      ghost var wasCoherent := Coherent();
      r := Insert(dto, salt, SuperRole);
      if r.Ok? && wasCoherent { CoherentInsert(cache, old(users), r.value); }
    }

    /** updatePassword: replace the hash of the row with that email, then drop
        its email key and, when its username is non-empty, its username key. A
        missing email is Prisma's not-found error and changes nothing. */
    method UpdatePassword(email: string, password: string, salt: int) returns (r: Result<User>)
      requires Valid()
      modifies this`users, this`cache
      ensures Valid()
      ensures match IndexOfEmail(old(users), email)
              case None => r == Err(Internal(RecordNotFound)) && users == old(users) && cache == old(cache)
              case Some(i) =>
                var u := old(users)[i].(password := Hash(password, salt));
                && r == Ok(u) && users == old(users)[i := u]
                && cache == EvictAfterRehash(old(cache), u)
      ensures old(Coherent()) && (r.Ok? && r.value.username == "" ==> UsernameKey("") !in old(cache)) ==> Coherent()
    {
      var i := IndexOfEmail(users, email);
      if i.None? {
        return Err(Internal(RecordNotFound));
      }
      var u := users[i.value].(password := Hash(password, salt));
      ghost var c0, us0 := cache, users;
      UniqueReplace(users, i.value, u);
      users := users[i.value := u];
      cache := cache - {EmailKey(email)};
      if u.username != "" {
        cache := cache - {UsernameKey(u.username)};
      }
      r := Ok(u);
      if CacheCoherent(c0, us0) && (u.username == "" ==> UsernameKey("") !in c0) {
        CoherentAfterRehash(c0, us0, i.value, u);
      }
    }

    /** findByEmail: the cached user on a hit; on a miss the table's, cached
        only when there is one. */
    method FindByEmail(email: string) returns (r: Option<User>)
      modifies this`cache
      ensures r == Served(old(cache), EmailKey(email), ByEmail(users, email))
      ensures cache == Filled(old(cache), EmailKey(email), ByEmail(users, email))
    {
      if EmailKey(email) in cache {
        return Some(cache[EmailKey(email)]);
      }
      r := ByEmail(users, email);
      if r.Some? {
        cache := cache[EmailKey(email) := r.value];
      }
    }

    /** findByName: as findByEmail, under the username key. */
    method FindByName(username: string) returns (r: Option<User>)
      modifies this`cache
      ensures r == Served(old(cache), UsernameKey(username), ByName(users, username))
      ensures cache == Filled(old(cache), UsernameKey(username), ByName(users, username))
    {
      if UsernameKey(username) in cache {
        return Some(cache[UsernameKey(username)]);
      }
      r := ByName(users, username);
      if r.Some? {
        cache := cache[UsernameKey(username) := r.value];
      }
    }

    /** info: a missing user or a falsy status is Unauthorized; otherwise set
        the Role cookie and reply without password and timestamps. */
    method Info(username: string, res: Response) returns (r: Result<PublicUser>)
      modifies this`cache, res
      ensures cache == Filled(old(cache), UsernameKey(username), ByName(users, username))
      ensures var u := Served(old(cache), UsernameKey(username), ByName(users, username));
              if u.None? || Falsy(u.value.status) then
                r == Err(Unauthorized(UserNotFound)) && res.cookies == old(res.cookies)
              else
                && r == Ok(PublicView(u.value))
                && res.cookies == old(res.cookies)[RoleCookie := Cookie(RoleContent(u.value.role), RoleMaxAge, true)]
    {
      var u := FindByName(username);
      if u.None? || Falsy(u.value.status) {
        return Err(Unauthorized(UserNotFound));
      }
      res.SetRoleCookie(u.value.role, RoleMaxAge, true);
      r := Ok(PublicView(u.value));
    }

    /** getAllAdmin: the cached list (an empty list counts as a hit); on a miss
        the users of role 2 or 3, which are then cached. */
    method GetAllAdmin() returns (r: seq<AdminInfo>)
      modifies this`adminsCache
      ensures old(adminsCache).Some? ==> r == old(adminsCache).value && adminsCache == old(adminsCache)
      ensures old(adminsCache).None? ==> r == Admins(users) && adminsCache == Some(r)
    {
      if adminsCache.Some? {
        return adminsCache.value;
      }
      r := Admins(users);
      adminsCache := Some(r);
    }

    /** update: an unknown target is a TypeError; a target ranked above the
        actor is BadRequest. A failing store update (no such row, or a taken
        username or email) is reported as a failure message, not thrown.
        Otherwise the old keys are dropped and the result cached under its new
        ones. */
    method Update(username: string, patch: UserPatch, actorRole: int) returns (r: Result<string>)
      requires Valid()
      modifies this`users, this`cache
      ensures Valid()
      ensures var t := Served(old(cache), UsernameKey(username), ByName(old(users), username));
              var filled := Filled(old(cache), UsernameKey(username), ByName(old(users), username));
              if t.None? then
                r == Err(Internal(NullTarget)) && users == old(users) && cache == filled
              else if t.value.role > actorRole then
                r == Err(BadRequest(Escalation)) && users == old(users) && cache == filled
              else match IndexOfName(old(users), username)
                case None => r == Ok(UpdateFailed) && users == old(users) && cache == filled
                case Some(i) =>
                  var u := ApplyPatch(old(users)[i], patch);
                  if ClashesWithOthers(old(users), i, u) then
                    r == Ok(UpdateFailed) && users == old(users) && cache == filled
                  else
                    && r == Ok(UpdateSucceeded) && users == old(users)[i := u]
                    && cache == (filled - {UsernameKey(username)} - {EmailKey(t.value.email)})
                                  [UsernameKey(u.username) := u][EmailKey(u.email) := u]
      ensures old(Coherent()) ==> Coherent()
    {
      ghost var wasCoherent := Coherent();
      var target := FindByName(username);
      if wasCoherent {
        ReadThroughTransparent(old(cache), users, "", username);
      }
      if target.None? {
        return Err(Internal(NullTarget));
      }
      if target.value.role > actorRole {
        return Err(BadRequest(Escalation));
      }
      var i := IndexOfName(users, username);
      if i.None? {
        return Ok(UpdateFailed);
      }
      var u := ApplyPatch(users[i.value], patch);
      if ClashesWithOthers(users, i.value, u) {
        return Ok(UpdateFailed);
      }
      if wasCoherent {
        assert target.value == users[i.value];
      }
      Rewrite(i.value, u, username, target.value.email);
      r := Ok(UpdateSucceeded);
    }

    /** The successful tail of update: write row i, drop the keys of the old
        username and e-mail, and cache the row under its new ones. */
    method Rewrite(i: nat, u: User, username: string, email: string)
      requires Valid() && i < |users| && u.id == users[i].id && !ClashesWithOthers(users, i, u)
      modifies this`users, this`cache
      ensures Valid()
      ensures users == old(users)[i := u]
      ensures cache == (old(cache) - {UsernameKey(username)} - {EmailKey(email)})[UsernameKey(u.username) := u][EmailKey(u.email) := u]
      ensures old(Coherent()) && username == old(users)[i].username && email == old(users)[i].email ==> Coherent()
    {
      ghost var c0, us0 := cache, users;
      UniqueReplace(users, i, u);
      users := users[i := u];
      cache := cache - {UsernameKey(username)};
      cache := cache - {EmailKey(email)};
      cache := cache[UsernameKey(u.username) := u];
      cache := cache[EmailKey(u.email) := u];
      if CacheCoherent(c0, us0) && username == us0[i].username && email == us0[i].email {
        CoherentEvict(c0, us0, i, u);
        assert c0 - {UsernameKey(username)} - {EmailKey(email)}
            == c0 - {UsernameKey(us0[i].username), EmailKey(us0[i].email)};
        assert users[i] == u;
        CoherentPut(c0 - {UsernameKey(username)} - {EmailKey(email)}, users, u);
      }
    }

    /** delete: when the target is found (read through the cache), drop both
        its keys; then delete its row, which fails when there is none. */
    method Delete(username: string) returns (r: Result<User>)
      requires Valid()
      modifies this`users, this`cache
      ensures Valid()
      ensures var t := Served(old(cache), UsernameKey(username), ByName(old(users), username));
              var filled := Filled(old(cache), UsernameKey(username), ByName(old(users), username));
              && cache == (if t.Some? then filled - {UsernameKey(username), EmailKey(t.value.email)} else filled)
              && match IndexOfName(old(users), username)
                 case None => r == Err(Internal(RecordNotFound)) && users == old(users)
                 case Some(i) => r == Ok(old(users)[i]) && users == old(users)[..i] + old(users)[i + 1..]
      ensures old(Coherent()) ==> Coherent()
    {
      ghost var wasCoherent := Coherent();
      var target := FindByName(username);
      if wasCoherent {
        ReadThroughTransparent(old(cache), users, "", username);
      }
      ghost var c0 := cache;
      if target.Some? {
        cache := cache - {UsernameKey(username), EmailKey(target.value.email)};
      }
      var i := IndexOfName(users, username);
      if i.None? {
        return Err(Internal(RecordNotFound));
      }
      ghost var us0 := users;
      r := Ok(users[i.value]);
      UniqueRemove(users, i.value);
      users := users[..i.value] + users[i.value + 1..];
      if wasCoherent {
        assert target.value == us0[i.value];
        CoherentEvict(c0, us0, i.value, us0[i.value]);
      }
    }

    /** A cache entry's TTL lapses. */
    method Expire(key: UserKey)
      modifies this`cache
      ensures cache == old(cache) - {key}
      ensures old(Coherent()) ==> Coherent()
    {
      cache := cache - {key};
    }

    /** The `users:admins` entry's TTL lapses. */
    method ExpireAdmins()
      modifies this`adminsCache
      ensures adminsCache == None
    {
      adminsCache := None;
    }
  }
}
