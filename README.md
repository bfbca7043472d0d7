# memory-turbo-api core, modelled in Dafny

memory-turbo-api is a NestJS backend for a low-code template approval workflow:
- users register, log in and refresh their tokens;
- they submit templates and ask an administrator for approval;
- administrators approve or reject them;
- a socket.io gateway pushes notifications to the connected users.

This project models the core of that backend and proves properties of the model:

- **Connection registry** (`Gateway`). The admin and public queues are JavaScript Maps keyed by username. They are modelled with their iteration order, because disconnect and message attribution stop at the first entry whose connection id matches.
- **Template workflow** (`Lowcode`, `Notifications`):
  - the template store and its cache-aside copy;
  - the visibility filter and the pending-page arithmetic;
  - the three status transitions. They never look at the prior status, and each drives the notification records and the gateway.
- **Authentication flows** (`Auth`):
  - login, registration, password reset, logout, refresh and GitHub sign-in, over the user service;
  - the e-mail verification codes, kept in a 60-second TTL cache together with a per-address lock.
- **User store** (`Users`). Its read-through cache lives under `user:email:*` and `user:username:*`, plus the `users:admins` list. Each operation is proved to keep the cache *coherent*: every cached user is a current row under its own key. The one exception is `updatePassword`. It keeps coherence only if nothing is cached under the empty username, because the code never drops that entry. Over a coherent cache, a lookup through the cache answers what the table answers.
- **Access decisions:**
  - `JwtAuthGuard`: the plain-prefix bypass of `/api/auth`, the header split and access-token verification;
  - `RoleGuard`: exact role-name membership;
  - `Jwt`: sign, verify and decode over an abstract signed token.

State that the services change in place is a Dafny `class`:
- the gateway's queues and outbox;
- the notification, template and user tables with their caches;
- the code cache;
- the response's cookie jar;
- the request's `user`.

Every method states its whole new state. Where the source computes a value, the model uses functions, and lemmas relate them.

### Modelling conventions

- **Errors.** Exceptions are `Err` values of `Common.HttpError`. An error nobody catches is `Internal(cause)`; this covers Prisma's unique-constraint and record-not-found errors and TypeErrors on `null`.
- **Time.** Time is a parameter `now` in milliseconds. A cache entry is live while `now <= expiresAt`. Tokens are issued and checked at `now / 1000` seconds. A token is valid while the clock in seconds is below `exp`.
- **Things passed in as parameters:**
  - random values: the uuid, the salt, and the digit draw of `Math.random`;
  - mail delivery, as a flag;
  - the reading of a token string (`parse`).
- **Password hashes.** A hash is `Argon2(password, salt)`. Verification succeeds exactly for the hashed password.
- **Enum values.**
  - `Roles`: admin = 2 and super = 3, as the services compare them. Public = 1 is assumed.
  - `UserStatusEnum.DISABLED` is assumed to be 0, the falsy status.
  - `templateStatusEnum` is taken as draft, pending, approved and rejected.
  - The enums' module and the database schema are not part of this model. That includes the column defaults: role 1, role_id 1, status 1 and template status draft.
- **The two role columns.** The users table has a scalar `role` column and a `role_id` foreign key. getAllAdmin, update and info read `role`. The tokens carry `role_id` as `role`, and `super` connects `role_id` to 3. Both are modelled.

### Behaviour of the code worth knowing

- **Status transitions.** approveRequest, rejectRequest and requestApproval set the new status whatever the current one is (`Lowcode.LowcodeService.Resolve`, `Lowcode.LowcodeService.RequestApproval`).
- **Forget.** forget returns `updatePassword(...)` without `await` inside its `try`. So a failed password update, such as one for an address with no account, escapes the `catch` as the store's own error rather than as Forbidden. The existence check `if(!user)` tests an un-awaited promise and never fires (`Auth.AuthService.Forget`).
- **Template names.** Names are checked only in `create`; an update may reuse a name held by another template.
- **Messages from the empty username.** handleMessage drops a message from a connection registered under the empty username. When that connection is in the admin queue, the public queue is not searched either (`Gateway.NotificationGateway.HandleMessage`).

## Model

| member | source | states |
|---|---|---|
| Common.RoleName | src/common/guards/role-guard.guard.ts:25 | `Roles[n]` is "admin" exactly for 2, and undefined for any number other than 1, 2 and 3 |
| Common.IndexOf | src/modules/user/user.service.ts:57 | `findUnique` on a column finds an index whose row holds the key, and none exactly when no row holds it |
| Common.HashThenVerify | src/modules/auth/auth.service.ts:35 | argon2 verify of a fresh hash accepts exactly the password that was hashed |
| Jwt.VerifyWith | src/utils/jwt-utils.ts:37-46 | a token verifies exactly when it was signed with the secret and has not expired; it then yields its claims with iat and exp; every failure is the one plain Error 'Invalid or expired access token' |
| Jwt.DecodeAccessToken | src/utils/jwt-utils.ts:84-91 | decoding yields the claims of every signed token and null for anything else, checking neither signature nor expiry |
| Jwt.AccessTokenLifetime | src/utils/jwt-utils.ts:24-46 | an access token verifies, giving back the signed user with iat and exp, exactly until 30*60 s after issue |
| Jwt.RefreshTokenLifetime | src/utils/jwt-utils.ts:54-76 | a refresh token verifies, giving back the signed user, exactly until 7 days after issue |
| Jwt.KindsDoNotCross | src/utils/jwt-utils.ts:9-76 | with two different secrets, a refresh token never passes access verification and an access token never passes refresh verification, and both fail with the same message |
| Jwt.DecodeIgnoresSecretAndExpiry | src/utils/jwt-utils.ts:84-91 | decode returns the claims of a token whatever secret signed it and however long ago it expired |
| Cookies.Response.SetTokenCookie | src/utils/cookie-utils.ts:16-23 | the jar maps the name to the token with that maxAge and httpOnly, and is otherwise unchanged |
| Cookies.Response.SetRoleCookie | src/utils/cookie-utils.ts:25-32 | the jar maps `Role` to the role with that maxAge and httpOnly, and is otherwise unchanged |
| Cookies.Response.ClearTokenCookie | src/utils/cookie-utils.ts:39-45 | the named cookie leaves the jar; nothing else changes |
| JwtAuthGuard.Split | src/common/guards/jwt-auth-guard.guard.ts:23 | `split(' ')` always yields at least one field |
| JwtAuthGuard.JoinSplit | src/common/guards/jwt-auth-guard.guard.ts:23 | joining the fields of a split with single spaces gives back the header |
| JwtAuthGuard.FieldsHaveNoSpace | src/common/guards/jwt-auth-guard.guard.ts:23 | no field of a split contains a space |
| JwtAuthGuard.SplitJoin | src/common/guards/jwt-auth-guard.guard.ts:23 | splitting a join of space-free fields gives back the fields |
| JwtAuthGuard.SchemeNeverChecked | src/common/guards/jwt-auth-guard.guard.ts:23-26 | for any first word, the token is the text between the first and the next space |
| JwtAuthGuard.NoSpaceNoToken | src/common/guards/jwt-auth-guard.guard.ts:23-26 | a header without a space has no token |
| JwtAuthGuard.Authenticate | src/common/guards/jwt-auth-guard.guard.ts:9-35 | a bypass happens exactly for URLs starting with '/api/auth'. Otherwise: a missing or empty header is 'Authorization header not found'; a missing or empty second field is 'Token not found'; a failed verification is 'Invalid or expired token'. Authentication succeeds exactly when the token verifies, and yields its payload. All errors are Unauthorized |
| JwtAuthGuard.BypassIsPlainPrefix | src/common/guards/jwt-auth-guard.guard.ts:13-16 | "/api/authors" is let through unauthenticated, because the bypass is a plain prefix test |
| JwtAuthGuard.HttpRequest.CanActivate | src/common/guards/jwt-auth-guard.guard.ts:28-34 | allows or throws as Authenticate decides; `request.user` is written only on successful verification, with the payload |
| RoleGuard.CanActivate | src/common/guards/role-guard.guard.ts:15-30 | with no roles declared, access is allowed. Otherwise it is allowed exactly when a user is present and the name of its role is in the list. Every refusal is Unauthorized '权限不足' |
| RoleGuard.SuperIsNotAdmin | src/common/guards/role-guard.guard.ts:25 | a super user is refused on an admin-only route, such as approve-request, and allowed where 'super' is listed |
| RoleGuard.NoUserNoEntry | src/common/guards/role-guard.guard.ts:25-27 | a route that declares roles, even an empty list, refuses a request without a user |
| Gateway.SetValid | src/common/gateway/notification.gateway.ts:39-41 | Map.set keeps the iteration order an exact, duplicate-free listing of the keys |
| Gateway.DeleteValid | src/common/gateway/notification.gateway.ts:57-65 | Map.delete keeps the iteration order an exact, duplicate-free listing of the keys |
| Gateway.RemoveElements | src/common/gateway/notification.gateway.ts:57-65 | removing a key from the order keeps exactly the other keys, and no key appears twice |
| Gateway.FirstWithIdMeaning | src/common/gateway/notification.gateway.ts:55-60 | the scan stops at a username whose entry holds the id, and finds none exactly when no entry holds it |
| Gateway.FindById | src/common/gateway/notification.gateway.ts:80-86 | the scan loop returns the first username, in Map iteration order, whose entry holds the connection id |
| Gateway.AdmitThenFind | src/common/gateway/notification.gateway.ts:36-41 | after admitting a fresh connection id under a username, the scan for that id finds that username |
| Gateway.SupersededIdMissesNewEntry | src/common/gateway/notification.gateway.ts:53-69 | once a newer connection has taken over a username, the older connection's id no longer finds that username, so its disconnect leaves the newer entry in place |
| Gateway.OnlyAdminIsAdmitted | src/common/gateway/notification.gateway.ts:34-42 | role 2 goes to the admin queue; super (3) and public (1) do not |
| Gateway.FanOutReachesEachEntry | src/common/gateway/notification.gateway.ts:106-114 | the broadcast sends exactly one 'message' event to each entry of the queue, in iteration order, and nothing else |
| Gateway.Unicast | src/common/gateway/notification.gateway.ts:118-131 | at most one event; one exactly when the username is in the queue, sent to its connection with the text |
| Gateway.NotificationGateway.HandleConnection | src/common/gateway/notification.gateway.ts:22-50 | without a cookie header or a parsable Role cookie, nothing changes. Otherwise the connection is set under its username: in the admin queue exactly when the role's name is 'admin', else in the public queue. The other queue is unchanged, and exactly one 'connectionSuccess' event welcomes the username. Queues stay valid |
| Gateway.NotificationGateway.HandleDisconnect | src/common/gateway/notification.gateway.ts:53-69 | deletes the first admin entry holding the id; only when there is none, the first such public entry; nothing else changes and nothing is emitted |
| Gateway.NotificationGateway.HandleMessage | src/common/gateway/notification.gateway.ts:73-115 | the admin queue is searched first and the public queue only when the admin queue has no entry with the id. An unknown id, or one found under the empty username, emits nothing. Otherwise `{sender, data}` goes to every entry of the queue where the sender was found, and to no one else |
| Gateway.NotificationGateway.Broadcast | src/common/gateway/notification.gateway.ts:107-113 | the forEach loop appends the fan-out of the queue to the outbox |
| Gateway.NotificationGateway.SendToAdmin | src/common/gateway/notification.gateway.ts:118-123 | appends the 'requst-message' unicast on the admin queue and changes no queue |
| Gateway.NotificationGateway.SendToPublic | src/common/gateway/notification.gateway.ts:126-131 | appends the 'template-change-message' unicast on the public queue and changes no queue |
| Notifications.MarkReadAt | src/modules/notification/notification.service.ts:30-35 | updateMany keeps the number of records; each record targeting the task becomes read with its other fields kept, and every other record is unchanged |
| Notifications.MarkReadIdempotent | src/modules/notification/notification.service.ts:30-35 | marking twice is marking once |
| Notifications.MarkReadNoTarget | src/modules/notification/notification.service.ts:30-35 | when no record targets the task, nothing changes |
| Notifications.MarkReadLeavesNoneUnread | src/modules/notification/notification.service.ts:30-35 | afterwards no record targeting the task is unread |
| Notifications.NotificationService.Create | src/modules/notification/notification.service.ts:13-21 | appends exactly one record: unread, type template_approve, message '模版更新请求', target the task, addressed to the username. Its id is above the id of every earlier record, and the invariant that all ids lie below the next id is kept |
| Notifications.NotificationService.Update | src/modules/notification/notification.service.ts:28-40 | the in-place loop leaves the table equal to MarkRead of the old table, keeps the id invariant, and returns the number of records targeting the task |
| Users.RenderInjective | src/modules/user/user.service.ts:30-31 | distinct cache keys are distinct strings, and none of them is 'users:admins' |
| Users.IndexOfEmail | src/modules/user/user.service.ts:57 | finds an index of a row with that e-mail, and none exactly when no row has it |
| Users.IndexOfName | src/modules/user/user.service.ts:67 | finds an index of a row with that username, and none exactly when no row has it |
| Users.LookupFinds | src/modules/user/user.service.ts:53-70 | with unique columns, looking up any row by its e-mail or its username finds that row |
| Users.UniqueReplace | src/modules/user/user.service.ts:136-145 | replacing a row by one whose username, e-mail and id no other row holds keeps the columns unique |
| Users.UniqueRemove | src/modules/user/user.service.ts:165-167 | deleting a row keeps the columns unique and keeps only rows of the table |
| Users.ReadThroughTransparent | src/modules/user/user.service.ts:53-70 | over a coherent cache, findByEmail and findByName answer what the table answers, and leave the cache coherent |
| Users.CoherentPut | src/modules/user/user.service.ts:30-31 | caching a current row under its own two keys keeps the cache coherent |
| Users.CoherentInsert | src/modules/user/user.service.ts:23-28 | inserting a row keeps a coherent cache coherent |
| Users.CoherentEvict | src/modules/user/user.service.ts:146-148 | once both keys of a row are dropped, the row may be rewritten or deleted without the cache going stale |
| Users.CoherentAfterRehash | src/modules/user/user.service.ts:44-48 | updatePassword's eviction keeps the cache coherent, unless an entry remains under the empty username, which it does not drop |
| Users.Admins | src/modules/user/user.service.ts:95-102 | every user of role 2 or 3 appears, projected to username, avatar and e-mail, and nothing else does |
| Users.UserService.Insert | src/modules/user/user.service.ts:20-28 | a taken username or e-mail is the unique-constraint error and changes nothing. Otherwise exactly one row is appended, with a fresh id, the password hashed and the role_id given. The columns stay unique |
| Users.UserService.Create | src/modules/user/user.service.ts:20-33 | stores the user with its hashed password and caches the new row under both `user:email:` and `user:username:`. A taken username or e-mail changes nothing. A coherent cache stays coherent |
| Users.UserService.Super | src/modules/user/user.service.ts:171-183 | stores the user with role_id 3 and its hashed password and caches nothing; a taken username or e-mail changes nothing |
| Users.UserService.UpdatePassword | src/modules/user/user.service.ts:36-50 | replaces only the hash of the row with that e-mail, then drops the e-mail key and, when the username is non-empty, the username key. A missing e-mail is the not-found error and changes nothing |
| Users.UserService.FindByEmail | src/modules/user/user.service.ts:53-60 | returns the cached user on a hit without reading the table; on a miss, the table's answer, which is cached only when found |
| Users.UserService.FindByName | src/modules/user/user.service.ts:63-70 | the same under `user:username:` |
| Users.UserService.Info | src/modules/user/user.service.ts:73-87 | a missing user or a falsy status is Unauthorized 'User Not Found' with no cookie set. Otherwise the Role cookie (30 minutes, httpOnly) is set and the user is returned with every column except its password, role_id included |
| Users.UserService.GetAllAdmin | src/modules/user/user.service.ts:90-105 | the cached list on a hit, even empty; on a miss exactly the admins of the table, then cached |
| Users.UserService.Update | src/modules/user/user.service.ts:130-156 | an unknown target is a TypeError; a target whose role is strictly above the actor's is BadRequest '非法操作'. A store failure (no row, or a username or e-mail held by another row) returns '更新失败'. On success the patched row is written, the old username and e-mail keys are dropped and the row is cached under its new keys. A coherent cache stays coherent |
| Users.UserService.Rewrite | src/modules/user/user.service.ts:136-152 | writes the row, drops the old keys and caches the new ones, keeping the columns unique and a coherent cache coherent |
| Users.UserService.Delete | src/modules/user/user.service.ts:159-168 | when the target is found, both its keys are dropped. Then its row is deleted; a missing row is the not-found error. A coherent cache stays coherent |
| Users.UserService.Expire | src/modules/user/user.service.ts:58 | a lapsed entry leaves the cache and coherence is kept |
| Users.UserService.ExpireAdmins | src/modules/user/user.service.ts:103 | a lapsed admin list leaves the cache |
| Lowcode.IndexOfKey | src/modules/lowcode/lowcode.service.ts:70-72 | finds an index of a row with that key, and none exactly when no row has it |
| Lowcode.OwnedBy | src/modules/lowcode/lowcode.service.ts:51-55 | exactly the templates whose username is the caller's |
| Lowcode.Visible | src/modules/lowcode/lowcode.service.ts:45-57 | role >= 2 (super included) sees the whole table; anyone else sees exactly their own templates |
| Lowcode.PendingOnly | src/modules/lowcode/lowcode.service.ts:101-102 | exactly the pending templates |
| Lowcode.PendingPage | src/modules/lowcode/lowcode.service.ts:99-124 | a negative offset `(page-1)*pageSize` is an error. Otherwise the page holds at most pageSize pending templates, taken consecutively from that offset. hasNext holds exactly when pending templates remain after the page |
| Lowcode.PageAt | src/modules/lowcode/lowcode.service.ts:108-109 | page n >= 1 is the slice from offset (n-1)*pageSize, and never an error |
| Lowcode.PagesTile | src/modules/lowcode/lowcode.service.ts:99-124 | pages 1 to n, concatenated, are the first n*pageSize pending templates in order: no gap, no repeat |
| Lowcode.KeyFinds | src/modules/lowcode/lowcode.service.ts:70-72 | with unique keys, a lookup by a row's key finds that row |
| Lowcode.TemplateReadThrough | src/modules/lowcode/lowcode.service.ts:65-79 | over a coherent cache, findByTemplateKey answers what the table answers and leaves the cache coherent |
| Lowcode.DeletedTemplateStillServed | src/modules/lowcode/lowcode.service.ts:59-63 | after a delete, a still-cached copy is served although the table no longer has the key |
| Lowcode.RevisedKeepsIdentity | src/modules/lowcode/lowcode.service.ts:83-86 | an update never changes a template's id, key or owner; a status-only update sets the status |
| Lowcode.LowcodeService.Create | src/modules/lowcode/lowcode.service.ts:20-43 | a name already used gives Conflict '模版已存在' and leaves the table unchanged. Otherwise exactly one draft row is added, with key 'memory_flow_' + uuid and a fresh id. A key already in the table is the unique-constraint error |
| Lowcode.LowcodeService.FindAll | src/modules/lowcode/lowcode.service.ts:45-57 | the whole table for role >= 2, otherwise exactly the caller's templates |
| Lowcode.LowcodeService.FindAllPendings | src/modules/lowcode/lowcode.service.ts:99-124 | the pending page of the current table; every template in it is a pending row |
| Lowcode.LowcodeService.DeleteByTemplateKey | src/modules/lowcode/lowcode.service.ts:59-63 | removes the row with the key, or fails with the not-found error; the cache is not touched |
| Lowcode.RemoveTemplate | src/modules/lowcode/lowcode.service.ts:59-63 | deleting a row keeps keys and ids unique and below the id bound, and shifts the later rows down by one |
| Lowcode.LowcodeService.FindByTemplateKey | src/modules/lowcode/lowcode.service.ts:65-79 | the cached copy on a hit without reading the table; on a miss the row, cached only when found |
| Lowcode.LowcodeService.UpdateByTemplateKey | src/modules/lowcode/lowcode.service.ts:81-97 | a body replaces name and json, otherwise only the status is set. Afterwards the cache entry for the key is the written row. A missing key is Conflict '模版更新失败' and changes nothing |
| Lowcode.LowcodeService.SetStatus | src/modules/lowcode/lowcode.service.ts:132-135 | the status update then the lookup: the written row is returned, or Conflict when the key is missing |
| Lowcode.LowcodeService.RequestApproval | src/modules/lowcode/lowcode.service.ts:128-141 | whatever the prior status, the template becomes pending. Exactly one unread notification for its id is addressed to the approver, and '您有待审批的模版' is unicast to the approver on the admin queue. The reply is '流转成功'; a missing key changes nothing |
| Lowcode.LowcodeService.Resolve | src/modules/lowcode/lowcode.service.ts:143-167 | whatever the prior status, the verdict is set. The template's notifications are marked read, and '审批状态已更新' is unicast to the owner on the public queue only |
| Lowcode.LowcodeService.ApproveRequest | src/modules/lowcode/lowcode.service.ts:143-154 | Resolve with approved |
| Lowcode.LowcodeService.RejectRequest | src/modules/lowcode/lowcode.service.ts:156-167 | Resolve with rejected |
| Lowcode.LowcodeService.Expire | src/modules/lowcode/lowcode.service.ts:74 | a lapsed entry leaves the cache and coherence is kept |
| Auth.SetThenRead | src/modules/auth/auth.service.ts:158-159 | after `cache.set(key, v, ttl)`, the key reads back v until ttl ms after the write and nothing afterwards; every other key reads as before |
| Auth.CodeAcceptedMeaning | src/modules/auth/auth.service.ts:169-173 | a code verifies exactly when the live value under `verify_<email>` is that non-empty string |
| Auth.OwnKeysDistinct | src/modules/auth/auth.service.ts:153-160 | the code key and the lock key of one address differ |
| Auth.LockKeyIsCodeKey | src/modules/auth/auth.service.ts:153-160 | the lock key of e is the code key of "lock_" + e |
| Auth.DecimalString | src/modules/auth/auth.service.ts:158 | `toString()` yields a non-empty string of decimal digits |
| Auth.DecimalRoundTrip | src/modules/auth/auth.service.ts:158 | the rendering reads back to the number, so distinct codes are distinct strings |
| Auth.SixDigitCodes | src/modules/auth/auth.service.ts:158 | every number from 100000 to 999999 renders as six digits |
| Auth.IssuedCode | src/modules/auth/auth.service.ts:158 | every issued code has six characters and is non-empty |
| Auth.IssuedCodeVerifies | src/modules/auth/auth.service.ts:158-173 | a freshly issued code verifies exactly when that code is entered within 60 000 ms |
| Auth.LockHoldsForTtl | src/modules/auth/auth.service.ts:153-160 | for 60 000 ms after an issue the address is locked |
| Auth.LoginTokenCarriesPassword | src/modules/auth/auth.service.ts:39-49 | the login access token carries, readable without any key, the password the user typed |
| Auth.AuthService.Login | src/modules/auth/auth.service.ts:29-59 | checks in this order, each failing Forbidden: unknown e-mail '用户不存在', disabled user, wrong password '密码错误'. On success sets only the httpOnly refreshToken cookie for 7 days, and returns claims with the typed password and role_id, plus an access token signed at the current second |
| Auth.AuthService.VerifyCode | src/modules/auth/auth.service.ts:169-179 | succeeds exactly when the live code equals the non-empty input, then deletes it so it cannot verify again. Otherwise BadRequest '验证码错误或已过期', leaving the cache untouched |
| Auth.AuthService.SendVerificationCode | src/modules/auth/auth.service.ts:151-166 | while the address is locked, nothing is stored and the failure message is returned. Otherwise the six-digit code and the lock are stored, each for 60 000 ms, before mailing. A failed mail keeps both and returns the failure message |
| Auth.AuthService.Register | src/modules/auth/auth.service.ts:62-71 | a found e-mail or username is Conflict '用户已存在' before the code is read, so the code survives. Then a bad code is BadRequest. Otherwise the code is consumed and the user is created from the form without emailCode |
| Auth.AuthService.Forget | src/modules/auth/auth.service.ts:97-109 | the un-awaited lookup never rejects; a bad code is Forbidden 'Invalid or expired forget password'. Otherwise the code is consumed and updatePassword's own outcome, its not-found error included, is returned |
| Auth.AuthService.Logout | src/modules/auth/auth.service.ts:112-114 | only the refreshToken cookie is cleared |
| Auth.AuthService.Refresh | src/modules/auth/auth.service.ts:117-148 | a missing or empty cookie is Forbidden 'Refresh token is missing'. Every later failure is 'Invalid or expired refresh token'; only an unknown or falsy-status user also clears the cookie. Success returns an access token for the stored user, without a password |
| Auth.AuthService.FindOrCreate | src/modules/auth/auth.service.ts:182-211 | reuses the user found by e-mail, or creates one whose password is the GitHub id. Sets only the refreshToken cookie, signed over the stored hash, and returns no token |

## Left out

- Transport and I/O:
  - socket.io transport, Express request and response objects and the response wrapper, SMTP mail (a success flag), the Redis client, the GitHub OAuth strategy, and console logging;
  - `AuthService.Init`, which works on the filesystem lock file.
- Controllers and module wiring. The `@Role` metadata of lowcode.controller.ts is used only as the input of `RoleGuard.CanActivate`.
- Parsing of the Role cookie in the handshake (`cookie.parse`, `JSON.parse`, the "j:" prefix). The gateway receives the parse outcome.
- Cookie attributes `sameSite` and `secure`.
- The compact JWT encoding and signatures. A token string is read by the `parse` parameter, and a token verifies exactly under the secret it was signed with. The secrets are parameters; `Jwt.KindsDoNotCross` assumes they differ.
- Argon2, idealised: a hash is verified exactly by its own password, with no collisions.
- uuid and `Math.random`, modelled as parameters. The random float is replaced by its integer draw 0..899999.
- Concurrency:
  - `Promise.all` in the three transitions runs the status update before the lookup. They only use the template's id and owner, which a status update does not change.
  - `Lowcode.LowcodeService.SetStatus`: its `cache == old(cache)[key := t]` describes only this sequential run. In the source, a cache-miss read racing the update can leave the row from before the update under `lowcode:template:<key>`. The model does not capture that interleaving.
  - The un-awaited lookup in Forget is taken to finish before the rest of the reset. Its cache write could otherwise land after updatePassword's eviction.
  - Un-awaited emits and Prisma calls in the notification service are taken to complete.
- Cache TTLs of the user service (60 ms on create and findByEmail, 60 000 ms elsewhere, 6 000 ms for the admin list) and of the template cache (6 000 and 60 000 ms). A lapse is the explicit `Expire` / `ExpireAdmins` call. Keyv's lazy deletion of expired codes is not modelled, because it is not observable.
- `Lowcode.PendingPage`:
  - requires pageSize >= 0, because Prisma's backwards pagination for a negative `take` is not modelled;
  - pages follow table order rather than `updated_at desc`;
  - the joined owner fields (e-mail, avatar) are not part of the page.
- Prisma failures other than a unique-constraint violation, a missing record and a negative skip, such as a lost connection.
- Failures of the notification service's create and update.
- `UserService.getUsers` (the cached `users:all` list) and RoleService are not part of this model.
- Validation of DTOs. Their field lists are datatypes; the data is taken as already validated.
- Timestamps (`created_at`, `updated_at`, `last_login_at`).
- `Users.UserService.Info` models `res.send` as the returned value.
