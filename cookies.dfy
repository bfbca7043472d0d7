/** The cookies a response sets (cookie-utils.ts), as a jar from cookie name to
    value. A cleared cookie leaves the jar. */
module Cookies {
  import opened Jwt

  /** The refresh-token cookie's name. */
  const RefreshCookie := "refreshToken"
  /** The role cookie's name. */
  const RoleCookie := "Role"
  /** 7 * 24 * 60 * 60 * 1000 ms: the refresh cookie's maxAge. */
  const RefreshMaxAge: int := 7 * 24 * 60 * 60 * 1000
  /** 30 * 60 * 1000 ms: the role cookie's maxAge. */
  const RoleMaxAge: int := 30 * 60 * 1000

  datatype Content = TokenContent(token: Token) | RoleContent(role: int)

  datatype Cookie = Cookie(content: Content, maxAge: int, httpOnly: bool)

  /** The Set-Cookie state of one Express response. */
  class Response {
    var cookies: map<string, Cookie>

    constructor ()
      ensures cookies == map[]
    {
      cookies := map[];
    }

    /** `setTokenCookie(response, name, value, maxAge, httpOnly)`. */
    method SetTokenCookie(name: string, token: Token, maxAge: int, httpOnly: bool)
      modifies this
      ensures cookies == old(cookies)[name := Cookie(TokenContent(token), maxAge, httpOnly)]
    {
      cookies := cookies[name := Cookie(TokenContent(token), maxAge, httpOnly)];
    }

    /** `setRoleCookie(response, role, maxAge, httpOnly)`: always the `Role` cookie. */
    method SetRoleCookie(role: int, maxAge: int, httpOnly: bool)
      modifies this
      ensures cookies == old(cookies)[RoleCookie := Cookie(RoleContent(role), maxAge, httpOnly)]
    {
      cookies := cookies[RoleCookie := Cookie(RoleContent(role), maxAge, httpOnly)];
    }

    /** `clearTokenCookie(response, name, httpOnly)`. */
    method ClearTokenCookie(name: string)
      modifies this
      ensures cookies == old(cookies) - {name}
    {
      cookies := cookies - {name};
    }
  }
}
