/** JwtAuthGuard.canActivate (jwt-auth-guard.guard.ts): the auth-route bypass,
    the Authorization header split, and access-token verification. */
module JwtAuthGuard {
  import opened Common
  import opened Jwt

  /** Every URL starting with this text skips authentication. */
  const AuthRoutePrefix := "/api/auth"
  const HeaderMissing := "Authorization header not found"
  const TokenMissing := "Token not found"
  const TokenRejected := "Invalid or expired token"

  /** `s.split(' ')`: the fields between single spaces, empty ones included;
      a string without a space is one field. */
  function Split(s: string): (fields: seq<string>)
    ensures |fields| >= 1
  {
    if s == [] then [""]
    else
      var rest := Split(s[1..]);
      if s[0] == ' ' then [""] + rest
      else [[s[0]] + rest[0]] + rest[1..]
  }

  /** `fields.join(' ')`, the inverse of Split. */
  function Join(fields: seq<string>): string
    requires |fields| >= 1
  {
    if |fields| == 1 then fields[0] else fields[0] + " " + Join(fields[1..])
  }

  lemma JoinConsChar(c: char, f: string, tail: seq<string>)
    ensures Join([[c] + f] + tail) == [c] + Join([f] + tail)
  {
    if tail != [] {
      assert ([[c] + f] + tail)[1..] == tail;
      assert ([f] + tail)[1..] == tail;
    }
  }

  /** Joining the fields of a split gives back the header. */
  lemma {:induction false} JoinSplit(s: string)
    ensures Join(Split(s)) == s
  {
    if s != [] {
      var rest := Split(s[1..]);
      JoinSplit(s[1..]);
      if s[0] == ' ' {
        assert ([""] + rest)[1..] == rest;
      } else {
        JoinConsChar(s[0], rest[0], rest[1..]);
        assert [rest[0]] + rest[1..] == rest;
      }
    }
  }

  /** No field of a split contains a space. */
  lemma {:induction false} FieldsHaveNoSpace(s: string)
    ensures forall i :: 0 <= i < |Split(s)| ==> ' ' !in Split(s)[i]
  {
    if s != [] {
      FieldsHaveNoSpace(s[1..]);
      var rest := Split(s[1..]);
      if s[0] != ' ' {
        var fields := Split(s);
        forall i | 0 <= i < |fields| ensures ' ' !in fields[i] {
          if i > 0 { assert fields[i] == rest[i]; }
        }
      }
    }
  }

  lemma {:induction false} SplitNoSpace(a: string)
    requires ' ' !in a
    ensures Split(a) == [a]
  {
    if a != [] {
      SplitNoSpace(a[1..]);
      assert [a[0]] + a[1..] == a;
    }
  }

  /** A field followed by a space splits off as the first field. */
  lemma {:induction false} SplitAtSpace(a: string, rest: string)
    requires ' ' !in a
    ensures Split(a + " " + rest) == [a] + Split(rest)
  {
    if a == [] {
      assert a + " " + rest == [' '] + rest;
      assert ([' '] + rest)[1..] == rest;
    } else {
      var s := a + " " + rest;
      assert s[1..] == a[1..] + " " + rest;
      SplitAtSpace(a[1..], rest);
      assert [a[0]] + a[1..] == a;
    }
  }

  /** Splitting a join of space-free fields gives back the fields. */
  lemma {:induction false} SplitJoin(fields: seq<string>)
    requires |fields| >= 1
    requires forall i :: 0 <= i < |fields| ==> ' ' !in fields[i]
    ensures Split(Join(fields)) == fields
  {
    if |fields| == 1 {
      SplitNoSpace(fields[0]);
    } else {
      SplitJoin(fields[1..]);
      SplitAtSpace(fields[0], Join(fields[1..]));
      assert [fields[0]] + fields[1..] == fields;
    }
  }

  /** `authHeader.split(' ')[1]`: the second field, undefined when there is none. */
  function BearerToken(header: string): Option<string> {
    var fields := Split(header);
    if |fields| >= 2 then Some(fields[1]) else None
  }

  /** The first word is never looked at: whatever it is, the text after the
      first space (up to the next) is the token. */
  lemma SchemeNeverChecked(scheme: string, token: string)
    requires ' ' !in scheme && ' ' !in token
    ensures BearerToken(scheme + " " + token) == Some(token)
  {
    SplitAtSpace(scheme, token);
    SplitNoSpace(token);
  }

  /** A header without a space has no token. */
  lemma NoSpaceNoToken(header: string)
    requires ' ' !in header
    ensures BearerToken(header) == None
  {
    SplitNoSpace(header);
  }

  /** What the guard decides: skip authentication, or authenticate as a user. */
  datatype Decision = Bypass | Authenticated(user: Payload)

  /** The decision of canActivate. `parse` reads a token string as the token it
      denotes (the compact JWT encoding is not modelled). */
  function Authenticate(url: string, header: Option<string>, parse: string -> Token, keys: Keys, now: int)
    : (r: Result<Decision>)
    ensures r == Ok(Bypass) <==> StartsWith(url, AuthRoutePrefix)
    ensures r.Err? ==> r.error.Unauthorized?
    ensures r == Err(Unauthorized(HeaderMissing)) <==>
              !StartsWith(url, AuthRoutePrefix) && (header == None || header == Some(""))
    ensures r == Err(Unauthorized(TokenMissing)) <==>
              && !StartsWith(url, AuthRoutePrefix) && header.Some? && header.value != ""
              && (BearerToken(header.value) == None || BearerToken(header.value) == Some(""))
    ensures r.Ok? && r.value.Authenticated? <==>
              && !StartsWith(url, AuthRoutePrefix) && header.Some? && header.value != ""
              && BearerToken(header.value).Some? && BearerToken(header.value).value != ""
              && VerifyAccessToken(parse(BearerToken(header.value).value), keys, now).Ok?
    ensures r == Err(Unauthorized(TokenRejected)) <==>
              && !StartsWith(url, AuthRoutePrefix) && header.Some? && header.value != ""
              && BearerToken(header.value).Some? && BearerToken(header.value).value != ""
              && VerifyAccessToken(parse(BearerToken(header.value).value), keys, now).Err?
    ensures r.Ok? && r.value.Authenticated? ==>
              r.value.user == VerifyAccessToken(parse(BearerToken(header.value).value), keys, now).value
  {
    if StartsWith(url, AuthRoutePrefix) then Ok(Bypass)
    else if header.None? || header.value == "" then Err(Unauthorized(HeaderMissing))
    else match BearerToken(header.value)
      case None => Err(Unauthorized(TokenMissing))
      case Some(token) =>
        if token == "" then Err(Unauthorized(TokenMissing))
        else match VerifyAccessToken(parse(token), keys, now)
          case Ok(user) => Ok(Authenticated(user))
          case Err(_) => Err(Unauthorized(TokenRejected))
  }

  /** A URL is bypassed by plain prefix, not by path segment: "/api/authors"
      skips authentication as "/api/auth/login" does. */
  lemma BypassIsPlainPrefix(header: Option<string>, parse: string -> Token, keys: Keys, now: int)
    ensures Authenticate("/api/authors", header, parse, keys, now) == Ok(Bypass)
  {
    assert "/api/authors"[..|AuthRoutePrefix|] == AuthRoutePrefix;
  }

  /** The part of an HTTP request the guard reads and writes. */
  class HttpRequest {
    const url: string
    const authorization: Option<string>
    var user: Option<Payload>

    constructor (url: string, authorization: Option<string>)
      ensures this.url == url && this.authorization == authorization && user == None
    {
      this.url := url;
      this.authorization := authorization;
      user := None;
    }

    /** canActivate: allow, or throw Unauthorized; only a successful
        verification writes `request.user`. */
    method CanActivate(parse: string -> Token, keys: Keys, now: int) returns (r: Result<bool>)
      modifies this
      ensures r.Ok? ==> r.value
      ensures match Authenticate(url, authorization, parse, keys, now)
              case Ok(Bypass) => r == Ok(true) && user == old(user)
              case Ok(Authenticated(p)) => r == Ok(true) && user == Some(p)
              case Err(e) => r == Err(e) && user == old(user)
    {
      var d := Authenticate(url, authorization, parse, keys, now);
      match d
      case Ok(Bypass) => r := Ok(true);
      case Ok(Authenticated(p)) => user := Some(p); r := Ok(true);
      case Err(e) => r := Err(e);
    }
  }
}
