/** The Express authentication middleware of the API: role checks, reading the user out of a
    bearer token, and the CSRF header check. A middleware either passes the request on (`next()`)
    or answers it with a status and a JSON error body. */
module ApiAuth {
  import opened Wrappers
  import opened Text

  /** What a middleware does with a request. */
  datatype Verdict = Next | Reject(status: nat, error: string, message: string)

  /** A value `JSON.parse` can produce. */
  datatype Json =
    | JNull
    | JBool(b: bool)
    | JNumber(n: real)
    | JString(s: string)
    | JArray(elements: seq<Json>)
    | JObject(fields: map<string, Json>)

  /** JavaScript truthiness of a parsed value: `null`, `false`, `0` and `""` are falsy, everything
      else (every array and object included) is truthy. */
  predicate Truthy(v: Json) {
    match v
    case JNull => false
    case JBool(b) => b
    case JNumber(n) => n != 0.0
    case JString(s) => s != ""
    case _ => true
  }

  /** `v.name` for a value that is not `null`: the object's own property, `undefined` (`None`)
      when there is none or `v` is not an object. None of the names the middleware reads is a
      member of `Object.prototype`, so no inherited property can answer. */
  function Member(v: Json, name: string): (r: Option<Json>)
    ensures r.Some? <==> v.JObject? && name in v.fields
  {
    if v.JObject? && name in v.fields then Some(v.fields[name]) else None
  }

  /** Whether `v.name` is truthy; `undefined` is not. */
  predicate TruthyMember(v: Json, name: string) {
    Member(v, name).Some? && Truthy(Member(v, name).value)
  }

  /** The user a request carries once authenticated: whatever the token's payload held, of any
      JSON type; `id` and `email` may be `undefined` (`None`). */
  datatype AuthUser = AuthUser(id: Option<Json>, email: Option<Json>, role: Json)

  /** `requireRole(roles)`: 401 without a user, 403 unless the user's role is one of `roles`
      (`includes` compares strictly, so a role of another JSON type is never listed), otherwise
      the request goes on. */
  function RequireRole(roles: seq<string>, user: Option<AuthUser>): (v: Verdict)
    ensures v == Next <==> user.Some? && user.value.role.JString? && user.value.role.s in roles
    ensures user.None? ==> v == Reject(401, "Unauthorized", "Authentication required")
    ensures user.Some? && v != Next ==>
      v == Reject(403, "Forbidden", "Access denied. Required role: " + Join(roles, " or "))
  {
    if user.None? then Reject(401, "Unauthorized", "Authentication required")
    else if !(user.value.role.JString? && user.value.role.s in roles) then
      Reject(403, "Forbidden", "Access denied. Required role: " + Join(roles, " or "))
    else Next
  }

  /** `requireAdmin`: `requireRole(['admin'])`. */
  function RequireAdmin(user: Option<AuthUser>): Verdict {
    RequireRole(["admin"], user)
  }

  /** Only an authenticated administrator gets through; anyone else authenticated is told the role
      that is required. */
  lemma RequireAdminExact(user: Option<AuthUser>)
    ensures RequireAdmin(user) == Next <==> user.Some? && user.value.role == JString("admin")
    ensures user.Some? && user.value.role != JString("admin") ==>
      RequireAdmin(user) == Reject(403, "Forbidden", "Access denied. Required role: admin")
  {
  }

  /** `s.split(sep)`: the pieces between occurrences of `sep`; there is always at least one. */
  function Split(s: string, sep: char): (r: seq<string>)
    ensures |r| >= 1
    ensures forall i :: 0 <= i < |r| ==> sep !in r[i]
  {
    if s == [] then [""]
    else
      var rest := Split(s[1..], sep);
      if s[0] == sep then [""] + rest
      else [[s[0]] + rest[0]] + rest[1..]
  }

  /** Joining the pieces back with the separator restores the string. */
  lemma {:induction false} SplitJoin(s: string, sep: char)
    ensures Join(Split(s, sep), [sep]) == s
  {
    if s != [] {
      var rest := Split(s[1..], sep);
      SplitJoin(s[1..], sep);
      if s[0] == sep {
        assert Split(s, sep) == [""] + rest;
      } else {
        var r := Split(s, sep);
        assert r == [[s[0]] + rest[0]] + rest[1..];
        if |rest| == 1 {
          assert Join(rest, [sep]) == rest[0];
        } else {
          assert r[1..] == rest[1..];
          assert Join(rest, [sep]) == rest[0] + [sep] + Join(rest[1..], [sep]);
        }
      }
    }
  }

  /** Pieces free of the separator are split back exactly. */
  lemma {:induction false} JoinSplit(parts: seq<string>, sep: char)
    requires |parts| >= 1
    requires forall i :: 0 <= i < |parts| ==> sep !in parts[i]
    ensures Split(Join(parts, [sep]), sep) == parts
  {
    if |parts| == 1 {
      SplitPiece(parts[0], sep);
    } else {
      JoinSplit(parts[1..], sep);
      SplitPrefix(parts[0], Join(parts[1..], [sep]), sep);
      assert Join(parts, [sep]) == parts[0] + ([sep] + Join(parts[1..], [sep]));
      assert [parts[0]] + parts[1..] == parts;
    }
  }

  /** A piece without the separator splits into itself. */
  lemma {:induction false} SplitPiece(piece: string, sep: char)
    requires sep !in piece
    ensures Split(piece, sep) == [piece]
  {
    if piece != [] {
      SplitPiece(piece[1..], sep);
      assert [piece[0]] + piece[1..] == piece;
    }
  }

  /** A piece without the separator, then the separator: the piece comes first and the rest is
      split as it would be alone. */
  lemma {:induction false} SplitPrefix(piece: string, rest: string, sep: char)
    requires sep !in piece
    ensures Split(piece + ([sep] + rest), sep) == [piece] + Split(rest, sep)
  {
    if piece == [] {
      assert piece + ([sep] + rest) == [sep] + rest;
      assert ([sep] + rest)[1..] == rest;
    } else {
      SplitPrefix(piece[1..], rest, sep);
      assert (piece + ([sep] + rest))[1..] == piece[1..] + ([sep] + rest);
      assert [piece[0]] + piece[1..] == piece;
    }
  }

  /** `token.split('.')[1]`: the payload segment of a JWT, undefined when there is no dot. */
  function PayloadSegment(token: string): Option<string> {
    var parts := Split(token, '.');
    if |parts| >= 2 then Some(parts[1]) else None
  }

  /** A `header.payload.signature` token yields its payload segment. */
  lemma PayloadOfJwt(header: string, payload: string, signature: string)
    requires '.' !in header && '.' !in payload && '.' !in signature
    ensures PayloadSegment(header + "." + payload + "." + signature) == Some(payload)
  {
    JoinSplit([header, payload, signature], '.');
    assert Join([header, payload, signature], ".") == header + "." + payload + "." + signature by {
      assert Join([payload, signature], ".") == payload + "." + signature;
      assert [header, payload, signature][1..] == [payload, signature];
    }
  }

  /** `{ id: decoded.id || decoded.sub, email: decoded.email, role: decoded.role || 'user' }`:
      reading a member of `null` throws (`None`); any other parsed value gives a user whose role
      is always truthy. */
  function UserOf(decoded: Json): (u: Option<AuthUser>)
    ensures u.None? <==> decoded.JNull?
    ensures u.Some? ==> Truthy(u.value.role)
    ensures u.Some? ==> u.value.email == Member(decoded, "email")
    ensures u.Some? && TruthyMember(decoded, "id") ==> u.value.id == Member(decoded, "id")
    ensures u.Some? && !TruthyMember(decoded, "id") ==> u.value.id == Member(decoded, "sub")
    ensures u.Some? && TruthyMember(decoded, "role") ==> Some(u.value.role) == Member(decoded, "role")
    ensures u.Some? && !TruthyMember(decoded, "role") ==> u.value.role == JString("user")
  {
    if decoded.JNull? then None
    else
      Some(AuthUser(if TruthyMember(decoded, "id") then Member(decoded, "id") else Member(decoded, "sub"),
                    Member(decoded, "email"),
                    if TruthyMember(decoded, "role") then Member(decoded, "role").value else JString("user")))
  }

  /** A numeric id is kept as a number, and an id of `0`, being falsy, gives way to `sub`. */
  lemma IdKeepsItsType()
    ensures UserOf(JObject(map["id" := JNumber(7.0)])).value.id == Some(JNumber(7.0))
    ensures UserOf(JObject(map["id" := JNumber(0.0), "sub" := JString("u1")])).value.id == Some(JString("u1"))
  {
    assert TruthyMember(JObject(map["id" := JNumber(7.0)]), "id");
    assert !TruthyMember(JObject(map["id" := JNumber(0.0), "sub" := JString("u1")]), "id");
  }

  const BearerPrefix: string := "Bearer "

  /** The rejection for a missing or malformed `Authorization` header. */
  const BadHeader: Verdict := Reject(401, "Unauthorized", "Missing or invalid authorization header")

  /** The rejection for a token whose payload cannot be read. */
  const BadToken: Verdict := Reject(401, "Unauthorized", "Invalid token")

  /** The parsed payload a request's `Authorization` header carries, if it can be read; `decode`
      is the base64 decoding and `JSON.parse` of the payload segment, `None` where those throw. */
  function ClaimsOf(header: string, decode: string -> Option<Json>): Option<Json>
    requires StartsWith(header, BearerPrefix)
  {
    var segment := PayloadSegment(header[|BearerPrefix|..]);
    if segment.None? then None else decode(segment.value)
  }

  /** A request as the middleware sees it. */
  class AuthRequest {
    var authorization: Option<string>
    var user: Option<AuthUser>

    constructor(authorization: Option<string>)
      ensures this.authorization == authorization && user.None?
    {
      this.authorization := authorization;
      user := None;
    }

    /** `authenticateUser`: a header that is missing or not a bearer token gets 401; a token whose
        payload cannot be read, or parses to `null`, gets 401; otherwise the user is taken from
        the payload and the request goes on. */
    method AuthenticateUser(decode: string -> Option<Json>) returns (v: Verdict)
      modifies this
      ensures authorization == old(authorization)
      ensures authorization.None? || !StartsWith(authorization.value, BearerPrefix) ==>
        v == BadHeader && user == old(user)
      ensures authorization.Some? && StartsWith(authorization.value, BearerPrefix) ==>
        var claims := ClaimsOf(authorization.value, decode);
        && (claims.None? || claims.value.JNull? ==> v == BadToken && user == old(user))
        && (claims.Some? && !claims.value.JNull? ==> v == Next && user == UserOf(claims.value))
    {
      if authorization.None? || !StartsWith(authorization.value, BearerPrefix) {
        return BadHeader;
      }
      var token := authorization.value[7..];
      var segment := PayloadSegment(token);
      if segment.None? {
        return BadToken;
      }
      var decoded := decode(segment.value);
      if decoded.None? {
        return BadToken;
      }
      var parsed := UserOf(decoded.value);
      if parsed.None? {
        return BadToken;
      }
      user := parsed;
      v := Next;
    }
  }

  /** A bearer token whose payload names a truthy role passes `requireRole` exactly when that
      role is a listed string; one whose role is missing or falsy is treated as a plain `user`. */
  lemma AuthenticatedRole(header: string, decode: string -> Option<Json>, roles: seq<string>)
    requires StartsWith(header, BearerPrefix)
    requires ClaimsOf(header, decode).Some? && !ClaimsOf(header, decode).value.JNull?
    ensures var decoded := ClaimsOf(header, decode).value;
      RequireRole(roles, UserOf(decoded)) == Next <==>
      if TruthyMember(decoded, "role") then Member(decoded, "role") in JStrings(roles) else "user" in roles
  {
  }

  /** The roles as parsed strings. */
  function JStrings(roles: seq<string>): (r: set<Option<Json>>)
    ensures forall v :: v in r <==> v.Some? && v.value.JString? && v.value.s in roles
  {
    set role | role in roles :: Some(JString(role))
  }

  /** A truthy role of another JSON type than string (a number, `true`, an array) is refused with
      403 whatever roles are required. */
  lemma NonStringRoleForbidden(decoded: Json, roles: seq<string>)
    requires TruthyMember(decoded, "role") && !Member(decoded, "role").value.JString?
    ensures RequireRole(roles, UserOf(decoded)) == Reject(403, "Forbidden", "Access denied. Required role: " + Join(roles, " or "))
  {
  }

  /** The state-changing methods the CSRF check applies to. */
  const StateChanging: set<string> := {"POST", "PUT", "DELETE", "PATCH"}

  /** `csrfProtection`: a state-changing request without an `x-csrf-token` header gets 403; every
      other request goes on. The token's value is not checked. */
  function CsrfProtection(httpMethod: string, csrfToken: Option<string>): (v: Verdict)
    ensures v != Next <==> httpMethod in StateChanging && !(csrfToken.Some? && csrfToken.value != "")
    ensures v != Next ==> v == Reject(403, "Forbidden", "CSRF token missing")
  {
    if httpMethod in StateChanging && (csrfToken.None? || csrfToken.value == "") then
      Reject(403, "Forbidden", "CSRF token missing")
    else Next
  }
}
