/** Identity and authorization: reading the bearer token out of the
    Authorization header, the 401/403 decision of `verifyToken`, the fresh role
    lookup of `verifyAdmin`, the role rule of registration, and the single error
    of login (server.cjs). Signature and expiry checking of the JWT library is a
    parameter: `tokens` maps every token string that verifies right now to the
    claims it decodes to. */
module Auth {
  import opened Wrappers
  import opened Schema
  import opened Api

  // ---- `authHeader.split(' ')` ----

  /** String.prototype.split with a single-space separator: every space ends a field, so
      consecutive spaces give empty fields and the result is never empty. */
  function Fields(s: string): (r: seq<string>)
    ensures |r| >= 1
    decreases |s|
  {
    if s == [] then [""]
    else
      var rest := Fields(s[1..]);
      if s[0] == ' ' then [""] + rest else [[s[0]] + rest[0]] + rest[1..]
  }

  /** The inverse of Fields: the fields glued back with single spaces. */
  function Join(fs: seq<string>): (r: string)
    requires |fs| >= 1
  {
    if |fs| == 1 then fs[0] else fs[0] + " " + Join(fs[1..])
  }

  /** Splitting loses nothing: the fields join back to the header. */
  lemma {:induction false} JoinFields(s: string)
    ensures Join(Fields(s)) == s
    decreases |s|
  {
    if s != [] {
      var rest := Fields(s[1..]);
      JoinFields(s[1..]);
      if s[0] == ' ' {
        assert Join([""] + rest) == "" + " " + Join(rest);
      } else if |rest| == 1 {
        assert Join([[s[0]] + rest[0]] + rest[1..]) == [s[0]] + rest[0];
      } else {
        assert Join(rest) == rest[0] + " " + Join(rest[1..]);
        assert ([[s[0]] + rest[0]] + rest[1..])[1..] == rest[1..];
      }
    }
  }

  /** No field holds a space. */
  lemma {:induction false} FieldsHaveNoSpace(s: string)
    ensures forall i :: 0 <= i < |Fields(s)| ==> ' ' !in Fields(s)[i]
    decreases |s|
  {
    if s != [] {
      FieldsHaveNoSpace(s[1..]);
    }
  }

  lemma {:induction false} FieldsOfWord(w: string)
    requires ' ' !in w
    ensures Fields(w) == [w]
    decreases |w|
  {
    if w != [] {
      assert ' ' !in w[1..] by {
        forall c | c in w[1..] ensures c in w { }
      }
      FieldsOfWord(w[1..]);
      assert [w[0]] + w[1..] == w;
    }
  }

  lemma {:induction false} FieldsAfterWord(w: string, tail: string)
    requires ' ' !in w
    ensures Fields(w + " " + tail) == [w] + Fields(tail)
    decreases |w|
  {
    if w == [] {
      assert w + " " + tail == [' '] + tail;
      assert (w + " " + tail)[1..] == tail;
    } else {
      assert (w + " " + tail)[1..] == w[1..] + " " + tail;
      assert ' ' !in w[1..] by {
        forall c | c in w[1..] ensures c in w { }
      }
      FieldsAfterWord(w[1..], tail);
      assert (w + " " + tail)[0] == w[0] != ' ';
      assert [w[0]] + w[1..] == w;
    }
  }

  /** `authHeader && authHeader.split(' ')[1]`, with `if (!token)`: the second field, when
      the header is there and that field exists and is not empty. */
  function BearerToken(header: Option<string>): (r: Option<string>)
    ensures r.Some? <==> header.Some? && |Fields(header.value)| >= 2 && Fields(header.value)[1] != ""
    ensures r.Some? ==> r.value == Fields(header.value)[1] && r.value != ""
  {
    if header.None? then None
    else
      var fs := Fields(header.value);
      if |fs| >= 2 && fs[1] != "" then Some(fs[1]) else None
  }

  /** The header the client contexts build, `Bearer ${token}`, carries the token back out, and an
      empty token reads as no token at all. */
  lemma BearerHeaderRoundTrip(token: string)
    requires ' ' !in token
    ensures BearerToken(Some("Bearer " + token)) == if token == "" then None else Some(token)
  {
    FieldsOfWord(token);
    FieldsAfterWord("Bearer", token);
    assert "Bearer " + token == "Bearer" + " " + token;
  }

  // ---- the middleware ----

  /** What a guard lets through: the caller's claims, or the response that ends the request. */
  datatype Gate = Pass(user: Claims) | Deny(response: Response)

  const Unauthorized := Response(401, Text)
  const Forbidden := Response(403, Text)
  const AdminRequired := Response(403, Error("Admin access required"))

  /** `verifyToken`: 401 without a token, 403 for a token that does not verify, and otherwise
      exactly the claims the token decodes to; no row of the store is consulted. */
  function VerifyToken(header: Option<string>, tokens: map<string, Claims>): (g: Gate)
    ensures g == Deny(Unauthorized) <==> BearerToken(header).None?
    ensures g == Deny(Forbidden) <==> BearerToken(header).Some? && BearerToken(header).value !in tokens
    ensures g.Pass? <==> BearerToken(header).Some? && BearerToken(header).value in tokens
    ensures g.Pass? ==> g.user == tokens[BearerToken(header).value]
  {
    match BearerToken(header)
    case None => Deny(Unauthorized)
    case Some(t) => if t in tokens then Pass(tokens[t]) else Deny(Forbidden)
  }

  /** `verifyAdmin`: `verifyToken` first, then the role is read afresh from the users row of the
      token's id; a missing row or a stored role other than 'admin' gives 403, whatever the token claims. */
  function VerifyAdmin(header: Option<string>, tokens: map<string, Claims>, users: seq<User>): (g: Gate)
    ensures VerifyToken(header, tokens).Deny? ==> g == VerifyToken(header, tokens)
    ensures VerifyToken(header, tokens).Pass? ==>
      var row := UserById(users, VerifyToken(header, tokens).user.id);
      if row.Some? && row.value.role == "admin" then g == VerifyToken(header, tokens) else g == Deny(AdminRequired)
    ensures g.Pass? ==> exists u :: u in users && u.id == g.user.id && u.role == "admin"
  {
    match VerifyToken(header, tokens)
    case Deny(resp) => Deny(resp)
    case Pass(c) =>
      var row := UserById(users, c.id);
      if row.None? || row.value.role != "admin" then Deny(AdminRequired) else Pass(c)
  }

  /** The admin decision depends on the store, not on the role the token claims: re-signing the same
      identity with any other role changes nothing, so a promotion or a demotion made in the store takes
      effect before the token expires. */
  lemma AdminIgnoresClaimedRole(header: Option<string>, tokens: map<string, Claims>, users: seq<User>, role: string)
    requires BearerToken(header).Some? && BearerToken(header).value in tokens
    ensures var t := BearerToken(header).value;
      var tokens' := tokens[t := tokens[t].(role := role)];
      VerifyAdmin(header, tokens', users).Pass? == VerifyAdmin(header, tokens, users).Pass?
  {
  }

  // ---- registration and login ----

  /** Whether `sub` occurs in `s` starting at its first character. */
  predicate StartsWith(s: string, sub: string) {
    |sub| <= |s| && s[..|sub|] == sub
  }

  /** `String.prototype.includes`, scanning from the left. */
  predicate Includes(s: string, sub: string)
    decreases |s|
  {
    StartsWith(s, sub) || (|s| > 0 && Includes(s[1..], sub))
  }

  /** `sub` occurs in `s` at position `i`. */
  predicate OccursAt(s: string, sub: string, i: int) {
    0 <= i <= |s| - |sub| && s[i..i + |sub|] == sub
  }

  /** Includes holds exactly when `sub` occurs at some position of `s`. */
  lemma {:induction false} IncludesIff(s: string, sub: string)
    ensures Includes(s, sub) <==> exists i :: OccursAt(s, sub, i)
    decreases |s|
  {
    if StartsWith(s, sub) {
      assert OccursAt(s, sub, 0);
    }
    if |s| > 0 {
      IncludesIff(s[1..], sub);
      if Includes(s[1..], sub) && !StartsWith(s, sub) {
        var i :| OccursAt(s[1..], sub, i);
        assert s[i + 1..i + 1 + |sub|] == s[1..][i..i + |sub|];
        assert OccursAt(s, sub, i + 1);
      }
      if exists i :: OccursAt(s, sub, i) {
        var i :| OccursAt(s, sub, i);
        if i > 0 {
          assert s[1..][i - 1..i - 1 + |sub|] == s[i..i + |sub|];
          assert OccursAt(s[1..], sub, i - 1);
        }
      }
    } else if exists i :: OccursAt(s, sub, i) {
      var i :| OccursAt(s, sub, i);
      assert StartsWith(s, sub);
    }
  }

  /** The role registration assigns: 'admin' exactly when the email holds the substring "admin"
      (case-sensitive, anywhere), 'user' otherwise. */
  function RoleFor(email: string): (role: string)
    ensures role == "admin" || role == "user"
    ensures role == "admin" <==> exists i :: OccursAt(email, "admin", i)
  {
    IncludesIff(email, "admin");
    if Includes(email, "admin") then "admin" else "user"
  }

  /** A JSON field passes `!field` when it was sent and is not the empty string. */
  predicate Present(field: Option<string>) {
    field.Some? && field.value != ""
  }

  const InvalidCredentials := Response(400, Error("Invalid credentials"))

  /** `POST /api/login`: the row of that email, then bcrypt's comparison (`matches(plain, digest)`).
      An unknown email and a wrong password end in one and the same response; success mints a token
      from the role stored in the row. */
  function Login(users: seq<User>, email: Option<string>, password: string, matches: (string, string) -> bool): (r: Response)
    ensures r.status == 200 || r == InvalidCredentials
    ensures r.status == 200 <==>
      email.Some? && UserByEmail(users, email.value).Some? && matches(password, UserByEmail(users, email.value).value.password)
    ensures r.status == 200 ==>
      var u := UserByEmail(users, email.value).value;
      r.body == Session(ClaimsOf(u), UserView(u)) && u in users && u.email == email.value
  {
    if email.None? then InvalidCredentials
    else
      match UserByEmail(users, email.value)
      case None => InvalidCredentials
      case Some(u) =>
        if !matches(password, u.password) then InvalidCredentials
        else Response(200, Session(ClaimsOf(u), UserView(u)))
  }

  /** The two failures of login cannot be told apart by the caller. */
  lemma LoginFailuresIdentical(users: seq<User>, unknown: string, u: User, wrong: string, password: string,
                               matches: (string, string) -> bool)
    requires forall x :: x in users ==> x.email != unknown
    requires u in users && EmailsUnique(users) && !matches(wrong, u.password)
    ensures Login(users, Some(unknown), password, matches) == Login(users, Some(u.email), wrong, matches)
    ensures Login(users, Some(unknown), password, matches) == InvalidCredentials
  {
    UserByEmailFinds(users, u);
  }

  /** `GET /api/me`: the profile comes from the users row of the token's id, role included; 404 when that row is gone. */
  function Me(header: Option<string>, tokens: map<string, Claims>, users: seq<User>): (r: Response)
    ensures VerifyToken(header, tokens).Deny? ==> r == VerifyToken(header, tokens).response
    ensures VerifyToken(header, tokens).Pass? ==>
      var row := UserById(users, VerifyToken(header, tokens).user.id);
      r == if row.Some? then Response(200, Profile(UserView(row.value))) else Response(404, Text)
  {
    match VerifyToken(header, tokens)
    case Deny(resp) => resp
    case Pass(c) =>
      match UserById(users, c.id)
      case None => Response(404, Text)
      case Some(u) => Response(200, Profile(UserView(u)))
  }
}
