// Authentication of the content API: the users file with its default
// administrator, login with a signed token, the middleware that demands a
// valid token and the administrator role, the current-user lookup and the
// password change. The token and password-hashing libraries are parameters
// of the model; what they are assumed to do is stated as a predicate that
// the lemmas needing it require.
module Auth {
  import opened Wrappers
  import opened Strings
  import opened JsValue
  import opened AppErrors
  import opened Http
  import opened Unicode

  const Secret := "studio-pickens-secret-key-change-in-production"
  /** `expiresIn: '24h'`, in seconds. */
  const TokenLifetime := 86400
  const DefaultUsername := "admin"
  const DefaultPassword := "admin123"
  const DefaultEmail := "admin@studiopickens.com"
  /** The cost factor every hash is made with. */
  const HashRounds := 10
  const MinPasswordLength := 6

  // ---- The libraries ----

  /** The token library: `sign(payload, secret, lifetime, issuedAt)` and
      `verify(token, secret, now)`, `None` where verification throws. */
  datatype TokenLibrary = TokenLibrary(
    sign: (Value, string, int, int) -> string,
    verify: (string, string, int) -> Option<Value>)

  /** The payload a verified token yields: the claims with the issue and
      expiry times added. */
  function Stamped(payload: Value, issuedAt: int, lifetime: int): Value
  {
    if payload.Obj? then Obj(payload.fields["iat" := Num(issuedAt as real)]["exp" := Num((issuedAt + lifetime) as real)])
    else payload
  }

  /** An id that comes back unchanged from the JSON text inside a token:
      `null`, a string or a whole number. */
  predicate JsonId(v: Value)
  {
    v.Null? || v.Str? || (v.Num? && IsIntegral(v.n))
  }

  /** What the token library is relied on for: a token is never empty, and
      the token of a user's claims verifies under its own secret to those
      claims stamped with the issue and expiry times until it expires. */
  ghost predicate SoundTokens(lib: TokenLibrary)
  {
    (forall payload, secret, lifetime, issuedAt :: lib.sign(payload, secret, lifetime, issuedAt) != "")
    && (forall u: User, secret, lifetime, issuedAt, now | JsonId(u.id) ::
          lib.verify(lib.sign(Claims(u), secret, lifetime, issuedAt), secret, now)
            == (if now < issuedAt + lifetime then Some(Stamped(Claims(u), issuedAt, lifetime)) else None))
  }

  /** The hashing library: `hash(password, rounds, salt)` (the salt is the
      random part) and `compare(password, hash)`. */
  datatype PasswordHasher = PasswordHasher(
    hash: (string, int, string) -> string,
    compare: (string, string) -> bool)

  /** The bytes a bcrypt hash depends on: the UTF-8 bytes of the password
      and a terminating zero, repeated to fill the 72 bytes of the key
      schedule. Bytes past the 72nd are never used. */
  function BcryptKey(password: string): (k: seq<Byte>)
    ensures |k| == 72
  {
    var b := Utf8(password) + [0];
    seq(72, i requires 0 <= i < 72 => b[i % |b|])
  }

  /** A hash matches exactly the passwords whose bcrypt key is that of the
      password it was made from. */
  ghost predicate SoundHasher(h: PasswordHasher)
  {
    forall password, rounds, salt, candidate {:trigger h.compare(candidate, h.hash(password, rounds, salt))} ::
      h.compare(candidate, h.hash(password, rounds, salt)) <==> BcryptKey(candidate) == BcryptKey(password)
  }

  /** Passwords without NUL characters that encode in fewer than 72 bytes
      have different keys when they differ. */
  lemma BcryptKeyInjective(p: string, q: string)
    requires |Utf8(p)| < 72 && |Utf8(q)| < 72
    requires forall i :: 0 <= i < |p| ==> p[i] != '\0'
    requires forall i :: 0 <= i < |q| ==> q[i] != '\0'
    ensures BcryptKey(p) == BcryptKey(q) ==> p == q
  {
    if BcryptKey(p) == BcryptKey(q) {
      var a, b := Utf8(p), Utf8(q);
      NoZeroByte(p);
      NoZeroByte(q);
      KeyStart(p);
      KeyStart(q);
      if |a| == |b| {
        assert forall i :: 0 <= i < |a| ==> a[i] == BcryptKey(p)[i] == b[i];
        assert a == b;
        Utf8Injective(p, q);
      }
    }
  }

  /** A key starts with the encoding of the password and its zero byte,
      when they fit. */
  lemma KeyStart(p: string)
    requires |Utf8(p)| < 72
    ensures forall i :: 0 <= i < |Utf8(p)| ==> BcryptKey(p)[i] == Utf8(p)[i]
    ensures BcryptKey(p)[|Utf8(p)|] == 0
  {
    var b := Utf8(p) + [0];
    forall i | 0 <= i < |b|
      ensures BcryptKey(p)[i] == b[i]
    {
      SmallRemainder(i, |b|);
    }
  }

  lemma SmallRemainder(i: nat, n: nat)
    requires i < n
    ensures i % n == i
  {
  }

  /** Passwords that agree on their first 72 bytes have the same key,
      whatever follows. */
  lemma LongPasswordsCollide(p: string, x: string, y: string)
    requires |Utf8(p)| >= 72
    ensures BcryptKey(p + x) == BcryptKey(p + y)
  {
    Utf8Append(p, x);
    Utf8Append(p, y);
    var kx, ky := Utf8(p + x) + [0], Utf8(p + y) + [0];
    forall i | 0 <= i < 72
      ensures BcryptKey(p + x)[i] == Utf8(p)[i] == BcryptKey(p + y)[i]
    {
      SmallRemainder(i, |kx|);
      SmallRemainder(i, |ky|);
      assert kx[i] == Utf8(p)[i] == ky[i];
    }
  }

  // ---- Users ----

  /** A user record of the users file; `password` holds the hash. */
  datatype User = User(
    id: Value,
    username: string,
    email: string,
    password: string,
    role: string,
    createdAt: string,
    lastLogin: Option<string>,
    updatedAt: Option<string>)

  /** The users file: absent, holding the user list, or unreadable or not
      parseable. */
  datatype UsersFile = Absent | Stored(users: seq<User>) | Unusable

  /** `loadUsers()`: the stored list, `[]` whenever reading or parsing fails. */
  function Loaded(f: UsersFile): (r: seq<User>)
    ensures f.Stored? ==> r == f.users
    ensures !f.Stored? ==> r == []
  {
    if f.Stored? then f.users else []
  }

  /** The list `initializeAuth` writes: the default administrator, id 1,
      never logged in. */
  function InitialUsers(hasher: PasswordHasher, salt: string, now: string): (r: seq<User>)
    ensures |r| == 1 && r[0].id == Num(1.0) && r[0].role == "admin" && r[0].lastLogin.None?
    ensures r[0].username == DefaultUsername && r[0].email == DefaultEmail
  {
    [User(Num(1.0), DefaultUsername, DefaultEmail, hasher.hash(DefaultPassword, HashRounds, salt), "admin", now, None, None)]
  }

  /** The two lookups of the handlers: by user name or e-mail address
      (login), and by id (the handlers behind `requireAuth`). */
  datatype Lookup = ByLogin(name: Value) | ById(id: Option<Value>)

  /** Login accepts the user name or the e-mail address, compared strictly;
      the id is compared strictly too. */
  predicate Matches(u: User, q: Lookup)
  {
    match q
    case ByLogin(name) => name == Str(u.username) || name == Str(u.email)
    case ById(id) => StrictEquals(Some(u.id), id)
  }

  /** `Array.prototype.find`, as the index of the first matching user. */
  function First(users: seq<User>, q: Lookup): (r: Option<nat>)
    ensures r.Some? ==> r.value < |users| && Matches(users[r.value], q) && forall j :: 0 <= j < r.value ==> !Matches(users[j], q)
    ensures r.None? ==> forall j :: 0 <= j < |users| ==> !Matches(users[j], q)
  {
    if users == [] then None
    else if Matches(users[0], q) then Some(0)
    else
      match First(users[1..], q)
      case None => None
      case Some(k) => Some(k + 1)
  }

  /** A property of the request is given when it is present and truthy. */
  predicate Present(v: Option<Value>)
  {
    v.Some? && Truthy(v.value)
  }

  // ---- Tokens ----

  /** The claims of a user's token. */
  function Claims(u: User): (r: Value)
    ensures r.Obj? && r.fields.Keys == {"id", "username", "email", "role"}
    ensures r.fields["id"] == u.id && r.fields["username"] == Str(u.username)
    ensures r.fields["email"] == Str(u.email) && r.fields["role"] == Str(u.role)
  {
    Obj(map["id" := u.id, "username" := Str(u.username), "email" := Str(u.email), "role" := Str(u.role)])
  }

  /** `generateToken(user)` at time `issuedAt`. */
  function GenerateToken(lib: TokenLibrary, u: User, issuedAt: int): string
  {
    lib.sign(Claims(u), Secret, TokenLifetime, issuedAt)
  }

  /** `verifyToken(token)` at time `now`; `None` is `null`. */
  function VerifyToken(lib: TokenLibrary, token: string, now: int): Option<Value>
  {
    lib.verify(token, Secret, now)
  }

  /** A token verifies for 24 hours after it was issued, to the user's four
      claims with the issue and expiry times, and then no longer. */
  lemma TokenRoundTrip(lib: TokenLibrary, u: User, issuedAt: int, now: int)
    requires SoundTokens(lib) && JsonId(u.id)
    ensures VerifyToken(lib, GenerateToken(lib, u, issuedAt), now)
              == (if now < issuedAt + TokenLifetime then Some(Stamped(Claims(u), issuedAt, TokenLifetime)) else None)
  {
  }

  // ---- Replies ----

  function Refusal(status: nat, error: string, code: string): Reply
  {
    Reply(status, Obj(map["success" := Bool(false), "error" := Str(error), "code" := Str(code)]))
  }

  function CodeOf(r: Reply): string
  {
    if r.body.Obj? && "code" in r.body.fields && r.body.fields["code"].Str? then r.body.fields["code"].s else ""
  }

  const NoToken := Refusal(401, "No token provided", "NO_TOKEN")
  const InvalidToken := Refusal(401, "Invalid or expired token", "INVALID_TOKEN")
  const NotAdmin := Refusal(403, "Admin access required", "INSUFFICIENT_PERMISSIONS")
  const MissingCredentials := Refusal(400, "Username and password are required", "MISSING_CREDENTIALS")
  const BadCredentials := Refusal(401, "Invalid username or password", "INVALID_CREDENTIALS")
  const ServerError := Refusal(500, "Internal server error", "SERVER_ERROR")
  const UserNotFound := Refusal(404, "User not found", "USER_NOT_FOUND")
  const MissingPasswords := Refusal(400, "Current password and new password are required", "MISSING_PASSWORDS")
  const PasswordTooShort := Refusal(400, "New password must be at least 6 characters long", "PASSWORD_TOO_SHORT")
  const WrongCurrentPassword := Refusal(401, "Current password is incorrect", "INVALID_CURRENT_PASSWORD")
  const PasswordChanged := Reply(200, Obj(map["success" := Bool(true), "message" := Str("Password changed successfully")]))

  /** The profile the API returns: everything but the password hash. */
  function Profile(u: User): (r: Value)
    ensures r.Obj? && r.fields.Keys == {"id", "username", "email", "role", "lastLogin"}
    ensures "password" !in r.fields
  {
    Obj(map["id" := u.id, "username" := Str(u.username), "email" := Str(u.email), "role" := Str(u.role),
            "lastLogin" := if u.lastLogin.Some? then Str(u.lastLogin.value) else Null])
  }

  function LoginReply(token: string, u: User): Reply
  {
    Reply(200, Obj(map["success" := Bool(true), "token" := Str(token), "user" := Profile(u)]))
  }

  // ---- requireAuth / requireAdmin ----

  /** The token of `authorization?.replace('Bearer ', '')`; `None` where
      that is undefined or empty. */
  function BearerToken(headers: map<string, string>): (r: Option<string>)
    ensures r.Some? ==> r.value != ""
    ensures "authorization" !in headers ==> r.None?
  {
    if "authorization" !in headers then None
    else
      var t := ReplaceFirst(headers["authorization"], "Bearer ", "");
      if t == "" then None else Some(t)
  }

  /** What `requireAuth` decides: the decoded claims to store, or the 401. */
  function AuthCheck(lib: TokenLibrary, headers: map<string, string>, now: int): (r: Result<Value, Reply>)
    ensures BearerToken(headers).None? ==> r == Err(NoToken)
    ensures BearerToken(headers).Some? ==>
              (r.Ok? <==> VerifyToken(lib, BearerToken(headers).value, now).Some?
                          && Truthy(VerifyToken(lib, BearerToken(headers).value, now).value))
    ensures r.Ok? ==> Some(r.value) == VerifyToken(lib, BearerToken(headers).value, now)
    ensures r.Err? ==> r.error == NoToken || r.error == InvalidToken
  {
    match BearerToken(headers)
    case None => Err(NoToken)
    case Some(token) =>
      var decoded := VerifyToken(lib, token, now);
      if decoded.None? || !Truthy(decoded.value) then Err(InvalidToken) else Ok(decoded.value)
  }

  /** `requireAuth`: the 401 reply, or the claims stored on the request. */
  method RequireAuth(lib: TokenLibrary, req: Request, now: int) returns (o: Outcome)
    modifies req`user
    ensures match AuthCheck(lib, req.headers, now)
            case Err(reply) => o == Send(reply) && req.user == old(req.user)
            case Ok(claims) => o == Next && req.user == Some(claims)
  {
    var token: Option<string> := None;
    if "authorization" in req.headers {
      var t := ReplaceFirst(req.headers["authorization"], "Bearer ", "");
      if t != "" {
        token := Some(t);
      }
    }
    if token.None? {
      o := Send(NoToken);
      return;
    }
    var decoded := VerifyToken(lib, token.value, now);
    if decoded.None? || !Truthy(decoded.value) {
      o := Send(InvalidToken);
      return;
    }
    req.user := decoded;
    o := Next;
  }

  /** Reading `req.user.role` when no user is stored. */
  const MissingUserRead := Error(TypeErrorClass, "TypeError", "Cannot read properties of undefined (reading 'role')", "", None, None, false)

  /** What `requireAdmin` does with the stored user. */
  function AdminCheck(user: Option<Value>): (o: Outcome)
    ensures o.Next? <==> user.Some? && Prop(user.value, "role") == Some(Str("admin"))
    ensures o.Send? <==> user.Some? && !user.value.Null? && Prop(user.value, "role") != Some(Str("admin"))
    ensures o.Send? ==> o.reply == NotAdmin
  {
    if user.None? || user.value.Null? then Fail(MissingUserRead)
    else if Prop(user.value, "role") == Some(Str("admin")) then Next
    else Send(NotAdmin)
  }

  /** `requireAdmin`: changes nothing. */
  method RequireAdmin(req: Request) returns (o: Outcome)
    ensures o == AdminCheck(req.user)
  {
    if req.user.None? || req.user.value.Null? {
      o := Fail(MissingUserRead);
    } else if Prop(req.user.value, "role") == Some(Str("admin")) {
      o := Next;
    } else {
      o := Send(NotAdmin);
    }
  }

  lemma BearerOfToken(token: string)
    requires token != ""
    ensures BearerToken(map["authorization" := "Bearer " + token]) == Some(token)
  {
    var s := "Bearer " + token;
    assert s[..7] == "Bearer ";
    assert IndexOf(s, "Bearer ") == Some(0);
    assert s[..0] + "" + s[0 + 7..] == token;
    assert ReplaceFirst(s, "Bearer ", "") == token;
  }

  /** An administrator's token, sent as `Bearer <token>` within 24 hours,
      passes both `requireAuth` and `requireAdmin`; a user of any other
      role is refused by `requireAdmin`. */
  lemma TokenGrantsRole(lib: TokenLibrary, u: User, issuedAt: int, now: int)
    requires SoundTokens(lib) && JsonId(u.id) && issuedAt <= now < issuedAt + TokenLifetime
    ensures var headers := map["authorization" := "Bearer " + GenerateToken(lib, u, issuedAt)];
            var c := AuthCheck(lib, headers, now);
            c.Ok? && (AdminCheck(Some(c.value)) == if u.role == "admin" then Next else Send(NotAdmin))
  {
    var token := GenerateToken(lib, u, issuedAt);
    BearerOfToken(token);
    TokenRoundTrip(lib, u, issuedAt, now);
    var v := Stamped(Claims(u), issuedAt, TokenLifetime);
    assert v.fields["role"] == Str(u.role);
  }

  // ---- Handlers ----

  /** The reply of a handler and the user list it saves, if any. */
  datatype Handled = Handled(reply: Reply, saved: Option<seq<User>>)

  /** `loginHandler` on the loaded user list. */
  function LoginOutcome(lib: TokenLibrary, hasher: PasswordHasher, users: seq<User>, body: Value, now: string, clock: int): (r: Handled)
    ensures r.saved.Some? <==> r.reply.status == 200
    ensures r.reply.status in {200, 400, 401, 500}
    ensures r.saved.Some? ==> |r.saved.value| == |users|
  {
    var name := Prop(body, "username");
    var password := Prop(body, "password");
    if !Present(name) || !Present(password) then Handled(MissingCredentials, None)
    else
      match First(users, ByLogin(name.value))
      case None => Handled(BadCredentials, None)
      case Some(i) =>
        if !password.value.Str? then Handled(ServerError, None)
        else if !hasher.compare(password.value.s, users[i].password) then Handled(BadCredentials, None)
        else
          var user := users[i].(lastLogin := Some(now));
          Handled(LoginReply(GenerateToken(lib, user, clock), user), Some(users[i := user]))
  }

  /** A login without a user name or a password is refused before the
      users are looked at. */
  lemma LoginNeedsCredentials(lib: TokenLibrary, hasher: PasswordHasher, users: seq<User>, body: Value, now: string, clock: int)
    requires !Present(Prop(body, "username")) || !Present(Prop(body, "password"))
    ensures LoginOutcome(lib, hasher, users, body, now, clock) == Handled(MissingCredentials, None)
  {
  }

  /** An unknown user and a wrong password get the same reply, and nothing
      is saved for either. */
  lemma LoginRefusalsAlike(lib: TokenLibrary, hasher: PasswordHasher, users: seq<User>, name: string, password: string, now: string, clock: int)
    requires name != "" && password != ""
    requires var i := First(users, ByLogin(Str(name)));
             i.None? || !hasher.compare(password, users[i.value].password)
    ensures LoginOutcome(lib, hasher, users, Credentials(name, password), now, clock) == Handled(BadCredentials, None)
  {
    CredentialsRead(name, password);
  }

  /** A successful login saves the list with only that user's last login
      changed, and returns a token for that user and a profile without the
      password hash. */
  lemma LoginSucceeds(lib: TokenLibrary, hasher: PasswordHasher, users: seq<User>, body: Value, now: string, clock: int)
    requires LoginOutcome(lib, hasher, users, body, now, clock).reply.status == 200
    ensures var r := LoginOutcome(lib, hasher, users, body, now, clock);
            exists i :: 0 <= i < |users| && Matches(users[i], ByLogin(Prop(body, "username").value))
              && r.saved == Some(users[i := users[i].(lastLogin := Some(now))])
              && r.reply == LoginReply(GenerateToken(lib, users[i].(lastLogin := Some(now)), clock), users[i].(lastLogin := Some(now)))
  {
    var name := Prop(body, "username");
    var i := First(users, ByLogin(name.value)).value;
    assert Matches(users[i], ByLogin(name.value));
  }

  /** `getCurrentUser` on the loaded user list and the stored claims. The
      lookup reads `req.user.id` only when there is a user to compare. */
  function CurrentUserReply(users: seq<User>, claims: Option<Value>): (r: Reply)
    ensures r.status in {200, 404, 500}
    ensures users == [] ==> r == UserNotFound
  {
    if users != [] && (claims.None? || claims.value.Null?) then ServerError
    else
      var id := if claims.Some? then Prop(claims.value, "id") else None;
      match First(users, ById(id))
      case None => UserNotFound
      case Some(i) => Reply(200, Obj(map["success" := Bool(true), "user" := Profile(users[i])]))
  }

  /** `changePasswordHandler` on the loaded user list and the stored claims. */
  function ChangeOutcome(hasher: PasswordHasher, users: seq<User>, body: Value, claims: Option<Value>, salt: string, now: string): (r: Handled)
    ensures r.saved.Some? <==> r.reply == PasswordChanged
    ensures r.saved.Some? ==> |r.saved.value| == |users|
  {
    var current := Prop(body, "currentPassword");
    var next := Prop(body, "newPassword");
    if !Present(current) || !Present(next) then Handled(MissingPasswords, None)
    else if Length(next.value).Some? && Length(next.value).value < MinPasswordLength then Handled(PasswordTooShort, None)
    else if users != [] && (claims.None? || claims.value.Null?) then Handled(ServerError, None)
    else
      var id := if claims.Some? then Prop(claims.value, "id") else None;
      match First(users, ById(id))
      case None => Handled(UserNotFound, None)
      case Some(i) =>
        if !current.value.Str? then Handled(ServerError, None)
        else if !hasher.compare(current.value.s, users[i].password) then Handled(WrongCurrentPassword, None)
        else if !next.value.Str? then Handled(ServerError, None)
        else
          var user := users[i].(password := hasher.hash(next.value.s, HashRounds, salt), updatedAt := Some(now));
          Handled(PasswordChanged, Some(users[i := user]))
  }

  function PasswordBody(current: string, next: string): Value
  {
    Obj(map["currentPassword" := Str(current), "newPassword" := Str(next)])
  }

  /** A new password shorter than six UTF-16 code units is refused before
      the user or the current password is looked at. */
  lemma ShortPasswordFirst(hasher: PasswordHasher, users: seq<User>, current: string, next: string, claims: Option<Value>, salt: string, now: string)
    requires current != "" && next != "" && Utf16Length(next) < MinPasswordLength
    ensures ChangeOutcome(hasher, users, PasswordBody(current, next), claims, salt, now) == Handled(PasswordTooShort, None)
  {
    var body := PasswordBody(current, next);
    assert Prop(body, "currentPassword") == Some(Str(current));
    assert Prop(body, "newPassword") == Some(Str(next));
  }

  /** With a long enough new password, the user is looked up next, and a
      current password that is not the user's is refused. */
  lemma WrongCurrentRefused(hasher: PasswordHasher, users: seq<User>, current: string, original: string, next: string,
                            id: Value, salt: string, now: string, rounds: int, oldSalt: string)
    requires SoundHasher(hasher)
    requires current != "" && Utf16Length(next) >= MinPasswordLength && BcryptKey(current) != BcryptKey(original)
    requires var i := First(users, ById(Some(id)));
             i.Some? && users[i.value].password == hasher.hash(original, rounds, oldSalt)
    ensures ChangeOutcome(hasher, users, PasswordBody(current, next), Some(Obj(map["id" := id])), salt, now)
              == Handled(WrongCurrentPassword, None)
  {
    var body := PasswordBody(current, next);
    assert Prop(body, "currentPassword") == Some(Str(current));
    assert Prop(body, "newPassword") == Some(Str(next));
    assert Prop(Obj(map["id" := id]), "id") == Some(id);
  }

  /** A successful change replaces only that user's hash, by one of the new
      password, and stamps the update time. */
  lemma ChangeSucceeds(hasher: PasswordHasher, users: seq<User>, body: Value, claims: Option<Value>, salt: string, now: string)
    requires ChangeOutcome(hasher, users, body, claims, salt, now).saved.Some?
    ensures var next := Prop(body, "newPassword");
            next.Some? && next.value.Str? && Utf16Length(next.value.s) >= MinPasswordLength
            && exists i :: 0 <= i < |users|
                 && ChangeOutcome(hasher, users, body, claims, salt, now).saved
                      == Some(users[i := users[i].(password := hasher.hash(next.value.s, HashRounds, salt), updatedAt := Some(now))])
  {
    var id := if claims.Some? then Prop(claims.value, "id") else None;
    var i := First(users, ById(id)).value;
    assert i < |users|;
  }

  /** After a password change, logging in with the new password succeeds
      and with the old one it is refused. */
  lemma ChangedPasswordLogsIn(lib: TokenLibrary, hasher: PasswordHasher, users: seq<User>, i: nat, current: string, next: string,
                              salt: string, now: string, saved: seq<User>, later: string, clock: int)
    requires SoundHasher(hasher)
    requires i < |users| && BcryptKey(current) != BcryptKey(next) && current != ""
    requires First(users, ById(Some(users[i].id))) == Some(i)
    requires First(users, ByLogin(Str(users[i].username))) == Some(i)
    requires users[i].username != ""
    requires ChangeOutcome(hasher, users, PasswordBody(current, next), Some(Obj(map["id" := users[i].id])), salt, now).saved == Some(saved)
    ensures LoginOutcome(lib, hasher, saved, Credentials(users[i].username, next), later, clock).reply.status == 200
    ensures LoginOutcome(lib, hasher, saved, Credentials(users[i].username, current), later, clock).reply == BadCredentials
  {
    var s2 := ChangedList(hasher, users, i, current, next, salt, now);
    assert |next| > 0;
    RehashedLogsIn(lib, hasher, users, i, current, next, salt, now, later, clock);
  }

  /** The same, for the list with user `i`'s hash replaced. */
  lemma RehashedLogsIn(lib: TokenLibrary, hasher: PasswordHasher, users: seq<User>, i: nat, current: string, next: string,
                       salt: string, now: string, later: string, clock: int)
    requires SoundHasher(hasher)
    requires i < |users| && BcryptKey(current) != BcryptKey(next) && current != "" && next != ""
    requires First(users, ByLogin(Str(users[i].username))) == Some(i)
    requires users[i].username != ""
    ensures var saved := users[i := users[i].(password := hasher.hash(next, HashRounds, salt), updatedAt := Some(now))];
            LoginOutcome(lib, hasher, saved, Credentials(users[i].username, next), later, clock).reply.status == 200
            && LoginOutcome(lib, hasher, saved, Credentials(users[i].username, current), later, clock).reply == BadCredentials
  {
    var saved := users[i := users[i].(password := hasher.hash(next, HashRounds, salt), updatedAt := Some(now))];
    var name := Str(users[i].username);
    SameLoginMatch(users, saved, name, i);
    assert hasher.compare(next, saved[i].password);
    assert !hasher.compare(current, saved[i].password);
    LoginAtIndex(lib, hasher, saved, i, users[i].username, next, later, clock);
    LoginAtIndex(lib, hasher, saved, i, users[i].username, current, later, clock);
  }

  /** A password matches a hash made from it. */
  lemma OwnHashMatches(hasher: PasswordHasher, password: string, rounds: int, salt: string)
    requires SoundHasher(hasher)
    ensures hasher.compare(password, hasher.hash(password, rounds, salt))
  {
  }

  /** The list a successful change of user `i`'s password saves. */
  lemma ChangedList(hasher: PasswordHasher, users: seq<User>, i: nat, current: string, next: string, salt: string, now: string)
      returns (saved: seq<User>)
    requires i < |users| && current != ""
    requires First(users, ById(Some(users[i].id))) == Some(i)
    requires ChangeOutcome(hasher, users, PasswordBody(current, next), Some(Obj(map["id" := users[i].id])), salt, now).saved.Some?
    ensures ChangeOutcome(hasher, users, PasswordBody(current, next), Some(Obj(map["id" := users[i].id])), salt, now).saved == Some(saved)
    ensures saved == users[i := users[i].(password := hasher.hash(next, HashRounds, salt), updatedAt := Some(now))]
    ensures Utf16Length(next) >= MinPasswordLength
  {
    var body := PasswordBody(current, next);
    assert Prop(body, "currentPassword") == Some(Str(current));
    assert Prop(body, "newPassword") == Some(Str(next));
    assert Prop(Obj(map["id" := users[i].id]), "id") == Some(users[i].id);
    saved := users[i := users[i].(password := hasher.hash(next, HashRounds, salt), updatedAt := Some(now))];
  }

  /** The body of a login request. */
  function Credentials(name: string, password: string): Value
  {
    Obj(map["username" := Str(name), "password" := Str(password)])
  }

  lemma CredentialsRead(name: string, password: string)
    ensures Prop(Credentials(name, password), "username") == Some(Str(name))
    ensures Prop(Credentials(name, password), "password") == Some(Str(password))
  {
  }

  /** A login whose name finds user `i` succeeds exactly when the password
      matches that user's hash. */
  lemma LoginAtIndex(lib: TokenLibrary, hasher: PasswordHasher, users: seq<User>, i: nat, name: string, password: string, now: string, clock: int)
    requires i < |users| && name != "" && password != ""
    requires First(users, ByLogin(Str(name))) == Some(i)
    ensures var r := LoginOutcome(lib, hasher, users, Credentials(name, password), now, clock);
            if hasher.compare(password, users[i].password) then r.reply.status == 200 else r.reply == BadCredentials
  {
    CredentialsRead(name, password);
  }

  /** A change that keeps every user name and address keeps the login
      lookup. */
  lemma SameLoginMatch(users: seq<User>, saved: seq<User>, name: Value, i: nat)
    requires |saved| == |users| && i < |users|
    requires forall j :: 0 <= j < |users| ==> saved[j].username == users[j].username && saved[j].email == users[j].email
    requires First(users, ByLogin(name)) == Some(i)
    ensures First(saved, ByLogin(name)) == Some(i)
  {
    var f := First(saved, ByLogin(name));
    assert Matches(saved[i], ByLogin(name));
    if f.Some? && f.value != i {
      assert Matches(users[f.value], ByLogin(name));
    }
  }

  // ---- The users file ----

  /** The users file and whether the process may write it. */
  class AccountStore {
    var file: UsersFile
    const writable: bool

    constructor (file: UsersFile, writable: bool)
      ensures this.file == file && this.writable == writable
    {
      this.file := file;
      this.writable := writable;
    }

    /** `loadUsers()`. */
    method LoadUsers() returns (users: seq<User>)
      ensures users == Loaded(file)
    {
      if file.Stored? {
        users := file.users;
      } else {
        users := [];
      }
    }

    /** `saveUsers(users)`: a failed write is reported, not raised. */
    method SaveUsers(users: seq<User>) returns (ok: bool)
      modifies this
      ensures ok == writable
      ensures file == if writable then Stored(users) else old(file)
    {
      if writable {
        file := Stored(users);
        ok := true;
      } else {
        ok := false;
      }
    }

    /** `initializeAuth()`: only an absent users file is created, holding
        the default administrator; a failure is only logged. */
    method InitializeAuth(hasher: PasswordHasher, salt: string, now: string)
      modifies this
      ensures file == if old(file).Absent? && writable then Stored(InitialUsers(hasher, salt, now)) else old(file)
    {
      if file.Absent? {
        var users := InitialUsers(hasher, salt, now);
        var _ := SaveUsers(users);
      }
    }

    /** `loginHandler`. */
    method Login(lib: TokenLibrary, hasher: PasswordHasher, body: Value, now: string, clock: int) returns (reply: Reply)
      modifies this
      ensures var r := LoginOutcome(lib, hasher, Loaded(old(file)), body, now, clock);
              reply == r.reply && file == if r.saved.Some? && writable then Stored(r.saved.value) else old(file)
    {
      var name := Prop(body, "username");
      var password := Prop(body, "password");
      if !Present(name) || !Present(password) {
        return MissingCredentials;
      }
      var users := LoadUsers();
      var found := First(users, ByLogin(name.value));
      if found.None? {
        return BadCredentials;
      }
      var i := found.value;
      if !password.value.Str? {
        return ServerError;
      }
      if !hasher.compare(password.value.s, users[i].password) {
        return BadCredentials;
      }
      var user := users[i].(lastLogin := Some(now));
      users := users[i := user];
      var _ := SaveUsers(users);
      reply := LoginReply(GenerateToken(lib, user, clock), user);
    }

    /** `getCurrentUser`: changes nothing. */
    method GetCurrentUser(claims: Option<Value>) returns (reply: Reply)
      ensures reply == CurrentUserReply(Loaded(file), claims)
    {
      var users := LoadUsers();
      reply := CurrentUserReply(users, claims);
    }

    /** `changePasswordHandler`. */
    method ChangePassword(hasher: PasswordHasher, body: Value, claims: Option<Value>, salt: string, now: string) returns (reply: Reply)
      modifies this
      ensures var r := ChangeOutcome(hasher, Loaded(old(file)), body, claims, salt, now);
              reply == r.reply && file == if r.saved.Some? && writable then Stored(r.saved.value) else old(file)
    {
      var current := Prop(body, "currentPassword");
      var next := Prop(body, "newPassword");
      if !Present(current) || !Present(next) {
        return MissingPasswords;
      }
      if Length(next.value).Some? && Length(next.value).value < MinPasswordLength {
        return PasswordTooShort;
      }
      var users := LoadUsers();
      if users != [] && (claims.None? || claims.value.Null?) {
        return ServerError;
      }
      var id := if claims.Some? then Prop(claims.value, "id") else None;
      var found := First(users, ById(id));
      if found.None? {
        return UserNotFound;
      }
      var i := found.value;
      if !current.value.Str? {
        return ServerError;
      }
      if !hasher.compare(current.value.s, users[i].password) {
        return WrongCurrentPassword;
      }
      if !next.value.Str? {
        return ServerError;
      }
      var user := users[i].(password := hasher.hash(next.value.s, HashRounds, salt), updatedAt := Some(now));
      users := users[i := user];
      var _ := SaveUsers(users);
      reply := PasswordChanged;
    }
  }

  /** On a fresh installation the default administrator can log in with
      the default password. */
  lemma DefaultAdminLogsIn(lib: TokenLibrary, hasher: PasswordHasher, salt: string, created: string, now: string, clock: int)
    requires SoundHasher(hasher)
    ensures LoginOutcome(lib, hasher, InitialUsers(hasher, salt, created), Credentials(DefaultUsername, DefaultPassword), now, clock).reply.status == 200
  {
    var users := InitialUsers(hasher, salt, created);
    CredentialsRead(DefaultUsername, DefaultPassword);
    assert Matches(users[0], ByLogin(Str(DefaultUsername)));
    OwnHashMatches(hasher, DefaultPassword, HashRounds, salt);
  }
}
