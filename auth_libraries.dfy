// A token library and a password hasher that do what the authentication
// layer relies on, which shows that what it relies on can be had: the
// token writes the issue time, the lifetime and the four claims one after
// the other, each string behind its length in unary, and the hash is the
// bcrypt key itself.
module AuthLibraries {
  import opened Wrappers
  import opened JsValue
  import opened Unicode
  import Auth

  // ---- Token text ----

  /** `n` written as `n` bars and a `;`. */
  function Unary(n: nat): (r: string)
    ensures |r| == n + 1
  {
    if n == 0 then ";" else "|" + Unary(n - 1)
  }

  /** The number at the start of `t` and what follows it. */
  function ReadUnary(t: string): (r: Option<(nat, string)>)
    ensures r.Some? ==> |r.value.1| < |t|
  {
    if t == [] then None
    else if t[0] == ';' then Some((0, t[1..]))
    else if t[0] == '|' then
      match ReadUnary(t[1..])
      case None => None
      case Some((n, rest)) => Some((n + 1, rest))
    else None
  }

  lemma {:induction false} UnaryRead(n: nat, rest: string)
    ensures ReadUnary(Unary(n) + rest) == Some((n, rest))
  {
    var t := Unary(n) + rest;
    if n == 0 {
      assert t[0] == ';' && t[1..] == rest;
    } else {
      assert t[0] == '|' && t[1..] == Unary(n - 1) + rest;
      UnaryRead(n - 1, rest);
    }
  }

  /** A string behind its length. */
  function Field(s: string): string
  {
    Unary(|s|) + s
  }

  function ReadField(t: string): Option<(string, string)>
  {
    match ReadUnary(t)
    case None => None
    case Some((n, rest)) => if n <= |rest| then Some((rest[..n], rest[n..])) else None
  }

  lemma FieldRead(s: string, rest: string)
    ensures ReadField(Field(s) + rest) == Some((s, rest))
  {
    assert Field(s) + rest == Unary(|s|) + (s + rest);
    UnaryRead(|s|, s + rest);
    assert (s + rest)[..|s|] == s && (s + rest)[|s|..] == rest;
  }

  /** A whole number: its sign, then its size. */
  function Whole(i: int): (r: string)
    ensures r != []
  {
    if i < 0 then "-" + Unary(-i) else "+" + Unary(i)
  }

  function ReadWhole(t: string): Option<(int, string)>
  {
    if t == [] || (t[0] != '-' && t[0] != '+') then None
    else
      match ReadUnary(t[1..])
      case None => None
      case Some((n, rest)) =>
        var i: int := if t[0] == '-' then -(n as int) else n;
        Some((i, rest))
  }

  lemma WholeRead(i: int, rest: string)
    ensures ReadWhole(Whole(i) + rest) == Some((i, rest))
  {
    var t := Whole(i) + rest;
    var n := if i < 0 then -i else i;
    assert t[1..] == Unary(n) + rest;
    UnaryRead(n, rest);
  }

  /** An id: `n` for `null`, `s` and the string, or `i` and the number. */
  function IdText(v: Value): string
  {
    if v.Null? then "n"
    else if v.Str? then "s" + Field(v.s)
    else if v.Num? then "i" + Whole(v.n.Floor)
    else "o"
  }

  function ReadId(t: string): Option<(Value, string)>
  {
    if t == [] then None
    else if t[0] == 'n' then Some((Null, t[1..]))
    else if t[0] == 's' then
      match ReadField(t[1..])
      case None => None
      case Some((s, rest)) => Some((Str(s), rest))
    else if t[0] == 'i' then
      match ReadWhole(t[1..])
      case None => None
      case Some((k, rest)) => Some((Num(k as real), rest))
    else None
  }

  lemma IdRead(v: Value, rest: string)
    requires Auth.JsonId(v)
    ensures ReadId(IdText(v) + rest) == Some((v, rest))
  {
    if v.Str? {
      StringIdRead(v.s, rest);
    } else if v.Num? {
      NumberIdRead(v.n, rest);
    } else {
      assert (IdText(v) + rest)[1..] == rest;
    }
  }

  lemma StringIdRead(s: string, rest: string)
    ensures ReadId(IdText(Str(s)) + rest) == Some((Str(s), rest))
  {
    var t := IdText(Str(s)) + rest;
    assert t[0] == 's' && t[1..] == Field(s) + rest;
    FieldRead(s, rest);
  }

  lemma NumberIdRead(n: real, rest: string)
    requires IsIntegral(n)
    ensures ReadId(IdText(Num(n)) + rest) == Some((Num(n), rest))
  {
    var t := IdText(Num(n)) + rest;
    assert t[0] == 'i' && t[1..] == Whole(n.Floor) + rest;
    WholeRead(n.Floor, rest);
  }

  // ---- The token library ----

  function Member(payload: Value, key: string): Value
  {
    if payload.Obj? && key in payload.fields then payload.fields[key] else Null
  }

  function TextOf(v: Value): string
  {
    if v.Str? then v.s else ""
  }

  /** The token of a payload: the times, then the claims. The secret is
      not used. */
  function Sign(payload: Value, lifetime: int, issuedAt: int): (t: string)
    ensures t != []
  {
    Whole(issuedAt) + Whole(lifetime) + ClaimsText(payload)
  }

  /** The id, the user name, the address and the role of a payload. */
  function ClaimsText(payload: Value): string
  {
    IdText(Member(payload, "id")) + ProfileText(TextOf(Member(payload, "username")), TextOf(Member(payload, "email")),
                                                TextOf(Member(payload, "role")))
  }

  function ProfileText(name: string, email: string, role: string): string
  {
    Field(name) + Field(email) + Field(role)
  }

  /** What a token verifies to at `now`: the claims read back, stamped, as
      long as the token has not expired. */
  function Verify(t: string, now: int): Option<Value>
  {
    match ReadWhole(t)
    case None => None
    case Some((issuedAt, t1)) =>
      match ReadWhole(t1)
      case None => None
      case Some((lifetime, t2)) =>
        match ReadClaims(t2)
        case None => None
        case Some(claims) => if now < issuedAt + lifetime then Some(Auth.Stamped(claims, issuedAt, lifetime)) else None
  }

  function ReadClaims(t: string): Option<Value>
  {
    match ReadId(t)
    case None => None
    case Some((id, rest)) =>
      match ReadProfile(rest)
      case None => None
      case Some((name, email, role)) =>
        Some(Obj(map["id" := id, "username" := Str(name), "email" := Str(email), "role" := Str(role)]))
  }

  function ReadProfile(t: string): Option<(string, string, string)>
  {
    match ReadField(t)
    case None => None
    case Some((name, t1)) =>
      match ReadField(t1)
      case None => None
      case Some((email, t2)) =>
        match ReadField(t2)
        case None => None
        case Some((role, _)) => Some((name, email, role))
  }

  lemma ProfileRead(name: string, email: string, role: string)
    ensures ReadProfile(ProfileText(name, email, role)) == Some((name, email, role))
  {
    var t2 := Field(role) + [];
    var t1 := Field(email) + t2;
    assert ProfileText(name, email, role) == Field(name) + t1;
    FieldRead(name, t1);
    FieldRead(email, t2);
    FieldRead(role, []);
  }

  lemma ClaimsRead(u: Auth.User)
    requires Auth.JsonId(u.id)
    ensures ReadClaims(ClaimsText(Auth.Claims(u))) == Some(Auth.Claims(u))
  {
    var c := Auth.Claims(u);
    assert Member(c, "id") == u.id && TextOf(Member(c, "username")) == u.username;
    assert TextOf(Member(c, "email")) == u.email && TextOf(Member(c, "role")) == u.role;
    IdRead(u.id, ProfileText(u.username, u.email, u.role));
    ProfileRead(u.username, u.email, u.role);
  }

  /** The token of a user's claims reads back to them until it expires. */
  lemma SignVerifies(u: Auth.User, lifetime: int, issuedAt: int, now: int)
    requires Auth.JsonId(u.id)
    ensures Verify(Sign(Auth.Claims(u), lifetime, issuedAt), now)
            == (if now < issuedAt + lifetime then Some(Auth.Stamped(Auth.Claims(u), issuedAt, lifetime)) else None)
  {
    var t2 := ClaimsText(Auth.Claims(u));
    var t1 := Whole(lifetime) + t2;
    var t := Sign(Auth.Claims(u), lifetime, issuedAt);
    assert t == Whole(issuedAt) + t1;
    WholeRead(issuedAt, t1);
    WholeRead(lifetime, t2);
    ClaimsRead(u);
    VerifyOf(t, t1, t2, issuedAt, lifetime, Auth.Claims(u), now);
  }

  /** A token whose times and claims read back verifies to those claims
      until it expires. */
  lemma VerifyOf(t: string, t1: string, t2: string, issuedAt: int, lifetime: int, claims: Value, now: int)
    requires ReadWhole(t) == Some((issuedAt, t1)) && ReadWhole(t1) == Some((lifetime, t2))
    requires ReadClaims(t2) == Some(claims)
    ensures Verify(t, now) == if now < issuedAt + lifetime then Some(Auth.Stamped(claims, issuedAt, lifetime)) else None
  {
  }

  function Tokens(): Auth.TokenLibrary
  {
    Auth.TokenLibrary((payload, secret, lifetime, issuedAt) => Sign(payload, lifetime, issuedAt),
                      (t, secret, now) => Verify(t, now))
  }

  /** The token library above is sound. */
  lemma TokensSound()
    ensures Auth.SoundTokens(Tokens())
  {
    var lib := Tokens();
    forall u: Auth.User, secret, lifetime, issuedAt, now | Auth.JsonId(u.id)
      ensures lib.verify(lib.sign(Auth.Claims(u), secret, lifetime, issuedAt), secret, now)
              == (if now < issuedAt + lifetime then Some(Auth.Stamped(Auth.Claims(u), issuedAt, lifetime)) else None)
    {
      SignVerifies(u, lifetime, issuedAt, now);
    }
  }

  // ---- The password hasher ----

  /** The hash of a password: its bcrypt key, one character per byte. */
  function HashText(password: string): (h: string)
    ensures |h| == 72
  {
    var k := Auth.BcryptKey(password);
    seq(72, i requires 0 <= i < 72 => k[i] as char)
  }

  function Hasher(): Auth.PasswordHasher
  {
    Auth.PasswordHasher((password, rounds, salt) => HashText(password), (candidate, hash) => hash == HashText(candidate))
  }

  /** Two hashes are equal exactly when the keys are. */
  lemma HashTextIff(p: string, q: string)
    ensures HashText(p) == HashText(q) <==> Auth.BcryptKey(p) == Auth.BcryptKey(q)
  {
    var kp, kq := Auth.BcryptKey(p), Auth.BcryptKey(q);
    if HashText(p) == HashText(q) {
      forall i | 0 <= i < 72
        ensures kp[i] == kq[i]
      {
        assert HashText(p)[i] == HashText(q)[i];
        assert (kp[i] as char) as int == kp[i];
      }
    }
  }

  /** The hasher above is sound. */
  lemma HasherSound()
    ensures Auth.SoundHasher(Hasher())
  {
    var h := Hasher();
    forall password, rounds, salt, candidate
      ensures h.compare(candidate, h.hash(password, rounds, salt)) <==> Auth.BcryptKey(candidate) == Auth.BcryptKey(password)
    {
      HashTextIff(password, candidate);
    }
  }
}
