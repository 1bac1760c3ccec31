/** Password hashing (bcrypt) and session tokens (JSON Web Tokens, RFC 7519) as abstract
    values. The model keeps what the handlers observe: bcrypt keys on the first 72 bytes
    of the password's UTF-8 encoding, so a hash verifies the password it was made from,
    no shorter different one, and every password that shares those 72 bytes; a token
    carries its claims, when it was issued and when it expires. */
module Crypto {
  import opened Wrappers
  import opened Unicode

  /** The number of key bytes bcrypt uses; the rest of a longer password is ignored. */
  const LongitudClave: nat := 72

  /** The bytes bcrypt keys on. */
  function Clave(password: string): (k: seq<Byte>)
    ensures |Utf8(password)| <= LongitudClave ==> k == Utf8(password)
    ensures |Utf8(password)| > LongitudClave ==> k == Utf8(password)[..LongitudClave]
  {
    var b := Utf8(password);
    if |b| <= LongitudClave then b else b[..LongitudClave]
  }

  /** A salted bcrypt hash; salt and cost factor are not modelled. */
  datatype PasswordHash = Bcrypt(clave: seq<Byte>)

  /** `bcrypt.hash(password, 10)`: it depends on at most 72 bytes, and on the whole
      password when it is that short. */
  function Hash(password: string): (h: PasswordHash)
    ensures |h.clave| <= LongitudClave
    ensures |Utf8(password)| <= LongitudClave ==> h.clave == Utf8(password)
    ensures |Utf8(password)| > LongitudClave ==> h.clave == Utf8(password)[..LongitudClave]
  {
    Bcrypt(Clave(password))
  }

  /** `bcrypt.compare(password, hash)`: a hash verifies the password it was made from. */
  function Verify(password: string, hash: PasswordHash): (r: bool)
    ensures hash == Hash(password) ==> r
  {
    hash.clave == Clave(password)
  }

  /** Two passwords bcrypt cannot tell apart: equal, or both at least 72 bytes long and
      equal in their first 72. */
  predicate Equivalentes(p: string, q: string) {
    || p == q
    || (&& |Utf8(p)| >= LongitudClave && |Utf8(q)| >= LongitudClave
        && Utf8(p)[..LongitudClave] == Utf8(q)[..LongitudClave])
  }

  /** The hash of `p` verifies `q` exactly when the two cannot be told apart; in
      particular a password shorter than 72 bytes is verified by itself alone. */
  lemma VerifyHash(p: string, q: string)
    ensures Verify(q, Hash(p)) <==> Equivalentes(p, q)
    ensures |Utf8(p)| < LongitudClave ==> (Verify(q, Hash(p)) <==> p == q)
  {
    var bp, bq := Utf8(p), Utf8(q);
    if Verify(q, Hash(p)) {
      assert Clave(q) == Clave(p);
      if |bp| < LongitudClave {
        assert |Clave(q)| < LongitudClave;
        assert bq == bp;
        Utf8Inyectiva(p, q);
      } else {
        assert |Clave(q)| == LongitudClave;
        assert bp[..LongitudClave] == Clave(p) && bq[..LongitudClave] == Clave(q);
      }
    }
    if Equivalentes(p, q) && p != q {
      assert Clave(p) == bp[..LongitudClave] && Clave(q) == bq[..LongitudClave];
    }
  }

  /** Whatever follows 72 bytes of a password is ignored: the hash of `p` verifies `p`
      followed by anything. */
  lemma HashIgnoraCola(p: string, cola: string)
    requires |Utf8(p)| >= LongitudClave
    ensures Verify(p + cola, Hash(p))
  {
    Utf8Append(p, cola);
    assert Utf8(p + cola)[..LongitudClave] == Utf8(p)[..LongitudClave];
  }

  /** The claims the login handler signs. */
  datatype Claims = Claims(userId: int, email: Option<string>)

  /** A signed token: the claims and the `iat` and `exp` times, in seconds. */
  datatype Token = Jwt(claims: Claims, iat: int, exp: int)

  /** `expiresIn: '24h'`, in seconds. */
  const Expiry: nat := 24 * 60 * 60

  /** `jwt.sign(claims, secret, { expiresIn: '24h' })` at time `now`: the token carries the
      claims, is issued now and expires 24 hours later. The secret is configuration. */
  function Sign(claims: Claims, now: int): (t: Token)
    ensures t.claims == claims && t.iat == now
    ensures t.exp - t.iat == 86400
  {
    Jwt(claims, now, now + Expiry)
  }
}
