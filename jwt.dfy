/**
 * The JSON Web Token layer, kept abstract: a token is either the claims it
 * carries together with the key that signed it, or any other string. Checking
 * an HS256 signature is modelled as comparing keys; the verified decoder also
 * rejects a token whose `exp` NumericDate is not after the current time
 * (section 4.1.4 of RFC 7519). Times are whole seconds since the epoch.
 */
module Jwt {
  import opened Wrappers

  /** A claim value: the JSON scalars the core produces or inspects. */
  datatype Claim = CStr(s: string) | CInt(i: int) | CNull

  type Claims = map<string, Claim>

  datatype Token =
    | Signed(claims: Claims, key: string)  // what `jwt.encode(claims, key)` returns
    | Garbage(text: string)                // any string that is not a well-formed token

  /** `jwt.encode(claims, key, algorithm)`. */
  function Encode(claims: Claims, key: string): (t: Token)
    ensures DecodeUnverified(t) == Some(claims)
    ensures forall now :: Decode(t, key, now).Some? <==> ExpAccepts(claims, now)
  {
    Signed(claims, key)
  }

  /** `jwt.decode(token, options={"verify_signature": False})`: structure only. */
  function DecodeUnverified(t: Token): (r: Option<Claims>)
    ensures r.Some? <==> t.Signed?
  {
    if t.Signed? then Some(t.claims) else None
  }

  /** The `exp` check of the verified decoder: absent, or an integer strictly after `now`. */
  predicate ExpAccepts(claims: Claims, now: int)
  {
    "exp" !in claims || (claims["exp"].CInt? && now < claims["exp"].i)
  }

  /** `jwt.decode(token, key, algorithms=[...])`; every `PyJWTError` becomes `None`. */
  function Decode(t: Token, key: string, now: int): (r: Option<Claims>)
    ensures r.Some? <==> t.Signed? && t.key == key && ExpAccepts(t.claims, now)
    ensures r.Some? ==> r == DecodeUnverified(t)
  {
    if t.Signed? && t.key == key && ExpAccepts(t.claims, now) then Some(t.claims) else None
  }

  /** Python truthiness of the token string: only the empty string is falsy. */
  predicate Truthy(t: Token)
  {
    t != Garbage("")
  }
}
