/**
 * server/auth/core.py: the agent password check and the issuing and checking
 * of access tokens. The clock reading is an input in whole seconds; signing
 * is the abstract `Jwt` layer.
 */
module ServerAuth {
  import opened Wrappers
  import opened Jwt

  /** The configuration values the auth code reads. */
  datatype AuthConfig = AuthConfig(agentAuthPass: string, jwtKey: string, accessTokenExpireMinutes: int)

  /** `ACCESS_TOKEN_EXPIRE_MINUTES` as shipped in server/config/config.py. */
  const DefaultExpireMinutes := 60

  /** `validate_agent_credentials`: only the password is compared; the uuid is not used. */
  function ValidateAgentCredentials(systemUuid: string, password: string, cfg: AuthConfig): (ok: bool)
    ensures ok <==> password == cfg.agentAuthPass
  {
    password == cfg.agentAuthPass
  }

  /** The uuid plays no part in the credential check. */
  lemma CredentialsIgnoreUuid(u1: string, u2: string, password: string, cfg: AuthConfig)
    ensures ValidateAgentCredentials(u1, password, cfg) == ValidateAgentCredentials(u2, password, cfg)
  {
  }

  /**
   * The `exp` of a new token: `now + expires_delta` when the delta is truthy
   * (present and not zero), else `now` plus the configured minutes.
   */
  function ExpiryOf(expiresDelta: Option<int>, now: int, cfg: AuthConfig): (exp: int)
    ensures expiresDelta.Some? && expiresDelta.value != 0 ==> exp - now == expiresDelta.value
    ensures expiresDelta.None? || expiresDelta.value == 0 ==> exp - now == 60 * cfg.accessTokenExpireMinutes
  {
    if expiresDelta.Some? && expiresDelta.value != 0 then now + expiresDelta.value
    else now + 60 * cfg.accessTokenExpireMinutes
  }

  /**
   * `create_access_token`: a copy of `data` with `exp` added (replacing any
   * `exp` already there), signed with the configured key.
   */
  function CreateAccessToken(data: Claims, expiresDelta: Option<int>, now: int, cfg: AuthConfig): (t: Token)
    ensures DecodeUnverified(t).Some?
    ensures DecodeUnverified(t).value.Keys == data.Keys + {"exp"}
    ensures DecodeUnverified(t).value["exp"] == CInt(ExpiryOf(expiresDelta, now, cfg))
    ensures forall k :: k in data && k != "exp" ==> DecodeUnverified(t).value[k] == data[k]
  {
    Encode(data["exp" := CInt(ExpiryOf(expiresDelta, now, cfg))], cfg.jwtKey)
  }

  /** `verify_access_token`: the decoded payload, or None for every decoding error. */
  function VerifyAccessToken(token: Token, now: int, cfg: AuthConfig): (r: Option<Claims>)
    ensures r.Some? <==> token.Signed? && token.key == cfg.jwtKey && ExpAccepts(token.claims, now)
    ensures r.Some? ==> r == DecodeUnverified(token)
  {
    Decode(token, cfg.jwtKey, now)
  }

  /** `payload.get(key)`. */
  function Get(claims: Claims, key: string): (r: Option<Claim>)
    ensures r.Some? <==> key in claims
    ensures r.Some? ==> r.value == claims[key]
  {
    if key in claims then Some(claims[key]) else None
  }

  /** `verify_agent_uuid`: Python `==` of the path uuid and the claim (a `str` equals only the same `str`). */
  function VerifyAgentUuid(systemUuid: string, tokenUuid: Option<Claim>): (ok: bool)
    ensures ok <==> tokenUuid == Some(CStr(systemUuid))
  {
    match tokenUuid
    case Some(CStr(s)) => s == systemUuid
    case _ => false
  }

  /**
   * Round trip: a token just created verifies, with the same configuration,
   * exactly until its `exp`, and then yields the input claims plus `exp`.
   */
  lemma CreateThenVerify(data: Claims, expiresDelta: Option<int>, now: int, later: int, cfg: AuthConfig)
    ensures var exp := ExpiryOf(expiresDelta, now, cfg);
      VerifyAccessToken(CreateAccessToken(data, expiresDelta, now, cfg), later, cfg).Some? <==> later < exp
    ensures var exp := ExpiryOf(expiresDelta, now, cfg);
      later < exp ==>
        VerifyAccessToken(CreateAccessToken(data, expiresDelta, now, cfg), later, cfg) == Some(data["exp" := CInt(exp)])
  {
  }

  /** A token signed under another key never verifies. */
  lemma OtherKeyRejected(data: Claims, expiresDelta: Option<int>, now: int, later: int, cfg: AuthConfig, other: AuthConfig)
    requires other.jwtKey != cfg.jwtKey
    ensures VerifyAccessToken(CreateAccessToken(data, expiresDelta, now, cfg), later, other) == None
  {
  }

  /** A zero delta is falsy and falls back to the configured lifetime; with the shipped configuration it is an hour. */
  lemma ZeroDeltaUsesDefault(now: int, cfg: AuthConfig)
    ensures ExpiryOf(Some(0), now, cfg) == ExpiryOf(None, now, cfg)
    ensures cfg.accessTokenExpireMinutes == DefaultExpireMinutes ==> ExpiryOf(None, now, cfg) == now + 3600
  {
  }
}
