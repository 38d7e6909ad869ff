/**
 * Agent and server together: a token the server issues, as the agent's
 * expiry pre-check (client/auth/core.py) and the server's websocket gate
 * (server/auth) judge it.
 */
module Handshake {
  import opened Wrappers
  import opened Jwt
  import ClientAuth
  import ServerAuth
  import AuthRouter

  /**
   * With a buffer of at least one second, a token the agent's pre-check
   * still accepts is accepted by the server's verifier under the signing key.
   */
  lemma PrecheckAgreesWithServer(token: Token, now: int, buffer: int, cfg: ServerAuth.AuthConfig)
    requires buffer >= 1 && token.Signed? && token.key == cfg.jwtKey
    requires !ClientAuth.IsTokenExpired(token, now, buffer)
    ensures ServerAuth.VerifyAccessToken(token, now, cfg).Some?
  {
  }

  /**
   * A token from `get_token` under the shipped 60-minute lifetime passes the
   * agent's default pre-check exactly during the first 3600 seconds.
   */
  lemma IssuedTokenLifetime(req: AuthRouter.TokenRequest, issuedAt: int, now: int, cfg: ServerAuth.AuthConfig)
    requires req.password == cfg.agentAuthPass
    requires cfg.accessTokenExpireMinutes == ServerAuth.DefaultExpireMinutes
    ensures AuthRouter.GetToken(req, issuedAt, cfg).Success?
    ensures var token := AuthRouter.GetToken(req, issuedAt, cfg).value.data["access_token"].token;
      !ClientAuth.IsTokenExpiredDefault(token, now) <==> now < issuedAt + 3600
  {
    var token := AuthRouter.GetToken(req, issuedAt, cfg).value.data["access_token"].token;
    assert ServerAuth.ExpiryOf(None, issuedAt, cfg) == issuedAt + 3600;
    assert token.claims["exp"] == CInt(issuedAt + 3600);
  }
}
