/**
 * server/auth/router.py: `POST /get_token` and the `/ws/{system_uuid}`
 * websocket endpoint with its ordered checks (close codes 4001 and 4002 are
 * in the private-use range of section 7.4.2 of RFC 6455).
 */
module AuthRouter {
  import opened Wrappers
  import opened Jwt
  import opened ServerAuth
  import opened JsonResponse
  import StatusStore
  import WsManager

  /** The `TokenRequest` body. */
  datatype TokenRequest = TokenRequest(systemUuid: string, password: string)

  /** A value of the `get_token` result dictionary. */
  datatype Field = FStr(s: string) | FToken(token: Token)

  /** FastAPI's `HTTPException(status_code, detail)`. */
  datatype HttpException = HttpException(statusCode: int, detail: string)

  /** `get_token` under `@json_response(status_code=200)`; the exception passes through the decorator. */
  function GetToken(req: TokenRequest, now: int, cfg: AuthConfig): (r: Result<Envelope<Field>, HttpException>)
    ensures r.Failure? <==> req.password != cfg.agentAuthPass
    ensures r.Failure? ==> r.error == HttpException(400, "Invalid credentials")
    ensures r.Success? ==>
      r.value.httpStatus == 200 && r.value.status == "ok" && r.value.message == Text("success")
      && r.value.data.Keys == {"access_token", "token_type"}
      && r.value.data["token_type"] == FStr("bearer")
      && r.value.data["access_token"] == FToken(CreateAccessToken(map["system_uuid" := CStr(req.systemUuid)], None, now, cfg))
  {
    if !ValidateAgentCredentials(req.systemUuid, req.password, cfg) then
      Failure(HttpException(400, "Invalid credentials"))
    else
      var token := CreateAccessToken(map["system_uuid" := CStr(req.systemUuid)], None, now, cfg);
      Success(Wrap(200, DictResult(map["access_token" := FToken(token), "token_type" := FStr("bearer")])))
  }

  /** What the websocket endpoint does with a new session. */
  datatype GateDecision = CloseWith(code: int) | Register

  /** Python truthiness of the `org` query parameter. */
  predicate OrgGiven(org: Option<string>)
  {
    org.Some? && org.value != ""
  }

  /** The checks of `websocket_endpoint`, in order: token, uuid match, org. */
  function Gate(systemUuid: string, token: Token, org: Option<string>, now: int, cfg: AuthConfig): (d: GateDecision)
    ensures d == CloseWith(4001) <==>
      VerifyAccessToken(token, now, cfg).None?
      || !VerifyAgentUuid(systemUuid, Get(VerifyAccessToken(token, now, cfg).value, "system_uuid"))
    ensures d == CloseWith(4002) <==>
      VerifyAccessToken(token, now, cfg).Some?
      && VerifyAgentUuid(systemUuid, Get(VerifyAccessToken(token, now, cfg).value, "system_uuid"))
      && !OrgGiven(org)
    ensures d == Register <==>
      VerifyAccessToken(token, now, cfg).Some?
      && VerifyAgentUuid(systemUuid, Get(VerifyAccessToken(token, now, cfg).value, "system_uuid"))
      && OrgGiven(org)
  {
    match VerifyAccessToken(token, now, cfg)
    case None => CloseWith(4001)
    case Some(payload) =>
      if !VerifyAgentUuid(systemUuid, Get(payload, "system_uuid")) then CloseWith(4001)
      else if !OrgGiven(org) then CloseWith(4002)
      else Register
  }

  /** The token check comes first: a bad token is refused with 4001 whatever the org. */
  lemma BadTokenBeatsMissingOrg(systemUuid: string, token: Token, now: int, cfg: AuthConfig)
    requires VerifyAccessToken(token, now, cfg).None?
    ensures Gate(systemUuid, token, None, now, cfg) == CloseWith(4001)
    ensures Gate(systemUuid, token, Some(""), now, cfg) == CloseWith(4001)
  {
  }

  /**
   * The token `get_token` issues opens the websocket for its own uuid with a
   * non-empty org until it expires, and is refused with 4001 for any other uuid.
   */
  lemma IssuedTokenPassesGate(req: TokenRequest, issuedAt: int, now: int, cfg: AuthConfig, org: string, other: string)
    requires req.password == cfg.agentAuthPass && org != "" && other != req.systemUuid
    requires now < issuedAt + 60 * cfg.accessTokenExpireMinutes
    ensures GetToken(req, issuedAt, cfg).Success?
    ensures var token := GetToken(req, issuedAt, cfg).value.data["access_token"].token;
      Gate(req.systemUuid, token, Some(org), now, cfg) == Register
      && Gate(other, token, Some(org), now, cfg) == CloseWith(4001)
  {
    var claims := map["system_uuid" := CStr(req.systemUuid)];
    CreateThenVerify(claims, None, issuedAt, now, cfg);
  }

  /**
   * `websocket_endpoint`: a refused session is closed with its code and never
   * reaches the registry or the store; an admitted one is registered, served
   * until it ends, and unregistered by `receive_data`.
   */
  method WebsocketEndpoint(mgr: WsManager.WSManager, ws: WsManager.WebSocket, systemUuid: string, token: Token,
                           org: Option<string>, now: int, endedAt: int, cfg: AuthConfig,
                           connectWriteFails: bool, disconnectWriteFails: bool)
    requires ws.received <= |ws.inbox|
    modifies ws, mgr`activeConnections, mgr`disconnectCalls, mgr.mongo.db
    ensures Gate(systemUuid, token, org, now, cfg).CloseWith? ==>
      ws.closeCode == Some(Gate(systemUuid, token, org, now, cfg).code)
      && ws.accepted == old(ws.accepted) && ws.received == old(ws.received)
      && mgr.activeConnections == old(mgr.activeConnections)
      && mgr.disconnectCalls == old(mgr.disconnectCalls)
      && (mgr.mongo.db != null ==> mgr.mongo.db.agentStatus == old(mgr.mongo.db.agentStatus))
    ensures Gate(systemUuid, token, org, now, cfg) == Register ==>
      ws.accepted && ws.closeCode == old(ws.closeCode) && ws.received == |ws.inbox|
      && mgr.activeConnections == old(mgr.activeConnections) - {systemUuid}
      && mgr.disconnectCalls == old(mgr.disconnectCalls) + [systemUuid]
    ensures (Gate(systemUuid, token, org, now, cfg) == Register && mgr.mongo.db != null
             && !connectWriteFails && !disconnectWriteFails) ==>
      systemUuid in mgr.mongo.db.agentStatus
      && mgr.mongo.db.agentStatus[systemUuid] == StatusStore.StatusRecord(org.value, StatusStore.Disconnected, now, Some(endedAt))
  {
    var decision := Gate(systemUuid, token, org, now, cfg);
    if decision.CloseWith? {
      ws.Close(decision.code);
      return;
    }
    mgr.Connect(ws, systemUuid, org.value, now, connectWriteFails);
    mgr.ReceiveData(ws, systemUuid, endedAt, disconnectWriteFails);
  }
}
