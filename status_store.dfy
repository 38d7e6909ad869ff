/**
 * The `agent_status` collection the server writes on every websocket connect
 * and disconnect (server/comms/ws_manager.py), as a map from `system_uuid` to
 * its document. Times are whole seconds supplied by the caller.
 */
module StatusStore {
  import opened Wrappers

  datatype Status = Connected | Disconnected

  /** One document: `org`, `status`, `connected_at`, `last_disconnected`. */
  datatype StatusRecord = StatusRecord(org: string, status: Status, connectedAt: int, lastDisconnected: Option<int>)

  type Collection = map<string, StatusRecord>

  /**
   * `update_one({system_uuid}, {$set: {org, status: "connected", connected_at},
   * $setOnInsert: {last_disconnected: None}}, upsert=True)`.
   */
  function LogConnection(c: Collection, uuid: string, org: string, at: int): (r: Collection)
    ensures r.Keys == c.Keys + {uuid}
    ensures r[uuid].org == org && r[uuid].status == Connected && r[uuid].connectedAt == at
    ensures uuid !in c ==> r[uuid].lastDisconnected == None
    ensures uuid in c ==> r[uuid].lastDisconnected == c[uuid].lastDisconnected
    ensures forall k :: k in c && k != uuid ==> r[k] == c[k]
  {
    var last := if uuid in c then c[uuid].lastDisconnected else None;
    c[uuid := StatusRecord(org, Connected, at, last)]
  }

  /** Whether the filter `{system_uuid, status: "connected"}` matches a document. */
  predicate IsConnected(c: Collection, uuid: string)
  {
    uuid in c && c[uuid].status == Connected
  }

  /**
   * `update_one({system_uuid, status: "connected"},
   * {$set: {status: "disconnected", last_disconnected}})`: no upsert, so a
   * document that is absent or already disconnected is left alone.
   */
  function LogDisconnection(c: Collection, uuid: string, at: int): (r: Collection)
    ensures r.Keys == c.Keys
    ensures !IsConnected(r, uuid)
    ensures IsConnected(c, uuid) ==>
      r[uuid] == c[uuid].(status := Disconnected, lastDisconnected := Some(at))
    ensures !IsConnected(c, uuid) ==> r == c
    ensures forall k :: k in c && k != uuid ==> r[k] == c[k]
  {
    if IsConnected(c, uuid) then
      c[uuid := c[uuid].(status := Disconnected, lastDisconnected := Some(at))]
    else c
  }

  /** A second disconnection write finds no "connected" document: no second transition. */
  lemma DisconnectionIdempotent(c: Collection, uuid: string, t1: int, t2: int)
    ensures LogDisconnection(LogDisconnection(c, uuid, t1), uuid, t2) == LogDisconnection(c, uuid, t1)
  {
  }

  /** connect, disconnect, disconnect: one record showing the first disconnection time. */
  lemma ConnectDisconnectDisconnect(c: Collection, uuid: string, org: string, t0: int, t1: int, t2: int)
    ensures var c1 := LogConnection(c, uuid, org, t0);
            var c2 := LogDisconnection(c1, uuid, t1);
            LogDisconnection(c2, uuid, t2) == c2
            && c2[uuid] == StatusRecord(org, Disconnected, t0, Some(t1))
            && c2 - {uuid} == c - {uuid}
  {
    var c1 := LogConnection(c, uuid, org, t0);
    var c2 := LogDisconnection(c1, uuid, t1);
    assert IsConnected(c1, uuid);
    assert c2 - {uuid} == c - {uuid};
  }

  /** A reconnection keeps the last disconnection time; only a first insert sets it to None. */
  lemma ReconnectKeepsLastDisconnected(c: Collection, uuid: string, org: string, t0: int, t1: int, t2: int)
    ensures var c2 := LogDisconnection(LogConnection(c, uuid, org, t0), uuid, t1);
            LogConnection(c2, uuid, org, t2)[uuid].lastDisconnected == Some(t1)
  {
  }
}
