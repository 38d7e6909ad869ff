/**
 * server/comms/ws_manager.py: the registry of live agent websockets and the
 * status records written to MongoDB on connect and disconnect. One session is
 * modelled at a time; clock readings are inputs.
 */
module WsManager {
  import opened Wrappers
  import StatusStore
  import Mongo

  /** How `receive_text` ends a session: the peer left, or any other exception. */
  datatype SessionEnd = PeerDisconnect | ReceiveError

  /**
   * A FastAPI `WebSocket`: the texts the peer sends, then the way the
   * session ends once they have been read.
   */
  class WebSocket {
    const inbox: seq<string>
    const ending: SessionEnd
    var received: nat
    var accepted: bool
    var closeCode: Option<int>

    constructor(inbox: seq<string>, ending: SessionEnd)
      ensures this.inbox == inbox && this.ending == ending
      ensures received == 0 && !accepted && closeCode == None
    {
      this.inbox := inbox;
      this.ending := ending;
      received := 0;
      accepted := false;
      closeCode := None;
    }

    /** `await websocket.accept()`. */
    method Accept()
      modifies this`accepted
      ensures accepted
    {
      accepted := true;
    }

    /** `await websocket.close(code=...)`. */
    method Close(code: int)
      modifies this`closeCode
      ensures closeCode == Some(code)
    {
      closeCode := Some(code);
    }

    /** `await websocket.receive_text()`: the next text, or the session's end. */
    method ReceiveText() returns (r: Result<string, SessionEnd>)
      requires received <= |inbox|
      modifies this`received
      ensures received <= |inbox|
      ensures old(received) < |inbox| ==> r == Success(inbox[old(received)]) && received == old(received) + 1
      ensures old(received) == |inbox| ==> r == Failure(ending) && received == old(received)
    {
      if received < |inbox| {
        r := Success(inbox[received]);
        received := received + 1;
      } else {
        r := Failure(ending);
      }
    }
  }

  class WSManager {
    var activeConnections: map<string, WebSocket>
    var initialized: bool
    /** The shared `mongo_manager_conn` the status writes go through. */
    const mongo: Mongo.MongoManager
    /** The uuids `disconnect` has been called with, in order. */
    ghost var disconnectCalls: seq<string>

    /** `__new__`: an object whose `__init__` has not yet run. */
    constructor(mongo: Mongo.MongoManager)
      ensures this.mongo == mongo && activeConnections == map[] && !initialized && disconnectCalls == []
    {
      this.mongo := mongo;
      activeConnections := map[];
      initialized := false;
      disconnectCalls := [];
    }

    /** `__init__`: the registry is created on the first construction only. */
    method Init()
      modifies this`activeConnections, this`initialized
      ensures old(initialized) ==> activeConnections == old(activeConnections) && initialized
      ensures !old(initialized) ==> activeConnections == map[] && initialized
    {
      if !initialized {
        activeConnections := map[];
        initialized := true;
      }
    }

    /**
     * `connect`: accept, register under the uuid (replacing any earlier
     * socket for it) and record the connection.
     */
    method Connect(ws: WebSocket, systemUuid: string, org: string, now: int, storeFails: bool)
      modifies ws`accepted, this`activeConnections, mongo.db
      ensures ws.accepted
      ensures activeConnections == old(activeConnections)[systemUuid := ws]
      ensures mongo.db != null ==> (mongo.db.agentStatus ==
        if storeFails then old(mongo.db.agentStatus)
        else StatusStore.LogConnection(old(mongo.db.agentStatus), systemUuid, org, now))
    {
      ws.Accept();
      activeConnections := activeConnections[systemUuid := ws];
      LogConnection(systemUuid, org, now, storeFails);
    }

    /**
     * `disconnect`: `pop(system_uuid, None)`; only a uuid that was registered
     * gets a disconnection record, an absent one only a warning.
     */
    method Disconnect(systemUuid: string, now: int, storeFails: bool)
      modifies this`activeConnections, this`disconnectCalls, mongo.db
      ensures activeConnections == old(activeConnections) - {systemUuid}
      ensures disconnectCalls == old(disconnectCalls) + [systemUuid]
      ensures mongo.db != null ==> (mongo.db.agentStatus ==
        if systemUuid !in old(activeConnections) || storeFails then old(mongo.db.agentStatus)
        else StatusStore.LogDisconnection(old(mongo.db.agentStatus), systemUuid, now))
    {
      disconnectCalls := disconnectCalls + [systemUuid];
      var wasActive := systemUuid in activeConnections;
      activeConnections := activeConnections - {systemUuid};
      if wasActive {
        LogDisconnection(systemUuid, now, storeFails);
      }
    }

    /**
     * `receive_data`: read texts until `receive_text` raises; either kind of
     * exception ends in exactly one `disconnect`.
     */
    method ReceiveData(ws: WebSocket, systemUuid: string, now: int, storeFails: bool)
      requires ws.received <= |ws.inbox|
      modifies ws`received, this`activeConnections, this`disconnectCalls, mongo.db
      ensures ws.received == |ws.inbox|
      ensures disconnectCalls == old(disconnectCalls) + [systemUuid]
      ensures activeConnections == old(activeConnections) - {systemUuid}
      ensures mongo.db != null ==> (mongo.db.agentStatus ==
        if systemUuid !in old(activeConnections) || storeFails then old(mongo.db.agentStatus)
        else StatusStore.LogDisconnection(old(mongo.db.agentStatus), systemUuid, now))
    {
      while true
        invariant ws.received <= |ws.inbox|
        modifies ws`received
        decreases |ws.inbox| - ws.received
      {
        var message := ws.ReceiveText();
        if message.Failure? {
          break;
        }
      }
      Disconnect(systemUuid, now, storeFails);
    }

    /**
     * `_log_connection`: the upsert, unless `get_db` raises (no database) or
     * the write fails; either exception is logged and swallowed.
     */
    method LogConnection(systemUuid: string, org: string, now: int, storeFails: bool)
      modifies mongo.db
      ensures mongo.db != null ==> (mongo.db.agentStatus ==
        if storeFails then old(mongo.db.agentStatus)
        else StatusStore.LogConnection(old(mongo.db.agentStatus), systemUuid, org, now))
    {
      var db := mongo.GetDb();
      if db.Success? && !storeFails {
        db.value.agentStatus := StatusStore.LogConnection(db.value.agentStatus, systemUuid, org, now);
      }
    }

    /** `_log_disconnection`: the conditional update, with the same exception handling. */
    method LogDisconnection(systemUuid: string, now: int, storeFails: bool)
      modifies mongo.db
      ensures mongo.db != null ==> (mongo.db.agentStatus ==
        if storeFails then old(mongo.db.agentStatus)
        else StatusStore.LogDisconnection(old(mongo.db.agentStatus), systemUuid, now))
    {
      var db := mongo.GetDb();
      if db.Success? && !storeFails {
        db.value.agentStatus := StatusStore.LogDisconnection(db.value.agentStatus, systemUuid, now);
      }
    }
  }

  /** The module-level `ws_manager_conn`: `WSManager()` always yields one object. */
  class WSManagerSingleton {
    const mongo: Mongo.MongoManager
    var instance: WSManager?

    /** Once created, the shared instance has been initialised and uses the shared Mongo handle. */
    ghost predicate Valid()
      reads this, instance
    {
      instance != null ==> instance.initialized && instance.mongo == mongo
    }

    constructor(mongo: Mongo.MongoManager)
      ensures this.mongo == mongo && instance == null && Valid()
    {
      this.mongo := mongo;
      instance := null;
    }

    /** `WSManager()`: `__new__` reuses `_instance`, then `__init__` runs on it. */
    method Construct() returns (m: WSManager)
      requires Valid()
      modifies this`instance, instance
      ensures Valid() && instance == m
      ensures old(instance) == null ==> fresh(m) && m.activeConnections == map[]
      ensures old(instance) != null ==> m == old(instance) && unchanged(m)
    {
      if instance == null {
        instance := new WSManager(mongo);
      }
      m := instance;
      m.Init();
    }
  }
}
