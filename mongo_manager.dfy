/**
 * server/comms/mongo_manager.py: the shared MongoDB handle. The database
 * server is an object whose `agent_status` collection the rest of the server
 * writes; the outcome of the `ping` command is an input.
 */
module Mongo {
  import opened Wrappers
  import opened StatusStore

  /** The database `client[MONGO_ROOT_DB]` names on the server. */
  class Database {
    var agentStatus: Collection

    constructor(records: Collection)
      ensures agentStatus == records
    {
      agentStatus := records;
    }
  }

  /** An `AsyncIOMotorClient` for one URL. */
  class MongoClient {
    const url: string
    var closed: bool

    constructor(url: string)
      ensures this.url == url && !closed
    {
      this.url := url;
      closed := false;
    }
  }

  /** How `wait_for(client.admin.command("ping"), timeout=3.0)` ended. */
  datatype PingOutcome = Pong | PyMongoError | PingTimeout | OtherError

  /** How `connect_to_mongo` ended: normally, with its RuntimeError, or with the other exception. */
  datatype ConnectResult = ConnectedOk | RuntimeError | Propagated

  const NotInitialized := "mongo_manager: Database not initialized. Did you forget to call connect_to_mongo()?"

  class MongoManager {
    var client: MongoClient?
    var db: Database?
    var connected: bool
    var initialized: bool

    /** `__new__`: an object whose `__init__` has not yet run. */
    constructor()
      ensures client == null && db == null && !connected && !initialized
    {
      client := null;
      db := null;
      connected := false;
      initialized := false;
    }

    /** `__init__`: the fields are set on the first construction only. */
    method Init()
      modifies this
      ensures old(initialized) ==> unchanged(this)
      ensures !old(initialized) ==> client == null && db == null && !connected && initialized
    {
      if !initialized {
        client := null;
        db := null;
        connected := false;
        initialized := true;
      }
    }

    /**
     * `connect_to_mongo`: `client` and `db` are assigned before the ping, so a
     * failed ping leaves them set; only a PyMongoError or a timeout clears
     * `connected`.
     */
    method ConnectToMongo(url: string, server: Database, ping: PingOutcome) returns (r: ConnectResult)
      modifies this`client, this`db, this`connected
      ensures fresh(client) && client.url == url && !client.closed
      ensures db == server && GetDb() == Success(server)
      ensures r == ConnectedOk <==> ping == Pong
      ensures r == RuntimeError <==> ping == PyMongoError || ping == PingTimeout
      ensures connected == (if ping == Pong then true else if ping == OtherError then old(connected) else false)
    {
      client := new MongoClient(url);
      db := server;
      match ping {
        case Pong =>
          connected := true;
          r := ConnectedOk;
        case PyMongoError =>
          connected := false;
          r := RuntimeError;
        case PingTimeout =>
          connected := false;
          r := RuntimeError;
        case OtherError =>
          r := Propagated;
      }
    }

    /** `get_db`: RuntimeError exactly when `db` is None. */
    function GetDb(): (r: Result<Database, string>)
      reads this
      ensures r.Failure? <==> db == null
      ensures r.Success? ==> r.value == db
      ensures r.Failure? ==> r.error == NotInitialized
    {
      if db == null then Failure(NotInitialized) else Success(db)
    }

    /**
     * `close`: closes the client if there is one; an error from `close()` is
     * swallowed (the client then stays open). `client`, `db` and `connected`
     * are not touched.
     */
    method Close(closeFails: bool)
      modifies client
      ensures client != null ==> client.closed == (old(client.closed) || !closeFails)
    {
      if client != null && !closeFails {
        client.closed := true;
      }
    }
  }

  /** The module-level `mongo_manager_conn`: `MongoManager()` always yields one object. */
  class MongoManagerSingleton {
    var instance: MongoManager?

    /** Once created, the shared instance has been initialised. */
    ghost predicate Valid()
      reads this, instance
    {
      instance != null ==> instance.initialized
    }

    constructor()
      ensures instance == null && Valid()
    {
      instance := null;
    }

    /** `MongoManager()`: `__new__` reuses `_instance`, then `__init__` runs on it. */
    method Construct() returns (m: MongoManager)
      requires Valid()
      modifies this, instance
      ensures Valid() && instance == m
      ensures old(instance) == null ==> fresh(m) && m.client == null && m.db == null && !m.connected
      ensures old(instance) != null ==> m == old(instance) && unchanged(m)
    {
      if instance == null {
        instance := new MongoManager();
      }
      m := instance;
      m.Init();
    }
  }
}
