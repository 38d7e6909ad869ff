/**
 * server/comms/rmq_manager.py: the server's RabbitMQ connection with three
 * logical channels. It declares no queues.
 */
module ServerRmq {
  import opened Wrappers
  import opened Amqp

  class RMQManager {
    var rabbitConnection: Connection?
    var channels: map<string, Channel>
    var queues: map<string, Queue>
    var rabbitConnected: bool
    var initialized: bool

    /** `__new__`: an object whose `__init__` has not yet run. */
    constructor()
      ensures rabbitConnection == null && channels == map[] && queues == map[]
      ensures !rabbitConnected && !initialized
    {
      rabbitConnection := null;
      channels := map[];
      queues := map[];
      rabbitConnected := false;
      initialized := false;
    }

    /** `__init__`: the fields are set on the first construction only. */
    method Init()
      modifies this
      ensures old(initialized) ==> unchanged(this)
      ensures !old(initialized) ==>
        rabbitConnection == null && channels == map[] && queues == map[] && !rabbitConnected && initialized
    {
      if !initialized {
        rabbitConnection := null;
        channels := map[];
        queues := map[];
        rabbitConnected := false;
        initialized := true;
      }
    }

    /**
     * `connect_to_rabbit`: the awaits are `connect_robust` (step 0) and three
     * `channel()` calls (steps 1-3). `rabbit_connection` is replaced as soon as
     * the connection opens; `channels` only once all three channels exist.
     * `rabbit_connected` is not consulted: a second call opens a second
     * connection. `queues` is never written.
     */
    method ConnectToRabbit(url: string, failAt: Option<nat>) returns (r: ConnectResult)
      modifies this`rabbitConnection, this`channels, this`rabbitConnected
      ensures r == ConnectedOk <==> !FailsBefore(failAt, 4)
      ensures rabbitConnected <==> r == ConnectedOk
      ensures failAt == Some(0) ==> rabbitConnection == old(rabbitConnection)
      ensures failAt != Some(0) ==> fresh(rabbitConnection) && rabbitConnection.url == url && !rabbitConnection.isClosed
      ensures r == RuntimeError ==> channels == old(channels)
      ensures r == ConnectedOk ==>
        channels.Keys == ChannelNames && DistinctChannelsOn(channels, rabbitConnection)
        && (forall name :: name in channels ==> fresh(channels[name]))
      ensures r == ConnectedOk ==> forall name :: GetChannel(name).Some? <==> name in ChannelNames
    {
      var conn, chans := OpenChannels(url, failAt);
      if conn != null {
        rabbitConnection := conn;
      }
      if chans.None? {
        rabbitConnected := false;
        return RuntimeError;
      }
      channels := chans.value;
      rabbitConnected := true;
      r := ConnectedOk;
    }

    /** `get_channel`: the stored channel, or None (with a warning) for an unknown name. */
    function GetChannel(name: string): (r: Option<Channel>)
      reads this
      ensures r.Some? <==> name in channels
      ensures r.Some? ==> r.value == channels[name]
    {
      if name in channels then Some(channels[name]) else None
    }

    /** `close`: see `Amqp.CloseIfOpen`; the manager's own fields are not touched. */
    method Close(closeFails: bool)
      modifies rabbitConnection
      ensures rabbitConnection != null ==>
        rabbitConnection.closeCalls == old(rabbitConnection.closeCalls) + (if old(rabbitConnection.isClosed) then 0 else 1)
        && rabbitConnection.isClosed == (old(rabbitConnection.isClosed) || !closeFails)
    {
      CloseIfOpen(rabbitConnection, closeFails);
    }
  }

  /** The module-level `rmq_manager_conn`: `RMQManager()` always yields one object. */
  class RMQManagerSingleton {
    var instance: RMQManager?

    /** Once created, the shared instance has been initialised. */
    ghost predicate Valid()
      reads this, instance
    {
      instance != null ==> instance.initialized
    }

    constructor()
      ensures instance == null && Valid()
    {
      instance := null;
    }

    /** `RMQManager()`: `__new__` reuses `_instance`, then `__init__` runs on it. */
    method Construct() returns (m: RMQManager)
      requires Valid()
      modifies this, instance
      ensures Valid() && instance == m
      ensures old(instance) == null ==>
        fresh(m) && m.rabbitConnection == null && m.channels == map[] && m.queues == map[] && !m.rabbitConnected
      ensures old(instance) != null ==> m == old(instance) && unchanged(m)
    {
      if instance == null {
        instance := new RMQManager();
      }
      m := instance;
      m.Init();
    }
  }
}
