/**
 * client/comms/rmq_manager.py: the agent's RabbitMQ connection, three
 * logical channels and four durable queues named after the host's uuid.
 */
module ClientRmq {
  import opened Wrappers
  import opened Amqp

  /** The `queues` keys, in declaration order; each is also its queue's name prefix. */
  const QueueKeys: seq<string> := ["action", "proc_telemetry", "filestream_in", "filestream_out"]

  /** The channel each queue is declared on. */
  function ChannelFor(key: string): (c: string)
    ensures key in QueueKeys ==> c in ChannelNames
  {
    if key == "action" then "action"
    else if key == "proc_telemetry" then "telemetry"
    else "filestream"
  }

  /** `f"{purpose}_{systemuuid}"`. */
  function QueueName(key: string, uuid: string): (name: string)
    ensures |name| == |key| + 1 + |uuid|
    ensures name[..|key|] == key && name[|key|] == '_' && name[|key| + 1..] == uuid
  {
    key + "_" + uuid
  }

  /** The four purposes are different strings. */
  lemma QueueKeysDistinct()
    ensures forall i, j :: 0 <= i < j < |QueueKeys| ==> QueueKeys[i] != QueueKeys[j]
  {
    assert |QueueKeys[0]| == 6 && |QueueKeys[1]| == 14 && |QueueKeys[2]| == 13 && |QueueKeys[3]| == 14;
    assert QueueKeys[1][0] == 'p' && QueueKeys[3][0] == 'f';
  }

  /** Two different positions in `QueueKeys` hold different purposes. */
  lemma KeyDistinct(i: nat, j: nat)
    requires i < j < |QueueKeys|
    ensures QueueKeys[i] != QueueKeys[j]
  {
    QueueKeysDistinct();
  }

  /**
   * The `queues` dict after the first `k` declarations of `connect_to_rabbit`
   * completed, starting from `before`.
   */
  function Declared(before: map<string, Queue>, uuid: string, chans: map<string, Channel>, k: nat): (q: map<string, Queue>)
    requires k <= |QueueKeys|
    requires k == 0 || ChannelNames <= chans.Keys
    ensures forall key :: key in q <==> key in before || key in QueueKeys[..k]
  {
    if k == 0 then before
    else
      var key := QueueKeys[k - 1];
      Declared(before, uuid, chans, k - 1)[key := Queue(QueueName(key, uuid), true, chans[ChannelFor(key)])]
  }

  /** Once declared, the `i`-th purpose keeps its durable queue through the later declarations. */
  lemma {:induction false} DeclaredEntry(before: map<string, Queue>, uuid: string, chans: map<string, Channel>, k: nat, i: nat)
    requires i < k <= |QueueKeys| && ChannelNames <= chans.Keys
    ensures QueueKeys[i] in Declared(before, uuid, chans, k)
    ensures Declared(before, uuid, chans, k)[QueueKeys[i]]
      == Queue(QueueName(QueueKeys[i], uuid), true, chans[ChannelFor(QueueKeys[i])])
  {
    var prev := Declared(before, uuid, chans, k - 1);
    var last := QueueKeys[k - 1];
    assert Declared(before, uuid, chans, k) == prev[last := Queue(QueueName(last, uuid), true, chans[ChannelFor(last)])];
    if i < k - 1 {
      DeclaredEntry(before, uuid, chans, k - 1, i);
      KeyDistinct(i, k - 1);
    }
  }

  /** A key that is not one of the four purposes is never touched. */
  lemma {:induction false} DeclaredFrame(before: map<string, Queue>, uuid: string, chans: map<string, Channel>, k: nat, key: string)
    requires k <= |QueueKeys| && (k == 0 || ChannelNames <= chans.Keys)
    requires key in before && key !in QueueKeys
    ensures Declared(before, uuid, chans, k)[key] == before[key]
  {
    if k > 0 {
      DeclaredFrame(before, uuid, chans, k - 1, key);
      assert key != QueueKeys[k - 1];
    }
  }

  /** How many of the four declarations complete before the failing await (steps 4-7). */
  function DeclaredCount(failAt: Option<nat>): (n: nat)
    ensures n <= |QueueKeys|
    ensures n == |QueueKeys| <==> !FailsBefore(failAt, 8)
  {
    if failAt.None? || failAt.value >= 8 then 4
    else if failAt.value <= 4 then 0
    else failAt.value - 4
  }

  class ClientRMQManager {
    var rabbitConnection: Connection?
    var channels: map<string, Channel>
    var queues: map<string, Queue>
    var rabbitConnected: bool
    var initialized: bool

    /** `__new__`: an object whose `__init__` has not yet run. */
    constructor()
      ensures rabbitConnection == null && channels == map[] && queues == map[]
      ensures !rabbitConnected && !initialized
    {
      rabbitConnection := null;
      channels := map[];
      queues := map[];
      rabbitConnected := false;
      initialized := false;
    }

    /** `__init__`: the fields are set on the first construction only. */
    method Init()
      modifies this
      ensures old(initialized) ==> unchanged(this)
      ensures !old(initialized) ==>
        rabbitConnection == null && channels == map[] && queues == map[] && !rabbitConnected && initialized
    {
      if !initialized {
        rabbitConnection := null;
        channels := map[];
        queues := map[];
        rabbitConnected := false;
        initialized := true;
      }
    }

    /** One `self.queues[key] = await self.channels[...].declare_queue(name, durable=True)`. */
    method DeclareQueue(ghost before: map<string, Queue>, uuid: string, i: nat)
      requires i < |QueueKeys| && ChannelNames <= channels.Keys
      requires queues == Declared(before, uuid, channels, i)
      modifies this`queues
      ensures queues == Declared(before, uuid, channels, i + 1)
    {
      var key := QueueKeys[i];
      queues := queues[key := Queue(QueueName(key, uuid), true, channels[ChannelFor(key)])];
    }

    /**
     * The four `declare_queue` awaits of `connect_to_rabbit` (steps 4-7), in
     * `QueueKeys` order; the first failing await ends the run with the queues
     * declared so far.
     */
    method DeclareQueues(uuid: string, failAt: Option<nat>) returns (ok: bool)
      requires ChannelNames <= channels.Keys && !FailsBefore(failAt, 4)
      modifies this`queues
      ensures ok <==> !FailsBefore(failAt, 8)
      ensures queues == Declared(old(queues), uuid, channels, DeclaredCount(failAt))
    {
      ok := false;
      if failAt == Some(4) {
        return;
      }
      DeclareQueue(old(queues), uuid, 0);
      if failAt == Some(5) {
        return;
      }
      DeclareQueue(old(queues), uuid, 1);
      if failAt == Some(6) {
        return;
      }
      DeclareQueue(old(queues), uuid, 2);
      if failAt == Some(7) {
        return;
      }
      DeclareQueue(old(queues), uuid, 3);
      ok := true;
    }

    /**
     * `connect_to_rabbit(systemuuid)`: the awaits are `connect_robust` (step 0),
     * three `channel()` calls (steps 1-3) and four `declare_queue` calls (steps
     * 4-7). On a failure `rabbit_connected` is false and the queues declared so
     * far stay in `queues`; `channels` is replaced only once all three exist.
     * `rabbit_connected` is not consulted: a second call opens a second connection.
     */
    method ConnectToRabbit(url: string, systemUuid: string, failAt: Option<nat>) returns (r: ConnectResult)
      modifies this`rabbitConnection, this`channels, this`queues, this`rabbitConnected
      ensures r == ConnectedOk <==> !FailsBefore(failAt, 8)
      ensures rabbitConnected <==> r == ConnectedOk
      ensures failAt == Some(0) ==> rabbitConnection == old(rabbitConnection)
      ensures failAt != Some(0) ==> fresh(rabbitConnection) && rabbitConnection.url == url && !rabbitConnection.isClosed
      ensures FailsBefore(failAt, 4) ==> channels == old(channels) && queues == old(queues)
      ensures !FailsBefore(failAt, 4) ==>
        channels.Keys == ChannelNames && DistinctChannelsOn(channels, rabbitConnection)
        && (forall name :: name in channels ==> fresh(channels[name]))
        && queues == Declared(old(queues), systemUuid, channels, DeclaredCount(failAt))
    {
      var conn, chans := OpenChannels(url, failAt);
      if conn != null {
        rabbitConnection := conn;
      }
      if chans.None? {
        rabbitConnected := false;
        return RuntimeError;
      }
      channels := chans.value;
      var declared := DeclareQueues(systemUuid, failAt);
      rabbitConnected := declared;
      r := if declared then ConnectedOk else RuntimeError;
    }

    /** `get_channel`: `channels.get(name)`. */
    function GetChannel(name: string): (r: Option<Channel>)
      reads this
      ensures r.Some? <==> name in channels
      ensures r.Some? ==> r.value == channels[name]
    {
      if name in channels then Some(channels[name]) else None
    }

    /** `get_queue`: `queues.get(name)`. */
    function GetQueue(name: string): (r: Option<Queue>)
      reads this
      ensures r.Some? <==> name in queues
      ensures r.Some? ==> r.value == queues[name]
    {
      if name in queues then Some(queues[name]) else None
    }

    /** `close`: see `Amqp.CloseIfOpen`; the manager's own fields are not touched. */
    method Close(closeFails: bool)
      modifies rabbitConnection
      ensures rabbitConnection != null ==>
        rabbitConnection.closeCalls == old(rabbitConnection.closeCalls) + (if old(rabbitConnection.isClosed) then 0 else 1)
        && rabbitConnection.isClosed == (old(rabbitConnection.isClosed) || !closeFails)
    {
      CloseIfOpen(rabbitConnection, closeFails);
    }
  }

  /** The module-level `client_rmq_manager`: `ClientRMQManager()` always yields one object. */
  class ClientRMQManagerSingleton {
    var instance: ClientRMQManager?

    /** Once created, the shared instance has been initialised. */
    ghost predicate Valid()
      reads this, instance
    {
      instance != null ==> instance.initialized
    }

    constructor()
      ensures instance == null && Valid()
    {
      instance := null;
    }

    /** `ClientRMQManager()`: `__new__` reuses `_instance`, then `__init__` runs on it. */
    method Construct() returns (m: ClientRMQManager)
      requires Valid()
      modifies this, instance
      ensures Valid() && instance == m
      ensures old(instance) == null ==>
        fresh(m) && m.rabbitConnection == null && m.channels == map[] && m.queues == map[] && !m.rabbitConnected
      ensures old(instance) != null ==> m == old(instance) && unchanged(m)
    {
      if instance == null {
        instance := new ClientRMQManager();
      }
      m := instance;
      m.Init();
    }
  }

  /** A successful connect adds exactly the four purposes as keys and leaves every other entry as it was. */
  lemma {:induction false} DeclaredKeysAllFour(before: map<string, Queue>, uuid: string, chans: map<string, Channel>)
    requires ChannelNames <= chans.Keys
    ensures forall key :: key in Declared(before, uuid, chans, 4) <==> key in before || key in QueueKeys
    ensures forall key :: key in before && key !in QueueKeys ==> Declared(before, uuid, chans, 4)[key] == before[key]
  {
    assert QueueKeys[..4] == QueueKeys;
    forall key | key in before && key !in QueueKeys
      ensures Declared(before, uuid, chans, 4)[key] == before[key]
    {
      DeclaredFrame(before, uuid, chans, 4, key);
    }
  }

  /** Each of the four queues is durable, named after its purpose and the uuid, and on its channel. */
  lemma {:induction false} DeclaredAllFour(before: map<string, Queue>, uuid: string, chans: map<string, Channel>)
    requires ChannelNames <= chans.Keys
    ensures var q := Declared(before, uuid, chans, 4);
      "action" in q && q["action"] == Queue(QueueName("action", uuid), true, chans["action"])
    ensures var q := Declared(before, uuid, chans, 4);
      "proc_telemetry" in q && q["proc_telemetry"] == Queue(QueueName("proc_telemetry", uuid), true, chans["telemetry"])
    ensures var q := Declared(before, uuid, chans, 4);
      "filestream_in" in q && q["filestream_in"] == Queue(QueueName("filestream_in", uuid), true, chans["filestream"])
    ensures var q := Declared(before, uuid, chans, 4);
      "filestream_out" in q && q["filestream_out"] == Queue(QueueName("filestream_out", uuid), true, chans["filestream"])
  {
    assert QueueKeys[0] == "action" && QueueKeys[1] == "proc_telemetry";
    assert QueueKeys[2] == "filestream_in" && QueueKeys[3] == "filestream_out";
    DeclaredEntry(before, uuid, chans, 4, 0);
    DeclaredEntry(before, uuid, chans, 4, 1);
    DeclaredEntry(before, uuid, chans, 4, 2);
    DeclaredEntry(before, uuid, chans, 4, 3);
  }

  /** The four queue names of one agent are pairwise distinct. */
  lemma QueueNamesDistinct(uuid: string, i: nat, j: nat)
    requires i < |QueueKeys| && j < |QueueKeys| && i != j
    ensures QueueName(QueueKeys[i], uuid) != QueueName(QueueKeys[j], uuid)
  {
  }

  /** Different agents get different queues: the name determines the uuid. */
  lemma QueueNameInjective(key: string, u1: string, u2: string)
    requires QueueName(key, u1) == QueueName(key, u2)
    ensures u1 == u2
  {
    assert u1 == QueueName(key, u1)[|key| + 1..];
  }
}
