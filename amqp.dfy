/**
 * The AMQP handles the two RabbitMQ managers hold: a connection from
 * `aio_pika.connect_robust`, channels opened on it, and declared queues.
 * The broker itself is not modelled; which await fails is an input.
 */
module Amqp {
  import opened Wrappers

  /** A robust connection; `close()` calls are counted. */
  class Connection {
    const url: string
    var isClosed: bool
    var closeCalls: nat

    constructor(url: string)
      ensures this.url == url && !isClosed && closeCalls == 0
    {
      this.url := url;
      isClosed := false;
      closeCalls := 0;
    }
  }

  /** A channel from `connection.channel()`. */
  class Channel {
    const connection: Connection

    constructor(connection: Connection)
      ensures this.connection == connection
    {
      this.connection := connection;
    }
  }

  /** The result of `channel.declare_queue(name, durable=...)`. */
  datatype Queue = Queue(name: string, durable: bool, channel: Channel)

  /** How `connect_to_rabbit` ended: normally or with its RuntimeError. */
  datatype ConnectResult = ConnectedOk | RuntimeError

  /** `f"amqp://{RMQ_USER}:{RMQ_PASS}@{RMQ_HOST}/"`. */
  function AmqpUrl(user: string, pass: string, host: string): string
  {
    "amqp://" + user + ":" + pass + "@" + host + "/"
  }

  /**
   * Which await of a connect raises, counting from 0 (`connect_robust` is
   * step 0); `None`, or an index past the last await, means none does.
   */
  predicate FailsBefore(failAt: Option<nat>, n: nat)
  {
    failAt.Some? && failAt.value < n
  }

  /**
   * The body of both managers' `close`: only an existing connection that is
   * not closed is asked to close; an exception from `close()` is swallowed
   * and leaves the connection open.
   */
  method CloseIfOpen(conn: Connection?, closeFails: bool)
    modifies conn
    ensures conn != null ==> conn.closeCalls == old(conn.closeCalls) + (if old(conn.isClosed) then 0 else 1)
    ensures conn != null ==> conn.isClosed == (old(conn.isClosed) || !closeFails)
  {
    if conn != null && !conn.isClosed {
      conn.closeCalls := conn.closeCalls + 1;
      if !closeFails {
        conn.isClosed := true;
      }
    }
  }

  /** The logical channel groups both managers open. */
  const ChannelNames: set<string> := {"action", "telemetry", "filestream"}

  /** Channels that are pairwise different objects, all on `conn`. */
  ghost predicate DistinctChannelsOn(chans: map<string, Channel>, conn: Connection)
  {
    (forall name :: name in chans ==> chans[name].connection == conn)
    && (forall a, b :: a in chans && b in chans && a != b ==> chans[a] != chans[b])
  }

  /**
   * The first four awaits of both managers' `connect_to_rabbit`:
   * `connect_robust` (step 0) and the three `channel()` calls of the
   * `self.channels = {...}` display (steps 1-3). `conn` is the new connection,
   * if step 0 succeeded; `chans` the complete display, if all steps did.
   */
  method OpenChannels(url: string, failAt: Option<nat>) returns (conn: Connection?, chans: Option<map<string, Channel>>)
    ensures conn == null <==> failAt == Some(0)
    ensures conn != null ==> fresh(conn) && conn.url == url && !conn.isClosed
    ensures chans.Some? <==> !FailsBefore(failAt, 4)
    ensures chans.Some? ==>
      conn != null && chans.value.Keys == ChannelNames && DistinctChannelsOn(chans.value, conn)
      && forall name :: name in chans.value ==> fresh(chans.value[name])
  {
    chans := None;
    if failAt == Some(0) {
      return null, None;
    }
    conn := new Connection(url);
    if failAt == Some(1) {
      return;
    }
    var action := new Channel(conn);
    if failAt == Some(2) {
      return;
    }
    var telemetry := new Channel(conn);
    if failAt == Some(3) {
      return;
    }
    var filestream := new Channel(conn);
    chans := Some(map["action" := action, "telemetry" := telemetry, "filestream" := filestream]);
  }
}
