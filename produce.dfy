/**
 * The producer of src/produce.rs. A `Producer` holds its publishing
 * configuration, the connection it was built from, and a channel that it
 * opens on first use and then keeps. `rpc` declares a fresh server-named,
 * exclusive, auto-deleting reply queue and publishes with `reply_to` set to
 * that queue's name; `publish` publishes with the properties as they are.
 * Neither waits for a reply.
 */
module Produce {
  import opened Wrappers
  import opened Broker

  /** Everything a `Producer` holds except its cached channel. */
  datatype Settings = Settings(
    exchange: string,
    queue: string,
    properties: Properties,
    publishOptions: PublishOptions,
    queueOptions: QueueOptions,
    fieldTable: FieldTable,
    client: Option<Connection>)

  /** What one call does: the events it adds to the log, its result, and the cached channel afterwards. */
  datatype Step = Step(events: seq<Event>, result: Result<(), Error>, channel: Option<Channel>)

  /**
   * The options of an `rpc` reply queue: the producer's queue options with
   * `exclusive` and `auto_delete` forced on.
   */
  function ReplyQueueOptions(o: QueueOptions): (r: QueueOptions)
    ensures r.exclusive && r.autoDelete
    ensures r.passive == o.passive && r.durable == o.durable && r.nowait == o.nowait
  {
    o.(exclusive := true, autoDelete := true)
  }

  /** The request `create_channel` sends: a channel on the producer's connection, with its queue declared. */
  function OpenRequest(s: Settings): Event
    requires s.client.Some?
  {
    ChannelAndQueue(s.client.value, s.queue, s.queueOptions, s.fieldTable)
  }

  /**
   * The channel-acquisition prefix common to `rpc` and `publish`, starting at
   * log position `n`: the cached channel if there is one, otherwise the
   * outcome of `create_channel`.
   */
  function Acquire(s: Settings, channel: Option<Channel>, answer: nat -> Reply, n: nat): Step
    requires channel.None? ==> s.client.Some?
  {
    if channel.Some? then Step([], Ok(()), channel)
    else match answer(n)
      case Accept(_, _) => Step([OpenRequest(s)], Ok(()), Some(Channel(n)))
      case Refuse(e) => Step([OpenRequest(s)], Err(e), None)
  }

  /** One `rpc(msg)` call, started with the cached channel `channel` at log position `n`. */
  function RpcStep(s: Settings, channel: Option<Channel>, msg: seq<Byte>, answer: nat -> Reply, n: nat): Step
    requires channel.None? ==> s.client.Some?
  {
    var acquired := Acquire(s, channel, answer, n);
    if acquired.channel.None? then acquired
    else
      var ch := acquired.channel.value;
      var m := n + |acquired.events|;
      var declare := QueueDeclare(ch, "", ReplyQueueOptions(s.queueOptions), s.fieldTable);
      match answer(m)
      case Refuse(e) => Step(acquired.events + [declare], Err(e), acquired.channel)
      case Accept(name, _) =>
        var publish := BasicPublish(ch, s.exchange, s.queue, s.publishOptions, msg, s.properties.(replyTo := Some(name)));
        Step(acquired.events + [declare, publish], Acknowledged(answer(m + 1)), acquired.channel)
  }

  /**
   * What every `rpc` call does, whatever the broker answers. A cached channel
   * is reused and kept, and no channel is opened; without one, the channel is
   * opened first, exactly once, and kept only if the broker grants it, a
   * refusal ending the call with nothing declared or published. With a
   * channel, a server-named (`""`) exclusive auto-delete reply queue is
   * declared next; a refused declaration ends the call with its error before
   * any publish, and otherwise the message is published to the producer's
   * exchange and queue with `reply_to` set to the name the broker gave the
   * reply queue, the call's result being the publish's.
   */
  lemma RpcContract(s: Settings, channel: Option<Channel>, msg: seq<Byte>, answer: nat -> Reply, n: nat)
    requires channel.None? ==> s.client.Some?
    ensures var st := RpcStep(s, channel, msg, answer, n);
            channel.Some? ==> st.channel == channel && forall e <- st.events :: !e.ChannelAndQueue?
    ensures var st := RpcStep(s, channel, msg, answer, n);
            channel.None? ==>
              && |st.events| >= 1 && st.events[0] == OpenRequest(s)
              && (forall e <- st.events[1..] :: !e.ChannelAndQueue?)
              && st.channel == (if answer(n).Accept? then Some(Channel(n)) else None)
    ensures var st := RpcStep(s, channel, msg, answer, n);
            channel.None? && answer(n).Refuse? ==> st == Step([OpenRequest(s)], Err(answer(n).error), None)
    ensures var st := RpcStep(s, channel, msg, answer, n);
            st.channel.Some? ==>
              var d := if channel.Some? then 0 else 1;
              && d < |st.events|
              && st.events[d] == QueueDeclare(st.channel.value, "", ReplyQueueOptions(s.queueOptions), s.fieldTable)
              && (answer(n + d).Refuse? ==> |st.events| == d + 1 && st.result == Err(answer(n + d).error))
              && (answer(n + d).Accept? ==>
                    && |st.events| == d + 2
                    && st.events[d + 1] == BasicPublish(st.channel.value, s.exchange, s.queue, s.publishOptions, msg,
                                                        s.properties.(replyTo := Some(answer(n + d).name)))
                    && st.result == Acknowledged(answer(n + d + 1)))
  {
  }

  /** One `publish(msg)` call, started with the cached channel `channel` at log position `n`. */
  function PublishStep(s: Settings, channel: Option<Channel>, msg: seq<Byte>, answer: nat -> Reply, n: nat): Step
    requires channel.None? ==> s.client.Some?
  {
    var acquired := Acquire(s, channel, answer, n);
    if acquired.channel.None? then acquired
    else
      var ch := acquired.channel.value;
      var publish := BasicPublish(ch, s.exchange, s.queue, s.publishOptions, msg, s.properties);
      Step(acquired.events + [publish], Acknowledged(answer(n + |acquired.events|)), acquired.channel)
  }

  /**
   * What every `publish` call does, whatever the broker answers: the same
   * channel handling as `rpc`; with a channel, the message is published to
   * the producer's exchange and queue with its properties unchanged, and
   * nothing is declared.
   */
  lemma PublishContract(s: Settings, channel: Option<Channel>, msg: seq<Byte>, answer: nat -> Reply, n: nat)
    requires channel.None? ==> s.client.Some?
    ensures var st := PublishStep(s, channel, msg, answer, n);
            channel.Some? ==> st.channel == channel && forall e <- st.events :: !e.ChannelAndQueue?
    ensures var st := PublishStep(s, channel, msg, answer, n);
            channel.None? ==>
              && |st.events| >= 1 && st.events[0] == OpenRequest(s)
              && (forall e <- st.events[1..] :: !e.ChannelAndQueue?)
              && st.channel == (if answer(n).Accept? then Some(Channel(n)) else None)
    ensures var st := PublishStep(s, channel, msg, answer, n);
            channel.None? && answer(n).Refuse? ==> st == Step([OpenRequest(s)], Err(answer(n).error), None)
    ensures var st := PublishStep(s, channel, msg, answer, n);
            st.channel.Some? ==>
              var d := if channel.Some? then 0 else 1;
              && |st.events| == d + 1
              && st.events[d] == BasicPublish(st.channel.value, s.exchange, s.queue, s.publishOptions, msg, s.properties)
              && st.result == Acknowledged(answer(n + d))
  {
  }

  /**
   * Once a producer holds a channel it keeps it: any sequence of `rpc` and
   * `publish` calls, whatever the broker answers, leaves the same channel cached.
   */
  lemma {:induction false} ChannelNeverCleared(s: Settings, ch: Channel, calls: seq<(bool, seq<Byte>)>, answer: nat -> Reply, n: nat)
    ensures Calls(s, Some(ch), calls, answer, n).channel == Some(ch)
    ensures forall e <- Calls(s, Some(ch), calls, answer, n).events :: !e.ChannelAndQueue?
    decreases |calls|
  {
    if calls != [] {
      var (isRpc, msg) := calls[0];
      var first := if isRpc then RpcStep(s, Some(ch), msg, answer, n) else PublishStep(s, Some(ch), msg, answer, n);
      ChannelNeverCleared(s, ch, calls[1..], answer, n + |first.events|);
    }
  }

  /**
   * A sequence of calls on one producer: each pair is (is it `rpc`, message).
   * The result is that of the last call.
   */
  function Calls(s: Settings, channel: Option<Channel>, calls: seq<(bool, seq<Byte>)>, answer: nat -> Reply, n: nat): Step
    requires channel.None? ==> s.client.Some?
    decreases |calls|
  {
    if calls == [] then Step([], Ok(()), channel)
    else
      var (isRpc, msg) := calls[0];
      var first := if isRpc then RpcStep(s, channel, msg, answer, n) else PublishStep(s, channel, msg, answer, n);
      var rest := Calls(s, first.channel, calls[1..], answer, n + |first.events|);
      Step(first.events + rest.events, if calls[1..] == [] then first.result else rest.result, rest.channel)
  }

  class Producer {
    var exchange: string
    var queue: string
    var properties: Properties
    var publishOptions: PublishOptions
    var queueOptions: QueueOptions
    var fieldTable: FieldTable
    var client: Option<Connection>
    var channel: Option<Channel>

    function Config(): Settings
      reads this
    {
      Settings(exchange, queue, properties, publishOptions, queueOptions, fieldTable, client)
    }

    /** `Producer::new(c, queue)`: the given connection and queue, everything else as in `default()`. */
    constructor New(c: Connection, queue: string)
      ensures client == Some(c) && this.queue == queue
      ensures exchange == "" && properties == DEFAULT_PROPERTIES
      ensures publishOptions == DEFAULT_PUBLISH_OPTIONS && queueOptions == DEFAULT_QUEUE_OPTIONS
      ensures fieldTable == EMPTY_TABLE && channel == None
    {
      exchange, this.queue := "", queue;
      properties, publishOptions, queueOptions := DEFAULT_PROPERTIES, DEFAULT_PUBLISH_OPTIONS, DEFAULT_QUEUE_OPTIONS;
      fieldTable, client, channel := EMPTY_TABLE, Some(c), None;
    }

    /** `Producer::default()`: no connection, so a first `rpc` or `publish` would panic. */
    constructor Default()
      ensures client == None && queue == "/"
      ensures exchange == "" && properties == DEFAULT_PROPERTIES
      ensures publishOptions == DEFAULT_PUBLISH_OPTIONS && queueOptions == DEFAULT_QUEUE_OPTIONS
      ensures fieldTable == EMPTY_TABLE && channel == None
    {
      exchange, queue := "", "/";
      properties, publishOptions, queueOptions := DEFAULT_PROPERTIES, DEFAULT_PUBLISH_OPTIONS, DEFAULT_QUEUE_OPTIONS;
      fieldTable, client, channel := EMPTY_TABLE, None, None;
    }

    /**
     * `create_channel`: open a channel and declare the producer's queue on it
     * (`client` is unwrapped, so it must be present); keep the channel on success.
     */
    method CreateChannel(env: Environment) returns (r: Result<(), Error>)
      requires client.Some?
      modifies this`channel, env
      ensures env.log == old(env.log) + [OpenRequest(Config())]
      ensures r == Acknowledged(env.answer(old(|env.log|)))
      ensures channel == if r.Ok? then Some(Channel(old(|env.log|))) else old(channel)
    {
      var n := |env.log|;
      var reply := env.Request(OpenRequest(Config()));
      match reply {
        case Accept(_, _) =>
          channel := Some(Channel(n));
          r := Ok(());
        case Refuse(e) =>
          r := Err(e);
      }
    }

    /** `rpc(msg)`. */
    method Rpc(msg: seq<Byte>, env: Environment) returns (r: Result<(), Error>)
      requires channel.None? ==> client.Some?
      modifies this`channel, env
      ensures var st := RpcStep(old(Config()), old(channel), msg, env.answer, old(|env.log|));
              env.log == old(env.log) + st.events && r == st.result && channel == st.channel
    {
      if channel.None? {
        var created := CreateChannel(env);
        if created.Err? {
          return Err(created.error);
        }
      }
      var ch := channel.value;
      var declared := env.Request(QueueDeclare(ch, "", ReplyQueueOptions(queueOptions), fieldTable));
      if declared.Refuse? {
        return Err(declared.error);
      }
      var published := env.Request(BasicPublish(ch, exchange, queue, publishOptions, msg,
                                                 properties.(replyTo := Some(declared.name))));
      r := Acknowledged(published);
    }

    /** `publish(msg)`. */
    method Publish(msg: seq<Byte>, env: Environment) returns (r: Result<(), Error>)
      requires channel.None? ==> client.Some?
      modifies this`channel, env
      ensures var st := PublishStep(old(Config()), old(channel), msg, env.answer, old(|env.log|));
              env.log == old(env.log) + st.events && r == st.result && channel == st.channel
    {
      if channel.None? {
        var created := CreateChannel(env);
        if created.Err? {
          return Err(created.error);
        }
      }
      var ch := channel.value;
      var published := env.Request(BasicPublish(ch, exchange, queue, publishOptions, msg, properties));
      r := Acknowledged(published);
    }
  }
}
