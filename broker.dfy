/**
 * The AMQP broker as the producer and consumer see it, through the `lapin`
 * client: the requests they issue, the broker's answers, and the console
 * output they write. The broker itself is not modelled; it is an oracle
 * that answers the request logged at position i with `answer(i)`.
 */
module Broker {
  import opened Wrappers

  type Byte = b: int | 0 <= b < 256

  /** A `lapin::Error`; its content plays no role in the decisions modelled here. */
  datatype Error = Error(code: nat)

  /** A shared broker connection handle (`Client` / `Connection`). */
  datatype Connection = Connection(id: nat)

  /** A channel handle. */
  datatype Channel = Channel(id: nat)

  /** `QueueDeclareOptions`; every flag is off by default. */
  datatype QueueOptions = QueueOptions(passive: bool, durable: bool, exclusive: bool, autoDelete: bool, nowait: bool)

  const DEFAULT_QUEUE_OPTIONS := QueueOptions(false, false, false, false, false)

  /** `BasicPublishOptions`; both flags are off by default. */
  datatype PublishOptions = PublishOptions(mandatory: bool, immediate: bool)

  const DEFAULT_PUBLISH_OPTIONS := PublishOptions(false, false)

  /** `FieldTable`: AMQP arguments. */
  type FieldTable = map<string, string>

  const EMPTY_TABLE: FieldTable := map[]

  /** `BasicProperties`: the reply destination and every other property. */
  datatype Properties = Properties(replyTo: Option<string>, others: FieldTable)

  const DEFAULT_PROPERTIES := Properties(None, map[])

  /**
   * A delivery: its tag, its body, its reply destination, and the text the
   * message envelope decodes to (the envelope decoder is not modelled).
   */
  datatype Delivery = Delivery(tag: nat, data: seq<Byte>, replyTo: Option<string>, text: Option<string>)

  /** What the client does that the outside world can see, in order. */
  datatype Event =
    | ChannelAndQueue(conn: Connection, queue: string, options: QueueOptions, fields: FieldTable)
    | QueueDeclare(channel: Channel, queue: string, options: QueueOptions, fields: FieldTable)
    | BasicPublish(channel: Channel, exchange: string, routingKey: string, publishOptions: PublishOptions,
                   body: seq<Byte>, properties: Properties)
    | BasicConsume(channel: Channel, queue: string, consumerTag: string)
    | BasicAck(channel: Channel, deliveryTag: nat)
    | Print(text: string)

  /**
   * The broker's answer to a request: success, carrying the queue name a
   * declaration got and the deliveries a subscription will yield, or an error.
   */
  datatype Reply = Accept(name: string, deliveries: seq<Result<Delivery, Error>>) | Refuse(error: Error)

  /** An answer to a publish or an ack: `Ok(())` or the broker's error. */
  function Acknowledged(reply: Reply): (r: Result<(), Error>)
    ensures r.Ok? <==> reply.Accept?
    ensures r.Err? ==> r.error == reply.error
  {
    match reply
    case Accept(_, _) => Ok(())
    case Refuse(e) => Err(e)
  }

  /** The world outside the client: the broker's answers and everything logged so far. */
  class Environment {
    /** The broker's answer to the request logged at position i. */
    const answer: nat -> Reply
    var log: seq<Event>

    constructor (answer: nat -> Reply)
      ensures this.answer == answer && log == []
    {
      this.answer := answer;
      log := [];
    }

    /** Send a request to the broker and wait for its answer. */
    method Request(e: Event) returns (reply: Reply)
      modifies this
      ensures log == old(log) + [e]
      ensures reply == answer(old(|log|))
    {
      reply := answer(|log|);
      log := log + [e];
    }

    /** Write a line to the console. */
    method Print(text: string)
      modifies this
      ensures log == old(log) + [Event.Print(text)]
    {
      log := log + [Event.Print(text)];
    }
  }
}
