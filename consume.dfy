/**
 * The consumer of src/consume.rs. `Consumer::run` pulls deliveries from its
 * subscription one at a time, in order; a delivery that names a reply
 * destination is answered through `Consumer::publish` (which only prints
 * the destination), any other one has its decoded text printed; then the
 * delivery is acknowledged with its own tag. The first refused
 * acknowledgement ends the loop with that error; the end of the stream ends
 * it with `Ok`.
 */
module Consume {
  import opened Wrappers
  import opened Broker

  /** The tag `ConsumerBuilder::consumer` subscribes with. */
  const CONSUMER_TAG: string := "my_consumer"

  /** How `run` ends: the stream ended, an ack was refused, or an `unwrap` panicked. */
  datatype Exit = Finished | Failed(error: Error) | Panicked

  /** What `run` does: the events it logs, how it ends, and how many deliveries it took from the stream. */
  datatype Outcome = Outcome(events: seq<Event>, exit: Exit, taken: nat)

  /**
   * A stream item `run` can handle without panicking: not an error, and, when
   * there is no reply destination, carrying a message text.
   */
  predicate WellFormed(item: Result<Delivery, Error>)
  {
    item.Ok? && (item.value.replyTo.Some? || item.value.text.Some?)
  }

  /** The output that dispatching a well-formed delivery writes. */
  function Dispatch(d: Delivery): Event
    requires d.replyTo.Some? || d.text.Some?
  {
    if d.replyTo.Some? then Print(d.replyTo.value) else Print(d.text.value)
  }

  /** Delivery `d`, as the `i`-th one handled, was dispatched and then acked with its own tag. */
  ghost predicate HandledAt(events: seq<Event>, i: nat, ch: Channel, d: Delivery)
  {
    && 2 * i + 1 < |events|
    && (d.replyTo.Some? || d.text.Some?)
    && events[2 * i] == Dispatch(d)
    && events[2 * i + 1] == BasicAck(ch, d.tag)
  }

  /** The broker's answer to the ack of the `i`-th delivery handled from log position `n`. */
  function AckAnswer(answer: nat -> Reply, n: nat, i: nat): Reply
  {
    answer(n + 2 * i + 1)
  }

  /** `Consumer::run` on channel `ch` over the stream items `items`, starting at log position `n`. */
  function RunSpec(ch: Channel, items: seq<Result<Delivery, Error>>, answer: nat -> Reply, n: nat): (o: Outcome)
    decreases |items|
    ensures o.taken <= |items| && (o.taken == 0 <==> items == [])
    ensures |o.events| == 2 * (if o.exit.Panicked? then o.taken - 1 else o.taken)
  {
    if items == [] then Outcome([], Finished, 0)
    else if !WellFormed(items[0]) then Outcome([], Panicked, 1)
    else
      var d := items[0].value;
      var handled := [Dispatch(d), BasicAck(ch, d.tag)];
      match answer(n + 1)
      case Refuse(e) => Outcome(handled, Failed(e), 1)
      case Accept(_, _) =>
        var rest := RunSpec(ch, items[1..], answer, n + 2);
        Outcome(handled + rest.events, rest.exit, rest.taken + 1)
  }

  /**
   * Deliveries are handled strictly in stream order, two events each: the
   * dispatch (the reply destination, or the message text, printed) and then
   * the ack of that same delivery's own tag.
   */
  lemma {:induction false} RunHandlesInOrder(ch: Channel, items: seq<Result<Delivery, Error>>, answer: nat -> Reply, n: nat)
    decreases |items|
    ensures var o := RunSpec(ch, items, answer, n);
            forall i :: 0 <= i < |o.events| / 2 ==> items[i].Ok? && HandledAt(o.events, i, ch, items[i].value)
  {
    if items != [] && WellFormed(items[0]) && answer(n + 1).Accept? {
      RunHandlesInOrder(ch, items[1..], answer, n + 2);
      var o := RunSpec(ch, items, answer, n);
      var rest := RunSpec(ch, items[1..], answer, n + 2);
      forall i | 0 <= i < |o.events| / 2
        ensures items[i].Ok? && HandledAt(o.events, i, ch, items[i].value)
      {
        if i > 0 {
          assert HandledAt(rest.events, i - 1, ch, items[1..][i - 1].value);
          assert o.events[2 * i] == rest.events[2 * (i - 1)];
          assert o.events[2 * i + 1] == rest.events[2 * (i - 1) + 1];
        }
      }
    }
  }

  /**
   * Every ack but the last one logged was accepted, and the loop finishes
   * only after handling every item with every ack accepted.
   */
  lemma {:induction false} RunAcceptsBeforeStop(ch: Channel, items: seq<Result<Delivery, Error>>, answer: nat -> Reply, n: nat)
    decreases |items|
    ensures var o := RunSpec(ch, items, answer, n);
            forall i :: 0 <= i < |o.events| / 2 - 1 ==> AckAnswer(answer, n, i).Accept?
    ensures var o := RunSpec(ch, items, answer, n);
            o.exit.Finished? ==> o.taken == |items| && forall i :: 0 <= i < |items| ==> AckAnswer(answer, n, i).Accept?
  {
    if items != [] && WellFormed(items[0]) && answer(n + 1).Accept? {
      RunAcceptsBeforeStop(ch, items[1..], answer, n + 2);
      forall i | 0 < i < |items|
        ensures AckAnswer(answer, n, i) == AckAnswer(answer, n + 2, i - 1)
      {
      }
    }
  }

  /**
   * Why `run` stops early: it fails only on a refused ack, with that ack's
   * error, right after that ack; it panics only on an item that is not
   * well formed, the last one it took.
   */
  lemma {:induction false} RunStopsAtFirstFailure(ch: Channel, items: seq<Result<Delivery, Error>>, answer: nat -> Reply, n: nat)
    decreases |items|
    ensures var o := RunSpec(ch, items, answer, n);
            o.exit.Failed? ==> AckAnswer(answer, n, o.taken - 1) == Refuse(o.exit.error)
    ensures var o := RunSpec(ch, items, answer, n);
            o.exit.Panicked? ==> !WellFormed(items[o.taken - 1])
  {
    if items != [] && WellFormed(items[0]) && answer(n + 1).Accept? {
      RunStopsAtFirstFailure(ch, items[1..], answer, n + 2);
      var o := RunSpec(ch, items, answer, n);
      var rest := RunSpec(ch, items[1..], answer, n + 2);
      if o.exit.Failed? {
        assert AckAnswer(answer, n, o.taken - 1) == AckAnswer(answer, n + 2, rest.taken - 1);
      }
      if o.exit.Panicked? {
        assert items[o.taken - 1] == items[1..][rest.taken - 1];
      }
    }
  }

  /**
   * A stream of `k` well-formed deliveries whose acks are all accepted makes
   * `run` return `Ok` after exactly `k` acks, one per delivery, in order.
   */
  lemma RunAcksEveryDelivery(ch: Channel, items: seq<Result<Delivery, Error>>, answer: nat -> Reply, n: nat)
    requires forall i :: 0 <= i < |items| ==> WellFormed(items[i])
    requires forall i :: 0 <= i < |items| ==> AckAnswer(answer, n, i).Accept?
    ensures var o := RunSpec(ch, items, answer, n);
            && o.exit == Finished
            && |o.events| == 2 * |items|
            && forall i :: 0 <= i < |items| ==> items[i].Ok? && o.events[2 * i + 1] == BasicAck(ch, items[i].value.tag)
  {
    RunHandlesInOrder(ch, items, answer, n);
    RunAcceptsBeforeStop(ch, items, answer, n);
    RunStopsAtFirstFailure(ch, items, answer, n);
    var o := RunSpec(ch, items, answer, n);
    forall i | 0 <= i < |items|
      ensures items[i].Ok? && o.events[2 * i + 1] == BasicAck(ch, items[i].value.tag)
    {
      assert HandledAt(o.events, i, ch, items[i].value);
    }
  }

  /**
   * `run` resumed on `items` at log position `n`, after it logged `done`
   * and took `taken` items: the loop's own view of `RunSpec`.
   */
  function RunFrom(ch: Channel, items: seq<Result<Delivery, Error>>, answer: nat -> Reply, n: nat,
                   done: seq<Event>, taken: nat): Outcome
    decreases |items|
  {
    if items == [] then Outcome(done, Finished, taken)
    else if !WellFormed(items[0]) then Outcome(done, Panicked, taken + 1)
    else
      var d := items[0].value;
      var handled := [Dispatch(d), BasicAck(ch, d.tag)];
      match answer(n + 1)
      case Refuse(e) => Outcome(done + handled, Failed(e), taken + 1)
      case Accept(_, _) => RunFrom(ch, items[1..], answer, n + 2, done + handled, taken + 1)
  }

  /** Resuming after `done` and `taken` only prepends `done` and adds `taken`. */
  lemma {:induction false} RunFromResumes(ch: Channel, items: seq<Result<Delivery, Error>>, answer: nat -> Reply, n: nat,
                                          done: seq<Event>, taken: nat)
    decreases |items|
    ensures var rest := RunSpec(ch, items, answer, n);
            RunFrom(ch, items, answer, n, done, taken) == Outcome(done + rest.events, rest.exit, taken + rest.taken)
  {
    if items != [] && WellFormed(items[0]) && answer(n + 1).Accept? {
      var d := items[0].value;
      var handled := [Dispatch(d), BasicAck(ch, d.tag)];
      RunFromResumes(ch, items[1..], answer, n + 2, done + handled, taken + 1);
      var rest := RunSpec(ch, items[1..], answer, n + 2);
      assert done + (handled + rest.events) == (done + handled) + rest.events;
    }
  }

  class Consumer {
    const channel: Channel
    /** The subscription: the items its stream has still to yield. */
    var pending: seq<Result<Delivery, Error>>

    constructor (channel: Channel, pending: seq<Result<Delivery, Error>>)
      ensures this.channel == channel && this.pending == pending
    {
      this.channel, this.pending := channel, pending;
    }

    /** `Consumer::publish(queue)`: prints the queue name and never fails. */
    method Publish(queue: string, env: Environment) returns (r: Result<(), Error>)
      modifies env
      ensures r == Ok(())
      ensures env.log == old(env.log) + [Print(queue)]
    {
      env.Print(queue);
      r := Ok(());
    }

    /**
     * The body of one turn of `run`: dispatch `d` (publish to its reply
     * destination, or print its text), then ack it with its own tag.
     */
    method Handle(d: Delivery, env: Environment) returns (r: Result<(), Error>)
      requires d.replyTo.Some? || d.text.Some?
      modifies env
      ensures env.log == old(env.log) + [Dispatch(d), BasicAck(channel, d.tag)]
      ensures r == Acknowledged(env.answer(old(|env.log|) + 1))
    {
      if d.replyTo.Some? {
        var published := Publish(d.replyTo.value, env);
        if published.Err? {
          return published;
        }
      } else {
        env.Print(d.text.value);
      }
      var acked := env.Request(BasicAck(channel, d.tag));
      r := Acknowledged(acked);
    }

    /**
     * `Consumer::run`. Its `unwrap`s panic on an error item or on a plain
     * message without text, so the items it reaches must be well formed.
     */
    method Run(env: Environment) returns (r: Result<(), Error>)
      requires !RunSpec(channel, pending, env.answer, |env.log|).exit.Panicked?
      modifies this`pending, env
      ensures var o := RunSpec(channel, old(pending), env.answer, old(|env.log|));
              && env.log == old(env.log) + o.events
              && pending == old(pending)[o.taken..]
              && r == (if o.exit.Finished? then Ok(()) else Err(o.exit.error))
    {
      ghost var goal := RunSpec(channel, pending, env.answer, |env.log|);
      RunFromResumes(channel, pending, env.answer, |env.log|, [], 0);
      ghost var log0 := env.log;
      ghost var done: seq<Event> := [];
      ghost var taken := 0;
      ghost var n := |env.log|;
      var items := pending;
      while items != []
        invariant taken <= |old(pending)| && items == old(pending)[taken..]
        invariant env.log == log0 + done && n == |env.log|
        invariant goal == RunFrom(channel, items, env.answer, n, done, taken)
        decreases |items|
      {
        var delivery := items[0].value;
        ghost var handled := [Dispatch(delivery), BasicAck(channel, delivery.tag)];
        items := items[1..];
        taken := taken + 1;
        var acked := Handle(delivery, env);
        assert env.log == log0 + (done + handled);
        if acked.Err? {
          pending := items;
          return acked;
        }
        done := done + handled;
        n := n + 2;
      }
      pending := items;
      r := Ok(());
    }
  }

  class ConsumerBuilder {
    var queueOptions: QueueOptions
    var client: Option<Connection>

    /** `ConsumerBuilder::new(c)`. */
    constructor New(c: Connection)
      ensures client == Some(c) && queueOptions == DEFAULT_QUEUE_OPTIONS
    {
      client, queueOptions := Some(c), DEFAULT_QUEUE_OPTIONS;
    }

    /** `ConsumerBuilder::default()`: no connection. */
    constructor Default()
      ensures client == None && queueOptions == DEFAULT_QUEUE_OPTIONS
    {
      client, queueOptions := None, DEFAULT_QUEUE_OPTIONS;
    }

    /**
     * `consumer(queue)`: open a channel and declare `queue` on it, then
     * subscribe to the declared queue as "my_consumer". Each refusal is
     * returned as it is; on success the consumer holds that channel and the
     * subscription's stream.
     */
    method Consumer(queue: string, env: Environment) returns (r: Result<Consumer, Error>)
      requires client.Some?
      modifies env
      ensures var n := old(|env.log|);
              var openRequest := ChannelAndQueue(client.value, queue, queueOptions, EMPTY_TABLE);
              if env.answer(n).Refuse? then
                env.log == old(env.log) + [openRequest] && r == Err(env.answer(n).error)
              else
                && env.log == old(env.log) + [openRequest, BasicConsume(Channel(n), env.answer(n).name, CONSUMER_TAG)]
                && (env.answer(n + 1).Refuse? ==> r == Err(env.answer(n + 1).error))
                && (env.answer(n + 1).Accept? ==>
                      && r.Ok? && fresh(r.value)
                      && r.value.channel == Channel(n) && r.value.pending == env.answer(n + 1).deliveries)
    {
      var n := |env.log|;
      var declared := env.Request(ChannelAndQueue(client.value, queue, queueOptions, EMPTY_TABLE));
      if declared.Refuse? {
        return Err(declared.error);
      }
      var channel := Channel(n);
      var subscribed := env.Request(BasicConsume(channel, declared.name, CONSUMER_TAG));
      if subscribed.Refuse? {
        return Err(subscribed.error);
      }
      var c := new Consumer(channel, subscribed.deliveries);
      r := Ok(c);
    }
  }
}
