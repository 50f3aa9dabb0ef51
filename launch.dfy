/**
 * What the example binary in src/main.rs starts, and what its producer and
 * consumer tasks do. `thread_pool` spawns one task per producer and per
 * consumer on a thread pool; `local_pool` starts one thread per producer and
 * one thread per group of `consumers_per_thread` consumers, then joins them
 * all. A producer task runs `ASCIIGenerator::run`, a consumer task
 * `EchoConsumer::run`. Connections, spawns, joins, remote calls and the
 * stream of deliveries are oracles: each is given as the answer to the i-th
 * attempt.
 */
module Launch {
  import opened Wrappers
  import opened Broker
  import opened Options

  /** The queue every builder is pointed at. */
  const REQUEST_QUEUE: string := "request"

  datatype Role = Producing | Consuming

  /** A spawned task: a clone of the producer or consumer builder for `queue` over `conn`. */
  datatype Task = Task(role: Role, conn: Connection, queue: string)

  /** `n` copies of `x`, as a `for _ in 0..n` loop makes them. */
  function Copies<T>(x: T, n: nat): (r: seq<T>)
    ensures |r| == n
    ensures forall i :: 0 <= i < n ==> r[i] == x
  {
    if n == 0 then [] else Copies(x, n - 1) + [x]
  }

  /** How many tasks in `tasks` play `role`. */
  function CountRole(tasks: seq<Task>, role: Role): nat
  {
    if tasks == [] then 0
    else CountRole(tasks[..|tasks| - 1], role) + (if tasks[|tasks| - 1].role == role then 1 else 0)
  }

  lemma {:induction false} CountRoleAppend(a: seq<Task>, b: seq<Task>, role: Role)
    ensures CountRole(a + b, role) == CountRole(a, role) + CountRole(b, role)
    decreases |b|
  {
    if b != [] {
      assert (a + b)[..|a + b| - 1] == a + b[..|b| - 1];
      CountRoleAppend(a, b[..|b| - 1], role);
    } else {
      assert a + b == a;
    }
  }

  lemma {:induction false} CountRoleCopies(t: Task, n: nat, role: Role)
    ensures CountRole(Copies(t, n), role) == if t.role == role then n else 0
  {
    if n > 0 {
      assert Copies(t, n)[..n - 1] == Copies(t, n - 1);
      CountRoleCopies(t, n - 1, role);
    }
  }

  // ---------------------------------------------------------------------
  // `thread_pool`

  /** The tasks `thread_pool` spawns, in order: every producer, then every consumer. */
  function Roster(producerConn: Connection, producers: nat, consumerConn: Connection, consumers: nat): seq<Task>
  {
    Copies(Task(Producing, producerConn, REQUEST_QUEUE), producers)
      + Copies(Task(Consuming, consumerConn, REQUEST_QUEUE), consumers)
  }

  /**
   * The roster holds exactly `producers` producer tasks over the producer
   * connection and `consumers` consumer tasks over the consumer connection,
   * every one of them for the "request" queue.
   */
  lemma RosterCounts(producerConn: Connection, producers: nat, consumerConn: Connection, consumers: nat)
    ensures var roster := Roster(producerConn, producers, consumerConn, consumers);
            && |roster| == producers + consumers
            && CountRole(roster, Producing) == producers
            && CountRole(roster, Consuming) == consumers
            && forall i :: 0 <= i < |roster| ==>
                 && roster[i].queue == REQUEST_QUEUE
                 && roster[i].conn == (if roster[i].role == Producing then producerConn else consumerConn)
  {
    var p := Copies(Task(Producing, producerConn, REQUEST_QUEUE), producers);
    var c := Copies(Task(Consuming, consumerConn, REQUEST_QUEUE), consumers);
    CountRoleAppend(p, c, Producing);
    CountRoleAppend(p, c, Consuming);
    CountRoleCopies(Task(Producing, producerConn, REQUEST_QUEUE), producers, Producing);
    CountRoleCopies(Task(Producing, producerConn, REQUEST_QUEUE), producers, Consuming);
    CountRoleCopies(Task(Consuming, consumerConn, REQUEST_QUEUE), consumers, Producing);
    CountRoleCopies(Task(Consuming, consumerConn, REQUEST_QUEUE), consumers, Consuming);
  }

  /**
   * The set-up `thread_pool` does before spawning, each step ending it on
   * error: create the pool, connect for the producers, connect for the
   * consumers, enter the executor.
   */
  function Setup(pool: Result<(), Error>, producerConn: Result<Connection, Error>,
                 consumerConn: Result<Connection, Error>, enter: Result<(), Error>): (r: Result<(Connection, Connection), Error>)
    ensures r.Ok? <==> pool.Ok? && producerConn.Ok? && consumerConn.Ok? && enter.Ok?
    ensures r.Ok? ==> r.value == (producerConn.value, consumerConn.value)
    ensures pool.Err? ==> r == Err(pool.error)
    ensures pool.Ok? && producerConn.Err? ==> r == Err(producerConn.error)
    ensures pool.Ok? && producerConn.Ok? && consumerConn.Err? ==> r == Err(consumerConn.error)
    ensures pool.Ok? && producerConn.Ok? && consumerConn.Ok? && enter.Err? ==> r == Err(enter.error)
  {
    if pool.Err? then Err(pool.error)
    else if producerConn.Err? then Err(producerConn.error)
    else if consumerConn.Err? then Err(consumerConn.error)
    else if enter.Err? then Err(enter.error)
    else Ok((producerConn.value, consumerConn.value))
  }

  /**
   * `thread_pool(cfg)` up to its idle loop. After the set-up it spawns the
   * roster in order; `spawn(i)` is the outcome of the i-th spawn, and the
   * first failed one ends the function with its error, leaving the tasks
   * spawned before it running. `Ok` stands for reaching the idle loop, which
   * never returns.
   */
  method ThreadPoolLaunch(cfg: Config, pool: Result<(), Error>, producerConn: Result<Connection, Error>,
                          consumerConn: Result<Connection, Error>, enter: Result<(), Error>, spawn: nat -> Option<Error>)
    returns (spawned: seq<Task>, r: Result<(), Error>)
    ensures var setup := Setup(pool, producerConn, consumerConn, enter);
            setup.Err? ==> r == Err(setup.error) && spawned == []
    ensures var setup := Setup(pool, producerConn, consumerConn, enter);
            setup.Ok? ==>
              var roster := Roster(setup.value.0, cfg.producers, setup.value.1, cfg.consumers);
              && |spawned| <= |roster| && spawned == roster[..|spawned|]
              && (forall i :: 0 <= i < |spawned| ==> spawn(i).None?)
              && (r.Ok? <==> |spawned| == |roster|)
              && (r.Err? ==> spawn(|spawned|) == Some(r.error))
  {
    spawned := [];
    var setup := Setup(pool, producerConn, consumerConn, enter);
    if setup.Err? {
      return [], Err(setup.error);
    }
    var (pc, cc) := setup.value;
    ghost var roster := Roster(pc, cfg.producers, cc, cfg.consumers);
    var producer := Task(Producing, pc, REQUEST_QUEUE);
    var i := 0;
    while i < cfg.producers
      invariant i <= cfg.producers && |spawned| == i
      invariant spawned == roster[..i]
      invariant forall j :: 0 <= j < i ==> spawn(j).None?
    {
      var failed := spawn(|spawned|);
      if failed.Some? {
        return spawned, Err(failed.value);
      }
      spawned := spawned + [producer];
      i := i + 1;
    }
    var consumer := Task(Consuming, cc, REQUEST_QUEUE);
    i := 0;
    while i < cfg.consumers
      invariant i <= cfg.consumers && |spawned| == cfg.producers + i
      invariant spawned == roster[..cfg.producers + i]
      invariant forall j :: 0 <= j < |spawned| ==> spawn(j).None?
    {
      var failed := spawn(|spawned|);
      if failed.Some? {
        return spawned, Err(failed.value);
      }
      spawned := spawned + [consumer];
      i := i + 1;
    }
    r := Ok(());
  }

  // ---------------------------------------------------------------------
  // `local_pool`

  /** A thread `local_pool` starts: one producer, or a local pool running `consumers` consumers. */
  datatype Thread = ProducerThread(conn: Connection, queue: string) | ConsumerThread(conn: Connection, queue: string, consumers: nat)

  /** How many consumers the threads in `threads` run. */
  function ConsumersIn(threads: seq<Thread>): nat
  {
    if threads == [] then 0
    else ConsumersIn(threads[..|threads| - 1])
           + (match threads[|threads| - 1] case ConsumerThread(_, _, k) => k case ProducerThread(_, _) => 0)
  }

  lemma {:induction false} ConsumersInAppend(a: seq<Thread>, b: seq<Thread>)
    ensures ConsumersIn(a + b) == ConsumersIn(a) + ConsumersIn(b)
    decreases |b|
  {
    if b != [] {
      assert (a + b)[..|a + b| - 1] == a + b[..|b| - 1];
      ConsumersInAppend(a, b[..|b| - 1]);
    } else {
      assert a + b == a;
    }
  }

  lemma {:induction false} ConsumersInCopies(t: Thread, n: nat)
    ensures ConsumersIn(Copies(t, n)) == if t.ConsumerThread? then n * t.consumers else 0
  {
    if n > 0 {
      assert Copies(t, n)[..n - 1] == Copies(t, n - 1);
      ConsumersInCopies(t, n - 1);
    }
  }

  /** The threads `local_pool` starts, in order: every producer, then `consumers / perThread` consumer threads. */
  function Threads(producerConn: Connection, producers: nat, consumerConn: Connection, consumers: nat, perThread: nat): seq<Thread>
    requires perThread > 0
  {
    Copies(ProducerThread(producerConn, REQUEST_QUEUE), producers)
      + Copies(ConsumerThread(consumerConn, REQUEST_QUEUE, perThread), consumers / perThread)
  }

  /**
   * `local_pool` runs `(consumers / perThread) * perThread` consumers: all
   * of them when `perThread` divides `consumers`, and otherwise fewer, by
   * the remainder, which is below `perThread`.
   */
  lemma LocalPoolConsumerCount(producerConn: Connection, producers: nat, consumerConn: Connection, consumers: nat, perThread: nat)
    requires perThread > 0
    ensures var threads := Threads(producerConn, producers, consumerConn, consumers, perThread);
            && |threads| == producers + consumers / perThread
            && ConsumersIn(threads) == (consumers / perThread) * perThread
            && ConsumersIn(threads) <= consumers < ConsumersIn(threads) + perThread
            && (ConsumersIn(threads) == consumers <==> consumers % perThread == 0)
  {
    var p := Copies(ProducerThread(producerConn, REQUEST_QUEUE), producers);
    var c := Copies(ConsumerThread(consumerConn, REQUEST_QUEUE, perThread), consumers / perThread);
    ConsumersInAppend(p, c);
    ConsumersInCopies(ProducerThread(producerConn, REQUEST_QUEUE), producers);
    ConsumersInCopies(ConsumerThread(consumerConn, REQUEST_QUEUE, perThread), consumers / perThread);
    WholeGroups(consumers, perThread);
  }

  /** Whole groups of `size` cover all of `n` but a remainder below `size`, which is zero exactly when `size` divides `n`. */
  lemma WholeGroups(n: nat, size: nat)
    requires size > 0
    ensures (n / size) * size <= n < (n / size) * size + size
    ensures (n / size) * size == n <==> n % size == 0
  {
  }

  /** The indices below `n` of the threads whose `join` fails, ascending. */
  function FailedJoins(joinFails: nat -> bool, n: nat): seq<nat>
  {
    if n == 0 then [] else FailedJoins(joinFails, n - 1) + (if joinFails(n - 1) then [n - 1] else [])
  }

  /** Every failed join below `n` is reported, once, in thread order, and nothing else is. */
  lemma {:induction false} FailedJoinsExactly(joinFails: nat -> bool, n: nat)
    ensures var errs := FailedJoins(joinFails, n);
            && (forall k: nat :: k in errs <==> k < n && joinFails(k))
            && (forall a, b :: 0 <= a < b < |errs| ==> errs[a] < errs[b])
  {
    if n > 0 {
      FailedJoinsExactly(joinFails, n - 1);
      var prev := FailedJoins(joinFails, n - 1);
      var errs := FailedJoins(joinFails, n);
      assert errs == prev + (if joinFails(n - 1) then [n - 1] else []);
      forall k: nat
        ensures k in errs <==> k < n && joinFails(k)
      {
        assert k in errs <==> k in prev || (joinFails(n - 1) && k == n - 1);
      }
      forall a, b | 0 <= a < b < |errs|
        ensures errs[a] < errs[b]
      {
        if b == |prev| {
          assert errs[a] == prev[a] && prev[a] in prev;
        }
      }
    }
  }

  /**
   * `local_pool(cfg)`. Connect for the producers (`?`), start a thread per
   * producer, connect for the consumers (`?`: the producer threads are
   * already running), start `consumers / consumers_per_thread` consumer
   * threads, then join every thread in order; a failed join is only
   * reported, and the result is `Ok` once both connections succeeded. A
   * per-thread count of zero makes the division panic.
   */
  method LocalPoolLaunch(cfg: Config, producerConn: Result<Connection, Error>, consumerConn: Result<Connection, Error>,
                         joinFails: nat -> bool)
    returns (threads: seq<Thread>, joinErrors: seq<nat>, r: Result<(), Error>)
    requires cfg.consumersPerThread > 0
    ensures producerConn.Err? ==> r == Err(producerConn.error) && threads == [] && joinErrors == []
    ensures producerConn.Ok? && consumerConn.Err? ==>
              && r == Err(consumerConn.error)
              && threads == Copies(ProducerThread(producerConn.value, REQUEST_QUEUE), cfg.producers)
              && joinErrors == []
    ensures producerConn.Ok? && consumerConn.Ok? ==>
              && r == Ok(())
              && threads == Threads(producerConn.value, cfg.producers, consumerConn.value, cfg.consumers, cfg.consumersPerThread)
              && joinErrors == FailedJoins(joinFails, |threads|)
  {
    threads, joinErrors := [], [];
    if producerConn.Err? {
      return [], [], Err(producerConn.error);
    }
    var i := 0;
    while i < cfg.producers
      invariant i <= cfg.producers
      invariant threads == Copies(ProducerThread(producerConn.value, REQUEST_QUEUE), i)
    {
      threads := threads + [ProducerThread(producerConn.value, REQUEST_QUEUE)];
      i := i + 1;
    }
    var perThread := cfg.consumersPerThread;
    var consumers := cfg.consumers / perThread;
    if consumerConn.Err? {
      return threads, [], Err(consumerConn.error);
    }
    ghost var producerThreads := threads;
    i := 0;
    while i < consumers
      invariant i <= consumers
      invariant threads == producerThreads + Copies(ConsumerThread(consumerConn.value, REQUEST_QUEUE, perThread), i)
    {
      threads := threads + [ConsumerThread(consumerConn.value, REQUEST_QUEUE, perThread)];
      i := i + 1;
    }
    var k := 0;
    while k < |threads|
      invariant k <= |threads|
      invariant joinErrors == FailedJoins(joinFails, k)
    {
      if joinFails(k) {
        joinErrors := joinErrors + [k];
      }
      k := k + 1;
    }
    r := Ok(());
  }

  // ---------------------------------------------------------------------
  // `ASCIIGenerator`

  /** The bytes one round sends, from `!` to `~`, ascending. */
  function AsciiBytes(): (s: seq<Byte>)
    ensures |s| == 94
    ensures forall i :: 0 <= i < 94 ==> s[i] == 33 + i
  {
    seq(94, i requires 0 <= i < 94 => 33 + i)
  }

  /** `print_buf(resp)`: an empty response prints nothing; any other is decoded and its message, if any, printed. */
  function PrintBuf(resp: seq<Byte>, decode: seq<Byte> -> Option<string>): (out: Option<string>)
    ensures resp == [] ==> out == None
    ensures out.Some? ==> decode(resp) == out
    ensures resp != [] ==> out == decode(resp)
  {
    if resp == [] then None else decode(resp)
  }

  /** What `print_buf` writes for the first `k` responses, all of them successful. */
  function Printed(rpc: nat -> Result<seq<Byte>, Error>, decode: seq<Byte> -> Option<string>, k: nat): seq<string>
    requires forall i :: 0 <= i < k ==> rpc(i).Ok?
  {
    if k == 0 then []
    else
      Printed(rpc, decode, k - 1)
        + match PrintBuf(rpc(k - 1).value, decode) case Some(text) => [text] case None => []
  }

  /**
   * One round of `ASCIIGenerator::run`'s outer loop: one `rpc` per byte of
   * `AsciiBytes()`, in order, each response handed to `print_buf`; the
   * first failed `rpc` ends the run with its error. `rpc(i)` is the outcome
   * of the round's i-th call; the message envelope is not modelled, so the
   * request is its single byte.
   */
  method AsciiRound(rpc: nat -> Result<seq<Byte>, Error>, decode: seq<Byte> -> Option<string>)
    returns (sent: seq<Byte>, printed: seq<string>, r: Result<(), Error>)
    ensures 0 < |sent| <= 94 && sent == AsciiBytes()[..|sent|]
    ensures forall i :: 0 <= i < |sent| - 1 ==> rpc(i).Ok?
    ensures r.Ok? <==> |sent| == 94 && rpc(93).Ok?
    ensures r.Err? ==> rpc(|sent| - 1) == Err(r.error) && printed == Printed(rpc, decode, |sent| - 1)
    ensures r.Ok? ==> printed == Printed(rpc, decode, 94)
  {
    sent, printed := [], [];
    var data: Byte := 33;
    while true
      invariant 33 <= data <= 126 && |sent| == data - 33
      invariant forall i :: 0 <= i < |sent| ==> sent[i] == 33 + i
      invariant forall i :: 0 <= i < |sent| ==> rpc(i).Ok?
      invariant printed == Printed(rpc, decode, |sent|)
      decreases 126 - data
    {
      sent := sent + [data];
      var resp := rpc(data - 33);
      if resp.Err? {
        assert sent == AsciiBytes()[..|sent|];
        return sent, printed, Err(resp.error);
      }
      var out := PrintBuf(resp.value, decode);
      if out.Some? {
        printed := printed + [out.value];
      }
      if data == 126 {
        break;
      }
      data := data + 1;
    }
    assert sent == AsciiBytes()[..|sent|];
    r := Ok(());
  }

  // ---------------------------------------------------------------------
  // `EchoConsumer`

  /**
   * `EchoConsumer::run` over the stream `stream`: answer each delivery with
   * that delivery's own data, in order; a stream error or a failed answer
   * (`respond(i)` for the i-th answer) ends the run with that error, and the
   * end of the stream with `Ok`.
   */
  method EchoRun(stream: seq<Result<Delivery, Error>>, respond: nat -> Result<(), Error>)
    returns (answered: seq<(Delivery, seq<Byte>)>, r: Result<(), Error>)
    ensures |answered| <= |stream|
    ensures forall i :: 0 <= i < |answered| ==> stream[i].Ok? && answered[i] == (stream[i].value, stream[i].value.data)
    ensures forall i :: 0 <= i < |answered| - 1 ==> respond(i).Ok?
    ensures r.Ok? <==> |answered| == |stream| && forall i :: 0 <= i < |stream| ==> respond(i).Ok?
    ensures r.Err? ==>
              || (answered != [] && respond(|answered| - 1) == Err(r.error))
              || (|answered| < |stream| && stream[|answered|] == Err(r.error)
                  && forall i :: 0 <= i < |answered| ==> respond(i).Ok?)
  {
    answered := [];
    var k := 0;
    while k < |stream|
      invariant k <= |stream| && |answered| == k
      invariant forall i :: 0 <= i < k ==> stream[i].Ok? && answered[i] == (stream[i].value, stream[i].value.data)
      invariant forall i :: 0 <= i < k ==> respond(i).Ok?
    {
      match stream[k]
      case Err(e) =>
        return answered, Err(e);
      case Ok(req) =>
        answered := answered + [(req, req.data)];
        var sent := respond(k);
        if sent.Err? {
          return answered, sent;
        }
      k := k + 1;
    }
    r := Ok(());
  }
}
