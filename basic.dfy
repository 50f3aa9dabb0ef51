/**
 * The hand-written futures of src/basic.rs: a future that is immediately
 * ready with "hello world", and two wrappers that poll an inner future and
 * print its value once it is ready. Both wrappers update no state of their
 * own, so each `poll` is a function of what the inner `poll` returned.
 */
module Basic {
  import opened Wrappers
  import opened Futures

  const HELLO_WORLD: string := "hello world"
  const DISPLAY_NAME: string := "basic::Display"
  const BETTER_DISPLAY_NAME: string := "basic::BetterDisplay"

  /** A line `[name]: value` written to standard output. */
  datatype Line<+T> = Line(name: string, value: T)

  /** The outcome of one wrapper poll: its poll result and the line it printed, if any. */
  datatype Polled<+E, +T> = Polled(result: Poll<(), E>, printed: Option<Line<T>>)

  /** `HelloWorld::poll`: never pending, never failing. */
  function HelloWorldPoll(): (r: Poll<string, ()>)
    ensures r.Ok? && r.value.Ready? && r.value.value == HELLO_WORLD
  {
    Ok(Ready(HELLO_WORLD))
  }

  /**
   * `Display::poll`, written with an explicit match on the inner poll:
   * completes exactly when the inner future is ready, printing its value,
   * stays pending while it is pending, and hands its error back unchanged.
   */
  function DisplayPoll<T, E>(inner: Poll<T, E>): (r: Polled<E, T>)
    ensures r.result == Ok(Ready(())) <==> inner.Ok? && inner.value.Ready?
    ensures r.result == Ok(NotReady) <==> inner == Ok(NotReady)
    ensures r.result.Err? <==> inner.Err?
    ensures r.result.Err? ==> r.result.error == inner.error
    ensures r.printed.Some? <==> r.result == Ok(Ready(()))
    ensures r.printed.Some? ==> r.printed.value == Line(DISPLAY_NAME, inner.value.value)
  {
    match inner
    case Ok(Ready(value)) => Polled(Ok(Ready(())), Some(Line(DISPLAY_NAME, value)))
    case Ok(NotReady) => Polled(Ok(NotReady), None)
    case Err(err) => Polled(Err(err), None)
  }

  /** `BetterDisplay::poll`, written with `try_ready!`. */
  function BetterDisplayPoll<T, E>(inner: Poll<T, E>): (r: Polled<E, T>)
    ensures r.printed.Some? ==> r.printed.value.name == BETTER_DISPLAY_NAME
  {
    match TryReady<T, (), E>(inner)
    case Continue(value) => Polled(Ok(Ready(())), Some(Line(BETTER_DISPLAY_NAME, value)))
    case Return(early) => Polled(early, None)
  }

  /**
   * The two wrappers are interchangeable: for every inner outcome they return
   * the same poll result and print the same value; only the name in the
   * printed line differs.
   */
  lemma BetterDisplayAgreesWithDisplay<T, E>(inner: Poll<T, E>)
    ensures BetterDisplayPoll(inner).result == DisplayPoll(inner).result
    ensures BetterDisplayPoll(inner).printed.Some? <==> DisplayPoll(inner).printed.Some?
    ensures BetterDisplayPoll(inner).printed.Some? ==>
              BetterDisplayPoll(inner).printed.value.value == DisplayPoll(inner).printed.value.value
  {
  }

  /** `Display(HelloWorld)` completes on its first poll, printing "hello world". */
  lemma DisplayHelloWorldCompletes()
    ensures DisplayPoll(HelloWorldPoll()) == Polled(Ok(Ready(())), Some(Line(DISPLAY_NAME, HELLO_WORLD)))
    ensures BetterDisplayPoll(HelloWorldPoll()) == Polled(Ok(Ready(())), Some(Line(BETTER_DISPLAY_NAME, HELLO_WORLD)))
  {
  }
}
