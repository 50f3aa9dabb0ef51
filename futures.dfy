/**
 * The futures 0.1 polling vocabulary: `Async<T>` and
 * `Poll<T, E> = Result<Async<T>, E>`, and the `try_ready!` macro.
 */
module Futures {
  import opened Wrappers

  datatype Async<+T> = Ready(value: T) | NotReady

  /** `futures::Poll<T, E>`: `Ok(Ready(v))`, `Ok(NotReady)` or `Err(e)`. */
  type Poll<+T, +E> = Result<Async<T>, E>

  /** What `try_ready!(e)` does: go on with the ready value, or leave the poll early. */
  datatype Flow<+T, +R> = Continue(value: T) | Return(early: R)

  /**
   * `try_ready!(p)`: a ready value is handed on; `NotReady` makes the enclosing
   * `poll` return `Ok(NotReady)`, and an error makes it return that same error.
   */
  function TryReady<T, U, E>(p: Poll<T, E>): (f: Flow<T, Poll<U, E>>)
    ensures f.Continue? <==> p.Ok? && p.value.Ready?
    ensures f.Continue? ==> f.value == p.value.value
    ensures p == Ok(NotReady) ==> f == Return(Ok(NotReady))
    ensures p.Err? ==> f == Return(Err(p.error))
  {
    match p
    case Ok(Ready(v)) => Continue(v)
    case Ok(NotReady) => Return(Ok(NotReady))
    case Err(e) => Return(Err(e))
  }

  /** `p.map_err(f)`: the same poll with its error replaced by `f` of it. */
  function MapErr<T, E, F>(p: Poll<T, E>, f: E -> F): (q: Poll<T, F>)
    ensures p.Ok? <==> q.Ok?
    ensures p.Ok? ==> q.value == p.value
    ensures p.Err? ==> q.error == f(p.error)
  {
    match p
    case Ok(a) => Ok(a)
    case Err(e) => Err(f(e))
  }
}
