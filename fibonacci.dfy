/**
 * The streams and the future of src/fibonacci.rs.
 *
 * `Fibonacci` and `SlowFibonacci` are state machines on the pair
 * `(curr, next)` of two consecutive Fibonacci numbers; each `poll` emits
 * `curr` and moves one step. `Display` is a future that pulls at most `max`
 * values out of an inner stream, printing each one, and is resumable: its
 * counter `curr` survives a pending inner poll.
 */
module Fibonacci {
  import opened Wrappers
  import opened Futures

  /** Largest value of Rust's `u64`. */
  const U64_MAX: nat := 0xFFFF_FFFF_FFFF_FFFF

  /** The Fibonacci numbers, Fib(0) = 0, Fib(1) = Fib(2) = 1. */
  function Fib(n: nat): nat
  {
    if n == 0 then 0 else if n == 1 then 1 else Fib(n - 1) + Fib(n - 2)
  }

  /** The Fibonacci numbers never decrease. */
  lemma {:induction false} FibMonotone(i: nat, j: nat)
    requires i <= j
    ensures Fib(i) <= Fib(j)
    decreases j
  {
    if i < j {
      FibMonotone(i, j - 1);
    }
  }

  /** Ten places ahead of two consecutive Fibonacci numbers `a = Fib(k)` and `b = Fib(k + 1)`. */
  lemma TenAhead(k: nat)
    ensures Fib(k + 10) == 34 * Fib(k) + 55 * Fib(k + 1)
    ensures Fib(k + 11) == 55 * Fib(k) + 89 * Fib(k + 1)
  {
    var a, b := Fib(k), Fib(k + 1);
    assert Fib(k + 2) == a + b;
    assert Fib(k + 3) == a + 2 * b;
    assert Fib(k + 4) == 2 * a + 3 * b;
    assert Fib(k + 5) == 3 * a + 5 * b;
    assert Fib(k + 6) == 5 * a + 8 * b;
    assert Fib(k + 7) == 8 * a + 13 * b;
    assert Fib(k + 8) == 13 * a + 21 * b;
    assert Fib(k + 9) == 21 * a + 34 * b;
  }

  /**
   * The last Fibonacci number that fits in a `u64`, and the first that does
   * not, reached ten places at a time.
   */
  lemma FibAtU64Limit()
    ensures Fib(93) <= U64_MAX < Fib(94)
  {
    assert Fib(3) == 2 && Fib(4) == 3;
    TenAhead(3);
    assert Fib(13) == 233 && Fib(14) == 377;
    TenAhead(13);
    assert Fib(23) == 28657 && Fib(24) == 46368;
    TenAhead(23);
    assert Fib(33) == 3524578 && Fib(34) == 5702887;
    TenAhead(33);
    assert Fib(43) == 433494437 && Fib(44) == 701408733;
    TenAhead(43);
    assert Fib(53) == 53316291173 && Fib(54) == 86267571272;
    TenAhead(53);
    assert Fib(63) == 6557470319842 && Fib(64) == 10610209857723;
    TenAhead(63);
    assert Fib(73) == 806515533049393 && Fib(74) == 1304969544928657;
    TenAhead(73);
    assert Fib(83) == 99194853094755497 && Fib(84) == 160500643816367088;
    TenAhead(83);
    assert Fib(93) == 12200160415121876738 && Fib(94) == 19740274219868223167;
  }

  /** Both number streams hold two consecutive Fibonacci numbers after `polled` polls. */
  ghost predicate FibState(curr: nat, next: nat, polled: nat)
  {
    curr == Fib(polled + 1) && next == Fib(polled + 2)
  }

  /**
   * The state after `polled` polls admits one more poll, that is the `u64`
   * addition `curr + next` does not overflow, exactly for the first 91 polls.
   */
  lemma PollFitsU64(curr: nat, next: nat, polled: nat)
    requires FibState(curr, next, polled)
    ensures curr + next <= U64_MAX <==> polled <= 90
  {
    assert curr + next == Fib(polled + 3);
    FibFitsU64(polled + 3);
  }

  /** The Fibonacci numbers that fit a `u64` are exactly those up to `Fib(93)`. */
  lemma FibFitsU64(k: nat)
    ensures Fib(k) <= U64_MAX <==> k <= 93
  {
    FibAtU64Limit();
    if k <= 93 {
      FibMonotone(k, 93);
    } else {
      FibMonotone(94, k);
    }
  }

  /**
   * What a newly built `Fibonacci` stream answers to its `i`-th poll
   * (counting from 0). The `u64` stream gives these answers for polls 0 to
   * 90 only: poll 91 overflows (`PollFitsU64`).
   */
  function FibonacciStream(i: nat): Poll<Option<nat>, ()>
  {
    Ok(Ready(Some(Fib(i + 1))))
  }

  /** `Fibonacci`: a stream that never ends, never fails and is never pending. */
  class Fibonacci {
    var curr: nat
    var next: nat
    /** How many times this stream has been polled. */
    ghost var polled: nat

    ghost predicate Valid()
      reads this
    {
      FibState(curr, next, polled)
    }

    /** `Fibonacci::new()`, which is `Fibonacci::default()`. */
    constructor ()
      ensures Valid() && polled == 0
      ensures curr == 1 && next == 1
    {
      curr, next := 1, 1;
      polled := 0;
    }

    /** `poll`: emit `curr`, move to `(next, curr + next)`. */
    method Poll() returns (r: Poll<Option<nat>, ()>)
      requires Valid()
      requires curr + next <= U64_MAX
      modifies this
      ensures Valid() && polled == old(polled) + 1
      ensures r == Ok(Ready(Some(old(curr))))
      ensures r == FibonacciStream(old(polled))
      ensures curr == old(next) && next == old(curr) + old(next)
    {
      var value := curr;
      var sum := value + next;
      curr := next;
      next := sum;
      polled := polled + 1;
      r := Ok(Ready(Some(value)));
    }
  }

  /**
   * `SlowFibonacci`: the same stream, paced by a timer. The timer is not
   * modelled; each `poll` receives what the timer's own poll returned.
   */
  class SlowFibonacci {
    var curr: nat
    var next: nat
    ghost var polled: nat

    ghost predicate Valid()
      reads this
    {
      FibState(curr, next, polled)
    }

    /** `SlowFibonacci::new(duration)`; the duration only configures the timer. */
    constructor ()
      ensures Valid() && polled == 0
      ensures curr == 1 && next == 1
    {
      curr, next := 1, 1;
      polled := 0;
    }

    /**
     * `poll`: wait for the timer, then step like `Fibonacci::poll`. A pending
     * timer makes the stream pending and a timer error becomes `Err(())`;
     * in both cases the state is left as it was.
     */
    method Poll<T, TE>(tick: Poll<T, TE>) returns (r: Poll<Option<nat>, ()>)
      requires Valid()
      requires tick.Ok? && tick.value.Ready? ==> curr + next <= U64_MAX
      modifies this
      ensures Valid()
      ensures tick == Ok(NotReady) ==> r == Ok(NotReady)
      ensures tick.Err? ==> r == Err(())
      ensures !(tick.Ok? && tick.value.Ready?) ==>
                curr == old(curr) && next == old(next) && polled == old(polled)
      ensures tick.Ok? && tick.value.Ready? ==>
                r == FibonacciStream(old(polled)) && polled == old(polled) + 1 &&
                curr == old(next) && next == old(curr) + old(next)
    {
      match TryReady<T, Option<nat>, ()>(MapErr(tick, (_: TE) => ())) {
        case Return(early) =>
          r := early;
        case Continue(_) =>
          var value := curr;
          var sum := value + next;
          curr := next;
          next := sum;
          polled := polled + 1;
          r := Ok(Ready(Some(value)));
      }
    }
  }

  /** What one `Display::poll` does: its result, the inner stream's and the counter's new state, and what it printed. */
  datatype DisplayRun<+E, +V> = DisplayRun(result: Poll<(), E>, polls: nat, curr: nat, shown: seq<(nat, V)>)

  /**
   * One `Display::poll` over an inner stream whose `i`-th poll answers
   * `stream(i)`, starting when the stream has been polled `polls` times and
   * the counter is at `curr`. The loop runs while `curr < max`: each value
   * is printed as `(curr, value)` and counted; the end of the stream
   * completes the future early; a pending or failing inner poll is passed
   * on with the counter kept.
   */
  function Display<V, E>(stream: nat -> Poll<Option<V>, E>, polls: nat, curr: nat, max: nat): DisplayRun<E, V>
    decreases max - curr
  {
    if curr >= max then
      DisplayRun(Ok(Ready(())), polls, curr, [])
    else
      match TryReady<Option<V>, (), E>(stream(polls))
      case Return(early) => DisplayRun(early, polls + 1, curr, [])
      case Continue(None) => DisplayRun(Ok(Ready(())), polls + 1, curr, [])
      case Continue(Some(value)) =>
        var rest := Display(stream, polls + 1, curr + 1, max);
        DisplayRun(rest.result, rest.polls, rest.curr, [(curr, value)] + rest.shown)
  }

  /**
   * What one `Display::poll` guarantees: the counter only grows and never
   * passes `max`; the printed lines are numbered from the old counter on and
   * carry the inner stream's values in order; the inner stream is polled
   * once per printed value, plus once more when it stopped the loop before
   * `max`, so never more than `max - curr` times; the poll completes when the
   * counter reaches `max` or the stream ends, and otherwise passes on the
   * inner pending state or error.
   */
  lemma {:induction false} DisplayRunFacts<V, E>(stream: nat -> Poll<Option<V>, E>, polls: nat, curr: nat, max: nat)
    decreases max - curr
    ensures var o := Display(stream, polls, curr, max);
            && curr <= o.curr
            && (curr <= max ==> o.curr <= max)
            && |o.shown| == o.curr - curr
            && o.polls == polls + |o.shown| + (if o.curr < max then 1 else 0)
            && (o.curr >= max ==> o.result == Ok(Ready(())))
    ensures var o := Display(stream, polls, curr, max);
            forall i :: 0 <= i < |o.shown| ==>
              o.shown[i].0 == curr + i && stream(polls + i) == Ok(Ready(Some(o.shown[i].1)))
    ensures var o := Display(stream, polls, curr, max);
            o.curr < max ==>
              var last := stream(o.polls - 1);
              && !(last.Ok? && last.value.Ready? && last.value.value.Some?)
              && (o.result == Ok(Ready(())) <==> last == Ok(Ready(None)))
              && (o.result == Ok(NotReady) <==> last == Ok(NotReady))
              && (o.result.Err? <==> last.Err?)
              && (o.result.Err? ==> o.result.error == last.error)
  {
    if curr < max {
      match TryReady<Option<V>, (), E>(stream(polls)) {
        case Return(_) =>
        case Continue(None) =>
        case Continue(Some(value)) =>
          DisplayRunFacts(stream, polls + 1, curr + 1, max);
          var o := Display(stream, polls, curr, max);
          var rest := Display(stream, polls + 1, curr + 1, max);
          forall i | 0 <= i < |o.shown|
            ensures o.shown[i].0 == curr + i && stream(polls + i) == Ok(Ready(Some(o.shown[i].1)))
          {
            if i > 0 {
              assert o.shown[i] == rest.shown[i - 1];
            }
          }
      }
    }
  }

  /**
   * `Display::new(Fibonacci::new(), max)` completes on its first poll with
   * the counter at `max`, printing `value #i = Fib(i + 1)` for each `i < max`,
   * as long as those `max` polls stay within `u64`.
   */
  lemma DisplayFibonacciCompletes(max: nat)
    requires max <= 91
    ensures var o := Display(FibonacciStream, 0, 0, max);
            && o.result == Ok(Ready(()))
            && o.curr == max && o.polls == max
            && |o.shown| == max
            && forall i :: 0 <= i < max ==> o.shown[i] == (i, Fib(i + 1))
  {
    DisplayRunFacts(FibonacciStream, 0, 0, max);
  }

  /** `run` with the values it has already printed put in front. */
  function Join<E, V>(printed: seq<(nat, V)>, run: DisplayRun<E, V>): DisplayRun<E, V>
  {
    run.(shown := printed + run.shown)
  }

  /** `Display<T>`: a future that prints at most `max` values of its inner stream. */
  class DisplayFuture<V, E> {
    /** The inner stream, as the answer it gives to each of its polls. */
    const stream: nat -> Poll<Option<V>, E>
    const max: nat
    /** How many times the inner stream has been polled. */
    var polls: nat
    var curr: nat
    /** The lines `value #curr = value` printed so far. */
    var printed: seq<(nat, V)>

    ghost predicate Valid()
      reads this
    {
      curr <= max
    }

    /** `Display::new(stream, max)`. */
    constructor (stream: nat -> Poll<Option<V>, E>, max: nat)
      ensures Valid()
      ensures this.stream == stream && this.max == max
      ensures polls == 0 && curr == 0 && printed == []
    {
      this.stream := stream;
      this.max := max;
      polls, curr, printed := 0, 0, [];
    }

    /** `Display::poll`: the `while self.curr < self.max` loop. */
    method Poll() returns (r: Poll<(), E>)
      requires Valid()
      modifies this
      ensures Valid()
      ensures var o := Display(stream, old(polls), old(curr), max);
              r == o.result && polls == o.polls && curr == o.curr && printed == old(printed) + o.shown
    {
      ghost var goal := Display(stream, polls, curr, max);
      ghost var shownNow: seq<(nat, V)> := [];
      ghost var before := printed;
      while curr < max
        invariant curr <= max
        invariant printed == before + shownNow
        invariant goal == Join(shownNow, Display(stream, polls, curr, max))
        decreases max - curr
      {
        var item := stream(polls);
        polls := polls + 1;
        match TryReady<Option<V>, (), E>(item) {
          case Return(early) =>
            return early;
          case Continue(None) =>
            break;
          case Continue(Some(value)) =>
            ghost var rest := Display(stream, polls, curr + 1, max);
            assert shownNow + ([(curr, value)] + rest.shown) == (shownNow + [(curr, value)]) + rest.shown;
            printed := printed + [(curr, value)];
            shownNow := shownNow + [(curr, value)];
            curr := curr + 1;
        }
      }
      r := Ok(Ready(()));
    }
  }
}
