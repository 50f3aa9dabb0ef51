/**
 * The example binary's configuration, `Config::parse` in src/main.rs, from
 * the point where clap has matched the command line: the option values
 * (clap fills in each declared default), and the values of the optional
 * `tune` subcommand. The runtime name, the AMQP URI and the three counts
 * are derived from them here.
 */
module Options {
  import opened Wrappers

  /** `usize` on the 64-bit targets the example is built for. */
  const USIZE_MAX: nat := 0xFFFF_FFFF_FFFF_FFFF

  const PRODUCERS: nat := 32
  const CONSUMERS: nat := 64
  const CONSUMERS_PER_THREAD: nat := 8

  /** The `Runtime` enum declared with clap's `arg_enum!`. */
  datatype Runtime = ThreadPool | LocalPool

  /** What clap matched: option name to value, and the `tune` subcommand's own matches when it was given. */
  datatype Matches = Matches(values: map<string, string>, tune: Option<map<string, string>>)

  datatype Config = Config(uri: string, runtime: Runtime, producers: nat, consumers: nat, consumersPerThread: nat)

  /** `matches.value_of(name)`: a name clap did not match, or never declared, has no value. */
  function ValueOf(values: map<string, string>, name: string): (r: Option<string>)
    ensures r.Some? <==> name in values
    ensures r.Some? ==> r.value == values[name]
  {
    if name in values then Some(values[name]) else None
  }

  // ---------------------------------------------------------------------
  // `usize::from_str` and `usize::to_string`

  predicate IsDigit(c: char)
  {
    '0' <= c <= '9'
  }

  function DigitValue(c: char): nat
    requires IsDigit(c)
  {
    c as nat - '0' as nat
  }

  function DigitChar(d: nat): char
    requires d < 10
  {
    ('0' as nat + d) as char
  }

  predicate AllDigits(s: string)
  {
    forall i :: 0 <= i < |s| ==> IsDigit(s[i])
  }

  /** The number a string of decimal digits denotes, most significant digit first. */
  function DigitsValue(s: string): nat
    requires AllDigits(s)
  {
    if s == [] then 0 else DigitsValue(s[..|s| - 1]) * 10 + DigitValue(s[|s| - 1])
  }

  /**
   * `s.parse::<usize>()`: an optional `+`, then at least one decimal digit
   * and nothing else, denoting at most `usize::MAX`. Anything else (the
   * empty string, a lone sign, a `-`, any other character, an overflow)
   * is an error, here `None`.
   */
  function ParseUsize(s: string): (r: Option<nat>)
    ensures r.Some? ==> r.value <= USIZE_MAX
    ensures r.Some? ==> s != [] && (IsDigit(s[0]) || s[0] == '+') && AllDigits(s[1..])
    ensures s == [] || (!IsDigit(s[0]) && s[0] != '+') ==> r == None
    ensures r.Some? ==> r.value == DigitsValue(if s[0] == '+' then s[1..] else s)
  {
    if s == [] then None
    else
      var digits := if s[0] == '+' then s[1..] else s;
      if digits == [] || !AllDigits(digits) then None
      else
        var v := DigitsValue(digits);
        if v <= USIZE_MAX then Some(v) else None
  }

  /** `n.to_string()`: decimal, without leading zeros. */
  function Decimal(n: nat): string
  {
    if n < 10 then [DigitChar(n)] else Decimal(n / 10) + [DigitChar(n % 10)]
  }

  /** `to_string` writes only digits, and the first one is a zero only for zero itself. */
  lemma {:induction false} DecimalDigits(n: nat)
    ensures var s := Decimal(n);
            && s != [] && AllDigits(s) && DigitsValue(s) == n
            && (s[0] == '0' <==> n == 0)
  {
    if n >= 10 {
      DecimalDigits(n / 10);
      var s := Decimal(n);
      assert s[..|s| - 1] == Decimal(n / 10);
    }
  }

  /** Parsing what `to_string` printed gives the number back, for every `usize`. */
  lemma ParseDecimal(n: nat)
    requires n <= USIZE_MAX
    ensures ParseUsize(Decimal(n)) == Some(n)
  {
    DecimalDigits(n);
  }

  /** A zero in front of a digit string changes neither its form nor its value. */
  lemma {:induction false} LeadingZero(d: string)
    requires AllDigits(d)
    ensures AllDigits("0" + d) && DigitsValue("0" + d) == DigitsValue(d)
    decreases |d|
  {
    if d != [] {
      var front := d[..|d| - 1];
      LeadingZero(front);
      assert ("0" + d)[..|d|] == "0" + front;
    }
  }

  /** Any run of leading zeros changes neither the form nor the value of a digit string. */
  lemma {:induction false} LeadingZeros(zeros: string, d: string)
    requires forall i :: 0 <= i < |zeros| ==> zeros[i] == '0'
    requires AllDigits(d)
    ensures AllDigits(zeros + d) && DigitsValue(zeros + d) == DigitsValue(d)
    decreases |zeros|
  {
    if zeros != [] {
      var rest := zeros[1..] + d;
      LeadingZeros(zeros[1..], d);
      LeadingZero(rest);
      assert zeros + d == "0" + rest;
      assert DigitsValue(zeros + d) == DigitsValue("0" + rest);
    } else {
      assert zeros + d == d;
    }
  }

  /**
   * `parse` accepts every spelling of a `usize`: an optional `+`, any run of
   * leading zeros, then the number's decimal digits.
   */
  lemma ParseSpellings(sign: string, zeros: string, n: nat)
    requires sign == "" || sign == "+"
    requires forall i :: 0 <= i < |zeros| ==> zeros[i] == '0'
    requires n <= USIZE_MAX
    ensures ParseUsize(sign + zeros + Decimal(n)) == Some(n)
  {
    DecimalDigits(n);
    LeadingZeros(zeros, Decimal(n));
    var s := sign + zeros + Decimal(n);
    var digits := zeros + Decimal(n);
    if sign == "+" {
      assert s[0] == '+' && s[1..] == digits;
    } else {
      assert s == digits && s[0] != '+';
    }
  }

  // ---------------------------------------------------------------------
  // The `Runtime` name

  /** ASCII lower-casing; every other character is kept. */
  function AsciiLower(c: char): char
  {
    if 'A' <= c <= 'Z' then (c as int + 32) as char else c
  }

  /** `str::eq_ignore_ascii_case`. */
  predicate EqIgnoreAsciiCase(a: string, b: string)
  {
    |a| == |b| && forall i :: 0 <= i < |a| ==> AsciiLower(a[i]) == AsciiLower(b[i])
  }

  /**
   * `Runtime::from_str` as `arg_enum!` generates it: the name of a variant,
   * in any ASCII case; anything else is an error.
   */
  function RuntimeFromStr(s: string): (r: Option<Runtime>)
    ensures r == Some(ThreadPool) <==> EqIgnoreAsciiCase(s, "ThreadPool")
    ensures r == Some(LocalPool) <==> EqIgnoreAsciiCase(s, "LocalPool")
    ensures r == None <==> !EqIgnoreAsciiCase(s, "ThreadPool") && !EqIgnoreAsciiCase(s, "LocalPool")
  {
    if EqIgnoreAsciiCase(s, "ThreadPool") then Some(ThreadPool)
    else if EqIgnoreAsciiCase(s, "LocalPool") then Some(LocalPool)
    else None
  }

  /** `value_t!(m, name, T)`: missing and unparsable values are both errors, here `None`. */
  function ValueUsize(values: map<string, string>, name: string): (r: Option<nat>)
    ensures r.Some? ==> name in values && ParseUsize(values[name]) == r
    ensures name in values ==> r == ParseUsize(values[name])
  {
    match ValueOf(values, name)
    case None => None
    case Some(s) => ParseUsize(s)
  }

  /** The value of a `tune` option, when the subcommand was given and the value parses. */
  function TuneValue(tune: Option<map<string, string>>, name: string): Option<nat>
  {
    match tune
    case None => None
    case Some(values) => ValueUsize(values, name)
  }

  // ---------------------------------------------------------------------
  // The AMQP URI

  /** `format!("{}://{}:{}@{}/{}", scheme, user, pass, cluster, vhost)`. */
  function Uri(scheme: string, user: string, pass: string, cluster: string, vhost: string): (r: string)
    ensures |r| == |scheme| + |user| + |pass| + |cluster| + |vhost| + 6
    ensures r[..|scheme| + 3] == scheme + "://"
    ensures r[|r| - |vhost| - 1..] == "/" + vhost
  {
    scheme + "://" + user + ":" + pass + "@" + cluster + "/" + vhost
  }

  /** Where `c` first occurs in `s`, or `|s|` when it does not. */
  function IndexOf(s: string, c: char): (k: nat)
    ensures k <= |s| && c !in s[..k]
    ensures k < |s| ==> s[k] == c
  {
    if s == [] then 0 else if s[0] == c then 0 else 1 + IndexOf(s[1..], c)
  }

  lemma {:induction false} IndexOfAfter(a: string, c: char, b: string)
    requires c !in a
    ensures IndexOf(a + [c] + b, c) == |a|
  {
    if a != [] {
      assert (a + [c] + b)[1..] == a[1..] + [c] + b;
      IndexOfAfter(a[1..], c, b);
    }
  }

  /** Cutting at the first `c` recovers both sides of a join at `c` whose left side holds no `c`. */
  lemma SplitAtFirst(a: string, b: string, a': string, b': string, c: char)
    requires c !in a && c !in a'
    requires a + [c] + b == a' + [c] + b'
    ensures a == a' && b == b'
  {
    var u := a + [c] + b;
    IndexOfAfter(a, c, b);
    IndexOfAfter(a', c, b');
    assert a == u[..|a|];
    assert a' == u[..|a'|];
    assert b == u[|a| + 1..];
    assert b' == u[|a'| + 1..];
  }

  /**
   * The URI determines its five parts, as long as the scheme and the user
   * hold no `:`, the password no `@` and the cluster no `/`.
   */
  lemma UriDeterminesParts(scheme: string, user: string, pass: string, cluster: string, vhost: string,
                           scheme': string, user': string, pass': string, cluster': string, vhost': string)
    requires ':' !in scheme && ':' !in user && '@' !in pass && '/' !in cluster
    requires ':' !in scheme' && ':' !in user' && '@' !in pass' && '/' !in cluster'
    requires Uri(scheme, user, pass, cluster, vhost) == Uri(scheme', user', pass', cluster', vhost')
    ensures scheme == scheme' && user == user' && pass == pass' && cluster == cluster' && vhost == vhost'
  {
    var tail3, tail3' := cluster + "/" + vhost, cluster' + "/" + vhost';
    var tail2, tail2' := pass + "@" + tail3, pass' + "@" + tail3';
    var tail1, tail1' := user + ":" + tail2, user' + ":" + tail2';
    assert Uri(scheme, user, pass, cluster, vhost) == scheme + [':'] + ("//" + tail1);
    assert Uri(scheme', user', pass', cluster', vhost') == scheme' + [':'] + ("//" + tail1');
    SplitAtFirst(scheme, "//" + tail1, scheme', "//" + tail1', ':');
    assert tail1 == ("//" + tail1)[2..];
    assert tail1' == ("//" + tail1')[2..];
    SplitAtFirst(user, tail2, user', tail2', ':');
    SplitAtFirst(pass, tail3, pass', tail3', '@');
    SplitAtFirst(cluster, vhost, cluster', vhost', '/');
  }

  // ---------------------------------------------------------------------
  // `Config::parse`

  /** The runtime `value_t!` yields for the `runtime` value, `ThreadPool` when it is absent or does not parse. */
  function RuntimeOf(named: Option<string>, parse: string -> Option<Runtime>): Runtime
  {
    if named.Some? && parse(named.value).Some? then parse(named.value).value else ThreadPool
  }

  /** What `Config::parse` builds from the matches `m`, as written. */
  function ParseSpec(m: Matches): (cfg: Config)
    ensures cfg.runtime == LocalPool <==> "runtime" in m.values && EqIgnoreAsciiCase(m.values["runtime"], "LocalPool")
    ensures cfg.uri == Uri(UnwrapOr(ValueOf(m.values, "scheme"), "amqp"), UnwrapOr(ValueOf(m.values, "username"), "rabbit"),
                           UnwrapOr(ValueOf(m.values, "password"), "password"), UnwrapOr(ValueOf(m.values, "cluster"), "cluster"),
                           UnwrapOr(ValueOf(m.values, "vhost"), ""))
    ensures cfg.producers == UnwrapOr(TuneValue(m.tune, "producers"), PRODUCERS)
    ensures cfg.consumers == UnwrapOr(TuneValue(m.tune, "consumers"), PRODUCERS)
    ensures cfg.consumersPerThread == UnwrapOr(TuneValue(m.tune, "consumers_per_thread"), CONSUMERS_PER_THREAD)
    ensures cfg.producers <= USIZE_MAX && cfg.consumers <= USIZE_MAX && cfg.consumersPerThread <= USIZE_MAX
  {
    Config(Uri(UnwrapOr(ValueOf(m.values, "scheme"), "amqp"), UnwrapOr(ValueOf(m.values, "username"), "rabbit"),
           UnwrapOr(ValueOf(m.values, "password"), "password"), UnwrapOr(ValueOf(m.values, "cluster"), "cluster"),
           UnwrapOr(ValueOf(m.values, "vhost"), "")),
           RuntimeOf(ValueOf(m.values, "runtime"), RuntimeFromStr),
           UnwrapOr(TuneValue(m.tune, "producers"), PRODUCERS),
           UnwrapOr(TuneValue(m.tune, "consumers"), PRODUCERS),
           UnwrapOr(TuneValue(m.tune, "consumers_per_thread"), CONSUMERS_PER_THREAD))
  }

  /**
   * `Config::parse` after clap's matching, as written. The runtime is the
   * parsed `runtime` value, `ThreadPool` when it does not parse; each URI
   * part falls back to its `unwrap_or` literal; each count starts at its
   * default (`consumers` at `PRODUCERS`) and is replaced by the `tune`
   * value of the same name when the subcommand was given and that value
   * parses. The per-thread count is looked up as "consumers_per_thread".
   */
  method Parse(m: Matches) returns (cfg: Config)
    ensures cfg == ParseSpec(m)
  {
    var runtime := ThreadPool;
    var named := ValueOf(m.values, "runtime");
    if named.Some? {
      var parsed := RuntimeFromStr(named.value);
      if parsed.Some? {
        runtime := parsed.value;
      }
    }
    var scheme := UnwrapOr(ValueOf(m.values, "scheme"), "amqp");
    var user := UnwrapOr(ValueOf(m.values, "username"), "rabbit");
    var pass := UnwrapOr(ValueOf(m.values, "password"), "password");
    var cluster := UnwrapOr(ValueOf(m.values, "cluster"), "cluster");
    var vhost := UnwrapOr(ValueOf(m.values, "vhost"), "");
    var uri := Uri(scheme, user, pass, cluster, vhost);
    var producers := PRODUCERS;
    var consumers := PRODUCERS;
    var consumersPerThread := CONSUMERS_PER_THREAD;
    if m.tune.Some? {
      var val := ValueUsize(m.tune.value, "producers");
      if val.Some? {
        producers := val.value;
      }
      val := ValueUsize(m.tune.value, "consumers");
      if val.Some? {
        consumers := val.value;
      }
      val := ValueUsize(m.tune.value, "consumers_per_thread");
      if val.Some? {
        consumersPerThread := val.value;
      }
    }
    cfg := Config(uri, runtime, producers, consumers, consumersPerThread);
  }

  /** The values clap can hand over for `runtime`: its two possible values. */
  predicate RuntimeChoice(m: Matches)
  {
    "runtime" in m.values && m.values["runtime"] in {"thread-pool", "local-pool"}
  }

  /** The options the `tune` subcommand declares; clap's matches hold no other name. */
  predicate TuneDeclared(m: Matches)
  {
    m.tune.Some? ==> forall name :: name in m.tune.value ==> name in {"producers", "consumers", "consumers-per-thread"}
  }

  /**
   * As written, the runtime is `ThreadPool` whatever is chosen: clap only
   * lets through "thread-pool" and "local-pool", and neither is a variant
   * name in any case, so `from_str` fails and `unwrap_or` takes over.
   */
  lemma LocalPoolNeverSelected(m: Matches)
    requires RuntimeChoice(m)
    ensures ParseSpec(m).runtime == ThreadPool
  {
  }

  /**
   * As written, `--consumers-per-thread` is never read: the lookup uses
   * "consumers_per_thread", a name the subcommand does not declare, so the
   * default stays.
   */
  lemma ConsumersPerThreadIgnored(m: Matches)
    requires TuneDeclared(m)
    ensures ParseSpec(m).consumersPerThread == CONSUMERS_PER_THREAD
  {
  }

  /**
   * As written, the consumer count depends on whether `tune` was given at
   * all: without it the count is `PRODUCERS` (32), with it and its own
   * default value it is `CONSUMERS` (64).
   */
  lemma ConsumersDefaultIsProducers(m: Matches, m': Matches)
    requires m.tune.None?
    requires m'.tune == Some(map["producers" := Decimal(PRODUCERS), "consumers" := Decimal(CONSUMERS),
                                 "consumers-per-thread" := Decimal(CONSUMERS_PER_THREAD)])
    ensures ParseSpec(m).consumers == 32 && ParseSpec(m').consumers == 64
  {
    ParseDecimal(CONSUMERS);
  }

  /** `from_str` as the declared possible values evidently meant it: "thread-pool" and "local-pool". */
  function RuntimeFromChoice(s: string): (r: Option<Runtime>)
    ensures r == Some(LocalPool) <==> s == "local-pool"
    ensures r == Some(ThreadPool) <==> s == "thread-pool"
  {
    if s == "thread-pool" then Some(ThreadPool)
    else if s == "local-pool" then Some(LocalPool)
    else None
  }

  /** What `Config::parse` evidently meant to build from the matches `m`. */
  function IntendedSpec(m: Matches): (cfg: Config)
    ensures RuntimeChoice(m) ==> (cfg.runtime == LocalPool <==> m.values["runtime"] == "local-pool")
    ensures cfg.uri == ParseSpec(m).uri && cfg.producers == ParseSpec(m).producers
    ensures cfg.consumers == UnwrapOr(TuneValue(m.tune, "consumers"), CONSUMERS)
    ensures cfg.consumersPerThread == UnwrapOr(TuneValue(m.tune, "consumers-per-thread"), CONSUMERS_PER_THREAD)
  {
    Config(Uri(UnwrapOr(ValueOf(m.values, "scheme"), "amqp"), UnwrapOr(ValueOf(m.values, "username"), "rabbit"),
           UnwrapOr(ValueOf(m.values, "password"), "password"), UnwrapOr(ValueOf(m.values, "cluster"), "cluster"),
           UnwrapOr(ValueOf(m.values, "vhost"), "")),
           RuntimeOf(ValueOf(m.values, "runtime"), RuntimeFromChoice),
           UnwrapOr(TuneValue(m.tune, "producers"), PRODUCERS),
           UnwrapOr(TuneValue(m.tune, "consumers"), CONSUMERS),
           UnwrapOr(TuneValue(m.tune, "consumers-per-thread"), CONSUMERS_PER_THREAD))
  }

  /**
   * `Config::parse` as evidently intended: the runtime follows the chosen
   * possible value, the per-thread count is read under the name the
   * subcommand declares, and the consumer count defaults to `CONSUMERS`
   * like the subcommand's own default.
   */
  method ParseIntended(m: Matches) returns (cfg: Config)
    ensures cfg == IntendedSpec(m)
  {
    var runtime := ThreadPool;
    var named := ValueOf(m.values, "runtime");
    if named.Some? {
      var parsed := RuntimeFromChoice(named.value);
      if parsed.Some? {
        runtime := parsed.value;
      }
    }
    var uri := Uri(UnwrapOr(ValueOf(m.values, "scheme"), "amqp"), UnwrapOr(ValueOf(m.values, "username"), "rabbit"),
                   UnwrapOr(ValueOf(m.values, "password"), "password"), UnwrapOr(ValueOf(m.values, "cluster"), "cluster"),
                   UnwrapOr(ValueOf(m.values, "vhost"), ""));
    var producers := PRODUCERS;
    var consumers := CONSUMERS;
    var consumersPerThread := CONSUMERS_PER_THREAD;
    if m.tune.Some? {
      var val := ValueUsize(m.tune.value, "producers");
      if val.Some? {
        producers := val.value;
      }
      val := ValueUsize(m.tune.value, "consumers");
      if val.Some? {
        consumers := val.value;
      }
      val := ValueUsize(m.tune.value, "consumers-per-thread");
      if val.Some? {
        consumersPerThread := val.value;
      }
    }
    cfg := Config(uri, runtime, producers, consumers, consumersPerThread);
  }

  /**
   * The intended reading honours every tune option: a given, parsable
   * `--consumers-per-thread` is used, and leaving `tune` out or giving it
   * with its defaults yields the same counts.
   */
  lemma IntendedHonoursTune(m: Matches, m': Matches, k: nat)
    requires m.tune.None?
    requires m'.tune == Some(map["producers" := Decimal(PRODUCERS), "consumers" := Decimal(CONSUMERS),
                                 "consumers-per-thread" := Decimal(k)])
    requires k <= USIZE_MAX
    ensures IntendedSpec(m).producers == IntendedSpec(m').producers
    ensures IntendedSpec(m).consumers == IntendedSpec(m').consumers
    ensures IntendedSpec(m').consumersPerThread == k
  {
    ParseDecimal(PRODUCERS);
    ParseDecimal(CONSUMERS);
    ParseDecimal(k);
  }
}
