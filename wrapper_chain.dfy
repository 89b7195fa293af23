/**
 * Connection wrapper chains. Both clients are decorated by an ordered list
 * of wrappers: request loggers, the authentication wrapper and the retrier.
 * The type parameter is the authentication wrapper object, which differs
 * between the Cloud Controller and the UAA client.
 */
module WrapperChain {
  import opened Common

  datatype Wrapper<A> =
    | TerminalLogger                   // request logger writing to the terminal
    | FileLogger(paths: seq<string>)   // request logger writing to the log files
    | Auth(auth: A)                    // the UAA authentication wrapper
    | Retry(maxRetries: int)           // the request retrier
  {
    predicate IsLogger() {
      TerminalLogger? || FileLogger?
    }
  }

  /**
   * The chain a client is given for `config` and authentication wrapper
   * `auth`: a terminal logger when verbose, a file logger when a log
   * location is set, then the authentication wrapper, then the retrier.
   */
  function ExpectedChain<A(==)>(config: Config, auth: A): (r: seq<Wrapper<A>>)
    ensures |r| == 2 + (if config.verbose then 1 else 0) + (if config.logLocation.Some? then 1 else 0)
    ensures r[|r| - 2] == Auth(auth) && r[|r| - 1] == Retry(config.requestRetryCount)
    ensures forall i :: 0 <= i < |r| - 2 ==> r[i].IsLogger()
    ensures r[0].TerminalLogger? <==> config.verbose
    ensures config.logLocation.Some? <==> |r| >= 3 && r[|r| - 3].FileLogger?
    ensures config.logLocation.Some? ==> r[|r| - 3] == FileLogger(config.logLocation.value)
    ensures forall i :: 0 <= i < |r| && r[i].Auth? ==> i == |r| - 2
  {
    (if config.verbose then [TerminalLogger] else [])
    + (if config.logLocation.Some? then [FileLogger(config.logLocation.value)] else [])
    + [Auth(auth), Retry(config.requestRetryCount)]
  }

  /** Number of request loggers in a chain. */
  function LoggerCount<A>(ws: seq<Wrapper<A>>): nat
  {
    if ws == [] then 0 else (if ws[0].IsLogger() then 1 else 0) + LoggerCount(ws[1..])
  }

  lemma {:induction false} LoggerCountAppend<A>(a: seq<Wrapper<A>>, b: seq<Wrapper<A>>)
    ensures LoggerCount(a + b) == LoggerCount(a) + LoggerCount(b)
  {
    if a == [] {
      assert a + b == b;
    } else {
      assert (a + b)[1..] == a[1..] + b;
      LoggerCountAppend(a[1..], b);
    }
  }

  /**
   * Each client gets two loggers when verbose and logging to a file, none
   * when neither, and one in the mixed cases.
   */
  lemma {:induction false} ExpectedChainLoggers<A>(config: Config, auth: A)
    ensures LoggerCount(ExpectedChain(config, auth))
            == (if config.verbose then 1 else 0) + (if config.logLocation.Some? then 1 else 0)
  {
    var t: seq<Wrapper<A>> := if config.verbose then [TerminalLogger] else [];
    var f: seq<Wrapper<A>> := if config.logLocation.Some? then [FileLogger(config.logLocation.value)] else [];
    var tail: seq<Wrapper<A>> := [Auth(auth), Retry(config.requestRetryCount)];
    LoggerCountAppend(t + f, tail);
    LoggerCountAppend(t, f);
    assert LoggerCount(tail) == 0 by {
      assert tail[1..][1..] == [];
    }
    assert LoggerCount(t) == (if config.verbose then 1 else 0) by {
      if config.verbose { assert t[1..] == []; }
    }
    assert LoggerCount(f) == (if config.logLocation.Some? then 1 else 0) by {
      if config.logLocation.Some? { assert f[1..] == []; }
    }
  }

  /** A wrapper with its authentication object forgotten. */
  function Shape<A>(w: Wrapper<A>): Wrapper<()>
  {
    match w
    case TerminalLogger => TerminalLogger
    case FileLogger(paths) => FileLogger(paths)
    case Auth(_) => Auth(())
    case Retry(n) => Retry(n)
  }

  /** The wrapper kinds of a chain, in order. */
  function Shapes<A>(ws: seq<Wrapper<A>>): (r: seq<Wrapper<()>>)
    ensures |r| == |ws|
    ensures forall i :: 0 <= i < |ws| ==> r[i] == Shape(ws[i])
  {
    if ws == [] then [] else [Shape(ws[0])] + Shapes(ws[1..])
  }

  /**
   * The two clients' chains mirror each other: whatever authentication
   * wrapper each holds, they have the same wrapper kinds in the same order.
   */
  lemma MirroredChains<A, B>(config: Config, a: A, b: B)
    ensures Shapes(ExpectedChain(config, a)) == Shapes(ExpectedChain(config, b))
  {
  }
}
