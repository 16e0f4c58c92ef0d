/**
 * The relay's outer loop (`runRemoteProxyRelay`): build the TLS configuration once, then run
 * sessions. With a zero reconnect delay one session is run and its result returned; with
 * any other delay the loop runs forever, reporting each failure and sleeping for the delay
 * between sessions. The environment's answers to successive sessions are a finite sequence;
 * when it is used up without the loop having returned, the loop is still running.
 */
module RelayLoop {
  import opened Wrappers
  import opened Errors
  import opened Trace
  import opened TlsPolicy
  import opened Session

  const BUILD_TLS_CONTEXT := "build TLS config"

  /** How the loop stands after the given outcomes: returned (with an error or nil) or still running. */
  datatype Exit = Returned(err: Option<Error>) | Running

  /** One pass of the loop with reconnecting enabled: the session, its error reported if any, then the sleep. */
  function Round(o: SessionOutcome, reconnectAfter: int): seq<Event>
  {
    SessionTrace(o)
    + (match SessionResult(o) case None => [] case Some(e) => [Reported(e)])
    + [Slept(reconnectAfter)]
  }

  /** The passes of the loop over successive session outcomes, with reconnecting enabled. */
  function RetryTrace(outcomes: seq<SessionOutcome>, reconnectAfter: int): seq<Event>
  {
    if outcomes == [] then []
    else RetryTrace(outcomes[..|outcomes| - 1], reconnectAfter) + Round(outcomes[|outcomes| - 1], reconnectAfter)
  }

  /** The number of sessions that end with an error. */
  function FailureCount(outcomes: seq<SessionOutcome>): (n: nat)
    ensures n <= |outcomes|
    ensures n == 0 <==> forall i :: 0 <= i < |outcomes| ==> SessionResult(outcomes[i]).None?
    ensures n == |outcomes| <==> forall i :: 0 <= i < |outcomes| ==> SessionResult(outcomes[i]).Some?
  {
    if outcomes == [] then 0
    else
      var init, last := outcomes[..|outcomes| - 1], outcomes[|outcomes| - 1];
      assert forall i :: 0 <= i < |init| ==> init[i] == outcomes[i];
      assert outcomes == init + [last];
      FailureCount(init) + (if SessionResult(last).Some? then 1 else 0)
  }

  /**
   * A collaborator's error survives the wrapping: the error returned for a key that does
   * not parse, or for a configuration that cannot be built, unwraps through
   * "build TLS config" and the step's context to that collaborator's error.
   */
  lemma BuildErrorKeepsCause(connectionKey: string, insecure: bool, parse: KeyParser, configure: ConfigBuilder)
    requires connectionKey != ""
    ensures parse(connectionKey).Failure? ==>
              var returned := Wrap(BUILD_TLS_CONTEXT, ClientTlsConfig(connectionKey, insecure, parse, configure).error);
              Is(returned, parse(connectionKey).error)
              && RootCause(returned) == RootCause(parse(connectionKey).error)
    ensures parse(connectionKey).Success? && configure(parse(connectionKey).value).Failure? ==>
              var returned := Wrap(BUILD_TLS_CONTEXT, ClientTlsConfig(connectionKey, insecure, parse, configure).error);
              Is(returned, configure(parse(connectionKey).value).error)
              && RootCause(returned) == RootCause(configure(parse(connectionKey).value).error)
  {
  }

  /** `runRemoteProxyRelay`, run against the outcomes of its successive sessions. */
  method RunRemoteProxyRelay(connectionKey: string, insecure: bool, reconnectAfter: int,
                             parse: KeyParser, configure: ConfigBuilder, outcomes: seq<SessionOutcome>)
    returns (exit: Exit, attempts: nat, events: seq<Event>)
    // a configuration error aborts before any session
    ensures ClientTlsConfig(connectionKey, insecure, parse, configure).Failure? ==>
              exit == Returned(Some(Wrap(BUILD_TLS_CONTEXT, ClientTlsConfig(connectionKey, insecure, parse, configure).error)))
              && attempts == 0 && events == []
    // no reconnect delay: exactly one session, whose result is returned (its trace neither reports nor sleeps)
    ensures ClientTlsConfig(connectionKey, insecure, parse, configure).Success? && reconnectAfter == 0 && outcomes != [] ==>
              exit == Returned(SessionResult(outcomes[0])) && attempts == 1 && events == SessionTrace(outcomes[0])
    ensures ClientTlsConfig(connectionKey, insecure, parse, configure).Success? && reconnectAfter == 0 && outcomes == [] ==>
              exit == Running && attempts == 0 && events == []
    // a reconnect delay: the loop never returns, and runs one round per outcome
    ensures ClientTlsConfig(connectionKey, insecure, parse, configure).Success? && reconnectAfter != 0 ==>
              exit == Running && attempts == |outcomes| && events == RetryTrace(outcomes, reconnectAfter)
  {
    var cfg := ClientTlsConfig(connectionKey, insecure, parse, configure);
    attempts, events := 0, [];
    if cfg.Failure? {
      exit := Returned(Some(Wrap(BUILD_TLS_CONTEXT, cfg.error)));
      return;
    }

    while attempts < |outcomes|
      invariant attempts <= |outcomes|
      invariant reconnectAfter == 0 ==> attempts == 0
      invariant events == RetryTrace(outcomes[..attempts], reconnectAfter)
    {
      var err, sessionEvents := ConnectBackAndRelay(outcomes[attempts]);
      var round := sessionEvents;
      attempts := attempts + 1;
      if err.Some? {
        if reconnectAfter == 0 {
          exit, events := Returned(err), events + round;
          return;
        }
        round := round + [Reported(err.value)];
      }
      if reconnectAfter == 0 {
        exit, events := Returned(None), events + round;
        return;
      }
      round := round + [Slept(reconnectAfter)];
      RetryTraceStep(outcomes, attempts - 1, reconnectAfter);
      events := events + round;
    }
    assert outcomes[..attempts] == outcomes;
    exit := Running;
  }

  /** The loop's trace grows by one round per session. */
  lemma RetryTraceStep(outcomes: seq<SessionOutcome>, k: nat, reconnectAfter: int)
    requires k < |outcomes|
    ensures RetryTrace(outcomes[..k + 1], reconnectAfter)
            == RetryTrace(outcomes[..k], reconnectAfter) + Round(outcomes[k], reconnectAfter)
  {
    assert outcomes[..k + 1][..k] == outcomes[..k];
  }

  /** Each round starts with a dial and ends with one sleep of exactly the configured delay. */
  lemma RoundShape(o: SessionOutcome, reconnectAfter: int)
    ensures var r := Round(o, reconnectAfter);
              |r| >= 2 && r[0] == Invoked(Dial) && r[|r| - 1] == Slept(reconnectAfter)
  {
  }

  /** A round dials once, sleeps once, and reports once exactly when its session failed. */
  lemma RoundCounts(o: SessionOutcome, reconnectAfter: int)
    ensures CountIf(Round(o, reconnectAfter), IsDial) == 1
    ensures CountIf(Round(o, reconnectAfter), IsSleep) == 1
    ensures CountIf(Round(o, reconnectAfter), IsReport) == (if SessionResult(o).Some? then 1 else 0)
  {
    var s := SessionTrace(o);
    var report: seq<Event> := match SessionResult(o) case None => [] case Some(e) => [Reported(e)];
    var sleep := [Slept(reconnectAfter)];
    SessionDialsOnce(o);
    assert Round(o, reconnectAfter) == s + report + sleep;
    CountIfAppend(s, report, IsDial);
    CountIfAppend(s + report, sleep, IsDial);
    CountIfAppend(s, report, IsSleep);
    CountIfAppend(s + report, sleep, IsSleep);
    CountIfAppend(s, report, IsReport);
    CountIfAppend(s + report, sleep, IsReport);
  }

  /** The error a round reports is its session's error: a failure is reported, not returned. */
  lemma RoundReportsSessionError(o: SessionOutcome, reconnectAfter: int, e: Error)
    ensures Reported(e) in Round(o, reconnectAfter) <==> SessionResult(o) == Some(e)
  {
    SessionDialsOnce(o);
  }

  lemma ConcatAssociative(x: seq<Event>, y: seq<Event>, z: seq<Event>)
    ensures (x + y) + z == x + (y + z)
  {
  }

  /** Running the loop over `a` then `b` is running it over `a`, then over `b`. */
  lemma {:induction false} RetryTraceAppend(a: seq<SessionOutcome>, b: seq<SessionOutcome>, reconnectAfter: int)
    ensures RetryTrace(a + b, reconnectAfter) == RetryTrace(a, reconnectAfter) + RetryTrace(b, reconnectAfter)
  {
    if b == [] {
      assert a + b == a;
    } else {
      var b', last := b[..|b| - 1], b[|b| - 1];
      var ab := a + b;
      assert ab[..|ab| - 1] == a + b' && ab[|ab| - 1] == last;
      assert RetryTrace(ab, reconnectAfter) == RetryTrace(a + b', reconnectAfter) + Round(last, reconnectAfter);
      RetryTraceAppend(a, b', reconnectAfter);
      var ta, tb', r := RetryTrace(a, reconnectAfter), RetryTrace(b', reconnectAfter), Round(last, reconnectAfter);
      assert RetryTrace(b, reconnectAfter) == tb' + r;
      ConcatAssociative(ta, tb', r);
    }
  }

  /** Once there is a session, the loop's trace starts with a dial. */
  lemma {:induction false} RetryTraceStartsWithDial(outcomes: seq<SessionOutcome>, reconnectAfter: int)
    requires outcomes != []
    ensures |RetryTrace(outcomes, reconnectAfter)| > 0 && RetryTrace(outcomes, reconnectAfter)[0] == Invoked(Dial)
  {
    var init := outcomes[..|outcomes| - 1];
    RoundShape(outcomes[|outcomes| - 1], reconnectAfter);
    if init != [] {
      RetryTraceStartsWithDial(init, reconnectAfter);
    }
  }

  /**
   * With reconnecting enabled, after n sessions the loop has dialled n times, slept n times
   * and reported exactly the failed sessions, however many of them failed.
   */
  lemma {:induction false} RetryCounts(outcomes: seq<SessionOutcome>, reconnectAfter: int)
    ensures CountIf(RetryTrace(outcomes, reconnectAfter), IsDial) == |outcomes|
    ensures CountIf(RetryTrace(outcomes, reconnectAfter), IsSleep) == |outcomes|
    ensures CountIf(RetryTrace(outcomes, reconnectAfter), IsReport) == FailureCount(outcomes)
  {
    if outcomes != [] {
      var init := outcomes[..|outcomes| - 1];
      var last := outcomes[|outcomes| - 1];
      RetryCounts(init, reconnectAfter);
      RoundCounts(last, reconnectAfter);
      CountIfAppend(RetryTrace(init, reconnectAfter), Round(last, reconnectAfter), IsDial);
      CountIfAppend(RetryTrace(init, reconnectAfter), Round(last, reconnectAfter), IsSleep);
      CountIfAppend(RetryTrace(init, reconnectAfter), Round(last, reconnectAfter), IsReport);
    }
  }

  /** Every sleep of the loop lasts exactly the configured delay: no backoff. */
  lemma {:induction false} RetrySleepsAreConstant(outcomes: seq<SessionOutcome>, reconnectAfter: int)
    ensures forall e :: e in RetryTrace(outcomes, reconnectAfter) && e.Slept? ==> e.duration == reconnectAfter
  {
    if outcomes != [] {
      var init := outcomes[..|outcomes| - 1];
      RetrySleepsAreConstant(init, reconnectAfter);
      SessionDialsOnce(outcomes[|outcomes| - 1]);
    }
  }

  /**
   * With reconnecting enabled, session k + 1 is preceded by the whole of round k: session k,
   * its report if it failed, and one sleep of the configured delay.
   */
  lemma SleepBetweenSessions(outcomes: seq<SessionOutcome>, reconnectAfter: int, k: nat)
    requires k + 1 < |outcomes|
    ensures var t := RetryTrace(outcomes, reconnectAfter);
            var before := RetryTrace(outcomes[..k], reconnectAfter) + Round(outcomes[k], reconnectAfter);
              before <= t && |before| < |t|
              && t[|before| - 1] == Slept(reconnectAfter)
              && t[|before|] == Invoked(Dial)
  {
    var front, rest := outcomes[..k + 1], outcomes[k + 1..];
    assert outcomes == front + rest;
    RetryTraceAppend(front, rest, reconnectAfter);
    RetryTraceStep(outcomes, k, reconnectAfter);
    RetryTraceStartsWithDial(rest, reconnectAfter);
    RoundShape(outcomes[k], reconnectAfter);
    var before := RetryTrace(outcomes[..k], reconnectAfter) + Round(outcomes[k], reconnectAfter);
    var after := RetryTrace(rest, reconnectAfter);
    assert RetryTrace(outcomes, reconnectAfter) == before + after;
  }
}
