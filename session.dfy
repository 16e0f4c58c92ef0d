/**
 * One session of the relay (`connectBackAndRelay`): dial the listener, start a multiplexer
 * in server role over the connection, create a SOCKS5 server and serve it over the
 * multiplexer. The four collaborator calls are abstract outcomes; the model records which
 * calls were made, which one failed and which deferred `Close` calls ran.
 */
module Session {
  import opened Wrappers
  import opened Errors
  import opened Trace

  const DIAL_CONTEXT := "dial"
  const MULTIPLEXER_CONTEXT := "initialize multiplexer"
  const SOCKS_INIT_CONTEXT := "initialize socks5 server"
  const SERVE_CONTEXT := "socks5 server"

  /** The context each stage's error is wrapped with. */
  function Context(s: Stage): string
  {
    match s
    case Dial => DIAL_CONTEXT
    case Multiplexer => MULTIPLEXER_CONTEXT
    case SocksInit => SOCKS_INIT_CONTEXT
    case Serve => SERVE_CONTEXT
  }

  /** The position of a stage in the session. */
  function Rank(s: Stage): nat
  {
    match s
    case Dial => 0
    case Multiplexer => 1
    case SocksInit => 2
    case Serve => 3
  }

  /** What each collaborator returns if it is called during this session. */
  datatype SessionOutcome = SessionOutcome(
    dial: Outcome<Error>,
    multiplexer: Outcome<Error>,
    socksInit: Outcome<Error>,
    serve: Outcome<Error>)

  function OutcomeOf(o: SessionOutcome, s: Stage): Outcome<Error>
  {
    match s
    case Dial => o.dial
    case Multiplexer => o.multiplexer
    case SocksInit => o.socksInit
    case Serve => o.serve
  }

  /** The earliest stage whose collaborator fails, if any. */
  function FirstFailure(o: SessionOutcome): (r: Option<Stage>)
    ensures r.Some? ==> OutcomeOf(o, r.value).Fail?
    ensures r.Some? ==> forall s :: Rank(s) < Rank(r.value) ==> OutcomeOf(o, s).Pass?
    ensures r.None? <==> forall s :: OutcomeOf(o, s).Pass?
  {
    if o.dial.Fail? then Some(Dial)
    else if o.multiplexer.Fail? then Some(Multiplexer)
    else if o.socksInit.Fail? then Some(SocksInit)
    else if o.serve.Fail? then Some(Serve)
    else None
  }

  /** The resources the session holds when it exits, in the order they were acquired. */
  function Acquired(o: SessionOutcome): seq<Resource>
  {
    (if o.dial.Pass? then [Connection] else [])
    + (if o.dial.Pass? && o.multiplexer.Pass? then [MultiplexerSession] else [])
  }

  /** Running a stack of deferred closes: the resource registered last is closed first. */
  function Unwind(deferred: seq<Resource>): (es: seq<Event>)
    ensures |es| == |deferred|
    ensures forall i :: 0 <= i < |es| ==> es[i] == Closed(deferred[|deferred| - 1 - i])
  {
    if deferred == [] then []
    else [Closed(deferred[|deferred| - 1])] + Unwind(deferred[..|deferred| - 1])
  }

  /** The calls made: every stage up to and including the first one that fails. */
  function Invocations(o: SessionOutcome): seq<Event>
  {
    var reached := match FirstFailure(o) case None => 4 case Some(s) => Rank(s) + 1;
    [Invoked(Dial), Invoked(Multiplexer), Invoked(SocksInit), Invoked(Serve)][..reached]
  }

  /** The error a session returns: the failing stage's error wrapped with that stage's context. */
  function SessionResult(o: SessionOutcome): Option<Error>
  {
    match FirstFailure(o)
    case None => None
    case Some(s) => Some(Wrap(Context(s), OutcomeOf(o, s).error))
  }

  /** Everything a session does, in order: the calls, the failure if any, then the deferred closes. */
  function SessionTrace(o: SessionOutcome): seq<Event>
  {
    Invocations(o)
    + (match FirstFailure(o) case None => [] case Some(s) => [Failed(s)])
    + Unwind(Acquired(o))
  }

  /** `connectBackAndRelay`, with `defer` modelled as an explicit stack of resources to close. */
  method ConnectBackAndRelay(o: SessionOutcome) returns (err: Option<Error>, events: seq<Event>)
    ensures err == SessionResult(o)
    ensures events == SessionTrace(o)
  {
    var deferred: seq<Resource> := [];
    events := [Invoked(Dial)];
    if o.dial.Fail? {
      err := Some(Wrap(DIAL_CONTEXT, o.dial.error));
      events := events + [Failed(Dial)] + Unwind(deferred);
      return;
    }
    deferred := deferred + [Connection];

    events := events + [Invoked(Multiplexer)];
    if o.multiplexer.Fail? {
      err := Some(Wrap(MULTIPLEXER_CONTEXT, o.multiplexer.error));
      events := events + [Failed(Multiplexer)] + Unwind(deferred);
      return;
    }
    deferred := deferred + [MultiplexerSession];

    events := events + [Invoked(SocksInit)];
    if o.socksInit.Fail? {
      err := Some(Wrap(SOCKS_INIT_CONTEXT, o.socksInit.error));
      events := events + [Failed(SocksInit)] + Unwind(deferred);
      return;
    }

    events := events + [Invoked(Serve)];
    if o.serve.Fail? {
      err := Some(Wrap(SERVE_CONTEXT, o.serve.error));
      events := events + [Failed(Serve)] + Unwind(deferred);
      return;
    }

    err := None;
    events := events + Unwind(deferred);
  }

  /** A failed dial returns "dial: ..." and closes nothing. */
  lemma DialFailureClosesNothing(o: SessionOutcome)
    requires o.dial.Fail?
    ensures SessionResult(o) == Some(Wrap(DIAL_CONTEXT, o.dial.error))
    ensures SessionTrace(o) == [Invoked(Dial), Failed(Dial)]
    ensures CountIf(SessionTrace(o), IsClose) == 0
  {
  }

  /** Once the dial succeeds, the connection is closed exactly once, and as the session's last act. */
  lemma ConnectionClosedOnEveryExit(o: SessionOutcome)
    requires o.dial.Pass?
    ensures var t := SessionTrace(o); |t| > 0 && t[|t| - 1] == Closed(Connection)
    ensures CountIf(SessionTrace(o), e => e == Closed(Connection)) == 1
  {
    var t := SessionTrace(o);
    var closes := Unwind(Acquired(o));
    var front := t[..|t| - |closes|];
    assert t == front + closes;
    assert forall i :: 0 <= i < |front| ==> front[i] != Closed(Connection);
    CountIfAppend(front, closes, e => e == Closed(Connection));
    if o.multiplexer.Pass? {
      assert closes == [Closed(MultiplexerSession)] + [Closed(Connection)];
      CountIfAppend([Closed(MultiplexerSession)], [Closed(Connection)], e => e == Closed(Connection));
    } else {
      assert closes == [Closed(Connection)];
    }
  }

  /** Once the multiplexer exists, it is closed immediately before the connection (`defer` runs last-in first-out). */
  lemma MultiplexerClosedBeforeConnection(o: SessionOutcome)
    requires o.dial.Pass? && o.multiplexer.Pass?
    ensures var t := SessionTrace(o);
              |t| >= 2 && t[|t| - 2..] == [Closed(MultiplexerSession), Closed(Connection)]
    ensures CountIf(SessionTrace(o), IsClose) == 2
  {
    var t := SessionTrace(o);
    var closes := Unwind(Acquired(o));
    var front := t[..|t| - 2];
    assert closes == [Closed(MultiplexerSession), Closed(Connection)];
    assert t == front + closes;
    assert forall i :: 0 <= i < |front| ==> !IsClose(front[i]);
    CountIfAppend(front, closes, IsClose);
  }

  /** The closes a session performs are exactly its acquisitions, in reverse order. */
  lemma ClosesReverseAcquisition(o: SessionOutcome)
    ensures var t := SessionTrace(o); var n := |Acquired(o)|;
              n <= |t|
              && (forall j :: |t| - n <= j < |t| ==> t[j] == Closed(Acquired(o)[|t| - 1 - j]))
              && (forall i :: 0 <= i < |t| - n ==> !IsClose(t[i]))
  {
  }

  /** A session fails exactly when one stage fails; the error names that stage's context and wraps its error. */
  lemma FailureTaggedWithStage(o: SessionOutcome)
    ensures SessionResult(o).None? <==> forall s :: OutcomeOf(o, s).Pass?
    ensures SessionResult(o).Some? ==>
              exists s :: OutcomeOf(o, s).Fail?
                          && SessionResult(o).value == Wrap(Context(s), OutcomeOf(o, s).error)
                          && Failed(s) in SessionTrace(o)
                          && Message(SessionResult(o).value)[..|Context(s)| + 2] == Context(s) + ": "
  {
    if SessionResult(o).Some? {
      var s := FirstFailure(o).value;
      assert SessionTrace(o)[|Invocations(o)|] == Failed(s);
    }
  }

  /** A stage is called only when every earlier stage succeeded. */
  lemma NoCallAfterFailure(o: SessionOutcome, s: Stage)
    ensures Invoked(s) in SessionTrace(o) <==> forall t :: Rank(t) < Rank(s) ==> OutcomeOf(o, t).Pass?
  {
    var t := SessionTrace(o);
    var inv := Invocations(o);
    assert t == inv + (t[|inv|..]);
    assert forall i :: |inv| <= i < |t| ==> !t[i].Invoked?;
    if forall u :: Rank(u) < Rank(s) ==> OutcomeOf(o, u).Pass? {
      assert inv[Rank(s)] == Invoked(s);
    }
  }

  /**
   * A session only calls, fails and closes: it never reports or sleeps, and it dials
   * exactly once.
   */
  lemma SessionDialsOnce(o: SessionOutcome)
    ensures forall i :: 0 <= i < |SessionTrace(o)| ==> !IsSleep(SessionTrace(o)[i]) && !IsReport(SessionTrace(o)[i])
    ensures CountIf(SessionTrace(o), IsDial) == 1
  {
    var t := SessionTrace(o);
    assert t == [Invoked(Dial)] + t[1..];
    assert forall i :: 0 <= i < |t[1..]| ==> !IsDial(t[1..][i]);
    CountIfAppend([Invoked(Dial)], t[1..], IsDial);
  }
}
