/** What the relay does that a caller can observe, recorded as a sequence of events. */
module Trace {
  import opened Errors

  /** The steps of one session, in the order `connectBackAndRelay` takes them. */
  datatype Stage = Dial | Multiplexer | SocksInit | Serve

  /** The resources a session acquires and must release. */
  datatype Resource = Connection | MultiplexerSession

  datatype Event =
    | Invoked(stage: Stage)       // the collaborator call of a stage was made
    | Failed(stage: Stage)        // that call returned an error
    | Closed(resource: Resource)  // a deferred `Close` ran
    | Reported(err: Error)        // the loop printed an error instead of returning it
    | Slept(duration: int)        // the loop slept before the next attempt

  predicate IsSleep(e: Event) { e.Slept? }
  predicate IsReport(e: Event) { e.Reported? }
  predicate IsDial(e: Event) { e == Invoked(Dial) }
  predicate IsClose(e: Event) { e.Closed? }

  /** The number of events of `es` that satisfy `p`. */
  function CountIf(es: seq<Event>, p: Event -> bool): (n: nat)
    ensures n <= |es|
    ensures n == 0 <==> forall i :: 0 <= i < |es| ==> !p(es[i])
  {
    if es == [] then 0 else (if p(es[0]) then 1 else 0) + CountIf(es[1..], p)
  }

  lemma {:induction false} CountIfAppend(a: seq<Event>, b: seq<Event>, p: Event -> bool)
    ensures CountIf(a + b, p) == CountIf(a, p) + CountIf(b, p)
  {
    if a != [] {
      assert (a + b)[1..] == a[1..] + b;
      CountIfAppend(a[1..], b, p);
    } else {
      assert a + b == b;
    }
  }
}
