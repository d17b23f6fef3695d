/**
 * The client's reconnection controller: the attempt counter and the single
 * pending reconnect timer of the network manager, and how each lifecycle
 * event of the socket changes them. A pending timer is represented by the
 * delay it was scheduled with.
 */
module Reconnect {
  import opened Wire

  const MaxReconnectAttempts: nat := 5
  const BaseDelayMs: nat := 2000
  /** The close code of a normal closure; every other code asks for a reconnect. */
  const NormalClosure: int := 1000

  /** `reconnectAttempts` and `reconnectTimer`. */
  datatype Controller = Controller(attempts: nat, timer: Option<nat>)

  const Initial := Controller(0, None)

  /** The controller's invariant: the cap holds and a pending timer carries the backoff of the current attempt. */
  ghost predicate Valid(c: Controller) {
    && c.attempts <= MaxReconnectAttempts
    && (c.timer.Some? ==> 1 <= c.attempts && c.timer.value == BaseDelayMs * c.attempts)
  }

  /** `handleReconnect` acts only below the cap and when no timer is pending. */
  predicate CanRetry(c: Controller) {
    c.attempts < MaxReconnectAttempts && c.timer.None?
  }

  /** `handleReconnect`: count one more attempt and schedule one timer with linear backoff. */
  function Retry(c: Controller): (r: Controller)
    ensures CanRetry(c) ==> r.attempts == c.attempts + 1 && r.timer == Some(BaseDelayMs * r.attempts)
    ensures !CanRetry(c) ==> r == c
    ensures Valid(c) ==> Valid(r)
  {
    if CanRetry(c) then Controller(c.attempts + 1, Some(BaseDelayMs * (c.attempts + 1))) else c
  }

  /** What reaches the controller: the socket's open, close and error events, the timer firing, and `disconnect()`. */
  datatype Event = Opened | Closed(code: int) | Errored | TimerFired | ManualDisconnect

  /** The controller after one event. */
  function Step(c: Controller, e: Event): (r: Controller)
    ensures Valid(c) ==> Valid(r)
    ensures r.attempts <= c.attempts + 1
    ensures c.timer.Some? && r.timer.Some? ==> r.timer == c.timer
    ensures e == Closed(NormalClosure) ==> r == c
    ensures e == Opened ==> r == Initial
  {
    match e
    case Opened => Controller(0, None)
    case Closed(code) => if code != NormalClosure then Retry(c) else c
    case Errored => Retry(c)
    case TimerFired => c.(timer := None)
    case ManualDisconnect => c.(timer := None)
  }

  /** The controller after a sequence of events. */
  function Run(c: Controller, es: seq<Event>): Controller
    decreases |es|
  {
    if es == [] then c else Run(Step(c, es[0]), es[1..])
  }

  /** The delay of the timer an event schedules, if it schedules one. */
  function NewlyScheduled(c: Controller, e: Event): seq<nat> {
    var r := Step(c, e);
    if c.timer.None? && r.timer.Some? then [r.timer.value] else []
  }

  /** The delays of all timers scheduled along a sequence of events, in order. */
  function Delays(c: Controller, es: seq<Event>): seq<nat>
    decreases |es|
  {
    if es == [] then [] else NewlyScheduled(c, es[0]) + Delays(Step(c, es[0]), es[1..])
  }

  /** The invariant holds in every reachable state: at most 5 attempts and the right delay on the one pending timer. */
  lemma {:induction false} RunPreservesValid(c: Controller, es: seq<Event>)
    requires Valid(c)
    ensures Valid(Run(c, es))
    decreases |es|
  {
    if es != [] {
      RunPreservesValid(Step(c, es[0]), es[1..]);
    }
  }

  /** An error followed by a close (as a failed connection reports itself) counts one attempt and schedules one timer. */
  lemma ErrorThenCloseRetriesOnce(c: Controller, code: int)
    ensures Run(c, [Errored, Closed(code)]) == Retry(c)
    ensures |Delays(c, [Errored, Closed(code)])| <= 1
  {
    var es := [Errored, Closed(code)];
    var c1 := Step(c, Errored);
    assert es[1..] == [Closed(code)] && es[1..][1..] == [];
    assert Run(c, es) == Run(c1, [Closed(code)]) == Run(Step(c1, Closed(code)), []);
    assert Delays(c, es) == NewlyScheduled(c, Errored) + NewlyScheduled(c1, Closed(code)) + Delays(Step(c1, Closed(code)), []);
  }

  /**
   * `disconnect()` cancels the pending timer but does not by itself stop
   * reconnecting: a close event with any code other than 1000 that arrives
   * afterwards schedules a new attempt while the cap allows, and only code
   * 1000 leaves nothing scheduled.
   */
  lemma DisconnectThenClose(c: Controller, code: int)
    requires Valid(c)
    ensures code == NormalClosure ==> Run(c, [ManualDisconnect, Closed(code)]) == c.(timer := None)
    ensures code != NormalClosure && c.attempts < MaxReconnectAttempts ==>
      Run(c, [ManualDisconnect, Closed(code)]).timer == Some(BaseDelayMs * (c.attempts + 1))
  {
    var es := [ManualDisconnect, Closed(code)];
    var c1 := Step(c, ManualDisconnect);
    assert es[1..] == [Closed(code)] && es[1..][1..] == [];
    assert Run(c, es) == Run(c1, [Closed(code)]) == Run(Step(c1, Closed(code)), []);
  }

  /** One failed reconnection: the socket errors and closes abnormally, then the scheduled timer fires. */
  function FailureCycle(code: int): seq<Event> {
    [Errored, Closed(code), TimerFired]
  }

  /** `n` failed reconnections in a row. */
  function Failures(n: nat, code: int): seq<Event> {
    if n == 0 then [] else FailureCycle(code) + Failures(n - 1, code)
  }

  /** The backoff delays of attempts `a + 1`, `a + 2`, … up to the cap, at most `n` of them. */
  function BackoffFrom(a: nat, n: nat): seq<nat>
    decreases n
  {
    if n == 0 || a >= MaxReconnectAttempts then [] else [BaseDelayMs * (a + 1)] + BackoffFrom(a + 1, n - 1)
  }

  lemma {:induction false} RunAppend(c: Controller, a: seq<Event>, b: seq<Event>)
    ensures Run(c, a + b) == Run(Run(c, a), b)
    ensures Delays(c, a + b) == Delays(c, a) + Delays(Run(c, a), b)
    decreases |a|
  {
    if a == [] {
      assert a + b == b;
    } else {
      assert (a + b)[0] == a[0] && (a + b)[1..] == a[1..] + b;
      RunAppend(Step(c, a[0]), a[1..], b);
    }
  }

  lemma OneFailureCycle(a: nat, code: int)
    requires a <= MaxReconnectAttempts && code != NormalClosure
    ensures a < MaxReconnectAttempts ==> Run(Controller(a, None), FailureCycle(code)) == Controller(a + 1, None)
    ensures a < MaxReconnectAttempts ==> Delays(Controller(a, None), FailureCycle(code)) == [BaseDelayMs * (a + 1)]
    ensures a == MaxReconnectAttempts ==> Run(Controller(a, None), FailureCycle(code)) == Controller(a, None)
    ensures a == MaxReconnectAttempts ==> Delays(Controller(a, None), FailureCycle(code)) == []
  {
    var es := FailureCycle(code);
    var c0 := Controller(a, None);
    var c1 := Step(c0, Errored);
    var c2 := Step(c1, Closed(code));
    var c3 := Step(c2, TimerFired);
    assert es[1..] == [Closed(code), TimerFired];
    assert es[1..][1..] == [TimerFired];
    assert es[1..][1..][1..] == [];
    assert Run(c0, es) == Run(c1, es[1..]) == Run(c2, es[1..][1..]) == Run(c3, []);
    assert Delays(c2, es[1..][1..]) == NewlyScheduled(c2, TimerFired) + Delays(c3, []);
    assert Delays(c1, es[1..]) == NewlyScheduled(c1, Closed(code)) + Delays(c2, es[1..][1..]);
    assert Delays(c0, es) == NewlyScheduled(c0, Errored) + Delays(c1, es[1..]);
  }

  /** From `a` used attempts and no pending timer, `n` failed reconnections schedule the next backoff delays, up to the cap. */
  lemma {:induction false} FailuresBackOff(a: nat, n: nat, code: int)
    requires a <= MaxReconnectAttempts && code != NormalClosure
    ensures Delays(Controller(a, None), Failures(n, code)) == BackoffFrom(a, n)
    ensures Run(Controller(a, None), Failures(n, code)) ==
      Controller(if a + n <= MaxReconnectAttempts then a + n else MaxReconnectAttempts, None)
    decreases n
  {
    if n > 0 {
      var c := Controller(a, None);
      RunAppend(c, FailureCycle(code), Failures(n - 1, code));
      OneFailureCycle(a, code);
      if a < MaxReconnectAttempts {
        FailuresBackOff(a + 1, n - 1, code);
      } else {
        FailuresBackOff(a, n - 1, code);
        assert BackoffFrom(a, n - 1) == [];
      }
    }
  }

  /**
   * Repeated abnormal closures from a fresh controller: exactly five
   * reconnects are scheduled, after 2000, 4000, 6000, 8000 and 10000 ms,
   * and then the controller stops with five attempts used and nothing pending.
   */
  lemma ReconnectBound(n: nat, code: int)
    requires n >= MaxReconnectAttempts && code != NormalClosure
    ensures Delays(Initial, Failures(n, code)) == [2000, 4000, 6000, 8000, 10000]
    ensures Run(Initial, Failures(n, code)) == Controller(MaxReconnectAttempts, None)
  {
    FailuresBackOff(0, n, code);
    assert BackoffFrom(5, n - 5) == [];
    assert BackoffFrom(4, n - 4) == [10000] + BackoffFrom(5, n - 5);
    assert BackoffFrom(3, n - 3) == [8000] + BackoffFrom(4, n - 4);
    assert BackoffFrom(2, n - 2) == [6000] + BackoffFrom(3, n - 3);
    assert BackoffFrom(1, n - 1) == [4000] + BackoffFrom(2, n - 2);
    assert BackoffFrom(0, n) == [2000] + BackoffFrom(1, n - 1);
  }

  /** Once the cap is reached with nothing pending, no event short of a successful open schedules anything again. */
  lemma {:induction false} GivenUpIsTerminal(es: seq<Event>)
    requires forall i :: 0 <= i < |es| ==> es[i] != Opened
    ensures Run(Controller(MaxReconnectAttempts, None), es) == Controller(MaxReconnectAttempts, None)
    ensures Delays(Controller(MaxReconnectAttempts, None), es) == []
    decreases |es|
  {
    if es != [] {
      GivenUpIsTerminal(es[1..]);
    }
  }
}
