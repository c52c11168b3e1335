/** The settlement state machine behind `defer`: the promise's state, the
    timer slot, and the events that can reach a Deferred in any order. */
module Settlement {
  import opened Values
  import opened Future
  import CallbackAdapter

  /** The local `timer` of `defer`: never created (a falsy timeout), armed,
      or set to null (cancelled or fired). */
  datatype Timer = NoTimer | Armed | Cleared

  /** What a Deferred is at one moment: the promise state, the timer slot, and
      whether the exposed resolve/reject were rebound to the hooked versions. */
  datatype Deferral = Deferral(state: State, timer: Timer, hooked: bool)

  /** Whatever can happen to a Deferred after construction: a call of its
      exposed resolve, reject or callback, or the expiry of its timer. */
  datatype Event =
    | ResolveCall(value: Value)
    | RejectCall(reason: Value)
    | CallbackCall(error: Value, result: Value)
    | TimerFires

  /** The freshly constructed Deferred: pending; a timer and the hooked
      settlers exist exactly when `timeout` is truthy. */
  function Created(timeout: Value): (d: Deferral)
    ensures d.state == Pending
    ensures d.hooked <==> Truthy(timeout)
    ensures d.timer == Armed <==> Truthy(timeout)
    ensures d.timer == NoTimer <==> !Truthy(timeout)
  {
    Deferral(Pending, if Truthy(timeout) then Armed else NoTimer, Truthy(timeout))
  }

  /** The invariant of every reachable Deferral: the timer slot exists exactly
      when the settlers are hooked, and then it is armed exactly while the
      promise is pending. */
  ghost predicate Inv(d: Deferral)
  {
    (d.hooked <==> d.timer != NoTimer) && (d.hooked ==> (d.timer == Armed <==> d.state.Pending?))
  }

  /** An exposed settler: when hooked, `cancel` runs first and leaves the slot
      null whatever it held; then the raw settler is applied to the promise. */
  function Exposed(d: Deferral, outcome: State): (r: Deferral)
    requires !outcome.Pending?
  {
    Deferral(Settle(d.state, outcome), if d.hooked then Cleared else d.timer, d.hooked)
  }

  /** The effect of one event. The timer handler nulls the slot and then calls
      the exposed (hooked) reject with the timeout error; an event from a timer
      that is not armed never reaches the Deferred. */
  function Step(d: Deferral, e: Event): (r: Deferral)
  {
    match e
    case ResolveCall(v) => Exposed(d, Fulfilled(v))
    case RejectCall(r) => Exposed(d, Rejected(r))
    case CallbackCall(err, v) => Exposed(d, CallbackAdapter.Route(err, v))
    case TimerFires =>
      if d.timer == Armed && d.hooked then Exposed(d.(timer := Cleared), Rejected(TimeoutError)) else d
  }

  /** The effect of a sequence of events, in order. */
  function Run(d: Deferral, es: seq<Event>): (r: Deferral)
    decreases |es|
  {
    if es == [] then d else Run(Step(d, es[0]), es[1..])
  }

  /** Whether an event settles a Deferral that is still pending: everything
      does except the expiry of a timer that was never created. */
  predicate Settles(hooked: bool, e: Event)
  {
    !e.TimerFires? || hooked
  }

  /** The outcome an event settles a pending Deferral with. */
  function Outcome(e: Event): (r: State)
    ensures !r.Pending?
  {
    match e
    case ResolveCall(v) => Fulfilled(v)
    case RejectCall(r) => Rejected(r)
    case CallbackCall(err, v) => CallbackAdapter.Route(err, v)
    case TimerFires => Rejected(TimeoutError)
  }

  lemma CreatedValid(timeout: Value)
    ensures Inv(Created(timeout))
  {
  }

  /** Every event keeps the invariant. */
  lemma StepInv(d: Deferral, e: Event)
    requires Inv(d)
    ensures Inv(Step(d, e))
    ensures Step(d, e).hooked == d.hooked
  {
  }

  /** Any run keeps the invariant. */
  lemma {:induction false} RunInv(d: Deferral, es: seq<Event>)
    requires Inv(d)
    ensures Inv(Run(d, es))
    ensures Run(d, es).hooked == d.hooked
    decreases |es|
  {
    if es != [] {
      StepInv(d, es[0]);
      RunInv(Step(d, es[0]), es[1..]);
    }
  }

  /** Running two sequences one after the other is running their concatenation. */
  lemma {:induction false} RunAppend(d: Deferral, a: seq<Event>, b: seq<Event>)
    ensures Run(d, a + b) == Run(Run(d, a), b)
    decreases |a|
  {
    if a == [] {
      assert a + b == b;
    } else {
      assert a + b != [] && (a + b)[0] == a[0];
      assert (a + b)[1..] == a[1..] + b;
      RunAppend(Step(d, a[0]), a[1..], b);
    }
  }

  /** Once settled, no event changes the state, and the timer cannot fire. */
  lemma SettledStep(d: Deferral, e: Event)
    requires Inv(d) && !d.state.Pending?
    ensures Step(d, e).state == d.state
    ensures Step(d, TimerFires) == d
  {
  }

  /** Once settled, no sequence of events changes the state. */
  lemma {:induction false} SettledRun(d: Deferral, es: seq<Event>)
    requires Inv(d) && !d.state.Pending?
    ensures Run(d, es).state == d.state
    decreases |es|
  {
    if es != [] {
      SettledStep(d, es[0]);
      StepInv(d, es[0]);
      SettledRun(Step(d, es[0]), es[1..]);
    }
  }

  /** A Deferral settles at most once: once a prefix of the events has settled
      it, every longer prefix leaves it in that same state. */
  lemma AtMostOnce(d: Deferral, es: seq<Event>, i: nat, j: nat)
    requires Inv(d) && i <= j <= |es|
    requires !Run(d, es[..i]).state.Pending?
    ensures Run(d, es[..j]).state == Run(d, es[..i]).state
  {
    assert es[..j] == es[..i] + es[i..j];
    RunAppend(d, es[..i], es[i..j]);
    RunInv(d, es[..i]);
    SettledRun(Run(d, es[..i]), es[i..j]);
  }

  /** With the settlers hooked, every call of the exposed resolve, reject or
      callback leaves the timer slot null, even on a Deferral already settled. */
  lemma ExposedCallClearsTimer(d: Deferral, e: Event)
    requires Inv(d) && d.hooked
    ensures Step(d, e).timer == Cleared || (e.TimerFires? && Step(d, e) == d)
  {
  }

  /** Expiry of the armed timer nulls the slot and rejects with the timeout
      error (message 'timeout', code 'ETIMEDOUT'). */
  lemma ExpiryRejects(d: Deferral)
    requires Inv(d) && d.timer == Armed
    ensures Step(d, TimerFires) == Deferral(Rejected(Error("timeout", Some("ETIMEDOUT"))), Cleared, true)
  {
  }

  /** With a falsy timeout no timer ever exists and the exposed settlers are
      the raw ones: each event only settles the promise. */
  lemma {:induction false} UntimedRun(timeout: Value, es: seq<Event>)
    requires !Truthy(timeout)
    ensures Run(Created(timeout), es).timer == NoTimer
    ensures !Run(Created(timeout), es).hooked
  {
    CreatedValid(timeout);
    RunInv(Created(timeout), es);
  }

  /** A pending Deferral stays pending exactly when none of the events can
      settle it: the converse of `FirstSettlementWins`. */
  lemma {:induction false} RunStaysPending(d: Deferral, es: seq<Event>)
    requires Inv(d) && d.state.Pending?
    ensures Run(d, es).state.Pending? <==> forall k :: 0 <= k < |es| ==> !Settles(d.hooked, es[k])
    decreases |es|
  {
    if es != [] {
      if Settles(d.hooked, es[0]) {
        FirstSettlementWins(d, es, 0);
      } else {
        assert Step(d, es[0]) == d;
        RunStaysPending(d, es[1..]);
        assert forall k :: 1 <= k < |es| ==> es[k] == es[1..][k - 1];
      }
    }
  }

  /** The first settling event decides: if event i is the first one that can
      settle the pending Deferral, the final state is that event's outcome. */
  lemma {:induction false} FirstSettlementWins(d: Deferral, es: seq<Event>, i: nat)
    requires Inv(d) && d.state.Pending?
    requires i < |es| && Settles(d.hooked, es[i])
    requires forall k :: 0 <= k < i ==> !Settles(d.hooked, es[k])
    ensures Run(d, es).state == Outcome(es[i])
    decreases i
  {
    if i == 0 {
      StepInv(d, es[0]);
      SettledRun(Step(d, es[0]), es[1..]);
    } else {
      assert !Settles(d.hooked, es[0]);
      FirstSettlementWins(d, es[1..], i - 1);
    }
  }
}
