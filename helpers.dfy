/** `promise` and `timeout`: thin compositions that drive a Deferred. */
module Helpers {
  import opened Values
  import opened Future
  import opened Settlement
  import opened Defer
  import CallbackAdapter

  /** What a callback-style function does synchronously when `promise` calls
      it: possibly call the callback it was handed, then return or throw.
      Later calls of the callback are ordinary events on the Deferred. */
  datatype FuncRun = FuncRun(callback: Option<(Value, Value)>, thrown: Option<Value>)

  /** The events a synchronous run of the function delivers to the untimed
      Deferred of `promise`: its callback call, then the catch's reject. */
  function PromiseEvents(run: FuncRun): (es: seq<Event>)
  {
    (match run.callback
     case Some(args) => [CallbackCall(args.0, args.1)]
     case None => [])
    + (match run.thrown
       case Some(err) => [RejectCall(err)]
       case None => [])
  }

  /** `promise(func, ...args)`: an untimed Deferred handed to `func` as its
      callback; a synchronous throw rejects it instead of escaping. */
  method Promise(run: FuncRun) returns (d: Deferred)
    ensures fresh(d) && d.Valid() && d.tag == Undefined
    ensures d.Snapshot() == Run(Created(Undefined), PromiseEvents(run))
  {
    d := new Deferred(Undefined, Undefined);
    ghost var es: seq<Event> := [];
    if run.callback.Some? {
      d.Callback(run.callback.value.0, run.callback.value.1);
      es := [CallbackCall(run.callback.value.0, run.callback.value.1)];
    }
    assert d.Snapshot() == Run(Created(Undefined), es);
    if run.thrown.Some? {
      d.Reject(run.thrown.value);
      RunAppend(Created(Undefined), es, [RejectCall(run.thrown.value)]);
      es := es + [RejectCall(run.thrown.value)];
    }
    assert es == PromiseEvents(run);
  }

  /** The outcome of `promise`: a synchronous callback call decides; failing
      that, a synchronous throw rejects with the thrown value; otherwise the
      promise is still pending. No timer is involved. */
  lemma PromiseOutcome(run: FuncRun)
    ensures Run(Created(Undefined), PromiseEvents(run)).timer == NoTimer
    ensures run.callback.Some? ==>
      Run(Created(Undefined), PromiseEvents(run)).state
        == CallbackAdapter.Route(run.callback.value.0, run.callback.value.1)
    ensures run.callback.None? && run.thrown.Some? ==>
      Run(Created(Undefined), PromiseEvents(run)).state == Rejected(run.thrown.value)
    ensures run.callback.None? && run.thrown.None? ==>
      Run(Created(Undefined), PromiseEvents(run)).state == Pending
  {
    var es := PromiseEvents(run);
    UntimedRun(Undefined, es);
    CreatedValid(Undefined);
    if es != [] {
      FirstSettlementWins(Created(Undefined), es, 0);
    }
  }

  /** How the raced input completes: a thenable fulfils or rejects; a
      producer returns a value or throws, which the promise chain turns into
      the same two outcomes. */
  datatype Completion = Fulfils(value: Value) | Fails(reason: Value)

  /** The call the continuation `.then(deferred.resolve, deferred.reject)` makes. */
  function Forwarded(c: Completion): (e: Event)
    ensures Settles(false, e)
    ensures Outcome(e) == if c.Fulfils? then Fulfilled(c.value) else Rejected(c.reason)
  {
    match c
    case Fulfils(v) => ResolveCall(v)
    case Fails(r) => RejectCall(r)
  }

  /** `timeout(future, timeout)`: a Deferred with the given timeout. Whether
      the input is a thenable or a producer, nothing is delivered
      synchronously: its completion arrives later through `Forward`. */
  method Timeout(timeout: Value) returns (d: Deferred)
    ensures fresh(d) && d.Valid() && d.tag == Undefined
    ensures d.Snapshot() == Created(timeout)
  {
    d := new Deferred(timeout, Undefined);
  }

  /** The input's completion reaching the Deferred of `timeout` through the
      exposed (hooked) resolve or reject. */
  method Forward(d: Deferred, c: Completion)
    requires d.Valid()
    modifies d
    ensures d.Valid()
    ensures d.Snapshot() == Step(old(d.Snapshot()), Forwarded(c))
  {
    match c
    case Fulfils(v) => d.Resolve(v);
    case Fails(r) => d.Reject(r);
  }

  /** The race of `timeout`: with a truthy timeout, whichever of the input's
      completion and the timer's expiry comes first decides, and the loser has
      no effect; with a falsy timeout there is no timer and the input decides. */
  lemma {:induction false} TimeoutRace(timeout: Value, c: Completion)
    ensures Truthy(timeout) ==>
      Run(Created(timeout), [Forwarded(c), TimerFires]).state == Outcome(Forwarded(c))
    ensures Truthy(timeout) ==>
      Run(Created(timeout), [TimerFires, Forwarded(c)]).state == Rejected(TimeoutError)
    ensures !Truthy(timeout) ==>
      Run(Created(timeout), [TimerFires, Forwarded(c)]).state == Outcome(Forwarded(c))
    ensures !Truthy(timeout) ==>
      Run(Created(timeout), [Forwarded(c), TimerFires]).state == Outcome(Forwarded(c))
    ensures Run(Created(timeout), [Forwarded(c), TimerFires]).timer != Armed
  {
    var d := Created(timeout);
    CreatedValid(timeout);
    FirstSettlementWins(d, [Forwarded(c), TimerFires], 0);
    RunInv(d, [Forwarded(c), TimerFires]);
    if Truthy(timeout) {
      FirstSettlementWins(d, [TimerFires, Forwarded(c)], 0);
    } else {
      FirstSettlementWins(d, [TimerFires, Forwarded(c)], 1);
    }
  }
}
