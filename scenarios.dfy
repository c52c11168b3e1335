/** Uses of Deferred, each ending with what its caller can rely on. */
module Scenarios {
  import opened Values
  import opened Future
  import opened Settlement
  import opened Defer
  import opened Helpers

  /** Resolving an untimed Deferred fulfils it; a later reject is discarded. */
  method ResolveThenReject(v: Value, e: Value) returns (s: State)
    ensures s == Fulfilled(v)
  {
    var d := new Deferred(Undefined, Undefined);
    d.Resolve(v);
    d.Reject(e);
    s := d.state;
  }

  /** Rejecting an untimed Deferred rejects it with that very reason. */
  method RejectThenResolve(e: Value, v: Value) returns (s: State)
    ensures s == Rejected(e)
  {
    var d := new Deferred(Undefined, Undefined);
    d.Reject(e);
    d.Resolve(v);
    s := d.state;
  }

  /** `callback(undefined, v)` with a truthy v fulfils with v. */
  method CallbackResolves(v: Value) returns (s: State)
    requires Truthy(v)
    ensures s == Fulfilled(v)
  {
    var d := new Deferred(Undefined, Undefined);
    d.Callback(Undefined, v);
    s := d.state;
  }

  /** `callback(err)` with a truthy err rejects with err. */
  method CallbackRejects(err: Value) returns (s: State)
    requires Truthy(err)
    ensures s == Rejected(err)
  {
    var d := new Deferred(Undefined, Undefined);
    d.Callback(err, Undefined);
    s := d.state;
  }

  /** `defer(50)` left alone rejects with code ETIMEDOUT when the timer fires. */
  method TimesOut() returns (fired: bool, s: State)
    ensures fired
    ensures s.Rejected? && s.reason.Error? && s.reason.code == Some("ETIMEDOUT")
  {
    var d := new Deferred(Num(50), Undefined);
    fired := d.Expire();
    s := d.state;
  }

  /** `defer(50)` resolved before the delay fulfils, and its timer never fires. */
  method ResolvedBeforeTimeout(v: Value) returns (fired: bool, s: State)
    ensures !fired
    ensures s == Fulfilled(v)
  {
    var d := new Deferred(Num(50), Undefined);
    d.Resolve(v);
    fired := d.Expire();
    s := d.state;
  }

  /** `defer(0)`: a zero timeout creates no timer, so nothing ever expires. */
  method ZeroTimeoutNeverExpires() returns (fired: bool, s: State)
    ensures !fired
    ensures s == Pending
  {
    var d := new Deferred(Num(0), Undefined);
    fired := d.Expire();
    s := d.state;
  }

  /** `promise(fn)` where fn throws synchronously: the result rejects with
      the thrown value. */
  method PromiseCatchesThrow(err: Value) returns (s: State)
    ensures s == Rejected(err)
  {
    var d := Promise(FuncRun(None, Some(err)));
    PromiseOutcome(FuncRun(None, Some(err)));
    s := d.state;
  }

  /** `timeout(p, 50)` where p fulfils first: the result fulfils with p's value. */
  method TimeoutInputFirst(v: Value) returns (s: State)
    ensures s == Fulfilled(v)
  {
    var d := Timeout(Num(50));
    Forward(d, Fulfils(v));
    var fired := d.Expire();
    s := d.state;
  }

  /** `timeout(p, 50)` where p has not settled in time: the result rejects
      with the timeout error and p's later settlement is discarded. */
  method TimeoutTimerFirst(v: Value) returns (s: State)
    ensures s == Rejected(TimeoutError)
  {
    var d := Timeout(Num(50));
    var fired := d.Expire();
    Forward(d, Fulfils(v));
    s := d.state;
  }
}
