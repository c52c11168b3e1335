/** `defer`: a promise that carries its own settlers, a callback adapter, an
    optional self-expiring timer and a tag. */
module Defer {
  import opened Values
  import opened Future
  import opened Settlement
  import CallbackAdapter

  class Deferred {
    /** The native promise's single-assignment cell. */
    var state: State
    /** The timer slot of `defer`; `NoTimer` when the timeout was falsy. */
    var timer: Timer
    /** Whether the exposed resolve/reject were rebound to the hooked versions. */
    const hooked: bool
    /** The caller's correlation tag, stored and never consulted. */
    const tag: Value

    /** The abstract view of this Deferred. */
    function Snapshot(): (d: Deferral)
      reads this
    {
      Deferral(state, timer, hooked)
    }

    ghost predicate Valid()
      reads this
    {
      Inv(Snapshot())
    }

    /** `defer(timeout, tag)`: a pending promise; a truthy timeout arms the
        timer and rebinds resolve/reject to the hooked versions. */
    constructor (timeout: Value, tag: Value)
      ensures Valid()
      ensures Snapshot() == Created(timeout)
      ensures this.tag == tag
    {
      state := Pending;
      if Truthy(timeout) {
        timer := Armed;
        hooked := true;
      } else {
        timer := NoTimer;
        hooked := false;
      }
      this.tag := tag;
    }

    /** `cancel`: clears the timer if it is still set and leaves the slot null;
        a cleared timer's expiry is never delivered (see `Expire`). */
    method Cancel()
      requires timer != NoTimer
      modifies this
      ensures timer == Cleared
      ensures state == old(state)
    {
      timer := Cleared;
    }

    /** The native resolve captured by the promise executor. */
    method NativeResolve(value: Value)
      modifies this
      ensures state == Settle(old(state), Fulfilled(value))
      ensures timer == old(timer)
    {
      if state.Pending? {
        state := Fulfilled(value);
      }
    }

    /** The native reject captured by the promise executor. */
    method NativeReject(reason: Value)
      modifies this
      ensures state == Settle(old(state), Rejected(reason))
      ensures timer == old(timer)
    {
      if state.Pending? {
        state := Rejected(reason);
      }
    }

    /** `hookedResolve`: run `cancel`, then the native resolve. */
    method HookedResolve(value: Value)
      requires timer != NoTimer
      modifies this
      ensures timer == Cleared
      ensures state == Settle(old(state), Fulfilled(value))
    {
      Cancel();
      NativeResolve(value);
    }

    /** `hookedReject`: run `cancel`, then the native reject. */
    method HookedReject(reason: Value)
      requires timer != NoTimer
      modifies this
      ensures timer == Cleared
      ensures state == Settle(old(state), Rejected(reason))
    {
      Cancel();
      NativeReject(reason);
    }

    /** The exposed `resolve`: hooked when a timer exists, native otherwise. */
    method Resolve(value: Value)
      requires Valid()
      modifies this
      ensures Valid()
      ensures Snapshot() == Step(old(Snapshot()), ResolveCall(value))
    {
      if hooked {
        HookedResolve(value);
      } else {
        NativeResolve(value);
      }
    }

    /** The exposed `reject`: hooked when a timer exists, native otherwise. */
    method Reject(reason: Value)
      requires Valid()
      modifies this
      ensures Valid()
      ensures Snapshot() == Step(old(Snapshot()), RejectCall(reason))
    {
      if hooked {
        HookedReject(reason);
      } else {
        NativeReject(reason);
      }
    }

    /** The exposed `callback(error, value)`, bound to the exposed (hooked)
        resolve and reject. */
    method Callback(error: Value, value: Value)
      requires Valid()
      modifies this
      ensures Valid()
      ensures Snapshot() == Step(old(Snapshot()), CallbackCall(error, value))
    {
      var outcome := CallbackAdapter.Route(error, value);
      if outcome.Fulfilled? {
        Resolve(outcome.value);
      } else {
        Reject(outcome.reason);
      }
    }

    /** The host delivers the timer's expiry, which it does only for an armed
        timer: the handler nulls the slot, then calls the exposed (hooked)
        reject with the timeout error. */
    method Expire() returns (fired: bool)
      requires Valid()
      modifies this
      ensures Valid()
      ensures fired <==> old(timer) == Armed
      ensures Snapshot() == Step(old(Snapshot()), TimerFires)
    {
      fired := timer == Armed;
      if fired {
        timer := Cleared;
        HookedReject(TimeoutError);
      }
    }
  }
}
