/** The Node-style callback adapter bound onto every Deferred. */
module CallbackAdapter {
  import opened Values
  import opened Future

  /** Where a call `callback(error, value)` sends the Deferred: a truthy `error`
      rejects with it, else a truthy `value` resolves with it, else the call is
      rejected as an invalid invocation. Truthiness, not presence, decides. */
  function Route(error: Value, value: Value): (r: State)
    ensures !r.Pending?
  {
    if Truthy(error) then Rejected(error)
    else if Truthy(value) then Fulfilled(value)
    else Rejected(InvalidInvocation)
  }

  /** A truthy error rejects with exactly that error, whatever the value. */
  lemma ErrorWins(error: Value, value: Value, other: Value)
    requires Truthy(error)
    ensures Route(error, value) == Rejected(error)
    ensures Route(error, value) == Route(error, other)
  {
  }

  /** The adapter resolves exactly when the error is falsy and the value truthy,
      and then with that value. */
  lemma ResolvesIff(error: Value, value: Value)
    ensures Route(error, value).Fulfilled? <==> !Truthy(error) && Truthy(value)
    ensures Route(error, value).Fulfilled? ==> Route(error, value).value == value
  {
  }

  /** With both arguments falsy the adapter rejects with the invalid-invocation
      error, so the valid but falsy results 0, '' and false are rejected too. */
  lemma FalsyValueRejected(error: Value, value: Value)
    requires !Truthy(error) && !Truthy(value)
    ensures Route(error, value) == Rejected(InvalidInvocation)
    ensures Route(Undefined, Num(0)) == Route(Undefined, Str("")) == Route(Undefined, Bool(false))
                                     == Rejected(InvalidInvocation)
  {
  }

  /** A rejection comes either from a truthy error, passed on untouched, or is
      the invalid-invocation error. */
  lemma RejectionReason(error: Value, value: Value)
    requires Route(error, value).Rejected?
    ensures (Route(error, value).reason == error && Truthy(error))
         || (Route(error, value).reason == InvalidInvocation && !Truthy(value))
  {
  }
}
