/** The native promise under a Deferred, as an explicit single-assignment cell. */
module Future {
  import opened Values

  /** A promise's state: pending, or settled for good. */
  datatype State = Pending | Fulfilled(value: Value) | Rejected(reason: Value)

  /** The native settlers' effect: the first settlement wins and every later
      one is silently discarded. */
  function Settle(s: State, outcome: State): (r: State)
    requires !outcome.Pending?
    ensures !r.Pending?
    ensures s.Pending? ==> r == outcome
    ensures !s.Pending? ==> r == s
  {
    if s.Pending? then outcome else s
  }

  /** Settling twice is settling once: the second attempt is a no-op. */
  lemma SettleOnce(s: State, first: State, second: State)
    requires !first.Pending? && !second.Pending?
    ensures Settle(Settle(s, first), second) == Settle(s, first)
  {
  }
}
