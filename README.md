# defer — a verified model of the settlement state machine

This project models the core of the `defer` library (`src/index.ts`): a
**Deferred** is a promise that carries its own `resolve` and `reject`, a
Node-style `callback(error, value)` adapter, an optional tag and, when created
with a truthy timeout, a self-expiring **timer**. The timer rejects the promise
with an error whose message is `'timeout'` and whose code is `'ETIMEDOUT'`,
unless some other settlement cancels it first (for settlements with a thenable, see "## Left out"). Two helpers build on it.
`promise` runs a callback-style function against an untimed Deferred and turns
a synchronous throw into a rejection. `timeout` races an input (a thenable or a
producer) against a timed Deferred.

Layout, one module per file:

- `values.dfy` (`Values`): JavaScript values as far as settlement observes
  them, their truthiness, and the two distinguished errors.
- `future.dfy` (`Future`): the native promise as a single-assignment cell
  (`Pending | Fulfilled(v) | Rejected(e)`), where the first settlement wins.
- `callback.dfy` (`CallbackAdapter`): `resolvableCallback` as the pure
  three-way function `Route`.
- `settlement.dfy` (`Settlement`): the abstract state machine. A `Deferral` is
  the promise state, the timer slot (`NoTimer`, `Armed`, or `Cleared` for
  null) and whether the settlers are hooked. `Step` and `Run` apply events
  (exposed resolve/reject/callback calls, timer expiry) in any order, with the
  lemmas about them.
- `deferred.dfy` (`Defer`): the class `Deferred` with the fields `state`,
  `timer`, `hooked` and `tag`. Its methods are `Cancel`, the native settlers,
  `HookedResolve`/`HookedReject`, the exposed `Resolve`/`Reject`/`Callback`,
  and `Expire`, the host delivering the timer event. Each exposed method is
  proved to move the object exactly as `Step` moves its `Snapshot()`, and to
  keep the invariant `Valid()`.
- `helpers.dfy` (`Helpers`): `promise` and `timeout`, with their outcome lemmas.
- `scenarios.dfy` (`Scenarios`): client code for the behaviours the test file
  exercises and a few more uses of the library, each with its guaranteed result.

Timer expiry and the completion of a raced input are external events. They are
methods (`Deferred.Expire`, `Helpers.Forward`) that a caller may invoke in any
order, and `Settlement.Run` covers every such order. Real time and the event
loop are not modelled.

Three details of the code the model follows:

- A timer exists exactly when the `timeout` argument is truthy
  (src/index.ts:32). A `Number` wrapper object is truthy even when it holds 0,
  so it arms a timer (it is `Object` here).
- The settlers are rebound after construction (src/index.ts:44-45). The model
  fixes `hooked` at construction, which has the same effect, because nothing
  reads the settlers between construction and the rebinding.
- The timer handler calls `resolvable.reject` as it is at firing time, which is
  the hooked reject. So `cancel` runs once more after the slot was nulled, and
  does nothing (`Deferred.Expire` calls `HookedReject`).

## Model

| member | source | states |
|---|---|---|
| `Values.FalsyValues` | src/index.ts:58-63 | exactly undefined, null, false, 0 and '' are falsy; every object, an Error included, is truthy |
| `Future.Settle` | src/index.ts:26-29 | the native settlers: a pending promise takes the outcome; a settled one is left unchanged |
| `Future.SettleOnce` | src/index.ts:26-29 | a second settlement after the first has no effect |
| `CallbackAdapter.Route` | src/index.ts:57-65 | every callback invocation either resolves or rejects, never leaves the promise pending |
| `CallbackAdapter.ErrorWins` | src/index.ts:58-59 | a truthy error rejects with exactly that error, and the value is never consulted (any two values give the same result) |
| `CallbackAdapter.ResolvesIff` | src/index.ts:60-61 | the adapter resolves if and only if the error is falsy and the value truthy, and then with that value |
| `CallbackAdapter.FalsyValueRejected` | src/index.ts:62-63 | both arguments falsy reject with 'invalid invocation', including the valid results 0, '' and false |
| `CallbackAdapter.RejectionReason` | src/index.ts:57-65 | a rejection carries either the truthy error untouched or the invalid-invocation error, the latter only when the value is falsy |
| `Settlement.Created` | src/index.ts:24-46 | a new Deferred is pending; it has an armed timer and hooked settlers if and only if the timeout is truthy, and no timer at all otherwise |
| `Settlement.CreatedValid` | src/index.ts:32-46 | a new Deferred satisfies the invariant: a timer slot exists exactly when the settlers are hooked, and is armed exactly while pending |
| `Settlement.StepInv` | src/index.ts:33-45 | every exposed call and every expiry keeps that invariant and never changes whether the settlers are hooked |
| `Settlement.RunInv` | src/index.ts:33-45 | any sequence of events keeps the invariant |
| `Settlement.SettledStep` | src/index.ts:26-29 | once settled, no event changes the state, and an expiry event has no effect at all |
| `Settlement.SettledRun` | src/index.ts:26-29 | once settled, no sequence of events changes the state |
| `Settlement.AtMostOnce` | src/index.ts:26-29 | settles at most once: once a prefix of the events has settled the Deferred, every longer prefix leaves the same state |
| `Settlement.ExposedCallClearsTimer` | src/index.ts:66-73 | with hooked settlers, every resolve, reject or callback call leaves the timer slot null, even on an already settled Deferred; an expiry either nulls it or is not delivered |
| `Settlement.ExpiryRejects` | src/index.ts:33-38 | expiry of the armed timer nulls the slot and rejects with message 'timeout' and code 'ETIMEDOUT' |
| `Settlement.UntimedRun` | src/index.ts:32-49 | with a falsy timeout (0 included) no timer ever exists and the settlers are never hooked, whatever events follow |
| `Settlement.RunStaysPending` | src/index.ts:26-45 | a pending Deferred stays pending after a sequence of events if and only if none of them can settle it (only expiries of a timer that does not exist cannot) |
| `Settlement.FirstSettlementWins` | src/index.ts:26-45 | the first event able to settle a pending Deferred decides its final state, whatever events follow |
| `Defer.Deferred.constructor` | src/index.ts:24-54 | `defer(timeout, tag)` yields the `Created(timeout)` state, satisfies the invariant and stores the tag |
| `Defer.Deferred.Cancel` | src/index.ts:40-42 | `cancel` always leaves the slot null and the promise untouched, so a repeated call, or a call after expiry, changes nothing more |
| `Defer.Deferred.NativeResolve` | src/index.ts:26-27 | the native resolve settles only a pending promise, with the value |
| `Defer.Deferred.NativeReject` | src/index.ts:26-28 | the native reject settles only a pending promise, with the reason |
| `Defer.Deferred.HookedResolve` | src/index.ts:66-69 | runs `cancel` and then the native resolve: the slot is null and the first settlement wins |
| `Defer.Deferred.HookedReject` | src/index.ts:70-73 | runs `cancel` and then the native reject: the slot is null and the first settlement wins |
| `Defer.Deferred.Resolve` | src/index.ts:44-48 | the exposed resolve is the hooked one exactly when a timer exists; it moves the object as `Step` does and keeps the invariant |
| `Defer.Deferred.Reject` | src/index.ts:45-49 | the exposed reject is the hooked one exactly when a timer exists; it moves the object as `Step` does and keeps the invariant |
| `Defer.Deferred.Callback` | src/index.ts:51-65 | the callback is bound to the exposed (hooked) settlers and routes as `Route` says, keeping the invariant |
| `Defer.Deferred.Expire` | src/index.ts:33-39 | the host delivers expiry only for an armed timer; the handler nulls the slot and rejects through the hooked reject |
| `Helpers.Promise` | src/index.ts:87-95 | `promise` hands an untimed Deferred's callback to the function and rejects with anything it throws synchronously |
| `Helpers.PromiseOutcome` | src/index.ts:87-95 | a synchronous callback call decides the outcome; otherwise a synchronous throw rejects with the thrown value; no timer is involved |
| `Helpers.Forwarded` | src/index.ts:107-112 | the input's fulfilment reaches the Deferred as a resolve call, its rejection or thrown error as a reject call, and either one settles it |
| `Helpers.Timeout` | src/index.ts:105-114 | `timeout` returns a fresh Deferred in the `Created(timeout)` state; for a conforming input nothing is delivered before it returns |
| `Helpers.Forward` | src/index.ts:107-113 | the input's completion is passed to the exposed (hooked) resolve or reject |
| `Helpers.TimeoutRace` | src/index.ts:105-114 | whichever of input completion and timer expiry comes first decides and the other has no effect; with a falsy timeout the input decides in either order |
| `Scenarios.ResolveThenReject` | test/defer.ts:18-23 | resolve fulfils with the value; a later reject is discarded |
| `Scenarios.RejectThenResolve` | test/defer.ts:24-34 | reject rejects with that very reason; a later resolve is discarded |
| `Scenarios.CallbackResolves` | test/defer.ts:35-42 | `callback(undefined, v)` with a truthy v fulfils with v |
| `Scenarios.CallbackRejects` | test/defer.ts:43-54 | `callback(err)` with a truthy err rejects with err |
| `Scenarios.TimesOut` | test/defer.ts:55-64 | an unsettled `defer(50)` rejects with code 'ETIMEDOUT' when its timer fires |
| `Scenarios.ResolvedBeforeTimeout` | src/index.ts:66-69 | a `defer(50)` resolved before expiry fulfils, and its timer is never delivered |
| `Scenarios.ZeroTimeoutNeverExpires` | src/index.ts:32 | `defer(0)` has no timer: no expiry is ever delivered and it stays pending |
| `Scenarios.PromiseCatchesThrow` | src/index.ts:89-93 | `promise(fn)` with a synchronously throwing fn rejects with the thrown value |
| `Scenarios.TimeoutInputFirst` | src/index.ts:105-108 | `timeout(p, 50)` with p fulfilling first fulfils with p's value |
| `Scenarios.TimeoutTimerFirst` | src/index.ts:105-114 | `timeout(p, 50)` with the timer first rejects with the timeout error; p's later fulfilment is discarded |

## Left out

- `sleep` (src/index.ts:75-79): a bare delay with no settlement logic.
- `keepalive` and `timer.unref()` (src/index.ts:43): these only decide whether the host process stays alive, so they have no effect on settlement.
- Real time: the delay value (`+timeout`) and the scheduling of timers are not modelled. Expiry is an event that may come at any point while the timer is armed.
- Event-loop and microtask ordering: continuations are not delivered asynchronously here. The producer's deferral to a later turn (src/index.ts:110-112) is not modelled; its completion is an event like any other.
- `promisify`, variadic argument spreading and the TypeScript interfaces (src/index.ts:1-22, 81-86, 96-103): these are wiring with no behaviour.
- `promise.promise` (src/index.ts:50): a self-reference with no behaviour.
- Helpers.Timeout: does not distinguish a thenable input from a producer (src/index.ts:107); each kind of input completes with a value or an error (`Completion`), delivered later through `Forward`. Two behaviours of non-conforming thenables are not modelled. The input's own `then` is called synchronously inside `timeout` (src/index.ts:108): if it throws, `timeout` throws and never returns the Deferred, whose armed timer is lost; if it calls a handler synchronously, the Deferred is settled before `timeout` returns.
- Helpers.Promise: models at most one synchronous callback call by the function. Further calls find the promise already settled (`Settlement.SettledRun`), and asynchronous calls are ordinary `Deferred.Callback` events.
- Helpers.Promise: returns the Deferred itself, not the new promise of the `async` function, which follows the Deferred's outcome.
- Promise adoption: resolving with a thenable, or a producer returning one, makes the promise follow it. Here every value settles the promise directly. This limits `Settlement.Inv` and `Helpers.TimeoutRace`: the hooked resolve runs `cancel` before the native resolve (src/index.ts:66-68), so `defer(50).resolve(p)` with a thenable `p` that never settles nulls the timer while the promise stays pending forever, and the timeout is defeated. "Armed exactly while pending" and "the first of input and timer decides" hold only for non-thenable values.
- Numbers are integers. NaN and -0 (both falsy) and BigInt values such as `0n` (falsy) are not modelled.
- Error identity: errors are compared as values. Two `new Error('timeout')` objects would be distinct in JavaScript but are equal here. `Object(id)` carries identity for other objects.
- `tag`: it is stored unchanged and never consulted, so it has no effect on settlement.
