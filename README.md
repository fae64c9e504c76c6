# MyPromise, modelled in Dafny

This project models `MyPromise`, a small Promises/A+ implementation in JavaScript (index.js), and the earlier TypeScript draft of the same class (index.ts).

**State.** A promise is a record with these fields:
- `status` (PENDING, FULFILLED or REJECTED);
- `value` and `reason`;
- two callback queues, `onFulfilledCallback` and `onRejectedCallback`.

Records live in a heap, and a promise is named by its index there. `setTimeout` is the only scheduler the code uses. It becomes an explicit FIFO queue of tasks, and one turn of the event loop (`Step`) removes the oldest task and runs it.

**Files.**
- `Values.dfy`: the JavaScript values a promise can carry, tagged by what `instanceof MyPromise`, `typeof` and reading `x.then` can tell apart.
  - User code is scripted. A handler is a total function from a value to a completion (returned or thrown). An executor, or the `then` method of a foreign thenable, is a `Script`: the resolve/reject calls it makes, in order, and whether it then returns or throws.
  - Also here: `isPromise` of index.ts, and the defaults that `then` puts in place of a non-function handler.
- `Machine.dfy`: the index.js state machine as functions on an explicit state (heap plus timer queue). It covers:
  - the constructor, `_resolve`, `_reject` and `then`;
  - `resolvePromise`, including the `called_1` flag;
  - the three kinds of scheduled body;
  - `MyPromise.deferred`.
- `MachineLemmas.dfy`: properties of the index.js model. It covers:
  - settlement happens at most once and is final;
  - queues drain in FIFO order;
  - how handlers and the default handlers behave;
  - each case of the resolution procedure (sections 2.3.1–2.3.4 of Promises/A+);
  - well-formedness (every waiter and task names an existing promise, and `value` and `reason` match the status) is preserved by every public operation and by any run of them.
- `Runtime.dfy`: the same machine as a class (`PromiseRuntime`). Its fields are the heap and the timer queue, and its methods update them in place. There is a loop where the source loops (`forEach` over a callback queue), and a loop over the scripted calls that an executor or a thenable makes to its resolve and reject functions. Each method is proved to leave exactly the state that the matching `Machine` function describes.
- `Draft.dfy` and `DraftRuntime.dfy`: the index.ts draft, as functions with lemmas and as a class. In the draft, handlers are called synchronously from the settle body and their results are dropped. The state therefore also keeps a log of every handler call and its outcome. The draft's `then` returns `new MyPromise(() => {})`, and `Draft.ThenResultNeverSettles` proves that this promise stays pending whatever runs afterwards.
- `Scenarios.dfy`: concrete runs.
  - The two chains of test/1.ts on both implementations.
  - On index.js only: a throwing handler, a handler that returns its own `promise2`, a thenable that calls back more than once, a deferred that is resolved and then rejected, a handler that returns a promise still pending, and how adopting a settled MyPromise differs from adopting a pending one.

Where the comments in the source and its code disagree, the model follows the code. Three places:
- **Queues are not cleared.** The settle bodies drain a queue with `forEach` and leave it in place, although the comment at index.js:35 says it is emptied.
- **No catch around the body.** The `try`/`catch` in `_resolve` wraps only the call to `setTimeout`, not the scheduled body, so an error inside the body is not turned into a rejection.
- **Draft queue entries.** A pushed callback reads `this.value` or `this.reason`. The settle body has just set that field to the payload it passes, so the model calls the handler with the payload.

## Model

| member | source | states |
|---|---|---|
| Values.IsPromise | index.ts:24-30 | `isPromise(v)` returns true exactly for a MyPromise or an object whose `then` is a function; it throws exactly when the `then` getter throws, with that error |
| Values.OnFulfilledOrIdentity | index.js:56 | a function `onFulfilled` is kept; anything else becomes the identity, returning every value unchanged |
| Values.OnRejectedOrRethrow | index.js:57-59 | a function `onRejected` is kept; anything else becomes a function that throws every argument |
| Values.IsFunction | index.js:9 | `isFunction` (also index.ts:32) is the `Fn?` tag of a callback; what it decides is stated by `OnFulfilledOrIdentity`, `OnRejectedOrRethrow` and `IsPromise` |
| Values.ExecutorTasks | index.js:20 | an executor's resolve/reject calls schedule one settle body each, in call order; the index.js model and the index.ts draft share it, each passing its own `Settler(p)`, the bound `this._resolve` / `this._reject` of the new promise |
| Machine.ScheduleResolve | index.js:27-43 | `_resolve(value)` appends `SettleFulfil(p, v)` to the timer queue and leaves the heap unchanged |
| Machine.ScheduleReject | index.js:44-53 | `_reject(reason)` appends `SettleReject(p, r)` to the timer queue and leaves the heap unchanged |
| Machine.SettleTask | index.js:20 | a call of the bound resolve (reject) passed to the executor yields the fulfil (reject) body of that same promise, carrying the call's argument |
| Machine.Construct | index.js:11-26 | the new promise is the next id and starts pending with empty queues; the timer queue gets the executor's settle bodies, then a rejection with the thrown value when the executor throws; nothing else changes |
| Machine.ThenWith | index.js:60-108 | `promise2` is a fresh pending promise and no other promise changes; a pending source gets exactly one waiter on each queue and nothing is scheduled; a settled source keeps its record and exactly the handler for its outcome is scheduled with its payload |
| Machine.Then | index.js:54-59 | no `ensures` of its own: the defaults are stated in `MachineLemmas.DefaultsPassThrough`, the frame in `MachineLemmas.ThenWithExtends`, and `Runtime.PromiseRuntime.Then` is proved to leave exactly its state |
| Machine.ResolvePromise | index.js:112-166 | no `ensures` of its own: each case of section 2.3 of Promises/A+ is a lemma (`ResolveCycle`, `ResolveAdoptsSettled`, `ResolveAdoptsPending`, `ResolveGetterThrows`, `ResolvePlainValue`, `ThenableFirstCallWins`), its frame is `ResolvePromiseExtends`, and `Scenarios.AdoptionDependsOnTiming` shows how adoption of a settled and of a pending MyPromise differ |
| Machine.RunThenable | index.js:137-157 | no `ensures` of its own: `MachineLemmas.RunThenableExtends` (its frame), `MachineLemmas.CalledThenableInert` (the `called_1` flag) and `MachineLemmas.ThenableFirstCallWins` state it |
| Machine.Invoke | index.js:84-104 | no `ensures` of its own: `MachineLemmas.HandlerOutcome` states a user handler's call, `MachineLemmas.AdoptionForwards` the adopting pair of index.js:118-120 |
| Machine.HandlerBody | index.js:62-70 | no `ensures` of its own: `MachineLemmas.HandlerOutcome`, `MachineLemmas.DefaultsPassThrough` and `MachineLemmas.HandlerBodyExtends` state it |
| Machine.SettleBody | index.js:30-37 | no `ensures` of its own: `MachineLemmas.SettleOnlyWhilePending`, `MachineLemmas.SettleDrainsInOrder` and `MachineLemmas.SettleBodyGrows` state it, for `_resolve` here and `_reject` (index.js:46-51) alike |
| Machine.RunTask | index.js:30-52 | no `ensures` of its own: it dispatches to `SettleBody` or `HandlerBody`; `MachineLemmas.StepGrows` states what a turn changes |
| Machine.Step | index.js:30-38 | no `ensures` of its own: `MachineLemmas.StepGrows` states that a turn keeps the state well formed and leaves settled promises alone |
| Machine.CallCapability | index.js:173-174 | no `ensures` of its own: `MachineLemmas.Apply` (case `Settle`) states that calling a handed-out capability only schedules its settle body |
| Machine.Drain | index.js:36 | draining a queue schedules one handler body per waiter, in queue order, each with the payload |
| Machine.MakeDeferred | index.js:170-177 | `deferred()` adds one fresh pending promise, schedules nothing, and hands out its own resolve and reject capabilities |
| MachineLemmas.ConstructExtends | index.js:11-26 | construction settles no promise, only appends to the timer queue, and keeps the state well formed |
| MachineLemmas.ThenWithExtends | index.js:54-109 | `then` settles no promise, only appends to queues and the timer queue, and keeps the state well formed |
| MachineLemmas.ResolvePromiseExtends | index.js:112-166 | the resolution procedure never settles anything synchronously; it only allocates, subscribes and schedules, and it keeps the state well formed |
| MachineLemmas.RunThenableExtends | index.js:137-157 | calling a foreign thenable's `then` with the guarded callbacks settles nothing synchronously and keeps the state well formed |
| MachineLemmas.SettleBodyGrows | index.js:30-37 | a settle body changes only its own promise, keeps the state well formed, and leaves settled promises as they were |
| MachineLemmas.HandlerBodyExtends | index.js:62-70 | a scheduled handler body settles no promise and keeps the state well formed |
| MachineLemmas.StepGrows | index.js:27-53 | one turn keeps the state well formed and never changes a settled promise; a status changes only for the promise whose settle body ran; the tasks still waiting stay first in the queue, in their order, ahead of those the turn schedules (first in, first out) |
| MachineLemmas.SettleOnlyWhilePending | index.js:31 | once a promise has settled, a later settle body of `_resolve` or `_reject` changes nothing |
| MachineLemmas.SettleDrainsInOrder | index.js:30-37 | on a pending promise the `_resolve` body sets FULFILLED and `value`, keeps `reason` and both queues, leaves other promises alone, and schedules every fulfilment waiter once, in queue order, with the value; the `_reject` body mirrors this with REJECTED and `reason` |
| MachineLemmas.HandlerOutcome | index.js:62-70 | a handler that returns feeds its result to the resolution procedure of `promise2`; one that throws rejects `promise2` with the thrown value |
| MachineLemmas.DefaultsPassThrough | index.js:56-59 | with the default handlers a value goes on to the resolution procedure unchanged and a rejection rejects `promise2` with the same reason |
| MachineLemmas.ResolveCycle | index.js:113-115 | resolving `promise2` with itself rejects it with the chaining-cycle TypeError (section 2.3.1 of Promises/A+) |
| MachineLemmas.ResolveAdoptsSettled | index.js:122-127 | a fulfilled MyPromise resolves `promise2` with its value, a rejected one rejects it with its reason |
| MachineLemmas.ResolveAdoptsPending | index.js:117-121 | a pending MyPromise gets exactly one adopting waiter on each queue, a new promise is allocated for the inner `then`, and nothing is scheduled |
| MachineLemmas.AdoptionForwards | index.js:118-120 | once the adopted promise settles, its value re-enters the resolution procedure of `promise2`, its reason rejects `promise2`, and the inner `then` promise is fulfilled with `undefined` |
| MachineLemmas.ResolveGetterThrows | index.js:130-136 | if reading `x.then` throws, `promise2` is rejected with that error (section 2.3.3.2 of Promises/A+) |
| MachineLemmas.ResolvePlainValue | index.js:159-165 | an object whose `then` is not a function, and every primitive, `null` and `undefined`, fulfils `promise2` with `x` itself |
| MachineLemmas.CalledThenableInert | index.js:141-157 | once `called_1` is set, no further callback or throw of the thenable has any effect |
| MachineLemmas.ThenableFirstCallWins | index.js:137-158 | only the first of the thenable's resolve call, reject call or synchronous throw has an effect (section 2.3.3.3 of Promises/A+) |
| MachineLemmas.Apply | index.js:10-177 | every public operation (construct, `then`, `deferred`, calling a held capability, one timer turn) keeps the state well formed and never changes a settled promise |
| MachineLemmas.Run | index.js:10-177 | the same holds for any sequence of public operations |
| MachineLemmas.SettlementIsFinal | index.js:31-37 | after any sequence of operations, a settled promise keeps its status, payload and queues |
| MachineLemmas.PayloadMatchesStatus | index.js:31-51 | after any sequence of operations, a pending promise has neither `value` nor `reason`, a fulfilled one no `reason` and a rejected one no `value` |
| Runtime.PromiseRuntime.Resolve | index.js:27-43 | `_resolve` appends the fulfil body to the timer queue and changes nothing else |
| Runtime.PromiseRuntime.Reject | index.js:44-53 | `_reject` appends the reject body to the timer queue and changes nothing else |
| Runtime.PromiseRuntime.NewPromise | index.js:11-26 | the constructor, running the executor's calls in a loop, leaves exactly the state of `Machine.Construct`, which stays well formed |
| Runtime.PromiseRuntime.ThenWith | index.js:60-108 | leaves exactly the state `Machine.ThenWith` describes and returns its `promise2` |
| Runtime.PromiseRuntime.Then | index.js:54-109 | the defaults, then `ThenWith`; leaves exactly the state of `Machine.Then` and keeps it well formed |
| Runtime.PromiseRuntime.ResolvePromise | index.js:112-166 | `resolvePromise`, with the `called_1` flag as a local of the loop over the thenable's calls, leaves exactly the state of `Machine.ResolvePromise` |
| Runtime.PromiseRuntime.Invoke | index.js:64-120 | calls a handler; the adopting pair subscribes or rejects `promise2` and returns `undefined` |
| Runtime.PromiseRuntime.HandlerBody | index.js:62-70 | the scheduled handler body leaves exactly the state of `Machine.HandlerBody` |
| Runtime.PromiseRuntime.SettleBody | index.js:30-37 | the settle body, draining a queue in a loop, leaves exactly the state of `Machine.SettleBody` |
| Runtime.PromiseRuntime.RunTask | index.js:30-52 | runs one scheduled body as `Machine.RunTask` does |
| Runtime.PromiseRuntime.Step | index.js:30-38 | one timer turn removes the oldest task and runs it, leaving `Machine.Step` of the state, which stays well formed; it reports whether a task ran |
| Runtime.PromiseRuntime.MakeDeferred | index.js:170-177 | `deferred()` as `Machine.MakeDeferred`, keeping the state well formed |
| Runtime.PromiseRuntime.CallCapability | index.js:173-174 | calling a handed-out resolve or reject schedules its settle body and keeps the state well formed |
| Draft.SettleTask | index.ts:47 | a call of the bound resolve (reject) passed to the draft executor yields the fulfil (reject) body of that same promise, carrying the call's argument |
| Draft.Construct | index.ts:44-52 | the draft constructor adds a fresh pending promise, schedules the executor's settle bodies and the rejection for a throw, and calls no handler |
| Draft.Then | index.ts:80-114 | a pending source gets exactly the defaulted handler appended to each queue and nothing is scheduled; a settled source keeps its record and the handler for its outcome is scheduled with its payload; the result is a fresh pending promise; no handler is called now |
| Draft.Calls | index.ts:62 | `forEach` calls at most one callback per queue entry |
| Draft.CallsInOrder | index.ts:62 | the calls are the queue's first callbacks, in order, each called with the payload; all return except the last, which is the first to throw when the queue is cut short |
| Draft.SettleBody | index.ts:56-63 | no `ensures` of its own: `Draft.SettleOnlyWhilePending` and `Draft.SettleCallsInOrder` state it, for `_resolve` here and `_reject` (index.ts:71-76) alike |
| Draft.RunTask | index.ts:56-103 | no `ensures` of its own: a settle body as `Draft.SettleBody`, or one handler call logged with its outcome; `Draft.Apply` states that it keeps the state well formed |
| Draft.Step | index.ts:56-64 | no `ensures` of its own: `Draft.Apply` (case `Tick`) and `Draft.ApplyKeepsPending` state what a turn keeps |
| Draft.SettleOnlyWhilePending | index.ts:56-57 | a draft settle body on a settled promise changes nothing |
| Draft.SettleCallsInOrder | index.ts:56-63 | on a pending promise the draft `_resolve` body sets FULFILLED and `value`, keeps the queues and the timer queue, leaves other promises alone, and appends to the log the calls of the fulfilment callbacks in queue order; the `_reject` body (index.ts:71-76) mirrors this |
| Draft.AppendedCalls | index.ts:62 | appending the calls to an existing log keeps the earlier entries and adds exactly the calls described by `CallsInOrder` |
| Draft.ConstructKeeps | index.ts:44-52 | construction keeps the draft state well formed and schedules nothing for an existing promise |
| Draft.Apply | index.ts:34-116 | every draft operation (construct, `then`, a call of a resolve or reject function kept from an executor, one timer turn) keeps the state well formed and never removes a promise |
| Draft.Run | index.ts:34-116 | the same for any sequence of draft operations |
| Draft.ApplyKeepsPending | index.ts:112 | a pending promise that no scheduled body targets stays pending and untargeted across any operation other than a call of its own resolve or reject function |
| Draft.StaysPending | index.ts:112 | such a promise stays pending across any sequence of operations that spares it (`Draft.Spares`: no call of its own resolve or reject) |
| Draft.ThenResultNeverSettles | index.ts:112 | the promise the draft `then` returns stays pending after any sequence of later operations that spares it; as its executor `() => {}` keeps neither function, every program spares it |
| DraftRuntime.DraftPromises.Resolve | index.ts:54-68 | the draft `_resolve` appends the fulfil body to the timer queue and changes nothing else |
| DraftRuntime.DraftPromises.Reject | index.ts:70-78 | the draft `_reject` appends the reject body to the timer queue and changes nothing else |
| DraftRuntime.DraftPromises.NewPromise | index.ts:44-52 | running the executor's calls in a loop leaves exactly the state of `Draft.Construct`, which stays well formed |
| DraftRuntime.DraftPromises.Then | index.ts:80-114 | leaves exactly the state of `Draft.Then`, which stays well formed, and returns its new promise |
| DraftRuntime.DraftPromises.SettleBody | index.ts:56-63 | the draft settle body leaves exactly the state of `Draft.SettleBody` |
| DraftRuntime.DraftPromises.CallAll | index.ts:62 | the `forEach` loop, which stops at the first throw, appends exactly `Draft.Calls` to the log and changes nothing else |
| DraftRuntime.DraftPromises.RunTask | index.ts:94-103 | runs one scheduled draft body as `Draft.RunTask` does |
| DraftRuntime.DraftPromises.Step | index.ts:56-64 | one timer turn leaves `Draft.Step` of the state, which stays well formed, and reports whether a task ran |
| Scenarios.SuccessChain | test/1.ts:3-9 | after the three turns of the first chain, the source is fulfilled with 'testSuccess' and `promise2` with what the handler returned |
| Scenarios.RejectChainRecovers | test/1.ts:12-18 | in the second chain, a rejection handler that returns normally fulfils `promise2` with its result |
| Scenarios.ThrowingHandlerRejects | index.js:84-94 | in the same chain, a throwing handler rejects `promise2` with the thrown value |
| Scenarios.CycleRejects | index.js:113-115 | a handler that returns its own `promise2` rejects it with the chaining-cycle TypeError |
| Scenarios.ThenableFirstCall | index.js:137-158 | a thenable that resolves with 'a', then rejects and then throws fulfils `promise2` with 'a' |
| Scenarios.DeferredSettlesOnce | index.js:170-177 | a deferred that is resolved with `x` and then rejected ends fulfilled with `x`, with nothing left to run |
| Scenarios.PendingAdoption | index.js:116-121 | a handler returns a deferred's promise while it is still pending; once that promise is resolved from outside with a primitive `x`, `promise2` ends fulfilled with `x`, the inner `then` promise with `undefined`, and nothing is left to run |
| Scenarios.AdoptionDependsOnTiming | index.js:117-127 | a MyPromise fulfilled with another MyPromise passes that promise on as it is when it is adopted after settling, but its adopting handler, run had it still been pending, re-enters the resolution procedure and passes on the inner promise's value |
| Scenarios.DraftChain | test/1.ts:3-18 | on the draft, either chain calls only the handler for the outcome, once, with the payload, and the promise `then` returned is still pending |

## Left out

- `setTimeout` becomes a FIFO queue that `Step` pops. The host timer, the delays of test/2.ts and the interleaving with other timers are not modelled.
- The `try`/`catch` around `setTimeout` in `_resolve` (index.js:29-42, index.ts:55-67) has no model. It catches only a failure to schedule, which the queue model cannot have.
- User code is scripted.
  - Executors and foreign `then` methods make their resolve/reject calls synchronously.
  - A thenable that calls back later, from another task, is not modelled. An executor that keeps its capabilities for later is modelled by the `Settle` operations: `MachineLemmas.Settle` calls a capability of index.js (as `deferred` hands them out), `Draft.Settle` one of the draft.
  - Handlers are pure total functions.
- JavaScript's dynamic typing is reduced to the tags of `Values.Value`. `isFunction` (index.js:9, index.ts:32) is the `Fn?` test of `Values.IsFunction`. The TypeScript type aliases and generics carry no behaviour.
- `console.log` in test/1.ts and test/2.ts has no model. test/2.ts is not modelled at all.
- Static combinators, `catch` and `finally` have no source in these files, so they are not modelled.
- An `Own` id that names no allocated promise cannot arise in JavaScript. The resolution procedure treats one as a plain value.
- In the draft, an exception from a handler escapes the timer callback: a settle body stops at it, and a scheduled handler's exception ends that task. The model records the exception as the outcome of the last logged call and does not model the host's uncaught-exception report. It assumes the host goes on running later tasks, as a browser does. Node.js by default ends the process on an uncaught exception, and then no later task runs.
- Draft.Calls: its own contract is only the length bound. What the calls are is stated in `Draft.CallsInOrder` and `Draft.AppendedCalls`.
- Resolution through a chain of N nested promises is not proved for arbitrary N, and the source does not have that property in general. A MyPromise that is pending when it is adopted re-enters the resolution procedure with its value once it settles (index.js:118-119). One that is already fulfilled passes its `value` on as it is (index.js:122-123), and that value can itself be a MyPromise when an executor resolves with one: `Scenarios.AdoptionDependsOnTiming` shows both. This follows section 2.3.2.2 of Promises/A+, which fulfils with the same value. What is proved is the one step of adoption (`ResolveAdoptsPending`, `AdoptionForwards`), the end-to-end run `Scenarios.PendingAdoption`, and the preservation and finality lemmas.
- `Values.Size` orders values by nesting depth so that the resolution procedure terminates. A thenable whose `then` resolves with that same thenable therefore cannot be written in the model. In the source that recursion has no bound (index.js:140-144) and only ends when the stack runs out.
