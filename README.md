# Nanofetch fetch lifecycle, in Dafny

This project models `Nanofetch` (index.js). It is a mixin that gives a UI component a
data-loading lifecycle keyed by identity. An instance is in one of three statuses:
`UNFETCHED`, `FETCHING` or `FETCHED`. It tracks the identity of the data it holds or is
fetching (`_dataID`) and the identity of the element it last rendered (`_createdID`).
It queues the callbacks of callers who join an in-flight fetch (`_prefetchCbs`).

Four operations drive it:
- `createElement` renders a placeholder or hydrated view, with an identity guard.
- `_load` is the post-mount hook.
- `_handleFetch` starts a fetch, and its closure settles it.
- `prefetch` coalesces callers onto one fetch.

The model has two layers.

- `lifecycle.dfy`, module `NanofetchLifecycle`: the component's fields as a value (`State`),
  and each event as a pure transition. A transition gives the new fields and the list of
  effects. An effect is an observable action: `init` run, an `onload` hook registered, an
  idle callback scheduled, a fetch started, the element morphed, or a callback called with
  or without an error. The invariant and the multi-step lemmas are stated over these
  transitions.
- `component.dfy`, module `NanofetchComponent`: class `Component`, whose methods update
  the fields in place as the JavaScript does. Each method is proved to perform the
  transition named in its "## Model" row.

Modelling choices:
- JavaScript `null` is `None`. The identity function may itself return `null`. That case
  is kept because it changes the error path: the id check at index.js:87 then does not return.
- `err` is truthy exactly when it is `Some`.
- The user hooks are opaque. The callbacks are tokens of type `Token`, plus the component's
  own `done`.
- A fetch in flight is an entry of `pending` that holds its captured identity and its
  `cb`. Its settlement is the step `Settle(k, err, data, hasElement)`, taken by the
  caller. An idle callback scheduled by `_load` is counted in `idle` and run by
  `IdleFired`.
- Where a failed `assert.ok` would throw, the model uses a `requires Accepts(...)` clause.

Behaviour of index.js kept as written, although a cleaner design would differ:
- `_data` is not cleared when a fetch starts or fails. So `FETCHING` and `UNFETCHED` can
  carry stale data. The only state invariant is "`UNFETCHED` implies `_dataID` is null"
  (`Inv`).
- On error the settlement closure does not return. For a non-null id it returns at the id
  check. For a null id it goes on to store the data and calls `cb` a second time.
- The fan-out of `prefetch` calls every queued callback twice on error: first with the
  error, then with no argument.
- `_prefetchCbs` is never emptied. Callbacks from an earlier cycle are called again when a
  later prefetch settles (`EarlierCallbacksReplayed`).
- The idle callback starts a fetch whatever the status is when it fires. It uses
  `_createdID` as it is at that moment. So two fetches for the same identity can be in
  flight (`DuplicateFetchInFlight`).
- A guard reset nulls `_dataID`. So after a reset, the success of a fetch for a null
  identity is still taken: it stores its data and sets `FETCHED`. Such a fetch is discarded
  only once `_dataID` is non-null. Stale-settlement discarding after a reset
  (`StaleFetchDiscarded`, `UnfetchedIgnoresSuccess`) needs a non-null identity.
- A stale fetch that fails still resets the component and nulls `_dataID`, even when a
  newer fetch is in flight. That newer fetch's success is then discarded, so the callback
  of the `prefetch` that started it is never called (`StaleErrorStrandsPrefetch`).

## Model

| member | source | states |
|---|---|---|
| NanofetchLifecycle.Accepts | index.js:38 | the identity assertion of `createElement` and `prefetch`: any identity passes while `UNFETCHED` or while `_dataID` equals `_createdID` (an element was created for the tracked data, or both are null); otherwise exactly the tracked `_dataID` passes |
| NanofetchLifecycle.Initial | index.js:17-21 | a new component is `UNFETCHED` with an empty queue, no fetch in flight, and satisfies the invariant |
| NanofetchLifecycle.Guard | index.js:37-44 | when fetching or fetched with an id other than `_dataID`, the component resets to `UNFETCHED` with null data and null `_dataID`; otherwise nothing changes; afterwards a busy component's `_dataID` is the caller's id; the invariant is kept |
| NanofetchLifecycle.Render | index.js:29-61 | `_createdID` becomes the id; the view is `hydrate(_data)` exactly when the status after the guard is `FETCHED`, else `placeholder()`; `init` runs exactly when that status is `UNFETCHED`; a placeholder render does nothing but that `init` and `onload(_load)`; `onload(_load)` is registered for a placeholder exactly when there is a window; no fetch starts and no callback is called; afterwards a busy component's `_dataID` equals `_createdID`; the invariant is kept |
| NanofetchLifecycle.Load | index.js:63-76 | `UNFETCHED`: schedules one idle callback and nothing else; `FETCHED`: morphs to the hydrated view and calls `done` once; `FETCHING`: only appends `done` to the queue; status, data and ids never change |
| NanofetchLifecycle.StartFetch | index.js:78-81 | status becomes `FETCHING` and `_dataID` the id; exactly one fetch, holding that id and its `cb`, is added to those in flight; data, `_createdID`, the queue and the idle count are kept; afterwards the invariant holds and the guard admits the id |
| NanofetchLifecycle.IdleFired | index.js:65-68 | the idle callback starts one fetch for the current `_createdID` with `done` (or the empty function) as `cb`, whatever the status |
| NanofetchLifecycle.Notify | index.js:127-128 | one queued callback is called with no error, preceded by a call with the error when there is one |
| NanofetchLifecycle.FanOut | index.js:126-129 | the fan-out makes one call per queued callback on success, and two on error |
| NanofetchLifecycle.FanOutCallsQueue | index.js:126-129 | the fan-out calls only callbacks of the queue, each with the closure's error or with none |
| NanofetchLifecycle.Handle | index.js:82-93 | running the closure's `cb`: `done` is called once with what it was given, the empty function calls nothing, and the fan-out makes one call per queued callback on success and two on error |
| NanofetchLifecycle.HandleCallsOnly | index.js:82-93 | running a closure's `cb` calls only `done` or queued callbacks, each with the closure's error or with none |
| NanofetchLifecycle.SettleError | index.js:82-86 | an error resets to `UNFETCHED` with a null `_dataID`, leaves the data, and runs `cb(err)`; no error changes nothing; the queue, the in-flight list, `_createdID` and the idle count are kept; the invariant holds after an error and is kept otherwise |
| NanofetchLifecycle.SettleData | index.js:87-93 | when the captured id differs from `_dataID`, nothing changes and nothing is called; otherwise the data is stored, status becomes `FETCHED`, the element is morphed only if it exists, then `cb()` runs; `_dataID`, the queue, the in-flight list, `_createdID` and the idle count are kept; the invariant is kept |
| NanofetchLifecycle.Settle | index.js:81-94 | the settled fetch leaves the in-flight list; the queue, `_createdID` and the idle count never change; the invariant is kept |
| NanofetchLifecycle.SettleOutcomes | index.js:82-93 | success for the current `_dataID` stores the data, sets `FETCHED`, morphs only if an element exists, and runs `cb` once with no error; success for another id changes nothing and calls nothing; an error with a non-null id sets `UNFETCHED` and a null `_dataID`, keeps the data and runs only `cb(err)`; an error with a null id also stores the data and runs `cb` a second time, with no error |
| NanofetchLifecycle.Prefetch | index.js:97-132 | after the guard: `FETCHED` calls `cb` at once and changes nothing; `FETCHING` appends `cb` and starts nothing; `UNFETCHED` appends `cb`, runs `init`, and starts exactly one fetch whose `cb` is the fan-out; the result is never `UNFETCHED`, its `_dataID` is the caller's id, and the invariant holds |
| NanofetchLifecycle.PrefetchAll | index.js:107-120 | repeated prefetches of one identity keep satisfying the identity guard |
| NanofetchLifecycle.FanOutOrder | index.js:126-129 | the fan-out notifies the queue in order: on success callback i is call i, with no error; on error callback i is called with the error at position 2i and with no error at 2i+1 |
| NanofetchLifecycle.ErrorNotifiesQueueTwice | index.js:124-130 | a failed prefetch fetch with a non-null id leaves the component `UNFETCHED` with its data untouched, and calls every queued callback exactly twice, first with the error |
| NanofetchLifecycle.PrefetchesCoalesce | index.js:118-124 | N prefetches of one identity from a component that is (or resets to) `UNFETCHED` start exactly one fetch, run `init` at most once, and queue the N callbacks behind the existing queue in call order |
| NanofetchLifecycle.CoalescedSettlement | index.js:87-93 | when that one fetch succeeds, the data is stored, status is `FETCHED`, and the fan-out covers the whole queue: old entries followed by the N new ones |
| NanofetchLifecycle.CoalescedCallbacksInOrder | index.js:126-129 | in a successful fan-out each of the N callbacks is called exactly once, with no error, in call order and after the earlier entries |
| NanofetchLifecycle.RenderLeavesGuardOpen | index.js:35-51 | after `createElement`, the identity guard admits any identity on the next call |
| NanofetchLifecycle.PrefetchPinsIdentity | index.js:105-114 | after `prefetch(id)`, a later call's identity is admitted exactly when it equals `id`, or `id` equals `_createdID` |
| NanofetchLifecycle.StaleFetchDiscarded | index.js:87-89 | placeholder for a1, idle fetch for a1, then `createElement(a2)`: the second render resets to `UNFETCHED`, and the a1 fetch's later success changes nothing and calls nothing |
| NanofetchLifecycle.ErrorThenRetry | index.js:82-89 | after a failed fetch for a non-null id, the component is `UNFETCHED` and a prefetch of the same identity starts a fresh fetch |
| NanofetchLifecycle.StaleErrorStrandsPrefetch | index.js:82-89 | placeholder for a1, idle fetch for a1, then `prefetch(a2, cb)`: the a1 fetch's failure resets to `UNFETCHED` with a null `_dataID` and calls only `done(err)` (when defined), never `cb`; the a2 fetch's later success then only removes its closure, changing no other field and calling nothing |
| NanofetchLifecycle.UnfetchedIgnoresSuccess | index.js:87-89 | under the invariant, the success of a fetch for a non-null identity while `UNFETCHED` changes nothing and calls nothing |
| NanofetchLifecycle.PrefetchThenRender | index.js:46-54 | on a new component, `prefetch(args, cb)` then success with d, before any element exists, calls `cb` exactly once and leaves it queued; `createElement(args)` then returns the hydrated view of d and starts no fetch |
| NanofetchLifecycle.MountedPlaceholderHydrated | index.js:56-58 | a new component renders a placeholder and registers `_load`; mount and idle start one fetch for that identity; its success stores the data and morphs the mounted element first |
| NanofetchLifecycle.DuplicateFetchInFlight | index.js:65-68 | placeholder, mount, then `prefetch` of the same identity before the idle callback fires: two fetches for that identity end up in flight |
| NanofetchLifecycle.EarlierCallbacksReplayed | index.js:121-130 | while busy with `_dataID` equal to `_createdID` (an element was created for the tracked data, or both are null), a prefetch for other data queues its callback behind the old entries, and that fetch's success notifies the old entries again before the new one: the queue is never emptied |
| NanofetchComponent.Component.constructor | index.js:15-21 | the fields start as `Initial()`, with no effects, and the object invariant holds |
| NanofetchComponent.Component.ResetIfStale | index.js:37-44 | updates status, data and `_dataID` in place as `Guard` |
| NanofetchComponent.Component.CreateElement | index.js:29-61 | updates the fields and returns the view as `Render`; keeps the object invariant |
| NanofetchComponent.Component.Load | index.js:63-76 | updates the fields and effects as `Load`; keeps the object invariant |
| NanofetchComponent.Component.IdleFired | index.js:65-68 | starts the idle fetch in place as `IdleFired` |
| NanofetchComponent.Component.HandleFetch | index.js:78-81 | sets status and `_dataID` and records the fetch in place as `StartFetch` |
| NanofetchComponent.Component.Invoke | index.js:124-130 | the fan-out loop over `_prefetchCbs` appends exactly the calls of `FanOut`, in queue order; `done` and the empty function are called as given |
| NanofetchComponent.Component.SettleError | index.js:82-86 | runs the error branch in place as `SettleError` |
| NanofetchComponent.Component.SettleData | index.js:87-93 | runs the id check, store, morph and `cb()` in place as `SettleData` |
| NanofetchComponent.Component.Settle | index.js:81-94 | runs the settlement closure in place as `Settle`; keeps the object invariant, and by it a success for a non-null identity while `UNFETCHED` leaves status, data and effects unchanged |
| NanofetchComponent.Component.Prefetch | index.js:97-132 | updates the fields, the queue and the effects as `Prefetch`; keeps the object invariant |

## Left out

- The `Nanocomponent` base class and the constructor's `instanceof` and `hasOwnProperty`
  self-check (index.js:16, index.js:23-27). They are prototype plumbing over a library that
  is not part of this model.
- `morph`, `onload` and `onidle` are host primitives. They appear only as the effects
  `Morph`, `OnLoad` and `IdleScheduled`. Mounting is the caller's call to `Load`, and an idle
  firing is the caller's call to `IdleFired`. `this.element` is the `hasElement` argument of
  `Settle`, and `_hasWindow` is `Config.hasWindow`.
- The `done` hook that `onload` runs when a hydrated element is mounted (index.js:55) is
  only recorded as `OnLoad(DoneHook)`. Running it calls user code and changes no field.
- The bodies of `fetch`, `hydrate`, `placeholder`, `init` and `done` are user code. They
  are opaque: `fetch` is an entry of `pending`, the views are symbolic, and callbacks are
  tokens.
- Callbacks are assumed not to re-enter the component. The fan-out loop re-reads the queue
  length on every iteration (index.js:126). That matters only if a callback pushes to the
  queue, which the model does not allow.
- The idle callback passes `this.done` unbound as `cb` (index.js:66), while index.js:72 and
  index.js:74 bind it. So on the idle path `done` runs without the component as `this`. The
  model records all three paths as the same `Call(Done, …)`, because `done`'s body is user
  code.
- User callbacks and hooks are assumed to return normally. In the source, one that throws
  skips the rest of the settlement closure (index.js:85-93) or of the fan-out loop
  (index.js:126-129). The model has no exceptions, so each effects list runs to its end.
- A `fetch` that calls its closure back more than once: `Settle` consumes the closure.
- The throwing stubs `identity`, `fetch`, `placeholder` and `hydrate` (index.js:134-148).
  They only signal a missing override.
- Variadic arguments (index.js:30-31, index.js:100-101) are one value of type `Args`, given to
  `Config.identity`. The "last argument must be a function" assertion (index.js:99) holds
  by typing, because `cb` has type `Token`.
- JavaScript's loose `==` and `!=` (for example `null == undefined`) are modelled as value
  equality on `Option<Ident>`.
- Real concurrency. Events are a sequence of atomic steps chosen by the caller, which
  matches the single-threaded event loop.
