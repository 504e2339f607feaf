# load-n-cache-rxjs in Dafny

This project models the two stateful components of `load-n-cache-rxjs`, the rxjs
binding of the `load-n-cache` caching engine, and proves properties of them:

- **The flush-signal adapter `RxJSAutoFlush`** (modules `AutoFlushSpec` and
  `AutoFlush`). It is the engine's autoflush manager. On every `fetched` it
  subscribes to the Observable that the user's `flushOn` returns for the value,
  and it calls the engine's flush callback on that Observable's first emission.
  `isExpired` probes the same Observable within a 10 ms window.
- **The cache bridge `LoadNCacheObservable`** (modules `BridgeSpec` and
  `Bridge`). It is an Observable backed by one engine instance. Each
  subscription first receives the engine's current value. Then it completes in
  one-shot mode (no `flushOn`). In continuous mode it instead registers one
  `after-flush` listener, which pushes a freshly fetched value after every flush.

The external engine is stubbed in one place, module `CacheEngine`. It is
reduced to what the bridge relies on:
- it caches one value and loads at most once while the value is cached;
- it calls the adapter's `fetched` after a load;
- `flush` drops the value and calls `flushed`;
- `on('after-flush')` listeners are appended and never removed.

Module `Scenarios` replays the bridge's test suite on this model and proves the
counts the tests expect.

How time, rxjs and asynchrony are abstracted:

- **Signal sources.** A flush signal source is described by its first
  notification (`Emits`, `Fails`, `Completes`, or `Never`) and by whether that
  notification arrives inside the 10 ms window of `isExpired` (`early`).
  A call to `flushOn` either returns such a source or throws (`Invocation`).
- **Watches.** Each rxjs subscription made by `fetched` is a `Watch` record
  with a `live` flag (still subscribed) and a `fired` flag (has called the
  callback). All watches ever made are kept in a history, and the
  `subscription` field is an index into it. This way "at most one live watch"
  and "a disposed watch is ignored" can be stated about all of them.
- **Explicit steps.** Every asynchronous continuation is one explicit,
  atomic step:
  - `Subscribe` runs the per-subscriber function with the engine's promise
    already resolved;
  - `OnSignal` (adapter) and `Signal` (bridge) deliver a notification from a
    watch's source;
  - `AfterFlush` runs the `after-flush` listeners in registration order.
- **`console.error`** is a counter (`logs`).
- **`source.toPromise()`.** What the source yields on its n-th subscription is
  a function `source: nat -> V`. The loader counter `loads` says how often the
  loader ran.

Two behaviours of the code worth noting:
- A signal that completes without ever emitting makes `first()` raise an
  EmptyError. In `isExpired` (when inside the window) that error reaches
  `catchError` and is logged. Under a `fetched` watch it reaches the error
  callback and is logged too.
- The `after-flush` listener calls `get()` itself
  (src/LoadNCacheObservable.ts:46) instead of calling `emitValueTo`. It does
  the same thing, so the model uses `EmitValueTo` for both.

## Model

| member | source | states |
|---|---|---|
| `AutoFlushSpec.InvokeFlushFn` | src/RxJSAutoFlush.ts:29-36 | A `flushOn` that returns hands on its source and logs nothing. A throwing `flushOn` logs exactly once and is replaced by a source that never emits. |
| `AutoFlushSpec.IsExpired` | src/RxJSAutoFlush.ts:53-70 | The probe answers true exactly when `flushOn` returns a source that emits inside the window. It logs once exactly when `flushOn` throws or the source fails or completes inside the window, and never more than once. So a failure always becomes `false`, never an error. |
| `AutoFlushSpec.Initial` | src/RxJSAutoFlush.ts:13-21 | A new adapter has no subscription and satisfies the adapter invariant. |
| `AutoFlushSpec.CleanUp` | src/RxJSAutoFlush.ts:41-46 | Afterwards there is no subscription. With no subscription nothing changes. Otherwise no watch gains liveness, and sources, callback flags, logs and callback counts are unchanged. |
| `AutoFlushSpec.Fetched` | src/RxJSAutoFlush.ts:77-86 | Appends exactly one watch, live and not fired, on the source `invokeFlushFn` returns. The subscription now points at it. Logs grow by what `invokeFlushFn` logged, and no callback runs. |
| `AutoFlushSpec.Flushed` | src/RxJSAutoFlush.ts:91-93 | Leaves no subscription and keeps the number of watches. |
| `AutoFlushSpec.Deliver` | src/RxJSAutoFlush.ts:80-85 | A notification ends the watch. If the watch was live, a value runs the callback once and an error is logged once. A watch that is not live ignores the notification entirely. Other watches and the subscription are untouched. |
| `AutoFlushSpec.DeliverTimes` | src/RxJSAutoFlush.ts:80 | Repeated notifications keep the watch history's length. Any positive number of them has the effect of the first one alone, because a delivery always ends the watch. |
| `AutoFlushSpec.AtMostOneLive` | src/RxJSAutoFlush.ts:77-79 | Under the invariant at most one watch is live. One is live exactly when the current subscription's watch is live. |
| `AutoFlushSpec.CleanUpDisposes` | src/RxJSAutoFlush.ts:41-46 | `cleanUp` keeps the invariant and leaves no live watch. |
| `AutoFlushSpec.CleanUpIdempotent` | src/RxJSAutoFlush.ts:41-46 | Calling `cleanUp` twice is the same as calling it once. |
| `AutoFlushSpec.FetchedKeepsOneWatch` | src/RxJSAutoFlush.ts:77-79 | After `fetched` the invariant holds. Every earlier watch is disposed and otherwise unchanged. The new watch is the only live one. |
| `AutoFlushSpec.DeliverConsistent` | src/RxJSAutoFlush.ts:80-85 | Delivering a notification keeps the invariant. In particular, the callback count equals the number of fired watches. |
| `AutoFlushSpec.StaleWatchIgnored` | src/RxJSAutoFlush.ts:91-93 | A watch that is no longer the current one cannot reach the callback or the log. |
| `AutoFlushSpec.FinishedWatchIgnores` | src/RxJSAutoFlush.ts:80 | After its first notification a watch ignores any number of further ones. |
| `AutoFlushSpec.CallbackAtMostOnce` | src/RxJSAutoFlush.ts:77-85 | Under one `fetched` watch, n notifications run the callback exactly once if n > 0 and the source emits, and never otherwise. An error is logged exactly once. |
| `AutoFlushSpec.ThrowingFlushOnNeverCallsBack` | src/RxJSAutoFlush.ts:29-36 | With a throwing `flushOn`, `fetched` logs exactly once. Its watch has the never-emitting source and has not called back. |
| `AutoFlushSpec.FailingSignalLogsOnProbeAndWatch` | src/RxJSAutoFlush.ts:53-85 | A failing signal first makes the expiry probe answer false with one log. Then `fetched` and the delivered error log once more, two logs in all. No callback runs and the invariant holds. |
| `AutoFlush.RxJSAutoFlush.constructor` | src/RxJSAutoFlush.ts:20-21 | Stores `flushOn`. The adapter starts in the initial state. |
| `AutoFlush.RxJSAutoFlush.CleanUp` | src/RxJSAutoFlush.ts:41-46 | The new state is `CleanUp` of the old one, and the invariant is kept. |
| `AutoFlush.RxJSAutoFlush.IsExpired` | src/RxJSAutoFlush.ts:53-70 | Returns the probe's answer and adds its log entries. It may change only the log, so the subscription is untouched. |
| `AutoFlush.RxJSAutoFlush.Fetched` | src/RxJSAutoFlush.ts:77-86 | The new state is `Fetched` of the old one for `flushOn(value)`, and the invariant is kept. |
| `AutoFlush.RxJSAutoFlush.Flushed` | src/RxJSAutoFlush.ts:91-93 | The new state is `Flushed` of the old one. No watch is live. |
| `AutoFlush.RxJSAutoFlush.OnSignal` | src/RxJSAutoFlush.ts:80-85 | The new state is `Deliver` of the old one. It reports the callback ran exactly when the watch was live and its source emits. |
| `CacheEngine.LoadNCache.constructor` | src/LoadNCacheObservable.ts:57-62 | The engine starts empty: no value cached, no load, no listener, and the given loader and adapter. |
| `CacheEngine.LoadNCache.Get` | src/LoadNCacheObservable.ts:28 | Returns the cached value with nothing changed. Otherwise it runs the loader once, caches the result and hands it to the adapter's `fetched`. |
| `CacheEngine.LoadNCache.On` | src/LoadNCacheObservable.ts:45 | Appends one `after-flush` listener. |
| `CacheEngine.LoadNCache.Flush` | src/RxJSAutoFlush.ts:82 | The engine's flush, run from the flush callback: drops the value and brings the adapter to `Flushed`. |
| `BridgeSpec.Opening` | src/LoadNCacheObservable.ts:38-48 | A subscription first receives exactly one value. In one-shot mode exactly one completion follows. In continuous mode it stays open. |
| `BridgeSpec.Push` | src/LoadNCacheObservable.ts:28 | `next(v)` appends one value to one subscriber and touches no other. |
| `BridgeSpec.Fanout` | src/LoadNCacheObservable.ts:45-47 | An `after-flush` event keeps the number of subscribers. |
| `BridgeSpec.EmissionsPush` | src/LoadNCacheObservable.ts:27-29 | One `emitValueTo` adds one value to the totals and no completion. |
| `BridgeSpec.FanoutEmissions` | src/LoadNCacheObservable.ts:45-46 | An `after-flush` event adds one value per registered listener and no completion. |
| `BridgeSpec.FanoutInOrder` | src/LoadNCacheObservable.ts:45-47 | With one listener per subscription in order, the listened subscribers each get exactly one more value, the new value, and the rest nothing. |
| `BridgeSpec.FanoutKeepsHot` | src/LoadNCacheObservable.ts:44-47 | In continuous mode an `after-flush` event gives every subscriber exactly the new value, and no subscription is ever completed. |
| `BridgeSpec.EmissionsEachOneMore` | src/LoadNCacheObservable.ts:45-46 | When every subscriber receives one more value, the totals grow by the number of subscribers and completions do not change. |
| `Bridge.LoadNCacheObservable.constructor` | src/LoadNCacheObservable.ts:36-63 | Creates one engine, over the source's loader. `closeAfterEmit` holds exactly when no `flushOn` is given. An adapter, built on that `flushOn` and in its initial state, is passed to the engine exactly when `flushOn` is given. |
| `Bridge.LoadNCacheObservable.EmitValueTo` | src/LoadNCacheObservable.ts:27-29 | The value `get()` serves, cached or freshly loaded, is pushed to that one subscriber. |
| `Bridge.LoadNCacheObservable.Subscribe` | src/LoadNCacheObservable.ts:37-50 | The new subscriber receives the served value first. It then completes in one-shot mode, or gains exactly one listener, bound to itself, in continuous mode. Earlier subscribers are untouched. |
| `Bridge.LoadNCacheObservable.AfterFlush` | src/LoadNCacheObservable.ts:45-47 | Each listener in order fetches and pushes to its own subscriber. The first fetch reloads and later ones hit the cache, and continuous traces stay open. |
| `Bridge.LoadNCacheObservable.Signal` | src/RxJSAutoFlush.ts:80-85 | A notification flushes exactly when its watch is live and its source emits. Then the value is reloaded once, every subscriber receives it once, and the new value gets a new watch. With no subscriber, the value is dropped and the adapter is left flushed. Otherwise only the adapter changes: the watch ends, and an error adds one log entry. |
| `Scenarios.FirstSubscription` | src/LoadNCacheObservable.ts:37-49 | The first subscription to a new bridge loads once, delivers the value, and installs one live watch on its `flushOn` result. |
| `Scenarios.LaterSubscription` | src/LoadNCacheObservable.ts:37-49 | A subscription while a value is cached does not load and does not touch the adapter. |
| `Scenarios.OneShotSubscriptions` | tests/Observable.test.ts:4-37 | Without `flushOn`, two subscriptions cause one load, two values and two completions. |
| `Scenarios.ContinuousSubscriptions` | tests/Observable.test.ts:39-59 | With a never-emitting signal, two subscriptions cause one load, two values and no completion. |
| `Scenarios.ThrowingFlushOn` | tests/Observable.test.ts:61-84 | A throwing `flushOn` still lets the value arrive, with one load and exactly one log. |
| `Scenarios.FailingSignal` | tests/Observable.test.ts:86-103 | A signal that errors logs exactly once and flushes nothing. |
| `Scenarios.ExplicitFlush` | tests/Observable.test.ts:105-130 | Two continuous subscribers and one emitted signal take loads from 1 to 2 and values from 2 to 4. |

## Left out

- rxjs operator internals and real time. The 10 ms `timeoutWith` window is the
  `early` flag of a source, and a source's notifications are explicit steps.
- Promise and event-loop scheduling:
  - Subscriptions are handled one at a time with the engine's promise
    resolved.
  - A subscription made while a load is in flight, and the engine's
    single-flight sharing of that load, are not modelled.
- Bridge.LoadNCacheObservable.Subscribe: is one atomic step, so a signal
  notification can be delivered only after the new subscriber's listener is
  registered (or after it completed). In the source, `fetched` runs inside
  `get()`, and the listener is registered only in the `.then` that follows
  `emitValueTo` (src/LoadNCacheObservable.ts:38-47). So a `flushOn` whose signal
  emits synchronously, such as `new BehaviorSubject(true)`, flushes while that
  subscriber has no listener yet. The subscriber then keeps its one value and
  the cache stays empty. The model instead leaves the value cached after
  `Subscribe`, and a `Signal` taken next reloads it and pushes it to the new
  subscriber too. A `throwError` signal delivered in that gap only adds a log
  entry, which the model gives the same way in a later step.
- Flush-callback re-entrancy is collapsed. When the callback runs, the engine
  flushes and then reloads inside the same rxjs delivery. In the model, that
  delivery has already ended the watch.
- The engine's internals are unknown, so the `CacheEngine` stub encodes only
  its assumed behaviour: it loads when nothing is cached, calls `fetched` after
  a load, and on a flush drops the value, calls `flushed` and emits
  `after-flush`. TTLs, single-flight coordination and `sessionStorage` are not
  modelled.
- The engine's expiry check of a persisted value is modelled only as the pure
  lemma `FailingSignalLogsOnProbeAndWatch`, not wired into `CacheEngine`.
- Load failures. The code has no rejection handler on `emitValueTo(...).then`
  (src/LoadNCacheObservable.ts:38), so errors are not forwarded to
  subscribers. The stub's loader never fails, so this path does not appear.
- Persistence wiring. It is a pure pass-through to the engine. The code reads
  `cfg.persistance` and `cfg.persistanceKey` (src/LoadNCacheObservable.ts:60-61),
  while the configuration type declares `persistence` and `persistenceKey`
  (src/LoadNCacheObservableCfg.ts:22, 27). Neither spelling is modelled, and
  `Cfg` carries only `flushOn`.
- `flushOn` receives the engine's `PromiseWithMetadata` wrapper in the source;
  here it receives the value itself.
- Unsubscribing a subscriber is not modelled. Listeners are never removed,
  and a closed subscriber's `next` calls are not distinguished.
- The `console.error` messages and the error objects. Only the number of
  calls is modelled.
- src/fn.ts, the operator factory, has no logic of its own. It is not part of
  this model.
- `CacheEngine.LoadNCache.Flush`: the engine's flush is external code. Its
  contract covers only what the bridge relies on (value dropped, adapter
  flushed); `after-flush` is run separately by `Bridge.LoadNCacheObservable.AfterFlush`.
