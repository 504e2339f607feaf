/**
 * A minimal stand-in for the external `LoadNCache` engine, stating only what
 * the bridge relies on: `get()` returns the cached value or runs the loader
 * once and stores its result, and after each load the engine hands the value
 * to its autoflush manager's `fetched`; `flush()` drops the value and calls
 * the manager's `flushed` (the bridge runs the `after-flush` listeners);
 * `on('after-flush', cb)` appends a listener that is never removed.
 */
module CacheEngine {
  import opened Optional
  import S = AutoFlushSpec
  import AutoFlush

  class LoadNCache<V(!new)> {
    /** The loader: the value the source produces on its n-th subscription. */
    const loader: nat -> V
    /** The autoflush manager, or null (`undefined`) when none was given. */
    const autoFlush: AutoFlush.RxJSAutoFlush?<V>
    var cached: Option<V>
    /** Number of loader invocations. */
    var loads: nat
    /** The `after-flush` listeners, each bound to one subscriber (its index). */
    var listeners: seq<nat>

    ghost predicate Valid()
      reads this, autoFlush
    {
      autoFlush != null ==> autoFlush.Valid()
    }

    constructor (loader: nat -> V, autoFlush: AutoFlush.RxJSAutoFlush?<V>)
      requires autoFlush != null ==> autoFlush.Valid()
      ensures Valid() && this.loader == loader && this.autoFlush == autoFlush
      ensures cached == None && loads == 0 && listeners == []
    {
      this.loader := loader;
      this.autoFlush := autoFlush;
      cached := None;
      loads := 0;
      listeners := [];
    }

    /** `v` is what `get()` resolves to: the value cached before, with nothing
        changed, or the loader's next result, now cached and passed to the
        autoflush manager's `fetched`. */
    twostate predicate Served(new v: V)
      reads this, autoFlush
    {
      cached == Some(v) &&
      (old(cached).Some? ==>
        v == old(cached).value && loads == old(loads) &&
        (autoFlush != null ==> autoFlush.Model() == old(autoFlush.Model()))) &&
      (old(cached).None? ==>
        v == loader(old(loads)) && loads == old(loads) + 1 &&
        (autoFlush != null ==> autoFlush.Model() == S.Fetched(old(autoFlush.Model()), autoFlush.flushOn(v))))
    }

    /** `get()`: the cached value, or one loader run whose result is stored
        and handed to the autoflush manager. */
    method Get() returns (v: V)
      requires Valid()
      modifies this`cached, this`loads, autoFlush
      ensures Valid() && Served(v)
    {
      if cached.Some? {
        v := cached.value;
      } else {
        v := loader(loads);
        loads := loads + 1;
        cached := Some(v);
        if autoFlush != null {
          autoFlush.Fetched(v);
        }
      }
    }

    /** `on('after-flush', cb)`. */
    method On(listener: nat)
      modifies this`listeners
      ensures listeners == old(listeners) + [listener]
    {
      listeners := listeners + [listener];
    }

    /** `flush()`: drop the value and tell the autoflush manager. */
    method Flush()
      requires Valid()
      modifies this`cached, autoFlush
      ensures Valid() && cached == None
      ensures autoFlush != null ==> autoFlush.Model() == S.Flushed(old(autoFlush.Model()))
    {
      cached := None;
      if autoFlush != null {
        autoFlush.Flushed();
      }
    }
  }
}
