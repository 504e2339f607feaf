/**
 * The cache bridge `LoadNCacheObservable`: one engine instance and a
 * `closeAfterEmit` flag, both fixed at construction, and the per-subscriber
 * function that emits the engine's value and then either completes the
 * subscriber (no `flushOn`) or registers one `after-flush` listener that
 * re-emits to it after every flush.
 *
 * Subscribers are observed through what they receive: `subscribers[i]` is the
 * trace of the i-th subscription. Each asynchronous continuation is one step:
 * `Subscribe` runs the per-subscriber function with the engine's promise
 * resolved, `Signal` delivers a flush signal notification to the adapter.
 */
module Bridge {
  import opened Optional
  import S = AutoFlushSpec
  import AutoFlush
  import CacheEngine
  import opened BridgeSpec

  /** `LoadNCacheObservableCfg`, reduced to the option the core acts on. */
  datatype Cfg<!V> = Cfg(flushOn: Option<V -> S.Invocation>)

  class LoadNCacheObservable<V(!new)> {
    /** The source observable: the value it produces on its n-th subscription. */
    const source: nat -> V
    const closeAfterEmit: bool
    const loadNCache: CacheEngine.LoadNCache<V>
    var subscribers: seq<Trace<V>>

    /** One-shot mode has no listener and only completed one-value traces;
        continuous mode has exactly one listener per subscription, in
        subscription order, and only open traces of values. */
    ghost predicate Valid()
      reads this, loadNCache, loadNCache.autoFlush
    {
      loadNCache.Valid() &&
      loadNCache.loader == source &&
      closeAfterEmit == (loadNCache.autoFlush == null) &&
      (closeAfterEmit ==>
        loadNCache.listeners == [] &&
        forall i :: 0 <= i < |subscribers| ==> ColdTrace(subscribers[i])) &&
      (!closeAfterEmit ==>
        OnePerSubscription(loadNCache.listeners, |subscribers|) &&
        forall i :: 0 <= i < |subscribers| ==> HotTrace(subscribers[i]))
    }

    constructor (source: nat -> V, cfg: Cfg<V>)
      ensures Valid() && fresh(loadNCache) && this.source == source && subscribers == []
      ensures closeAfterEmit <==> cfg.flushOn.None?
      ensures loadNCache.autoFlush != null <==> cfg.flushOn.Some?
      ensures loadNCache.autoFlush != null ==>
        fresh(loadNCache.autoFlush) && loadNCache.autoFlush.flushOn == cfg.flushOn.value &&
        loadNCache.autoFlush.Model() == S.Initial()
      ensures loadNCache.cached == None && loadNCache.loads == 0 && loadNCache.listeners == []
    {
      this.source := source;
      closeAfterEmit := cfg.flushOn.None?;
      var autoFlush: AutoFlush.RxJSAutoFlush?<V> := null;
      if cfg.flushOn.Some? {
        autoFlush := new AutoFlush.RxJSAutoFlush(cfg.flushOn.value);
      }
      loadNCache := new CacheEngine.LoadNCache(source, autoFlush);
      subscribers := [];
    }

    /** `emitValueTo(sub)`: `get()`, then `next` the value to subscriber `i`. */
    method EmitValueTo(i: nat) returns (ghost v: V)
      requires loadNCache.Valid() && i < |subscribers|
      modifies this`subscribers, loadNCache`cached, loadNCache`loads, loadNCache.autoFlush
      ensures loadNCache.Valid() && loadNCache.Served(v)
      ensures subscribers == Push(old(subscribers), i, v)
    {
      var got := loadNCache.Get();
      subscribers := subscribers[i := subscribers[i] + [Next(got)]];
      v := got;
    }

    /** The per-subscriber function, run for a new subscriber: the value
        first, then `complete()` in one-shot mode or one `after-flush`
        listener in continuous mode. */
    method Subscribe() returns (id: nat)
      requires Valid()
      modifies this`subscribers, loadNCache`cached, loadNCache`loads, loadNCache`listeners, loadNCache.autoFlush
      ensures Valid()
      ensures id == |old(subscribers)| && |subscribers| == id + 1 && subscribers[..id] == old(subscribers)
      ensures loadNCache.cached.Some? && loadNCache.Served(loadNCache.cached.value)
      ensures subscribers[id] == Opening(closeAfterEmit, loadNCache.cached.value)
      ensures loadNCache.listeners ==
        if closeAfterEmit then old(loadNCache.listeners) else old(loadNCache.listeners) + [id]
    {
      id := |subscribers|;
      subscribers := subscribers + [[]];
      ghost var v := EmitValueTo(id);
      if closeAfterEmit {
        subscribers := subscribers[id := subscribers[id] + [Complete]];
      } else {
        loadNCache.On(id);
      }
      assert subscribers[id] == Opening(closeAfterEmit, v);
      assert subscribers[..id] == old(subscribers);
    }

    /** The engine's `after-flush` event: each listener, in registration
        order, fetches the value again and pushes it to its own subscriber.
        The first fetch reloads; the others find the value cached. */
    method AfterFlush()
      requires Valid()
      modifies this`subscribers, loadNCache`cached, loadNCache`loads, loadNCache.autoFlush
      ensures Valid()
      ensures loadNCache.listeners == [] ==>
        subscribers == old(subscribers) && loadNCache.cached == old(loadNCache.cached) &&
        loadNCache.loads == old(loadNCache.loads) &&
        (loadNCache.autoFlush != null ==> loadNCache.autoFlush.Model() == old(loadNCache.autoFlush.Model()))
      ensures loadNCache.listeners != [] ==>
        loadNCache.cached.Some? && loadNCache.Served(loadNCache.cached.value) &&
        subscribers == Fanout(old(subscribers), loadNCache.listeners, loadNCache.cached.value)
    {
      var i := 0;
      while i < |loadNCache.listeners|
        invariant 0 <= i <= |loadNCache.listeners|
        invariant loadNCache.Valid() && |subscribers| == |old(subscribers)|
        invariant forall j :: 0 <= j < |loadNCache.listeners| ==> loadNCache.listeners[j] < |subscribers|
        invariant i == 0 ==>
          subscribers == old(subscribers) && loadNCache.cached == old(loadNCache.cached) &&
          loadNCache.loads == old(loadNCache.loads) &&
          (loadNCache.autoFlush != null ==> loadNCache.autoFlush.Model() == old(loadNCache.autoFlush.Model()))
        invariant i > 0 ==>
          loadNCache.cached.Some? && loadNCache.Served(loadNCache.cached.value) &&
          subscribers == Fanout(old(subscribers), loadNCache.listeners[..i], loadNCache.cached.value)
      {
        ghost var v := EmitValueTo(loadNCache.listeners[i]);
        assert loadNCache.listeners[..i + 1][..i] == loadNCache.listeners[..i];
        i := i + 1;
      }
      assert loadNCache.listeners[..i] == loadNCache.listeners;
      if !closeAfterEmit && i > 0 {
        FanoutKeepsHot(old(subscribers), loadNCache.listeners, loadNCache.cached.value);
      }
    }

    /** The flush signal of watch `k` delivers its first notification. When
        that runs the flush callback, the engine flushes (dropping the value
        and disposing of the watch) and then emits `after-flush`. */
    method Signal(k: nat) returns (flushed: bool)
      requires Valid() && loadNCache.autoFlush != null
      requires k < |loadNCache.autoFlush.watches| && loadNCache.autoFlush.watches[k].source != S.Never
      modifies this`subscribers, loadNCache`cached, loadNCache`loads, loadNCache.autoFlush
      ensures Valid()
      ensures flushed <==>
        old(loadNCache.autoFlush.watches[k].live) && old(loadNCache.autoFlush.watches[k].source).Emits?
      ensures !flushed ==>
        subscribers == old(subscribers) && loadNCache.cached == old(loadNCache.cached) &&
        loadNCache.loads == old(loadNCache.loads) &&
        loadNCache.autoFlush.Model() == S.Deliver(old(loadNCache.autoFlush.Model()), k)
      ensures flushed && old(subscribers) == [] ==>
        subscribers == [] && loadNCache.cached == None && loadNCache.loads == old(loadNCache.loads) &&
        loadNCache.autoFlush.Model() == S.Flushed(S.Deliver(old(loadNCache.autoFlush.Model()), k))
      ensures flushed && old(subscribers) != [] ==>
        var v := source(old(loadNCache.loads));
        loadNCache.cached == Some(v) && loadNCache.loads == old(loadNCache.loads) + 1 &&
        |subscribers| == |old(subscribers)| &&
        (forall i :: 0 <= i < |subscribers| ==> subscribers[i] == old(subscribers[i]) + [Next(v)]) &&
        loadNCache.autoFlush.Model() ==
          S.Fetched(S.Flushed(S.Deliver(old(loadNCache.autoFlush.Model()), k)), loadNCache.autoFlush.flushOn(v))
    {
      var autoFlush := loadNCache.autoFlush;
      flushed := autoFlush.OnSignal(k);
      if flushed {
        loadNCache.Flush();
        AfterFlush();
        if old(subscribers) != [] {
          FanoutInOrder(old(subscribers), loadNCache.listeners, loadNCache.cached.value);
        }
      }
    }
  }
}
