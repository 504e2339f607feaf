/**
 * The flush-signal adapter `RxJSAutoFlush` as a class over its one mutable
 * field, `subscription`. The watch history, the error log and the count of
 * flush callback invocations are kept beside it so that each method can be
 * tied to the pure state machine of module AutoFlushSpec.
 */
module AutoFlush {
  import opened Optional
  import S = AutoFlushSpec

  class RxJSAutoFlush<V(!new)> {
    /** The user's function from a cached value to its flush signal. */
    const flushOn: V -> S.Invocation
    /** The current flush subscription, as an index into `watches`. */
    var subscription: Option<nat>
    var watches: seq<S.Watch>
    /** Number of `console.error` calls. */
    var logs: nat
    /** Number of times a `flushCb` passed to `fetched` has been invoked. */
    var flushCalls: nat

    function Model(): S.Adapter
      reads this
    {
      S.Adapter(watches, subscription, logs, flushCalls)
    }

    ghost predicate Valid()
      reads this
    {
      S.Consistent(Model())
    }

    constructor (flushOn: V -> S.Invocation)
      ensures Valid() && this.flushOn == flushOn
      ensures Model() == S.Initial()
    {
      this.flushOn := flushOn;
      subscription := None;
      watches := [];
      logs := 0;
      flushCalls := 0;
    }

    /** Unsubscribe from the current watch, if any, and forget it. */
    method CleanUp()
      requires Valid()
      modifies this
      ensures Valid() && Model() == S.CleanUp(old(Model()))
    {
      if subscription.Some? {
        var k := subscription.value;
        watches := watches[k := watches[k].(live := false)];
        subscription := None;
      }
      S.CleanUpDisposes(old(Model()));
    }

    /** Probe whether `value` is already stale; only the log changes. */
    method IsExpired(value: V) returns (expired: bool)
      requires Valid()
      modifies this`logs
      ensures Valid()
      ensures expired == S.IsExpired(flushOn(value)).expired
      ensures logs == old(logs) + S.IsExpired(flushOn(value)).logged
    {
      var probe := S.IsExpired(flushOn(value));
      logs := logs + probe.logged;
      expired := probe.expired;
    }

    /** Dispose of the previous watch, then watch the flush signal of `value`. */
    method Fetched(value: V)
      requires Valid()
      modifies this
      ensures Valid() && Model() == S.Fetched(old(Model()), flushOn(value))
    {
      CleanUp();
      var invoked := S.InvokeFlushFn(flushOn(value));
      logs := logs + invoked.logged;
      watches := watches + [S.Watch(invoked.source, true, false)];
      subscription := Some(|watches| - 1);
      S.FetchedKeepsOneWatch(old(Model()), flushOn(value));
    }

    /** Dispose of the current watch. */
    method Flushed()
      requires Valid()
      modifies this
      ensures Valid() && Model() == S.Flushed(old(Model()))
      ensures S.NoneLive(watches)
    {
      CleanUp();
      S.CleanUpDisposes(old(Model()));
    }

    /** The subscriber callbacks passed to `subscribe` in `fetched`: the source
        of watch `k` delivers its first notification. Reports whether the
        flush callback ran. */
    method OnSignal(k: nat) returns (flushCbCalled: bool)
      requires Valid() && k < |watches| && watches[k].source != S.Never
      modifies this
      ensures Valid() && Model() == S.Deliver(old(Model()), k)
      ensures flushCbCalled <==> old(watches[k].live) && old(watches[k].source).Emits?
    {
      var w := watches[k];
      flushCbCalled := false;
      if w.live {
        if w.source.Emits? {
          watches := watches[k := S.Watch(w.source, false, true)];
          flushCalls := flushCalls + 1;
          flushCbCalled := true;
        } else {
          watches := watches[k := w.(live := false)];
          logs := logs + 1;
        }
      }
      S.DeliverConsistent(old(Model()), k);
    }
  }
}
