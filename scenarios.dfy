/**
 * The scenarios of the bridge's test suite, run on the model: each method
 * builds a bridge over a source that always produces "Hello World", drives it
 * through the same subscriptions and flush signals, and returns the counts
 * the tests check.
 */
module Scenarios {
  import opened Optional
  import S = AutoFlushSpec
  import opened BridgeSpec
  import Bridge

  function HelloWorld(n: nat): string {
    "Hello World"
  }

  /** A `flushOn` whose signal never emits, like a bare Subject. */
  function Silent(v: string): S.Invocation {
    S.Returns(S.Never)
  }

  /** A `flushOn` that throws. */
  function Throwing(v: string): S.Invocation {
    S.Throws
  }

  /** A `flushOn` whose signal fails at once, like throwError. */
  function Failing(v: string): S.Invocation {
    S.Returns(S.Fails(true))
  }

  /** A `flushOn` returning a Subject that the test pushes later. */
  function Manual(v: string): S.Invocation {
    S.Returns(S.Emits(false))
  }

  /** The first subscription to a fresh bridge: one load, whose value is
      delivered and, in continuous mode, watched by the adapter. */
  method FirstSubscription<V(!new)>(b: Bridge.LoadNCacheObservable<V>) returns (v: V)
    requires b.Valid() && b.subscribers == []
    requires b.loadNCache.cached == None && b.loadNCache.loads == 0
    requires b.loadNCache.autoFlush != null ==> b.loadNCache.autoFlush.Model() == S.Initial()
    modifies b, b.loadNCache, b.loadNCache.autoFlush
    ensures b.Valid() && v == b.source(0) && b.subscribers == [Opening(b.closeAfterEmit, v)]
    ensures b.loadNCache.cached == Some(v) && b.loadNCache.loads == 1
    ensures b.loadNCache.autoFlush != null ==>
      var invoked := S.InvokeFlushFn(b.loadNCache.autoFlush.flushOn(v));
      b.loadNCache.autoFlush.watches == [S.Watch(invoked.source, true, false)] &&
      b.loadNCache.autoFlush.subscription == Some(0) &&
      b.loadNCache.autoFlush.logs == invoked.logged && b.loadNCache.autoFlush.flushCalls == 0
  {
    var id := b.Subscribe();
    v := b.loadNCache.cached.value;
  }

  /** A later subscription while the value is cached: no load, the adapter
      untouched, and the new subscriber receives the cached value. */
  method LaterSubscription<V(!new)>(b: Bridge.LoadNCacheObservable<V>)
    requires b.Valid() && b.loadNCache.cached.Some?
    modifies b, b.loadNCache, b.loadNCache.autoFlush
    ensures b.Valid() && b.subscribers == old(b.subscribers) + [Opening(b.closeAfterEmit, old(b.loadNCache.cached.value))]
    ensures b.loadNCache.cached == old(b.loadNCache.cached) && b.loadNCache.loads == old(b.loadNCache.loads)
    ensures b.loadNCache.autoFlush != null ==> b.loadNCache.autoFlush.Model() == old(b.loadNCache.autoFlush.Model())
  {
    var id := b.Subscribe();
    assert b.subscribers == b.subscribers[..id] + [b.subscribers[id]];
  }

  /** Two sequential subscriptions without `flushOn`: one load, and each
      subscription receives the value and completes. */
  method OneShotSubscriptions() returns (loads: nat, values: nat, completions: nat)
    ensures loads == 1 && values == 2 && completions == 2
  {
    var b := new Bridge.LoadNCacheObservable(HelloWorld, Bridge.Cfg(None));
    var v := FirstSubscription(b);
    ghost var before := b.subscribers;
    TotalsAppend([], before[0]);
    assert before == [] + [before[0]];
    LaterSubscription(b);
    TotalsAppend(before, Opening(true, v));
    loads, values, completions := b.loadNCache.loads, Emissions(b.subscribers), Completions(b.subscribers);
  }

  /** Two sequential subscriptions with a `flushOn` whose signal never emits:
      one load, two values, no completion. */
  method ContinuousSubscriptions() returns (loads: nat, values: nat, completions: nat)
    ensures loads == 1 && values == 2 && completions == 0
  {
    var b := new Bridge.LoadNCacheObservable(HelloWorld, Bridge.Cfg(Some(Silent)));
    var v := FirstSubscription(b);
    ghost var before := b.subscribers;
    TotalsAppend([], before[0]);
    assert before == [] + [before[0]];
    LaterSubscription(b);
    TotalsAppend(before, Opening(false, v));
    loads, values, completions := b.loadNCache.loads, Emissions(b.subscribers), Completions(b.subscribers);
  }

  /** A `flushOn` that throws: the value still arrives and one error is logged. */
  method ThrowingFlushOn() returns (loads: nat, values: nat, logs: nat)
    ensures loads == 1 && values == 1 && logs == 1
  {
    var b := new Bridge.LoadNCacheObservable(HelloWorld, Bridge.Cfg(Some(Throwing)));
    var v := FirstSubscription(b);
    TotalsAppend([], b.subscribers[0]);
    assert b.subscribers == [] + [b.subscribers[0]];
    loads, values, logs := b.loadNCache.loads, Emissions(b.subscribers), b.loadNCache.autoFlush.logs;
  }

  /** A flush signal that errors: one error is logged and nothing is flushed. */
  method FailingSignal() returns (loads: nat, values: nat, logs: nat, flushed: bool)
    ensures loads == 1 && values == 1 && logs == 1 && !flushed
  {
    var b := new Bridge.LoadNCacheObservable(HelloWorld, Bridge.Cfg(Some(Failing)));
    var v := FirstSubscription(b);
    ghost var attached := b.subscribers;
    TotalsAppend([], attached[0]);
    assert attached == [] + [attached[0]];
    flushed := b.Signal(0);
    loads, values, logs := b.loadNCache.loads, Emissions(b.subscribers), b.loadNCache.autoFlush.logs;
  }

  /** Two continuous subscriptions, then the flush signal emits: the value is
      loaded a second time and pushed to both, four values in all. */
  method ExplicitFlush() returns (loadsBefore: nat, valuesBefore: nat, loads: nat, values: nat)
    ensures loadsBefore == 1 && valuesBefore == 2 && loads == 2 && values == 4
  {
    var b := new Bridge.LoadNCacheObservable(HelloWorld, Bridge.Cfg(Some(Manual)));
    var v := FirstSubscription(b);
    ghost var before := b.subscribers;
    TotalsAppend([], before[0]);
    assert before == [] + [before[0]];
    LaterSubscription(b);
    TotalsAppend(before, Opening(false, v));
    loadsBefore, valuesBefore := b.loadNCache.loads, Emissions(b.subscribers);
    ghost var attached := b.subscribers;
    var flushed := b.Signal(0);
    EmissionsEachOneMore(attached, b.subscribers, "Hello World");
    loads, values := b.loadNCache.loads, Emissions(b.subscribers);
  }
}
