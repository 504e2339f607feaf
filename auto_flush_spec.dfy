/**
 * Pure model of the flush-signal adapter (`RxJSAutoFlush`): what a flush signal
 * source does once subscribed, the expiry probe `isExpired`, and the state
 * machine of watches behind `fetched` and `flushed`.
 *
 * Time is abstracted away: a signal source is described by the first
 * notification it delivers and by whether that notification arrives before the
 * 10 ms window of `isExpired` closes. A watch (one rxjs subscription made by
 * `fetched`) is a record; every watch ever made is kept in a history so that
 * "at most one live watch" can be stated about all of them.
 */
module AutoFlushSpec {
  import opened Optional

  /** The first notification a flush signal source delivers once subscribed.
      `early` says whether it arrives inside the 10 ms window of `isExpired`. */
  datatype Source =
    | Emits(early: bool)      // a value: a BehaviorSubject, or a Subject pushed later
    | Fails(early: bool)      // an error notification, as from throwError
    | Completes(early: bool)  // completion without any value, as from EMPTY
    | Never                   // nothing ever, as from a bare Subject

  /** What calling the user's `flushOn` on a value does. */
  datatype Invocation = Returns(source: Source) | Throws

  /** The source `invokeFlushFn` hands on, and how many errors it logged. */
  datatype Invoked = Invoked(source: Source, logged: nat)

  /** `invokeFlushFn`: a throwing `flushOn` is logged once and replaced by a
      Subject that never emits. */
  function InvokeFlushFn(inv: Invocation): (r: Invoked)
    ensures r.logged <= 1
    ensures r.logged == 1 <==> inv.Throws?
    ensures inv.Throws? ==> r.source == Never
    ensures inv.Returns? ==> r.source == inv.source
  {
    match inv
    case Returns(s) => Invoked(s, 0)
    case Throws => Invoked(Never, 1)
  }

  /** The notification that reaches `catchError` in `isExpired` after
      `map(() => true)`, `timeoutWith(10, of(false))` and `first()`. */
  datatype Settled = Value(expired: bool) | Error

  function Piped(s: Source): Settled {
    match s
    // a value inside the window is mapped to true; a later one loses to the timeout
    case Emits(early) => Value(early)
    // an error inside the window passes through; a later one is never observed
    case Fails(early) => if early then Error else Value(false)
    // first() turns completion without a value into an EmptyError
    case Completes(early) => if early then Error else Value(false)
    case Never => Value(false)
  }

  /** The outcome of `isExpired`: the boolean the promise resolves to, and how
      many errors were logged on the way. */
  datatype Probe = Probe(expired: bool, logged: nat)

  /** `isExpired`: true exactly when the signal emits inside the window; a
      throwing `flushOn` or a failing signal resolves to false with one log
      entry, so the probe never fails outward. */
  function IsExpired(inv: Invocation): (r: Probe)
    ensures r.expired <==> inv == Returns(Emits(true))
    ensures r.logged <= 1
    ensures r.logged == 1 <==> inv.Throws? || ((inv.source.Fails? || inv.source.Completes?) && inv.source.early)
  {
    var invoked := InvokeFlushFn(inv);
    match Piped(invoked.source)
    case Value(b) => Probe(b, invoked.logged)
    case Error => Probe(false, invoked.logged + 1)  // catchError logs and yields of(false)
  }

  /** One subscription made by `fetched`: the source it watches, whether it is
      still subscribed (`live`), and whether it has called the flush callback. */
  datatype Watch = Watch(source: Source, live: bool, fired: bool)

  /** The adapter's state: every watch made so far, the `subscription` field as
      an index into that history, the number of `console.error` calls and the
      number of flush callback invocations. */
  datatype Adapter = Adapter(watches: seq<Watch>, current: Option<nat>, logs: nat, flushCalls: nat)

  function FiredCount(ws: seq<Watch>): nat {
    if ws == [] then 0 else FiredCount(ws[..|ws| - 1]) + (if ws[|ws| - 1].fired then 1 else 0)
  }

  function LiveCount(ws: seq<Watch>): nat {
    if ws == [] then 0 else LiveCount(ws[..|ws| - 1]) + (if ws[|ws| - 1].live then 1 else 0)
  }

  predicate NoneLive(ws: seq<Watch>) {
    forall i :: 0 <= i < |ws| ==> !ws[i].live
  }

  /** The adapter's invariant: `subscription` holds the newest watch, only that
      watch can be live, a watch that called back is finished and watched a
      source that emits, and each callback came from a distinct watch. */
  predicate Consistent(a: Adapter) {
    (a.current.Some? ==> a.current.value == |a.watches| - 1) &&
    (forall i :: 0 <= i < |a.watches| && a.watches[i].live ==> a.current == Some(i)) &&
    (forall i :: 0 <= i < |a.watches| && a.watches[i].fired ==> !a.watches[i].live && a.watches[i].source.Emits?) &&
    a.flushCalls == FiredCount(a.watches)
  }

  /** A fresh adapter: no subscription yet. */
  function Initial(): (r: Adapter)
    ensures Consistent(r) && r.current == None
  {
    Adapter([], None, 0, 0)
  }

  function Unsubscribe(ws: seq<Watch>, k: nat): seq<Watch> {
    if k < |ws| then ws[k := ws[k].(live := false)] else ws
  }

  /** `cleanUp`: unsubscribe the current watch, if any, and clear the field. */
  function CleanUp(a: Adapter): (r: Adapter)
    ensures r.current == None
    ensures a.current == None ==> r == a
    ensures |r.watches| == |a.watches| && r.logs == a.logs && r.flushCalls == a.flushCalls
    ensures forall i :: 0 <= i < |a.watches| ==>
      r.watches[i].source == a.watches[i].source && r.watches[i].fired == a.watches[i].fired &&
      (r.watches[i].live ==> a.watches[i].live)
  {
    match a.current
    case None => a
    case Some(k) => a.(watches := Unsubscribe(a.watches, k), current := None)
  }

  /** `fetched`: dispose of the previous watch, then subscribe the source
      `flushOn` returns (or the never-emitting fallback) as the new watch. */
  function Fetched(a: Adapter, inv: Invocation): (r: Adapter)
    ensures |r.watches| == |a.watches| + 1
    ensures r.current == Some(|a.watches|)
    ensures r.watches[|a.watches|] == Watch(InvokeFlushFn(inv).source, true, false)
    ensures r.logs == a.logs + InvokeFlushFn(inv).logged && r.flushCalls == a.flushCalls
  {
    var c := CleanUp(a);
    var invoked := InvokeFlushFn(inv);
    c.(watches := c.watches + [Watch(invoked.source, true, false)],
       current := Some(|c.watches|),
       logs := c.logs + invoked.logged)
  }

  /** `flushed`: dispose of the current watch. */
  function Flushed(a: Adapter): (r: Adapter)
    ensures r.current == None && |r.watches| == |a.watches|
  {
    CleanUp(a)
  }

  /** The signal source of watch `k` delivers its first notification (a
      `Never` source has none). Only a live watch observes it: a value calls
      the flush callback, an error (or an EmptyError from `first()`) is logged;
      either way `first()` ends the watch. */
  function Deliver(a: Adapter, k: nat): (r: Adapter)
    requires k < |a.watches| && a.watches[k].source != Never
    ensures |r.watches| == |a.watches| && r.current == a.current
    ensures r.watches[k].source == a.watches[k].source && !r.watches[k].live
    ensures !a.watches[k].live ==> r == a
    ensures r.flushCalls == a.flushCalls + (if a.watches[k].live && a.watches[k].source.Emits? then 1 else 0)
    ensures r.logs == a.logs + (if a.watches[k].live && !a.watches[k].source.Emits? then 1 else 0)
    ensures forall i :: 0 <= i < |a.watches| && i != k ==> r.watches[i] == a.watches[i]
  {
    var w := a.watches[k];
    if !w.live then a
    else if w.source.Emits? then
      a.(watches := a.watches[k := Watch(w.source, false, true)], flushCalls := a.flushCalls + 1)
    else
      a.(watches := a.watches[k := w.(live := false)], logs := a.logs + 1)
  }

  /** `n` notifications from the source of watch `k`, one after another. */
  function DeliverTimes(a: Adapter, k: nat, n: nat): (r: Adapter)
    requires k < |a.watches| && a.watches[k].source != Never
    ensures |r.watches| == |a.watches|
    ensures n > 0 ==> r == Deliver(a, k)
    decreases n
  {
    if n == 0 then a else DeliverTimes(Deliver(a, k), k, n - 1)
  }

  // ----- lemmas -----

  lemma {:induction false} FiredCountSame(ws: seq<Watch>, ws': seq<Watch>)
    requires |ws| == |ws'|
    requires forall i :: 0 <= i < |ws| ==> ws[i].fired == ws'[i].fired
    ensures FiredCount(ws) == FiredCount(ws')
  {
    if ws != [] {
      FiredCountSame(ws[..|ws| - 1], ws'[..|ws'| - 1]);
    }
  }

  lemma {:induction false} FiredCountSet(ws: seq<Watch>, k: nat, w: Watch)
    requires k < |ws|
    ensures FiredCount(ws[k := w]) ==
      FiredCount(ws) - (if ws[k].fired then 1 else 0) + (if w.fired then 1 else 0)
  {
    var n := |ws| - 1;
    if k < n {
      assert ws[k := w][..n] == ws[..n][k := w];
      FiredCountSet(ws[..n], k, w);
    } else {
      assert ws[k := w][..n] == ws[..n];
    }
  }

  /** When every live watch sits at index `c`, at most that one is live. */
  lemma {:induction false} LiveCountAt(ws: seq<Watch>, c: int)
    requires forall i :: 0 <= i < |ws| && ws[i].live ==> i == c
    ensures LiveCount(ws) == (if 0 <= c < |ws| && ws[c].live then 1 else 0)
  {
    if ws != [] {
      LiveCountAt(ws[..|ws| - 1], c);
    }
  }

  /** At most one live watch exists per adapter. */
  lemma AtMostOneLive(a: Adapter)
    requires Consistent(a)
    ensures LiveCount(a.watches) <= 1
    ensures LiveCount(a.watches) == 1 <==> a.current.Some? && a.watches[a.current.value].live
  {
    LiveCountAt(a.watches, if a.current.Some? then a.current.value else -1);
  }

  /** `cleanUp` (and so `flushed`) leaves no live watch and keeps the invariant. */
  lemma CleanUpDisposes(a: Adapter)
    requires Consistent(a)
    ensures Consistent(CleanUp(a)) && NoneLive(CleanUp(a).watches)
  {
    FiredCountSame(a.watches, CleanUp(a).watches);
  }

  /** Calling `cleanUp` twice is the same as calling it once. */
  lemma CleanUpIdempotent(a: Adapter)
    ensures CleanUp(CleanUp(a)) == CleanUp(a)
  {
  }

  /** After `fetched` exactly one watch is live, the new one; every earlier
      watch has been disposed and nothing else changed about them. */
  lemma FetchedKeepsOneWatch(a: Adapter, inv: Invocation)
    requires Consistent(a)
    ensures var r := Fetched(a, inv);
      Consistent(r) && r.watches[..|a.watches|] == CleanUp(a).watches &&
      NoneLive(r.watches[..|a.watches|]) && r.watches[|a.watches|].live &&
      LiveCount(r.watches) == 1
  {
    var c := CleanUp(a);
    var r := Fetched(a, inv);
    CleanUpDisposes(a);
    assert r.watches == c.watches + [r.watches[|a.watches|]];
    assert r.watches[..|a.watches|] == c.watches;
    AtMostOneLive(r);
  }

  /** Delivering a notification keeps the invariant. */
  lemma DeliverConsistent(a: Adapter, k: nat)
    requires Consistent(a) && k < |a.watches| && a.watches[k].source != Never
    ensures Consistent(Deliver(a, k))
  {
    var r := Deliver(a, k);
    if a.watches[k].live {
      FiredCountSet(a.watches, k, r.watches[k]);
    }
  }

  /** A watch that is not the current one was disposed: its source can no
      longer reach the callback or the log. */
  lemma StaleWatchIgnored(a: Adapter, k: nat)
    requires Consistent(a) && k < |a.watches| && a.watches[k].source != Never
    requires a.current != Some(k)
    ensures Deliver(a, k) == a
  {
  }

  /** Notifications after the first one are ignored. */
  lemma {:induction false} FinishedWatchIgnores(a: Adapter, k: nat, n: nat)
    requires k < |a.watches| && a.watches[k].source != Never && !a.watches[k].live
    ensures DeliverTimes(a, k, n) == a
    decreases n
  {
    if n > 0 {
      FinishedWatchIgnores(Deliver(a, k), k, n - 1);
    }
  }

  /** Under one `fetched` watch the flush callback runs at most once: exactly
      once if the source emits, and never if it fails, completes empty, or
      `flushOn` threw (then the source is the never-emitting fallback and no
      notification can be delivered at all). A failure is logged exactly once. */
  lemma {:induction false} CallbackAtMostOnce(a: Adapter, inv: Invocation, n: nat)
    requires Consistent(a)
    requires InvokeFlushFn(inv).source != Never
    ensures var f := Fetched(a, inv);
      var r := DeliverTimes(f, |a.watches|, n);
      var emits := InvokeFlushFn(inv).source.Emits?;
      r.flushCalls == a.flushCalls + (if n > 0 && emits then 1 else 0) &&
      r.logs == a.logs + InvokeFlushFn(inv).logged + (if n > 0 && !emits then 1 else 0)
  {
    var f := Fetched(a, inv);
    var k := |a.watches|;
    if n > 0 {
      var d := Deliver(f, k);
      FinishedWatchIgnores(d, k, n - 1);
    }
  }

  /** A throwing `flushOn` is logged exactly once and leaves a watch that no
      notification can ever reach, so the callback is never called for it. */
  lemma ThrowingFlushOnNeverCallsBack(a: Adapter)
    requires Consistent(a)
    ensures var r := Fetched(a, Throws);
      r.logs == a.logs + 1 && r.flushCalls == a.flushCalls &&
      r.watches[|a.watches|].source == Never && !r.watches[|a.watches|].fired
  {
  }

  /** A value whose `flushOn` returns a failing signal, probed and then kept
      (as the engine does with a persisted value that is not expired): the
      probe logs the error and answers false, the watch installed by `fetched`
      logs it again when delivered, and the callback never runs. */
  lemma FailingSignalLogsOnProbeAndWatch(a: Adapter)
    requires Consistent(a)
    ensures var inv := Returns(Fails(true));
      var p := IsExpired(inv);
      var f := Fetched(a.(logs := a.logs + p.logged), inv);
      var r := Deliver(f, |a.watches|);
      !p.expired && r.logs == a.logs + 2 && r.flushCalls == a.flushCalls && Consistent(r)
  {
    var inv := Returns(Fails(true));
    var probed := a.(logs := a.logs + IsExpired(inv).logged);
    FetchedKeepsOneWatch(probed, inv);
    DeliverConsistent(Fetched(probed, inv), |a.watches|);
  }
}
