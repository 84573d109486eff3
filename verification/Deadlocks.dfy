/**
 * Threads running the traces of LockDiscipline side by side. Each continuation is shut down at most once. Which of its
 * callbacks can take part in a deadlock, and no other one.
 */
module Deadlocks {
  import opened Rpc
  import opened LockDiscipline

  /* ----- the continuations a call shuts down ----- */

  predicate ShutsDown(call: Call, c: Continuation)
    decreases call
  {
    match call
    case Submit(_, inside, _, fails, _, onFlush) => AnyShutsDown(inside, c) || (fails && AnyShutsDown(onFlush, c))
    case ShutDown(d, onDestroy, taken, last) =>
      c == d || (d.loop.Some? && AnyShutsDown(onDestroy, c)) || TakenShutsDown(taken, c) || AnyShutsDown(last, c)
    case OnClosed(_, taken) => TakenShutsDown(taken, c)
    case OnFlushed(_, onFlush) => AnyShutsDown(onFlush, c)
  }

  predicate TakenShutsDown(taken: Taken, c: Continuation)
    decreases taken
  {
    AnyShutsDown(taken.onResult, c) || AnyShutsDown(taken.onActivateFlush, c) || AnyShutsDown(taken.onCloseFlush, c)
  }

  predicate AnyShutsDown(calls: seq<Call>, c: Continuation)
    decreases calls
  {
    calls != [] && (ShutsDown(calls[0], c) || AnyShutsDown(calls[1..], c))
  }

  predicate MessageShutsDown(m: Message, c: Continuation) {
    AnyShutsDown(m.onResult, c) || (!m.isResponse && AnyShutsDown(m.onEvent, c)) || AnyShutsDown(m.closeCalls, c)
  }

  /** A trace on thread `on` that takes no handler lock but for the ShutDown of another thread's continuation. */
  predicate PlainOps(ops: seq<Op>, on: ThreadKind) {
    forall op | op in ops ::
      && !(op.Acquire? && op.l.Handler?)
      && (op.BeginShutDown? ==> op.locks == TakesHandlerLock(op.c, on))
  }

  predicate Begins(ops: seq<Op>, c: Continuation) {
    BeginShutDown(c, true) in ops || BeginShutDown(c, false) in ops
  }

  /** The trace is plain, and `shutsDown` says whether it shuts down `c`. */
  predicate Describes(ops: seq<Op>, on: ThreadKind, c: Continuation, shutsDown: bool) {
    PlainOps(ops, on) && (Begins(ops, c) <==> shutsDown)
  }

  lemma {:induction false} Both(
    first: seq<Op>, shutsDown: bool, second: seq<Op>, shutsDown': bool, on: ThreadKind, c: Continuation)
    requires Describes(first, on, c, shutsDown) && Describes(second, on, c, shutsDown')
    ensures Describes(first + second, on, c, shutsDown || shutsDown')
  {
    assert forall op :: op in first + second <==> op in first || op in second;
  }

  lemma {:induction false} UserDescribed(calls: seq<Call>, on: ThreadKind, c: Continuation)
    ensures Describes(UserTrace(calls, on), on, c, AnyShutsDown(calls, c))
    decreases calls, 1
  {
    CallsDescribed(calls, on, c);
    Both([UserCode], false, CallTraces(calls, on), AnyShutsDown(calls, c), on, c);
  }

  lemma {:induction false} CompleteDescribed(container: nat, onFlush: seq<Call>, on: ThreadKind, c: Continuation)
    ensures Describes(CompleteTrace(container, onFlush, on), on, c, AnyShutsDown(onFlush, c))
    decreases onFlush, 2
  {
    UserDescribed(onFlush, on, c);
    Both(Locked(Container(container)), false, UserTrace(onFlush, on), AnyShutsDown(onFlush, c), on, c);
  }

  lemma {:induction false} TakenDescribed(taken: Taken, on: ThreadKind, c: Continuation)
    ensures Describes(TakenTrace(taken, on), on, c, TakenShutsDown(taken, c))
    decreases taken
  {
    var result := UserTrace(taken.onResult, on);
    var activation := CompleteTrace(taken.activation, taken.onActivateFlush, on);
    var x, y := AnyShutsDown(taken.onResult, c), AnyShutsDown(taken.onActivateFlush, c);
    UserDescribed(taken.onResult, on, c);
    CompleteDescribed(taken.activation, taken.onActivateFlush, on, c);
    CompleteDescribed(taken.close, taken.onCloseFlush, on, c);
    Both(result, x, activation, y, on, c);
    Both(result + activation, x || y, CompleteTrace(taken.close, taken.onCloseFlush, on),
         AnyShutsDown(taken.onCloseFlush, c), on, c);
  }

  lemma {:induction false} ClearDescribed(d: Continuation, onDestroy: seq<Call>, on: ThreadKind, c: Continuation)
    ensures Describes(ClearTrace(d, onDestroy, on), on, c, c == d || (d.loop.Some? && AnyShutsDown(onDestroy, c)))
    decreases onDestroy, 2
  {
    var begin := [BeginShutDown(d, TakesHandlerLock(d, on))];
    var user: seq<Op> := if d.loop.Some? then UserTrace(onDestroy, on) else [];
    var x := d.loop.Some? && AnyShutsDown(onDestroy, c);
    UserDescribed(onDestroy, on, c);
    assert Describes(begin, on, c, c == d) by {
      assert begin[0] in begin;
    }
    Both(begin, c == d, user, x, on, c);
    Both(begin + user, c == d || x, if TakesHandlerLock(d, on) then [Release(Handler(d))] else [], false, on, c);
  }

  lemma {:induction false} CallDescribed(call: Call, on: ThreadKind, c: Continuation)
    ensures Describes(CallTrace(call, on), on, c, ShutsDown(call, c))
    decreases call
  {
    match call
    case Submit(d, inside, rolledBack, fails, container, onFlush) =>
      var start := Locked(Shared(d)) + CallTraces(inside, on);
      var rollback: seq<Op> := if rolledBack then QuietSection(d) else [];
      var x := AnyShutsDown(inside, c);
      CallsDescribed(inside, on, c);
      CompleteDescribed(container, onFlush, on, c);
      Both(Locked(Shared(d)), false, CallTraces(inside, on), x, on, c);
      Both(start, x, rollback, false, on, c);
      Both(start + rollback, x, if fails then CompleteTrace(container, onFlush, on) else [],
           fails && AnyShutsDown(onFlush, c), on, c);
    case ShutDown(d, onDestroy, taken, last) =>
      var clear := ClearTrace(d, onDestroy, on);
      var x := c == d || (d.loop.Some? && AnyShutsDown(onDestroy, c));
      ClearDescribed(d, onDestroy, on, c);
      TakenDescribed(taken, on, c);
      CallsDescribed(last, on, c);
      Both(clear, x, Locked(Shared(d)), false, on, c);
      Both(clear + Locked(Shared(d)), x, TakenTrace(taken, on), TakenShutsDown(taken, c), on, c);
      Both(clear + Locked(Shared(d)) + TakenTrace(taken, on), x || TakenShutsDown(taken, c),
           CallTraces(last, on), AnyShutsDown(last, c), on, c);
    case OnClosed(d, taken) =>
      TakenDescribed(taken, on, c);
      Both(Locked(Shared(d)), false, TakenTrace(taken, on), TakenShutsDown(taken, c), on, c);
    case OnFlushed(container, onFlush) => CompleteDescribed(container, onFlush, on, c);
  }

  lemma {:induction false} CallsDescribed(calls: seq<Call>, on: ThreadKind, c: Continuation)
    ensures Describes(CallTraces(calls, on), on, c, AnyShutsDown(calls, c))
    decreases calls, 0
  {
    if calls != [] {
      CallDescribed(calls[0], on, c);
      CallsDescribed(calls[1..], on, c);
      Both(CallTrace(calls[0], on), ShutsDown(calls[0], c), CallTraces(calls[1..], on),
           AnyShutsDown(calls[1..], c), on, c);
    }
  }

  /** The parts of OnMessage; the only handler lock it takes itself is that of its own continuation. */
  lemma {:induction false} MessageDescribed(m: Message, c: Continuation)
    ensures var on := EventLoop(m.loop);
            && Describes(BeforeHandler(m), on, c, AnyShutsDown(m.onResult, c))
            && Describes(EventTrace(m), on, c, AnyShutsDown(m.onEvent, c))
            && Describes(AfterHandler(m), on, c, AnyShutsDown(m.closeCalls, c))
    ensures Begins(MessageTrace(m), c) <==> MessageShutsDown(m, c)
    ensures forall op | op in MessageTrace(m) ::
              && (op.Acquire? && op.l.Handler? ==> !m.isResponse && op.l == Handler(Of(m)))
              && (op.BeginShutDown? ==> op.locks == TakesHandlerLock(op.c, EventLoop(m.loop)))
  {
    var on := EventLoop(m.loop);
    UserDescribed(m.onResult, on, c);
    UserDescribed(m.onEvent, on, c);
    CallsDescribed(m.closeCalls, on, c);
    Both(QuietSection(Of(m)), false, UserTrace(m.onResult, on), AnyShutsDown(m.onResult, c), on, c);
    forall op
      ensures op in MessageTrace(m) <==> op in BeforeHandler(m) || op in HandlerTrace(m) || op in AfterHandler(m)
    {
    }
    assert !m.isResponse ==>
        forall op :: op in HandlerTrace(m) <==>
          op == Acquire(Handler(Of(m))) || op in EventTrace(m) || op == Release(Handler(Of(m)));
  }

  /* ----- threads ----- */

  /** What a thread runs: a public call, or OnClosed or a flush callback from the C layer; or OnMessage. */
  datatype Start = RunCall(call: Call, on: ThreadKind) | RunMessage(m: Message)

  function Trace(s: Start): seq<Op> {
    match s
    case RunCall(call, on) => CallTrace(call, on)
    case RunMessage(m) => MessageTrace(m)
  }

  /** The locks held when `k` operations have been done. */
  function Holds(s: Start, k: nat): multiset<Lock>
    requires k <= |Trace(s)|
  {
    HeldAfter(Trace(s)[..k], multiset{})
  }

  /** The lock the next operation takes. */
  function Request(s: Start, k: nat): Option<Lock>
    requires k <= |Trace(s)|
  {
    if k == |Trace(s)| then None else
    match Trace(s)[k]
    case Acquire(l) => Some(l)
    case BeginShutDown(c, locks) => if locks then Some(Handler(c)) else None
    case _ => None
  }

  /** Operation `k` of `s` begins the ShutDown of `c`. */
  predicate BeginsAt(s: Start, k: nat, c: Continuation) {
    k < |Trace(s)| && Trace(s)[k].BeginShutDown? && Trace(s)[k].c == c
  }

  /** No continuation is shut down twice. */
  ghost predicate Once(starts: seq<Start>) {
    forall i: nat, j: nat, k: nat, n: nat, c: Continuation ::
      i < |starts| && j < |starts| && BeginsAt(starts[i], k, c) && BeginsAt(starts[j], n, c) ==> i == j && k == n
  }

  /** How far each thread has come. */
  predicate Positions(starts: seq<Start>, at: seq<nat>) {
    |at| == |starts| && forall i :: 0 <= i < |at| ==> at[i] <= |Trace(starts[i])|
  }

  /** Thread `i` waits for a lock thread `j` holds. */
  predicate WaitsFor(starts: seq<Start>, at: seq<nat>, i: nat, j: nat)
    requires Positions(starts, at)
  {
    && i < |starts| && j < |starts|
    && Request(starts[i], at[i]).Some? && Request(starts[i], at[i]).value in Holds(starts[j], at[j])
  }

  predicate CanStep(starts: seq<Start>, at: seq<nat>, i: nat)
    requires Positions(starts, at)
  {
    i < |starts| && at[i] < |Trace(starts[i])| && forall j: nat | j < |starts| :: !WaitsFor(starts, at, i, j)
  }

  /** A schedule names the thread that takes the next operation, each time one that has work left and is not blocked. */
  predicate Allowed(starts: seq<Start>, at: seq<nat>, schedule: seq<nat>)
    requires Positions(starts, at)
    decreases |schedule|
  {
    schedule == [] ||
    (CanStep(starts, at, schedule[0]) && Allowed(starts, at[schedule[0] := at[schedule[0]] + 1], schedule[1..]))
  }

  function After(starts: seq<Start>, at: seq<nat>, schedule: seq<nat>): (later: seq<nat>)
    requires Positions(starts, at) && Allowed(starts, at, schedule)
    ensures Positions(starts, later)
    decreases |schedule|
  {
    if schedule == [] then at
    else After(starts, at[schedule[0] := at[schedule[0]] + 1], schedule[1..])
  }

  function Beginning(starts: seq<Start>): seq<nat> {
    seq(|starts|, _ => 0)
  }

  /* ----- where threads wait ----- */

  lemma {:induction false} StartNeutral(s: Start)
    ensures Neutral(Trace(s), multiset{})
  {
    match s
    case RunCall(call, on) => CallTraceNeutral(call, on, multiset{});
    case RunMessage(m) => MessageTraceNeutral(m);
  }

  /** A thread that holds a lock and wants another one holds handler locks only; if the one it wants is a handler's, it
      is beginning a ShutDown. */
  lemma {:induction false} HoldsAndWants(s: Start, k: nat)
    requires k <= |Trace(s)| && Request(s, k).Some?
    ensures OnlyHandlers(Holds(s, k))
    ensures Request(s, k).value.Handler? && Holds(s, k) != multiset{} ==>
              Trace(s)[k] == BeginShutDown(Request(s, k).value.c, true)
  {
    StartNeutral(s);
    FitsAt(Trace(s), multiset{}, k);
  }

  /** A handler lock is held by OnMessage of its continuation, or since an earlier ShutDown in the same thread. */
  lemma {:induction false} HeldBy(s: Start, k: nat, c: Continuation)
    requires k <= |Trace(s)| && Handler(c) in Holds(s, k)
    ensures (s.RunMessage? && Of(s.m) == c && !s.m.isResponse && Acquire(Handler(c)) in Trace(s)[..k])
            || exists j: nat :: j < k && Trace(s)[j] == BeginShutDown(c, true)
  {
    var done := Trace(s)[..k];
    TakenAt(done, multiset{}, c);
    if BeginShutDown(c, true) in done {
      var j: nat :| j < k && done[j] == BeginShutDown(c, true);
      assert Trace(s)[j] == BeginShutDown(c, true);
    } else {
      assert Acquire(Handler(c)) in Trace(s);
      match s
      case RunCall(call, on) =>
        CallDescribed(call, on, c);
        assert false;
      case RunMessage(m) => MessageDescribed(m, c);
    }
  }

  /** Before the handler section OnMessage has not taken its handler lock. */
  lemma {:induction false} NotYetTaken(m: Message, k: nat)
    requires k < |BeforeHandler(m)|
    ensures Acquire(Handler(Of(m))) !in MessageTrace(m)[..k]
  {
    MessageDescribed(m, Of(m));
    assert MessageTrace(m)[..k] == BeforeHandler(m)[..k];
    assert forall op | op in BeforeHandler(m)[..k] :: op in BeforeHandler(m);
  }

  /** After it OnMessage does not hold that lock again. */
  lemma {:induction false} GivenBack(m: Message, k: nat)
    requires |BeforeHandler(m) + HandlerTrace(m)| <= k <= |MessageTrace(m)|
    ensures Handler(Of(m)) !in Holds(RunMessage(m), k)
  {
    var head := BeforeHandler(m) + HandlerTrace(m);
    var tail := AfterHandler(m)[..k - |head|];
    assert MessageTrace(m)[..k] == head + tail;
    MessageTraceNeutral(m);
    Concatenation(head, tail, multiset{});
    if Handler(Of(m)) in HeldAfter(tail, multiset{}) {
      TakenAt(tail, multiset{}, Of(m));
      MessageDescribed(m, Of(m));
      assert false;
    }
  }

  /** A ShutDown begun in it is one of the stream handler's. */
  lemma {:induction false} BegunInHandler(m: Message, k: nat, d: Continuation)
    requires |BeforeHandler(m)| <= k < |BeforeHandler(m) + HandlerTrace(m)|
    requires MessageTrace(m)[k] == BeginShutDown(d, true)
    ensures !m.isResponse && AnyShutsDown(m.onEvent, d) && TakesHandlerLock(d, EventLoop(m.loop))
  {
    MessageDescribed(m, d);
    assert HandlerTrace(m)[k - |BeforeHandler(m)|] == BeginShutDown(d, true);
    assert BeginShutDown(d, true) in HandlerTrace(m);
    assert BeginShutDown(d, true) in EventTrace(m);
  }

  /** OnMessage waits to shut another continuation down while it holds its own handler lock only when the stream handler
      does so, and only for a continuation of another event loop. */
  lemma {:induction false} WantsInHandler(m: Message, k: nat, d: Continuation)
    requires k < |MessageTrace(m)| && MessageTrace(m)[k] == BeginShutDown(d, true)
    requires Handler(Of(m)) in Holds(RunMessage(m), k) && Acquire(Handler(Of(m))) in MessageTrace(m)[..k]
    ensures !m.isResponse && AnyShutsDown(m.onEvent, d) && d.loop.Some? && d.loop != Some(m.loop)
  {
    if k < |BeforeHandler(m)| {
      NotYetTaken(m, k);
      assert false;
    } else if k < |BeforeHandler(m) + HandlerTrace(m)| {
      BegunInHandler(m, k, d);
    } else {
      GivenBack(m, k);
      assert false;
    }
  }

  /** The callback that can take part in a deadlock: a stream event whose handler shuts down a continuation of another
      event loop, when the callback does not shut down its own. */
  ghost predicate Crossing(s: Start) {
    && s.RunMessage? && !s.m.isResponse && !MessageShutsDown(s.m, Of(s.m))
    && exists d: Continuation :: d.loop.Some? && d.loop != Some(s.m.loop) && AnyShutsDown(s.m.onEvent, d)
  }

  /** `s`, a message's thread, waits in its stream handler to shut down `d`. */
  ghost predicate WaitsInHandler(s: Start, d: Continuation) {
    Crossing(s) && AnyShutsDown(s.m.onEvent, d) && d.loop.Some? && d.loop != Some(s.m.loop)
  }

  /** A thread in the middle of a chain of waiting threads is a crossing one, and the one it waits for runs OnMessage of
      the continuation it is shutting down. */
  lemma {:induction false} MiddleCrosses(starts: seq<Start>, at: seq<nat>, o: nat, p: nat, i: nat, q: nat, r: nat)
    requires Positions(starts, at) && Once(starts)
    requires WaitsFor(starts, at, o, p) && WaitsFor(starts, at, p, i)
    requires WaitsFor(starts, at, i, q) && WaitsFor(starts, at, q, r)
    ensures Crossing(starts[i]) && Request(starts[i], at[i]).value.Handler?
    ensures WaitsInHandler(starts[i], Request(starts[i], at[i]).value.c)
  {
    var s := starts[i];
    HoldsAndWants(starts[p], at[p]);
    HoldsAndWants(s, at[i]);
    HoldsAndWants(starts[q], at[q]);
    var c := Request(starts[p], at[p]).value.c;
    var d := Request(s, at[i]).value.c;
    assert BeginsAt(starts[p], at[p], c);
    HeldBy(s, at[i], c);
    if j: nat :| j < at[i] && Trace(s)[j] == BeginShutDown(c, true) {
      assert BeginsAt(s, j, c);
      assert false;
    }
    WantsInHandler(s.m, at[i], d);
    MessageDescribed(s.m, c);
    if MessageShutsDown(s.m, c) {
      var n: nat :| n < |Trace(s)| && Trace(s)[n].BeginShutDown? && Trace(s)[n].c == c;
      assert BeginsAt(s, n, c);
      assert false;
    }
  }

  /* ----- cycles ----- */

  function Next(k: nat, n: nat): nat {
    if k + 1 < n then k + 1 else 0
  }

  function Previous(k: nat, n: nat): nat
    requires n > 0
  {
    if k == 0 then n - 1 else k - 1
  }

  /** Threads that wait for each other in a ring. */
  predicate Ring(starts: seq<Start>, at: seq<nat>, ring: seq<nat>)
    requires Positions(starts, at)
  {
    ring != [] && forall k: nat | k < |ring| :: WaitsFor(starts, at, ring[k], ring[Next(k, |ring|)])
  }

  /** Every thread of a ring is a crossing one, waiting in its stream handler to shut down the next one's continuation.
      User threads, and callbacks other than stream events, are in no ring. */
  lemma {:induction false} RingCrosses(starts: seq<Start>, at: seq<nat>, ring: seq<nat>, k: nat)
    requires Positions(starts, at) && Once(starts) && Ring(starts, at, ring) && k < |ring|
    ensures var next := ring[Next(k, |ring|)];
            && ring[k] < |starts| && next < |starts| && starts[next].RunMessage?
            && WaitsInHandler(starts[ring[k]], Of(starts[next].m))
  {
    var n := |ring|;
    var o, p, q := Previous(Previous(k, n), n), Previous(k, n), Next(k, n);
    assert Next(o, n) == p && Next(p, n) == k;
    MiddleCrosses(starts, at, ring[o], ring[p], ring[k], ring[q], ring[Next(q, n)]);
    MiddleCrosses(starts, at, ring[p], ring[k], ring[q], ring[Next(q, n)], ring[Next(Next(q, n), n)]);
    var d := Request(starts[ring[k]], at[ring[k]]).value.c;
    HoldsAndWants(starts[ring[p]], at[ring[p]]);
    HoldsAndWants(starts[ring[k]], at[ring[k]]);
    HeldBy(starts[ring[q]], at[ring[q]], d);
    assert BeginsAt(starts[ring[k]], at[ring[k]], d);
    if j: nat :| j < at[ring[q]] && Trace(starts[ring[q]])[j] == BeginShutDown(d, true) {
      assert BeginsAt(starts[ring[q]], j, d);
      assert false;
    }
  }

  ghost predicate InRing(starts: seq<Start>, at: seq<nat>, i: nat)
    requires Positions(starts, at)
  {
    exists ring :: Ring(starts, at, ring) && i in ring
  }

  lemma {:induction false} HoldersWork(starts: seq<Start>, at: seq<nat>, i: nat, j: nat)
    requires Positions(starts, at) && WaitsFor(starts, at, i, j)
    ensures at[j] < |Trace(starts[j])|
  {
    StartNeutral(starts[j]);
    assert Trace(starts[j])[..|Trace(starts[j])|] == Trace(starts[j]);
  }

  /** Without crossing callbacks, as long as one thread has work left one of them can proceed: waiting goes at most a
      few threads deep. */
  lemma {:induction false} SomeoneProceeds(starts: seq<Start>, at: seq<nat>, i: nat) returns (runner: nat)
    requires Positions(starts, at) && Once(starts) && i < |starts| && at[i] < |Trace(starts[i])|
    requires forall s | s in starts :: !Crossing(s)
    ensures CanStep(starts, at, runner)
  {
    if CanStep(starts, at, i) {
      return i;
    }
    var j: nat :| j < |starts| && WaitsFor(starts, at, i, j);
    HoldersWork(starts, at, i, j);
    if CanStep(starts, at, j) {
      return j;
    }
    var k: nat :| k < |starts| && WaitsFor(starts, at, j, k);
    HoldersWork(starts, at, j, k);
    if CanStep(starts, at, k) {
      return k;
    }
    var n: nat :| n < |starts| && WaitsFor(starts, at, k, n);
    HoldersWork(starts, at, k, n);
    if !CanStep(starts, at, n) {
      var r: nat :| r < |starts| && WaitsFor(starts, at, n, r);
      MiddleCrosses(starts, at, i, j, k, n, r);
      assert false;
    }
    return n;
  }

  /** Any number of threads without crossing callbacks, under any schedule: no thread is in a ring of waiting threads,
      and somebody can proceed until everybody has finished. */
  lemma {:induction false} NoDeadlock(starts: seq<Start>, schedule: seq<nat>)
    requires Once(starts) && forall s | s in starts :: !Crossing(s)
    requires Allowed(starts, Beginning(starts), schedule)
    ensures var at := After(starts, Beginning(starts), schedule);
            && (forall i :: !InRing(starts, at, i))
            && ((exists i :: CanStep(starts, at, i)) || forall i: nat | i < |starts| :: at[i] == |Trace(starts[i])|)
  {
    var at := After(starts, Beginning(starts), schedule);
    forall i ensures !InRing(starts, at, i) {
      if ring :| Ring(starts, at, ring) && i in ring {
        RingCrosses(starts, at, ring, 0);
        assert false;
      }
    }
    if i: nat :| i < |starts| && at[i] != |Trace(starts[i])| {
      var runner := SomeoneProceeds(starts, at, i);
    }
  }

  /* ----- a deadlock for every crossing callback ----- */

  /** On its own, no thread waits for itself. */
  lemma {:induction false} NoSelfWait(s: Start, k: nat)
    requires Once([s]) && k <= |Trace(s)| && Request(s, k).Some?
    ensures Request(s, k).value !in Holds(s, k)
  {
    HoldsAndWants(s, k);
    if Request(s, k).value in Holds(s, k) {
      var c := Request(s, k).value.c;
      assert BeginsAt([s][0], k, c);
      HeldBy(s, k, c);
      if j: nat :| j < k && Trace(s)[j] == BeginShutDown(c, true) {
        assert BeginsAt([s][0], j, c);
        assert false;
      } else {
        MessageDescribed(s.m, c);
        assert false;
      }
    }
  }

  /** None of thread `i`'s next `k` operations needs a lock anybody holds. */
  ghost predicate Unhindered(starts: seq<Start>, at: seq<nat>, i: nat, k: nat)
    requires Positions(starts, at) && i < |starts| && at[i] + k <= |Trace(starts[i])|
  {
    forall n: nat, j: nat :: at[i] <= n < at[i] + k && j < |starts| ==> Passes(starts, at, i, n, j)
  }

  /** Operation `n` of thread `i` needs no lock thread `j` holds. */
  predicate Passes(starts: seq<Start>, at: seq<nat>, i: nat, n: nat, j: nat)
    requires Positions(starts, at) && i < |starts| && j < |starts| && n <= |Trace(starts[i])|
  {
    Request(starts[i], n).Some? ==> Request(starts[i], n).value !in Holds(starts[j], if j == i then n else at[j])
  }

  lemma {:induction false} UnhinderedStep(starts: seq<Start>, at: seq<nat>, i: nat, k: nat)
    requires Positions(starts, at) && i < |starts| && at[i] + k <= |Trace(starts[i])| && k > 0
    requires Unhindered(starts, at, i, k)
    ensures CanStep(starts, at, i)
    ensures Unhindered(starts, at[i := at[i] + 1], i, k - 1)
  {
    forall j: nat | j < |starts| ensures !WaitsFor(starts, at, i, j) {
      assert Passes(starts, at, i, at[i], j);
    }
    var next := at[i := at[i] + 1];
    forall n: nat, j: nat | next[i] <= n < next[i] + (k - 1) && j < |starts| ensures Passes(starts, next, i, n, j) {
      assert Passes(starts, at, i, n, j);
    }
  }

  lemma {:induction false} StepFirst(starts: seq<Start>, at: seq<nat>, i: nat, schedule: seq<nat>)
    requires Positions(starts, at) && CanStep(starts, at, i) && Allowed(starts, at[i := at[i] + 1], schedule)
    ensures Allowed(starts, at, [i] + schedule)
    ensures After(starts, at, [i] + schedule) == After(starts, at[i := at[i] + 1], schedule)
  {
    var all, next := [i] + schedule, at[i := at[i] + 1];
    assert Positions(starts, next);
    assert all != [] && all[0] == i && all[1..] == schedule;
    assert at[all[0] := at[all[0]] + 1] == next;
    assert Allowed(starts, at, all);
    assert After(starts, at, all) == After(starts, next, schedule);
  }

  lemma {:induction false} RunsAhead(
    starts: seq<Start>, at: seq<nat>, i: nat, k: nat, later: seq<nat>, schedule: seq<nat>)
    returns (longer: seq<nat>)
    requires Positions(starts, at) && i < |starts| && at[i] + k <= |Trace(starts[i])|
    requires Unhindered(starts, at, i, k)
    requires later == at[i := at[i] + k] && Positions(starts, later) && Allowed(starts, later, schedule)
    ensures Allowed(starts, at, longer) && After(starts, at, longer) == After(starts, later, schedule)
    decreases k
  {
    if k == 0 {
      assert later == at;
      longer := schedule;
    } else {
      var next := at[i := at[i] + 1];
      assert later == next[i := next[i] + (k - 1)];
      UnhinderedStep(starts, at, i, k);
      var rest := RunsAhead(starts, next, i, k - 1, later, schedule);
      StepFirst(starts, at, i, rest);
      longer := [i] + rest;
    }
  }

  /** An event of `d` whose handler shuts `c` down. */
  function Partner(d: Continuation, c: Continuation): Message
    requires d.loop.Some?
  {
    Message(d.id, d.loop.value, false, [], [ShutDown(c, [], Taken([], 0, [], 1, []), [])], [])
  }

  lemma {:induction false} PartnerTrace(d: Continuation, c: Continuation)
    requires d.loop.Some? && c.loop.Some? && c.loop != d.loop
    ensures Of(Partner(d, c)) == d
    ensures MessageTrace(Partner(d, c)) ==
            QuietSection(d) + [UserCode, Acquire(Handler(d)), UserCode, BeginShutDown(c, true)]
            + [UserCode, Release(Handler(c)), Acquire(Shared(c)), Release(Shared(c)), UserCode,
               Acquire(Container(0)), Release(Container(0)), UserCode,
               Acquire(Container(1)), Release(Container(1)), UserCode, Release(Handler(d))]
  {
    var on := EventLoop(d.loop.value);
    var shutDown := ShutDown(c, [], Taken([], 0, [], 1, []), []);
    IdleShutDown(c, on);
    assert CallTraces([], on) == [] && UserTrace([], on) == [UserCode];
    assert [shutDown][1..] == [];
    assert CallTraces([shutDown], on) == CallTrace(shutDown, on) + [] == CallTrace(shutDown, on);
    var p := Partner(d, c);
    assert EventTrace(p) == [UserCode] + CallTrace(shutDown, on);
    assert BeforeHandler(p) == QuietSection(d) + [UserCode] && AfterHandler(p) == [];
    assert HandlerTrace(p) == [Acquire(Handler(d)), UserCode] + CallTrace(shutDown, on) + [Release(Handler(d))];
  }

  /** A ShutDown in which user code does nothing. */
  lemma {:induction false} IdleShutDown(c: Continuation, on: ThreadKind)
    requires TakesHandlerLock(c, on)
    ensures CallTrace(ShutDown(c, [], Taken([], 0, [], 1, []), []), on) ==
            [BeginShutDown(c, true), UserCode, Release(Handler(c)), Acquire(Shared(c)), Release(Shared(c)), UserCode,
             Acquire(Container(0)), Release(Container(0)), UserCode,
             Acquire(Container(1)), Release(Container(1)), UserCode]
  {
    assert CallTraces([], on) == [] && UserTrace([], on) == [UserCode];
    assert ClearTrace(c, [], on) == [BeginShutDown(c, true), UserCode, Release(Handler(c))];
    assert CompleteTrace(0, [], on) == [Acquire(Container(0)), Release(Container(0)), UserCode];
    assert CompleteTrace(1, [], on) == [Acquire(Container(1)), Release(Container(1)), UserCode];
    assert TakenTrace(Taken([], 0, [], 1, []), on)
        == [UserCode, Acquire(Container(0)), Release(Container(0)), UserCode,
            Acquire(Container(1)), Release(Container(1)), UserCode];
  }

  /** What the partner holds once it is about to shut `c` down, and that it takes nothing but `d`'s locks before. */
  lemma {:induction false} PartnerReady(d: Continuation, c: Continuation)
    requires d.loop.Some? && c.loop.Some? && c.loop != d.loop
    ensures var s := RunMessage(Partner(d, c));
            && |Trace(s)| > 6 && Trace(s)[6] == BeginShutDown(c, true) && Handler(d) in Holds(s, 6)
            && (forall k: nat, x: Continuation :: BeginsAt(s, k, x) <==> k == 6 && x == c)
            && (forall k: nat :: k < 6 && Request(s, k).Some? ==>
                  (Request(s, k).value == Shared(d) || Request(s, k).value == Handler(d))
                  && Request(s, k).value !in Holds(s, k))
  {
    var s := RunMessage(Partner(d, c));
    PartnerTrace(d, c);
    assert Once([s]) by {
      assert forall k: nat, x: Continuation :: BeginsAt(s, k, x) ==> k == 6;
    }
    forall k: nat | k < 6 && Request(s, k).Some? ensures Request(s, k).value !in Holds(s, k) {
      NoSelfWait(s, k);
    }
    assert Trace(s)[..6] == QuietSection(d) + [UserCode, Acquire(Handler(d)), UserCode];
    Entered(d);
  }

  lemma {:induction false} Entered(d: Continuation)
    ensures HeldAfter(QuietSection(d) + [UserCode, Acquire(Handler(d)), UserCode], multiset{}) == multiset{Handler(d)}
  {
    var enter: seq<Op> := [UserCode, Acquire(Handler(d)), UserCode];
    Concatenation(QuietSection(d), enter, multiset{});
    QuietNeutral(d, multiset{});
    assert enter[1..] == [Acquire(Handler(d)), UserCode] && enter[1..][1..] == [UserCode];
    assert [UserCode][1..] == [];
    assert HeldAfter([UserCode], multiset{Handler(d)}) == multiset{Handler(d)};
    assert HeldAfter(enter, multiset{}) == HeldAfter([UserCode], multiset{} + multiset{Handler(d)});
  }

  lemma {:induction false} HeldInHandler(m: Message, n: nat)
    requires n <= |EventTrace(m)|
    ensures Handler(Of(m)) in
            HeldAfter(BeforeHandler(m) + ([Acquire(Handler(Of(m)))] + EventTrace(m)[..n]), multiset{})
  {
    var enter := [Acquire(Handler(Of(m)))];
    MessageTraceNeutral(m);
    Concatenation(BeforeHandler(m), enter + EventTrace(m)[..n], multiset{});
    Concatenation(enter, EventTrace(m)[..n], multiset{});
    assert enter[1..] == [];
    assert HeldAfter(enter, multiset{}) == HeldAfter([], multiset{} + multiset{Handler(Of(m))});
    UserNeutral(m.onEvent, EventLoop(m.loop), multiset{});
    PrefixStructured(EventTrace(m), multiset{}, n);
    Frame(EventTrace(m)[..n], multiset{}, multiset{Handler(Of(m))});
  }

  lemma {:induction false} IndexOf(ops: seq<Op>, op: Op) returns (n: nat)
    requires op in ops
    ensures n < |ops| && ops[n] == op
  {
    n :| n < |ops| && ops[n] == op;
  }

  lemma {:induction false} EventAt(m: Message, n: nat)
    requires !m.isResponse && n < |EventTrace(m)|
    ensures var k := |BeforeHandler(m)| + 1 + n;
            && k < |MessageTrace(m)| && MessageTrace(m)[k] == EventTrace(m)[n]
            && MessageTrace(m)[..k] == BeforeHandler(m) + ([Acquire(Handler(Of(m)))] + EventTrace(m)[..n])
  {
    assert HandlerTrace(m)[n + 1] == EventTrace(m)[n];
  }

  lemma {:induction false} HeldAtEvent(m: Message, n: nat) returns (k: nat)
    requires !m.isResponse && n < |EventTrace(m)|
    ensures k < |MessageTrace(m)| && MessageTrace(m)[k] == EventTrace(m)[n]
    ensures Handler(Of(m)) in Holds(RunMessage(m), k)
  {
    k := |BeforeHandler(m)| + 1 + n;
    EventAt(m, n);
    HeldInHandler(m, n);
  }

  lemma {:induction false} EventsBegin(m: Message, d: Continuation)
    requires d.loop.Some? && d.loop != Some(m.loop) && AnyShutsDown(m.onEvent, d)
    ensures BeginShutDown(d, true) in EventTrace(m)
  {
    UserDescribed(m.onEvent, EventLoop(m.loop), d);
  }

  /** Where a crossing callback begins the ShutDown of `d`, it holds its own handler lock. */
  lemma {:induction false} CrossesAt(m: Message, d: Continuation) returns (k: nat)
    requires !m.isResponse && d.loop.Some? && d.loop != Some(m.loop) && AnyShutsDown(m.onEvent, d)
    ensures k < |MessageTrace(m)| && MessageTrace(m)[k] == BeginShutDown(d, true)
    ensures Handler(Of(m)) in Holds(RunMessage(m), k)
  {
    EventsBegin(m, d);
    var n := IndexOf(EventTrace(m), BeginShutDown(d, true));
    k := HeldAtEvent(m, n);
  }

  lemma {:induction false} PartnerUnhindered(m: Message, d: Continuation, k: nat)
    requires Once([RunMessage(m)]) && d.loop.Some? && d.loop != Some(m.loop)
    requires k < |MessageTrace(m)| && MessageTrace(m)[k] == BeginShutDown(d, true)
    ensures var starts := [RunMessage(m), RunMessage(Partner(d, Of(m)))];
            Positions(starts, [k, 0]) && Positions(starts, [k, 6]) && Unhindered(starts, [k, 0], 1, 6)
  {
    var s, partner := RunMessage(m), RunMessage(Partner(d, Of(m)));
    PartnerReady(d, Of(m));
    assert Request(s, k) == Some(Handler(d));
    HoldsAndWants(s, k);
    NoSelfWait(s, k);
    forall n: nat, j: nat | 0 <= n < 6 && j < 2 ensures Passes([s, partner], [k, 0], 1, n, j) {
    }
  }

  lemma {:induction false} AloneUnhindered(s: Start, partner: Start, k: nat)
    requires Once([s]) && k <= |Trace(s)|
    ensures Unhindered([s, partner], [0, 0], 0, k)
  {
    forall n: nat, j: nat | 0 <= n < k && j < 2 ensures Passes([s, partner], [0, 0], 0, n, j) {
      assert Trace(partner)[..0] == [];
      if Request(s, n).Some? {
        NoSelfWait(s, n);
      }
    }
  }

  /** The two threads get there: first the one, then its partner. */
  lemma {:induction false} PairRuns(m: Message, d: Continuation, k: nat) returns (schedule: seq<nat>)
    requires Once([RunMessage(m)]) && d.loop.Some? && d.loop != Some(m.loop)
    requires k < |MessageTrace(m)| && MessageTrace(m)[k] == BeginShutDown(d, true)
    ensures var starts := [RunMessage(m), RunMessage(Partner(d, Of(m)))];
            && Positions(starts, [k, 6]) && Allowed(starts, Beginning(starts), schedule)
            && After(starts, Beginning(starts), schedule) == [k, 6]
  {
    var starts := [RunMessage(m), RunMessage(Partner(d, Of(m)))];
    PartnerUnhindered(m, d, k);
    var middle: seq<nat>, end: seq<nat> := [k, 0], [k, 6];
    assert end == middle[1 := middle[1] + 6];
    var none: seq<nat> := [];
    assert Allowed(starts, end, none) && After(starts, end, none) == end;
    var second := RunsAhead(starts, middle, 1, 6, end, none);
    assert After(starts, middle, second) == end;
    schedule := FirstRuns(starts[0], starts[1], k, second);
  }

  lemma {:induction false} FirstRuns(s: Start, partner: Start, k: nat, second: seq<nat>) returns (schedule: seq<nat>)
    requires Once([s]) && k <= |Trace(s)| && Positions([s, partner], [k, 0])
    requires Allowed([s, partner], [k, 0], second)
    ensures Allowed([s, partner], Beginning([s, partner]), schedule)
    ensures After([s, partner], Beginning([s, partner]), schedule) == After([s, partner], [k, 0], second)
  {
    var begin: seq<nat>, middle: seq<nat> := Beginning([s, partner]), [k, 0];
    assert begin == [0, 0] && middle == begin[0 := begin[0] + k];
    AloneUnhindered(s, partner, k);
    schedule := RunsAhead([s, partner], begin, 0, k, middle, second);
  }

  /** Every crossing callback deadlocks with an event on another loop that shuts its continuation down in turn. */
  lemma {:induction false} CrossingDeadlocks(m: Message) returns (partner: Start, schedule: seq<nat>)
    requires Once([RunMessage(m)]) && Crossing(RunMessage(m))
    ensures var starts := [RunMessage(m), partner];
            && Once(starts) && Allowed(starts, Beginning(starts), schedule)
            && var at := After(starts, Beginning(starts), schedule);
               Ring(starts, at, [0, 1]) && forall i :: !CanStep(starts, at, i)
  {
    var d: Continuation :| d.loop.Some? && d.loop != Some(m.loop) && AnyShutsDown(m.onEvent, d);
    var k := CrossesAt(m, d);
    partner := RunMessage(Partner(d, Of(m)));
    var starts := [RunMessage(m), partner];
    PairOnce(m, d);
    schedule := PairRuns(m, d, k);
    PartnerReady(d, Of(m));
    assert WaitsFor(starts, [k, 6], 0, 1) && WaitsFor(starts, [k, 6], 1, 0);
  }

  lemma {:induction false} PairOnce(m: Message, d: Continuation)
    requires Once([RunMessage(m)]) && !MessageShutsDown(m, Of(m)) && d.loop.Some? && d.loop != Some(m.loop)
    ensures Once([RunMessage(m), RunMessage(Partner(d, Of(m)))])
  {
    var s, partner := RunMessage(m), RunMessage(Partner(d, Of(m)));
    PartnerReady(d, Of(m));
    MessageDescribed(m, Of(m));
    forall k: nat ensures !BeginsAt(s, k, Of(m)) {
      if BeginsAt(s, k, Of(m)) {
        assert false;
      }
    }
    var starts := [s, partner];
    forall i: nat, j: nat, k: nat, n: nat, c: Continuation
      | i < 2 && j < 2 && BeginsAt(starts[i], k, c) && BeginsAt(starts[j], n, c)
      ensures i == j && k == n
    {
      if i == 0 && j == 0 {
        assert BeginsAt([s][0], k, c) && BeginsAt([s][0], n, c);
      }
    }
  }

  /** There are other threads, and a schedule, that bring the thread into a ring of waiting threads. */
  ghost predicate CanDeadlock(s: Start) {
    exists others: seq<Start>, schedule: seq<nat> :: DeadlocksWith(s, others, schedule)
  }

  ghost predicate DeadlocksWith(s: Start, others: seq<Start>, schedule: seq<nat>) {
    var starts := [s] + others;
    && Once(starts) && Allowed(starts, Beginning(starts), schedule)
    && InRing(starts, After(starts, Beginning(starts), schedule), 0)
  }

  /** A call or callback can take part in a deadlock if and only if it is a crossing one. */
  lemma {:induction false} DeadlockExactly(s: Start)
    requires Once([s])
    ensures CanDeadlock(s) <==> Crossing(s)
  {
    if others, schedule :| DeadlocksWith(s, others, schedule) {
      var starts := [s] + others;
      var at := After(starts, Beginning(starts), schedule);
      var ring :| Ring(starts, at, ring) && 0 in ring;
      var k: nat :| k < |ring| && ring[k] == 0;
      RingCrosses(starts, at, ring, k);
    }
    if Crossing(s) {
      var partner, schedule := CrossingDeadlocks(s.m);
      assert [s] + [partner] == [s, partner];
      assert 0 in [0, 1];
      assert DeadlocksWith(s, [partner], schedule);
    }
  }
}
