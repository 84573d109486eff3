/**
 * The locks the continuations' methods take, as traces: m_streamHandlerLock and m_sharedStateLock of each continuation,
 * and the lock inside each flush container. User code runs inside callbacks and may call the public methods of any
 * continuation again, to any depth.
 */
module LockDiscipline {
  import opened Rpc

  /** A continuation and the event loop of its connection, if it has one. */
  datatype Continuation = Continuation(id: nat, loop: Option<nat>)

  datatype Lock = Handler(c: Continuation) | Shared(c: Continuation) | Container(container: nat)

  /**
   * BeginShutDown is the start of ShutDown, which takes the handler lock first if `locks`. QuietCode runs under the
   * shared lock and takes no lock itself: the operation model's deserialisation, and the destructor of the result
   * callback that Activate's rollback drops.
   */
  datatype Op =
    | Acquire(l: Lock)
    | BeginShutDown(c: Continuation, locks: bool)
    | Release(l: Lock)
    | UserCode
    | QuietCode

  datatype ThreadKind = UserThread | EventLoop(loop: nat)

  /**
   * What runs on a thread without taking a handler lock first, with the calls made inside it.
   *
   * Submit is Activate, SendStreamMessage or Close: `inside` is what the C layer calls back while the C call is still
   * running, `onFlush` what the flush callback does when the call fails. ShutDown destroys the stream handler, whose
   * destructor does `onDestroy`.
   */
  datatype Call =
    | Submit(c: Continuation, inside: seq<Call>, rolledBack: bool, fails: bool, container: nat, onFlush: seq<Call>)
    | ShutDown(c: Continuation, onDestroy: seq<Call>, taken: Taken, last: seq<Call>)
    | OnClosed(c: Continuation, taken: Taken)
    | OnFlushed(container: nat, onFlush: seq<Call>)

  /** The callbacks that OnClosed and ShutDown take out of the shared state and invoke. */
  datatype Taken = Taken(
    onResult: seq<Call>,
    activation: nat, onActivateFlush: seq<Call>,
    close: nat, onCloseFlush: seq<Call>)

  /** OnMessage, on the event loop of its continuation's connection; `onEvent` is what the stream handler does, and its
      destructor if it is destroyed there. */
  datatype Message =
    Message(id: nat, loop: nat, isResponse: bool, onResult: seq<Call>, onEvent: seq<Call>, closeCalls: seq<Call>)

  function Of(m: Message): Continuation {
    Continuation(m.id, Some(m.loop))
  }

  /* ----- traces ----- */

  function Locked(l: Lock): seq<Op> {
    [Acquire(l), Release(l)]
  }

  /** A shared-state section in which something is destroyed or deserialised. */
  function QuietSection(c: Continuation): seq<Op> {
    [Acquire(Shared(c)), QuietCode, Release(Shared(c))]
  }

  function UserTrace(calls: seq<Call>, on: ThreadKind): seq<Op>
    decreases calls, 1
  {
    [UserCode] + CallTraces(calls, on)
  }

  /** OnMessageFlushCallbackContainer::Complete, running the user's flush callback after its lock. */
  function CompleteTrace(container: nat, onFlush: seq<Call>, on: ThreadKind): seq<Op>
    decreases onFlush, 2
  {
    Locked(Container(container)) + UserTrace(onFlush, on)
  }

  function TakenTrace(taken: Taken, on: ThreadKind): seq<Op>
    decreases taken
  {
    UserTrace(taken.onResult, on)
    + CompleteTrace(taken.activation, taken.onActivateFlush, on)
    + CompleteTrace(taken.close, taken.onCloseFlush, on)
  }

  /** ShutDown takes the handler lock unless it runs on the continuation's own event loop. */
  predicate TakesHandlerLock(c: Continuation, on: ThreadKind) {
    c.loop.Some? && on != EventLoop(c.loop.value)
  }

  /** The first part of ShutDown; without an event loop the handler is not even cleared. */
  function ClearTrace(c: Continuation, onDestroy: seq<Call>, on: ThreadKind): seq<Op>
    decreases onDestroy, 2
  {
    [BeginShutDown(c, TakesHandlerLock(c, on))]
    + (if c.loop.Some? then UserTrace(onDestroy, on) else [])
    + (if TakesHandlerLock(c, on) then [Release(Handler(c))] else [])
  }

  function CallTrace(call: Call, on: ThreadKind): seq<Op>
    decreases call
  {
    match call
    case Submit(c, inside, rolledBack, fails, container, onFlush) =>
      Locked(Shared(c)) + CallTraces(inside, on)
      + (if rolledBack then QuietSection(c) else [])
      + (if fails then CompleteTrace(container, onFlush, on) else [])
    case ShutDown(c, onDestroy, taken, last) =>
      ClearTrace(c, onDestroy, on) + Locked(Shared(c)) + TakenTrace(taken, on) + CallTraces(last, on)
    case OnClosed(c, taken) => Locked(Shared(c)) + TakenTrace(taken, on)
    case OnFlushed(container, onFlush) => CompleteTrace(container, onFlush, on)
  }

  function CallTraces(calls: seq<Call>, on: ThreadKind): seq<Op>
    decreases calls, 0
  {
    if calls == [] then [] else CallTrace(calls[0], on) + CallTraces(calls[1..], on)
  }

  function BeforeHandler(m: Message): seq<Op> {
    QuietSection(Of(m)) + UserTrace(m.onResult, EventLoop(m.loop))
  }

  function EventTrace(m: Message): seq<Op> {
    UserTrace(m.onEvent, EventLoop(m.loop))
  }

  function HandlerTrace(m: Message): seq<Op> {
    if m.isResponse then [] else [Acquire(Handler(Of(m)))] + EventTrace(m) + [Release(Handler(Of(m)))]
  }

  function AfterHandler(m: Message): seq<Op> {
    CallTraces(m.closeCalls, EventLoop(m.loop))
  }

  function MessageTrace(m: Message): seq<Op> {
    BeforeHandler(m) + HandlerTrace(m) + AfterHandler(m)
  }

  /* ----- the discipline ----- */

  function Effect(op: Op, held: multiset<Lock>): multiset<Lock> {
    match op
    case Acquire(l) => held + multiset{l}
    case BeginShutDown(c, locks) => if locks then held + multiset{Handler(c)} else held
    case Release(l) => held - multiset{l}
    case UserCode => held
    case QuietCode => held
  }

  function HeldAfter(ops: seq<Op>, held: multiset<Lock>): multiset<Lock>
    decreases |ops|
  {
    if ops == [] then held else HeldAfter(ops[1..], Effect(ops[0], held))
  }

  predicate OnlyHandlers(held: multiset<Lock>) {
    forall l | l in held :: l.Handler?
  }

  /** OnMessage takes its handler lock with no lock held; ShutDown and all others take theirs, and user code runs, with
      at most handler locks held. */
  predicate Fits(op: Op, held: multiset<Lock>) {
    match op
    case Acquire(l) => if l.Handler? then held == multiset{} else OnlyHandlers(held)
    case BeginShutDown(_, _) => OnlyHandlers(held)
    case Release(l) => l in held
    case UserCode => OnlyHandlers(held)
    case QuietCode => true
  }

  predicate Structured(ops: seq<Op>, held: multiset<Lock>)
    decreases |ops|
  {
    ops == [] || (Fits(ops[0], held) && Structured(ops[1..], Effect(ops[0], held)))
  }

  /** Keeps the discipline and gives back every lock it took. */
  predicate Neutral(ops: seq<Op>, held: multiset<Lock>) {
    Structured(ops, held) && HeldAfter(ops, held) == held
  }

  lemma {:induction false} Concatenation(first: seq<Op>, second: seq<Op>, held: multiset<Lock>)
    ensures Structured(first + second, held)
            <==> Structured(first, held) && Structured(second, HeldAfter(first, held))
    ensures HeldAfter(first + second, held) == HeldAfter(second, HeldAfter(first, held))
    decreases |first|
  {
    if first == [] {
      assert first + second == second;
    } else {
      assert (first + second)[1..] == first[1..] + second;
      Concatenation(first[1..], second, Effect(first[0], held));
    }
  }

  lemma {:induction false} Append(first: seq<Op>, second: seq<Op>, held: multiset<Lock>)
    requires Neutral(first, held) && Neutral(second, held)
    ensures Neutral(first + second, held)
  {
    Concatenation(first, second, held);
  }

  lemma {:induction false} LockedNeutral(l: Lock, held: multiset<Lock>)
    requires OnlyHandlers(held) && !l.Handler?
    ensures Neutral(Locked(l), held)
  {
    assert Locked(l)[1..] == [Release(l)] && [Release(l)][1..] == [];
    assert held + multiset{l} - multiset{l} == held;
    assert HeldAfter([Release(l)], held + multiset{l}) == held && Structured([Release(l)], held + multiset{l});
  }

  lemma {:induction false} QuietNeutral(c: Continuation, held: multiset<Lock>)
    requires OnlyHandlers(held)
    ensures Neutral(QuietSection(c), held)
  {
    var l, inner := Shared(c), held + multiset{Shared(c)};
    assert QuietSection(c)[1..] == [QuietCode, Release(l)] && [QuietCode, Release(l)][1..] == [Release(l)];
    assert [Release(l)][1..] == [];
    assert inner - multiset{l} == held;
    assert HeldAfter([Release(l)], inner) == held && Structured([Release(l)], inner);
    assert HeldAfter([QuietCode, Release(l)], inner) == held && Structured([QuietCode, Release(l)], inner);
  }

  lemma {:induction false} UserNeutral(calls: seq<Call>, on: ThreadKind, held: multiset<Lock>)
    requires OnlyHandlers(held)
    ensures Neutral(UserTrace(calls, on), held)
    decreases calls, 1
  {
    CallTracesNeutral(calls, on, held);
    assert UserTrace(calls, on)[1..] == CallTraces(calls, on);
  }

  lemma {:induction false} CompleteNeutral(
    container: nat, onFlush: seq<Call>, on: ThreadKind, held: multiset<Lock>)
    requires OnlyHandlers(held)
    ensures Neutral(CompleteTrace(container, onFlush, on), held)
    decreases onFlush, 2
  {
    LockedNeutral(Container(container), held);
    UserNeutral(onFlush, on, held);
    Append(Locked(Container(container)), UserTrace(onFlush, on), held);
  }

  lemma {:induction false} TakenNeutral(taken: Taken, on: ThreadKind, held: multiset<Lock>)
    requires OnlyHandlers(held)
    ensures Neutral(TakenTrace(taken, on), held)
    decreases taken
  {
    var result := UserTrace(taken.onResult, on);
    var activation := CompleteTrace(taken.activation, taken.onActivateFlush, on);
    UserNeutral(taken.onResult, on, held);
    CompleteNeutral(taken.activation, taken.onActivateFlush, on, held);
    CompleteNeutral(taken.close, taken.onCloseFlush, on, held);
    Append(result, activation, held);
    Append(result + activation, CompleteTrace(taken.close, taken.onCloseFlush, on), held);
  }

  /** A section between taking a lock and giving it back. */
  lemma {:induction false} SectionNeutral(take: Op, body: seq<Op>, l: Lock, held: multiset<Lock>)
    requires Fits(take, held) && Effect(take, held) == held + multiset{l} && Neutral(body, held + multiset{l})
    ensures Neutral([take] + body + [Release(l)], held)
  {
    var inner := held + multiset{l};
    assert [take][1..] == [] && [Release(l)][1..] == [];
    assert HeldAfter([take], held) == HeldAfter([], inner) == inner && Structured([take], held);
    Concatenation([take], body, held);
    assert inner - multiset{l} == held;
    assert HeldAfter([Release(l)], inner) == HeldAfter([], held) == held && Structured([Release(l)], inner);
    Concatenation([take] + body, [Release(l)], held);
  }

  lemma {:induction false} ClearNeutral(c: Continuation, onDestroy: seq<Call>, on: ThreadKind, held: multiset<Lock>)
    requires OnlyHandlers(held)
    ensures Neutral(ClearTrace(c, onDestroy, on), held)
    decreases onDestroy, 2
  {
    var take := BeginShutDown(c, TakesHandlerLock(c, on));
    if TakesHandlerLock(c, on) {
      UserNeutral(onDestroy, on, held + multiset{Handler(c)});
      SectionNeutral(take, UserTrace(onDestroy, on), Handler(c), held);
    } else {
      var user: seq<Op> := if c.loop.Some? then UserTrace(onDestroy, on) else [];
      UserNeutral(onDestroy, on, held);
      assert ([take] + user + [])[1..] == user;
    }
  }

  /** Every public call, and every callback the C layer may make in the middle of one, keeps the discipline, from user
      code as well as from inside any callback. */
  lemma {:induction false} CallTraceNeutral(call: Call, on: ThreadKind, held: multiset<Lock>)
    requires OnlyHandlers(held)
    ensures Neutral(CallTrace(call, on), held)
    decreases call
  {
    match call
    case Submit(c, inside, rolledBack, fails, container, onFlush) =>
      LockedNeutral(Shared(c), held);
      QuietNeutral(c, held);
      CallTracesNeutral(inside, on, held);
      CompleteNeutral(container, onFlush, on, held);
      var start := Locked(Shared(c)) + CallTraces(inside, on);
      var rollback: seq<Op> := if rolledBack then QuietSection(c) else [];
      Append(Locked(Shared(c)), CallTraces(inside, on), held);
      Append(start, rollback, held);
      Append(start + rollback, if fails then CompleteTrace(container, onFlush, on) else [], held);
    case ShutDown(c, onDestroy, taken, last) =>
      var clear := ClearTrace(c, onDestroy, on);
      ClearNeutral(c, onDestroy, on, held);
      LockedNeutral(Shared(c), held);
      TakenNeutral(taken, on, held);
      CallTracesNeutral(last, on, held);
      Append(clear, Locked(Shared(c)), held);
      Append(clear + Locked(Shared(c)), TakenTrace(taken, on), held);
      Append(clear + Locked(Shared(c)) + TakenTrace(taken, on), CallTraces(last, on), held);
    case OnClosed(c, taken) =>
      LockedNeutral(Shared(c), held);
      TakenNeutral(taken, on, held);
      Append(Locked(Shared(c)), TakenTrace(taken, on), held);
    case OnFlushed(container, onFlush) => CompleteNeutral(container, onFlush, on, held);
  }

  lemma {:induction false} CallTracesNeutral(calls: seq<Call>, on: ThreadKind, held: multiset<Lock>)
    requires OnlyHandlers(held)
    ensures Neutral(CallTraces(calls, on), held)
    decreases calls, 0
  {
    if calls != [] {
      CallTraceNeutral(calls[0], on, held);
      CallTracesNeutral(calls[1..], on, held);
      Append(CallTrace(calls[0], on), CallTraces(calls[1..], on), held);
    }
  }

  /** The same for OnMessage, and for its part up to the end of the handler section. */
  lemma {:induction false} MessageTraceNeutral(m: Message)
    ensures Neutral(BeforeHandler(m), multiset{}) && Neutral(BeforeHandler(m) + HandlerTrace(m), multiset{})
    ensures Neutral(MessageTrace(m), multiset{})
  {
    var on := EventLoop(m.loop);
    QuietNeutral(Of(m), multiset{});
    UserNeutral(m.onResult, on, multiset{});
    Append(QuietSection(Of(m)), UserTrace(m.onResult, on), multiset{});
    if !m.isResponse {
      UserNeutral(m.onEvent, on, multiset{} + multiset{Handler(Of(m))});
      SectionNeutral(Acquire(Handler(Of(m))), EventTrace(m), Handler(Of(m)), multiset{});
    }
    Append(BeforeHandler(m), HandlerTrace(m), multiset{});
    CallTracesNeutral(m.closeCalls, on, multiset{});
    Append(BeforeHandler(m) + HandlerTrace(m), AfterHandler(m), multiset{});
  }

  lemma {:induction false} FitsAt(ops: seq<Op>, held: multiset<Lock>, k: nat)
    requires Structured(ops, held) && k < |ops|
    ensures Fits(ops[k], HeldAfter(ops[..k], held))
    decreases k
  {
    if k == 0 {
      assert ops[..0] == [];
    } else {
      FitsAt(ops[1..], Effect(ops[0], held), k - 1);
      assert ops[..k][1..] == ops[1..][..k - 1];
    }
  }

  lemma {:induction false} FrameStep(op: Op, held: multiset<Lock>, more: multiset<Lock>)
    requires Fits(op, held)
    ensures Effect(op, held + more) == Effect(op, held) + more
  {
  }

  /** A trace never gives back more than it took. */
  lemma {:induction false} Frame(ops: seq<Op>, held: multiset<Lock>, more: multiset<Lock>)
    requires Structured(ops, held)
    ensures HeldAfter(ops, held + more) == HeldAfter(ops, held) + more
    decreases |ops|
  {
    if ops != [] {
      FrameStep(ops[0], held, more);
      Frame(ops[1..], Effect(ops[0], held), more);
    }
  }

  lemma {:induction false} PrefixStructured(ops: seq<Op>, held: multiset<Lock>, k: nat)
    requires Structured(ops, held) && k <= |ops|
    ensures Structured(ops[..k], held)
  {
    assert ops == ops[..k] + ops[k..];
    Concatenation(ops[..k], ops[k..], held);
  }

  /** Where a handler lock that is held was taken. */
  lemma {:induction false} TakenAt(ops: seq<Op>, held: multiset<Lock>, c: Continuation)
    requires Handler(c) in HeldAfter(ops, held) && Handler(c) !in held
    ensures Acquire(Handler(c)) in ops || BeginShutDown(c, true) in ops
    decreases |ops|
  {
    assert ops != [];
    if Handler(c) !in Effect(ops[0], held) {
      TakenAt(ops[1..], Effect(ops[0], held), c);
      assert forall op | op in ops[1..] :: op in ops;
    } else {
      assert ops[0] == Acquire(Handler(c)) || ops[0] == BeginShutDown(c, true);
    }
  }

  /** The traces in full, with user code that calls nothing. */
  lemma {:induction false} TracesSpelledOut(c: Continuation, on: ThreadKind, k: nat, n: nat)
    ensures CallTrace(Submit(c, [], false, false, k, []), on) == [Acquire(Shared(c)), Release(Shared(c))]
    ensures CallTrace(Submit(c, [], true, true, k, []), on)
            == [Acquire(Shared(c)), Release(Shared(c)), Acquire(Shared(c)), QuietCode, Release(Shared(c)),
                Acquire(Container(k)), Release(Container(k)), UserCode]
    ensures CallTrace(OnFlushed(k, []), on) == [Acquire(Container(k)), Release(Container(k)), UserCode]
    ensures CallTrace(OnClosed(c, Taken([], k, [], n, [])), on)
            == [Acquire(Shared(c)), Release(Shared(c)), UserCode,
                Acquire(Container(k)), Release(Container(k)), UserCode,
                Acquire(Container(n)), Release(Container(n)), UserCode]
    ensures c.loop == Some(k) ==>
              CallTrace(ShutDown(c, [], Taken([], k, [], n, []), []), EventLoop(k))
              == [BeginShutDown(c, false), UserCode, Acquire(Shared(c)), Release(Shared(c)), UserCode,
                  Acquire(Container(k)), Release(Container(k)), UserCode,
                  Acquire(Container(n)), Release(Container(n)), UserCode]
  {
    IdleUserCode(on, k);
    IdleUserCode(on, n);
    IdleUserCode(EventLoop(k), k);
    IdleUserCode(EventLoop(k), n);
  }

  lemma {:induction false} IdleUserCode(on: ThreadKind, k: nat)
    ensures CallTraces([], on) == [] && UserTrace([], on) == [UserCode]
    ensures CompleteTrace(k, [], on) == [Acquire(Container(k)), Release(Container(k)), UserCode]
  {
  }

  lemma {:induction false} MessagesSpelledOut(id: nat, loop: nat)
    ensures var c := Continuation(id, Some(loop));
            && MessageTrace(Message(id, loop, true, [], [], []))
               == [Acquire(Shared(c)), QuietCode, Release(Shared(c)), UserCode]
            && MessageTrace(Message(id, loop, false, [], [], []))
               == [Acquire(Shared(c)), QuietCode, Release(Shared(c)), UserCode,
                   Acquire(Handler(c)), UserCode, Release(Handler(c))]
  {
    IdleUserCode(EventLoop(loop), 0);
  }
}
