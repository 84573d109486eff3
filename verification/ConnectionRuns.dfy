/** What holds over every run of the connection: any interleaving of calls, unlocked windows and C callbacks. */
module ConnectionRuns {
  import opened Rpc
  import opened FlushContainer
  import opened ConnectionProtocol

  predicate Legal(s: System, steps: seq<Step>)
    decreases |steps|
  {
    steps == [] || (Enabled(s, steps[0]) && Legal(Apply(s, steps[0]), steps[1..]))
  }

  function RunFrom(s: System, steps: seq<Step>): System
    requires Legal(s, steps)
    decreases |steps|
  {
    if steps == [] then s else RunFrom(Apply(s, steps[0]), steps[1..])
  }

  lemma {:induction false} RunKeepsInv(s: System, steps: seq<Step>)
    requires Inv(s) && Legal(s, steps)
    ensures Inv(RunFrom(s, steps))
    decreases |steps|
  {
    if steps != [] {
      InvKept(s, steps[0]);
      RunKeepsInv(Apply(s, steps[0]), steps[1..]);
    }
  }

  lemma {:induction false} RunOneMore(s: System, steps: seq<Step>, step: Step)
    requires Legal(s, steps) && Enabled(RunFrom(s, steps), step)
    ensures Legal(s, steps + [step]) && RunFrom(s, steps + [step]) == Apply(RunFrom(s, steps), step)
    decreases |steps|
  {
    if steps == [] {
      assert [step][1..] == [];
    } else {
      RunOneMore(Apply(s, steps[0]), steps[1..], step);
      assert (steps + [step])[1..] == steps[1..] + [step];
    }
  }

  ghost predicate Reachable(s: System) {
    exists steps :: Legal(INITIAL, steps) && RunFrom(INITIAL, steps) == s
  }

  lemma {:induction false} ReachOneMore(s: System, step: Step)
    requires Reachable(s) && Enabled(s, step)
    ensures Reachable(Apply(s, step))
  {
    var steps :| Legal(INITIAL, steps) && RunFrom(INITIAL, steps) == s;
    RunOneMore(INITIAL, steps, step);
  }

  /** What the C layer and the user are free to do, in every state. */
  lemma {:induction false} NothingIsPromised(s: System, code: Failure, endCode: CrtCode, accepted: bool, flush: bool)
    ensures Enabled(s, Close(false)) && (!s.sh.hasShutDown ==> Enabled(s, Close(true)))
    ensures s.sh.current == Disconnected && !s.sh.hasShutDown ==> Enabled(s, Connect)
    ensures s.c == ConnectCall ==> Enabled(s, ConnectCallSucceeds) && Enabled(s, ConnectCallFails(code))
    ensures s.c == SetupDue ==> Enabled(s, SetupSucceeds(flush)) && Enabled(s, SetupFails(code))
    ensures s.sending ==> Enabled(s, SendSucceeds) && Enabled(s, SendFails(code))
    ensures s.c == Channel && !s.sending ==> Enabled(s, Ack(accepted)) && Enabled(s, ChannelShutdown(endCode))
  {
  }

  /** The promise of an accepted Connect is completed once its attempt is over or Shutdown has run, never twice, and
      with SUCCESS exactly when the attempt entered Connected. */
  lemma {:induction false} PromiseResolvedOnce(steps: seq<Step>, a: Attempt)
    requires Legal(INITIAL, steps)
    ensures var s := RunFrom(INITIAL, steps);
            var values := PromiseValues(s.history, a);
            && |values| <= 1
            && (0 < a <= s.attempt ==>
                  (values == [] <==> a == s.attempt && s.sh.current != Disconnected && !s.sh.hasShutDown
                                     && !EnteredConnected(s.history, a)))
            && (values != [] ==> (values[0].baseStatus == Success <==> EnteredConnected(s.history, a)))
  {
    InitialInv();
    RunKeepsInv(INITIAL, steps);
    assert Accounted(RunFrom(INITIAL, steps), a);
  }

  /** An attempt that entered Connected gets one disconnect callback, when it ends or at Shutdown; no other attempt
      gets one. */
  lemma {:induction false} DisconnectCallbackOnce(steps: seq<Step>, a: Attempt)
    requires Legal(INITIAL, steps)
    ensures var s := RunFrom(INITIAL, steps);
            var errors := DisconnectErrors(s.history, a);
            && |errors| <= 1
            && (errors != [] <==> EnteredConnected(s.history, a)
                                  && (a < s.attempt || s.sh.current == Disconnected || s.sh.hasShutDown))
  {
    InitialInv();
    RunKeepsInv(INITIAL, steps);
    var s := RunFrom(INITIAL, steps);
    assert Accounted(s, a);
    if EnteredConnected(s.history, a) {
      assert PromiseValues(s.history, a) != [];
    }
  }

  /** The error delivered is the first one recorded since the attempt began or, for a disconnect, since it entered
      Connected. `h` is any moment of the run at which a context was handed out. */
  lemma {:induction false} FirstErrorWins(steps: seq<Step>, before: History, ctx: Context)
    requires Legal(INITIAL, steps)
    requires Occurs(Then(before, HandedOut(ctx)), RunFrom(INITIAL, steps).history)
    ensures ctx.error == FirstError(Recordings(before))
  {
    InitialInv();
    RunKeepsInv(INITIAL, steps);
    DeliveredAt(Then(before, HandedOut(ctx)), RunFrom(INITIAL, steps).history);
  }

  /** `part` is an earlier moment of `whole`, or `whole` itself. */
  ghost predicate Occurs(part: History, whole: History) {
    part == whole || (whole.Then? && Occurs(part, whole.before))
  }

  lemma {:induction false} DeliveredAt(part: History, whole: History)
    requires Occurs(part, whole) && FirstErrorsDelivered(whole)
    ensures FirstErrorsDelivered(part)
  {
    if part != whole {
      DeliveredAt(part, whole.before);
    }
  }

  /** The fatal asserts of s_onConnectionSetup hold, and the binding object is alive, whenever the C layer calls in. */
  lemma {:induction false} CallbacksFindTheirState(steps: seq<Step>)
    requires Legal(INITIAL, steps)
    ensures var s := RunFrom(INITIAL, steps);
            && (s.c == SetupDue ==>
                  && s.sh.current == PendingConnect
                  && s.sh.connectFlush == None
                  && (s.sh.desired != Connected ==> s.sh.desired == Disconnected))
            && (s.c != NoConnection ==> s.sh.selfReference)
            && (s.sh.underlying.Some? <==>
                  s.sh.current == PendingConnack || s.sh.current == Connected || s.sh.current == Disconnecting)
            && (s.sh.connectFlush.Some? ==> s.sh.underlying.Some?)
  {
    InitialInv();
    RunKeepsInv(INITIAL, steps);
  }

  /** References to every C connection balance, so a close or a send is only ever made on a connection the binding
      still holds, and none is held once the client is Disconnected with nothing in flight. */
  lemma {:induction false} ReferencesConserved(steps: seq<Step>, h: Attempt)
    requires Legal(INITIAL, steps)
    ensures var s := RunFrom(INITIAL, steps);
            && s.refs[h] == (if s.sh.underlying == Some(h) then 1 else 0)
                            + (if s.sending && h == s.attempt then 1 else 0) + s.closing[h]
            && (h in s.closing ==> s.refs[h] > 0)
            && (s.sending ==> s.refs[s.attempt] > 0)
            && (s.sh.current == Disconnected && s.closing == multiset{} ==> s.refs == multiset{})
  {
    InitialInv();
    RunKeepsInv(INITIAL, steps);
    var s := RunFrom(INITIAL, steps);
    assert Balanced(s, h) && Balanced(s, s.attempt);
    if s.sh.current == Disconnected && s.closing == multiset{} {
      forall x: Attempt ensures s.refs[x] == 0 {
        assert Balanced(s, x);
      }
      assert s.refs == multiset{};
    }
  }

  /** Over every run, a connection that is Disconnecting has its C connection closed, or some thread holds a reference
      and is about to close it. */
  lemma {:induction false} DisconnectingIsClosed(steps: seq<Step>)
    requires Legal(INITIAL, steps) && RunFrom(INITIAL, steps).sh.current == Disconnecting
    ensures var s := RunFrom(INITIAL, steps);
            s.attempt in s.closed || (s.attempt in s.closing && s.refs[s.attempt] > 0)
  {
    InitialInv();
    RunKeepsInv(INITIAL, steps);
    assert Balanced(RunFrom(INITIAL, steps), RunFrom(INITIAL, steps).attempt);
  }

  /* ----- a close is never lost ----- */

  lemma {:induction false} ClosedStaysOut(s: System, steps: seq<Step>, a: Attempt)
    requires Inv(s) && Legal(s, steps)
    requires ClosedOrOver(s, a)
    ensures EnteredConnected(RunFrom(s, steps).history, a) == EnteredConnected(s.history, a)
    decreases |steps|
  {
    if steps != [] {
      var t := Apply(s, steps[0]);
      InvKept(s, steps[0]);
      ClosedStep(s, steps[0], a);
      ClosedStaysOut(t, steps[1..], a);
    }
  }

  ghost predicate ClosedOrOver(s: System, a: Attempt) {
    && 0 < a <= s.attempt
    && (a == s.attempt ==> s.sh.current == Disconnected || CloseRequestedInAttempt(s.history))
  }

  lemma {:induction false} ClosedAck(s: System, accepted: bool, a: Attempt)
    requires StateInv(s) && ContextInv(s) && Enabled(s, Ack(accepted)) && ClosedOrOver(s, a)
    ensures ClosedOrOver(DoAck(s, accepted), a)
    ensures EnteredConnected(DoAck(s, accepted).history, a) == EnteredConnected(s.history, a)
  {
    if AckConnects(s.sh, accepted) {
      var entered := Then(s.history, Entered(s.attempt));
      assert DoAck(s, accepted).history == Then(entered, HandedOut(AckSection(s.sh, accepted).1));
      assert EnteredConnected(entered, a) == EnteredConnected(s.history, a);
    }
  }

  lemma {:induction false} ClosedClose(s: System, isShutdown: bool, a: Attempt)
    requires ClosedOrOver(s, a)
    ensures ClosedOrOver(DoClose(s, isShutdown), a)
    ensures EnteredConnected(DoClose(s, isShutdown).history, a) == EnteredConnected(s.history, a)
  {
    assert CloseRequestedInAttempt(Then(s.history, CloseRequested));
  }

  lemma {:induction false} ClosedDisconnect(s: System, cause: Cause, a: Attempt)
    requires ClosedOrOver(s, a)
    ensures ClosedOrOver(DoDisconnect(s, cause), a)
    ensures EnteredConnected(DoDisconnect(s, cause).history, a) == EnteredConnected(s.history, a)
  {
  }

  lemma {:induction false} ClosedStep(s: System, step: Step, a: Attempt)
    requires StateInv(s) && ContextInv(s) && Enabled(s, step) && ClosedOrOver(s, a)
    ensures ClosedOrOver(Apply(s, step), a)
    ensures EnteredConnected(Apply(s, step).history, a) == EnteredConnected(s.history, a)
  {
    match step
    case ConnectCallFails(code) => ClosedDisconnect(s, ConnectCallFailed(code), a);
    case SetupFails(code) => ClosedDisconnect(s, SetupError(code), a);
    case ChannelShutdown(code) => ClosedDisconnect(s, ChannelEnded(code), a);
    case Ack(accepted) => ClosedAck(s, accepted, a);
    case Close(isShutdown) => ClosedClose(s, isShutdown, a);
    case _ =>
  }

  /** Once Close or Shutdown has run during an attempt, that attempt never enters Connected afterwards, not even when
      the close came before the C connection existed. */
  lemma {:induction false} CloseIsNeverLost(before: seq<Step>, isShutdown: bool, after: seq<Step>)
    requires Legal(INITIAL, before) && Enabled(RunFrom(INITIAL, before), Close(isShutdown))
    requires RunFrom(INITIAL, before).attempt > 0
    requires Legal(DoClose(RunFrom(INITIAL, before), isShutdown), after)
    ensures var s := RunFrom(INITIAL, before);
            EnteredConnected(RunFrom(DoClose(s, isShutdown), after).history, s.attempt)
            == EnteredConnected(s.history, s.attempt)
  {
    InitialInv();
    RunKeepsInv(INITIAL, before);
    var s := RunFrom(INITIAL, before);
    var t := DoClose(s, isShutdown);
    CloseKept(s, isShutdown);
    assert CloseRequestedInAttempt(Then(s.history, CloseRequested));
    ClosedStaysOut(t, after, s.attempt);
  }

  /* ----- states only move forward ----- */

  /** How many states lie ahead of the running attempt. */
  function Ahead(state: ClientState): nat {
    match state
    case PendingConnect => 4
    case PendingConnack => 3
    case Connected => 2
    case Disconnecting => 1
    case Disconnected => 0
  }

  function StateChanges(s: System, steps: seq<Step>): nat
    requires Legal(s, steps)
    decreases |steps|
  {
    if steps == [] then 0 else
      var t := Apply(s, steps[0]);
      (if t.sh.current != s.sh.current then 1 else 0) + StateChanges(t, steps[1..])
  }

  lemma {:induction false} StepMovesForward(s: System, step: Step)
    requires StateInv(s) && Enabled(s, step)
    ensures var t := Apply(s, step);
            if step == Connect then Ahead(t.sh.current) == 4 && Ahead(s.sh.current) == 0 && t.attempt == s.attempt + 1
            else t.attempt == s.attempt && (t.sh.current == s.sh.current || Ahead(t.sh.current) < Ahead(s.sh.current))
  {
  }

  /** Each attempt changes state at most five times, its Connect included. */
  lemma {:induction false} StateChangesBounded(s: System, steps: seq<Step>)
    requires Inv(s) && Legal(s, steps)
    ensures var t := RunFrom(s, steps);
            StateChanges(s, steps) + Ahead(t.sh.current) + 5 * s.attempt <= Ahead(s.sh.current) + 5 * t.attempt
    decreases |steps|
  {
    if steps != [] {
      StepMovesForward(s, steps[0]);
      InvKept(s, steps[0]);
      StateChangesBounded(Apply(s, steps[0]), steps[1..]);
    }
  }

  /* ----- silence after Shutdown ----- */

  lemma {:induction false} ShutStep(s: System, step: Step)
    requires Inv(s) && Enabled(s, step) && s.sh.hasShutDown
    ensures var t := Apply(s, step);
            t.sh.hasShutDown && HandOuts(t.history) == HandOuts(s.history) && t.attempt == s.attempt
  {
  }

  lemma {:induction false} ShutRun(s: System, steps: seq<Step>)
    requires Inv(s) && Legal(s, steps) && s.sh.hasShutDown
    ensures var t := RunFrom(s, steps);
            && t.sh.hasShutDown && t.attempt == s.attempt
            && HandOuts(t.history) == HandOuts(s.history)
            && t.sh.current != Connected
    decreases |steps|
  {
    if steps != [] {
      ShutStep(s, steps[0]);
      InvKept(s, steps[0]);
      ShutRun(Apply(s, steps[0]), steps[1..]);
    }
  }

  /** After Shutdown's locked section no locked section hands out a callback and Connected is out of reach; Shutdown
      itself hands out at most one. */
  lemma {:induction false} ShutdownIsSilent(before: seq<Step>, after: seq<Step>)
    requires Legal(INITIAL, before) && Enabled(RunFrom(INITIAL, before), Close(true))
    requires Legal(DoClose(RunFrom(INITIAL, before), true), after)
    ensures var s := RunFrom(INITIAL, before);
            var shut := DoClose(s, true);
            var t := RunFrom(shut, after);
            && HandOuts(t.history) == HandOuts(shut.history) <= HandOuts(s.history) + 1
            && t.sh.current != Connected
  {
    InitialInv();
    RunKeepsInv(INITIAL, before);
    CloseKept(RunFrom(INITIAL, before), true);
    ShutRun(DoClose(RunFrom(INITIAL, before), true), after);
  }

  /* ----- which user callback runs with the promise ----- */

  /** The causes recorded first that leave crtError at success while the attempt has failed. */
  predicate LooksSuccessful(causes: seq<Cause>) {
    causes != [] && (causes[0] == AckRejected || causes[0] == ChannelEnded(CrtSuccess))
  }

  /** A promise is handed out without an error exactly after its attempt entered Connected, and AckTooLate is never the
      first cause of an attempt that still owes its promise. */
  ghost predicate CausesSound(h: History) {
    match h
    case Start => true
    case Then(before, last) =>
      && CausesSound(before)
      && (last.HandedOut? && last.context.action == CompleteConnectPromise ==>
            && last.context.promise.Some?
            && last.context.onConnect == last.context.promise
            && (last.context.error.baseStatus == Success <==> EnteredConnected(before, last.context.promise.value))
            && (Recordings(before) != [] ==> Recordings(before)[0] != AckTooLate))
  }

  ghost predicate CauseInv(s: System) {
    && CausesSound(s.history)
    && (s.sh.context.action == CompleteConnectPromise && Recordings(s.history) != [] ==>
          Recordings(s.history)[0] != AckTooLate)
  }

  lemma {:induction false} CauseAck(s: System, accepted: bool)
    requires StateInv(s) && ContextInv(s) && CauseInv(s) && Enabled(s, Ack(accepted))
    ensures CauseInv(DoAck(s, accepted))
  {
    if AckConnects(s.sh, accepted) {
      assert Recordings(Then(s.history, Entered(s.attempt))) == [];
    }
  }

  lemma {:induction false} CauseDisconnect(s: System, cause: Cause)
    requires StateInv(s) && ContextInv(s) && CauseInv(s) && cause != AckTooLate
    ensures CauseInv(DoDisconnect(s, cause))
  {
  }

  lemma {:induction false} CauseClose(s: System, isShutdown: bool)
    requires StateInv(s) && ContextInv(s) && CauseInv(s)
    ensures CauseInv(DoClose(s, isShutdown))
  {
  }

  lemma {:induction false} CauseStep(s: System, step: Step)
    requires StateInv(s) && ContextInv(s) && CauseInv(s) && Enabled(s, step)
    ensures CauseInv(Apply(s, step))
  {
    match step
    case ConnectCallFails(code) => CauseDisconnect(s, ConnectCallFailed(code));
    case SetupFails(code) => CauseDisconnect(s, SetupError(code));
    case ChannelShutdown(code) => CauseDisconnect(s, ChannelEnded(code));
    case Ack(accepted) => CauseAck(s, accepted);
    case Close(isShutdown) => CauseClose(s, isShutdown);
    case _ =>
  }

  lemma {:induction false} CauseRun(s: System, steps: seq<Step>)
    requires Inv(s) && CauseInv(s) && Legal(s, steps)
    ensures CauseInv(RunFrom(s, steps))
    decreases |steps|
  {
    if steps != [] {
      CauseStep(s, steps[0]);
      InvKept(s, steps[0]);
      CauseRun(Apply(s, steps[0]), steps[1..]);
    }
  }

  lemma {:induction false} CauseAt(part: History, whole: History)
    requires Occurs(part, whole) && CausesSound(whole)
    ensures CausesSound(part)
  {
    if part != whole {
      CauseAt(part, whole.before);
    }
  }

  /** OnConnectCallback is documented to run only after an accepted CONNECT_ACK. It runs with a completed promise
      exactly when the attempt entered Connected, or failed with a rejected ACK or a clean end of the channel as the
      first thing that went wrong. */
  lemma {:induction false} ConnectCallbackExactly(steps: seq<Step>, before: History, ctx: Context)
    requires Legal(INITIAL, steps)
    requires Occurs(Then(before, HandedOut(ctx)), RunFrom(INITIAL, steps).history)
    requires ctx.action == CompleteConnectPromise
    ensures ctx.promise.Some?
    ensures ConnectCallback(ctx.promise.value) in InvokeCallbacks(ctx) <==>
            EnteredConnected(before, ctx.promise.value) || LooksSuccessful(Recordings(before))
  {
    InitialInv();
    RunKeepsInv(INITIAL, steps);
    CauseRun(INITIAL, steps);
    var whole := RunFrom(INITIAL, steps).history;
    DeliveredAt(Then(before, HandedOut(ctx)), whole);
    CauseAt(Then(before, HandedOut(ctx)), whole);
  }

  /** The last context handed out completes the promise of attempt `a` with ACCESS_DENIED and yet runs the callback
      meant for a connection that is ready. */
  ghost predicate Misreports(h: History, a: Attempt) {
    && h.Then? && h.last.HandedOut?
    && PromiseSet(a, RpcError(ConnectionAccessDenied, CrtSuccess)) in InvokeCallbacks(h.last.context)
    && ConnectCallback(a) in InvokeCallbacks(h.last.context)
    && !EnteredConnected(h, a)
  }

  function AwaitingAck(): System {
    DoSendSucceeds(DoSetup(DoConnect(INITIAL).(c := SetupDue), false))
  }

  lemma {:induction false} AwaitingAckReachable()
    ensures Reachable(AwaitingAck())
  {
    assert Reachable(INITIAL) by {
      assert Legal(INITIAL, []) && RunFrom(INITIAL, []) == INITIAL;
    }
    ReachOneMore(INITIAL, Connect);
    ReachOneMore(DoConnect(INITIAL), ConnectCallSucceeds);
    ReachOneMore(DoConnect(INITIAL).(c := SetupDue), SetupSucceeds(false));
    ReachOneMore(DoSetup(DoConnect(INITIAL).(c := SetupDue), false), SendSucceeds);
  }

  lemma {:induction false} RejectedHistory(s: System)
    requires s.sh.context == NewContext(1).(error := ErrorOf(AckRejected)) && !s.sh.hasShutDown
    requires s.history == Then(Then(Start, Began(1)), Recorded(AckRejected))
    ensures Misreports(DoDisconnect(s, ChannelEnded(CrtConnectionClosed)).history, 1)
  {
    var recorded := Then(s.history, Recorded(ChannelEnded(CrtConnectionClosed)));
    assert DoDisconnect(s, ChannelEnded(CrtConnectionClosed)).history == Then(recorded, HandedOut(s.sh.context));
    assert !EnteredConnected(s.history.before, 1);
    assert !EnteredConnected(recorded, 1);
    assert InvokeCallbacks(s.sh.context)[0] == ConnectCallback(1);
    assert InvokeCallbacks(s.sh.context)[1] == PromiseSet(1, RpcError(ConnectionAccessDenied, CrtSuccess));
  }

  /** A server that answers CONNECT with a rejecting ACK brings this about. */
  lemma {:induction false} ConnectCallbackAfterRejectedAck()
    ensures exists s :: Reachable(s) && Misreports(s.history, 1)
  {
    AwaitingAckReachable();
    var s4 := AwaitingAck();
    var s5 := DoAck(s4, false);
    ReachOneMore(s4, Ack(false));
    ReachOneMore(s5, ChannelShutdown(CrtConnectionClosed));
    RejectedHistory(s5);
  }

  /** What completes an open connect flush container: the C layer's report, or Shutdown. */
  lemma {:induction false} ConnectFlushCompleted(s: System, a: Attempt, code: CrtCode)
    requires Inv(s) && a in s.flush && s.flush[a].incomplete
    ensures var flushed := DoFlush(s, a, code).flush[a];
            && flushed.promise == [RpcError(if code == CrtSuccess then Success else CrtError, code)]
            && flushed.called == (if s.flush[a].hasCallback then [code] else [])
    ensures var shut := DoSynthesise(s, a).flush[a];
            && shut.promise == [RpcError(ConnectionClosed, CrtConnectionClosed)]
            && shut.called == (if s.flush[a].hasCallback then [CrtConnectionClosed] else [])
  {
  }

  /** The connect flush callback runs at most once, and once per CONNECT the C layer accepted and has flushed. */
  lemma {:induction false} ConnectFlushAtMostOnce(steps: seq<Step>, a: Attempt)
    requires Legal(INITIAL, steps) && a in RunFrom(INITIAL, steps).flush
    ensures var s := RunFrom(INITIAL, steps);
            && |s.flush[a].promise| <= 1 && |s.flush[a].called| <= 1
            && (a !in s.wrappers && a !in s.dropped && !(s.sending && a == s.attempt) ==> |s.flush[a].promise| == 1)
  {
    InitialInv();
    RunKeepsInv(INITIAL, steps);
  }
}
