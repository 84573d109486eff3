/** What the user sees of a connection: the effects of invoking every context handed out, over every run. */
module ConnectionEffects {
  import opened Rpc
  import opened FlushContainer
  import opened ConnectionProtocol
  import opened ConnectionRuns

  /** The effects of all contexts handed out, in the order in which they were. */
  function Effects(h: History): seq<Effect> {
    match h
    case Start => []
    case Then(before, HandedOut(ctx)) => Effects(before) + InvokeCallbacks(ctx)
    case Then(before, _) => Effects(before)
  }

  function PromiseSets(effects: seq<Effect>, a: Attempt): seq<RpcError> {
    if effects == [] then [] else
      var last := effects[|effects| - 1];
      PromiseSets(effects[..|effects| - 1], a) + (if last.PromiseSet? && last.a == a then [last.error] else [])
  }

  function ErrorCalls(effects: seq<Effect>, a: Attempt): seq<RpcError> {
    if effects == [] then [] else
      var last := effects[|effects| - 1];
      ErrorCalls(effects[..|effects| - 1], a) + (if last.ErrorCallback? && last.a == a then [last.error] else [])
  }

  function ConnectCalls(effects: seq<Effect>, a: Attempt): nat {
    if effects == [] then 0 else
      ConnectCalls(effects[..|effects| - 1], a) + (if effects[|effects| - 1] == ConnectCallback(a) then 1 else 0)
  }

  function DisconnectCalls(effects: seq<Effect>, a: Attempt): seq<RpcError> {
    if effects == [] then [] else
      var last := effects[|effects| - 1];
      DisconnectCalls(effects[..|effects| - 1], a)
      + (if last.DisconnectCallback? && last.a == a then [last.error] else [])
  }

  /** The attempt that began last. */
  function Running(h: History): Attempt {
    match h
    case Start => 0
    case Then(before, Began(a)) => a
    case Then(before, _) => Running(before)
  }

  /** The context belongs to attempt `a` and has all the callbacks invoking it calls. */
  predicate Complete(ctx: Context, a: Attempt) {
    match ctx.action
    case CompleteConnectPromise =>
      && ctx.promise == Some(a) && ctx.onConnect == Some(a)
      && (ctx.error.crtError != CrtSuccess ==> ctx.onError == Some(a))
    case DisconnectionCallback => ctx.onDisconnect == Some(a)
    case NoAction => true
  }

  ghost predicate ContextsComplete(h: History) {
    match h
    case Start => true
    case Then(before, last) => ContextsComplete(before) && (last.HandedOut? ==> Complete(last.context, Running(before)))
  }

  ghost predicate RunningInv(s: System) {
    Running(s.history) == s.attempt && ContextsComplete(s.history)
  }

  lemma {:induction false} RunningStep(s: System, step: Step)
    requires Inv(s) && RunningInv(s) && Enabled(s, step)
    ensures RunningInv(Apply(s, step))
  {
    if step.Ack? {
      RunningAck(s, step.accepted);
    } else if step.Close? {
      RunningClose(s, step.isShutdown);
    } else if step.ConnectCallFails? || step.SetupFails? || step.ChannelShutdown? {
      RunningDisconnect(s, if step.ConnectCallFails? then ConnectCallFailed(step.code)
                           else if step.SetupFails? then SetupError(step.code) else ChannelEnded(step.endCode));
    }
  }

  lemma {:induction false} RunningAck(s: System, accepted: bool)
    requires StateInv(s) && ContextInv(s) && RunningInv(s) && Enabled(s, Ack(accepted))
    ensures RunningInv(DoAck(s, accepted))
  {
  }

  lemma {:induction false} RunningClose(s: System, isShutdown: bool)
    requires StateInv(s) && ContextInv(s) && RunningInv(s)
    ensures RunningInv(DoClose(s, isShutdown))
  {
  }

  lemma {:induction false} RunningDisconnect(s: System, cause: Cause)
    requires StateInv(s) && ContextInv(s) && RunningInv(s)
    ensures RunningInv(DoDisconnect(s, cause))
  {
  }

  lemma {:induction false} RunningRun(s: System, steps: seq<Step>)
    requires Inv(s) && RunningInv(s) && Legal(s, steps)
    ensures RunningInv(RunFrom(s, steps))
    decreases |steps|
  {
    if steps != [] {
      RunningStep(s, steps[0]);
      InvKept(s, steps[0]);
      RunningRun(Apply(s, steps[0]), steps[1..]);
    }
  }

  lemma {:induction false} CompleteAt(part: History, whole: History)
    requires Occurs(part, whole) && ContextsComplete(whole)
    ensures ContextsComplete(part)
  {
    if part != whole {
      CompleteAt(part, whole.before);
    }
  }

  /** Whenever a context is handed out, invoking it calls the error callback or, if crtError is success, the connect
      callback, and then sets the promise, of the attempt that is running; or it calls that attempt's disconnect
      callback. Each time with the first error recorded. */
  lemma {:induction false} InvokedExactly(steps: seq<Step>, before: History, ctx: Context)
    requires Legal(INITIAL, steps)
    requires Occurs(Then(before, HandedOut(ctx)), RunFrom(INITIAL, steps).history)
    ensures var a, e := Running(before), FirstError(Recordings(before));
            InvokeCallbacks(ctx) ==
            match ctx.action
            case CompleteConnectPromise =>
              [if e.crtError == CrtSuccess then ConnectCallback(a) else ErrorCallback(a, e), PromiseSet(a, e)]
            case DisconnectionCallback => [DisconnectCallback(a, e)]
            case NoAction => []
  {
    InitialInv();
    RunningRun(INITIAL, steps);
    CompleteAt(Then(before, HandedOut(ctx)), RunFrom(INITIAL, steps).history);
    FirstErrorWins(steps, before, ctx);
  }

  /* ----- adding them up ----- */

  lemma {:induction false} OneMore(effects: seq<Effect>, e: Effect, a: Attempt)
    ensures PromiseSets(effects + [e], a)
            == PromiseSets(effects, a) + (if e.PromiseSet? && e.a == a then [e.error] else [])
    ensures ErrorCalls(effects + [e], a)
            == ErrorCalls(effects, a) + (if e.ErrorCallback? && e.a == a then [e.error] else [])
    ensures ConnectCalls(effects + [e], a) == ConnectCalls(effects, a) + (if e == ConnectCallback(a) then 1 else 0)
    ensures DisconnectCalls(effects + [e], a)
            == DisconnectCalls(effects, a) + (if e.DisconnectCallback? && e.a == a then [e.error] else [])
  {
    assert (effects + [e])[..|effects|] == effects;
  }

  /** What one context adds for attempt `a`. */
  lemma {:induction false} ContextAdds(effects: seq<Effect>, ctx: Context, owner: Attempt, a: Attempt)
    requires Complete(ctx, owner)
    ensures var all := effects + InvokeCallbacks(ctx);
            var e, mine := ctx.error, owner == a;
            var promise := ctx.action == CompleteConnectPromise && mine;
            && PromiseSets(all, a) == PromiseSets(effects, a) + (if promise then [e] else [])
            && ErrorCalls(all, a) == ErrorCalls(effects, a) + (if promise && e.crtError != CrtSuccess then [e] else [])
            && ConnectCalls(all, a)
               == ConnectCalls(effects, a) + (if promise && e.crtError == CrtSuccess then 1 else 0)
            && DisconnectCalls(all, a)
               == DisconnectCalls(effects, a) + (if ctx.action == DisconnectionCallback && mine then [e] else [])
  {
    var added := InvokeCallbacks(ctx);
    match ctx.action
    case CompleteConnectPromise =>
      OneMore(effects, added[0], a);
      OneMore(effects + [added[0]], added[1], a);
      assert effects + added == effects + [added[0]] + [added[1]];
    case DisconnectionCallback => OneMore(effects, added[0], a);
    case NoAction => assert effects + [] == effects;
  }

  /** The effects of a history add up to what its ledgers say. */
  ghost predicate AddUp(h: History, a: Attempt) {
    var es, p := Effects(h), PromiseValues(h, a);
    && PromiseSets(es, a) == p
    && ErrorCalls(es, a) == Failures(p)
    && ConnectCalls(es, a) + |Failures(p)| == |p|
    && DisconnectCalls(es, a) == DisconnectErrors(h, a)
  }

  lemma {:induction false} LedgersMore(before: History, ctx: Context, a: Attempt)
    requires Complete(ctx, Running(before))
    ensures var h, mine := Then(before, HandedOut(ctx)), Running(before) == a;
            && Effects(h) == Effects(before) + InvokeCallbacks(ctx)
            && PromiseValues(h, a)
               == PromiseValues(before, a) + (if ctx.action == CompleteConnectPromise && mine then [ctx.error] else [])
            && DisconnectErrors(h, a)
               == DisconnectErrors(before, a)
                  + (if ctx.action == DisconnectionCallback && mine then [ctx.error] else [])
  {
  }

  lemma {:induction false} OneContextMore(before: History, ctx: Context, a: Attempt)
    requires AddUp(before, a) && Complete(ctx, Running(before))
    ensures AddUp(Then(before, HandedOut(ctx)), a)
  {
    ContextAdds(Effects(before), ctx, Running(before), a);
    LedgersMore(before, ctx, a);
    var p, q := PromiseValues(before, a), PromiseValues(Then(before, HandedOut(ctx)), a);
    if ctx.action == CompleteConnectPromise && Running(before) == a {
      FailuresMore(p, ctx.error);
    } else {
      assert q == p;
    }
  }

  lemma {:induction false} Totals(h: History, a: Attempt)
    requires ContextsComplete(h)
    ensures AddUp(h, a)
  {
    match h
    case Start =>
    case Then(before, HandedOut(ctx)) =>
      Totals(before, a);
      OneContextMore(before, ctx, a);
    case Then(before, _) =>
      Totals(before, a);
      assert Effects(h) == Effects(before) && PromiseValues(h, a) == PromiseValues(before, a);
  }

  /** The errors among them that carry an error number of the C layer. */
  function Failures(errors: seq<RpcError>): seq<RpcError> {
    if errors == [] then [] else
      Failures(errors[..|errors| - 1])
      + (if errors[|errors| - 1].crtError != CrtSuccess then [errors[|errors| - 1]] else [])
  }

  lemma {:induction false} FailuresMore(errors: seq<RpcError>, e: RpcError)
    ensures Failures(errors + [e]) == Failures(errors) + (if e.crtError != CrtSuccess then [e] else [])
  {
    assert (errors + [e])[..|errors|] == errors;
  }

  /** Over every run and for every attempt: its promise is set at most once, and has been set unless the attempt is
      current, not connected, not over and not shut down; with SUCCESS exactly if it entered Connected. With it, just
      once, goes the error callback with the same error if that has an error number, and the connect callback if not.
      The disconnect callback runs once if the attempt entered Connected and is over or shut down, and otherwise not. */
  lemma {:induction false} EffectsExactly(steps: seq<Step>, a: Attempt)
    requires Legal(INITIAL, steps)
    ensures var s := RunFrom(INITIAL, steps);
            var es := Effects(s.history);
            var p := PromiseSets(es, a);
            && |p| <= 1
            && (0 < a <= s.attempt ==>
                  (p == [] <==> a == s.attempt && s.sh.current != Disconnected && !s.sh.hasShutDown
                                && !EnteredConnected(s.history, a)))
            && (p != [] ==> (p[0].baseStatus == Success <==> EnteredConnected(s.history, a)))
            && ErrorCalls(es, a) == (if p != [] && p[0].crtError != CrtSuccess then p else [])
            && ConnectCalls(es, a) == (if p != [] && p[0].crtError == CrtSuccess then 1 else 0)
            && |DisconnectCalls(es, a)|
               == (if EnteredConnected(s.history, a)
                      && (a < s.attempt || s.sh.current == Disconnected || s.sh.hasShutDown) then 1 else 0)
  {
    InitialInv();
    RunningRun(INITIAL, steps);
    Totals(RunFrom(INITIAL, steps).history, a);
    PromiseResolvedOnce(steps, a);
    DisconnectCallbackOnce(steps, a);
    FailuresOfOne(PromiseValues(RunFrom(INITIAL, steps).history, a));
  }

  lemma {:induction false} FailuresOfOne(p: seq<RpcError>)
    requires |p| <= 1
    ensures Failures(p) == if p != [] && p[0].crtError != CrtSuccess then p else []
  {
    if p != [] {
      assert p == [] + [p[0]];
      FailuresMore([], p[0]);
    }
  }

  /** A connection that comes up and is closed: what its user sees, from beginning to end. */
  lemma {:induction false} LifeOfAConnection()
    ensures Reachable(Over())
    ensures Over().sh.current == Disconnected && Over().refs == multiset{} && Over().closed == {1}
    ensures Effects(Over().history)
            == [ConnectCallback(1), PromiseSet(1, RpcError(Success, CrtSuccess)),
                DisconnectCallback(1, RpcError(ConnectionClosed, CrtConnectionClosed))]
  {
    OverReached();
    UpReached();
    ClosingUp();
    var closed := DoFinishClose(DoClose(Up(), false), 1);
    var history := Then(closed.history, Recorded(ChannelEnded(CrtSuccess)));
    assert Over().history == Then(history, HandedOut(closed.sh.context));
    assert Effects(history) == Effects(Up().history);
  }

  /** The connection once it has been closed and its channel has ended. */
  function Over(): System {
    DoDisconnect(DoFinishClose(DoClose(Up(), false), 1), ChannelEnded(CrtSuccess))
  }

  lemma {:induction false} OverReached()
    ensures Reachable(Over())
  {
    UpReached();
    ClosingUp();
    ReachOneMore(Up(), Close(false));
    ReachOneMore(DoClose(Up(), false), FinishClose(1));
    ReachOneMore(DoFinishClose(DoClose(Up(), false), 1), ChannelShutdown(CrtSuccess));
  }

  lemma {:induction false} ClosingUp()
    ensures var closing := DoClose(Up(), false);
            && closing.sh.current == Disconnecting && closing.closing == multiset{1} && closing.refs == multiset{1, 1}
            && closing.c == Channel && !closing.sending && closing.closed == {} && closing.sh.underlying == Some(1)
            && closing.sh.context.action == DisconnectionCallback && closing.sh.context.onDisconnect == Some(1)
            && closing.sh.context.error == RpcError(ConnectionClosed, CrtConnectionClosed) && !closing.sh.hasShutDown
            && closing.history == Then(Up().history, CloseRequested)
  {
    UpReached();
  }

  /** The connection once its CONNECT has been accepted. */
  function Up(): System {
    DoAck(AwaitingAck(), true)
  }

  lemma {:induction false} UpReached()
    ensures Reachable(Up()) && Up().attempt == 1 && Up().c == Channel && Up().closing == multiset{} && Up().closed == {}
    ensures Up().sh == Shared(Some(1), Connected, Connected, NewContext(1).(action := DisconnectionCallback,
                                                                            promise := None), Some(1), false, true)
    ensures Up().refs == multiset{1} && !Up().sending
    ensures Effects(Up().history) == [ConnectCallback(1), PromiseSet(1, RpcError(Success, CrtSuccess))]
  {
    AwaitingAckReachable();
    ReachOneMore(AwaitingAck(), Ack(true));
    var began := Then(Start, Began(1));
    assert AwaitingAck().history == began && Effects(began) == [];
    var now := TransitionToConnected(AwaitingAck().sh.context).0;
    assert Up().history == Then(Then(began, Entered(1)), HandedOut(now));
    assert Effects(Then(began, Entered(1))) == [];
  }
}
