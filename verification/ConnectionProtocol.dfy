/**
 * The connection's locked sections as functions on its shared state, and the transition system they form together
 * with the C layer, the calls that have left the lock but not returned, and the event loop.
 */
module ConnectionProtocol {
  import opened Rpc
  import opened FlushContainer

  /** Accepted Connect calls are numbered from 1. The number also names the call's promise, its C connection and its
      connect flush container. */
  type Attempt = nat

  datatype ClientState = Disconnected | PendingConnect | PendingConnack | Connected | Disconnecting

  datatype Action = NoAction | CompleteConnectPromise | DisconnectionCallback

  /** ConnectionCallbackContext. The three handlers are named by the attempt whose lifecycle handler they capture. */
  datatype Context = Context(
    action: Action,
    error: RpcError,
    promise: Option<Attempt>,
    onDisconnect: Option<Attempt>,
    onError: Option<Attempt>,
    onConnect: Option<Attempt>)

  const EMPTY_CONTEXT := Context(NoAction, NO_ERROR, None, None, None, None)

  function NewContext(a: Attempt): Context {
    Context(CompleteConnectPromise, NO_ERROR, Some(a), Some(a), Some(a), Some(a))
  }

  function SetError(ctx: Context, error: RpcError): Context {
    if ctx.error.baseStatus == Success then ctx.(error := error) else ctx
  }

  /** What InvokeCallbacks does to the outside world. */
  datatype Effect =
    | ErrorCallback(a: Attempt, error: RpcError)
    | ConnectCallback(a: Attempt)
    | DisconnectCallback(a: Attempt, error: RpcError)
    | PromiseSet(a: Attempt, error: RpcError)

  function InvokeCallbacks(ctx: Context): seq<Effect> {
    match ctx.action
    case CompleteConnectPromise =>
      (if ctx.error.crtError != CrtSuccess then
         (if ctx.onError.Some? then [ErrorCallback(ctx.onError.value, ctx.error)] else [])
       else
         (if ctx.onConnect.Some? then [ConnectCallback(ctx.onConnect.value)] else []))
      + (if ctx.promise.Some? then [PromiseSet(ctx.promise.value, ctx.error)] else [])
    case DisconnectionCallback =>
      if ctx.onDisconnect.Some? then [DisconnectCallback(ctx.onDisconnect.value, ctx.error)] else []
    case NoAction => []
  }

  /** The context to invoke now that the connection is up, and the one left behind for its end. */
  function TransitionToConnected(ctx: Context): (Context, Context) {
    (Context(CompleteConnectPromise, NO_ERROR, ctx.promise, None, None, ctx.onConnect),
     ctx.(action := DisconnectionCallback, error := NO_ERROR, promise := None))
  }

  /** Why SetError was called. */
  datatype Cause =
    | ConnectCallFailed(code: Failure)
    | SetupError(code: Failure)
    | ConnectSendFailed(code: Failure)
    | AckRejected
    | AckTooLate
    | CloseCalled
    | ChannelEnded(endCode: CrtCode)

  function ErrorOf(cause: Cause): RpcError {
    match cause
    case ConnectCallFailed(code) => RpcError(ConnectionSetupFailed, code)
    case SetupError(code) => RpcError(CrtError, code)
    case ConnectSendFailed(code) => RpcError(CrtError, code)
    case AckRejected => RpcError(ConnectionAccessDenied, CrtSuccess)
    case AckTooLate => RpcError(ConnectionClosed, CrtSuccess)
    case CloseCalled => RpcError(ConnectionClosed, CrtConnectionClosed)
    case ChannelEnded(code) => RpcError(ConnectionClosed, code)
  }

  /** m_sharedState, together with m_selfReference, which is also written only under the lock. */
  datatype Shared = Shared(
    underlying: Option<Attempt>,
    current: ClientState,
    desired: ClientState,
    context: Context,
    connectFlush: Option<Attempt>,
    hasShutDown: bool,
    selfReference: bool)

  const INITIAL_SHARED := Shared(None, Disconnected, Disconnected, EMPTY_CONTEXT, None, false, false)

  /* ----- locked sections ----- */

  function ConnectSection(sh: Shared, a: Attempt): Shared {
    sh.(selfReference := true, desired := Connected, current := PendingConnect, context := NewContext(a))
  }

  function MoveToDisconnectedSection(sh: Shared, cause: Cause): (Shared, Context) {
    (Shared(None, Disconnected, Disconnected, EMPTY_CONTEXT, None, sh.hasShutDown, false),
     if sh.hasShutDown then EMPTY_CONTEXT else SetError(sh.context, ErrorOf(cause)))
  }

  predicate HasOpenChannel(current: ClientState) {
    current == Connected || current == PendingConnack
  }

  function CloseSection(sh: Shared, isShutdown: bool): (Shared, Context) {
    var ctx := SetError(sh.context, ErrorOf(CloseCalled));
    var closed := sh.(desired := Disconnected,
                      current := if HasOpenChannel(sh.current) then Disconnecting else sh.current,
                      hasShutDown := sh.hasShutDown || isShutdown);
    if isShutdown then (closed.(context := EMPTY_CONTEXT, connectFlush := None), ctx)
    else (closed.(context := ctx), EMPTY_CONTEXT)
  }

  function SetupSection(sh: Shared, connection: Attempt): Shared {
    if sh.desired != Connected then
      sh.(underlying := Some(connection), current := Disconnecting)
    else
      sh.(underlying := Some(connection), current := PendingConnack, connectFlush := Some(connection))
  }

  function SendRollbackSection(sh: Shared, cause: Cause): Shared {
    sh.(context := SetError(sh.context, ErrorOf(cause)), current := Disconnecting, connectFlush := None)
  }

  predicate AckConnects(sh: Shared, accepted: bool) {
    sh.current == PendingConnack && accepted
  }

  function AckCause(accepted: bool): Cause {
    if accepted then AckTooLate else AckRejected
  }

  function AckSection(sh: Shared, accepted: bool): (Shared, Context) {
    if AckConnects(sh, accepted) then
      var t := TransitionToConnected(sh.context);
      (sh.(current := Connected, context := t.1), t.0)
    else
      (sh.(context := if sh.hasShutDown then sh.context else SetError(sh.context, ErrorOf(AckCause(accepted))),
           desired := Disconnected,
           current := Disconnecting),
       EMPTY_CONTEXT)
  }

  /* ----- history ----- */

  datatype Entry =
    | Began(a: Attempt)
    | Recorded(cause: Cause)
    | Entered(a: Attempt)
    | CloseRequested                     // also records CloseCalled
    | HandedOut(context: Context)

  /** Everything the locked sections did, oldest first. */
  datatype History = Start | Then(before: History, last: Entry)

  /** A context with no action is not worth noting: invoking it does nothing. */
  function HandOut(h: History, ctx: Context): History {
    if ctx.action == NoAction then h else Then(h, HandedOut(ctx))
  }

  /** The causes recorded since the running attempt began or, later, since it entered Connected. */
  function Recordings(h: History): seq<Cause> {
    match h
    case Start => []
    case Then(_, Began(_)) => []
    case Then(_, Entered(_)) => []
    case Then(before, Recorded(cause)) => Recordings(before) + [cause]
    case Then(before, CloseRequested) => Recordings(before) + [CloseCalled]
    case Then(before, _) => Recordings(before)
  }

  function FirstError(causes: seq<Cause>): RpcError {
    if causes == [] then NO_ERROR else ErrorOf(causes[0])
  }

  predicate EnteredConnected(h: History, a: Attempt) {
    match h
    case Start => false
    case Then(before, last) => last == Entered(a) || EnteredConnected(before, a)
  }

  /** Close or Shutdown ran since the running attempt began. */
  predicate CloseRequestedInAttempt(h: History) {
    match h
    case Start => false
    case Then(before, last) => !last.Began? && (last == CloseRequested || CloseRequestedInAttempt(before))
  }

  /** The values the promise of attempt `a` was completed with. */
  function PromiseValues(h: History, a: Attempt): seq<RpcError> {
    match h
    case Start => []
    case Then(before, HandedOut(ctx)) =>
      PromiseValues(before, a)
      + (if ctx.action == CompleteConnectPromise && ctx.promise == Some(a) then [ctx.error] else [])
    case Then(before, _) => PromiseValues(before, a)
  }

  /** The errors given to the disconnect callback of attempt `a`. */
  function DisconnectErrors(h: History, a: Attempt): seq<RpcError> {
    match h
    case Start => []
    case Then(before, HandedOut(ctx)) =>
      DisconnectErrors(before, a)
      + (if ctx.action == DisconnectionCallback && ctx.onDisconnect == Some(a) then [ctx.error] else [])
    case Then(before, _) => DisconnectErrors(before, a)
  }

  function HandOuts(h: History): nat {
    match h
    case Start => 0
    case Then(before, last) => HandOuts(before) + (if last.HandedOut? then 1 else 0)
  }

  /* ----- the system ----- */

  /** Where the C layer is with the running attempt. */
  datatype CLayer = NoConnection | ConnectCall | SetupDue | Channel

  datatype System = System(
    sh: Shared,
    attempt: Attempt,
    c: CLayer,
    sending: bool,                     // s_onConnectionSetup is out of the lock, sending CONNECT
    closing: multiset<Attempt>,        // connections some thread has acquired and is about to close and release
    closed: set<Attempt>,              // connections some thread has closed
    refs: multiset<Attempt>,           // C references the binding holds
    flush: map<Attempt, Flush>,        // connect flush containers
    wrappers: set<Attempt>,            // containers the C layer will complete
    dropped: set<Attempt>,             // containers whose CONNECT could not be sent
    synthesised: set<Attempt>,         // containers Shutdown took and is about to complete
    history: History)

  const INITIAL :=
    System(INITIAL_SHARED, 0, NoConnection, false, multiset{}, {}, multiset{}, map[], {}, {}, {}, Start)

  datatype Step =
    | Connect
    | ConnectCallSucceeds
    | ConnectCallFails(code: Failure)
    | SetupFails(code: Failure)
    | SetupSucceeds(hasFlushCallback: bool)
    | SendSucceeds
    | SendFails(code: Failure)
    | Ack(accepted: bool)
    | ChannelShutdown(endCode: CrtCode)
    | Close(isShutdown: bool)
    | FinishClose(connection: Attempt)
    | FlushDone(container: Attempt, flushCode: CrtCode)
    | SynthesiseFlush(container: Attempt)

  /** The environment's assumptions. Setup follows each successful connect call once; ACKs and the channel's end come
      only while a channel is up and never while s_onConnectionSetup is still running on the event loop; Shutdown is
      called once and no Connect follows it. */
  predicate Enabled(s: System, step: Step) {
    match step
    case Connect => s.sh.current == Disconnected && !s.sh.hasShutDown
    case ConnectCallSucceeds => s.c == ConnectCall
    case ConnectCallFails(_) => s.c == ConnectCall
    case SetupFails(_) => s.c == SetupDue
    case SetupSucceeds(_) => s.c == SetupDue
    case SendSucceeds => s.sending
    case SendFails(_) => s.sending
    case Ack(_) => s.c == Channel && !s.sending
    case ChannelShutdown(_) => s.c == Channel && !s.sending
    case Close(isShutdown) => isShutdown ==> !s.sh.hasShutDown
    case FinishClose(connection) => connection in s.closing
    case FlushDone(container, _) => container in s.wrappers && container in s.flush
    case SynthesiseFlush(container) => container in s.synthesised && container in s.flush
  }

  function Held(connection: Option<Attempt>): multiset<Attempt> {
    if connection.Some? then multiset{connection.value} else multiset{}
  }

  /** A local reference taken under the lock, for a close to be made after it. */
  function Acquire(s: System, connection: Attempt): System {
    s.(refs := s.refs + multiset{connection}, closing := s.closing + multiset{connection})
  }

  function DoConnect(s: System): System {
    s.(sh := ConnectSection(s.sh, s.attempt + 1), attempt := s.attempt + 1, c := ConnectCall,
       history := Then(s.history, Began(s.attempt + 1)))
  }

  function DoDisconnect(s: System, cause: Cause): System {
    var section := MoveToDisconnectedSection(s.sh, cause);
    s.(sh := section.0,
       c := NoConnection,
       refs := s.refs - Held(s.sh.underlying),
       history := HandOut(Then(s.history, Recorded(cause)), section.1))
  }

  function DoSetup(s: System, hasFlushCallback: bool): System {
    var up := s.(sh := SetupSection(s.sh, s.attempt), c := Channel, refs := s.refs + multiset{s.attempt, s.attempt});
    if s.sh.desired != Connected then up.(closing := s.closing + multiset{s.attempt})
    else up.(sending := true, flush := s.flush[s.attempt := New(hasFlushCallback)])
  }

  function DoSendSucceeds(s: System): System {
    s.(sending := false, refs := s.refs - multiset{s.attempt}, wrappers := s.wrappers + {s.attempt})
  }

  function DoSendFails(s: System, code: Failure): System {
    s.(sh := SendRollbackSection(s.sh, ConnectSendFailed(code)),
       sending := false,
       closing := s.closing + multiset{s.attempt},
       dropped := s.dropped + {s.attempt},
       history := Then(s.history, Recorded(ConnectSendFailed(code))))
  }

  function DoAck(s: System, accepted: bool): System {
    var section := AckSection(s.sh, accepted);
    if AckConnects(s.sh, accepted) then
      s.(sh := section.0, history := HandOut(Then(s.history, Entered(s.attempt)), section.1))
    else
      var acked := s.(sh := section.0,
                      history := if s.sh.hasShutDown then s.history else Then(s.history, Recorded(AckCause(accepted))));
      if s.sh.current == Disconnecting then acked else Acquire(acked, s.attempt)
  }

  function DoClose(s: System, isShutdown: bool): System {
    var section := CloseSection(s.sh, isShutdown);
    var closed := s.(sh := section.0,
                     synthesised := if isShutdown && s.sh.connectFlush.Some?
                                    then s.synthesised + {s.sh.connectFlush.value} else s.synthesised,
                     history := HandOut(Then(s.history, CloseRequested), section.1));
    if HasOpenChannel(s.sh.current) && s.sh.underlying.Some? then Acquire(closed, s.sh.underlying.value) else closed
  }

  function DoFinishClose(s: System, connection: Attempt): System {
    s.(refs := s.refs - multiset{connection}, closing := s.closing - multiset{connection},
       closed := s.closed + {connection})
  }

  function DoFlush(s: System, container: Attempt, code: CrtCode): System
    requires container in s.flush
  {
    s.(flush := s.flush[container := Completed(s.flush[container], FlushResult(code))],
       wrappers := s.wrappers - {container})
  }

  function DoSynthesise(s: System, container: Attempt): System
    requires container in s.flush
  {
    s.(flush := s.flush[container := Completed(s.flush[container], ErrorOf(CloseCalled))],
       synthesised := s.synthesised - {container})
  }

  function Apply(s: System, step: Step): System
    requires Enabled(s, step)
  {
    match step
    case Connect => DoConnect(s)
    case ConnectCallSucceeds => s.(c := SetupDue)
    case ConnectCallFails(code) => DoDisconnect(s, ConnectCallFailed(code))
    case SetupFails(code) => DoDisconnect(s, SetupError(code))
    case SetupSucceeds(hasFlushCallback) => DoSetup(s, hasFlushCallback)
    case SendSucceeds => DoSendSucceeds(s)
    case SendFails(code) => DoSendFails(s, code)
    case Ack(accepted) => DoAck(s, accepted)
    case ChannelShutdown(code) => DoDisconnect(s, ChannelEnded(code))
    case Close(isShutdown) => DoClose(s, isShutdown)
    case FinishClose(connection) => DoFinishClose(s, connection)
    case FlushDone(container, code) => DoFlush(s, container, code)
    case SynthesiseFlush(container) => DoSynthesise(s, container)
  }

  /* ----- invariant ----- */

  /** The shared state, the C layer and the unlocked send agree on where the running attempt is. */
  ghost predicate StateInv(s: System) {
    && (s.sh.current == Disconnected <==> s.c == NoConnection)
    && (s.sh.current == PendingConnect <==> s.c == ConnectCall || s.c == SetupDue)
    && s.sh.underlying == (if s.c == Channel then Some(s.attempt) else None)
    && (s.sh.selfReference <==> s.sh.current != Disconnected)
    && (s.sh.desired == Connected || s.sh.desired == Disconnected)
    && (s.sending ==> s.c == Channel && s.sh.current != Connected)
    && (s.c != NoConnection ==> s.attempt > 0)
    && (s.sh.hasShutDown ==> !HasOpenChannel(s.sh.current) && s.sh.desired == Disconnected)
    && (HasOpenChannel(s.sh.current) ==> s.sh.desired == Connected)
  }

  ghost predicate ContextInv(s: System) {
    var ctx := s.sh.context;
    && (ctx.action == NoAction <==> s.sh.current == Disconnected || s.sh.hasShutDown)
    && (ctx.action == CompleteConnectPromise ==>
          ctx == NewContext(s.attempt).(error := ctx.error) && !EnteredConnected(s.history, s.attempt))
    && (ctx.action == DisconnectionCallback ==>
          ctx.onDisconnect == Some(s.attempt) && EnteredConnected(s.history, s.attempt))
    && (ctx.action != NoAction ==> ctx.error == FirstError(Recordings(s.history)))
    && (s.sh.current == PendingConnect && ctx.action != NoAction ==> ctx.action == CompleteConnectPromise)
    && (s.sh.current == PendingConnack ==> ctx.action == CompleteConnectPromise)
    && (s.sh.current == Connected ==> ctx.action == DisconnectionCallback)
    && ((s.sh.current == Disconnecting || s.sh.desired == Disconnected) && ctx.action != NoAction ==>
          Recordings(s.history) != [])
    && (CloseRequestedInAttempt(s.history) && s.sh.current != Disconnected ==> s.sh.desired == Disconnected)
  }

  /** A connection that is Disconnecting has been closed, or some thread is about to close it. */
  ghost predicate ClosingInv(s: System) {
    s.sh.current == Disconnecting ==> s.attempt in s.closing || s.attempt in s.closed
  }

  /** The references to C connection `h`: one in the shared state, one held by the unlocked send, and one for every
      thread about to close it. */
  ghost predicate Balanced(s: System, h: Attempt) {
    s.refs[h] == (if s.sh.underlying == Some(h) then 1 else 0)
                 + (if s.sending && h == s.attempt then 1 else 0)
                 + s.closing[h]
  }

  /** Attempt `a` is still owed its promise. */
  ghost predicate Pending(s: System, a: Attempt) {
    a == s.attempt && s.sh.context.action == CompleteConnectPromise
  }

  /** Attempt `a` is still owed its disconnect callback. */
  ghost predicate Open(s: System, a: Attempt) {
    a == s.attempt && s.sh.context.action == DisconnectionCallback
  }

  ghost predicate Accounted(s: System, a: Attempt) {
    var p := PromiseValues(s.history, a);
    && |p| == (if a == 0 || a > s.attempt || Pending(s, a) then 0 else 1)
    && (p != [] ==> (p[0].baseStatus == Success <==> EnteredConnected(s.history, a)))
    && (p == [] ==> !EnteredConnected(s.history, a))
    && |DisconnectErrors(s.history, a)| == (if EnteredConnected(s.history, a) && !Open(s, a) then 1 else 0)
  }

  /** Every context was handed out carrying the first error recorded before it. */
  ghost predicate FirstErrorsDelivered(h: History) {
    match h
    case Start => true
    case Then(before, last) =>
      FirstErrorsDelivered(before) && (last.HandedOut? ==> last.context.error == FirstError(Recordings(before)))
  }

  ghost predicate FlushInv(s: System) {
    && (s.sh.connectFlush.Some? ==> s.sh.connectFlush == s.sh.underlying && s.attempt in s.flush)
    && (s.sending ==> s.attempt in s.flush && s.attempt !in s.dropped + s.wrappers)
    && s.wrappers <= s.flush.Keys && s.synthesised <= s.flush.Keys && s.dropped <= s.flush.Keys
    && s.wrappers !! s.dropped
    && forall a | a in s.flush ::
         && 0 < a <= s.attempt
         && (a == s.attempt ==> s.c != ConnectCall && s.c != SetupDue)
         && WellFormed(s.flush[a])
         && (s.flush[a].incomplete ==> a in s.wrappers || a in s.dropped || (s.sending && a == s.attempt))
  }

  ghost predicate Inv(s: System) {
    && StateInv(s)
    && ContextInv(s)
    && ClosingInv(s)
    && (forall h: Attempt :: Balanced(s, h))
    && (forall a: Attempt :: Accounted(s, a))
    && FirstErrorsDelivered(s.history)
    && FlushInv(s)
  }

  lemma InitialInv()
    ensures Inv(INITIAL)
  {
  }

  /* ----- every step keeps the invariant ----- */

  lemma {:induction false} ConnectKept(s: System)
    requires Inv(s) && Enabled(s, Connect)
    ensures Inv(DoConnect(s))
  {
    assert Accounted(s, s.attempt + 1);
    forall a: Attempt ensures Accounted(DoConnect(s), a) {
      assert Accounted(s, a);
    }
    forall h: Attempt ensures Balanced(DoConnect(s), h) {
      assert Balanced(s, h);
    }
  }

  lemma {:induction false} DisconnectAccounted(s: System, cause: Cause, a: Attempt)
    requires StateInv(s) && ContextInv(s) && Accounted(s, a) && s.c != NoConnection
    ensures Accounted(DoDisconnect(s, cause), a)
  {
  }

  lemma {:induction false} DisconnectContextKept(s: System, cause: Cause)
    requires StateInv(s) && ContextInv(s) && FirstErrorsDelivered(s.history) && s.c != NoConnection && !s.sending
    ensures var t := DoDisconnect(s, cause); StateInv(t) && ContextInv(t) && FirstErrorsDelivered(t.history)
  {
  }

  lemma {:induction false} DisconnectKept(s: System, cause: Cause)
    requires Inv(s) && s.c != NoConnection && !s.sending
    ensures Inv(DoDisconnect(s, cause))
  {
    DisconnectContextKept(s, cause);
    forall a: Attempt ensures Accounted(DoDisconnect(s, cause), a) {
      DisconnectAccounted(s, cause, a);
    }
    forall h: Attempt ensures Balanced(DoDisconnect(s, cause), h) {
      assert Balanced(s, h);
    }
  }

  lemma {:induction false} SetupKept(s: System, hasFlushCallback: bool)
    requires Inv(s) && s.c == SetupDue
    ensures Inv(DoSetup(s, hasFlushCallback))
  {
    forall a: Attempt ensures Accounted(DoSetup(s, hasFlushCallback), a) {
      assert Accounted(s, a);
    }
    forall h: Attempt ensures Balanced(DoSetup(s, hasFlushCallback), h) {
      assert Balanced(s, h);
    }
  }

  lemma {:induction false} SendSucceedsKept(s: System)
    requires Inv(s) && s.sending
    ensures Inv(DoSendSucceeds(s))
  {
    forall a: Attempt ensures Accounted(DoSendSucceeds(s), a) {
      assert Accounted(s, a);
    }
    forall h: Attempt ensures Balanced(DoSendSucceeds(s), h) {
      assert Balanced(s, h);
    }
  }

  lemma {:induction false} SendFailsKept(s: System, code: Failure)
    requires Inv(s) && s.sending
    ensures Inv(DoSendFails(s, code))
  {
    forall a: Attempt ensures Accounted(DoSendFails(s, code), a) {
      assert Accounted(s, a);
    }
    forall h: Attempt ensures Balanced(DoSendFails(s, code), h) {
      assert Balanced(s, h);
    }
  }

  lemma {:induction false} AckAccounted(s: System, accepted: bool, a: Attempt)
    requires StateInv(s) && ContextInv(s) && Enabled(s, Ack(accepted)) && Accounted(s, a)
    ensures Accounted(DoAck(s, accepted), a)
  {
  }

  lemma {:induction false} AckAcceptedContextKept(s: System)
    requires StateInv(s) && ContextInv(s) && Enabled(s, Ack(true)) && AckConnects(s.sh, true)
    ensures ContextInv(DoAck(s, true))
  {
    var entered := Then(s.history, Entered(s.attempt));
    assert DoAck(s, true).history == Then(entered, HandedOut(AckSection(s.sh, true).1));
    assert CloseRequestedInAttempt(entered) == CloseRequestedInAttempt(s.history);
    assert EnteredConnected(entered, s.attempt) && Recordings(entered) == [];
  }

  lemma {:induction false} AckRefusedContextKept(s: System, accepted: bool)
    requires StateInv(s) && ContextInv(s) && Enabled(s, Ack(accepted)) && !AckConnects(s.sh, accepted)
    ensures ContextInv(DoAck(s, accepted))
  {
  }

  lemma {:induction false} AckKept(s: System, accepted: bool)
    requires Inv(s) && Enabled(s, Ack(accepted))
    ensures Inv(DoAck(s, accepted))
  {
    if AckConnects(s.sh, accepted) {
      AckAcceptedContextKept(s);
    } else {
      AckRefusedContextKept(s, accepted);
    }
    forall a: Attempt ensures Accounted(DoAck(s, accepted), a) {
      AckAccounted(s, accepted, a);
    }
    forall h: Attempt ensures Balanced(DoAck(s, accepted), h) {
      assert Balanced(s, h);
    }
  }

  lemma {:induction false} CloseAccounted(s: System, isShutdown: bool, a: Attempt)
    requires StateInv(s) && ContextInv(s) && Enabled(s, Close(isShutdown)) && Accounted(s, a)
    ensures Accounted(DoClose(s, isShutdown), a)
  {
  }

  lemma {:induction false} CloseContextKept(s: System, isShutdown: bool)
    requires StateInv(s) && ContextInv(s) && FirstErrorsDelivered(s.history) && Enabled(s, Close(isShutdown))
    ensures ContextInv(DoClose(s, isShutdown)) && FirstErrorsDelivered(DoClose(s, isShutdown).history)
  {
  }

  lemma {:induction false} CloseKept(s: System, isShutdown: bool)
    requires Inv(s) && Enabled(s, Close(isShutdown))
    ensures Inv(DoClose(s, isShutdown))
  {
    CloseContextKept(s, isShutdown);
    forall a: Attempt ensures Accounted(DoClose(s, isShutdown), a) {
      CloseAccounted(s, isShutdown, a);
    }
    forall h: Attempt ensures Balanced(DoClose(s, isShutdown), h) {
      assert Balanced(s, h);
    }
  }

  lemma {:induction false} FinishCloseKept(s: System, connection: Attempt)
    requires Inv(s) && connection in s.closing
    ensures Inv(DoFinishClose(s, connection))
  {
    forall a: Attempt ensures Accounted(DoFinishClose(s, connection), a) {
      assert Accounted(s, a);
    }
    forall h: Attempt ensures Balanced(DoFinishClose(s, connection), h) {
      assert Balanced(s, h);
    }
  }

  lemma {:induction false} FlushKept(s: System, container: Attempt, code: CrtCode)
    requires Inv(s) && container in s.flush
    ensures Inv(DoFlush(s, container, code))
  {
    forall a: Attempt ensures Accounted(DoFlush(s, container, code), a) {
      assert Accounted(s, a);
    }
    forall h: Attempt ensures Balanced(DoFlush(s, container, code), h) {
      assert Balanced(s, h);
    }
  }

  lemma {:induction false} SynthesiseKept(s: System, container: Attempt)
    requires Inv(s) && container in s.flush
    ensures Inv(DoSynthesise(s, container))
  {
    forall a: Attempt ensures Accounted(DoSynthesise(s, container), a) {
      assert Accounted(s, a);
    }
    forall h: Attempt ensures Balanced(DoSynthesise(s, container), h) {
      assert Balanced(s, h);
    }
  }

  lemma {:induction false} CallSucceedsKept(s: System)
    requires Inv(s) && s.c == ConnectCall
    ensures Inv(s.(c := SetupDue))
  {
    var t := s.(c := SetupDue);
    forall a: Attempt ensures Accounted(t, a) {
      assert Accounted(s, a);
    }
    forall h: Attempt ensures Balanced(t, h) {
      assert Balanced(s, h);
    }
  }

  lemma {:induction false} InvKept(s: System, step: Step)
    requires Inv(s) && Enabled(s, step)
    ensures Inv(Apply(s, step))
  {
    match step
    case Connect => ConnectKept(s);
    case ConnectCallSucceeds => CallSucceedsKept(s);
    case ConnectCallFails(code) => DisconnectKept(s, ConnectCallFailed(code));
    case SetupFails(code) => DisconnectKept(s, SetupError(code));
    case SetupSucceeds(hasFlushCallback) => SetupKept(s, hasFlushCallback);
    case SendSucceeds => SendSucceedsKept(s);
    case SendFails(code) => SendFailsKept(s, code);
    case Ack(accepted) => AckKept(s, accepted);
    case ChannelShutdown(code) => DisconnectKept(s, ChannelEnded(code));
    case Close(isShutdown) => CloseKept(s, isShutdown);
    case FinishClose(connection) => FinishCloseKept(s, connection);
    case FlushDone(container, code) => FlushKept(s, container, code);
    case SynthesiseFlush(container) => SynthesiseKept(s, container);
  }
}
