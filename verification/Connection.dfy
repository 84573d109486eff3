/**
 * ClientConnectionImpl: its fields, and its methods cut where they take and leave the lock. Each method below is one
 * locked section; `sys` is the state of the whole system once it is done. The assert statements in the setup callback
 * are the source's fatal asserts.
 */
module Connection {
  import opened Rpc
  import opened ConnectionProtocol

  datatype ConnectOutcome =
    | Rejected(error: RpcError)        // the promise is completed on the spot
    | Started(a: Attempt)              // the future belongs to the new callback context

  /** ConnectionCallbackContext::TransitionToConnected: moves the promise out and leaves a disconnect context behind. */
  method MoveToConnected(pending: Context) returns (now: Context, later: Context)
    ensures (now, later) == ConnectionProtocol.TransitionToConnected(pending)
    ensures pending.promise.Some? && pending.onConnect.Some? ==>
              InvokeCallbacks(now)
              == [ConnectCallback(pending.onConnect.value), PromiseSet(pending.promise.value, NO_ERROR)]
    ensures later.promise == None && (pending.onDisconnect.Some? ==>
              InvokeCallbacks(later) == [DisconnectCallback(pending.onDisconnect.value, NO_ERROR)])
  {
    now, later := EMPTY_CONTEXT, pending;
    now := now.(action := CompleteConnectPromise);
    now := now.(promise := later.promise);
    now := now.(onConnect := later.onConnect);
    later := later.(action := DisconnectionCallback);
    later := later.(error := NO_ERROR);
    later := later.(promise := None);
  }

  class ClientConnectionImpl {
    var underlyingConnection: Option<Attempt>
    var currentState: ClientState
    var desiredState: ClientState
    var callbackContext: Context
    var connectFlushContainer: Option<Attempt>
    var hasShutDown: bool
    var selfReference: bool
    var attempts: Attempt              // names promises, C connections and flush containers
    ghost var sys: System

    ghost predicate Valid()
      reads this
    {
      && sys.sh == Shared(underlyingConnection, currentState, desiredState, callbackContext, connectFlushContainer,
                          hasShutDown, selfReference)
      && sys.attempt == attempts
      && Inv(sys)
    }

    constructor ()
      ensures Valid() && sys == INITIAL
    {
      underlyingConnection, currentState, desiredState := None, Disconnected, Disconnected;
      callbackContext, connectFlushContainer := EMPTY_CONTEXT, None;
      hasShutDown, selfReference, attempts := false, false, 0;
      sys := INITIAL;
      new;
      InitialInv();
    }

    /** What happens outside the locked sections: C calls return, closes finish, flush containers are completed. */
    ghost method OutsideTheLock(step: Step)
      requires Valid() && Enabled(sys, step)
      requires step.ConnectCallSucceeds? || step.SendSucceeds? || step.FinishClose? || step.FlushDone?
               || step.SynthesiseFlush?
      modifies this`sys
      ensures Valid() && sys == Apply(old(sys), step)
    {
      InvKept(sys, step);
      sys := Apply(sys, step);
    }

    method Connect(hasHostName: bool, hasPort: bool) returns (outcome: ConnectOutcome)
      requires Valid() && !hasShutDown
      modifies this
      ensures Valid()
      ensures outcome.Rejected? <==> !hasHostName || !hasPort || old(currentState) != Disconnected
      ensures outcome.Rejected? ==>
                && sys == old(sys)
                && outcome.error == (if !hasHostName || !hasPort then RpcError(NullParameter, CrtInvalidArgument)
                                     else RpcError(ConnectionAlreadyEstablished, CrtSuccess))
      ensures outcome.Started? ==>
                && sys == DoConnect(old(sys)) && Pending(sys, outcome.a)
                && attempts == outcome.a == old(attempts) + 1
                && currentState == PendingConnect && desiredState == Connected && selfReference
                && underlyingConnection == old(underlyingConnection)
                && callbackContext == Context(CompleteConnectPromise, RpcError(Success, CrtSuccess), Some(outcome.a),
                                              Some(outcome.a), Some(outcome.a), Some(outcome.a))
    {
      if !hasHostName || !hasPort {
        return Rejected(RpcError(NullParameter, CrtInvalidArgument));
      }
      if currentState != Disconnected {
        return Rejected(RpcError(ConnectionAlreadyEstablished, CrtSuccess));
      }
      ConnectKept(sys);
      sys := DoConnect(sys);
      attempts := attempts + 1;
      selfReference := true;
      desiredState := Connected;
      currentState := PendingConnect;
      callbackContext := NewContext(attempts);
      outcome := Started(attempts);
    }

    /** Reached from a connect call that failed, a setup that failed, and the end of the channel. */
    method MoveToDisconnected(error: RpcError, ghost step: Step, ghost cause: Cause) returns (localContext: Context)
      requires Valid() && Enabled(sys, step) && error == ErrorOf(cause)
      requires
        || (step.ConnectCallFails? && cause == ConnectCallFailed(step.code))
        || (step.SetupFails? && cause == SetupError(step.code))
        || (step.ChannelShutdown? && cause == ChannelEnded(step.endCode))
      modifies this
      ensures Valid() && sys == DoDisconnect(old(sys), cause)
      ensures sys.history == HandOut(Then(old(sys.history), Recorded(cause)), localContext)
      ensures underlyingConnection == None && connectFlushContainer == None && !selfReference
      ensures currentState == desiredState == Disconnected && callbackContext == EMPTY_CONTEXT
      ensures if hasShutDown then localContext == EMPTY_CONTEXT
              else localContext == old(callbackContext).(error := localContext.error)
                   && localContext.error
                      == (if old(callbackContext.error).baseStatus == Success then error
                          else old(callbackContext.error))
      ensures hasShutDown == old(hasShutDown) && attempts == old(attempts)
    {
      DisconnectKept(sys, cause);
      sys := DoDisconnect(sys, cause);
      localContext := EMPTY_CONTEXT;
      underlyingConnection := None;
      currentState := Disconnected;
      desiredState := Disconnected;
      callbackContext := SetError(callbackContext, error);
      selfReference := false;
      if !hasShutDown {
        localContext := callbackContext;
      }
      callbackContext := EMPTY_CONTEXT;
      connectFlushContainer := None;
    }

    /** Connect, when the C layer's connect call has failed. */
    method RollBackConnect(lastError: Failure) returns (localContext: Context)
      requires Valid() && Enabled(sys, ConnectCallFails(lastError))
      modifies this
      ensures Valid() && sys == Apply(old(sys), ConnectCallFails(lastError)) && currentState == Disconnected
      ensures !hasShutDown && old(callbackContext.error).baseStatus == Success ==>
                localContext.error == RpcError(ConnectionSetupFailed, lastError)
    {
      localContext := MoveToDisconnected(RpcError(ConnectionSetupFailed, lastError), ConnectCallFails(lastError),
                                         ConnectCallFailed(lastError));
    }

    /** s_onConnectionSetup, when there is no connection. */
    method OnConnectionSetupFailed(errorCode: Failure) returns (localContext: Context)
      requires Valid() && Enabled(sys, SetupFails(errorCode))
      modifies this
      ensures Valid() && sys == Apply(old(sys), SetupFails(errorCode)) && currentState == Disconnected
      ensures !hasShutDown && old(callbackContext.error).baseStatus == Success ==>
                localContext.error == RpcError(CrtError, errorCode)
    {
      localContext := MoveToDisconnected(RpcError(CrtError, errorCode), SetupFails(errorCode), SetupError(errorCode));
    }

    /** s_onConnectionShutdown. */
    method OnConnectionShutdown(errorCode: CrtCode) returns (localContext: Context)
      requires Valid() && Enabled(sys, ChannelShutdown(errorCode))
      modifies this
      ensures Valid() && sys == Apply(old(sys), ChannelShutdown(errorCode)) && currentState == Disconnected
      ensures !hasShutDown && old(callbackContext.error).baseStatus == Success ==>
                localContext.error == RpcError(ConnectionClosed, errorCode)
    {
      localContext := MoveToDisconnected(RpcError(ConnectionClosed, errorCode), ChannelShutdown(errorCode),
                                         ChannelEnded(errorCode));
    }

    method CloseInternal(isShutdown: bool)
      returns (localContext: Context, closeConnection: Option<Attempt>, connectFlush: Option<Attempt>)
      requires Valid() && Enabled(sys, Close(isShutdown))
      modifies this
      ensures Valid() && sys == DoClose(old(sys), isShutdown)
      ensures sys.history == HandOut(Then(old(sys.history), CloseRequested), localContext)
      ensures !isShutdown ==> localContext == EMPTY_CONTEXT && connectFlush == None
      ensures connectFlush.Some? ==> connectFlush.value in sys.synthesised
      ensures closeConnection == (if old(currentState) == Connected || old(currentState) == PendingConnack
                                  then old(underlyingConnection) else None)
      ensures sys.closing == old(sys.closing) + (if closeConnection.Some? then multiset{closeConnection.value}
                                                 else multiset{})
      ensures desiredState == Disconnected && hasShutDown == (old(hasShutDown) || isShutdown)
      ensures currentState == (if closeConnection.Some? then Disconnecting else old(currentState))
      ensures underlyingConnection == old(underlyingConnection) && attempts == old(attempts)
      ensures var ctx := if isShutdown then localContext else callbackContext;
              && ctx == old(callbackContext).(error := ctx.error)
              && ctx.error == (if old(callbackContext.error).baseStatus == Success
                               then RpcError(ConnectionClosed, CrtConnectionClosed) else old(callbackContext.error))
      ensures isShutdown ==>
                callbackContext == EMPTY_CONTEXT && connectFlush == old(connectFlushContainer)
                && connectFlushContainer == None
      ensures !isShutdown ==> connectFlushContainer == old(connectFlushContainer)
    {
      CloseKept(sys, isShutdown);
      closeConnection, localContext, connectFlush := None, EMPTY_CONTEXT, None;
      sys := DoClose(sys, isShutdown);
      desiredState := Disconnected;
      callbackContext := SetError(callbackContext, RpcError(ConnectionClosed, CrtConnectionClosed));
      if isShutdown {
        hasShutDown := true;
      }
      if currentState == Connected || currentState == PendingConnack {
        currentState := Disconnecting;
        closeConnection := underlyingConnection;
      }
      if isShutdown {
        localContext := callbackContext;
        callbackContext := EMPTY_CONTEXT;
        connectFlush := connectFlushContainer;
        connectFlushContainer := None;
      }
    }

    /** The locked section of s_onConnectionSetup, for a setup that produced a connection. */
    method OnConnectionSetup(connection: Attempt, hasFlushCallback: bool)
      returns (closeConnection: Option<Attempt>, connectConnection: Option<Attempt>)
      requires Valid() && Enabled(sys, SetupSucceeds(hasFlushCallback)) && connection == attempts
      modifies this
      ensures Valid() && sys == DoSetup(old(sys), hasFlushCallback)
      ensures connectConnection.Some? <==> old(desiredState) == Connected
      ensures closeConnection.Some? <==> connectConnection == None
      ensures connectConnection.Some? ==> sys.sending && sys.refs[connectConnection.value] >= 2
      ensures closeConnection.Some? ==> closeConnection.value in sys.closing && currentState == Disconnecting
      ensures connectConnection.Some? ==> currentState == PendingConnack && connectFlushContainer == Some(connection)
      ensures connectConnection.Some? ==> connection in sys.flush && sys.flush[connection].incomplete
      ensures connectConnection.Some? ==> sys.flush[connection].hasCallback == hasFlushCallback
      ensures underlyingConnection == Some(connection)
      ensures closeConnection == Some(connection) || connectConnection == Some(connection)
      ensures callbackContext == old(callbackContext) && desiredState == old(desiredState)
    {
      SetupKept(sys, hasFlushCallback);
      assert currentState == PendingConnect;
      assert connectFlushContainer == None;
      sys := DoSetup(sys, hasFlushCallback);
      closeConnection, connectConnection := None, None;
      underlyingConnection := Some(connection);
      if desiredState != Connected {
        assert desiredState == Disconnected;
        currentState := Disconnecting;
        closeConnection := Some(connection);
      } else {
        currentState := PendingConnack;
        connectConnection := Some(connection);
        connectFlushContainer := Some(connection);
      }
    }

    /** The second locked section of s_onConnectionSetup: the CONNECT message could not be sent. */
    method RollBackConnack(connection: Attempt, connectErrorCode: Failure) returns (closeConnection: Option<Attempt>)
      requires Valid() && sys.sending && connection == attempts
      modifies this
      ensures Valid() && sys == DoSendFails(old(sys), connectErrorCode)
      ensures closeConnection == Some(connection) && connection in sys.closing && sys.refs == old(sys.refs)
      ensures connectFlushContainer == None && currentState == Disconnecting
      ensures callbackContext == old(callbackContext).(error := callbackContext.error)
      ensures callbackContext.error == (if old(callbackContext.error).baseStatus == Success
                                        then RpcError(CrtError, connectErrorCode) else old(callbackContext.error))
      ensures desiredState == old(desiredState) && underlyingConnection == old(underlyingConnection)
    {
      SendFailsKept(sys, connectErrorCode);
      sys := DoSendFails(sys, connectErrorCode);
      callbackContext := SetError(callbackContext, RpcError(CrtError, connectErrorCode));
      currentState := Disconnecting;
      closeConnection := Some(connection);
      connectFlushContainer := None;
    }

    /** The locked section for a CONNECT_ACK. */
    method OnConnectAck(connection: Attempt, successfulAck: bool)
      returns (localCallbackContext: Context, closeConnection: Option<Attempt>)
      requires Valid() && Enabled(sys, Ack(successfulAck)) && connection == attempts
      modifies this
      ensures Valid() && sys == DoAck(old(sys), successfulAck)
      ensures currentState == Connected <==> old(currentState) == PendingConnack && successfulAck
      ensures currentState == Connected ==>
                InvokeCallbacks(localCallbackContext) == [ConnectCallback(connection), PromiseSet(connection, NO_ERROR)]
      ensures currentState != Connected ==> localCallbackContext == EMPTY_CONTEXT
      ensures closeConnection.Some? <==> currentState == Disconnecting && old(currentState) != Disconnecting
      ensures closeConnection.Some? ==> closeConnection == Some(connection) && connection in sys.closing
      ensures EnteredConnected(sys.history, connection)
              <==> old(EnteredConnected(sys.history, connection)) || currentState == Connected
      ensures currentState == Connected ==>
                && desiredState == old(desiredState) && callbackContext.action == DisconnectionCallback
                && callbackContext.onDisconnect == Some(connection)
                && callbackContext.error == RpcError(Success, CrtSuccess)
      ensures currentState != Connected ==>
                && currentState == Disconnecting && desiredState == Disconnected
                && callbackContext == old(callbackContext).(error := callbackContext.error)
                && callbackContext.error
                   == (if old(callbackContext.error).baseStatus == Success && !hasShutDown then
                         RpcError(if successfulAck then ConnectionClosed else ConnectionAccessDenied, CrtSuccess)
                       else old(callbackContext.error))
      ensures underlyingConnection == old(underlyingConnection)
      ensures connectFlushContainer == old(connectFlushContainer)
    {
      AckKept(sys, successfulAck);
      sys := DoAck(sys, successfulAck);
      localCallbackContext, closeConnection := EMPTY_CONTEXT, None;
      if currentState != PendingConnack || !successfulAck {
        if !hasShutDown {
          callbackContext := SetError(callbackContext,
            RpcError(if successfulAck then ConnectionClosed else ConnectionAccessDenied, CrtSuccess));
        }
        desiredState := Disconnected;
        if currentState != Disconnecting {
          currentState := Disconnecting;
          closeConnection := Some(connection);
        }
      } else {
        currentState := Connected;
        localCallbackContext, callbackContext := MoveToConnected(callbackContext);
      }
    }
  }
}
