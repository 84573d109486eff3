/**
 * ClientContinuationImpl: its fields, and its methods cut where they take and leave m_sharedStateLock. Each method
 * below is one locked section; `sys` is the state of the whole system once it is done. The `assert false` branches are
 * the source's fatal asserts.
 */
module Continuation {
  import opened Rpc
  import opened ContinuationProtocol
  import Routing

  class ClientContinuationImpl {
    const connectionEventLoop: bool
    const continuationValid: bool
    const model: Routing.Model
    var currentState: Phase
    var continuation: bool
    var activationCallbackContainer: Option<CallId>
    var activationResponseCallback: Option<CallId>
    var closeCallbackContainer: Option<CallId>
    var streamHandler: bool
    var calls: CallId                  // numbers the API calls
    ghost var sys: System

    ghost predicate Valid()
      reads this
    {
      && sys.sh == Shared(currentState, continuation, activationCallbackContainer, activationResponseCallback,
                          closeCallbackContainer)
      && sys.origin.Created? == continuationValid && sys.origin.NoConnection? == !connectionEventLoop
      && sys.model == model && sys.handler == streamHandler
      && |sys.calls| == calls
      && Inv(sys)
    }

    /** `created` tells whether the C layer, asked only when there is a connection, made a continuation. */
    constructor (connected: bool, created: bool, operation: Routing.Model)
      ensures Valid()
      ensures sys == Initial(if !connected then NoConnection else if !created then NoStream else Created, operation)
    {
      connectionEventLoop, model := connected, operation;
      currentState, continuationValid := Fresh, true;
      var newStream := false;
      if connected {
        newStream := created;
      }
      continuation := newStream;
      if !newStream {
        continuationValid := false;
        currentState := Closed;
      }
      activationCallbackContainer, activationResponseCallback, closeCallbackContainer := None, None, None;
      streamHandler, calls := true, 0;
      sys := Initial(if !connected then NoConnection else if !created then NoStream else Created, operation);
      new;
      InitialInv(sys.origin, operation);
    }

    /** What happens outside the locked sections: C calls return, flushes are reported, containers are completed. */
    ghost method OutsideTheLock(step: Step)
      requires Valid() && Enabled(sys, step)
      requires step.ActivateSucceeds? || step.SendSucceeds? || step.SendFails? || step.CloseSucceeds?
               || step.CompleteFailure? || step.FlushDone? || step.SynthesiseFlush?
      modifies this`sys
      ensures Valid() && sys == Apply(old(sys), step)
    {
      InvKept(sys, step);
      sys := Apply(sys, step);
    }

    method BeginActivate(hasFlushCallback: bool)
      returns (id: CallId, activateContinuation: bool, activationError: RpcError)
      requires Valid() && Enabled(sys, Activate(hasFlushCallback))
      modifies this
      ensures Valid() && sys == DoActivate(old(sys), hasFlushCallback)
      ensures id == old(calls)
      ensures Owns(sys, id, if activateContinuation then InActivate else Failed(activationError))
      ensures activateContinuation <==> old(currentState) == Fresh
      ensures activationError == match old(currentState)
                                 case Fresh => RpcError(Success, CrtSuccess)
                                 case PendingActivate => RpcError(CrtError, CrtInvalidState)
                                 case Activated => RpcError(CrtError, CrtInvalidState)
                                 case _ => RpcError(if continuationValid then ContinuationClosed else ConnectionClosed,
                                                    CrtSuccess)
      ensures currentState == (if activateContinuation then PendingActivate else old(currentState))
      ensures activateContinuation ==> activationCallbackContainer == activationResponseCallback == Some(id)
      ensures !activateContinuation ==>
                && activationCallbackContainer == old(activationCallbackContainer)
                && activationResponseCallback == old(activationResponseCallback)
      ensures continuation == old(continuation) && closeCallbackContainer == old(closeCallbackContainer)
    {
      ActivateKept(sys, hasFlushCallback);
      sys := DoActivate(sys, hasFlushCallback);
      id, activateContinuation, activationError := calls, false, NO_ERROR;
      calls := calls + 1;
      if continuation {
        if currentState == Fresh {
          activateContinuation := true;
          currentState := PendingActivate;
          activationCallbackContainer := Some(id);
          activationResponseCallback := Some(id);
        } else {
          match currentState {
            case PendingActivate => activationError := RpcError(CrtError, CrtInvalidState);
            case Activated => activationError := RpcError(CrtError, CrtInvalidState);
            case PendingClose =>
              activationError := RpcError(EmptyContinuationStatusCode(continuationValid), CrtSuccess);
            case Closed => activationError := RpcError(EmptyContinuationStatusCode(continuationValid), CrtSuccess);
            case Fresh => assert false;
          }
        }
      } else {
        activationError := RpcError(EmptyContinuationStatusCode(continuationValid), CrtSuccess);
      }
    }

    method RollBackActivate(id: CallId, lastError: Failure) returns (activationError: RpcError)
      requires Valid() && Enabled(sys, ActivateFails(id, lastError))
      modifies this
      ensures Valid() && sys == DoActivateFails(old(sys), id, lastError)
      ensures Owns(sys, id, Failed(activationError)) && activationError == RpcError(CrtError, lastError)
      ensures currentState == Fresh && activationCallbackContainer == None && activationResponseCallback == None
      ensures continuation == old(continuation) && closeCallbackContainer == old(closeCallbackContainer)
    {
      ActivateFailsKept(sys, id, lastError);
      sys := DoActivateFails(sys, id, lastError);
      currentState := Fresh;
      activationCallbackContainer := None;
      activationResponseCallback := None;
      activationError := RpcError(CrtError, lastError);
    }

    method BeginSend(hasFlushCallback: bool) returns (id: CallId, sendContinuation: bool, sendError: RpcError)
      requires Valid() && Enabled(sys, Send(hasFlushCallback))
      modifies this
      ensures Valid() && sys == DoSend(old(sys), hasFlushCallback)
      ensures id == old(calls)
      ensures Owns(sys, id, if sendContinuation then InSend else Failed(sendError))
      ensures sendContinuation ==> sys.responded && sys.accepted == 1
      ensures sendContinuation <==> old(currentState) == Activated
      ensures sendError == match old(currentState)
                           case Activated => RpcError(Success, CrtSuccess)
                           case Fresh => RpcError(ContinuationNotYetOpened, CrtSuccess)
                           case PendingActivate => RpcError(ContinuationNotYetOpened, CrtSuccess)
                           case PendingClose => RpcError(ContinuationClosed, CrtSuccess)
                           case Closed => RpcError(if continuationValid then ContinuationClosed else ConnectionClosed,
                                                   CrtSuccess)
      ensures sys.sh == old(sys.sh)
    {
      InvKept(sys, Send(hasFlushCallback));
      sys := DoSend(sys, hasFlushCallback);
      id, sendContinuation, sendError := calls, false, NO_ERROR;
      calls := calls + 1;
      if continuation {
        if currentState == Activated {
          sendContinuation := true;
        } else {
          match currentState {
            case PendingActivate => sendError := RpcError(ContinuationNotYetOpened, CrtSuccess);
            case Fresh => sendError := RpcError(ContinuationNotYetOpened, CrtSuccess);
            case PendingClose => sendError := RpcError(ContinuationClosed, CrtSuccess);
            case Closed => sendError := RpcError(ContinuationClosed, CrtSuccess);
            case Activated => assert false;
          }
        }
      } else {
        sendError := RpcError(EmptyContinuationStatusCode(continuationValid), CrtSuccess);
      }
    }

    method BeginClose(hasFlushCallback: bool)
      returns (id: CallId, closeContinuation: bool, previousState: Phase, closeError: RpcError)
      requires Valid()
      modifies this
      ensures Valid() && sys == DoClose(old(sys), hasFlushCallback)
      ensures id == old(calls) && previousState == old(currentState)
      ensures Owns(sys, id, if closeContinuation then InClose(previousState) else Failed(closeError))
      ensures closeContinuation <==>
                old(continuation) && (old(currentState) == PendingActivate || old(currentState) == Activated)
      ensures closeError == if closeContinuation then RpcError(Success, CrtSuccess)
                            else if old(currentState) == Closed && !continuationValid
                            then RpcError(ConnectionClosed, CrtSuccess)
                            else RpcError(ContinuationClosed, CrtSuccess)
      ensures currentState == (if closeContinuation then PendingClose else old(currentState))
      ensures closeCallbackContainer == (if closeContinuation then Some(id) else old(closeCallbackContainer))
      ensures continuation == old(continuation) && activationCallbackContainer == old(activationCallbackContainer)
      ensures activationResponseCallback == old(activationResponseCallback)
    {
      CloseKept(sys, hasFlushCallback);
      sys := DoClose(sys, hasFlushCallback);
      id, closeContinuation, closeError := calls, false, NO_ERROR;
      calls := calls + 1;
      previousState := currentState;
      if continuation {
        if currentState == PendingActivate || currentState == Activated {
          currentState := PendingClose;
          closeContinuation := true;
          closeCallbackContainer := Some(id);
        } else {
          closeError := RpcError(ContinuationClosed, CrtSuccess);
        }
      } else {
        closeError := RpcError(EmptyContinuationStatusCode(continuationValid), CrtSuccess);
      }
    }

    method RollBackClose(id: CallId, previousState: Phase, lastError: Failure) returns (closeError: RpcError)
      requires Valid() && Owns(sys, id, InClose(previousState))
      modifies this
      ensures Valid() && sys == DoCloseFails(old(sys), id, lastError)
      ensures Owns(sys, id, Failed(closeError))
      ensures currentState == (if old(currentState) == Closed then Closed else previousState)
      ensures closeError == RpcError(CrtError, lastError) && closeCallbackContainer == None
      ensures continuation == old(continuation) && activationCallbackContainer == old(activationCallbackContainer)
      ensures activationResponseCallback == old(activationResponseCallback)
    {
      CloseFailsKept(sys, id, lastError);
      sys := DoCloseFails(sys, id, lastError);
      closeError := RpcError(CrtError, lastError);
      closeCallbackContainer := None;
      if currentState != Closed {
        currentState := previousState;
      }
    }

    method OnClosed()
      returns (releaseContinuation: bool, activationContainer: Option<CallId>, closeContainer: Option<CallId>,
               activationResponse: Option<CallId>)
      requires Valid() && Enabled(sys, Step.OnClosed)
      modifies this
      ensures Valid() && sys == DoClosed(old(sys))
      ensures sys.released == old(sys.released) + (if releaseContinuation then 1 else 0)
      ensures sys.answers
              == old(sys.answers) + (if activationResponse.Some?
                                     then [Routing.RpcFailure(RpcError(ContinuationClosed, CrtSuccess))] else [])
      ensures |sys.answers| == 1
      ensures currentState == Closed && !continuation && releaseContinuation == old(continuation)
      ensures activationContainer == old(activationCallbackContainer) && closeContainer == old(closeCallbackContainer)
      ensures activationResponse == old(activationResponseCallback)
      ensures activationCallbackContainer == closeCallbackContainer == activationResponseCallback == None
      ensures activationContainer.Some? ==> activationContainer.value in sys.synthesised
      ensures closeContainer.Some? ==> closeContainer.value in sys.synthesised
    {
      ClosedKept(sys);
      sys := DoClosed(sys);
      currentState := Closed;
      releaseContinuation := continuation;
      continuation := false;
      activationContainer := activationCallbackContainer;
      activationCallbackContainer := None;
      closeContainer := closeCallbackContainer;
      closeCallbackContainer := None;
      activationResponse := activationResponseCallback;
      activationResponseCallback := None;
    }

    /** `answer` is the result callback's argument when one was stored; `shouldClose` asks for a Close afterwards. */
    method OnMessage(message: Routing.Message)
      returns (isResponse: bool, result: Routing.Result, answer: Option<Routing.Answer>, shouldClose: bool)
      requires Valid() && Enabled(sys, Step.OnMessage(message))
      modifies this
      ensures Valid() && sys == DoMessage(old(sys), message)
      ensures isResponse <==> old(currentState) == PendingActivate
      ensures result == Routing.Classify(model, message, isResponse)
      ensures sys.answers == old(sys.answers) + (if answer.Some? then [answer.value] else [])
      ensures shouldClose <==>
                isResponse && !(result.status == Success && result.message.value.route == Routing.Response)
      ensures answer.Some? <==> isResponse && old(activationResponseCallback).Some?
      ensures answer.Some? ==>
                answer.value == if result.status != Success then Routing.RpcFailure(RpcError(result.status, CrtSuccess))
                                else if result.message.value.route == Routing.Response
                                then Routing.ModeledResponse(result.message.value.shape.value)
                                else Routing.ModeledError(result.message.value.shape.value)
      ensures isResponse ==> activationResponseCallback == None && activationCallbackContainer == None
      ensures !isResponse ==> sys.sh == old(sys.sh) && sys.delivering == Some(result)
      ensures continuation == old(continuation) && closeCallbackContainer == old(closeCallbackContainer)
      ensures isResponse && !shouldClose ==>
                currentState == (if message.terminatesStream then PendingClose else Activated)
      ensures !isResponse || shouldClose ==> currentState == old(currentState)
    {
      MessageKept(sys, message);
      sys := DoMessage(sys, message);
      isResponse := currentState == PendingActivate;
      answer, shouldClose := None, false;
      result := Routing.DeserializeRawMessage(model, message, isResponse);
      Routing.ClassificationSound(model, message, isResponse);
      var activationResultCallback: Option<CallId> := None;
      if isResponse {
        activationResultCallback := activationResponseCallback;
        activationResponseCallback := None;
        activationCallbackContainer := None;
        if result.status == Success && result.message.value.route == Routing.Response {
          if !message.terminatesStream {
            currentState := Activated;
          } else {
            currentState := PendingClose;
          }
        } else {
          shouldClose := true;
        }
      }
      if activationResultCallback.Some? {
        if result.status == Success {
          if result.message.value.route == Routing.Response {
            answer := Some(Routing.ModeledResponse(result.message.value.shape.value));
          } else {
            answer := Some(Routing.ModeledError(result.message.value.shape.value));
          }
        } else {
          answer := Some(Routing.RpcFailure(RpcError(result.status, CrtSuccess)));
        }
      }
    }

    /** The rest of OnMessage, under the handler lock, for a message that was no activation response. */
    method DeliverToHandler(result: Routing.Result) returns (call: Option<Routing.HandlerCall>)
      requires Valid() && sys.delivering == Some(result)
      modifies this
      ensures Valid() && sys == DoDeliver(old(sys))
      ensures sys.handlerCalls == old(sys.handlerCalls) + (if call.Some? then [call.value] else [])
      ensures call.Some? <==> sys.shut == Running
      ensures call.Some? ==>
                call.value == if result.message == None
                              then Routing.OnStreamError(None, RpcError(result.status, CrtSuccess))
                              else if result.message.value.route == Routing.Stream
                              then Routing.OnStreamEvent(result.message.value.shape)
                              else Routing.OnStreamError(result.message.value.shape, RpcError(Success, CrtSuccess))
    {
      DeliverKept(sys);
      call := None;
      if streamHandler {
        if result.message.Some? {
          match result.message.value.route {
            case Stream => call := Some(Routing.OnStreamEvent(result.message.value.shape));
            case Error => call := Some(Routing.OnStreamError(result.message.value.shape, NO_ERROR));
            case Response => assert false;
          }
        } else {
          call := Some(Routing.OnStreamError(None, RpcError(result.status, CrtSuccess)));
        }
      }
      sys := DoDeliver(sys);
    }

    /** The part of ShutDown under the handler lock, if that is taken at all. */
    method ClearStreamHandler()
      requires Valid() && Enabled(sys, ClearHandler)
      modifies this
      ensures Valid() && sys == DoClearHandler(old(sys))
      ensures streamHandler <==> old(streamHandler) && !connectionEventLoop
    {
      ClearHandlerKept(sys);
      sys := DoClearHandler(sys);
      if connectionEventLoop {
        streamHandler := false;
      }
    }

    /** The part of ShutDown under the shared state lock. */
    method ShutDown()
      returns (releaseContinuation: bool, activationContainer: Option<CallId>, closeContainer: Option<CallId>,
               activationResponse: Option<CallId>)
      requires Valid() && Enabled(sys, ShutDownStep)
      modifies this
      ensures Valid() && sys == DoShutDown(old(sys))
      ensures sys.released == old(sys.released) + (if releaseContinuation then 1 else 0)
      ensures sys.answers
              == old(sys.answers) + (if activationResponse.Some?
                                     then [Routing.RpcFailure(RpcError(ContinuationClosed, CrtSuccess))] else [])
      ensures |sys.answers| == sys.accepted
      ensures releaseContinuation <==> old(currentState) == Fresh
      ensures currentState == (if releaseContinuation then Closed else old(currentState))
      ensures continuation == (old(continuation) && !releaseContinuation)
      ensures activationContainer == old(activationCallbackContainer) && closeContainer == old(closeCallbackContainer)
      ensures activationResponse == old(activationResponseCallback)
      ensures activationCallbackContainer == closeCallbackContainer == activationResponseCallback == None
      ensures activationContainer.Some? ==> activationContainer.value in sys.synthesised
      ensures closeContainer.Some? ==> closeContainer.value in sys.synthesised
    {
      ShutDownKept(sys);
      sys := DoShutDown(sys);
      releaseContinuation := false;
      if currentState == Fresh {
        releaseContinuation := continuation;
        continuation := false;
        currentState := Closed;
      }
      activationContainer := activationCallbackContainer;
      activationCallbackContainer := None;
      closeContainer := closeCallbackContainer;
      closeCallbackContainer := None;
      activationResponse := activationResponseCallback;
      activationResponseCallback := None;
    }
  }
}
