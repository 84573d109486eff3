/**
 * Once-only completion of a message flush. Several parties may try to complete one container: the C layer when the
 * message is flushed, the call that failed to submit it, and the close and shutdown paths that synthesise callbacks.
 */
module FlushContainer {
  import opened Rpc

  /** Everything observable about one container: the values its promise was given and the codes its callback saw. */
  datatype Flush = Flush(incomplete: bool, hasCallback: bool, promise: seq<RpcError>, called: seq<CrtCode>)

  function New(hasCallback: bool): Flush {
    Flush(true, hasCallback, [], [])
  }

  ghost predicate WellFormed(f: Flush) {
    && |f.promise| == (if f.incomplete then 0 else 1)
    && f.called == (if f.hasCallback && !f.incomplete then [f.promise[0].crtError] else [])
  }

  function Completed(f: Flush, error: RpcError): Flush {
    if f.incomplete then
      Flush(false, f.hasCallback, f.promise + [error], if f.hasCallback then f.called + [error.crtError] else f.called)
    else
      f
  }

  function CompleteAll(f: Flush, errors: seq<RpcError>): Flush
    decreases |errors|
  {
    if errors == [] then f else CompleteAll(Completed(f, errors[0]), errors[1..])
  }

  /** What the C layer's flush callback reports for an error code. */
  function FlushResult(code: CrtCode): RpcError {
    RpcError(if code == CrtSuccess then Success else CrtError, code)
  }

  /** Whatever the order and number of completions, only the first one reaches the promise and the callback. */
  lemma {:induction false} FirstCompletionWins(hasCallback: bool, errors: seq<RpcError>)
    requires errors != []
    ensures var f := CompleteAll(New(hasCallback), errors);
            && WellFormed(f)
            && f.promise == [errors[0]]
            && f.called == (if hasCallback then [errors[0].crtError] else [])
  {
    FinishedIgnoresRest(Completed(New(hasCallback), errors[0]), errors[1..]);
  }

  lemma {:induction false} FinishedIgnoresRest(f: Flush, errors: seq<RpcError>)
    requires !f.incomplete
    ensures CompleteAll(f, errors) == f
    decreases |errors|
  {
    if errors != [] {
      FinishedIgnoresRest(f, errors[1..]);
    }
  }

  class OnMessageFlushCallbackContainer {
    var finished: bool
    var onMessageFlushCallback: bool
    ghost var flush: Flush

    ghost predicate Valid()
      reads this
    {
      && WellFormed(flush)
      && finished == !flush.incomplete
      && (!finished ==> onMessageFlushCallback == flush.hasCallback)
    }

    constructor (flushCallback: bool)
      ensures Valid() && flush == New(flushCallback)
    {
      finished := false;
      onMessageFlushCallback := flushCallback;
      flush := New(flushCallback);
    }

    /**
     * Completes a container that may be null. The winner takes the callback and the promise out under the lock and
     * uses them after releasing it; `promise` and `called` are what it then does.
     */
    static method Complete(container: OnMessageFlushCallbackContainer?, error: RpcError)
      returns (promise: Option<RpcError>, called: Option<CrtCode>)
      requires container != null ==> container.Valid()
      modifies container
      ensures container == null ==> promise == None && called == None
      ensures container != null ==>
                && container.finished
                && promise == (if old(container.finished) then None else Some(error))
                && called == (if !old(container.finished) && old(container.onMessageFlushCallback)
                              then Some(error.crtError) else None)
      ensures container != null ==>
                && container.Valid()
                && container.flush == Completed(old(container.flush), error)
                && container.flush.promise
                   == old(container.flush.promise) + (if promise.Some? then [promise.value] else [])
                && container.flush.called
                   == old(container.flush.called) + (if called.Some? then [called.value] else [])
    {
      promise, called := None, None;
      if container == null {
        return;
      }
      var performCallback := false;
      var callback := false;
      if !container.finished {
        performCallback := true;
        container.finished := true;
        callback := container.onMessageFlushCallback;
        container.onMessageFlushCallback := false;
      }
      if performCallback {
        promise := Some(error);
        if callback {
          called := Some(error.crtError);
        }
      }
      container.flush := Completed(container.flush, error);
    }

    /** s_protocolMessageCallback, by which the C layer reports that a message has been flushed. */
    static method ProtocolMessageCallback(errorCode: CrtCode, container: OnMessageFlushCallbackContainer)
      returns (promise: Option<RpcError>, called: Option<CrtCode>)
      requires container.Valid()
      modifies container
      ensures container.Valid() && container.flush == Completed(old(container.flush), FlushResult(errorCode))
      ensures promise == (if old(container.finished) then None
                          else if errorCode == CrtSuccess then Some(RpcError(Success, CrtSuccess))
                          else Some(RpcError(CrtError, errorCode)))
      ensures called == (if promise.Some? && old(container.onMessageFlushCallback) then Some(errorCode) else None)
    {
      var rpcStatus := if errorCode == CrtSuccess then Success else CrtError;
      promise, called := Complete(container, RpcError(rpcStatus, errorCode));
    }
  }
}
