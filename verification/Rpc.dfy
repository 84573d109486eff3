/** Status codes, errors and optional values shared by the event-stream RPC client. */
module Rpc {

  datatype Option<+T> = None | Some(value: T)

  /** EventStreamRpcStatusCode, in declaration order. */
  datatype Status =
    | Success
    | NullParameter
    | Uninitialized
    | AllocationError
    | ConnectionSetupFailed
    | ConnectionAccessDenied
    | ConnectionAlreadyEstablished
    | ConnectionClosed
    | ContinuationClosed
    | UnknownProtocolMessage
    | UnmappedData
    | UnsupportedContentType
    | CrtError
    | ContinuationNotYetOpened

  /** The C runtime's error numbers: success, the three the client names, and every other one. */
  datatype CrtCode =
    | CrtSuccess
    | CrtInvalidArgument
    | CrtInvalidState
    | CrtConnectionClosed
    | CrtOther(code: nat)

  /** A code left behind by a C call that failed. */
  type Failure = c: CrtCode | c != CrtSuccess witness CrtInvalidState

  datatype RpcError = RpcError(baseStatus: Status, crtError: CrtCode)

  const NO_ERROR := RpcError(Success, CrtSuccess)
}
