/**
 * The continuation's locked sections as functions on its shared state, and the transition system they form together
 * with the C layer, the calls that have left the lock but not returned, and the event loop.
 */
module ContinuationProtocol {
  import opened Rpc
  import opened FlushContainer
  import Routing

  /** Every API call owns one flush container; both are named by the call's number. */
  type CallId = nat

  /** ContinuationStateType; `Fresh` is its None. */
  datatype Phase = Fresh | PendingActivate | Activated | PendingClose | Closed

  /** m_sharedState; `response` names the Activate call whose result callback is stored. */
  datatype Shared = Shared(
    phase: Phase,
    token: bool,
    activation: Option<CallId>,
    response: Option<CallId>,
    close: Option<CallId>)

  /* ----- locked sections ----- */

  function EmptyContinuationStatusCode(valid: bool): Status {
    if valid then ContinuationClosed else ConnectionClosed
  }

  /** Why Activate gives up under the lock, if it does. */
  function ActivateRefusal(sh: Shared, valid: bool): Option<RpcError> {
    if !sh.token then Some(RpcError(EmptyContinuationStatusCode(valid), CrtSuccess)) else
    match sh.phase
    case Fresh => None
    case PendingActivate => Some(RpcError(CrtError, CrtInvalidState))
    case Activated => Some(RpcError(CrtError, CrtInvalidState))
    case PendingClose => Some(RpcError(EmptyContinuationStatusCode(valid), CrtSuccess))
    case Closed => Some(RpcError(EmptyContinuationStatusCode(valid), CrtSuccess))
  }

  function SendRefusal(sh: Shared, valid: bool): Option<RpcError> {
    if !sh.token then Some(RpcError(EmptyContinuationStatusCode(valid), CrtSuccess)) else
    match sh.phase
    case Activated => None
    case Fresh => Some(RpcError(ContinuationNotYetOpened, CrtSuccess))
    case PendingActivate => Some(RpcError(ContinuationNotYetOpened, CrtSuccess))
    case PendingClose => Some(RpcError(ContinuationClosed, CrtSuccess))
    case Closed => Some(RpcError(ContinuationClosed, CrtSuccess))
  }

  function CloseRefusal(sh: Shared, valid: bool): Option<RpcError> {
    if !sh.token then Some(RpcError(EmptyContinuationStatusCode(valid), CrtSuccess))
    else if sh.phase == PendingActivate || sh.phase == Activated then None
    else Some(RpcError(ContinuationClosed, CrtSuccess))
  }

  function ActivateSection(sh: Shared, id: CallId): Shared {
    sh.(phase := PendingActivate, activation := Some(id), response := Some(id))
  }

  function ActivateRollbackSection(sh: Shared): Shared {
    sh.(phase := Fresh, activation := None, response := None)
  }

  function CloseSection(sh: Shared, id: CallId): Shared {
    sh.(phase := PendingClose, close := Some(id))
  }

  function CloseRollbackSection(sh: Shared, previous: Phase): Shared {
    sh.(close := None, phase := if sh.phase != Closed then previous else Closed)
  }

  const CLOSED_SHARED := Shared(Closed, false, None, None, None)

  /** OnMessage's locked section for a message taken as the activation's response. */
  function ResponseSection(sh: Shared, r: Routing.Result, terminatesStream: bool): Shared {
    sh.(response := None, activation := None,
        phase := if !Routing.IsInitialResponse(r) then sh.phase
                 else if terminatesStream then PendingClose else Activated)
  }

  function ShutDownSection(sh: Shared): Shared {
    Shared(if sh.phase == Fresh then Closed else sh.phase, sh.token && sh.phase != Fresh, None, None, None)
  }

  /* ----- the system ----- */

  /** Who will complete a call's container and delete its wrapper. */
  datatype Owner =
    | InActivate                    // the Activate call, out of the lock
    | InSend                        // the SendStreamMessage call, out of the lock
    | InClose(previous: Phase)      // the Close call, out of the lock, with the state it saw
    | Failed(error: RpcError)       // a call that is about to complete it with an error
    | InC                           // the C layer, when the message has been flushed

  datatype Stream = Unopened | Open | Ended

  datatype ShutStage = Running | HandlerCleared | ShutDown

  /** What the constructor found: no connection, hence no event loop either; a connection on which the C layer made no
      continuation; or a continuation. */
  datatype Origin = NoConnection | NoStream | Created

  datatype System = System(
    origin: Origin,                         // Created exactly when m_continuationValid
    model: Routing.Model,
    sh: Shared,
    handler: bool,                          // m_streamHandler is set
    calls: seq<Flush>,
    owner: map<CallId, Owner>,
    synthesised: set<CallId>,               // containers OnClosed or ShutDown took and is about to complete
    stream: Stream,                         // what the C layer made of the continuation
    accepted: nat,                          // activations the C layer accepted
    answers: seq<Routing.Answer>,           // result callbacks invoked
    delivering: Option<Routing.Result>,     // OnMessage between its locked section and the handler lock
    handlerCalls: seq<Routing.HandlerCall>,
    terminates: nat,                        // empty terminate messages the C layer accepted
    responded: bool,                        // an initial response was taken as such and left the stream open
    serverEnded: bool,                      // an initial response was taken as such, with the terminate flag
    released: nat,                          // times the C continuation was handed over for release
    shut: ShutStage)

  function Initial(origin: Origin, model: Routing.Model): System {
    System(origin, model, Shared(if origin.Created? then Fresh else Closed, origin.Created?, None, None, None), true,
           [], map[], {}, Unopened, 0, [], None, [], 0, false, false, 0, Running)
  }

  datatype Step =
    | Activate(hasFlushCallback: bool)
    | ActivateSucceeds(id: CallId)
    | ActivateFails(id: CallId, code: Failure)
    | Send(hasFlushCallback: bool)
    | SendSucceeds(id: CallId)
    | SendFails(id: CallId, code: Failure)
    | Close(hasFlushCallback: bool)
    | CloseSucceeds(id: CallId)
    | CloseFails(id: CallId, code: Failure)
    | CompleteFailure(id: CallId)
    | FlushDone(id: CallId, flushCode: CrtCode)
    | OnMessage(message: Routing.Message)
    | Deliver
    | OnClosed
    | SynthesiseFlush(id: CallId)
    | ClearHandler
    | ShutDownStep

  predicate Owns(s: System, id: CallId, owner: Owner) {
    id in s.owner && s.owner[id] == owner
  }

  predicate InFlightClose(s: System, id: CallId) {
    id in s.owner && s.owner[id].InClose?
  }

  /** The environment's assumptions. Messages and the closed callback come only for an activation the C layer accepted,
      one at a time; ShutDown is called once, while no Activate is in flight, and no Activate or SendStreamMessage
      follows it. */
  predicate Enabled(s: System, step: Step) {
    match step
    case Activate(_) => s.shut == Running
    case ActivateSucceeds(id) => Owns(s, id, InActivate)
    case ActivateFails(id, _) => Owns(s, id, InActivate)
    case Send(_) => s.shut == Running
    case SendSucceeds(id) => Owns(s, id, InSend)
    case SendFails(id, _) => Owns(s, id, InSend)
    case Close(_) => true
    case CloseSucceeds(id) => InFlightClose(s, id)
    case CloseFails(id, _) => InFlightClose(s, id)
    case CompleteFailure(id) => id in s.owner && s.owner[id].Failed? && id < |s.calls|
    case FlushDone(id, _) => Owns(s, id, InC) && id < |s.calls|
    case OnMessage(_) => s.stream == Open && s.delivering == None
    case Deliver => s.delivering.Some?
    case OnClosed => s.stream == Open && s.delivering == None
    case SynthesiseFlush(id) => id in s.synthesised && id < |s.calls|
    case ClearHandler => s.shut == Running && forall id | id in s.owner :: s.owner[id] != InActivate
    case ShutDownStep => s.shut == HandlerCleared
  }

  /** A new call whose container is so far its own. */
  function NewCall(s: System, hasFlushCallback: bool, owner: Owner): System {
    s.(calls := s.calls + [New(hasFlushCallback)], owner := s.owner[|s.calls| := owner])
  }

  function Give(s: System, id: CallId, owner: Owner): System {
    s.(owner := s.owner[id := owner])
  }

  function DoActivate(s: System, hasFlushCallback: bool): System {
    match ActivateRefusal(s.sh, s.origin.Created?)
    case Some(error) => NewCall(s, hasFlushCallback, Failed(error))
    case None => NewCall(s, hasFlushCallback, InActivate).(sh := ActivateSection(s.sh, |s.calls|))
  }

  function DoActivateSucceeds(s: System, id: CallId): System {
    Give(s, id, InC).(stream := Open, accepted := s.accepted + 1)
  }

  function DoActivateFails(s: System, id: CallId, code: Failure): System {
    Give(s, id, Failed(RpcError(CrtError, code))).(sh := ActivateRollbackSection(s.sh))
  }

  function DoSend(s: System, hasFlushCallback: bool): System {
    match SendRefusal(s.sh, s.origin.Created?)
    case Some(error) => NewCall(s, hasFlushCallback, Failed(error))
    case None => NewCall(s, hasFlushCallback, InSend)
  }

  function DoClose(s: System, hasFlushCallback: bool): System {
    match CloseRefusal(s.sh, s.origin.Created?)
    case Some(error) => NewCall(s, hasFlushCallback, Failed(error))
    case None =>
      NewCall(s, hasFlushCallback, InClose(s.sh.phase)).(sh := CloseSection(s.sh, |s.calls|))
  }

  function DoCloseSucceeds(s: System, id: CallId): System {
    Give(s, id, InC).(terminates := s.terminates + 1)
  }

  function DoCloseFails(s: System, id: CallId, code: Failure): System
    requires InFlightClose(s, id)
  {
    Give(s, id, Failed(RpcError(CrtError, code))).(sh := CloseRollbackSection(s.sh, s.owner[id].previous))
  }

  /** Completes a container and deletes its wrapper. */
  function Finish(s: System, id: CallId, error: RpcError): System
    requires id < |s.calls|
  {
    s.(calls := s.calls[id := Completed(s.calls[id], error)], owner := s.owner - {id})
  }

  const SYNTHESISED := RpcError(ContinuationClosed, CrtSuccess)

  function DoSynthesise(s: System, id: CallId): System
    requires id < |s.calls|
  {
    s.(calls := s.calls[id := Completed(s.calls[id], SYNTHESISED)], synthesised := s.synthesised - {id})
  }

  /** The answers of a section that moved the result callback out and invokes it. */
  function Answered(s: System, answer: Routing.Answer): seq<Routing.Answer> {
    if s.sh.response.Some? then s.answers + [answer] else s.answers
  }

  function DoMessage(s: System, m: Routing.Message): System {
    var isResponse := s.sh.phase == PendingActivate;
    var r := Routing.Classify(s.model, m, isResponse);
    if isResponse then
      s.(sh := ResponseSection(s.sh, r, m.terminatesStream),
         answers := Answered(s, Routing.AnswerOf(r)),
         responded := s.responded || (Routing.IsInitialResponse(r) && !m.terminatesStream),
         serverEnded := s.serverEnded || (Routing.IsInitialResponse(r) && m.terminatesStream))
    else
      s.(delivering := Some(r))
  }

  function DoDeliver(s: System): System {
    s.(delivering := None,
       handlerCalls := if s.handler && s.delivering.Some?
                          && (s.delivering.value.message.Some? ==>
                                s.delivering.value.message.value.route != Routing.Response)
                       then s.handlerCalls + [Routing.HandlerCallOf(s.delivering.value)] else s.handlerCalls)
  }

  function Containers(sh: Shared): set<CallId> {
    (if sh.activation.Some? then {sh.activation.value} else {}) + (if sh.close.Some? then {sh.close.value} else {})
  }

  function DoClosed(s: System): System {
    s.(sh := CLOSED_SHARED,
       stream := Ended,
       answers := Answered(s, Routing.RpcFailure(SYNTHESISED)),
       synthesised := s.synthesised + Containers(s.sh),
       released := if s.sh.token then s.released + 1 else s.released)
  }

  /** Without an event loop the handler stays, but then no message ever comes. */
  function DoClearHandler(s: System): System {
    s.(handler := s.handler && s.origin.NoConnection?, shut := HandlerCleared)
  }

  function DoShutDown(s: System): System {
    s.(sh := ShutDownSection(s.sh),
       answers := Answered(s, Routing.RpcFailure(SYNTHESISED)),
       synthesised := s.synthesised + Containers(s.sh),
       released := if s.sh.phase == Fresh && s.sh.token then s.released + 1 else s.released,
       shut := ShutDown)
  }

  function Apply(s: System, step: Step): System
    requires Enabled(s, step)
  {
    match step
    case Activate(hasFlushCallback) => DoActivate(s, hasFlushCallback)
    case ActivateSucceeds(id) => DoActivateSucceeds(s, id)
    case ActivateFails(id, code) => DoActivateFails(s, id, code)
    case Send(hasFlushCallback) => DoSend(s, hasFlushCallback)
    case SendSucceeds(id) => Give(s, id, InC)
    case SendFails(id, code) => Give(s, id, Failed(RpcError(CrtError, code)))
    case Close(hasFlushCallback) => DoClose(s, hasFlushCallback)
    case CloseSucceeds(id) => DoCloseSucceeds(s, id)
    case CloseFails(id, code) => DoCloseFails(s, id, code)
    case CompleteFailure(id) => Finish(s, id, s.owner[id].error)
    case FlushDone(id, code) => Finish(s, id, FlushResult(code))
    case OnMessage(m) => DoMessage(s, m)
    case Deliver => DoDeliver(s)
    case OnClosed => DoClosed(s)
    case SynthesiseFlush(id) => DoSynthesise(s, id)
    case ClearHandler => DoClearHandler(s)
    case ShutDownStep => DoShutDown(s)
  }

  /* ----- what every interleaving keeps ----- */

  ghost predicate PhaseInv(s: System) {
    var sh := s.sh;
    && (sh.token <==> sh.phase != Closed)
    && (sh.phase == Fresh ==> s.stream == Unopened && sh.response == None && sh.activation == None)
    && (sh.phase == Activated ==> s.responded)
    && (sh.phase == Closed ==> s.stream != Open)
    && (s.stream == Ended ==> sh == CLOSED_SHARED.(close := sh.close))
    && (s.responded || s.serverEnded ==> s.stream != Unopened)
    && s.accepted == (if s.stream == Unopened then 0 else 1)
    && s.released == (if s.origin.Created? && !sh.token then 1 else 0)
    && (!s.origin.Created? ==> !sh.token)
    && (s.handler <==> s.shut == Running || s.origin.NoConnection?)
    && (s.delivering.Some? ==> s.origin.Created?)
    && (s.shut == ShutDown ==> sh.response == None && sh.activation == None && sh.phase != Fresh)
    && (s.delivering.Some? && s.delivering.value.message.Some? ==>
          s.delivering.value.message.value.route != Routing.Response)
  }

  /** The result callback is invoked once per accepted activation, or is still stored. */
  ghost predicate AnswerInv(s: System) {
    if s.stream == Unopened then
      && s.answers == []
      && (s.sh.response.Some? ==> Owns(s, s.sh.response.value, InActivate))
    else
      |s.answers| + (if s.sh.response.Some? then 1 else 0) == 1
  }

  /** What call `id`'s owner implies. */
  ghost predicate OwnerInv(s: System, id: CallId)
    requires id in s.owner
  {
    && id < |s.calls|
    && (s.owner[id] == InActivate ==>
          && (s.sh.phase == PendingActivate || s.sh.phase == PendingClose)
          && s.stream == Unopened && s.shut == Running
          && s.sh.response == Some(id))
    && (s.owner[id] == InSend ==> s.responded)
    && (s.owner[id].InClose? ==>
          && (s.owner[id].previous == PendingActivate || s.owner[id].previous == Activated)
          && (s.owner[id].previous == Activated ==> s.responded))
  }

  /** Nobody completes call `id` twice, and until it is completed somebody owns it. */
  ghost predicate CallInv(s: System, id: CallId)
    requires id < |s.calls|
  {
    && WellFormed(s.calls[id])
    && (s.calls[id].incomplete ==> id in s.owner)
  }

  ghost predicate Inv(s: System) {
    && PhaseInv(s)
    && AnswerInv(s)
    && (forall id | id in s.owner :: OwnerInv(s, id))
    && (forall id | 0 <= id < |s.calls| :: CallInv(s, id))
  }

  lemma InitialInv(origin: Origin, model: Routing.Model)
    ensures Inv(Initial(origin, model))
  {
  }

  lemma {:induction false} NewCallKept(s: System, hasFlushCallback: bool, owner: Owner)
    requires Inv(s) && (owner.Failed? || owner.InSend?)
    requires owner.InSend? ==> s.responded
    ensures Inv(NewCall(s, hasFlushCallback, owner))
  {
    var t := NewCall(s, hasFlushCallback, owner);
    forall id | id in t.owner ensures OwnerInv(t, id) {
      assert id in s.owner ==> OwnerInv(s, id);
    }
    forall id | 0 <= id < |t.calls| ensures CallInv(t, id) {
      assert id < |s.calls| ==> CallInv(s, id);
    }
  }

  lemma {:induction false} ActivateKept(s: System, hasFlushCallback: bool)
    requires Inv(s) && s.shut == Running
    ensures Inv(DoActivate(s, hasFlushCallback))
  {
    if ActivateRefusal(s.sh, s.origin.Created?).Some? {
      NewCallKept(s, hasFlushCallback, Failed(ActivateRefusal(s.sh, s.origin.Created?).value));
    } else {
      var t := DoActivate(s, hasFlushCallback);
      forall id | id in t.owner ensures OwnerInv(t, id) {
        assert id in s.owner ==> OwnerInv(s, id);
      }
      forall id | 0 <= id < |t.calls| ensures CallInv(t, id) {
        assert id < |s.calls| ==> CallInv(s, id);
      }
    }
  }

  lemma {:induction false} ActivateSucceedsKept(s: System, id: CallId)
    requires Inv(s) && Owns(s, id, InActivate)
    ensures Inv(DoActivateSucceeds(s, id))
  {
    var t := DoActivateSucceeds(s, id);
    assert OwnerInv(s, id);
    forall other | other in t.owner ensures OwnerInv(t, other) {
      assert OwnerInv(s, other);
    }
    forall other | 0 <= other < |t.calls| ensures CallInv(t, other) {
      assert CallInv(s, other);
    }
  }

  lemma {:induction false} ActivateFailsKept(s: System, id: CallId, code: Failure)
    requires Inv(s) && Owns(s, id, InActivate)
    ensures Inv(DoActivateFails(s, id, code))
  {
    var t := DoActivateFails(s, id, code);
    assert OwnerInv(s, id);
    forall other | other in t.owner ensures OwnerInv(t, other) {
      assert OwnerInv(s, other);
    }
    forall other | 0 <= other < |t.calls| ensures CallInv(t, other) {
      assert CallInv(s, other);
    }
  }

  /** A call hands its container on, to the C layer or to its own failure path. */
  lemma {:induction false} GiveKept(s: System, id: CallId, owner: Owner)
    requires Inv(s) && id in s.owner && s.owner[id] != InActivate && (owner == InC || owner.Failed?)
    ensures Inv(Give(s, id, owner))
  {
    var t := Give(s, id, owner);
    assert OwnerInv(s, id);
    forall other | other in t.owner ensures OwnerInv(t, other) {
      assert OwnerInv(s, other);
    }
    forall other | 0 <= other < |t.calls| ensures CallInv(t, other) {
      assert CallInv(s, other);
    }
  }

  lemma {:induction false} CloseSucceedsKept(s: System, id: CallId)
    requires Inv(s) && InFlightClose(s, id)
    ensures Inv(DoCloseSucceeds(s, id))
  {
    GiveKept(s, id, InC);
    var given := Give(s, id, InC);
    var t := DoCloseSucceeds(s, id);
    forall other | other in t.owner ensures OwnerInv(t, other) {
      assert OwnerInv(given, other);
    }
    forall other | 0 <= other < |t.calls| ensures CallInv(t, other) {
      assert CallInv(given, other);
    }
  }

  lemma {:induction false} CloseKept(s: System, hasFlushCallback: bool)
    requires Inv(s)
    ensures Inv(DoClose(s, hasFlushCallback))
  {
    if CloseRefusal(s.sh, s.origin.Created?).Some? {
      NewCallKept(s, hasFlushCallback, Failed(CloseRefusal(s.sh, s.origin.Created?).value));
    } else {
      var t := DoClose(s, hasFlushCallback);
      forall id | id in t.owner ensures OwnerInv(t, id) {
        assert id in s.owner ==> OwnerInv(s, id);
      }
      forall id | 0 <= id < |t.calls| ensures CallInv(t, id) {
        assert id < |s.calls| ==> CallInv(s, id);
      }
    }
  }

  lemma {:induction false} CloseFailsKept(s: System, id: CallId, code: Failure)
    requires Inv(s) && InFlightClose(s, id)
    ensures Inv(DoCloseFails(s, id, code))
  {
    var t := DoCloseFails(s, id, code);
    assert OwnerInv(s, id);
    forall other | other in t.owner ensures OwnerInv(t, other) {
      assert OwnerInv(s, other);
    }
    forall other | 0 <= other < |t.calls| ensures CallInv(t, other) {
      assert CallInv(s, other);
    }
  }

  lemma {:induction false} FinishKept(s: System, id: CallId, error: RpcError)
    requires Inv(s) && id < |s.calls| && id in s.owner && s.owner[id] != InActivate
    ensures Inv(Finish(s, id, error))
  {
    var t := Finish(s, id, error);
    forall other | other in t.owner ensures OwnerInv(t, other) {
      assert OwnerInv(s, other);
    }
    forall other | 0 <= other < |t.calls| ensures CallInv(t, other) {
      assert CallInv(s, other);
    }
  }

  lemma {:induction false} SynthesiseKept(s: System, id: CallId)
    requires Inv(s) && id < |s.calls|
    ensures Inv(DoSynthesise(s, id))
  {
    var t := DoSynthesise(s, id);
    forall other | other in t.owner ensures OwnerInv(t, other) {
      assert OwnerInv(s, other);
    }
    forall other | 0 <= other < |t.calls| ensures CallInv(t, other) {
      assert CallInv(s, other);
    }
  }

  lemma {:induction false} MessageKept(s: System, m: Routing.Message)
    requires Inv(s) && Enabled(s, OnMessage(m))
    ensures Inv(DoMessage(s, m))
  {
    var t := DoMessage(s, m);
    Routing.ClassificationSound(s.model, m, s.sh.phase == PendingActivate);
    forall other | other in t.owner ensures OwnerInv(t, other) {
      assert OwnerInv(s, other);
    }
    forall other | 0 <= other < |t.calls| ensures CallInv(t, other) {
      assert CallInv(s, other);
    }
  }

  lemma {:induction false} DeliverKept(s: System)
    requires Inv(s) && s.delivering.Some?
    ensures Inv(DoDeliver(s))
  {
    var t := DoDeliver(s);
    forall other | other in t.owner ensures OwnerInv(t, other) {
      assert OwnerInv(s, other);
    }
    forall other | 0 <= other < |t.calls| ensures CallInv(t, other) {
      assert CallInv(s, other);
    }
  }

  lemma {:induction false} ClosedKept(s: System)
    requires Inv(s) && Enabled(s, OnClosed)
    ensures Inv(DoClosed(s))
  {
    var t := DoClosed(s);
    forall other | other in t.owner ensures OwnerInv(t, other) {
      assert OwnerInv(s, other);
    }
    forall other | 0 <= other < |t.calls| ensures CallInv(t, other) {
      assert CallInv(s, other);
    }
  }

  lemma {:induction false} ClearHandlerKept(s: System)
    requires Inv(s) && Enabled(s, ClearHandler)
    ensures Inv(DoClearHandler(s))
  {
    var t := DoClearHandler(s);
    forall other | other in t.owner ensures OwnerInv(t, other) {
      assert OwnerInv(s, other);
    }
    forall other | 0 <= other < |t.calls| ensures CallInv(t, other) {
      assert CallInv(s, other);
    }
  }

  lemma {:induction false} ShutDownKept(s: System)
    requires Inv(s) && Enabled(s, ShutDownStep)
    ensures Inv(DoShutDown(s))
  {
    var t := DoShutDown(s);
    forall other | other in t.owner ensures OwnerInv(t, other) {
      assert OwnerInv(s, other);
    }
    forall other | 0 <= other < |t.calls| ensures CallInv(t, other) {
      assert CallInv(s, other);
    }
  }

  lemma {:induction false} InvKept(s: System, step: Step)
    requires Inv(s) && Enabled(s, step)
    ensures Inv(Apply(s, step))
  {
    match step
    case Activate(hasFlushCallback) => ActivateKept(s, hasFlushCallback);
    case ActivateSucceeds(id) => ActivateSucceedsKept(s, id);
    case ActivateFails(id, code) => ActivateFailsKept(s, id, code);
    case Send(hasFlushCallback) =>
      var refusal := SendRefusal(s.sh, s.origin.Created?);
      NewCallKept(s, hasFlushCallback, if refusal.Some? then Failed(refusal.value) else InSend);
    case SendSucceeds(id) => GiveKept(s, id, InC);
    case SendFails(id, code) => GiveKept(s, id, Failed(RpcError(CrtError, code)));
    case Close(hasFlushCallback) => CloseKept(s, hasFlushCallback);
    case CloseSucceeds(id) => CloseSucceedsKept(s, id);
    case CloseFails(id, code) => CloseFailsKept(s, id, code);
    case CompleteFailure(id) => FinishKept(s, id, s.owner[id].error);
    case FlushDone(id, code) => FinishKept(s, id, FlushResult(code));
    case OnMessage(m) => MessageKept(s, m);
    case Deliver => DeliverKept(s);
    case OnClosed => ClosedKept(s);
    case SynthesiseFlush(id) => SynthesiseKept(s, id);
    case ClearHandler => ClearHandlerKept(s);
    case ShutDownStep => ShutDownKept(s);
  }
}
