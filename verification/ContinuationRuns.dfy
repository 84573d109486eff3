/** What holds over every run of a continuation: any interleaving of calls, unlocked windows and C callbacks. */
module ContinuationRuns {
  import opened Rpc
  import opened FlushContainer
  import opened ContinuationProtocol
  import Routing

  predicate Legal(s: System, steps: seq<Step>)
    decreases |steps|
  {
    steps == [] || (Enabled(s, steps[0]) && Legal(Apply(s, steps[0]), steps[1..]))
  }

  function RunFrom(s: System, steps: seq<Step>): System
    requires Legal(s, steps)
    decreases |steps|
  {
    if steps == [] then s else RunFrom(Apply(s, steps[0]), steps[1..])
  }

  lemma {:induction false} RunKeepsInv(s: System, steps: seq<Step>)
    requires Inv(s) && Legal(s, steps)
    ensures Inv(RunFrom(s, steps))
    decreases |steps|
  {
    if steps != [] {
      InvKept(s, steps[0]);
      RunKeepsInv(Apply(s, steps[0]), steps[1..]);
    }
  }

  /** What the C layer and the user are free to do, in every state. */
  lemma {:induction false} NothingIsPromised(s: System, m: Routing.Message, id: CallId, code: Failure, flush: bool)
    ensures Enabled(s, Close(flush))
    ensures s.shut == Running ==> Enabled(s, Activate(flush)) && Enabled(s, Send(flush))
    ensures s.stream == Open && s.delivering == None ==> Enabled(s, OnMessage(m)) && Enabled(s, OnClosed)
    ensures Owns(s, id, InActivate) ==> Enabled(s, ActivateSucceeds(id)) && Enabled(s, ActivateFails(id, code))
    ensures Owns(s, id, InSend) ==> Enabled(s, SendSucceeds(id)) && Enabled(s, SendFails(id, code))
    ensures InFlightClose(s, id) ==> Enabled(s, CloseSucceeds(id)) && Enabled(s, CloseFails(id, code))
    ensures s.shut == Running && (forall other | other in s.owner :: s.owner[other] != InActivate) ==>
              Enabled(s, ClearHandler) && Enabled(Apply(s, ClearHandler), ShutDownStep)
  {
  }

  /** Every flush promise is completed at most once; a call nobody in flight owns any more and the C layer no longer
      holds has had it completed exactly once. */
  lemma {:induction false} FlushResolvedOnce(origin: Origin, model: Routing.Model, steps: seq<Step>, id: CallId)
    requires Legal(Initial(origin, model), steps)
    requires id < |RunFrom(Initial(origin, model), steps).calls|
    ensures var s := RunFrom(Initial(origin, model), steps);
            && |s.calls[id].promise| <= 1 && |s.calls[id].called| <= 1
            && (id !in s.owner ==> |s.calls[id].promise| == 1)
  {
    InitialInv(origin, model);
    RunKeepsInv(Initial(origin, model), steps);
    assert CallInv(RunFrom(Initial(origin, model), steps), id);
  }

  /** What completes an open container: the C layer's report of the flush, the error of a call that was refused or
      failed, or the end of the stream. */
  lemma {:induction false} FlushCompleted(s: System, id: CallId, code: CrtCode)
    requires Inv(s) && id < |s.calls| && s.calls[id].incomplete
    ensures Enabled(s, FlushDone(id, code)) ==>
              var done := Apply(s, FlushDone(id, code)).calls[id];
              && done.promise == [RpcError(if code == CrtSuccess then Success else CrtError, code)]
              && done.called == (if s.calls[id].hasCallback then [code] else [])
    ensures Enabled(s, CompleteFailure(id)) ==>
              var done := Apply(s, CompleteFailure(id)).calls[id];
              && done.promise == [s.owner[id].error]
              && done.called == (if s.calls[id].hasCallback then [s.owner[id].error.crtError] else [])
    ensures Enabled(s, SynthesiseFlush(id)) ==>
              var done := Apply(s, SynthesiseFlush(id)).calls[id];
              && done.promise == [RpcError(ContinuationClosed, CrtSuccess)]
              && done.called == (if s.calls[id].hasCallback then [CrtSuccess] else [])
  {
    assert CallInv(s, id);
    FinishCompletes(s, id, FlushResult(code));
    if id in s.owner && s.owner[id].Failed? {
      FinishCompletes(s, id, s.owner[id].error);
    }
  }

  lemma {:induction false} FinishCompletes(s: System, id: CallId, error: RpcError)
    requires id < |s.calls| && CallInv(s, id) && s.calls[id].incomplete
    ensures Finish(s, id, error).calls[id].promise == [error]
    ensures Finish(s, id, error).calls[id].called == (if s.calls[id].hasCallback then [error.crtError] else [])
  {
  }

  /** A call whose message the C layer accepts leaves its container to the C layer. */
  lemma {:induction false} SubmissionAccepted(s: System, id: CallId)
    ensures Enabled(s, ActivateSucceeds(id)) ==> Owns(Apply(s, ActivateSucceeds(id)), id, InC)
    ensures Enabled(s, SendSucceeds(id)) ==> Owns(Apply(s, SendSucceeds(id)), id, InC)
    ensures Enabled(s, CloseSucceeds(id)) ==> Owns(Apply(s, CloseSucceeds(id)), id, InC)
  {
  }

  /** One that fails completes it with the error of the C layer. */
  lemma {:induction false} SubmissionFailed(s: System, id: CallId, code: Failure)
    ensures Enabled(s, ActivateFails(id, code)) ==>
              Owns(Apply(s, ActivateFails(id, code)), id, Failed(RpcError(CrtError, code)))
    ensures Enabled(s, SendFails(id, code)) ==>
              Owns(Apply(s, SendFails(id, code)), id, Failed(RpcError(CrtError, code)))
    ensures Enabled(s, CloseFails(id, code)) ==>
              Owns(Apply(s, CloseFails(id, code)), id, Failed(RpcError(CrtError, code)))
  {
  }

  /** From every reachable state in which an activation is pending or the stream is open, a Close goes ahead and a
      terminate message may be accepted. */
  lemma {:induction false} CloseGoesAhead(s: System, hasFlushCallback: bool)
    requires Inv(s) && (s.sh.phase == PendingActivate || s.sh.phase == Activated)
    ensures var t, step := DoClose(s, hasFlushCallback), CloseSucceeds(|s.calls|);
            && t.sh.phase == PendingClose && Owns(t, |s.calls|, InClose(s.sh.phase))
            && Enabled(t, step) && Apply(t, step).terminates == s.terminates + 1
  {
  }

  /** At most one activation is ever accepted, retries after rollbacks included. The result callback runs at most once,
      only if an activation was accepted, and has run by the time the stream has closed. */
  lemma {:induction false} ResultDeliveredOnce(origin: Origin, model: Routing.Model, steps: seq<Step>)
    requires Legal(Initial(origin, model), steps)
    ensures var s := RunFrom(Initial(origin, model), steps);
            && s.accepted <= 1
            && |s.answers| <= s.accepted
            && (s.stream == Ended || s.shut == ShutDown ==> |s.answers| == s.accepted)
  {
    InitialInv(origin, model);
    RunKeepsInv(Initial(origin, model), steps);
  }

  /** The C continuation is gone exactly when the state is Closed, and it is handed over for release at most once. */
  lemma {:induction false} TokenReleasedOnce(origin: Origin, model: Routing.Model, steps: seq<Step>)
    requires Legal(Initial(origin, model), steps)
    ensures var s := RunFrom(Initial(origin, model), steps);
            && (s.sh.token <==> s.sh.phase != Closed)
            && s.released == (if s.origin.Created? && s.sh.phase == Closed then 1 else 0)
  {
    InitialInv(origin, model);
    RunKeepsInv(Initial(origin, model), steps);
  }

  /** A stream message is handed to the C layer only once an initial response has opened the stream. */
  lemma {:induction false} SendAfterResponse(origin: Origin, model: Routing.Model, steps: seq<Step>, id: CallId)
    requires Legal(Initial(origin, model), steps)
    requires Owns(RunFrom(Initial(origin, model), steps), id, InSend)
    ensures RunFrom(Initial(origin, model), steps).responded && RunFrom(Initial(origin, model), steps).accepted == 1
  {
    InitialInv(origin, model);
    RunKeepsInv(Initial(origin, model), steps);
    assert OwnerInv(RunFrom(Initial(origin, model), steps), id);
  }

  /** What the state is like while an Activate is out of the lock. */
  lemma {:induction false} ActivateInFlight(s: System)
    requires Inv(s)
    ensures forall id: CallId :: Owns(s, id, InActivate) ==>
              && (s.sh.phase == PendingActivate || s.sh.phase == PendingClose)
              && s.stream == Unopened && s.shut == Running && s.answers == [] && s.sh.response == Some(id)
  {
    forall id: CallId | Owns(s, id, InActivate)
      ensures s.sh.phase == PendingActivate || s.sh.phase == PendingClose
      ensures s.stream == Unopened && s.shut == Running && s.answers == [] && s.sh.response == Some(id)
    {
      assert OwnerInv(s, id);
    }
  }

  /** Closed is absorbing. */
  lemma {:induction false} ClosedIsFinal(s: System, steps: seq<Step>)
    requires Inv(s) && s.sh.phase == Closed && Legal(s, steps)
    ensures RunFrom(s, steps).sh.phase == Closed
    decreases |steps|
  {
    if steps != [] {
      InvKept(s, steps[0]);
      ClosedStep(s, steps[0]);
      ClosedIsFinal(Apply(s, steps[0]), steps[1..]);
    }
  }

  lemma {:induction false} ClosedStep(s: System, step: Step)
    requires Inv(s) && s.sh.phase == Closed && Enabled(s, step)
    ensures Apply(s, step).sh.phase == Closed
  {
    ActivateInFlight(s);
  }

  /* ----- silence after ShutDown ----- */

  lemma {:induction false} ShutStep(s: System, step: Step)
    requires Inv(s) && s.shut != Running && Enabled(s, step)
    ensures var t := Apply(s, step);
            && t.shut != Running && (s.shut == ShutDown ==> t.shut == ShutDown)
            && t.handlerCalls == s.handlerCalls
            && (s.shut == ShutDown ==> t.answers == s.answers)
  {
    ActivateInFlight(s);
  }

  /** Once ShutDown has cleared the stream handler no message reaches it any more; once ShutDown's locked section has
      run, no result callback is invoked and the activation slots stay empty. */
  lemma {:induction false} ShutDownIsSilent(s: System, steps: seq<Step>)
    requires Inv(s) && s.shut != Running && Legal(s, steps)
    ensures var t := RunFrom(s, steps);
            && t.handlerCalls == s.handlerCalls
            && (s.shut == ShutDown ==>
                  t.answers == s.answers && t.sh.response == None && t.sh.activation == None)
    decreases |steps|
  {
    if steps != [] {
      InvKept(s, steps[0]);
      ShutStep(s, steps[0]);
      ShutDownIsSilent(Apply(s, steps[0]), steps[1..]);
    }
  }

  /* ----- rollbacks that find what they left ----- */

  /** The state says PendingClose exactly while an end-of-stream message is being sent, has been accepted, or was
      announced by the server. */
  ghost predicate Coherent(s: System) {
    s.sh.phase != Closed ==>
      (s.sh.phase == PendingClose <==> (exists id: CallId :: InFlightClose(s, id)) || s.terminates > 0 || s.serverEnded)
  }

  /** Activate's rollback finds the PendingActivate it wrote: no Close came in between. */
  predicate CleanStep(s: System, step: Step) {
    step.ActivateFails? ==> s.sh.phase == PendingActivate
  }

  predicate CleanRun(s: System, steps: seq<Step>)
    requires Legal(s, steps)
    decreases |steps|
  {
    steps == [] || (CleanStep(s, steps[0]) && CleanRun(Apply(s, steps[0]), steps[1..]))
  }

  ghost predicate AlwaysCoherent(s: System, steps: seq<Step>)
    requires Legal(s, steps)
    decreases |steps|
  {
    Coherent(s) && (steps == [] || AlwaysCoherent(Apply(s, steps[0]), steps[1..]))
  }

  /** `closing` and `activating` are the Close and the Activate in flight, if any. */
  ghost predicate CleanWith(s: System, closing: Option<CallId>, activating: Option<CallId>) {
    && (forall id: CallId :: InFlightClose(s, id) <==> closing == Some(id))
    && (forall id: CallId :: Owns(s, id, InActivate) <==> activating == Some(id))
    && (s.sh.phase != Closed ==>
          (s.sh.phase == PendingClose <==> closing.Some? || s.terminates > 0 || s.serverEnded))
    && s.terminates <= 1
    && (s.serverEnded ==> s.terminates == 0)
    && (closing.Some? ==>
          && s.terminates == 0 && !s.serverEnded
          && (s.owner[closing.value].previous == Activated <==> s.responded))
    && (s.sh.phase == PendingActivate ==> !s.responded)
    && (s.sh.phase == Fresh || s.sh.phase == Closed || s.stream == Open || activating.Some?)
  }

  ghost predicate CleanInv(s: System) {
    Inv(s) && exists closing, activating :: CleanWith(s, closing, activating)
  }

  lemma {:induction false} CleanActivate(s: System, cb: bool, closing: Option<CallId>, activating: Option<CallId>)
    returns (activating': Option<CallId>)
    requires Inv(s) && CleanWith(s, closing, activating) && s.shut == Running
    ensures CleanWith(DoActivate(s, cb), closing, activating')
  {
    assert forall known | known in s.owner :: OwnerInv(s, known);
    activating' := if ActivateRefusal(s.sh, s.origin.Created?) == None then Some(|s.calls|) else activating;
  }

  lemma {:induction false} CleanClose(s: System, cb: bool, closing: Option<CallId>, activating: Option<CallId>)
    returns (closing': Option<CallId>)
    requires Inv(s) && CleanWith(s, closing, activating)
    ensures CleanWith(DoClose(s, cb), closing', activating)
  {
    assert forall known | known in s.owner :: OwnerInv(s, known);
    closing' := if CloseRefusal(s.sh, s.origin.Created?) == None then Some(|s.calls|) else closing;
  }

  lemma {:induction false} CleanSend(s: System, cb: bool, closing: Option<CallId>, activating: Option<CallId>)
    requires Inv(s) && CleanWith(s, closing, activating)
    ensures CleanWith(DoSend(s, cb), closing, activating)
  {
    assert forall known | known in s.owner :: OwnerInv(s, known);
  }

  lemma {:induction false} CleanReturning(s: System, step: Step, closing: Option<CallId>, activating: Option<CallId>)
    returns (closing': Option<CallId>, activating': Option<CallId>)
    requires Inv(s) && CleanWith(s, closing, activating) && Enabled(s, step) && CleanStep(s, step)
    requires step.ActivateSucceeds? || step.ActivateFails? || step.CloseSucceeds? || step.CloseFails?
    ensures CleanWith(Apply(s, step), closing', activating')
  {
    closing', activating' := closing, activating;
    assert OwnerInv(s, step.id);
    if step.ActivateSucceeds? || step.ActivateFails? {
      activating' := None;
    } else {
      closing' := None;
    }
  }

  lemma {:induction false} CleanQuiet(s: System, step: Step, closing: Option<CallId>, activating: Option<CallId>)
    requires Inv(s) && CleanWith(s, closing, activating) && Enabled(s, step)
    requires step.SendSucceeds? || step.SendFails? || step.CompleteFailure? || step.FlushDone? || step.SynthesiseFlush?
    ensures CleanWith(Apply(s, step), closing, activating)
  {
  }

  lemma {:induction false} CleanEvent(s: System, step: Step, closing: Option<CallId>, activating: Option<CallId>)
    requires Inv(s) && CleanWith(s, closing, activating) && Enabled(s, step)
    requires step.OnMessage? || step.Deliver? || step.OnClosed? || step.ClearHandler? || step.ShutDownStep?
    ensures CleanWith(Apply(s, step), closing, activating)
  {
    assert Apply(s, step).owner == s.owner;
  }

  lemma {:induction false} CleanKept(s: System, step: Step)
    requires CleanInv(s) && Enabled(s, step) && CleanStep(s, step)
    ensures CleanInv(Apply(s, step))
  {
    InvKept(s, step);
    var closing, activating :| CleanWith(s, closing, activating);
    if step.Activate? {
      activating := CleanActivate(s, step.hasFlushCallback, closing, activating);
    } else if step.Close? {
      closing := CleanClose(s, step.hasFlushCallback, closing, activating);
    } else if step.Send? {
      CleanSend(s, step.hasFlushCallback, closing, activating);
    } else if step.ActivateSucceeds? || step.ActivateFails? || step.CloseSucceeds? || step.CloseFails? {
      closing, activating := CleanReturning(s, step, closing, activating);
    } else if step.OnMessage? || step.Deliver? || step.OnClosed? || step.ClearHandler? || step.ShutDownStep? {
      CleanEvent(s, step, closing, activating);
    } else {
      CleanQuiet(s, step, closing, activating);
    }
  }

  lemma CleanIsCoherent(s: System)
    requires CleanInv(s)
    ensures Coherent(s)
  {
    var closing, activating :| CleanWith(s, closing, activating);
    if closing.Some? {
      assert InFlightClose(s, closing.value);
    }
  }

  /** A rollback that overwrites a Close's PendingClose leaves the states incoherent at once. */
  lemma {:induction false} UncleanBreaks(s: System, step: Step)
    requires CleanInv(s) && Enabled(s, step) && !CleanStep(s, step)
    ensures !Coherent(Apply(s, step))
  {
    var closing, activating :| CleanWith(s, closing, activating);
    assert OwnerInv(s, step.id);
    if closing.Some? {
      assert InFlightClose(Apply(s, step), closing.value);
    }
  }

  /** Over every run, the states stay coherent if and only if no Activate that fails finds its PendingActivate
      overwritten. */
  lemma {:induction false} CoherentIffClean(s: System, steps: seq<Step>)
    requires CleanInv(s) && Legal(s, steps)
    ensures AlwaysCoherent(s, steps) <==> CleanRun(s, steps)
    decreases |steps|
  {
    CleanIsCoherent(s);
    if steps != [] {
      var t := Apply(s, steps[0]);
      if CleanStep(s, steps[0]) {
        CleanKept(s, steps[0]);
        CoherentIffClean(t, steps[1..]);
      } else {
        UncleanBreaks(s, steps[0]);
        assert !Coherent(t);
      }
    }
  }

  lemma {:induction false} CleanRunKept(s: System, steps: seq<Step>)
    requires CleanInv(s) && Legal(s, steps) && CleanRun(s, steps)
    ensures CleanInv(RunFrom(s, steps))
    decreases |steps|
  {
    if steps != [] {
      CleanKept(s, steps[0]);
      CleanRunKept(Apply(s, steps[0]), steps[1..]);
    }
  }

  lemma InitialClean(origin: Origin, model: Routing.Model)
    ensures CleanInv(Initial(origin, model))
  {
    InitialInv(origin, model);
    assert CleanWith(Initial(origin, model), None, None);
  }

  /** Without such an overlap the C layer accepts at most one empty terminate message, none while another is being
      sent, and none once the server has announced the end of the stream. */
  lemma {:induction false} TerminatedOnce(origin: Origin, model: Routing.Model, steps: seq<Step>)
    requires Legal(Initial(origin, model), steps) && CleanRun(Initial(origin, model), steps)
    ensures var s := RunFrom(Initial(origin, model), steps);
            && s.terminates <= 1
            && (s.serverEnded ==> s.terminates == 0)
            && (forall id: CallId, other: CallId :: InFlightClose(s, id) && InFlightClose(s, other) ==> id == other)
            && (forall id: CallId :: InFlightClose(s, id) ==> s.terminates == 0 && !s.serverEnded)
  {
    InitialClean(origin, model);
    CleanRunKept(Initial(origin, model), steps);
  }

  /** A Close that fails puts back the state it saw, which is still the right one, or leaves Closed. */
  lemma {:induction false} FailedCloseRestores(s: System, id: CallId, code: Failure)
    requires CleanInv(s) && InFlightClose(s, id)
    ensures var t := DoCloseFails(s, id, code);
            if s.sh.phase == Closed then t.sh.phase == Closed
            else
              && s.sh.phase == PendingClose && t.sh.phase == s.owner[id].previous
              && t.sh.phase == (if s.responded then Activated else PendingActivate)
  {
    assert OwnerInv(s, id);
  }

  /* ----- what the overlap does ----- */

  /** Neither activated nor activatable, and never to be released. */
  ghost predicate Stranded(s: System) {
    && Inv(s)
    && (s.sh.phase == PendingActivate || s.sh.phase == PendingClose)
    && s.stream == Unopened && s.origin.Created? && s.sh.token
    && forall id: CallId :: !Owns(s, id, InActivate)
  }

  lemma {:induction false} StrandedStep(s: System, step: Step)
    requires Stranded(s) && Enabled(s, step)
    ensures Stranded(Apply(s, step))
  {
    InvKept(s, step);
    var t := Apply(s, step);
    if step.CloseFails? {
      assert OwnerInv(s, step.id);
    }
    forall id: CallId ensures !Owns(t, id, InActivate) {
      assert !Owns(s, id, InActivate);
    }
  }

  /** A stranded continuation is never activated, never released and never closed. */
  lemma {:induction false} StrandedForever(s: System, steps: seq<Step>)
    requires Stranded(s) && Legal(s, steps)
    ensures RunFrom(s, steps).released == 0 && RunFrom(s, steps).sh.token && RunFrom(s, steps).accepted == 0
  {
    StaysStranded(s, steps);
  }

  /** A Close that failed is about to go back to a state of an activation that is neither in flight nor accepted. */
  ghost predicate StrandingStep(s: System, step: Step) {
    && step.CloseFails? && s.sh.phase != Closed
    && s.stream == Unopened && forall id: CallId :: !Owns(s, id, InActivate)
  }

  /** Some step of the run is a stranding one. */
  ghost predicate Strands(s: System, steps: seq<Step>)
    requires Legal(s, steps)
    decreases |steps|
  {
    steps != [] && (StrandingStep(s, steps[0]) || Strands(Apply(s, steps[0]), steps[1..]))
  }

  lemma {:induction false} StrandsAtOnce(s: System, step: Step)
    requires Inv(s) && Enabled(s, step) && !Stranded(s)
    ensures Stranded(Apply(s, step)) <==> StrandingStep(s, step)
  {
    InvKept(s, step);
    var t := Apply(s, step);
    assert forall id | id in s.owner :: OwnerInv(s, id);
    if s.stream == Unopened && StrandingStep(s, step) {
      forall id: CallId ensures !Owns(t, id, InActivate) {
        assert !Owns(s, id, InActivate);
      }
    } else if id: CallId :| Owns(s, id, InActivate) {
      assert Owns(t, id, InActivate) || step == ActivateSucceeds(id) || step.ActivateFails?;
    } else if step.Activate? && ActivateRefusal(s.sh, s.origin.Created?) == None {
      assert Owns(t, |s.calls|, InActivate);
    }
  }

  /** Over every run, the continuation ends up stranded if and only if one of its steps was a stranding one. */
  lemma {:induction false} StrandedExactly(s: System, steps: seq<Step>)
    requires Inv(s) && Legal(s, steps) && !Stranded(s)
    ensures Stranded(RunFrom(s, steps)) <==> Strands(s, steps)
    decreases |steps|
  {
    if steps != [] {
      var t := Apply(s, steps[0]);
      InvKept(s, steps[0]);
      StrandsAtOnce(s, steps[0]);
      if Stranded(t) {
        StaysStranded(t, steps[1..]);
      } else {
        StrandedExactly(t, steps[1..]);
      }
    }
  }

  lemma {:induction false} StaysStranded(s: System, steps: seq<Step>)
    requires Stranded(s) && Legal(s, steps)
    ensures Stranded(RunFrom(s, steps))
    decreases |steps|
  {
    if steps != [] {
      StrandedStep(s, steps[0]);
      StaysStranded(Apply(s, steps[0]), steps[1..]);
    }
  }

  /** Once ShutDown has run, the C continuation has been handed over for release, or the C layer still has the closed
      callback to deliver, which hands it over: always, if and only if no step of the run was a stranding one. */
  lemma {:induction false} ShutDownReleases(origin: Origin, model: Routing.Model, steps: seq<Step>)
    requires Legal(Initial(origin, model), steps)
    requires RunFrom(Initial(origin, model), steps).shut == ShutDown
    ensures var s := RunFrom(Initial(origin, model), steps);
            s.stream == Open || s.released == (if origin.Created? then 1 else 0)
            <==> !Strands(Initial(origin, model), steps)
  {
    InitialInv(origin, model);
    RunKeepsInv(Initial(origin, model), steps);
    StrandedExactly(Initial(origin, model), steps);
    SameOrigin(Initial(origin, model), steps);
    ActivateInFlight(RunFrom(Initial(origin, model), steps));
  }

  lemma {:induction false} SameOriginStep(s: System, step: Step)
    requires Enabled(s, step)
    ensures Apply(s, step).origin == s.origin && Apply(s, step).model == s.model
  {
  }

  lemma {:induction false} SameOrigin(s: System, steps: seq<Step>)
    requires Legal(s, steps)
    ensures RunFrom(s, steps).origin == s.origin && RunFrom(s, steps).model == s.model
    decreases |steps|
  {
    if steps != [] {
      SameOriginStep(s, steps[0]);
      SameOrigin(Apply(s, steps[0]), steps[1..]);
    }
  }

  /** Close inside the window of an Activate that then fails, and fails after it: the continuation is stranded. */
  lemma {:induction false} OverlapStrands(model: Routing.Model, code: Failure)
    ensures var s0 := Initial(Created, model);
            var s1 := DoActivate(s0, false);
            var s2 := DoClose(s1, false);
            var s3 := DoActivateFails(s2, 0, code);
            && Enabled(s0, Activate(false)) && Enabled(s1, Close(false)) && Enabled(s2, ActivateFails(0, code))
            && Enabled(s3, CloseFails(1, code)) && Stranded(DoCloseFails(s3, 1, code))
  {
    var s0 := Initial(Created, model);
    InitialInv(Created, model);
    var s1 := DoActivate(s0, false);
    ActivateKept(s0, false);
    assert s1.owner == map[0 := InActivate];
    var s2 := DoClose(s1, false);
    CloseKept(s1, false);
    assert s2.owner == map[0 := InActivate, 1 := InClose(PendingActivate)];
    var s3 := DoActivateFails(s2, 0, code);
    ActivateFailsKept(s2, 0, code);
    CloseFailsKept(s3, 1, code);
  }
}
