/**
 * Which message of the stream answers the activation. The source takes a message as the response by the state it finds,
 * so a Close that got in between changes what a message is taken for. The messages are read off the run, whatever the
 * state they were found in.
 */
module ContinuationMessages {
  import opened Rpc
  import opened FlushContainer
  import opened ContinuationProtocol
  import opened ContinuationRuns
  import Routing

  /** A message that arrived, whether OnMessage took it as the activation's response, and whether a Close was being sent
      at that time. */
  datatype Arrival = Arrival(message: Routing.Message, taken: bool, duringClose: bool)

  ghost predicate ClosePending(s: System) {
    exists id: CallId :: InFlightClose(s, id)
  }

  ghost function Arrivals(s: System, steps: seq<Step>): seq<Arrival>
    requires Legal(s, steps)
    decreases |steps|
  {
    if steps == [] then [] else
      (if steps[0].OnMessage? then [Found(s, steps[0].message)] else []) + Arrivals(Apply(s, steps[0]), steps[1..])
  }

  ghost function Found(s: System, m: Routing.Message): Arrival {
    Arrival(m, s.sh.phase == PendingActivate, ClosePending(s))
  }

  /** The message is what the activation waits for: the server has answered. */
  predicate IsResponse(model: Routing.Model, m: Routing.Message) {
    Routing.IsInitialResponse(Routing.Classify(model, m, true))
  }

  /** The answer a message gives when it is taken as the response. */
  function AnswerTo(model: Routing.Model, m: Routing.Message): Routing.Answer {
    Routing.ClassificationSound(model, m, true);
    Routing.AnswerOf(Routing.Classify(model, m, true))
  }

  ghost predicate Arrived(model: Routing.Model, arrivals: seq<Arrival>) {
    exists a :: a in arrivals && IsResponse(model, a.message)
  }

  /** An initial response arrived and was taken as such, with or without the terminate flag. */
  ghost predicate Taken(model: Routing.Model, arrivals: seq<Arrival>, terminatesStream: bool) {
    exists a :: a in arrivals && a.taken && IsResponse(model, a.message)
                && a.message.terminatesStream == terminatesStream
  }

  lemma {:induction false} LedgerStep(s: System, step: Step)
    requires Enabled(s, step)
    ensures var t := Apply(s, step);
            var takes := step.OnMessage? && s.sh.phase == PendingActivate && IsResponse(s.model, step.message);
            && t.model == s.model
            && (t.responded <==> s.responded || (takes && !step.message.terminatesStream))
            && (t.serverEnded <==> s.serverEnded || (takes && step.message.terminatesStream))
  {
    if !step.OnMessage? {
      SilentStep(s, step);
    }
  }

  lemma {:induction false} SilentStep(s: System, step: Step)
    requires Enabled(s, step) && !step.OnMessage?
    ensures var t := Apply(s, step);
            t.model == s.model && t.responded == s.responded && t.serverEnded == s.serverEnded
  {
  }

  /** The two ledgers of the system are about the responses taken. */
  lemma {:induction false} LedgersAreTaken(s: System, steps: seq<Step>)
    requires Legal(s, steps)
    ensures RunFrom(s, steps).responded <==> s.responded || Taken(s.model, Arrivals(s, steps), false)
    ensures RunFrom(s, steps).serverEnded <==> s.serverEnded || Taken(s.model, Arrivals(s, steps), true)
    decreases |steps|
  {
    if steps != [] {
      LedgerStep(s, steps[0]);
      LedgersAreTaken(Apply(s, steps[0]), steps[1..]);
      var rest := Arrivals(Apply(s, steps[0]), steps[1..]);
      if steps[0].OnMessage? {
        var a := Found(s, steps[0].message);
        TakenMore(s.model, a, rest, false);
        TakenMore(s.model, a, rest, true);
      } else {
        assert [] + rest == rest;
      }
    }
  }

  lemma {:induction false} TakenMore(model: Routing.Model, a: Arrival, rest: seq<Arrival>, terminatesStream: bool)
    ensures Taken(model, [a] + rest, terminatesStream) <==>
            (a.taken && IsResponse(model, a.message) && a.message.terminatesStream == terminatesStream)
            || Taken(model, rest, terminatesStream)
  {
    assert a in [a] + rest;
    assert forall b :: b in [a] + rest <==> b == a || b in rest;
  }

  /* ----- the first message ----- */

  predicate NoMessage(steps: seq<Step>) {
    forall step | step in steps :: !step.OnMessage?
  }

  lemma {:induction false} UnansweredStep(s: System, step: Step)
    requires Inv(s) && Enabled(s, step) && !step.OnMessage?
    requires s.answers == [] || s.stream == Ended || s.shut == ShutDown
    ensures var t := Apply(s, step); t.answers == [] || t.stream == Ended || t.shut == ShutDown
  {
    ActivateInFlight(s);
  }

  /** Until a message comes nothing but the end of the stream or ShutDown gives an answer. */
  lemma {:induction false} Unanswered(s: System, steps: seq<Step>)
    requires Inv(s) && Legal(s, steps) && NoMessage(steps)
    requires !s.responded && !s.serverEnded && (s.answers == [] || s.stream == Ended || s.shut == ShutDown)
    ensures var t := RunFrom(s, steps);
            !t.responded && !t.serverEnded && (t.answers == [] || t.stream == Ended || t.shut == ShutDown)
    decreases |steps|
  {
    if steps != [] {
      assert steps[0] in steps;
      assert NoMessage(steps[1..]) by {
        assert forall step | step in steps[1..] :: step in steps;
      }
      InvKept(s, steps[0]);
      SilentStep(s, steps[0]);
      UnansweredStep(s, steps[0]);
      Unanswered(Apply(s, steps[0]), steps[1..]);
    }
  }

  lemma {:induction false} AnswersStayStep(s: System, step: Step)
    requires Inv(s) && Enabled(s, step) && s.stream != Unopened && s.answers != []
    ensures Apply(s, step).stream != Unopened && Apply(s, step).answers == s.answers
  {
    ActivateInFlight(s);
  }

  lemma {:induction false} AnswersStay(s: System, steps: seq<Step>)
    requires Inv(s) && Legal(s, steps) && s.stream != Unopened && s.answers != []
    ensures RunFrom(s, steps).answers == s.answers
    decreases |steps|
  {
    if steps != [] {
      InvKept(s, steps[0]);
      AnswersStayStep(s, steps[0]);
      AnswersStay(Apply(s, steps[0]), steps[1..]);
    }
  }

  /** The first message of a stream answers the activation, for good, exactly when it finds PendingActivate and ShutDown
      has not run; otherwise it gives no answer. */
  lemma {:induction false} FirstMessageAnswers(
    origin: Origin, model: Routing.Model, before: seq<Step>, m: Routing.Message, after: seq<Step>)
    requires Legal(Initial(origin, model), before) && NoMessage(before)
    requires Enabled(RunFrom(Initial(origin, model), before), OnMessage(m))
    requires Legal(DoMessage(RunFrom(Initial(origin, model), before), m), after)
    ensures var s := RunFrom(Initial(origin, model), before);
            var t := DoMessage(s, m);
            if s.sh.phase == PendingActivate && s.shut != ShutDown then
              s.answers == [] && RunFrom(t, after).answers == t.answers == [AnswerTo(model, m)]
            else
              t.answers == s.answers
  {
    var s := RunFrom(Initial(origin, model), before);
    InitialInv(origin, model);
    RunKeepsInv(Initial(origin, model), before);
    SameOrigin(Initial(origin, model), before);
    Unanswered(Initial(origin, model), before);
    MessageKept(s, m);
    if s.sh.phase == PendingActivate && s.shut != ShutDown {
      AnswersStay(DoMessage(s, m), after);
    }
  }

  /** In a run without an overwritten rollback, that is when no Close is being sent, none has been accepted, and
      ShutDown has not run. A Close that was refused or rolled back does no harm. */
  lemma {:induction false} FirstMessageExactly(
    origin: Origin, model: Routing.Model, before: seq<Step>, m: Routing.Message)
    requires Legal(Initial(origin, model), before) && CleanRun(Initial(origin, model), before) && NoMessage(before)
    requires Enabled(RunFrom(Initial(origin, model), before), OnMessage(m))
    ensures var s := RunFrom(Initial(origin, model), before);
            DoMessage(s, m).answers == [AnswerTo(model, m)] <==>
            (forall id: CallId :: !InFlightClose(s, id)) && s.terminates == 0 && s.shut != ShutDown
  {
    var s := RunFrom(Initial(origin, model), before);
    FirstMessageAnswers(origin, model, before, m, []);
    InitialClean(origin, model);
    CleanRunKept(Initial(origin, model), before);
    Unanswered(Initial(origin, model), before);
    FoundByFirstMessage(s);
    InitialInv(origin, model);
    SynthesisedUntil(Initial(origin, model), before);
    Routing.ClassificationSound(model, m, true);
  }

  /** What the first message finds. */
  lemma {:induction false} FoundByFirstMessage(s: System)
    requires CleanInv(s) && s.stream == Open && !s.responded && !s.serverEnded
    ensures s.sh.phase == PendingActivate <==> (forall id: CallId :: !InFlightClose(s, id)) && s.terminates == 0
    ensures s.sh.phase == PendingActivate || s.sh.phase == PendingClose
  {
    CleanIsCoherent(s);
  }

  lemma {:induction false} SynthesisedStep(s: System, step: Step)
    requires Inv(s) && Enabled(s, step) && !step.OnMessage?
    requires s.answers == [] || s.answers == [Routing.RpcFailure(SYNTHESISED)]
    ensures Apply(s, step).answers == [] || Apply(s, step).answers == [Routing.RpcFailure(SYNTHESISED)]
  {
    ActivateInFlight(s);
  }

  /** Before the first message the only answer there can be is the synthesised one. */
  lemma {:induction false} SynthesisedUntil(s: System, steps: seq<Step>)
    requires Inv(s) && Legal(s, steps) && NoMessage(steps)
    requires s.answers == [] || s.answers == [Routing.RpcFailure(SYNTHESISED)]
    ensures var t := RunFrom(s, steps); t.answers == [] || t.answers == [Routing.RpcFailure(SYNTHESISED)]
    decreases |steps|
  {
    if steps != [] {
      assert steps[0] in steps;
      assert forall step | step in steps[1..] :: step in steps;
      InvKept(s, steps[0]);
      SynthesisedStep(s, steps[0]);
      SynthesisedUntil(Apply(s, steps[0]), steps[1..]);
    }
  }

  /* ----- the end of the stream ----- */

  /** The stream is closing or closed, and no Close is being sent. */
  ghost predicate Shutting(s: System) {
    && Inv(s) && s.stream != Unopened
    && (s.sh.phase == PendingClose || s.sh.phase == Closed)
    && forall id: CallId :: !InFlightClose(s, id)
  }

  lemma {:induction false} ShuttingStep(s: System, step: Step)
    requires Shutting(s) && Enabled(s, step)
    ensures Shutting(Apply(s, step)) && Apply(s, step).terminates == s.terminates
  {
    InvKept(s, step);
    ShuttingOwners(s, step);
    ShuttingPhase(s, step);
  }

  lemma {:induction false} ShuttingPhase(s: System, step: Step)
    requires Shutting(s) && Enabled(s, step)
    ensures var t := Apply(s, step);
            t.stream != Unopened && (t.sh.phase == PendingClose || t.sh.phase == Closed) && t.terminates == s.terminates
  {
    ActivateInFlight(s);
  }

  lemma {:induction false} ShuttingOwners(s: System, step: Step)
    requires Shutting(s) && Enabled(s, step)
    ensures forall id: CallId :: !InFlightClose(Apply(s, step), id)
  {
    forall id: CallId ensures !InFlightClose(Apply(s, step), id) {
      assert !InFlightClose(s, id);
    }
  }

  lemma {:induction false} NoMoreTerminates(s: System, steps: seq<Step>)
    requires Shutting(s) && Legal(s, steps)
    ensures RunFrom(s, steps).terminates == s.terminates
    decreases |steps|
  {
    if steps != [] {
      ShuttingStep(s, steps[0]);
      NoMoreTerminates(Apply(s, steps[0]), steps[1..]);
    }
  }

  lemma {:induction false} CloseMayFollow(s: System, id: CallId)
    requires InFlightClose(s, id)
    ensures Legal(s, [CloseSucceeds(id)]) && RunFrom(s, [CloseSucceeds(id)]).terminates == s.terminates + 1
  {
    assert [CloseSucceeds(id)][1..] == [];
  }

  /** After the arrival of a response that ends the stream, none having opened it before, the C layer accepts no further
      terminate message, whatever follows, if and only if no Close is being sent at that time. */
  lemma {:induction false} NoTerminateAfterEnd(s: System, m: Routing.Message)
    requires Inv(s) && Enabled(s, OnMessage(m)) && !s.responded
    requires IsResponse(s.model, m) && m.terminatesStream
    ensures var t := DoMessage(s, m);
            (forall after :: Legal(t, after) ==> RunFrom(t, after).terminates == t.terminates) <==>
            (forall id: CallId :: !InFlightClose(s, id))
  {
    var t := DoMessage(s, m);
    MessageKept(s, m);
    assert t.owner == s.owner;
    if id: CallId :| InFlightClose(s, id) {
      assert InFlightClose(t, id);
      CloseMayFollow(t, id);
    } else {
      forall id: CallId ensures !InFlightClose(t, id) {
        assert !InFlightClose(s, id);
      }
      forall after | Legal(t, after) ensures RunFrom(t, after).terminates == t.terminates {
        NoMoreTerminates(t, after);
      }
    }
  }

  /** A stream that is opened, used and closed, from beginning to end. */
  lemma {:induction false} LifeOfAContinuation(model: Routing.Model, m: Routing.Message)
    requires IsResponse(model, m) && !m.terminatesStream
    ensures Enabled(Accepted(model), OnMessage(m))
    ensures var answered := DoMessage(Accepted(model), m);
            && answered.sh.phase == Activated && answered.answers == [AnswerTo(model, m)]
            && Enabled(answered, Send(false)) && Owns(DoSend(answered, false), 1, InSend)
            && Enabled(answered, Close(false)) && Owns(DoClose(answered, false), 1, InClose(Activated))
            && var closing := DoCloseSucceeds(DoClose(answered, false), 1);
               && closing.terminates == 1 && closing.sh.phase == PendingClose
               && Enabled(closing, OnClosed)
               && var closed := DoClosed(closing);
                  closed.sh.phase == Closed && closed.released == 1 && closed.answers == answered.answers
  {
    AcceptedReached(model);
  }

  function Accepted(model: Routing.Model): System {
    DoActivateSucceeds(DoActivate(Initial(Created, model), false), 0)
  }

  lemma {:induction false} AcceptedReached(model: Routing.Model)
    ensures var run := [Activate(false), ActivateSucceeds(0)];
            Legal(Initial(Created, model), run) && RunFrom(Initial(Created, model), run) == Accepted(model)
    ensures var s := Accepted(model);
            && s.sh == Shared(PendingActivate, true, Some(0), Some(0), None)
            && s.owner == map[0 := InC] && |s.calls| == 1
            && s.stream == Open && s.delivering == None && s.model == model && s.shut == Running
            && s.answers == [] && s.terminates == 0 && s.origin.Created? && s.released == 0
  {
    var s1 := DoActivate(Initial(Created, model), false);
    assert s1.owner == map[0 := InActivate];
    assert [ActivateSucceeds(0)][1..] == [];
    assert Legal(s1, [ActivateSucceeds(0)]) && RunFrom(s1, [ActivateSucceeds(0)]) == Accepted(model);
    assert [Activate(false), ActivateSucceeds(0)][1..] == [ActivateSucceeds(0)];
  }

  /* ----- rolling back a Close ----- */

  /** An initial response arrived while no Close was being sent. */
  ghost predicate ArrivedFreely(model: Routing.Model, arrivals: seq<Arrival>) {
    exists a :: a in arrivals && IsResponse(model, a.message) && !a.duringClose
  }

  lemma {:induction false} FreelyMore(model: Routing.Model, a: Arrival, rest: seq<Arrival>)
    ensures ArrivedFreely(model, [a] + rest) <==>
            (IsResponse(model, a.message) && !a.duringClose) || ArrivedFreely(model, rest)
  {
    assert a in [a] + rest;
    assert forall b :: b in [a] + rest <==> b == a || b in rest;
  }

  /** A response that arrives while no Close is being sent, none having been accepted and the server not having ended
      the stream, opens the stream unless it is open. */
  lemma {:induction false} FreeResponseStep(s: System, m: Routing.Message)
    requires CleanInv(s) && Enabled(s, OnMessage(m)) && s.terminates == 0 && !s.serverEnded
    requires !DoMessage(s, m).serverEnded
    ensures DoMessage(s, m).responded <==> s.responded || (IsResponse(s.model, m) && !ClosePending(s))
  {
    CleanIsCoherent(s);
    LedgerStep(s, OnMessage(m));
  }

  lemma {:induction false} LedgersGrow(s: System, step: Step)
    requires Enabled(s, step)
    ensures Apply(s, step).terminates >= s.terminates && (s.serverEnded ==> Apply(s, step).serverEnded)
  {
  }

  lemma {:induction false} LedgersGrowOver(s: System, steps: seq<Step>)
    requires Legal(s, steps)
    ensures RunFrom(s, steps).terminates >= s.terminates && (s.serverEnded ==> RunFrom(s, steps).serverEnded)
    decreases |steps|
  {
    if steps != [] {
      LedgersGrow(s, steps[0]);
      LedgersGrowOver(Apply(s, steps[0]), steps[1..]);
    }
  }

  /** As long as no terminate message has been accepted and the server has not ended the stream, it has been opened
      exactly when an initial response arrived while no Close was being sent. */
  lemma {:induction false} OpenedFreely(s: System, steps: seq<Step>)
    requires CleanInv(s) && Legal(s, steps) && CleanRun(s, steps)
    requires RunFrom(s, steps).terminates == 0 && !RunFrom(s, steps).serverEnded
    ensures RunFrom(s, steps).responded <==> s.responded || ArrivedFreely(s.model, Arrivals(s, steps))
    decreases |steps|
  {
    if steps != [] {
      var t := Apply(s, steps[0]);
      LedgersGrowOver(t, steps[1..]);
      LedgersGrow(s, steps[0]);
      CleanKept(s, steps[0]);
      OpenedFreely(t, steps[1..]);
      LedgerStep(s, steps[0]);
      var rest := Arrivals(t, steps[1..]);
      if steps[0].OnMessage? {
        FreeResponseStep(s, steps[0].message);
        FreelyMore(s.model, Found(s, steps[0].message), rest);
      } else {
        assert [] + rest == rest;
      }
    }
  }

  /** A failing Close goes back to Activated exactly when an initial response arrived while no Close was being sent. So
      the state it goes back to is the one the messages that arrived call for if and only if no initial response arrived
      at all or one arrived at such a time. */
  lemma {:induction false} FailedCloseAndArrivals(
    origin: Origin, model: Routing.Model, steps: seq<Step>, id: CallId, code: Failure)
    requires Legal(Initial(origin, model), steps) && CleanRun(Initial(origin, model), steps)
    requires var s := RunFrom(Initial(origin, model), steps); InFlightClose(s, id) && s.sh.phase != Closed
    ensures var arrivals := Arrivals(Initial(origin, model), steps);
            var t := DoCloseFails(RunFrom(Initial(origin, model), steps), id, code);
            && t.sh.phase == (if ArrivedFreely(model, arrivals) then Activated else PendingActivate)
            && (t.sh.phase == (if Arrived(model, arrivals) then Activated else PendingActivate) <==>
                !Arrived(model, arrivals) || ArrivedFreely(model, arrivals))
  {
    var s := RunFrom(Initial(origin, model), steps);
    InitialClean(origin, model);
    CleanRunKept(Initial(origin, model), steps);
    FailedCloseRestores(s, id, code);
    TerminatedOnce(origin, model, steps);
    OpenedFreely(Initial(origin, model), steps);
  }

  /** An activation has been accepted, and a Close is being sent. */
  function Closing(model: Routing.Model): System {
    DoClose(DoActivateSucceeds(DoActivate(Initial(Created, model), false), 0), false)
  }

  lemma {:induction false} ClosingReached(model: Routing.Model)
    ensures var run := [Activate(false), ActivateSucceeds(0), Close(false)];
            Legal(Initial(Created, model), run) && RunFrom(Initial(Created, model), run) == Closing(model)
    ensures var s := Closing(model);
            && s.sh == Shared(PendingClose, true, Some(0), Some(0), Some(1))
            && s.owner == map[0 := InC, 1 := InClose(PendingActivate)] && |s.calls| == 2
            && s.stream == Open && s.handler && s.delivering == None && s.model == model && s.shut == Running
            && s.answers == [] && s.handlerCalls == [] && s.terminates == 0 && s.origin.Created?
  {
    var s1 := DoActivate(Initial(Created, model), false);
    assert s1.owner == map[0 := InActivate];
    var s2 := DoActivateSucceeds(s1, 0);
    assert s2.owner == map[0 := InC];
    assert [Close(false)][1..] == [];
    assert Legal(s2, [Close(false)]) && RunFrom(s2, [Close(false)]) == Closing(model);
    assert [ActivateSucceeds(0), Close(false)][1..] == [Close(false)];
    assert [Activate(false), ActivateSucceeds(0), Close(false)][1..] == [ActivateSucceeds(0), Close(false)];
  }

  /** A response that arrives while a Close is being sent goes to the stream handler. When the Close then fails, the
      next message, whatever it is, answers the activation. */
  lemma {:induction false} ResponseMissed(model: Routing.Model, m: Routing.Message, m2: Routing.Message, code: Failure)
    ensures Enabled(Closing(model), OnMessage(m))
    ensures var s1 := DoMessage(Closing(model), m);
            var s2 := DoDeliver(s1);
            && Enabled(s1, Deliver) && s2.answers == []
            && s2.handlerCalls == [Routing.HandlerCallOf(Routing.Classify(model, m, false))]
            && Enabled(s2, CloseFails(1, code))
            && var s3 := DoCloseFails(s2, 1, code);
               && s3.sh.phase == PendingActivate && Enabled(s3, OnMessage(m2))
               && DoMessage(s3, m2).answers == [AnswerTo(model, m2)]
  {
    ClosingReached(model);
    Routing.ClassificationSound(model, m, false);
  }

  /** When that response carries the terminate flag, a terminate message is accepted after it all the same. */
  lemma {:induction false} TerminateAfterMissedEnd(model: Routing.Model, m: Routing.Message, code: Failure)
    requires IsResponse(model, m) && m.terminatesStream
    ensures Enabled(Closing(model), OnMessage(m)) && Closing(model).terminates == 0
    ensures var s1 := DoMessage(Closing(model), m);
            && Enabled(s1, CloseFails(1, code))
            && var s2 := DoCloseFails(s1, 1, code);
               var s3 := DoClose(s2, false);
               && Enabled(s2, Close(false)) && Enabled(s3, CloseSucceeds(2))
               && DoCloseSucceeds(s3, 2).terminates == 1
  {
    ClosingReached(model);
  }
}
