/** How a connection ends once it has been closed and no new Connect is made. */
module ConnectionDrain {
  import opened Rpc
  import opened FlushContainer
  import opened ConnectionProtocol
  import opened ConnectionRuns

  /** A step that returns from a C call, reports the end of something to the binding, or completes what was taken. */
  predicate Draining(step: Step) {
    || step.ConnectCallSucceeds? || step.ConnectCallFails? || step.SetupFails? || step.SetupSucceeds?
    || step.SendSucceeds? || step.SendFails? || step.ChannelShutdown?
    || step.FinishClose? || step.FlushDone? || step.SynthesiseFlush?
  }

  /** The draining steps somebody is bound to take. The C layer may end a channel at any time, but is bound to only once
      the binding has closed the connection. */
  predicate Due(s: System, step: Step) {
    Enabled(s, step) && Draining(step) && (step.ChannelShutdown? ==> s.attempt in s.closed)
  }

  /** A run without a new Connect: draining steps, ACKs and further calls of Close. */
  predicate NoNewConnect(steps: seq<Step>) {
    forall step | step in steps :: step != Connect
  }

  /** Close or Shutdown has run, or the attempt has ended. */
  predicate Leaving(s: System) {
    s.sh.desired == Disconnected
  }

  function DrainingSteps(steps: seq<Step>): nat {
    if steps == [] then 0 else (if Draining(steps[0]) then 1 else 0) + DrainingSteps(steps[1..])
  }

  /** The calls of Close and Shutdown; Shutdown may leave a flush container to complete. */
  function CloseCalls(steps: seq<Step>): nat {
    if steps == [] then 0 else (if steps[0].Close? then 1 else 0) + CloseCalls(steps[1..])
  }

  function StepsLeft(c: CLayer): nat {
    match c
    case ConnectCall => 4
    case SetupDue => 3
    case Channel => 1
    case NoConnection => 0
  }

  /** A setup that succeeds leaves a close to be made, a CONNECT being sent a flush to be reported. */
  function Work(s: System): nat {
    StepsLeft(s.c) + (if s.sending then 2 else 0) + |s.closing| + |s.wrappers| + |s.synthesised|
  }

  lemma {:induction false} StaysLeaving(s: System, step: Step)
    requires StateInv(s) && Leaving(s) && Enabled(s, step) && step != Connect
    ensures Leaving(Apply(s, step)) && Apply(s, step).attempt == s.attempt
  {
  }

  lemma {:induction false} ReturnDrains(s: System, step: Step)
    requires Inv(s) && Leaving(s) && Enabled(s, step)
    requires Draining(step) && !step.FinishClose? && !step.FlushDone? && !step.SynthesiseFlush?
    ensures Work(Apply(s, step)) < Work(s)
  {
    if step.SendSucceeds? {
      assert Apply(s, step).wrappers == s.wrappers + {s.attempt};
    }
  }

  lemma {:induction false} CompletionDrains(s: System, step: Step)
    requires Enabled(s, step) && (step.FinishClose? || step.FlushDone? || step.SynthesiseFlush?)
    ensures Work(Apply(s, step)) == Work(s) - 1
  {
    var t := Apply(s, step);
    match step
    case FinishClose(connection) => assert t.closing == s.closing - multiset{connection};
    case FlushDone(container, _) => assert t.wrappers == s.wrappers - {container};
    case SynthesiseFlush(container) => assert t.synthesised == s.synthesised - {container};
    case _ => assert false;
  }

  /** An ACK or a further Close adds no work, but for the one flush container Shutdown may take out. */
  lemma {:induction false} OthersAddLittle(s: System, step: Step)
    requires Inv(s) && Leaving(s) && Enabled(s, step) && (step.Ack? || step.Close?)
    ensures Work(Apply(s, step)) <= Work(s) + (if step.Close? then 1 else 0)
  {
  }

  /** What is left when an attempt has been closed and every draining step has been taken: the client is Disconnected,
      holds no reference and no close is in flight, the promise of the last Connect has its one value, and every flush
      container is complete but for that of a CONNECT that could not be sent. */
  ghost predicate AllOver(s: System) {
    && s.sh.current == Disconnected && s.c == NoConnection
    && s.refs == multiset{} && s.closing == multiset{} && s.wrappers == {} && s.synthesised == {}
    && (s.attempt > 0 ==> |PromiseValues(s.history, s.attempt)| == 1)
    && forall a | a in s.flush :: !s.flush[a].incomplete || a in s.dropped
  }

  lemma {:induction false} NothingLeft(s: System)
    requires Inv(s) && Leaving(s) && forall step :: !Due(s, step)
    ensures AllOver(s)
  {
    if s.c != NoConnection || s.sending {
      var step := if s.sending then SendSucceeds else
                  match s.c
                  case ConnectCall => ConnectCallSucceeds
                  case SetupDue => SetupSucceeds(false)
                  case _ => ChannelShutdown(CrtSuccess);
      assert !Due(s, FinishClose(s.attempt));
      assert Due(s, step);
      assert false;
    }
    forall a: Attempt ensures a !in s.closing {
      assert Due(s, FinishClose(a)) <==> a in s.closing;
    }
    forall a: Attempt ensures a !in s.wrappers && a !in s.synthesised && s.refs[a] == 0 {
      assert Due(s, FlushDone(a, CrtSuccess)) <==> a in s.wrappers;
      assert Due(s, SynthesiseFlush(a)) <==> a in s.synthesised;
      assert Balanced(s, a);
    }
    assert s.closing == multiset{} && s.refs == multiset{} && s.wrappers == {} && s.synthesised == {};
    assert Accounted(s, s.attempt);
  }

  /** After a Close, whatever the C layer answers and whatever else is called, the draining steps of a run are at most
      as many as the work there was, one more for each later Close; and when none is due any more, all is over. */
  lemma {:induction false} EndsInTime(s: System, steps: seq<Step>)
    requires Inv(s) && Leaving(s) && Legal(s, steps) && NoNewConnect(steps)
    ensures DrainingSteps(steps) + Work(RunFrom(s, steps)) <= Work(s) + CloseCalls(steps)
    ensures (forall step :: !Due(RunFrom(s, steps), step)) ==> AllOver(RunFrom(s, steps))
    decreases |steps|
  {
    if steps == [] {
      if forall step :: !Due(s, step) {
        NothingLeft(s);
      }
    } else {
      var step := steps[0];
      assert step in steps;
      assert NoNewConnect(steps[1..]) by {
        assert forall other | other in steps[1..] :: other in steps;
      }
      InvKept(s, step);
      StaysLeaving(s, step);
      if step.FinishClose? || step.FlushDone? || step.SynthesiseFlush? {
        CompletionDrains(s, step);
      } else if Draining(step) {
        ReturnDrains(s, step);
      } else {
        OthersAddLittle(s, step);
      }
      EndsInTime(Apply(s, step), steps[1..]);
    }
  }

  /** Every step of the run is one that was due. */
  predicate AllDue(s: System, steps: seq<Step>)
    requires Legal(s, steps)
    decreases |steps|
  {
    steps == [] || (Due(s, steps[0]) && AllDue(Apply(s, steps[0]), steps[1..]))
  }

  /** And from every reachable state a Close has been called in, a run of steps that are due gets there: the channel
      ends because the binding closed it. */
  lemma {:induction false} EveryAttemptEnds(s: System) returns (steps: seq<Step>)
    requires Inv(s) && Leaving(s)
    ensures Legal(s, steps) && AllDue(s, steps) && AllOver(RunFrom(s, steps))
    decreases Work(s)
  {
    if step :| Due(s, step) {
      InvKept(s, step);
      StaysLeaving(s, step);
      if step.FinishClose? || step.FlushDone? || step.SynthesiseFlush? {
        CompletionDrains(s, step);
      } else {
        ReturnDrains(s, step);
      }
      var rest := EveryAttemptEnds(Apply(s, step));
      steps := [step] + rest;
      assert steps[1..] == rest;
    } else {
      steps := [];
      NothingLeft(s);
    }
  }
}
