/** What becomes of the calls once no new ones are made: every future is completed. */
module ContinuationDrain {
  import opened Rpc
  import opened FlushContainer
  import opened ContinuationProtocol
  import opened ContinuationRuns
  import Routing

  /** A step that returns from a C call, reports a flush or completes a container, whatever the C layer answers. */
  predicate Draining(step: Step) {
    || step.ActivateSucceeds? || step.ActivateFails? || step.SendSucceeds? || step.SendFails?
    || step.CloseSucceeds? || step.CloseFails? || step.CompleteFailure? || step.FlushDone?
  }

  predicate AllDraining(steps: seq<Step>) {
    forall step | step in steps :: Draining(step)
  }

  predicate InCall(owner: Owner) {
    owner == InActivate || owner == InSend || owner.InClose?
  }

  function CallsOut(s: System): set<CallId> {
    set id | id in s.owner && InCall(s.owner[id])
  }

  /** One step to return from the C call, one to complete the container. */
  function Work(s: System): nat {
    |s.owner.Keys| + |CallsOut(s)|
  }

  /** The step the owner of call `id` takes next when the C layer accepts everything. */
  function NextStep(s: System, id: CallId): Step
    requires id in s.owner
  {
    match s.owner[id]
    case InActivate => ActivateSucceeds(id)
    case InSend => SendSucceeds(id)
    case InClose(_) => CloseSucceeds(id)
    case Failed(_) => CompleteFailure(id)
    case InC => FlushDone(id, CrtSuccess)
  }

  lemma {:induction false} FewerKeys(s: System, id: CallId)
    requires id in s.owner && !InCall(s.owner[id])
    ensures |(s.owner - {id}).Keys| == |s.owner.Keys| - 1
  {
    assert (s.owner - {id}).Keys == s.owner.Keys - {id};
  }

  lemma {:induction false} FewerCallsOut(s: System, id: CallId, owner: Owner)
    requires id in s.owner && InCall(s.owner[id]) && !InCall(owner)
    ensures Work(Give(s, id, owner)) == Work(s) - 1
  {
    assert CallsOut(Give(s, id, owner)) == CallsOut(s) - {id};
    assert Give(s, id, owner).owner.Keys == s.owner.Keys;
  }

  /** Whatever the C layer answers, a draining step leaves less work and makes no new call. */
  lemma {:induction false} StepDrains(s: System, step: Step)
    requires Inv(s) && Enabled(s, step) && Draining(step)
    ensures Work(Apply(s, step)) < Work(s) && |Apply(s, step).calls| == |s.calls|
  {
    var t := Apply(s, step);
    if step.CompleteFailure? || step.FlushDone? {
      FewerKeys(s, step.id);
      assert CallsOut(t) == CallsOut(s);
    } else {
      CallReturns(s, step);
      FewerCallsOut(s, step.id, t.owner[step.id]);
      assert CallsOut(t) == CallsOut(Give(s, step.id, t.owner[step.id]));
    }
  }

  lemma {:induction false} CallReturns(s: System, step: Step)
    requires Enabled(s, step) && Draining(step) && !step.CompleteFailure? && !step.FlushDone?
    ensures step.id in s.owner && InCall(s.owner[step.id])
    ensures var t := Apply(s, step);
            && t.calls == s.calls && step.id in t.owner && !InCall(t.owner[step.id])
            && t.owner == s.owner[step.id := t.owner[step.id]]
  {
  }

  /** No draining run is longer than the work there is; and when none of its steps is left, every promise has exactly
      one value. */
  lemma {:induction false} DrainsInTime(s: System, steps: seq<Step>)
    requires Inv(s) && Legal(s, steps) && AllDraining(steps)
    ensures |steps| + Work(RunFrom(s, steps)) <= Work(s)
    ensures var t := RunFrom(s, steps);
            (forall step :: Enabled(t, step) ==> !Draining(step)) ==>
              && t.owner == map[] && |t.calls| == |s.calls|
              && forall id | 0 <= id < |t.calls| :: |t.calls[id].promise| == 1
    decreases |steps|
  {
    if steps == [] {
      if forall step :: Enabled(s, step) ==> !Draining(step) {
        forall id | id in s.owner ensures false {
          assert OwnerInv(s, id);
          assert Enabled(s, NextStep(s, id));
        }
        assert s.owner == map[];
        forall id | 0 <= id < |s.calls| ensures |s.calls[id].promise| == 1 {
          assert CallInv(s, id);
        }
      }
    } else {
      InvKept(s, steps[0]);
      StepDrains(s, steps[0]);
      DrainsInTime(Apply(s, steps[0]), steps[1..]);
    }
  }

  /** From every reachable state a draining run completes every future there is with exactly one value. */
  lemma {:induction false} EveryFutureCompletes(s: System) returns (steps: seq<Step>)
    requires Inv(s)
    ensures Legal(s, steps) && AllDraining(steps)
    ensures var t := RunFrom(s, steps);
            && t.owner == map[] && |t.calls| == |s.calls|
            && forall id | 0 <= id < |t.calls| :: |t.calls[id].promise| == 1
    decreases Work(s)
  {
    if id :| id in s.owner {
      assert OwnerInv(s, id);
      var step := NextStep(s, id);
      InvKept(s, step);
      StepDrains(s, step);
      var rest := EveryFutureCompletes(Apply(s, step));
      steps := [step] + rest;
      assert steps[1..] == rest;
    } else {
      steps := [];
      assert s.owner == map[];
      forall id | 0 <= id < |s.calls| ensures |s.calls[id].promise| == 1 {
        assert CallInv(s, id);
      }
    }
  }
}
