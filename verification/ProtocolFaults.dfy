/**
 Faults and their acknowledgement as runs: every acknowledgement can come to its end, and
 one that leaves work behind.
 */
module ProtocolFaults {
  import opened Wrappers
  import opened Lifecycle
  import opened GateModel
  import opened PipelineModel
  import opened Protocol
  import opened ProtocolInvariant
  import opened ProtocolTheorems
  import opened ProtocolProgress
  import opened ProtocolStops

  // ---------- every acknowledgement can end ----------

  lemma FaultedOperations(s: State)
    requires Inv(s) && s.gate.c.state == Faulted
    ensures s.gate.w.inFlight == IngressOperation(s.ingress) + PreflightOperation(s.preflight)
  {
    assert Operations(s.gate, s.ingress, s.preflight, s.workers[3].pc);
    assert CommitSafe(s.gate, s.workers[3].pc);
  }

  // One more stage has answered.
  function Next(k: nat): Point {
    if k >= 3 then Complete else AwaitStage(k + 1)
  }

  lemma SeesEmptied(s: State, generation: Option<Generation>, purpose: Purpose, k: nat, ok: bool)
    requires |s.edges| == 4 && |s.workers| == 4 && k < 4 && IdleStage(s, k)
    requires s.control == Draining(generation, purpose, AwaitStage(k), ok)
    ensures Enabled(s, OfControl(SeeDrained(Emptied)))
    ensures Apply(s, OfControl(SeeDrained(Emptied))) == s.(control := Draining(generation, purpose, Next(k), ok))
  {
  }

  // The stages empty themselves one after another, and each answers.
  lemma {:induction false} StagesAnswer(s: State, k: nat) returns (steps: seq<Step>)
    requires Inv(s) && s.gate.c.state == Faulted && k <= 4
    requires s.control == Draining(None, ToOff, if k == 4 then Complete else AwaitStage(k), true)
    ensures Runs(s, steps) && Acknowledges(steps) && NoLoss(steps)
    ensures var s' := After(s, steps);
            && s'.gate.c == s.gate.c && s'.gate.w.inFlight == s.gate.w.inFlight
            && s'.control == Draining(None, ToOff, Complete, true)
    decreases 4 - k
  {
    hide Apply, Enabled, Inv, LosesCredit, IdleStage;
    steps := [];
    if k < 4 {
      var empties := StageEmpties(s, k);
      var s1 := After(s, empties);
      var sees := OfControl(SeeDrained(Emptied));
      LockIsFree(s1);
      FaultedOperations(s);
      FaultedOperations(s1);
      SeesEmptied(s1, None, ToOff, k, true);
      StepKeepsInv(s1, sees);
      ControlLosesNothing(sees);
      var rest := StagesAnswer(Apply(s1, sees), k + 1);
      OneStepRuns(s1, sees);
      RunsJoin(s1, [sees], rest);
      RunsJoin(s, empties, [sees] + rest);
      steps := empties + ([sees] + rest);
    }
  }

  lemma ControlLosesNothing(step: Step)
    requires step.OfControl?
    ensures forall k :: 0 <= k < 4 ==> !LosesCredit(step, k)
  {
  }

  lemma AcknowledgementBegins(s: State)
    requires |s.edges| == 4 && |s.workers| == 4
    requires s.gate.c.state == Faulted && s.control == Ready && !HoldsSlotLock(s.ingress)
    ensures var s1 := s.(control := Draining(None, ToOff, Clear, true));
            var s2 := s.(control := Draining(None, ToOff, AwaitStage(0), true), slot := None);
            && Enabled(s, OfControl(StopFaulted)) && Apply(s, OfControl(StopFaulted)) == s1
            && Enabled(s1, OfControl(ClearCoalesced)) && Apply(s1, OfControl(ClearCoalesced)) == s2
  {
  }

  lemma CloseIsEnabled(s: State, reason: TransitionReason)
    requires |s.edges| == 4 && |s.workers| == 4 && s.control == Draining(None, ToOff, Complete, true)
    ensures Enabled(s, OfControl(EndDrain(reason))) && ClosesGate(s, OfControl(EndDrain(reason)))
  {
  }

  // From every reachable fault the stop can run to its end by the steps of the owner and
  // the stages alone, and so it meets what FaultedStopIsCleanExactly asks of it.
  lemma FaultedStopCompletes(s: State, reason: TransitionReason) returns (during: seq<Step>)
    requires Inv(s) && s.gate.c.state == Faulted && s.control == Ready && !HoldsSlotLock(s.ingress)
    ensures Runs(s, during) && Acknowledges(during) && NoLoss(during)
    ensures After(s, during).gate.w.inFlight == s.gate.w.inFlight
    ensures Enabled(After(s, during), OfControl(EndDrain(reason))) && ClosesGate(After(s, during), OfControl(EndDrain(reason)))
  {
    hide Apply, Enabled, Inv, LosesCredit, ClosesGate;
    var stop, clear := OfControl(StopFaulted), OfControl(ClearCoalesced);
    LockIsFree(s);
    AcknowledgementBegins(s);
    var s1 := Apply(s, stop);
    StepKeepsInv(s, stop);
    StepKeepsInv(s1, clear);
    var s2 := Apply(s1, clear);
    ControlLosesNothing(stop);
    ControlLosesNothing(clear);
    var rest := StagesAnswer(s2, 0);
    OneStepRuns(s, stop);
    OneStepRuns(s1, clear);
    RunsJoin(s1, [clear], rest);
    RunsJoin(s, [stop], [clear] + rest);
    during := [stop] + ([clear] + rest);
    RunKeepsInv(s2, rest);
    LockIsFree(After(s2, rest));
    CloseIsEnabled(After(s, during), reason);
  }

  // ---------- a fault may leave work behind ----------

  // A submission takes its credit; the owner faults, and its drain times out; then the
  // fault is acknowledged. All stages are idle throughout.
  const Opening := [OfControl(StartSession(UserStart, "r")), OfControl(EnterRecording(UserStart)),
                    OfIngress(BeginSubmit(0, 1, [])), OfIngress(OnRaw(SubmitAcquire))]
  const ClearingRun := [OfControl(ClearCoalesced), OfControl(SeeDrained(Emptied)), OfControl(SeeDrained(Emptied)),
                     OfControl(SeeDrained(Emptied)), OfControl(SeeDrained(Emptied))]
  const TimedOut := [OfControl(EnterFault(CriticalFault, true)), OfControl(CancelQueued(false)),
                     OfControl(SeeOperations(true)), OfControl(SeeEdge(true))]
  const Faulting := TimedOut + ClearingRun + [OfControl(EndDrain(CriticalFault))]
  const Acknowledged := [OfControl(StopFaulted)] + ClearingRun + [OfControl(EndDrain(UserStop))]

  // The submission holds its credit and its operation, and nothing else goes on.
  predicate Stuck(s: State) {
    && |s.edges| == 4 && |s.workers| == 4
    && s.edges[0].credits[1] == 1 && s.gate.w.inFlight[1] == 1 && s.ingress.SubmitCredited?
    && (forall k :: 0 <= k < 4 ==> s.workers[k].pc == Polling)
    && (forall k :: 0 <= k < 4 ==> s.edges[k].queue == [])
  }

  lemma SessionOpens(s: State)
    requires Initial(s)
    ensures Enabled(s, Opening[0]) && Enabled(Apply(s, Opening[0]), Opening[1])
    ensures var s' := Apply(Apply(s, Opening[0]), Opening[1]);
            && s' == s.(gate := s'.gate, history := s'.history)
            && s'.gate.c.state == Recording && s'.gate.c.active == Some(1) && s'.gate.c.revision == Some("r")
            && s'.gate.w == Work(map[1 := false], {1}, multiset{})
  {
  }

  lemma SubmissionStarts(s: State)
    requires |s.edges| == 4 && |s.workers| == 4 && s.edges[0].capacity > 0 && s.edges[0].credits == multiset{}
    requires s.ingress == Quiet && s.control == Ready && !s.commitLock
    requires forall k :: 0 <= k < 4 ==> s.workers[k].pc == Polling
    requires forall k :: 0 <= k < 4 ==> s.edges[k].queue == []
    requires s.gate.c.state == Recording && s.gate.c.active == Some(1) && s.gate.c.revision == Some("r")
    requires s.gate.w == Work(map[1 := false], {1}, multiset{})
    ensures Enabled(s, Opening[2]) && Enabled(Apply(s, Opening[2]), Opening[3])
    ensures var s' := Apply(Apply(s, Opening[2]), Opening[3]);
            Stuck(s') && !s'.commitLock && s'.control == Ready && s'.gate.c.state == Recording && s'.gate.c.active == Some(1)
  {
  }

  lemma OpeningRuns(s: State)
    requires Initial(s)
    ensures Runs(s, Opening)
    ensures var s' := After(s, Opening);
            Stuck(s') && !s'.commitLock && s'.control == Ready && s'.gate.c.state == Recording && s'.gate.c.active == Some(1)
  {
    hide Apply, Enabled, Stuck;
    SessionOpens(s);
    var s1 := Apply(s, Opening[0]);
    var s2 := Apply(s1, Opening[1]);
    SubmissionStarts(s2);
    var s3 := Apply(s2, Opening[2]);
    assert Opening[1..][1..] == Opening[2..] && Opening[2..][1..] == Opening[3..] && Opening[3..][1..] == [];
    assert Runs(s3, Opening[3..]);
    assert Runs(s2, Opening[2..]);
    assert Runs(s1, Opening[1..]);
  }

  lemma ClearingRuns(s: State, generation: Option<Generation>, purpose: Purpose, ok: bool)
    requires Stuck(s) && s.control == Draining(generation, purpose, PipelineModel.Clear, ok)
    ensures Runs(s, ClearingRun)
    ensures After(s, ClearingRun)
         == s.(control := Draining(generation, purpose, Complete, ok), slot := ClearSlot(s.slot, generation))
  {
    hide Apply, Enabled;
    var sees := OfControl(SeeDrained(Emptied));
    var s0 := s.(control := Draining(generation, purpose, AwaitStage(0), ok), slot := ClearSlot(s.slot, generation));
    var s1 := s0.(control := Draining(generation, purpose, AwaitStage(1), ok));
    var s2 := s0.(control := Draining(generation, purpose, AwaitStage(2), ok));
    var s3 := s0.(control := Draining(generation, purpose, AwaitStage(3), ok));
    ClearsCoalesced(s, generation, purpose, ok);
    SeesEmptied(s0, generation, purpose, 0, ok);
    SeesEmptied(s1, generation, purpose, 1, ok);
    SeesEmptied(s2, generation, purpose, 2, ok);
    SeesEmptied(s3, generation, purpose, 3, ok);
    OneStepRuns(s3, sees);
    OneStepRuns(s2, sees);
    RunsJoin(s2, [sees], [sees]);
    OneStepRuns(s1, sees);
    RunsJoin(s1, [sees], [sees] + [sees]);
    OneStepRuns(s0, sees);
    RunsJoin(s0, [sees], [sees] + ([sees] + [sees]));
    OneStepRuns(s, OfControl(ClearCoalesced));
    RunsJoin(s, [OfControl(ClearCoalesced)], [sees] + ([sees] + ([sees] + [sees])));
    assert ClearingRun == [OfControl(ClearCoalesced)] + ([sees] + ([sees] + ([sees] + [sees])));
  }

  lemma ClearsCoalesced(s: State, generation: Option<Generation>, purpose: Purpose, ok: bool)
    requires Stuck(s) && s.control == Draining(generation, purpose, PipelineModel.Clear, ok)
    ensures Enabled(s, OfControl(ClearCoalesced))
    ensures Apply(s, OfControl(ClearCoalesced))
         == s.(control := Draining(generation, purpose, AwaitStage(0), ok), slot := ClearSlot(s.slot, generation))
  {
  }

  lemma FaultsWithDrain(s: State)
    requires Stuck(s) && !s.commitLock && s.control == Ready && s.gate.c.state == Recording && s.gate.c.active == Some(1)
    ensures Enabled(s, TimedOut[0])
    ensures var s' := Apply(s, TimedOut[0]);
            Stuck(s') && s'.gate.c.state == Faulted && s'.control == Draining(Some(1), AfterFault, Cancel, true)
  {
  }

  lemma CancelsQueued(s: State)
    requires Stuck(s) && s.control == Draining(Some(1), AfterFault, Cancel, true)
    ensures Enabled(s, TimedOut[1])
    ensures Apply(s, TimedOut[1])
         == s.(control := Draining(Some(1), AfterFault, AwaitOperations, true), slot := ClearSlot(s.slot, Some(1)))
  {
  }

  lemma WaitsTimeOut(s: State)
    requires Stuck(s)
    ensures var s1 := s.(control := Draining(Some(1), AfterFault, AwaitOperations, true));
            var s2 := s.(control := Draining(Some(1), AfterFault, AwaitEdge(0), false));
            var s3 := s.(control := Draining(Some(1), AfterFault, PipelineModel.Clear, false));
            && Enabled(s1, TimedOut[2]) && Apply(s1, TimedOut[2]) == s2
            && Enabled(s2, TimedOut[3]) && Apply(s2, TimedOut[3]) == s3
  {
  }

  lemma DrainTimesOut(s: State)
    requires Stuck(s) && s.gate.c.state == Faulted && s.control == Draining(Some(1), AfterFault, Cancel, true)
    ensures Runs(s, TimedOut[1..])
    ensures var s' := After(s, TimedOut[1..]);
            Stuck(s') && s'.gate.c.state == Faulted && s'.control == Draining(Some(1), AfterFault, PipelineModel.Clear, false)
  {
    hide Apply, Enabled;
    CancelsQueued(s);
    var s1 := Apply(s, TimedOut[1]);
    WaitsTimeOut(s1);
    var s2 := Apply(s1, TimedOut[2]);
    OneStepRuns(s2, TimedOut[3]);
    OneStepRuns(s1, TimedOut[2]);
    OneStepRuns(s, TimedOut[1]);
    RunsJoin(s1, [TimedOut[2]], [TimedOut[3]]);
    RunsJoin(s, [TimedOut[1]], [TimedOut[2]] + [TimedOut[3]]);
    assert TimedOut[1..] == [TimedOut[1]] + ([TimedOut[2]] + [TimedOut[3]]);
  }

  lemma EndsDrain(s: State, reason: TransitionReason)
    requires Stuck(s) && s.gate.c.state == Faulted && s.control.Draining? && s.control.point == Complete
    requires s.control.ok ==> s.control.purpose == ToOff
    ensures Enabled(s, OfControl(EndDrain(reason)))
    ensures var s' := Apply(s, OfControl(EndDrain(reason)));
            Stuck(s') && s'.control == Ready && s'.gate.c.state == if s.control.ok then Off else Faulted
  {
  }

  lemma FaultingRuns(s: State)
    requires Stuck(s) && !s.commitLock && s.control == Ready && s.gate.c.state == Recording && s.gate.c.active == Some(1)
    ensures Runs(s, Faulting)
    ensures var s' := After(s, Faulting); Stuck(s') && s'.gate.c.state == Faulted && s'.control == Ready
  {
    hide Apply, Enabled;
    FaultsWithDrain(s);
    var s1 := Apply(s, TimedOut[0]);
    DrainTimesOut(s1);
    var s2 := After(s1, TimedOut[1..]);
    ClearingRuns(s2, Some(1), AfterFault, false);
    var s3 := After(s2, ClearingRun);
    EndsDrain(s3, CriticalFault);
    var end := [OfControl(EndDrain(CriticalFault))];
    OneStepRuns(s3, end[0]);
    RunsJoin(s2, ClearingRun, end);
    RunsJoin(s1, TimedOut[1..], ClearingRun + end);
    OneStepRuns(s, TimedOut[0]);
    RunsJoin(s, [TimedOut[0]], TimedOut[1..] + (ClearingRun + end));
    assert Faulting == [TimedOut[0]] + (TimedOut[1..] + (ClearingRun + end));
  }

  lemma AcknowledgedRuns(s: State)
    requires Stuck(s) && s.gate.c.state == Faulted && s.control == Ready
    ensures Runs(s, Acknowledged)
    ensures var s' := After(s, Acknowledged); Stuck(s') && s'.gate.c.state == Off
  {
    hide Apply, Enabled;
    AcknowledgementBegins(s);
    var s1 := Apply(s, OfControl(StopFaulted));
    ClearingRuns(s1, None, ToOff, true);
    var s2 := After(s1, ClearingRun);
    EndsDrain(s2, UserStop);
    var end := [OfControl(EndDrain(UserStop))];
    OneStepRuns(s2, end[0]);
    RunsJoin(s1, ClearingRun, end);
    OneStepRuns(s, OfControl(StopFaulted));
    RunsJoin(s, [OfControl(StopFaulted)], ClearingRun + end);
    assert Acknowledged == [OfControl(StopFaulted)] + (ClearingRun + end);
  }

  // From FAULTED the gate closes without waiting for operations, so the claim needs its
  // condition.
  lemma FaultedStopMayLeaveWork(s: State)
    requires Initial(s)
    ensures Runs(s, Opening) && Runs(After(s, Opening), Faulting) && Runs(After(After(s, Opening), Faulting), Acknowledged)
    ensures var faulted := After(After(s, Opening), Faulting);
            var off := After(faulted, Acknowledged);
            && faulted.gate.c.state == Faulted && off.gate.c.state == Off
            && |off.edges| == 4 && |off.workers| == 4 && !Clean(off, 1)
  {
    OpeningRuns(s);
    FaultingRuns(After(s, Opening));
    AcknowledgedRuns(After(After(s, Opening), Faulting));
  }
}
