/**
 The lifecycle owner as the object it is: it drives a capture gate, keeps the two
 pause latches and reports every transition to the audit sink. Each handler is
 proved to do to the object's view exactly what the function of the same name in
 ActorModel does to the value.
 */
module LifecycleActorObject {
  import opened Wrappers
  import opened Lifecycle
  import opened GateModel
  import opened CaptureGateObject
  import opened ActorModel

  class LifecycleActor {
    const gate: CaptureGate
    const env: Environment
    const thread: ThreadId
    var manualPause: bool
    var automaticPauseReason: Option<TransitionReason>
    // The calls made to the audit sink and to the work coordinator.
    var attempts: seq<Attempt>
    var drains: seq<Option<Generation>>
    // How many operations of the gate raised.
    ghost var refusals: nat

    ghost predicate Valid()
      reads this, gate
    {
      gate.Valid() && gate.owner == Some(thread)
    }

    ghost function View(): Actor
      reads this, gate
    {
      Actor(gate.ControlView(), manualPause, automaticPauseReason, attempts, drains, refusals)
    }

    constructor (gate: CaptureGate, env: Environment, thread: ThreadId)
      requires gate.Valid() && gate.View() == InitialGate && gate.owner == Some(thread)
      ensures this.gate == gate && this.env == env && this.thread == thread
      ensures Valid() && View() == InitialActor
    {
      this.gate, this.env, this.thread := gate, env, thread;
      manualPause, automaticPauseReason, attempts, drains, refusals := false, None, [], [], 0;
    }

    // ---------- the gate, as far as the owner looks at it ----------

    method FaultGate(reason: TransitionReason) returns (previous: Option<Generation>, moved: Result<Transition, GateError>)
      requires Valid() && gate.state != Faulted
      modifies gate
      ensures Valid() && moved.Ok? && previous == FaultedGeneration(old(gate.ControlView()))
      ensures Moved(gate.ControlView(), moved) == FaultControl(old(gate.ControlView()), reason)
    {
      previous, moved := gate.Fault(thread, reason);
    }

    method StartGate(reason: TransitionReason, revision: Revision) returns (moved: Result<Transition, GateError>)
      requires Valid()
      modifies gate
      ensures Valid() && Moved(gate.ControlView(), moved) == BeginStartControl(old(gate.ControlView()), reason, revision)
    {
      moved := gate.BeginStart(thread, reason, revision);
    }

    method RecordGate(generation: Generation, reason: TransitionReason) returns (moved: Result<Transition, GateError>)
      requires Valid()
      modifies gate
      ensures Valid()
      ensures Moved(gate.ControlView(), moved) == MarkRecordingControl(old(gate.ControlView()), generation, reason)
    {
      moved := gate.MarkRecording(thread, generation, reason);
    }

    method PauseGate(reason: TransitionReason) returns (moved: Result<Transition, GateError>)
      requires Valid()
      modifies gate
      ensures Valid() && Moved(gate.ControlView(), moved) == PauseControl(old(gate.ControlView()), reason)
    {
      moved := gate.Pause(thread, reason);
    }

    method ResumeGate(reason: TransitionReason) returns (moved: Result<Transition, GateError>)
      requires Valid()
      modifies gate
      ensures Valid() && Moved(gate.ControlView(), moved) == ResumeControl(old(gate.ControlView()), reason)
    {
      moved := gate.Resume(thread, reason);
    }

    method InvalidateGate(reason: TransitionReason)
      returns (previous: Option<Generation>, moved: Result<Transition, GateError>)
      requires Valid()
      modifies gate
      ensures Valid() && (moved.Ok? ==> previous == old(gate.active))
      ensures Moved(gate.ControlView(), moved) == InvalidateAndPauseControl(old(gate.ControlView()), reason)
    {
      previous, moved := gate.InvalidateAndPause(thread, reason);
    }

    method StoppingGate(reason: TransitionReason)
      returns (previous: Option<Generation>, moved: Result<Transition, GateError>)
      requires Valid()
      modifies gate
      ensures Valid() && (moved.Ok? ==> previous == old(gate.active))
      ensures Moved(gate.ControlView(), moved) == BeginStoppingControl(old(gate.ControlView()), reason)
    {
      previous, moved := gate.BeginStopping(thread, reason);
    }

    method FinishGate(reason: TransitionReason) returns (moved: Result<Transition, GateError>)
      requires Valid()
      modifies gate
      ensures Valid() && Moved(gate.ControlView(), moved) == FinishOffControl(old(gate.ControlView()), reason)
    {
      moved := gate.FinishOff(thread, reason);
    }

    // ---------- drains, faults and the audit trail ----------

    method DrainGeneration(generation: Option<Generation>) returns (fault: Option<FaultCode>)
      requires Valid()
      modifies this`drains
      ensures Valid() && View() == Drained(old(View()), generation)
      ensures fault == NextDrain(old(View()), env, generation)
    {
      var outcome := env.coordinator(|drains|);
      drains := drains + [generation];
      var clearFailure := if outcome.cleared then None else Some(BufferClearFailure);
      if generation.None? {
        return clearFailure;
      }
      fault := None;
      if !outcome.cancelQueued {
        fault := Some(CancellationFailure);
      }
      if !outcome.cancelInFlight && fault.None? {
        fault := Some(CancellationFailure);
      }
      if (!outcome.operationsQuiet || !outcome.pipelineQuiet) && fault.None? {
        fault := Some(QuiescenceTimeout);
      }
      if fault.None? {
        fault := clearFailure;
      }
    }

    // Emitting and faulting call each other; an emission that announces a fault does
    // not fault again, so the recursion ends.
    method EmitTransition(transition: Transition, fault: Option<FaultCode>, failClosed: bool) returns (ok: bool)
      requires Valid() && (failClosed ==> fault.None?)
      modifies this, gate
      ensures Valid() && ok == old(View()).SinkAnswers(env)
      ensures View() == if failClosed then Emitted(old(View()), env, transition)
                        else Recorded(old(View()), env, transition, fault)
      decreases if failClosed then 2 else 0
    {
      ok := env.sink(|attempts|);
      attempts := attempts + [Attempt(transition, gate.revision, fault, ok)];
      if !ok && failClosed && gate.state != Faulted {
        var _ := EnterFault(AuditFailure, CriticalFault, true);
      }
    }

    method EnterFault(fault: FaultCode, reason: TransitionReason, drain: bool) returns (reply: Reply)
      requires Valid()
      modifies this, gate
      ensures Valid() && View() == ActorModel.EnterFault(old(View()), env, fault, reason, drain)
      ensures reply == FaultReply(old(View()), fault)
      decreases 1
    {
      hide FaultControl, FaultedGeneration, Recorded, Emitted, Drained;
      if gate.state == Faulted {
        return Reply(false, false, NowFaulted, Some(fault));
      }
      var generation, moved := FaultGate(reason);
      var _ := EmitTransition(moved.value, Some(fault), false);
      reply := Reply(false, true, NowFaulted, Some(fault));
      assert View() == ActorModel.EnterFault(old(View()), env, fault, reason, false);
      if drain {
        var _ := DrainGeneration(generation);
      }
    }

    // The end of a handler whose transition the gate has just made; `before` is the
    // view from before the gate moved.
    method Announce(ghost before: Actor, moved: Result<Transition, GateError>, done: Reply) returns (reply: Reply)
      requires Valid() && View() == before.(c := gate.ControlView())
      modifies this, gate
      ensures Valid()
      ensures Handled(View(), reply)
           == ActorModel.Announce(before, env, Moved(old(gate.ControlView()), moved), done)
    {
      if moved.Err? {
        refusals := refusals + 1;
        return Reply(false, false, GateRefused, None);
      }
      var ok := EmitTransition(moved.value, None, true);
      reply := if ok then done else AuditReply;
    }

    method AnnounceAndDrain(ghost before: Actor, moved: Result<Transition, GateError>, previous: Option<Generation>,
                            done: Reply)
      returns (reply: Reply)
      requires Valid() && View() == before.(c := gate.ControlView())
      requires moved.Ok? ==> previous == before.c.active
      modifies this, gate
      ensures Valid()
      ensures Handled(View(), reply)
           == ActorModel.AnnounceAndDrain(before, env, Moved(old(gate.ControlView()), moved), before.c.active, done)
    {
      hide Emitted, Drained, NextDrain, ActorModel.EnterFault;
      if moved.Err? {
        refusals := refusals + 1;
        return Reply(false, false, GateRefused, None);
      }
      var ok := EmitTransition(moved.value, None, true);
      if !ok {
        return AuditReply;
      }
      var fault := DrainGeneration(previous);
      if fault.Some? {
        reply := EnterFault(fault.value, CriticalFault, false);
      } else {
        reply := done;
      }
    }

    // A new generation, announced, and the drain of the one before.
    method PauseAndDrain(reason: TransitionReason) returns (reply: Reply)
      requires Valid()
      modifies this, gate
      ensures Valid()
      ensures var a := old(View());
              Handled(View(), reply)
              == ActorModel.AnnounceAndDrain(a, env, InvalidateAndPauseControl(a.c, reason), a.c.active,
                                             Reply(true, true, SessionSafetyPaused, None))
    {
      hide ActorModel.AnnounceAndDrain, InvalidateAndPauseControl;
      ghost var before := View();
      var previous, moved := InvalidateGate(reason);
      reply := AnnounceAndDrain(before, moved, previous, Reply(true, true, SessionSafetyPaused, None));
    }

    method StopAndDrain(reason: TransitionReason) returns (reply: Reply)
      requires Valid()
      modifies this, gate
      ensures Valid() && Handled(View(), reply) == ActorModel.StopAndDrain(old(View()), env, reason)
    {
      hide ActorModel.AnnounceAndDrain, BeginStoppingControl;
      ghost var before := View();
      var previous, moved := StoppingGate(reason);
      reply := AnnounceAndDrain(before, moved, previous, Reply(true, true, NowOff, None));
    }

    method Finish(reason: TransitionReason) returns (reply: Reply)
      requires Valid()
      modifies this, gate
      ensures Valid() && Handled(View(), reply) == ActorModel.Finish(old(View()), env, reason)
    {
      hide ActorModel.Announce, FinishOffControl;
      ghost var before := View();
      var moved := FinishGate(reason);
      reply := Announce(before, moved, Reply(true, true, NowOff, None));
    }

    method Resume(reason: TransitionReason) returns (reply: Reply)
      requires Valid()
      modifies this, gate
      ensures Valid()
      ensures Handled(View(), reply)
           == ActorModel.Announce(old(View()), env, ResumeControl(old(gate.ControlView()), reason),
                                  Reply(true, true, NowRecording, None))
    {
      hide ActorModel.Announce, ResumeControl;
      ghost var before := View();
      var moved := ResumeGate(reason);
      reply := Announce(before, moved, Reply(true, true, NowRecording, None));
    }

    // A start that the configuration permits.
    method Begin(reason: TransitionReason, revision: Revision, preflightAlive: bool) returns (reply: Reply)
      requires Valid() && gate.state == Off
      modifies this, gate
      ensures Valid()
      ensures Handled(View(), reply)
           == ActorModel.HandleStart(old(View()), env, reason, Configuration(true, revision), preflightAlive)
    {
      hide ActorModel.Announce, BeginStartControl, ActorModel.EnterFault;
      var answers := env.sink(|attempts|);
      ghost var before := View();
      var moved := StartGate(reason, revision);
      reply := Announce(before, moved, Reply(true, true, NowStarting, None));
      if moved.Ok? && answers && !preflightAlive {
        reply := EnterFault(PreflightFailure, CriticalFault, true);
      }
    }

    // ---------- the handlers ----------

    method HandleStart(reason: TransitionReason, config: ConfigOutcome, preflightAlive: bool) returns (reply: Reply)
      requires Valid()
      modifies this, gate
      ensures Valid()
      ensures Handled(View(), reply) == ActorModel.HandleStart(old(View()), env, reason, config, preflightAlive)
    {
      hide ActorModel.Announce, BeginStartControl, ActorModel.EnterFault;
      if gate.state == Recording || gate.state == Starting {
        return Reply(true, false, AlreadyStarted, None);
      }
      if gate.state == Paused {
        return Reply(false, false, CapturePaused, None);
      }
      if gate.state != Off {
        return Reply(false, false, InvalidStartState, None);
      }
      if config.Unreadable? {
        reply := EnterFault(PreflightFailure, CriticalFault, true);
        return;
      }
      if !config.permitted {
        return Reply(false, false, CaptureDisabledByConfiguration, None);
      }
      reply := Begin(reason, config.revision, preflightAlive);
    }

    method HandlePreflightComplete(generation: Generation, outcome: PreflightOutcome, reason: TransitionReason)
      returns (reply: Reply)
      requires Valid()
      modifies this, gate
      ensures Valid()
      ensures Handled(View(), reply) == ActorModel.HandlePreflight(old(View()), env, generation, outcome, reason)
    {
      hide ActorModel.Announce, ActorModel.AnnounceAndDrain, InvalidateAndPauseControl, MarkRecordingControl;
      hide ActorModel.EnterFault;
      if gate.state != Starting || gate.active != Some(generation) {
        return Reply(false, false, StalePreflightIgnored, None);
      }
      if outcome.NotReady? {
        reply := EnterFault(outcome.fault, CriticalFault, true);
        return;
      }
      var pauseReason := if outcome.startPaused.Some? then outcome.startPaused else automaticPauseReason;
      if pauseReason.Some? {
        automaticPauseReason := pauseReason;
        reply := PauseAndDrain(pauseReason.value);
        return;
      }
      ghost var before := View();
      var moved := RecordGate(generation, reason);
      reply := Announce(before, moved, Reply(true, true, NowRecording, None));
    }

    method HandlePause(reason: TransitionReason) returns (reply: Reply)
      requires Valid()
      modifies this, gate
      ensures Valid()
      ensures Handled(View(), reply) == ActorModel.HandlePause(old(View()), env, reason)
    {
      hide ActorModel.Announce, PauseControl;
      if gate.state == Paused {
        manualPause := true;
        return Reply(true, false, AlreadyPaused, None);
      }
      if gate.state != Recording {
        return Reply(false, false, InvalidPauseState, None);
      }
      manualPause := true;
      ghost var before := View();
      var moved := PauseGate(reason);
      reply := Announce(before, moved, Reply(true, true, NowPaused, None));
    }

    method HandleResume(reason: TransitionReason) returns (reply: Reply)
      requires Valid()
      modifies this, gate
      ensures Valid()
      ensures Handled(View(), reply) == ActorModel.HandleResume(old(View()), env, reason)
    {
      hide ActorModel.Announce, ResumeControl;
      if automaticPauseReason.Some? {
        return Reply(false, false, SessionSafetyBlocked, None);
      }
      if gate.state == Recording {
        manualPause := false;
        return Reply(true, false, AlreadyRecording, None);
      }
      if gate.state != Paused {
        return Reply(false, false, InvalidResumeState, None);
      }
      manualPause := false;
      reply := Resume(reason);
    }

    method HandleBlock(reason: TransitionReason) returns (reply: Reply)
      requires Valid()
      modifies this, gate
      ensures Valid()
      ensures Handled(View(), reply) == ActorModel.HandleBlock(old(View()), env, reason)
    {
      hide ActorModel.AnnounceAndDrain, InvalidateAndPauseControl;
      if automaticPauseReason == Some(SessionLocked) && reason == Idle {
        return Reply(true, false, StrongerSafetyBlockActive, None);
      }
      if automaticPauseReason == Some(reason) && gate.state == Paused {
        return Reply(true, false, SessionSafetyAlreadyBlocked, None);
      }
      automaticPauseReason := Some(reason);
      if gate.state == Off || gate.state == Stopping || gate.state == Faulted {
        return Reply(true, false, SessionSafetyLatched, None);
      }
      reply := PauseAndDrain(reason);
    }

    method HandleRelease(reason: TransitionReason) returns (reply: Reply)
      requires Valid()
      modifies this, gate
      ensures Valid()
      ensures Handled(View(), reply) == ActorModel.HandleRelease(old(View()), env, reason)
    {
      hide ActorModel.Announce, ResumeControl;
      var expected := if automaticPauseReason == Some(SessionLocked) then SessionUnlocked else TransitionReason.Active;
      if automaticPauseReason.None? {
        return Reply(true, false, SessionSafetyAlreadyClear, None);
      }
      if reason != expected {
        return Reply(false, false, SessionSafetyReleaseMismatch, None);
      }
      automaticPauseReason := None;
      if gate.state != Paused || manualPause {
        return Reply(true, false, ManualPauseRetained, None);
      }
      reply := Resume(reason);
    }

    method HandleStop(reason: TransitionReason) returns (reply: Reply)
      requires Valid()
      modifies this, gate
      ensures Valid()
      ensures Handled(View(), reply) == ActorModel.HandleStop(old(View()), env, reason)
    {
      hide ActorModel.StopAndDrain, ActorModel.Finish, NextDrain;
      manualPause := false;
      if gate.state == Off {
        return Reply(true, false, AlreadyOff, None);
      }
      if gate.state == Faulted {
        var fault := DrainGeneration(None);
        if fault.Some? {
          return Reply(false, false, BufferClearFailed, fault);
        }
      } else {
        reply := StopAndDrain(reason);
        if reply.code != NowOff {
          return;
        }
      }
      reply := Finish(reason);
    }

    method HandleFault(fault: FaultCode, reason: TransitionReason) returns (reply: Reply)
      requires Valid()
      modifies this, gate
      ensures Valid()
      ensures Handled(View(), reply) == ActorModel.HandleFault(old(View()), env, fault, reason)
    {
      hide ActorModel.EnterFault;
      if gate.state == Faulted {
        return Reply(true, false, AlreadyFaulted, Some(fault));
      }
      reply := EnterFault(fault, reason, true);
    }

    method OnStart(first: ConfigOutcome, config: ConfigOutcome, preflightAlive: bool)
      requires Valid()
      modifies this, gate
      ensures Valid() && View() == ActorModel.HandleOnStart(old(View()), env, first, config, preflightAlive)
    {
      hide ActorModel.HandleStart, ActorModel.EnterFault;
      if first.Unreadable? {
        var _ := EnterFault(PreflightFailure, CriticalFault, true);
      } else if first.permitted {
        var _ := HandleStart(StartupOptIn, config, preflightAlive);
      }
    }

    method OnStop()
      requires Valid()
      modifies this, gate
      ensures Valid() && View() == ActorModel.HandleOnStop(old(View()), env)
    {
      hide ActorModel.HandleStop, ActorModel.EnterFault;
      if gate.state != Off {
        var _ := HandleStop(Shutdown);
        if gate.state != Off && gate.state != Faulted {
          var _ := EnterFault(ShutdownFailure, CriticalFault, true);
        }
      }
    }
  }
}
