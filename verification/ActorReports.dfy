/**
 What the owner reports: the first announcement of every message, in every field, and
 whether the reply says that something changed and that it was accepted.
 */
module ActorReports {
  import opened Wrappers
  import opened Lifecycle
  import opened GateModel
  import opened ActorModel
  import opened ActorTheorems
  import opened ActorOutcomes

  // ---------- the announcement a message leads to ----------

  function FaultCodeOf(m: Message): FaultCode {
    match m
    case FaultMessage(fault, _) => fault
    case PreflightComplete(_, NotReady(fault), _) => fault
    case Start(_, _, _) => PreflightFailure
    case OnStart(_, _, _) => PreflightFailure
    case _ => ActorFailure
  }

  function StopReason(m: Message): TransitionReason {
    if m.Stop? then m.reason else Shutdown
  }

  function StartRevision(m: Message): Option<Revision> {
    if (m.Start? || m.OnStart?) && m.config.Configuration? then Some(m.config.revision) else None
  }

  function PauseReasonOf(a: Actor, m: Message): TransitionReason
    requires AsksToPauseAutomatically(a, m)
  {
    if m.Block? then m.reason
    else if m.outcome.startPaused.Some? then m.outcome.startPaused.value else a.automatic.value
  }

  // The transition, the session's revision and the fault code; None where nothing moves.
  function Announcement(a: Actor, env: Environment, m: Message): Option<Attempt> {
    var next, heard := a.c.epoch + 1, env.sink(|a.attempts|);
    if AsksToFault(a, m) then
      if a.c.state == Faulted then None
      else
        Some(Attempt(Transition(a.c.state, Faulted, next, if m.FaultMessage? then m.reason else CriticalFault),
                     a.c.revision, Some(FaultCodeOf(m)), heard))
    else if AsksToStart(a, m) then
      Some(Attempt(Transition(Off, Starting, next, if m.Start? then m.reason else StartupOptIn),
                   StartRevision(m), None, heard))
    else if AsksToRecord(a, m) && a.c.active.Some? then
      Some(Attempt(Transition(a.c.state, Recording, a.c.active.value, m.reason), a.c.revision, None, heard))
    else if AsksToPauseAutomatically(a, m) then
      Some(Attempt(Transition(a.c.state, Paused, next, PauseReasonOf(a, m)), a.c.revision, None, heard))
    else if AsksToPause(a, m) && a.c.active.Some? then
      Some(Attempt(Transition(Recording, Paused, a.c.active.value, m.reason), a.c.revision, None, heard))
    else if AsksToStop(a, m) && InSession(a) then
      Some(Attempt(Transition(a.c.state, Stopping, next, StopReason(m)), a.c.revision, None, heard))
    else if AsksToStop(a, m) && a.c.state == Faulted && ClearsWell(a, env) && a.c.epoch > 0 then
      Some(Attempt(Transition(Faulted, Off, a.c.epoch, StopReason(m)), None, None, heard))
    else None
  }

  // The trail goes on with this announcement, or stays as it is.
  predicate Reports(a: Actor, a': Actor, announced: Option<Attempt>) {
    if announced.None? then a'.attempts == a.attempts else a.attempts + [announced.value] <= a'.attempts
  }

  lemma AnnouncedFirst(a: Actor, env: Environment, moved: Moved<Transition>, generation: Option<Generation>, done: Reply)
    requires moved.result.Ok? && ControlInv(moved.c)
    ensures var first := Some(Attempt(moved.result.value, moved.c.revision, None, Heard(a, env)));
            && Reports(a, Announce(a, env, moved, done).actor, first)
            && Reports(a, AnnounceAndDrain(a, env, moved, generation, done).actor, first)
  {
  }

  lemma FaultedFirst(a: Actor, env: Environment, fault: FaultCode, reason: TransitionReason, drain: bool)
    requires ControlInv(a.c) && a.c.state != Faulted
    ensures Reports(a, EnterFault(a, env, fault, reason, drain),
                    Some(Attempt(Transition(a.c.state, Faulted, a.c.epoch + 1, reason), a.c.revision, Some(fault), Heard(a, env))))
  {
  }

  lemma MoreReports(a: Actor, b: Actor, c: Actor, announced: Option<Attempt>)
    requires Reports(a, b, announced) && announced.Some? && b.attempts <= c.attempts
    ensures Reports(a, c, announced)
  {
  }

  lemma FaultOnlyAdds(a: Actor, env: Environment, fault: FaultCode, reason: TransitionReason, drain: bool)
    ensures a.attempts <= EnterFault(a, env, fault, reason, drain).attempts
  {
  }

  lemma AnnounceOnlyAdds(a: Actor, env: Environment, moved: Moved<Transition>, done: Reply)
    ensures a.attempts <= Announce(a, env, moved, done).actor.attempts
  {
  }

  // ---------- the handlers ----------

  lemma StartReports(a: Actor, env: Environment, m: Message)
    requires ActorInv(a) && m.Start?
    ensures Reports(a, Receive(a, env, m), Announcement(a, env, m))
  {
    hide Announce, EnterFault, ActorInv, Reports;
    StateOf(a);
    Unreported(a);
    if a.c.state == Off {
      if m.config.Unreadable? {
        FaultedFirst(a, env, PreflightFailure, CriticalFault, true);
      } else if m.config.permitted {
        var moved, done := BeginStartControl(a.c, m.reason, m.config.revision), Reply(true, true, NowStarting, None);
        var started := Announce(a, env, moved, done).actor;
        AnnouncedFirst(a, env, moved, None, done);
        FaultOnlyAdds(started, env, PreflightFailure, CriticalFault, true);
        MoreReports(a, started, EnterFault(started, env, PreflightFailure, CriticalFault, true), Announcement(a, env, m));
      }
    }
  }

  lemma Unreported(a: Actor)
    ensures Reports(a, a, None)
  {
  }

  lemma PreflightReports(a: Actor, env: Environment, m: Message)
    requires ActorInv(a) && WellFormed(m) && m.PreflightComplete?
    ensures Reports(a, Receive(a, env, m), Announcement(a, env, m))
  {
    hide Announce, AnnounceAndDrain, EnterFault, ActorInv, Reports;
    StateOf(a);
    Unreported(a);
    if Awaited(a, m) {
      if m.outcome.NotReady? {
        FaultedFirst(a, env, m.outcome.fault, CriticalFault, true);
      } else if PauseReason(a, m.outcome.startPaused).Some? {
        var latched := a.(automatic := PauseReason(a, m.outcome.startPaused));
        AnnouncedFirst(latched, env, InvalidateAndPauseControl(a.c, latched.automatic.value), a.c.active,
                       Reply(true, true, SessionSafetyPaused, None));
        SameTrail(a, latched, Receive(a, env, m), Announcement(a, env, m));
      } else {
        AnnouncedFirst(a, env, MarkRecordingControl(a.c, m.generation, m.reason), None, Reply(true, true, NowRecording, None));
      }
    }
  }

  lemma SameTrail(a: Actor, b: Actor, c: Actor, announced: Option<Attempt>)
    requires b.attempts == a.attempts
    ensures Reports(a, c, announced) <==> Reports(b, c, announced)
  {
  }

  lemma SwitchReports(a: Actor, env: Environment, m: Message)
    requires ActorInv(a) && WellFormed(m) && (m.PauseMessage? || m.ResumeMessage? || m.Release?)
    ensures Reports(a, Receive(a, env, m), Announcement(a, env, m))
  {
    hide Announce, ActorInv;
    StateOf(a);
    if m.PauseMessage? && a.c.state == Recording {
      AnnouncedFirst(a.(manual := true), env, PauseControl(a.c, m.reason), None, Reply(true, true, NowPaused, None));
    } else if m.ResumeMessage? && a.c.state == Paused && a.automatic.None? {
      AnnouncedFirst(a.(manual := false), env, ResumeControl(a.c, m.reason), None, Reply(true, true, NowRecording, None));
    } else if m.Release? && a.c.state == Paused && !a.manual && a.automatic.Some? && m.reason == ExpectedRelease(a) {
      AnnouncedFirst(a.(automatic := None), env, ResumeControl(a.c, m.reason), None, Reply(true, true, NowRecording, None));
    }
  }

  lemma BlockReports(a: Actor, env: Environment, m: Message)
    requires ActorInv(a) && WellFormed(m) && m.Block?
    ensures Reports(a, Receive(a, env, m), Announcement(a, env, m))
  {
    hide AnnounceAndDrain, ActorInv;
    StateOf(a);
    if AsksToPauseAutomatically(a, m) {
      AnnouncedFirst(a.(automatic := Some(m.reason)), env, InvalidateAndPauseControl(a.c, m.reason), a.c.active,
                     Reply(true, true, SessionSafetyPaused, None));
    }
  }

  lemma FinishReports(a: Actor, env: Environment, reason: TransitionReason)
    requires ControlInv(a.c) && (a.c.state == Stopping || a.c.state == Faulted)
    ensures Reports(a, Finish(a, env, reason).actor, Some(Attempt(Transition(a.c.state, Off, a.c.epoch, reason), None, None, Heard(a, env))))
  {
    hide Announce, Reports;
    AnnouncedFirst(a, env, FinishOffControl(a.c, reason), None, Reply(true, true, NowOff, None));
  }

  lemma StoppingReports(a: Actor, env: Environment, reason: TransitionReason)
    requires ControlInv(a.c) && InSession(a)
    ensures Reports(a, StopAndDrain(a, env, reason).actor,
                    Some(Attempt(Transition(a.c.state, Stopping, a.c.epoch + 1, reason), a.c.revision, None, Heard(a, env))))
  {
    hide AnnounceAndDrain, Reports;
    AnnouncedFirst(a, env, BeginStoppingControl(a.c, reason), a.c.active, Reply(true, true, NowOff, None));
  }

  lemma StopReports(a: Actor, env: Environment, m: Message)
    requires ActorInv(a) && AsksToStop(a, m)
    ensures Reports(a, HandleStop(a, env, StopReason(m)).actor, Announcement(a, env, m))
  {
    hide Announce, StopAndDrain, Finish, ActorInv, Reports;
    StateOf(a);
    Unreported(a);
    var a0 := a.(manual := false);
    var reason, after := StopReason(m), HandleStop(a, env, StopReason(m)).actor;
    SameTrail(a, a0, after, Announcement(a, env, m));
    SameTrail(a, Drained(a0, None), after, Announcement(a, env, m));
    SameTrail(a, a, a0, None);
    Unreported(a0);
    Unreported(Drained(a0, None));
    NothingReported(a, after);
    if a.c.state == Faulted {
      FinishReports(Drained(a0, None), env, reason);
    } else if a.c.state != Off {
      StoppingReports(a0, env, reason);
      var stopping := StopAndDrain(a0, env, reason).actor;
      FinishOnlyAdds(stopping, env, reason);
      MoreReports(a0, stopping, Finish(stopping, env, reason).actor, Announcement(a, env, m));
    }
  }

  lemma NothingReported(a: Actor, b: Actor)
    ensures b.attempts == a.attempts ==> Reports(a, b, None)
  {
  }

  lemma FinishOnlyAdds(a: Actor, env: Environment, reason: TransitionReason)
    ensures a.attempts <= Finish(a, env, reason).actor.attempts
  {
    hide Announce;
    AnnounceOnlyAdds(a, env, FinishOffControl(a.c, reason), Reply(true, true, NowOff, None));
  }

  lemma FaultReports(a: Actor, env: Environment, fault: FaultCode, reason: TransitionReason)
    requires ActorInv(a)
    ensures Reports(a, EnterFault(a, env, fault, reason, true),
                    if a.c.state == Faulted then None
                    else Some(Attempt(Transition(a.c.state, Faulted, a.c.epoch + 1, reason), a.c.revision, Some(fault),
                                      env.sink(|a.attempts|))))
  {
    hide ActorInv;
    StateOf(a);
    if a.c.state != Faulted {
      FaultedFirst(a, env, fault, reason, true);
    }
  }

  lemma HookReports(a: Actor, env: Environment, m: Message)
    requires ActorInv(a) && (m.OnStart? || m.OnStop?)
    ensures Reports(a, Receive(a, env, m), Announcement(a, env, m))
  {
    hide HandleStart, HandleStop, EnterFault, ActorInv, Reports;
    StateOf(a);
    Unreported(a);
    if m.OnStop? {
      StopReports(a, env, m);
      StopEnds(a, env, Shutdown);
    } else if m.first.Unreadable? {
      FaultReports(a, env, PreflightFailure, CriticalFault);
    } else if m.first.permitted {
      StartReports(a, env, Start(StartupOptIn, m.config, m.preflightAlive));
    }
  }

  // Every message is announced as it asks, first of all it leads to, and not otherwise.
  lemma EveryMessageReports(a: Actor, env: Environment, m: Message)
    requires ActorInv(a) && WellFormed(m)
    ensures Reports(a, Receive(a, env, m), Announcement(a, env, m))
  {
    hide HandleStart, HandleStop, HandlePreflight, HandlePause, HandleResume, HandleBlock, HandleRelease, EnterFault;
    hide ActorInv, Reports;
    StateOf(a);
    Unreported(a);
    match m {
      case Start(_, _, _) => StartReports(a, env, m);
      case Stop(_) => StopReports(a, env, m);
      case FaultMessage(fault, reason) => FaultReports(a, env, fault, reason);
      case PreflightComplete(_, _, _) => PreflightReports(a, env, m);
      case Unexpected => FaultReports(a, env, ActorFailure, CriticalFault);
      case OnStart(_, _, _) => HookReports(a, env, m);
      case OnStop => HookReports(a, env, m);
      case OnFailure => FaultReports(a, env, ActorFailure, CriticalFault);
      case Block(_) => BlockReports(a, env, m);
      case _ => SwitchReports(a, env, m);
    }
  }

  // ---------- drains ----------

  // The generation that is drained first, where the announcement was taken: what an
  // invalidation or a fault found active, and nothing in particular for an acknowledgement.
  function FirstDrain(a: Actor, m: Message): Option<Option<Generation>> {
    if AsksToFault(a, m) then
      if a.c.state == Faulted then None else Some(if a.c.active.Some? then a.c.active else a.c.draining)
    else if AsksToStart(a, m) then if PreflightAlive(m) then None else Some(Some(a.c.epoch + 1))
    else if AsksToRecord(a, m) || AsksToPause(a, m) then None
    else if AsksToPauseAutomatically(a, m) || (AsksToStop(a, m) && InSession(a)) then Some(a.c.active)
    else if AsksToStop(a, m) && a.c.state == Faulted then Some(None)
    else None
  }

  predicate Drains(a: Actor, a': Actor, first: Option<Option<Generation>>) {
    if first.None? then a'.drains == a.drains else a.drains + [first.value] <= a'.drains
  }

  lemma AnnounceDrains(a: Actor, env: Environment, moved: Moved<Transition>, generation: Option<Generation>, done: Reply)
    requires moved.result.Ok? && Heard(a, env)
    ensures Drains(a, Announce(a, env, moved, done).actor, None)
    ensures Drains(a, AnnounceAndDrain(a, env, moved, generation, done).actor, Some(generation))
  {
  }

  lemma FaultDrains(a: Actor, env: Environment, fault: FaultCode, reason: TransitionReason)
    requires ControlInv(a.c) && a.c.state != Faulted
    ensures Drains(a, EnterFault(a, env, fault, reason, true), Some(if a.c.active.Some? then a.c.active else a.c.draining))
  {
  }

  lemma StartDrains(a: Actor, env: Environment, m: Message)
    requires ActorInv(a) && m.Start? && Heard(a, env)
    ensures Drains(a, Receive(a, env, m), FirstDrain(a, m))
  {
    hide Announce, EnterFault, ActorInv;
    StateOf(a);
    if a.c.state == Off {
      if m.config.Unreadable? {
        FaultDrains(a, env, PreflightFailure, CriticalFault);
      } else if m.config.permitted {
        var moved, done := BeginStartControl(a.c, m.reason, m.config.revision), Reply(true, true, NowStarting, None);
        AnnounceDrains(a, env, moved, None, done);
        AnnouncedEnds(a, env, moved, done);
        FaultDrains(Announce(a, env, moved, done).actor, env, PreflightFailure, CriticalFault);
      }
    }
  }

  lemma SessionDrains(a: Actor, env: Environment, m: Message)
    requires ActorInv(a) && WellFormed(m) && Heard(a, env)
    requires m.PreflightComplete? || m.Block? || m.PauseMessage? || m.ResumeMessage? || m.Release?
    ensures Drains(a, Receive(a, env, m), FirstDrain(a, m))
  {
    hide Announce, AnnounceAndDrain, EnterFault, ActorInv, Drains;
    StateOf(a);
    NothingDrained(a, Receive(a, env, m));
    var done := Reply(true, true, SessionSafetyPaused, None);
    if Awaited(a, m) && m.outcome.NotReady? {
      FaultDrains(a, env, m.outcome.fault, CriticalFault);
    } else if AsksToPauseAutomatically(a, m) {
      var reason := PauseReasonOf(a, m);
      AnnounceDrains(a.(automatic := Some(reason)), env, InvalidateAndPauseControl(a.c, reason), a.c.active, done);
      SameDrains(a, a.(automatic := Some(reason)), Receive(a, env, m));
    } else if Awaited(a, m) {
      AnnounceDrains(a, env, MarkRecordingControl(a.c, m.generation, m.reason), None, Reply(true, true, NowRecording, None));
    } else if m.PauseMessage? && a.c.state == Recording {
      AnnounceDrains(a.(manual := true), env, PauseControl(a.c, m.reason), None, Reply(true, true, NowPaused, None));
      SameDrains(a, a.(manual := true), Receive(a, env, m));
    } else if AsksToRecord(a, m) {
      ResumingDrains(a, env, m);
    }
  }

  lemma ResumingDrains(a: Actor, env: Environment, m: Message)
    requires ActorInv(a) && Heard(a, env) && AsksToRecord(a, m) && (m.ResumeMessage? || m.Release?)
    ensures Drains(a, Receive(a, env, m), None)
  {
    hide Announce, ActorInv;
    StateOf(a);
    var latched := if m.ResumeMessage? then a.(manual := false) else a.(automatic := None);
    AnnounceDrains(latched, env, ResumeControl(a.c, m.reason), None, Reply(true, true, NowRecording, None));
  }

  lemma NothingDrained(a: Actor, b: Actor)
    ensures b.drains == a.drains ==> Drains(a, b, None)
  {
  }

  lemma SameDrains(a: Actor, b: Actor, c: Actor)
    requires b.drains == a.drains
    ensures forall first :: Drains(a, c, first) <==> Drains(b, c, first)
  {
  }

  lemma StopDrains(a: Actor, env: Environment, m: Message)
    requires ActorInv(a) && AsksToStop(a, m) && Heard(a, env)
    ensures Drains(a, HandleStop(a, env, StopReason(m)).actor, FirstDrain(a, m))
  {
    hide Announce, StopAndDrain, ActorInv;
    StateOf(a);
    var a0 := a.(manual := false);
    if a.c.state == Faulted {
      AnnounceOnlyDrains(Drained(a0, None), env, FinishOffControl(a.c, StopReason(m)), Reply(true, true, NowOff, None));
    } else if a.c.state != Off {
      StoppingDrains(a0, env, StopReason(m));
      var stopping := StopAndDrain(a0, env, StopReason(m)).actor;
      AnnounceOnlyDrains(stopping, env, FinishOffControl(stopping.c, StopReason(m)), Reply(true, true, NowOff, None));
    }
  }

  lemma StoppingDrains(a: Actor, env: Environment, reason: TransitionReason)
    requires ControlInv(a.c) && InSession(a) && Heard(a, env)
    ensures Drains(a, StopAndDrain(a, env, reason).actor, Some(a.c.active))
  {
    hide AnnounceAndDrain;
    AnnounceDrains(a, env, BeginStoppingControl(a.c, reason), a.c.active, Reply(true, true, NowOff, None));
  }

  lemma AnnounceOnlyDrains(a: Actor, env: Environment, moved: Moved<Transition>, done: Reply)
    ensures a.drains <= Announce(a, env, moved, done).actor.drains
  {
  }

  // Every message drains first what it invalidated, and nothing where it invalidates nothing.
  lemma EveryMessageDrains(a: Actor, env: Environment, m: Message)
    requires ActorInv(a) && WellFormed(m) && env.sink(|a.attempts|)
    ensures Drains(a, Receive(a, env, m), FirstDrain(a, m))
  {
    hide HandleStart, HandleStop, HandlePreflight, HandlePause, HandleResume, HandleBlock, HandleRelease, EnterFault;
    hide ActorInv, Drains;
    StateOf(a);
    NothingDrained(a, a);
    match m {
      case Start(_, _, _) => StartDrains(a, env, m);
      case Stop(_) => StopDrains(a, env, m);
      case FaultMessage(fault, reason) => FaultingDrains(a, env, fault, reason);
      case Unexpected => FaultingDrains(a, env, ActorFailure, CriticalFault);
      case OnStart(first, config, alive) =>
        FaultingDrains(a, env, PreflightFailure, CriticalFault);
        StartDrains(a, env, Start(StartupOptIn, config, alive));
      case OnStop =>
        StopDrains(a, env, m);
        StopEnds(a, env, Shutdown);
      case OnFailure => FaultingDrains(a, env, ActorFailure, CriticalFault);
      case _ => SessionDrains(a, env, m);
    }
  }

  lemma FaultingDrains(a: Actor, env: Environment, fault: FaultCode, reason: TransitionReason)
    requires ControlInv(a.c)
    ensures a.c.state == Faulted ==> EnterFault(a, env, fault, reason, true) == a
    ensures a.c.state != Faulted ==>
              Drains(a, EnterFault(a, env, fault, reason, true), Some(if a.c.active.Some? then a.c.active else a.c.draining))
  {
    if a.c.state != Faulted {
      FaultDrains(a, env, fault, reason);
    }
  }

  // ---------- replies ----------

  // What is asked for cannot be done in this state, and nothing happens.
  predicate Declines(a: Actor, env: Environment, m: Message) {
    match m
    case Start(_, config, _) =>
      a.c.state == Paused || a.c.state == Faulted || (a.c.state == Off && config.Configuration? && !config.permitted)
    case PauseMessage(_) => a.c.state != Recording && a.c.state != Paused
    case ResumeMessage(_) => a.automatic.Some? || (a.c.state != Recording && a.c.state != Paused)
    case Release(reason) =>
      (a.automatic == Some(SessionLocked) && reason != SessionUnlocked) || (a.automatic == Some(Idle) && reason != TransitionReason.Active)
    case PreflightComplete(_, _, _) => !Awaited(a, m)
    case Stop(_) => a.c.state == Faulted && !ClearsWell(a, env)
    case _ => false
  }

  // A reply says that something changed exactly when something was announced; a changed
  // one is accepted exactly when it did not end in a fault, an unchanged one exactly when
  // the message was not declined.
  predicate Tells(a: Actor, env: Environment, m: Message, reply: Reply) {
    && (reply.changed <==> Announcement(a, env, m).Some?)
    && (reply.changed ==> (reply.accepted <==> Ending(a, env, m) != Faulted))
    && (!reply.changed ==> (reply.accepted <==> !Declines(a, env, m)))
  }

  // The reply of a transition that is announced and drained.
  lemma DrainedReply(a: Actor, env: Environment, moved: Moved<Transition>, generation: Option<Generation>, done: Reply)
    requires moved.result.Ok? && ControlInv(moved.c) && moved.c.state != Faulted && generation.Some?
    requires done.accepted && done.changed
    ensures var reply := AnnounceAndDrain(a, env, moved, generation, done).reply;
            reply.changed && (reply.accepted <==> Heard(a, env) && DrainsWell(a, env))
  {
    hide Announce, Emitted;
    AnnouncedEnds(a, env, moved, done);
  }

  lemma StartTells(a: Actor, env: Environment, m: Message)
    requires ActorInv(a) && m.Start?
    ensures Tells(a, env, m, HandleStart(a, env, m.reason, m.config, m.preflightAlive).reply)
  {
    hide Announce, EnterFault, ActorInv;
    StateOf(a);
    if a.c.state == Off && m.config.Configuration? {
      AnnouncedEnds(a, env, BeginStartControl(a.c, m.reason, m.config.revision), Reply(true, true, NowStarting, None));
    }
  }

  lemma PreflightTells(a: Actor, env: Environment, m: Message)
    requires ActorInv(a) && WellFormed(m) && m.PreflightComplete?
    ensures Tells(a, env, m, HandlePreflight(a, env, m.generation, m.outcome, m.reason).reply)
  {
    hide Announce, AnnounceAndDrain, EnterFault, ActorInv, DrainsWell, Heard;
    StateOf(a);
    if Awaited(a, m) && m.outcome.Ready? {
      if PauseReason(a, m.outcome.startPaused).Some? {
        var latched := a.(automatic := PauseReason(a, m.outcome.startPaused));
        DrainedReply(latched, env, InvalidateAndPauseControl(a.c, latched.automatic.value), a.c.active,
                     Reply(true, true, SessionSafetyPaused, None));
        SameAnswers(a, latched, env);
      } else {
        AnnouncedEnds(a, env, MarkRecordingControl(a.c, m.generation, m.reason), Reply(true, true, NowRecording, None));
      }
    }
  }

  lemma BlockTells(a: Actor, env: Environment, m: Message)
    requires ActorInv(a) && WellFormed(m) && m.Block?
    ensures Tells(a, env, m, HandleBlock(a, env, m.reason).reply)
  {
    hide AnnounceAndDrain, ActorInv, DrainsWell, Heard;
    StateOf(a);
    if AsksToPauseAutomatically(a, m) {
      var latched := a.(automatic := Some(m.reason));
      DrainedReply(latched, env, InvalidateAndPauseControl(a.c, m.reason), a.c.active, Reply(true, true, SessionSafetyPaused, None));
      SameAnswers(a, latched, env);
    }
  }

  lemma PauseTells(a: Actor, env: Environment, m: Message)
    requires ActorInv(a) && m.PauseMessage?
    ensures Tells(a, env, m, HandlePause(a, env, m.reason).reply)
  {
    hide Announce, ActorInv;
    StateOf(a);
    if a.c.state == Recording {
      AnnouncedEnds(a.(manual := true), env, PauseControl(a.c, m.reason), Reply(true, true, NowPaused, None));
    }
  }

  lemma ResumeTells(a: Actor, env: Environment, m: Message)
    requires ActorInv(a) && m.ResumeMessage?
    ensures Tells(a, env, m, HandleResume(a, env, m.reason).reply)
  {
    hide Announce, ActorInv;
    StateOf(a);
    if a.c.state == Paused {
      AnnouncedEnds(a.(manual := false), env, ResumeControl(a.c, m.reason), Reply(true, true, NowRecording, None));
    }
  }

  lemma ReleaseTells(a: Actor, env: Environment, m: Message)
    requires ActorInv(a) && WellFormed(m) && m.Release?
    ensures Tells(a, env, m, HandleRelease(a, env, m.reason).reply)
  {
    hide Announce, ActorInv;
    StateOf(a);
    if a.c.state == Paused {
      AnnouncedEnds(a.(automatic := None), env, ResumeControl(a.c, m.reason), Reply(true, true, NowRecording, None));
    }
  }

  lemma StoppingTells(a: Actor, env: Environment, reason: TransitionReason)
    requires ControlInv(a.c) && InSession(a)
    ensures var stopping := StopAndDrain(a, env, reason);
            && stopping.reply.changed && (stopping.reply.accepted <==> stopping.reply.code == NowOff)
            && (stopping.reply.code == NowOff <==> Heard(a, env) && DrainsWell(a, env))
            && (stopping.reply.code == NowOff ==> stopping.actor.c.state == Stopping && ControlInv(stopping.actor.c)
                                                  && |stopping.actor.attempts| == |a.attempts| + 1)
  {
    hide AnnounceAndDrain;
    var done := Reply(true, true, NowOff, None);
    DrainedEnds(a, env, BeginStoppingControl(a.c, reason), a.c.active, done);
    DrainedReply(a, env, BeginStoppingControl(a.c, reason), a.c.active, done);
  }

  lemma FinishTells(a: Actor, env: Environment, reason: TransitionReason)
    requires ControlInv(a.c) && (a.c.state == Stopping || a.c.state == Faulted)
    ensures Finish(a, env, reason).reply.changed && (Finish(a, env, reason).reply.accepted <==> Heard(a, env))
  {
    hide Announce;
    AnnouncedEnds(a, env, FinishOffControl(a.c, reason), Reply(true, true, NowOff, None));
  }

  lemma StopTells(a: Actor, env: Environment, m: Message)
    requires ActorInv(a) && m.Stop?
    ensures Tells(a, env, m, HandleStop(a, env, m.reason).reply)
  {
    hide StopAndDrain, Finish, ActorInv, DrainsWell;
    StateOf(a);
    var a0 := a.(manual := false);
    SameAnswers(a, a0, env);
    if a.c.state == Faulted {
      FinishTells(Drained(a0, None), env, m.reason);
    } else if a.c.state != Off {
      StoppingTells(a0, env, m.reason);
      var stopping := StopAndDrain(a0, env, m.reason);
      if stopping.reply.code == NowOff {
        FinishTells(stopping.actor, env, m.reason);
      }
    }
  }

  lemma RepliesTell(a: Actor, env: Environment, m: Message)
    requires ActorInv(a) && WellFormed(m) && ReplyTo(a, env, m).Some?
    ensures Tells(a, env, m, ReplyTo(a, env, m).value)
  {
    hide HandleStart, HandleStop, HandlePreflight, HandlePause, HandleResume, HandleBlock, HandleRelease, ActorInv, Tells;
    match m {
      case Start(_, _, _) => StartTells(a, env, m);
      case PauseMessage(_) => PauseTells(a, env, m);
      case ResumeMessage(_) => ResumeTells(a, env, m);
      case Block(_) => BlockTells(a, env, m);
      case Release(_) => ReleaseTells(a, env, m);
      case Stop(_) => StopTells(a, env, m);
      case FaultMessage(_, _) => FaultTells(a, env, m);
      case PreflightComplete(_, _, _) => PreflightTells(a, env, m);
    }
  }

  lemma FaultTells(a: Actor, env: Environment, m: Message)
    requires m.FaultMessage?
    ensures Tells(a, env, m, HandleFault(a, env, m.fault, m.reason).reply)
  {
  }

  // ---------- what a drain reports ----------

  // The first thing that fails names the fault: cancelling, waiting, then clearing; with no
  // generation there is only clearing.
  lemma DrainReports(outcome: DrainOutcome, generation: Option<Generation>)
    ensures DrainFault(outcome, generation).None?
            <==> outcome.cleared && (generation.Some? ==> outcome.cancelQueued && outcome.cancelInFlight
                                                          && outcome.operationsQuiet && outcome.pipelineQuiet)
    ensures DrainFault(outcome, generation) == Some(CancellationFailure)
            <==> generation.Some? && !(outcome.cancelQueued && outcome.cancelInFlight)
    ensures DrainFault(outcome, generation) == Some(QuiescenceTimeout)
            <==> generation.Some? && outcome.cancelQueued && outcome.cancelInFlight
                 && !(outcome.operationsQuiet && outcome.pipelineQuiet)
    ensures DrainFault(outcome, generation) == Some(BufferClearFailure)
            <==> !outcome.cleared && (generation.Some? ==> outcome.cancelQueued && outcome.cancelInFlight
                                                           && outcome.operationsQuiet && outcome.pipelineQuiet)
  {
  }
}
