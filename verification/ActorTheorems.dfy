/**
 What holds of the lifecycle owner between any two messages, whatever the audit
 sink and the work coordinator answer.
 */
module ActorTheorems {
  import opened Wrappers
  import opened Lifecycle
  import opened GateModel
  import opened ActorModel

  // ---------- the audit trail ----------

  // The attempts are a path through the transition table: each legal, each starting
  // where the one before ended, with generations that never go back.
  predicate Trail(attempts: seq<Attempt>) {
    && (forall i :: 0 <= i < |attempts| ==> Legal(attempts[i].transition))
    && (attempts != [] ==> attempts[0].transition.previous == Off)
    && (forall i :: 0 < i < |attempts| ==>
          && attempts[i].transition.previous == attempts[i - 1].transition.current
          && attempts[i].transition.generation >= attempts[i - 1].transition.generation)
  }

  // The path ends at the gate's present state and generation.
  predicate PathTo(attempts: seq<Attempt>, c: Control) {
    && Trail(attempts)
    && (if attempts == [] then c.state == Off
        else attempts[|attempts| - 1].transition.current == c.state
             && attempts[|attempts| - 1].transition.generation <= c.epoch)
  }

  // Only an attempt that was not delivered can leave the trail without a fault after
  // it, and then it reports a fault itself or the trail of a gate that is faulted.
  predicate FailuresAreClosed(attempts: seq<Attempt>) {
    forall i :: 0 <= i < |attempts| && !attempts[i].delivered && attempts[i].transition.current != Faulted ==>
      i + 1 < |attempts| && attempts[i + 1].transition.current == Faulted
  }

  predicate TrailInv(a: Actor) {
    ControlInv(a.c) && PathTo(a.attempts, a.c) && a.refusals == 0
  }

  // The transition that leads to control c and has not been recorded yet.
  predicate MovesTo(a: Actor, c: Control, t: Transition) {
    && ControlInv(c)
    && Legal(t) && t.previous == a.c.state && t.current == c.state
    && a.c.epoch <= t.generation <= c.epoch
  }

  lemma RecordingKeepsTrail(a: Actor, env: Environment, c: Control, t: Transition, fault: Option<FaultCode>)
    requires TrailInv(a) && MovesTo(a, c, t)
    ensures TrailInv(Recorded(a.(c := c), env, t, fault))
  {
  }

  lemma FaultMoves(a: Actor, reason: TransitionReason)
    requires ControlInv(a.c) && a.c.state != Faulted
    ensures var moved := FaultControl(a.c, reason);
            moved.result.Ok? && MovesTo(a, moved.c, moved.result.value) && moved.c.state == Faulted
  {
  }

  lemma EnterFaultKeepsTrail(a: Actor, env: Environment, fault: FaultCode, reason: TransitionReason, drain: bool)
    requires TrailInv(a) && FailuresAreClosed(a.attempts)
    ensures var a' := EnterFault(a, env, fault, reason, drain);
            && TrailInv(a') && FailuresAreClosed(a'.attempts) && a'.c.state == Faulted
            && a'.manual == a.manual && a'.automatic == a.automatic
  {
    if a.c.state != Faulted {
      FaultMoves(a, reason);
      var moved := FaultControl(a.c, reason);
      RecordingKeepsTrail(a, env, moved.c, moved.result.value, Some(fault));
    }
  }

  // The attempts up to the last one have been closed; the last may still be open.
  lemma ClosingFault(a: Actor, env: Environment, reason: TransitionReason)
    requires TrailInv(a) && a.attempts != [] && FailuresAreClosed(a.attempts[..|a.attempts| - 1])
    requires a.attempts[|a.attempts| - 1].transition.current != Faulted
    ensures var a' := EnterFault(a, env, AuditFailure, reason, true);
            TrailInv(a') && FailuresAreClosed(a'.attempts) && a'.c.state == Faulted
  {
    FaultMoves(a, reason);
    var moved := FaultControl(a.c, reason);
    RecordingKeepsTrail(a, env, moved.c, moved.result.value, Some(AuditFailure));
    var a' := EnterFault(a, env, AuditFailure, reason, true);
    forall i | 0 <= i < |a'.attempts| && !a'.attempts[i].delivered && a'.attempts[i].transition.current != Faulted
      ensures i + 1 < |a'.attempts| && a'.attempts[i + 1].transition.current == Faulted
    {
      if i < |a.attempts| - 1 {
        assert a.attempts[..|a.attempts| - 1][i] == a.attempts[i];
        assert a.attempts[..|a.attempts| - 1][i + 1] == a.attempts[i + 1];
      }
    }
  }

  // Announcing a legal move ends at its target, or at FAULTED when the sink raised.
  lemma EmittedKeepsTrail(a: Actor, env: Environment, c: Control, t: Transition)
    requires TrailInv(a) && FailuresAreClosed(a.attempts) && MovesTo(a, c, t) && c.state != Faulted
    ensures var a' := Emitted(a.(c := c), env, t);
            && TrailInv(a') && FailuresAreClosed(a'.attempts)
            && a'.manual == a.manual && a'.automatic == a.automatic
            && (if env.sink(|a.attempts|) then a'.c == c else a'.c.state == Faulted)
  {
    RecordingKeepsTrail(a, env, c, t, None);
    var recorded := Recorded(a.(c := c), env, t, None);
    assert recorded.attempts[..|recorded.attempts| - 1] == a.attempts;
    if !env.sink(|a.attempts|) {
      ClosingFault(recorded, env, CriticalFault);
    }
  }

  // ---------- the invariant between messages ----------

  // Recording means that nothing asked for a pause.
  predicate Latches(a: Actor) {
    && (a.automatic.Some? ==> SafetyReason(a.automatic.value))
    && (a.c.state == Recording ==> !a.manual && a.automatic.None?)
    && (a.manual ==> a.c.state == Paused || a.c.state == Faulted)
  }

  predicate ActorInv(a: Actor) {
    && TrailInv(a) && FailuresAreClosed(a.attempts)
    && Latches(a)
    && a.c.state != Stopping && a.c.state != Privacy
  }

  // A handler that announces one move keeps the invariant when its target does.
  lemma AnnounceKeeps(a: Actor, env: Environment, moved: Moved<Transition>, done: Reply)
    requires TrailInv(a) && FailuresAreClosed(a.attempts)
    requires moved.result.Ok? && MovesTo(a, moved.c, moved.result.value) && moved.c.state != Faulted
    ensures var a' := Announce(a, env, moved, done).actor;
            && TrailInv(a') && FailuresAreClosed(a'.attempts)
            && a'.manual == a.manual && a'.automatic == a.automatic
            && (if env.sink(|a.attempts|) then a'.c == moved.c else a'.c.state == Faulted)
  {
    EmittedKeepsTrail(a, env, moved.c, moved.result.value);
  }

  lemma AnnounceAndDrainKeeps(a: Actor, env: Environment, moved: Moved<Transition>, generation: Option<Generation>,
                              done: Reply)
    requires TrailInv(a) && FailuresAreClosed(a.attempts)
    requires moved.result.Ok? && MovesTo(a, moved.c, moved.result.value) && moved.c.state != Faulted
    requires done.code != AuditFailed && done.code != NowFaulted
    ensures var h := AnnounceAndDrain(a, env, moved, generation, done);
            && TrailInv(h.actor) && FailuresAreClosed(h.actor.attempts)
            && h.actor.manual == a.manual && h.actor.automatic == a.automatic
            && (h.actor.c == moved.c || h.actor.c.state == Faulted)
            && (h.reply.code == done.code ==> h.actor.c == moved.c)
            && (h.reply.code != done.code ==> h.actor.c.state == Faulted)
  {
    AnnounceKeeps(a, env, moved, done);
    var announced := Announce(a, env, moved, done);
    if env.sink(|a.attempts|) {
      var fault := NextDrain(announced.actor, env, generation);
      if fault.Some? {
        EnterFaultKeepsTrail(Drained(announced.actor, generation), env, fault.value, CriticalFault, false);
      }
    }
  }

  lemma StartKeeps(a: Actor, env: Environment, reason: TransitionReason, config: ConfigOutcome, alive: bool)
    requires ActorInv(a)
    ensures ActorInv(HandleStart(a, env, reason, config, alive).actor)
  {
    if a.c.state == Off {
      if config.Unreadable? {
        EnterFaultKeepsTrail(a, env, PreflightFailure, CriticalFault, true);
      } else if config.permitted {
        var moved := BeginStartControl(a.c, reason, config.revision);
        AnnounceKeeps(a, env, moved, Reply(true, true, NowStarting, None));
        EnterFaultKeepsTrail(Announce(a, env, moved, Reply(true, true, NowStarting, None)).actor, env,
                             PreflightFailure, CriticalFault, true);
      }
    }
  }

  lemma BlockingMoves(a: Actor, latched: Actor, reason: TransitionReason)
    requires ControlInv(a.c) && IsActiveState(a.c.state) && latched.c == a.c
    ensures var moved := InvalidateAndPauseControl(a.c, reason);
            moved.result.Ok? && MovesTo(latched, moved.c, moved.result.value) && moved.c.state == Paused
  {
  }

  lemma PreflightKeeps(a: Actor, env: Environment, generation: Generation, outcome: PreflightOutcome,
                       reason: TransitionReason)
    requires ActorInv(a) && WellFormed(PreflightComplete(generation, outcome, reason))
    ensures ActorInv(HandlePreflight(a, env, generation, outcome, reason).actor)
  {
    if a.c.state == Starting && a.c.active == Some(generation) {
      if outcome.NotReady? {
        EnterFaultKeepsTrail(a, env, outcome.fault, CriticalFault, true);
      } else if PauseReason(a, outcome.startPaused).Some? {
        var latched := a.(automatic := PauseReason(a, outcome.startPaused));
        BlockingMoves(a, latched, latched.automatic.value);
        AnnounceAndDrainKeeps(latched, env, InvalidateAndPauseControl(a.c, latched.automatic.value), a.c.active,
                              Reply(true, true, SessionSafetyPaused, None));
      } else {
        AnnounceKeeps(a, env, MarkRecordingControl(a.c, generation, reason), Reply(true, true, NowRecording, None));
      }
    }
  }

  lemma PauseKeeps(a: Actor, env: Environment, reason: TransitionReason)
    requires ActorInv(a)
    ensures ActorInv(HandlePause(a, env, reason).actor)
  {
    if a.c.state == Recording {
      AnnounceKeeps(a.(manual := true), env, PauseControl(a.c, reason), Reply(true, true, NowPaused, None));
    }
  }

  lemma ResumeKeeps(a: Actor, env: Environment, reason: TransitionReason)
    requires ActorInv(a)
    ensures ActorInv(HandleResume(a, env, reason).actor)
  {
    if a.automatic.None? && a.c.state == Paused {
      AnnounceKeeps(a.(manual := false), env, ResumeControl(a.c, reason), Reply(true, true, NowRecording, None));
    }
  }

  lemma BlockKeeps(a: Actor, env: Environment, reason: TransitionReason)
    requires ActorInv(a) && SafetyReason(reason)
    ensures ActorInv(HandleBlock(a, env, reason).actor)
  {
    if IsActiveState(a.c.state) {
      var latched := a.(automatic := Some(reason));
      BlockingMoves(a, latched, reason);
      AnnounceAndDrainKeeps(latched, env, InvalidateAndPauseControl(a.c, reason), a.c.active,
                            Reply(true, true, SessionSafetyPaused, None));
    }
  }

  lemma ReleaseKeeps(a: Actor, env: Environment, reason: TransitionReason)
    requires ActorInv(a)
    ensures ActorInv(HandleRelease(a, env, reason).actor)
  {
    if a.automatic.Some? && reason == ExpectedRelease(a) && a.c.state == Paused && !a.manual {
      AnnounceKeeps(a.(automatic := None), env, ResumeControl(a.c, reason), Reply(true, true, NowRecording, None));
    }
  }

  lemma FinishKeeps(a: Actor, env: Environment, reason: TransitionReason)
    requires TrailInv(a) && FailuresAreClosed(a.attempts) && Latches(a) && !a.manual
    requires a.c.state == Stopping || a.c.state == Faulted
    ensures var finished := Finish(a, env, reason);
            && ActorInv(finished.actor) && finished.reply.code != GateRefused
            && (finished.actor.c.state == Off || finished.actor.c.state == Faulted)
  {
    AnnounceKeeps(a, env, FinishOffControl(a.c, reason), Reply(true, true, NowOff, None));
  }

  lemma FaultedStopKeeps(a: Actor, env: Environment, reason: TransitionReason)
    requires ActorInv(a) && a.c.state == Faulted
    ensures ActorInv(HandleStop(a, env, reason).actor)
    ensures HandleStop(a, env, reason).actor.c.state == Off || HandleStop(a, env, reason).actor.c.state == Faulted
    ensures HandleStop(a, env, reason).reply.code != GateRefused
  {
    hide Finish;
    var a0 := a.(manual := false);
    if NextDrain(a0, env, None).None? {
      FinishKeeps(Drained(a0, None), env, reason);
    }
  }

  lemma StoppingKeeps(a: Actor, env: Environment, reason: TransitionReason)
    requires ActorInv(a) && IsActiveState(a.c.state) && !a.manual
    ensures var stopping := StopAndDrain(a, env, reason);
            && TrailInv(stopping.actor) && FailuresAreClosed(stopping.actor.attempts)
            && !stopping.actor.manual && stopping.actor.automatic == a.automatic
            && stopping.reply.code != GateRefused
            && stopping.actor.c.state == if stopping.reply.code == NowOff then Stopping else Faulted
  {
    AnnounceAndDrainKeeps(a, env, BeginStoppingControl(a.c, reason), a.c.active, Reply(true, true, NowOff, None));
  }

  lemma ActiveStopKeeps(a: Actor, env: Environment, reason: TransitionReason)
    requires ActorInv(a) && IsActiveState(a.c.state)
    ensures ActorInv(HandleStop(a, env, reason).actor)
    ensures HandleStop(a, env, reason).actor.c.state == Off || HandleStop(a, env, reason).actor.c.state == Faulted
    ensures HandleStop(a, env, reason).reply.code != GateRefused
  {
    hide StopAndDrain, Finish;
    StoppingKeeps(a.(manual := false), env, reason);
    var stopping := StopAndDrain(a.(manual := false), env, reason);
    if stopping.reply.code == NowOff {
      FinishKeeps(stopping.actor, env, reason);
    }
  }

  lemma StopKeeps(a: Actor, env: Environment, reason: TransitionReason)
    requires ActorInv(a)
    ensures ActorInv(HandleStop(a, env, reason).actor)
    ensures HandleStop(a, env, reason).actor.c.state == Off || HandleStop(a, env, reason).actor.c.state == Faulted
    ensures HandleStop(a, env, reason).reply.code != GateRefused
  {
    if a.c.state == Faulted {
      FaultedStopKeeps(a, env, reason);
    } else if a.c.state != Off {
      ActiveStopKeeps(a, env, reason);
    }
  }

  lemma FaultKeeps(a: Actor, env: Environment, fault: FaultCode, reason: TransitionReason, drain: bool)
    requires ActorInv(a)
    ensures ActorInv(EnterFault(a, env, fault, reason, drain))
  {
    EnterFaultKeepsTrail(a, env, fault, reason, drain);
  }

  lemma OnStartKeeps(a: Actor, env: Environment, first: ConfigOutcome, config: ConfigOutcome, alive: bool)
    requires ActorInv(a)
    ensures ActorInv(HandleOnStart(a, env, first, config, alive))
  {
    hide ActorInv, HandleStart, EnterFault;
    FaultKeeps(a, env, PreflightFailure, CriticalFault, true);
    StartKeeps(a, env, StartupOptIn, config, alive);
  }

  lemma OnStopKeeps(a: Actor, env: Environment)
    requires ActorInv(a)
    ensures ActorInv(HandleOnStop(a, env))
  {
    hide ActorInv, HandleStop, EnterFault;
    StopKeeps(a, env, Shutdown);
  }

  lemma ReceiveKeeps(a: Actor, env: Environment, m: Message)
    requires ActorInv(a) && WellFormed(m)
    ensures ActorInv(Receive(a, env, m))
  {
    hide ActorInv, EnterFault, HandleOnStart, HandleOnStop;
    hide HandleStart, HandlePause, HandleResume, HandleBlock, HandleRelease, HandleStop, HandlePreflight;
    match m {
      case Start(reason, config, alive) => StartKeeps(a, env, reason, config, alive);
      case PauseMessage(reason) => PauseKeeps(a, env, reason);
      case ResumeMessage(reason) => ResumeKeeps(a, env, reason);
      case Block(reason) => BlockKeeps(a, env, reason);
      case Release(reason) => ReleaseKeeps(a, env, reason);
      case Stop(reason) => StopKeeps(a, env, reason);
      case FaultMessage(fault, reason) => FaultKeeps(a, env, fault, reason, true);
      case PreflightComplete(generation, outcome, reason) => PreflightKeeps(a, env, generation, outcome, reason);
      case Unexpected => FaultKeeps(a, env, ActorFailure, CriticalFault, true);
      case OnStart(first, config, alive) => OnStartKeeps(a, env, first, config, alive);
      case OnStop => OnStopKeeps(a, env);
      case OnFailure => FaultKeeps(a, env, ActorFailure, CriticalFault, true);
    }
  }

  predicate AllWellFormed(messages: seq<Message>) {
    forall i :: 0 <= i < |messages| ==> WellFormed(messages[i])
  }

  lemma {:induction false} ReceiveAllKeeps(a: Actor, env: Environment, messages: seq<Message>)
    requires ActorInv(a) && AllWellFormed(messages)
    ensures ActorInv(ReceiveAll(a, env, messages))
    decreases |messages|
  {
    if messages != [] {
      ReceiveKeeps(a, env, messages[0]);
      ReceiveAllKeeps(Receive(a, env, messages[0]), env, messages[1..]);
    }
  }

  // ---------- the pause latches ----------

  // Whatever the messages and failures were: recording means no manual pause and no
  // automatic block; a manual pause means PAUSED or FAULTED.
  lemma LatchesHold(env: Environment, messages: seq<Message>)
    requires AllWellFormed(messages)
    ensures var a := ReceiveAll(InitialActor, env, messages);
            && (a.c.state == Recording ==> !a.manual && a.automatic.None?)
            && (a.manual ==> a.c.state == Paused || a.c.state == Faulted)
            && a.c.state != Stopping && a.c.state != Privacy
            && (a.c.active.Some? <==> IsActiveState(a.c.state))
  {
    ReceiveAllKeeps(InitialActor, env, messages);
  }

  // A preflight result that the owner accepts and that carries IDLE.
  predicate IdlePreflight(a: Actor, m: Message) {
    && m.PreflightComplete? && m.outcome == Ready(Some(Idle))
    && a.c.state == Starting && a.c.active == Some(m.generation)
  }

  // A latched lock is given up by SESSION_UNLOCKED and by an accepted IDLE preflight,
  // and by nothing else.
  lemma WhatClearsTheLock(a: Actor, env: Environment, m: Message)
    requires ActorInv(a) && WellFormed(m) && a.automatic == Some(SessionLocked)
    ensures Receive(a, env, m).automatic != Some(SessionLocked) <==> m == Release(SessionUnlocked) || IdlePreflight(a, m)
    ensures Receive(a, env, m).automatic.None? <==> m == Release(SessionUnlocked)
  {
    if m.Block? || m.Release? || m.PreflightComplete? {
      PauseLatches(a, env, m);
    } else {
      FaultsKeepLatches(a, env, m);
    }
  }

  lemma AnnounceKeepsLatches(a: Actor, env: Environment, moved: Moved<Transition>, generation: Option<Generation>,
                             done: Reply)
    ensures Announce(a, env, moved, done).actor.automatic == a.automatic
    ensures AnnounceAndDrain(a, env, moved, generation, done).actor.automatic == a.automatic
  {
  }

  lemma StopPartsKeepLatches(a: Actor, env: Environment, reason: TransitionReason)
    ensures StopAndDrain(a, env, reason).actor.automatic == a.automatic
    ensures Finish(a, env, reason).actor.automatic == a.automatic
  {
    AnnounceKeepsLatches(a, env, BeginStoppingControl(a.c, reason), a.c.active, Reply(true, true, NowOff, None));
    AnnounceKeepsLatches(a, env, FinishOffControl(a.c, reason), None, Reply(true, true, NowOff, None));
  }

  lemma StopKeepsLatches(a: Actor, env: Environment, reason: TransitionReason)
    ensures HandleStop(a, env, reason).actor.automatic == a.automatic
  {
    hide StopAndDrain, Finish;
    var a0 := a.(manual := false);
    StopPartsKeepLatches(a0, env, reason);
    StopPartsKeepLatches(Drained(a0, None), env, reason);
    StopPartsKeepLatches(StopAndDrain(a0, env, reason).actor, env, reason);
  }

  lemma FaultsKeepLatches(a: Actor, env: Environment, m: Message)
    requires !m.Block? && !m.Release? && !m.PreflightComplete?
    ensures Receive(a, env, m).automatic == a.automatic
  {
    match m {
      case Stop(reason) => StopKeepsLatches(a, env, reason);
      case OnStop => StopKeepsLatches(a, env, Shutdown);
      case _ =>
    }
  }

  lemma PauseLatches(a: Actor, env: Environment, m: Message)
    requires ActorInv(a) && WellFormed(m) && a.automatic == Some(SessionLocked)
    requires m.Block? || m.Release? || m.PreflightComplete?
    ensures Receive(a, env, m).automatic
         == if m == Release(SessionUnlocked) then None
            else if IdlePreflight(a, m) then Some(Idle)
            else a.automatic
  {
    match m {
      case Block(reason) => BlockLatches(a, env, reason);
      case Release(reason) => ReleaseLatches(a, env, reason);
      case PreflightComplete(generation, outcome, reason) => PreflightLatches(a, env, generation, outcome, reason);
    }
  }

  lemma BlockLatches(a: Actor, env: Environment, reason: TransitionReason)
    requires SafetyReason(reason) && a.automatic == Some(SessionLocked)
    ensures HandleBlock(a, env, reason).actor.automatic == a.automatic
  {
    hide AnnounceAndDrain;
    var latched := a.(automatic := Some(reason));
    AnnounceKeepsLatches(latched, env, InvalidateAndPauseControl(a.c, reason), a.c.active,
                         Reply(true, true, SessionSafetyPaused, None));
  }

  lemma ReleaseLatches(a: Actor, env: Environment, reason: TransitionReason)
    requires a.automatic == Some(SessionLocked)
    ensures HandleRelease(a, env, reason).actor.automatic == if reason == SessionUnlocked then None else a.automatic
  {
    hide Announce;
    AnnounceKeepsLatches(a.(automatic := None), env, ResumeControl(a.c, reason), None, Reply(true, true, NowRecording, None));
  }

  lemma PreflightLatches(a: Actor, env: Environment, generation: Generation, outcome: PreflightOutcome,
                         reason: TransitionReason)
    requires a.automatic == Some(SessionLocked) && WellFormed(PreflightComplete(generation, outcome, reason))
    ensures HandlePreflight(a, env, generation, outcome, reason).actor.automatic
         == if IdlePreflight(a, PreflightComplete(generation, outcome, reason)) then Some(Idle) else a.automatic
  {
    hide Announce, AnnounceAndDrain;
    if outcome.Ready? {
      var latched := a.(automatic := PauseReason(a, outcome.startPaused));
      AnnounceKeepsLatches(latched, env, InvalidateAndPauseControl(a.c, latched.automatic.value), a.c.active,
                           Reply(true, true, SessionSafetyPaused, None));
    }
  }

  // Run level: the lock outlives every sequence without SESSION_UNLOCKED and without
  // an IDLE preflight, through stops, restarts and faults.
  predicate KeepsLock(m: Message) {
    m != Release(SessionUnlocked) && !(m.PreflightComplete? && m.outcome == Ready(Some(Idle)))
  }

  lemma {:induction false} TheLockHolds(a: Actor, env: Environment, messages: seq<Message>)
    requires ActorInv(a) && AllWellFormed(messages) && a.automatic == Some(SessionLocked)
    requires forall i :: 0 <= i < |messages| ==> KeepsLock(messages[i])
    ensures ReceiveAll(a, env, messages).automatic == Some(SessionLocked)
    ensures ReceiveAll(a, env, messages).c.state != Recording
    decreases |messages|
  {
    if messages != [] {
      assert KeepsLock(messages[0]);
      WhatClearsTheLock(a, env, messages[0]);
      ReceiveKeeps(a, env, messages[0]);
      TheLockHolds(Receive(a, env, messages[0]), env, messages[1..]);
    }
  }

  const Willing := Environment((n: nat) => true, (n: nat) => DrainOutcome(true, true, true, true, true))

  // The owner takes an IDLE result from whatever preflight it has: a lock latched at OFF
  // is replaced when the preflight of the next start reports IDLE, and then the end of
  // idleness resumes recording, although the owner has received no SESSION_UNLOCKED.
  // What the session's own preflight adds is SessionPreflight.
  const IdleOverwrites := [Block(SessionLocked), Start(UserStart, Configuration(true, "r"), true),
                           PreflightComplete(1, Ready(Some(Idle)), UserStart), Release(TransitionReason.Active)]

  lemma IdlePreflightReplacesTheLock()
    ensures AllWellFormed(IdleOverwrites) && Release(SessionUnlocked) !in IdleOverwrites
    ensures ReceiveAll(InitialActor, Willing, IdleOverwrites[..2]).automatic == Some(SessionLocked)
    ensures ReceiveAll(InitialActor, Willing, IdleOverwrites).c.state == Recording
  {
    var m := IdleOverwrites;
    var a1 := Receive(InitialActor, Willing, m[0]);
    var a2 := Receive(a1, Willing, m[1]);
    assert a2.c.state == Starting && a2.c.active == Some(1) && a2.automatic == Some(SessionLocked) && !a2.manual;
    IdleThenActive(a2);
    assert m[..2][1..] == [m[1]] && m[..2][1..][1..] == [];
    assert ReceiveAll(a1, Willing, m[..2][1..]) == a2;
    assert m[1..][1..] == m[2..];
    assert ReceiveAll(a1, Willing, m[1..]) == ReceiveAll(a2, Willing, m[2..]);
  }

  lemma IdleThenActive(a: Actor)
    requires a.c.state == Starting && a.c.active == Some(1) && !a.manual
    ensures ReceiveAll(a, Willing, IdleOverwrites[2..]).c.state == Recording
  {
    var m := IdleOverwrites;
    var a3 := Receive(a, Willing, m[2]);
    assert a3.c.state == Paused && a3.c.active.Some? && a3.automatic == Some(Idle) && !a3.manual;
    var a4 := Receive(a3, Willing, m[3]);
    assert a4.c.state == Recording;
    assert m[2..][1..] == m[3..] && m[3..][1..] == [];
    assert ReceiveAll(a3, Willing, m[3..]) == ReceiveAll(a4, Willing, []);
  }

  // ---------- the audit trail, run level ----------

  // Every attempt is legal and continues the one before, generations never go back,
  // the trail ends at the gate's present state, and an undelivered attempt is
  // followed by the fault that closes the gate, unless it announced one itself.
  lemma TheTrailIsAPath(env: Environment, messages: seq<Message>)
    requires AllWellFormed(messages)
    ensures var a := ReceiveAll(InitialActor, env, messages);
            && PathTo(a.attempts, a.c)
            && FailuresAreClosed(a.attempts)
  {
    ReceiveAllKeeps(InitialActor, env, messages);
  }

  function ReplyTo(a: Actor, env: Environment, m: Message): Option<Reply> {
    match m
    case Start(reason, config, alive) => Some(HandleStart(a, env, reason, config, alive).reply)
    case PauseMessage(reason) => Some(HandlePause(a, env, reason).reply)
    case ResumeMessage(reason) => Some(HandleResume(a, env, reason).reply)
    case Block(reason) => Some(HandleBlock(a, env, reason).reply)
    case Release(reason) => Some(HandleRelease(a, env, reason).reply)
    case Stop(reason) => Some(HandleStop(a, env, reason).reply)
    case FaultMessage(fault, reason) => Some(HandleFault(a, env, fault, reason).reply)
    case PreflightComplete(generation, outcome, reason) => Some(HandlePreflight(a, env, generation, outcome, reason).reply)
    case _ => None
  }

  // No gate operation that a handler or a hook of the actor makes ever raises, those
  // inside faults and failed announcements included; and no reply reports a refusal.
  lemma TheGateNeverRefuses(env: Environment, messages: seq<Message>, m: Message)
    requires AllWellFormed(messages) && WellFormed(m)
    ensures var a := ReceiveAll(InitialActor, env, messages);
            && a.refusals == 0 && Receive(a, env, m).refusals == 0
            && (ReplyTo(a, env, m).Some? ==> ReplyTo(a, env, m).value.code != GateRefused)
  {
    ReceiveAllKeeps(InitialActor, env, messages);
    ReceiveKeeps(ReceiveAll(InitialActor, env, messages), env, m);
    NoRefusal(ReceiveAll(InitialActor, env, messages), env, m);
  }

  lemma BlocksAreNotRefused(a: Actor, env: Environment, m: Message)
    requires ActorInv(a) && WellFormed(m) && (m.Block? || m.PreflightComplete?)
    ensures ReplyTo(a, env, m).value.code != GateRefused
  {
  }

  lemma NoRefusal(a: Actor, env: Environment, m: Message)
    requires ActorInv(a) && WellFormed(m)
    ensures var reply := ReplyTo(a, env, m); reply.Some? ==> reply.value.code != GateRefused
  {
    hide HandleStop, HandleBlock, HandlePreflight;
    if m.Stop? {
      StopKeeps(a, env, m.reason);
    } else if m.Block? || m.PreflightComplete? {
      BlocksAreNotRefused(a, env, m);
    }
  }
}
