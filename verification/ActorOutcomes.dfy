/**
 The lifecycle owner's answers said outright: which message, under which latches and which
 answers of the sink and the coordinator, leads to which state, and what it does to the two
 latches. From these, what a user relies on: a pause holds until it is resumed or stopped.
 */
module ActorOutcomes {
  import opened Wrappers
  import opened Lifecycle
  import opened GateModel
  import opened ActorModel
  import opened ActorTheorems

  // ---------- the answers a message depends on ----------

  predicate Heard(a: Actor, env: Environment) {
    env.sink(|a.attempts|)
  }

  predicate HeardTwice(a: Actor, env: Environment) {
    env.sink(|a.attempts|) && env.sink(|a.attempts| + 1)
  }

  // Every call of the next drain of a generation succeeds.
  predicate DrainsWell(a: Actor, env: Environment) {
    var o := env.coordinator(|a.drains|);
    o.cancelQueued && o.cancelInFlight && o.operationsQuiet && o.pipelineQuiet && o.cleared
  }

  predicate ClearsWell(a: Actor, env: Environment) {
    env.coordinator(|a.drains|).cleared
  }

  // ---------- what a message asks for ----------

  // A start from OFF that the configuration lets through.
  predicate AsksToStart(a: Actor, m: Message) {
    && a.c.state == Off
    && ((m.Start? && m.config.Configuration? && m.config.permitted)
        || (m.OnStart? && m.first.Configuration? && m.first.permitted && m.config.Configuration? && m.config.permitted))
  }

  predicate PreflightAlive(m: Message) {
    (m.Start? && m.preflightAlive) || (m.OnStart? && m.preflightAlive)
  }

  // The result of the preflight the owner waits for.
  predicate Awaited(a: Actor, m: Message) {
    m.PreflightComplete? && a.c.state == Starting && a.c.active == Some(m.generation)
  }

  predicate AsksToRecord(a: Actor, m: Message) {
    || (Awaited(a, m) && m.outcome == Ready(None) && a.automatic.None?)
    || (a.c.state == Paused && m.ResumeMessage? && a.automatic.None?)
    || (a.c.state == Paused && !a.manual && a.automatic == Some(SessionLocked) && m == Release(SessionUnlocked))
    || (a.c.state == Paused && !a.manual && a.automatic == Some(Idle) && m == Release(TransitionReason.Active))
  }

  // An automatic block that is not weaker than the one in force.
  predicate Blocks(a: Actor, m: Message) {
    m.Block? && !(a.automatic == Some(SessionLocked) && m.reason == Idle)
  }

  // The block pauses: it is new, or the session is not paused yet.
  predicate AsksToPauseAutomatically(a: Actor, m: Message) {
    || (Blocks(a, m) && (a.c.state == Starting || a.c.state == Recording || (a.c.state == Paused && a.automatic != Some(m.reason))))
    || (Awaited(a, m) && m.outcome.Ready? && (m.outcome.startPaused.Some? || a.automatic.Some?))
  }

  predicate AsksToPause(a: Actor, m: Message) {
    a.c.state == Recording && m.PauseMessage?
  }

  predicate AsksToStop(a: Actor, m: Message) {
    m.Stop? || m.OnStop?
  }

  // The message reports a failure, or is one.
  predicate AsksToFault(a: Actor, m: Message) {
    || m.FaultMessage? || m.Unexpected? || m.OnFailure?
    || (m.OnStart? && m.first.Unreadable?)
    || (a.c.state == Off && m.Start? && m.config.Unreadable?)
    || (a.c.state == Off && m.OnStart? && m.first.Configuration? && m.first.permitted && m.config.Unreadable?)
    || (Awaited(a, m) && m.outcome.NotReady?)
  }

  // ---------- where it ends ----------

  predicate InSession(a: Actor) {
    a.c.state == Starting || a.c.state == Recording || a.c.state == Paused
  }

  // The state after a message, told by what it asks for and how it is answered.
  function Ending(a: Actor, env: Environment, m: Message): CaptureState {
    if AsksToFault(a, m) then Faulted
    else if AsksToStart(a, m) then if Heard(a, env) && PreflightAlive(m) then Starting else Faulted
    else if AsksToRecord(a, m) then if Heard(a, env) then Recording else Faulted
    else if AsksToPauseAutomatically(a, m) then if Heard(a, env) && DrainsWell(a, env) then Paused else Faulted
    else if AsksToPause(a, m) then if Heard(a, env) then Paused else Faulted
    else if AsksToStop(a, m) && InSession(a) then if HeardTwice(a, env) && DrainsWell(a, env) then Off else Faulted
    else if AsksToStop(a, m) && a.c.state == Faulted then if ClearsWell(a, env) && Heard(a, env) then Off else Faulted
    else a.c.state
  }

  // ---------- the handlers, one by one ----------

  lemma AnnouncedEnds(a: Actor, env: Environment, moved: Moved<Transition>, done: Reply)
    requires moved.result.Ok? && ControlInv(moved.c) && moved.c.state != Faulted
    ensures var h := Announce(a, env, moved, done);
            && h.actor.c.state == (if Heard(a, env) then moved.c.state else Faulted)
            && h.reply == (if Heard(a, env) then done else AuditReply)
            && (Heard(a, env) ==> h.actor == a.(c := moved.c, attempts := h.actor.attempts)
                                  && |h.actor.attempts| == |a.attempts| + 1)
            && h.actor.manual == a.manual && h.actor.automatic == a.automatic
  {
  }

  lemma DrainedEnds(a: Actor, env: Environment, moved: Moved<Transition>, generation: Option<Generation>, done: Reply)
    requires moved.result.Ok? && ControlInv(moved.c) && moved.c.state != Faulted && generation.Some?
    requires done.code != AuditFailed && done.code != NowFaulted
    ensures var h := AnnounceAndDrain(a, env, moved, generation, done);
            && h.actor.c.state == (if Heard(a, env) && DrainsWell(a, env) then moved.c.state else Faulted)
            && (h.reply.code == done.code <==> Heard(a, env) && DrainsWell(a, env))
            && (h.reply.code == done.code ==> h.actor.c == moved.c && |h.actor.attempts| == |a.attempts| + 1)
            && (Heard(a, env) ==> |h.actor.drains| > |a.drains| && h.actor.drains[|a.drains|] == generation)
            && h.actor.manual == a.manual && h.actor.automatic == a.automatic
  {
    hide Announce, Emitted;
    AnnouncedEnds(a, env, moved, done);
    var announced := Announce(a, env, moved, done).actor;
  }

  lemma FaultEnds(a: Actor, env: Environment, fault: FaultCode, reason: TransitionReason, drain: bool)
    requires ControlInv(a.c)
    ensures EnterFault(a, env, fault, reason, drain).c.state == Faulted
  {
  }

  lemma StartEnds(a: Actor, env: Environment, reason: TransitionReason, config: ConfigOutcome, alive: bool)
    requires ActorInv(a)
    ensures HandleStart(a, env, reason, config, alive).actor.c.state
         == if a.c.state != Off then a.c.state
            else if config.Unreadable? then Faulted
            else if !config.permitted then Off
            else if Heard(a, env) && alive then Starting else Faulted
  {
    hide Announce, EnterFault, ActorInv;
    StateOf(a);
    if a.c.state == Off {
      if config.Unreadable? {
        FaultEnds(a, env, PreflightFailure, CriticalFault, true);
      } else if config.permitted {
        var moved := BeginStartControl(a.c, reason, config.revision);
        AnnouncedEnds(a, env, moved, Reply(true, true, NowStarting, None));
        if Heard(a, env) {
          FaultEnds(Announce(a, env, moved, Reply(true, true, NowStarting, None)).actor, env,
                    PreflightFailure, CriticalFault, true);
        }
      }
    }
  }

  lemma StateOf(a: Actor)
    requires ActorInv(a)
    ensures ControlInv(a.c) && a.c.state != Stopping && a.c.state != Privacy
    ensures a.automatic.Some? ==> a.automatic == Some(SessionLocked) || a.automatic == Some(Idle)
    ensures a.manual ==> a.c.state == Paused || a.c.state == Faulted
    ensures a.c.state == Recording ==> !a.manual && a.automatic.None?
  {
  }

  lemma PreflightEnds(a: Actor, env: Environment, m: Message)
    requires ActorInv(a) && WellFormed(m) && m.PreflightComplete?
    ensures Receive(a, env, m).c.state == Ending(a, env, m)
  {
    hide Announce, AnnounceAndDrain, EnterFault, ActorInv, DrainsWell, Heard;
    StateOf(a);
    if Awaited(a, m) {
      if m.outcome.NotReady? {
        FaultEnds(a, env, m.outcome.fault, CriticalFault, true);
      } else if PauseReason(a, m.outcome.startPaused).Some? {
        var latched := a.(automatic := PauseReason(a, m.outcome.startPaused));
        DrainedEnds(latched, env, InvalidateAndPauseControl(a.c, latched.automatic.value), a.c.active,
                    Reply(true, true, SessionSafetyPaused, None));
        SameAnswers(a, latched, env);
      } else {
        AnnouncedEnds(a, env, MarkRecordingControl(a.c, m.generation, m.reason), Reply(true, true, NowRecording, None));
      }
    }
  }

  // The answers do not depend on the latches.
  lemma SameAnswers(a: Actor, b: Actor, env: Environment)
    requires b.attempts == a.attempts && b.drains == a.drains
    ensures Heard(b, env) == Heard(a, env) && DrainsWell(b, env) == DrainsWell(a, env)
  {
  }

  lemma SwitchEnds(a: Actor, env: Environment, m: Message)
    requires ActorInv(a) && WellFormed(m) && (m.PauseMessage? || m.ResumeMessage? || m.Release?)
    ensures Receive(a, env, m).c.state == Ending(a, env, m)
  {
    hide Announce, EnterFault, ActorInv, DrainsWell, Heard;
    StateOf(a);
    if m.PauseMessage? && a.c.state == Recording {
      AnnouncedEnds(a.(manual := true), env, PauseControl(a.c, m.reason), Reply(true, true, NowPaused, None));
      SameAnswers(a, a.(manual := true), env);
    } else if m.ResumeMessage? && a.c.state == Paused && a.automatic.None? {
      AnnouncedEnds(a.(manual := false), env, ResumeControl(a.c, m.reason), Reply(true, true, NowRecording, None));
      SameAnswers(a, a.(manual := false), env);
    } else if m.Release? && a.c.state == Paused && !a.manual && a.automatic.Some? && m.reason == ExpectedRelease(a) {
      AnnouncedEnds(a.(automatic := None), env, ResumeControl(a.c, m.reason), Reply(true, true, NowRecording, None));
      SameAnswers(a, a.(automatic := None), env);
    }
  }

  lemma BlockEnds(a: Actor, env: Environment, m: Message)
    requires ActorInv(a) && WellFormed(m) && m.Block?
    ensures Receive(a, env, m).c.state == Ending(a, env, m)
  {
    hide AnnounceAndDrain, ActorInv, DrainsWell, Heard;
    StateOf(a);
    if AsksToPauseAutomatically(a, m) {
      var latched := a.(automatic := Some(m.reason));
      DrainedEnds(latched, env, InvalidateAndPauseControl(a.c, m.reason), a.c.active,
                  Reply(true, true, SessionSafetyPaused, None));
      SameAnswers(a, latched, env);
    }
  }

  lemma FinishEnds(a: Actor, env: Environment, reason: TransitionReason)
    requires ControlInv(a.c) && (a.c.state == Stopping || a.c.state == Faulted)
    ensures Finish(a, env, reason).actor.c.state == if Heard(a, env) then Off else Faulted
  {
    hide Announce, Heard;
    AnnouncedEnds(a, env, FinishOffControl(a.c, reason), Reply(true, true, NowOff, None));
  }

  lemma StopEnds(a: Actor, env: Environment, reason: TransitionReason)
    requires ActorInv(a)
    ensures HandleStop(a, env, reason).actor.c.state
         == if a.c.state == Off then Off
            else if a.c.state == Faulted then (if ClearsWell(a, env) && Heard(a, env) then Off else Faulted)
            else if HeardTwice(a, env) && DrainsWell(a, env) then Off else Faulted
  {
    hide AnnounceAndDrain, Finish, ActorInv, DrainsWell;
    StateOf(a);
    var a0 := a.(manual := false);
    if a.c.state == Faulted {
      FinishEnds(Drained(a0, None), env, reason);
    } else if a.c.state != Off {
      SameAnswers(a, a0, env);
      DrainedEnds(a0, env, BeginStoppingControl(a.c, reason), a.c.active, Reply(true, true, NowOff, None));
      var stopping := StopAndDrain(a0, env, reason);
      if stopping.reply.code == NowOff {
        FinishEnds(stopping.actor, env, reason);
      }
    }
  }

  // Where every message ends, in every state the owner can be in.
  lemma EveryMessageEnds(a: Actor, env: Environment, m: Message)
    requires ActorInv(a) && WellFormed(m)
    ensures Receive(a, env, m).c.state == Ending(a, env, m)
  {
    hide HandleStart, HandleStop, HandlePreflight, HandlePause, HandleResume, HandleBlock, HandleRelease, EnterFault, ActorInv;
    hide DrainsWell, ClearsWell, Heard, HeardTwice;
    StateOf(a);
    match m {
      case Start(reason, config, alive) => StartEnds(a, env, reason, config, alive);
      case Stop(reason) => StopEnds(a, env, reason);
      case FaultMessage(fault, reason) => FaultMessageEnds(a, env, fault, reason);
      case PreflightComplete(_, _, _) => PreflightEnds(a, env, m);
      case Unexpected => FaultEnds(a, env, ActorFailure, CriticalFault, true);
      case OnStart(first, config, alive) =>
        FaultEnds(a, env, PreflightFailure, CriticalFault, true);
        StartEnds(a, env, StartupOptIn, config, alive);
      case OnStop => StopEnds(a, env, Shutdown);
      case OnFailure => FaultEnds(a, env, ActorFailure, CriticalFault, true);
      case Block(_) => BlockEnds(a, env, m);
      case _ => SwitchEnds(a, env, m);
    }
  }

  lemma FaultMessageEnds(a: Actor, env: Environment, fault: FaultCode, reason: TransitionReason)
    requires ControlInv(a.c)
    ensures HandleFault(a, env, fault, reason).actor.c.state == Faulted
  {
    FaultEnds(a, env, fault, reason, true);
  }

  // ---------- the latches ----------

  // What a message leaves of the manual pause.
  function ManualAfter(a: Actor, m: Message): bool {
    if m.PauseMessage? && (a.c.state == Recording || a.c.state == Paused) then true
    else if m.ResumeMessage? && a.automatic.None? && (a.c.state == Recording || a.c.state == Paused) then false
    else if m.Stop? || (m.OnStop? && a.c.state != Off) then false
    else a.manual
  }

  // And of the automatic block, whatever the state is.
  function AutomaticAfter(a: Actor, m: Message): Option<TransitionReason> {
    if Blocks(a, m) then Some(m.reason)
    else if m == Release(SessionUnlocked) && a.automatic == Some(SessionLocked) then None
    else if m == Release(TransitionReason.Active) && a.automatic == Some(Idle) then None
    else if Awaited(a, m) && m.outcome.Ready? && m.outcome.startPaused.Some? then m.outcome.startPaused
    else a.automatic
  }

  lemma AnnounceKeepsBoth(a: Actor, env: Environment, moved: Moved<Transition>, generation: Option<Generation>, done: Reply)
    ensures var h := Announce(a, env, moved, done).actor; h.manual == a.manual && h.automatic == a.automatic
    ensures var h := AnnounceAndDrain(a, env, moved, generation, done).actor; h.manual == a.manual && h.automatic == a.automatic
  {
  }

  lemma FaultKeepsBoth(a: Actor, env: Environment, fault: FaultCode, reason: TransitionReason, drain: bool)
    ensures var h := EnterFault(a, env, fault, reason, drain); h.manual == a.manual && h.automatic == a.automatic
  {
  }

  lemma StartKeepsBoth(a: Actor, env: Environment, reason: TransitionReason, config: ConfigOutcome, alive: bool)
    ensures var h := HandleStart(a, env, reason, config, alive).actor; h.manual == a.manual && h.automatic == a.automatic
  {
    hide Announce, EnterFault;
    FaultKeepsBoth(a, env, PreflightFailure, CriticalFault, true);
    if config.Configuration? {
      var moved, done := BeginStartControl(a.c, reason, config.revision), Reply(true, true, NowStarting, None);
      AnnounceKeepsBoth(a, env, moved, None, done);
      FaultKeepsBoth(Announce(a, env, moved, done).actor, env, PreflightFailure, CriticalFault, true);
    }
  }

  lemma StopClearsManual(a: Actor, env: Environment, reason: TransitionReason)
    ensures var h := HandleStop(a, env, reason).actor; !h.manual && h.automatic == a.automatic
  {
    hide Announce, AnnounceAndDrain;
    var a0, done := a.(manual := false), Reply(true, true, NowOff, None);
    AnnounceKeepsBoth(Drained(a0, None), env, FinishOffControl(a.c, reason), None, done);
    AnnounceKeepsBoth(a0, env, BeginStoppingControl(a.c, reason), a.c.active, done);
    var stopping := StopAndDrain(a0, env, reason).actor;
    AnnounceKeepsBoth(stopping, env, FinishOffControl(stopping.c, reason), None, done);
  }

  lemma SwitchLatches(a: Actor, env: Environment, m: Message)
    requires ActorInv(a) && WellFormed(m) && (m.PauseMessage? || m.ResumeMessage? || m.Release? || m.Block?)
    ensures Receive(a, env, m).manual == ManualAfter(a, m) && Receive(a, env, m).automatic == AutomaticAfter(a, m)
  {
    hide Announce, AnnounceAndDrain, ActorInv;
    StateOf(a);
    match m {
      case PauseMessage(r) => AnnounceKeepsBoth(a.(manual := true), env, PauseControl(a.c, r), None, Reply(true, true, NowPaused, None));
      case ResumeMessage(r) => AnnounceKeepsBoth(a.(manual := false), env, ResumeControl(a.c, r), None, Reply(true, true, NowRecording, None));
      case Release(r) => AnnounceKeepsBoth(a.(automatic := None), env, ResumeControl(a.c, r), None, Reply(true, true, NowRecording, None));
      case Block(r) =>
        AnnounceKeepsBoth(a.(automatic := Some(r)), env, InvalidateAndPauseControl(a.c, r), a.c.active,
                          Reply(true, true, SessionSafetyPaused, None));
    }
  }

  lemma PreflightLatchesExactly(a: Actor, env: Environment, m: Message)
    requires ActorInv(a) && WellFormed(m) && m.PreflightComplete?
    ensures Receive(a, env, m).manual == ManualAfter(a, m) && Receive(a, env, m).automatic == AutomaticAfter(a, m)
  {
    hide Announce, AnnounceAndDrain, EnterFault, ActorInv;
    if Awaited(a, m) {
      if m.outcome.NotReady? {
        FaultKeepsBoth(a, env, m.outcome.fault, CriticalFault, true);
      } else {
        AnnounceKeepsBoth(a, env, MarkRecordingControl(a.c, m.generation, m.reason), None, Reply(true, true, NowRecording, None));
        var latched := a.(automatic := PauseReason(a, m.outcome.startPaused));
        if latched.automatic.Some? {
          AnnounceKeepsBoth(latched, env, InvalidateAndPauseControl(a.c, latched.automatic.value), a.c.active,
                            Reply(true, true, SessionSafetyPaused, None));
        }
      }
    }
  }

  // What every message makes of the latches, however it is answered.
  lemma EveryMessageLatches(a: Actor, env: Environment, m: Message)
    requires ActorInv(a) && WellFormed(m)
    ensures Receive(a, env, m).manual == ManualAfter(a, m)
    ensures Receive(a, env, m).automatic == AutomaticAfter(a, m)
  {
    hide HandleStart, HandleStop, HandlePreflight, HandlePause, HandleResume, HandleBlock, HandleRelease, EnterFault, ActorInv;
    StateOf(a);
    match m {
      case Start(reason, config, alive) => StartKeepsBoth(a, env, reason, config, alive);
      case Stop(reason) => StopClearsManual(a, env, reason);
      case FaultMessage(fault, reason) => FaultKeepsBoth(a, env, fault, reason, true);
      case PreflightComplete(_, _, _) => PreflightLatchesExactly(a, env, m);
      case Unexpected => FaultKeepsBoth(a, env, ActorFailure, CriticalFault, true);
      case OnStart(first, config, alive) =>
        FaultKeepsBoth(a, env, PreflightFailure, CriticalFault, true);
        StartKeepsBoth(a, env, StartupOptIn, config, alive);
      case OnStop =>
        StopClearsManual(a, env, Shutdown);
        FaultKeepsBoth(HandleStop(a, env, Shutdown).actor, env, ShutdownFailure, CriticalFault, true);
      case OnFailure => FaultKeepsBoth(a, env, ActorFailure, CriticalFault, true);
      case _ => SwitchLatches(a, env, m);
    }
  }

  // ---------- what a user relies on ----------

  // Neither resumes nor stops.
  predicate LeavesPaused(m: Message) {
    !m.ResumeMessage? && !m.Stop? && !m.OnStop?
  }

  predicate HeldBack(a: Actor) {
    (a.c.state == Paused && a.manual) || a.c.state == Faulted
  }

  lemma {:induction false} HeldBackStays(a: Actor, env: Environment, messages: seq<Message>)
    requires ActorInv(a) && AllWellFormed(messages) && HeldBack(a)
    requires forall i :: 0 <= i < |messages| ==> LeavesPaused(messages[i])
    ensures HeldBack(ReceiveAll(a, env, messages))
    decreases |messages|
  {
    hide Receive, ActorInv;
    if messages != [] {
      var m := messages[0];
      assert LeavesPaused(m) && WellFormed(m);
      EveryMessageEnds(a, env, m);
      EveryMessageLatches(a, env, m);
      ReceiveKeeps(a, env, m);
      HeldBackStays(Receive(a, env, m), env, messages[1..]);
    }
  }

  // A pause asked for while recording or paused holds over every sequence of messages,
  // blocks and their releases included, until the user resumes or stops.
  lemma APauseHolds(a: Actor, env: Environment, reason: TransitionReason, messages: seq<Message>)
    requires ActorInv(a) && AllWellFormed(messages) && (a.c.state == Recording || a.c.state == Paused)
    requires forall i :: 0 <= i < |messages| ==> LeavesPaused(messages[i])
    ensures ReceiveAll(a, env, [PauseMessage(reason)] + messages).c.state != Recording
  {
    hide Receive, ActorInv;
    var m := PauseMessage(reason);
    EveryMessageEnds(a, env, m);
    EveryMessageLatches(a, env, m);
    ReceiveKeeps(a, env, m);
    HeldBackStays(Receive(a, env, m), env, messages);
    assert ([m] + messages)[0] == m && ([m] + messages)[1..] == messages;
  }

  // Recording begins exactly when an accepted preflight, a resume or the matching release
  // finds nothing that asks for a pause, and the sink takes the announcement.
  lemma RecordingBeginsExactly(a: Actor, env: Environment, m: Message)
    requires ActorInv(a) && WellFormed(m) && a.c.state != Recording
    ensures Receive(a, env, m).c.state == Recording <==> AsksToRecord(a, m) && env.sink(|a.attempts|)
  {
    hide Receive;
    EveryMessageEnds(a, env, m);
  }

  // And it goes on exactly through the messages that ask for nothing else.
  lemma RecordingGoesOnExactly(a: Actor, env: Environment, m: Message)
    requires ActorInv(a) && WellFormed(m) && a.c.state == Recording
    ensures Receive(a, env, m).c.state == Recording
            <==> m.Start? || m.ResumeMessage? || m.Release? || m.PreflightComplete?
                 || (m.OnStart? && m.first.Configuration?)
  {
    hide Receive;
    StateOf(a);
    EveryMessageEnds(a, env, m);
  }
}
