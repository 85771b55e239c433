/**
 The lifecycle owner as a value: what each message makes of the gate's lifecycle
 half, the two pause latches and the audit trail. What the audit sink and the work
 coordinator answer comes from an environment indexed by the number of the call.
 */
module ActorModel {
  import opened Wrappers
  import opened Lifecycle
  import opened GateModel

  datatype FaultCode =
    | UnsupportedSession | EncryptionUnavailable | PolicyFailure | PreflightFailure | PreflightTimeout
    | CancellationFailure | QuiescenceTimeout | BufferClearFailure | AuditFailure | ActorFailure | ShutdownFailure

  // One call of the audit sink, whether or not it raised.
  datatype Attempt = Attempt(transition: Transition, revision: Option<Revision>, fault: Option<FaultCode>, delivered: bool)

  // What one drain's calls answered; true is success.
  datatype DrainOutcome = DrainOutcome(cancelQueued: bool, cancelInFlight: bool,
                                       operationsQuiet: bool, pipelineQuiet: bool, cleared: bool)

  datatype Environment = Environment(sink: nat -> bool, coordinator: nat -> DrainOutcome)

  datatype ConfigOutcome = Unreadable | Configuration(permitted: bool, revision: Revision)

  datatype PreflightOutcome = Ready(startPaused: Option<TransitionReason>) | NotReady(fault: FaultCode)

  datatype Actor = Actor(c: Control,
                         manual: bool,
                         automatic: Option<TransitionReason>,
                         attempts: seq<Attempt>,
                         drains: seq<Option<Generation>>,
                         refusals: nat) // gate operations that raised
  {
    // Whether the sink's next call succeeds.
    predicate SinkAnswers(env: Environment) {
      env.sink(|attempts|)
    }
  }

  datatype Code =
    | AlreadyStarted | CapturePaused | InvalidStartState | CaptureDisabledByConfiguration | NowStarting
    | StalePreflightIgnored | SessionSafetyPaused | NowRecording
    | AlreadyPaused | InvalidPauseState | NowPaused
    | SessionSafetyBlocked | AlreadyRecording | InvalidResumeState
    | StrongerSafetyBlockActive | SessionSafetyAlreadyBlocked | SessionSafetyLatched
    | SessionSafetyAlreadyClear | SessionSafetyReleaseMismatch | ManualPauseRetained
    | AlreadyOff | BufferClearFailed | NowOff | AlreadyFaulted | NowFaulted | AuditFailed
    | GateRefused   // a gate operation raised

  datatype Reply = Reply(accepted: bool, changed: bool, code: Code, fault: Option<FaultCode>)

  datatype Handled = Handled(actor: Actor, reply: Reply)

  datatype Message =
    | Start(reason: TransitionReason, config: ConfigOutcome, preflightAlive: bool)
    | PauseMessage(reason: TransitionReason)
    | ResumeMessage(reason: TransitionReason)
    | Block(reason: TransitionReason)
    | Release(reason: TransitionReason)
    | Stop(reason: TransitionReason)
    | FaultMessage(fault: FaultCode, reason: TransitionReason)
    | PreflightComplete(generation: Generation, outcome: PreflightOutcome, reason: TransitionReason)
    | Unexpected
    | OnStart(first: ConfigOutcome, config: ConfigOutcome, preflightAlive: bool)
    | OnStop
    | OnFailure

  const InitialActor := Actor(InitialControl, false, None, [], [], 0)

  predicate SafetyReason(reason: TransitionReason) {
    reason == SessionLocked || reason == Idle
  }

  // What the constructors of the messages accept.
  predicate WellFormed(m: Message) {
    match m
    case Block(reason) => SafetyReason(reason)
    case Release(reason) => reason == SessionUnlocked || reason == TransitionReason.Active
    case PreflightComplete(_, Ready(startPaused), _) => startPaused.Some? ==> SafetyReason(startPaused.value)
    case _ => true
  }

  // ---------- drains and the audit trail ----------

  function DrainFault(outcome: DrainOutcome, generation: Option<Generation>): Option<FaultCode> {
    var clearFailure := if outcome.cleared then None else Some(BufferClearFailure);
    if generation.None? then clearFailure
    else if !outcome.cancelQueued || !outcome.cancelInFlight then Some(CancellationFailure)
    else if !outcome.operationsQuiet || !outcome.pipelineQuiet then Some(QuiescenceTimeout)
    else clearFailure
  }

  function NextDrain(a: Actor, env: Environment, generation: Option<Generation>): Option<FaultCode> {
    DrainFault(env.coordinator(|a.drains|), generation)
  }

  function Drained(a: Actor, generation: Option<Generation>): Actor {
    a.(drains := a.drains + [generation])
  }

  function Recorded(a: Actor, env: Environment, transition: Transition, fault: Option<FaultCode>): Actor {
    a.(attempts := a.attempts + [Attempt(transition, a.c.revision, fault, env.sink(|a.attempts|))])
  }

  // The gate's operation raised, leaving control c.
  function Refused(a: Actor, c: Control): Actor {
    a.(c := c, refusals := a.refusals + 1)
  }

  function EnterFault(a: Actor, env: Environment, fault: FaultCode, reason: TransitionReason, drain: bool): Actor {
    if a.c.state == Faulted then a
    else
      var moved := FaultControl(a.c, reason);
      if moved.result.Err? then Refused(a, moved.c)
      else
        var recorded := Recorded(a.(c := moved.c), env, moved.result.value, Some(fault));
        if drain then Drained(recorded, FaultedGeneration(a.c)) else recorded
  }

  // An emission that fails closes the gate, unless it is already faulted.
  function Emitted(a: Actor, env: Environment, transition: Transition): Actor {
    var recorded := Recorded(a, env, transition, None);
    if env.sink(|a.attempts|) then recorded
    else EnterFault(recorded, env, AuditFailure, CriticalFault, true)
  }

  function FaultReply(a: Actor, fault: FaultCode): Reply {
    Reply(false, a.c.state != Faulted, NowFaulted, Some(fault))
  }

  const AuditReply := Reply(false, true, AuditFailed, Some(AuditFailure))

  // A transition that is announced, and then the rest of the handler.
  function Announce(a: Actor, env: Environment, moved: Moved<Transition>, done: Reply): Handled {
    if moved.result.Err? then Handled(Refused(a, moved.c), Reply(false, false, GateRefused, None))
    else
      Handled(Emitted(a.(c := moved.c), env, moved.result.value),
              if env.sink(|a.attempts|) then done else AuditReply)
  }

  // A transition that is announced, followed by a drain of what it invalidated.
  function AnnounceAndDrain(a: Actor, env: Environment, moved: Moved<Transition>, generation: Option<Generation>,
                            done: Reply): Handled
  {
    var announced := Announce(a, env, moved, done);
    if moved.result.Err? || !env.sink(|a.attempts|) then announced
    else
      var fault := NextDrain(announced.actor, env, generation);
      var drained := Drained(announced.actor, generation);
      if fault.None? then Handled(drained, done)
      else Handled(EnterFault(drained, env, fault.value, CriticalFault, false), FaultReply(drained, fault.value))
  }

  // ---------- the handlers ----------

  function Unchanged(a: Actor, accepted: bool, code: Code): Handled {
    Handled(a, Reply(accepted, false, code, None))
  }

  function Faulting(a: Actor, env: Environment, fault: FaultCode, reason: TransitionReason): Handled {
    Handled(EnterFault(a, env, fault, reason, true), FaultReply(a, fault))
  }

  function HandleStart(a: Actor, env: Environment, reason: TransitionReason, config: ConfigOutcome,
                       preflightAlive: bool): Handled
  {
    if a.c.state == Recording || a.c.state == Starting then Unchanged(a, true, AlreadyStarted)
    else if a.c.state == Paused then Unchanged(a, false, CapturePaused)
    else if a.c.state != Off then Unchanged(a, false, InvalidStartState)
    else if config.Unreadable? then Faulting(a, env, PreflightFailure, CriticalFault)
    else if !config.permitted then Unchanged(a, false, CaptureDisabledByConfiguration)
    else
      var moved := BeginStartControl(a.c, reason, config.revision);
      var announced := Announce(a, env, moved, Reply(true, true, NowStarting, None));
      if moved.result.Err? || !env.sink(|a.attempts|) || preflightAlive then announced
      else Faulting(announced.actor, env, PreflightFailure, CriticalFault)
  }

  // `ready.start_paused_reason or self._automatic_pause_reason`
  function PauseReason(a: Actor, startPaused: Option<TransitionReason>): Option<TransitionReason> {
    if startPaused.Some? then startPaused else a.automatic
  }

  function HandlePreflight(a: Actor, env: Environment, generation: Generation, outcome: PreflightOutcome,
                           reason: TransitionReason): Handled
  {
    if a.c.state != Starting || a.c.active != Some(generation) then Unchanged(a, false, StalePreflightIgnored)
    else if outcome.NotReady? then Faulting(a, env, outcome.fault, CriticalFault)
    else
      var pauseReason := PauseReason(a, outcome.startPaused);
      if pauseReason.Some? then
        AnnounceAndDrain(a.(automatic := pauseReason), env, InvalidateAndPauseControl(a.c, pauseReason.value), a.c.active,
                         Reply(true, true, SessionSafetyPaused, None))
      else
        Announce(a, env, MarkRecordingControl(a.c, generation, reason), Reply(true, true, NowRecording, None))
  }

  function HandlePause(a: Actor, env: Environment, reason: TransitionReason): Handled {
    if a.c.state == Paused then Unchanged(a.(manual := true), true, AlreadyPaused)
    else if a.c.state != Recording then Unchanged(a, false, InvalidPauseState)
    else Announce(a.(manual := true), env, PauseControl(a.c, reason), Reply(true, true, NowPaused, None))
  }

  function HandleResume(a: Actor, env: Environment, reason: TransitionReason): Handled {
    if a.automatic.Some? then Unchanged(a, false, SessionSafetyBlocked)
    else if a.c.state == Recording then Unchanged(a.(manual := false), true, AlreadyRecording)
    else if a.c.state != Paused then Unchanged(a, false, InvalidResumeState)
    else Announce(a.(manual := false), env, ResumeControl(a.c, reason), Reply(true, true, NowRecording, None))
  }

  function HandleBlock(a: Actor, env: Environment, reason: TransitionReason): Handled {
    if a.automatic == Some(SessionLocked) && reason == Idle then Unchanged(a, true, StrongerSafetyBlockActive)
    else if a.automatic == Some(reason) && a.c.state == Paused then Unchanged(a, true, SessionSafetyAlreadyBlocked)
    else
      var latched := a.(automatic := Some(reason));
      if a.c.state == Off || a.c.state == Stopping || a.c.state == Faulted then
        Unchanged(latched, true, SessionSafetyLatched)
      else
        AnnounceAndDrain(latched, env, InvalidateAndPauseControl(a.c, reason), a.c.active,
                         Reply(true, true, SessionSafetyPaused, None))
  }

  function ExpectedRelease(a: Actor): TransitionReason {
    if a.automatic == Some(SessionLocked) then SessionUnlocked else TransitionReason.Active
  }

  function HandleRelease(a: Actor, env: Environment, reason: TransitionReason): Handled {
    if a.automatic.None? then Unchanged(a, true, SessionSafetyAlreadyClear)
    else if reason != ExpectedRelease(a) then Unchanged(a, false, SessionSafetyReleaseMismatch)
    else if a.c.state != Paused || a.manual then Unchanged(a.(automatic := None), true, ManualPauseRetained)
    else Announce(a.(automatic := None), env, ResumeControl(a.c, reason), Reply(true, true, NowRecording, None))
  }

  function Finish(a: Actor, env: Environment, reason: TransitionReason): Handled {
    Announce(a, env, FinishOffControl(a.c, reason), Reply(true, true, NowOff, None))
  }

  function StopAndDrain(a: Actor, env: Environment, reason: TransitionReason): Handled {
    AnnounceAndDrain(a, env, BeginStoppingControl(a.c, reason), a.c.active, Reply(true, true, NowOff, None))
  }

  // A fault is acknowledged by clearing the buffers; a running session is drained
  // before the gate is closed.
  function HandleStop(a: Actor, env: Environment, reason: TransitionReason): Handled {
    var a0 := a.(manual := false);
    if a.c.state == Off then Unchanged(a0, true, AlreadyOff)
    else if a.c.state == Faulted then
      var fault := NextDrain(a0, env, None);
      var cleared := Drained(a0, None);
      if fault.Some? then Handled(cleared, Reply(false, false, BufferClearFailed, fault))
      else Finish(cleared, env, reason)
    else
      var stopping := StopAndDrain(a0, env, reason);
      if stopping.reply.code == NowOff then Finish(stopping.actor, env, reason) else stopping
  }

  function HandleFault(a: Actor, env: Environment, fault: FaultCode, reason: TransitionReason): Handled {
    if a.c.state == Faulted then Handled(a, Reply(true, false, AlreadyFaulted, Some(fault)))
    else Faulting(a, env, fault, reason)
  }

  function HandleOnStart(a: Actor, env: Environment, first: ConfigOutcome, config: ConfigOutcome,
                         preflightAlive: bool): Actor
  {
    if first.Unreadable? then EnterFault(a, env, PreflightFailure, CriticalFault, true)
    else if first.permitted then HandleStart(a, env, StartupOptIn, config, preflightAlive).actor
    else a
  }

  function HandleOnStop(a: Actor, env: Environment): Actor {
    if a.c.state == Off then a
    else
      var stopped := HandleStop(a, env, Shutdown).actor;
      if stopped.c.state != Off && stopped.c.state != Faulted
      then EnterFault(stopped, env, ShutdownFailure, CriticalFault, true) else stopped
  }

  function Receive(a: Actor, env: Environment, m: Message): Actor {
    match m
    case Start(reason, config, alive) => HandleStart(a, env, reason, config, alive).actor
    case PauseMessage(reason) => HandlePause(a, env, reason).actor
    case ResumeMessage(reason) => HandleResume(a, env, reason).actor
    case Block(reason) => HandleBlock(a, env, reason).actor
    case Release(reason) => HandleRelease(a, env, reason).actor
    case Stop(reason) => HandleStop(a, env, reason).actor
    case FaultMessage(fault, reason) => HandleFault(a, env, fault, reason).actor
    case PreflightComplete(generation, outcome, reason) => HandlePreflight(a, env, generation, outcome, reason).actor
    case Unexpected => EnterFault(a, env, ActorFailure, CriticalFault, true)
    case OnStart(first, config, alive) => HandleOnStart(a, env, first, config, alive)
    case OnStop => HandleOnStop(a, env)
    case OnFailure => EnterFault(a, env, ActorFailure, CriticalFault, true)
  }

  function ReceiveAll(a: Actor, env: Environment, messages: seq<Message>): Actor
    decreases |messages|
  {
    if messages == [] then a else ReceiveAll(Receive(a, env, messages[0]), env, messages[1..])
  }
}
