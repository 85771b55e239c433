/**
 The capture gate as a value. `Control` is what the lifecycle owner decides,
 `Work` is the bookkeeping of registered operations. Each function is one
 critical section of the state lock; an error result carries the state the
 section leaves behind when it raises.

 A cancel event is created once per generation, so `events` maps a generation
 to the flag of its event for ever, and `listed` is the set of generations that
 the gate's dictionary of events still holds.
 */
module GateModel {
  import opened Wrappers
  import opened Lifecycle

  datatype GateError =
    | NotOwner          // a lifecycle operation from a foreign thread
    | CannotStart
    | StaleGeneration
    | GateClosed
    | WrongState
    | IllegalTransition
    | EventStale        // registration found no event, or a set one
    | RevisionMissing   // registration found no configuration revision

  datatype Control = Control(state: CaptureState,
                             active: Option<Generation>,
                             draining: Option<Generation>,
                             epoch: nat,
                             revision: Option<Revision>,
                             healthy: bool)

  datatype Work = Work(events: map<Generation, bool>,
                       listed: set<Generation>,
                       inFlight: multiset<Generation>)

  datatype Gate = Gate(c: Control, w: Work)

  datatype Permit = Permit(generation: Generation, revision: Revision)

  // What one lifecycle operation does to the control part.
  datatype Moved<+T> = Moved(c: Control, result: Result<T, GateError>)

  // What one gate operation does to the whole gate.
  datatype Called<+T> = Called(gate: Gate, result: Result<T, GateError>)

  const InitialControl := Control(Off, None, None, 0, None, true)
  const InitialGate := Gate(InitialControl, Work(map[], {}, multiset{}))

  // ---------- control ----------

  function MoveTo(c: Control, current: CaptureState, generation: Generation, reason: TransitionReason)
    : Moved<Transition>
  {
    if CanMove(c.state, current) then
      Moved(c.(state := current), Ok(Transition(c.state, current, generation, reason)))
    else
      Moved(c, Err(IllegalTransition))
  }

  function NextEpoch(c: Control): Control {
    c.(epoch := c.epoch + 1)
  }

  function BeginStartControl(c: Control, reason: TransitionReason, revision: Revision): Moved<Transition> {
    if c.state != Off then Moved(c, Err(CannotStart))
    else
      var generation := c.epoch + 1;
      MoveTo(NextEpoch(c).(active := Some(generation), draining := None, revision := Some(revision), healthy := true),
             Starting, generation, reason)
  }

  function MarkRecordingControl(c: Control, generation: Generation, reason: TransitionReason): Moved<Transition> {
    if c.state != Starting || c.active != Some(generation) then Moved(c, Err(StaleGeneration))
    else MoveTo(c, Recording, generation, reason)
  }

  function PauseControl(c: Control, reason: TransitionReason): Moved<Transition> {
    if c.state != Recording || c.active.None? then Moved(c, Err(WrongState))
    else MoveTo(c, Paused, c.active.value, reason)
  }

  function ResumeControl(c: Control, reason: TransitionReason): Moved<Transition> {
    if c.state != Paused || c.active.None? then Moved(c, Err(WrongState))
    else MoveTo(c, Recording, c.active.value, reason)
  }

  function InvalidateAndPauseControl(c: Control, reason: TransitionReason): Moved<Transition> {
    if !IsActiveState(c.state) then Moved(c, Err(WrongState))
    else
      var generation := c.epoch + 1;
      MoveTo(NextEpoch(c).(active := Some(generation), draining := c.active), Paused, generation, reason)
  }

  // The epoch moves before the transition is checked.
  function BeginStoppingControl(c: Control, reason: TransitionReason): Moved<Transition> {
    MoveTo(NextEpoch(c).(active := None, draining := if c.active.Some? then c.active else c.draining),
           Stopping, c.epoch + 1, reason)
  }

  function FinishOffControl(c: Control, reason: TransitionReason): Moved<Transition> {
    var c1 := if c.epoch == 0 then NextEpoch(c) else c;
    var moved := MoveTo(c1, Off, c1.epoch, reason);
    if moved.result.Err? then moved
    else Moved(moved.c.(active := None, draining := None, revision := None, healthy := true), moved.result)
  }

  // The generation a fault hands over for draining.
  function FaultedGeneration(c: Control): Option<Generation> {
    if c.active.Some? then c.active else c.draining
  }

  // The epoch moves before the transition is checked.
  function FaultControl(c: Control, reason: TransitionReason): Moved<Transition> {
    MoveTo(NextEpoch(c).(active := None, draining := if c.active.Some? then c.active else c.draining, healthy := false),
           Faulted, c.epoch + 1, reason)
  }

  // ---------- the whole gate: lifecycle operations ----------

  function CancelActive(g: Gate): Work {
    if g.c.active.Some? && g.c.active.value in g.w.listed then
      g.w.(events := g.w.events[g.c.active.value := true])
    else
      g.w
  }

  function NewEvent(w: Work, generation: Generation): Work {
    w.(events := w.events[generation := false], listed := w.listed + {generation})
  }

  function BeginStart(g: Gate, reason: TransitionReason, revision: Revision): Called<Transition> {
    var moved := BeginStartControl(g.c, reason, revision);
    if g.c.state != Off then Called(g, moved.result)
    else Called(Gate(moved.c, NewEvent(g.w, g.c.epoch + 1)), moved.result)
  }

  function MarkRecording(g: Gate, generation: Generation, reason: TransitionReason): Called<Transition> {
    var moved := MarkRecordingControl(g.c, generation, reason);
    Called(g.(c := moved.c), moved.result)
  }

  function Pause(g: Gate, reason: TransitionReason): Called<Transition> {
    var moved := PauseControl(g.c, reason);
    Called(g.(c := moved.c), moved.result)
  }

  function Resume(g: Gate, reason: TransitionReason): Called<Transition> {
    var moved := ResumeControl(g.c, reason);
    Called(g.(c := moved.c), moved.result)
  }

  function InvalidateAndPause(g: Gate, reason: TransitionReason): Called<Transition> {
    var moved := InvalidateAndPauseControl(g.c, reason);
    if !IsActiveState(g.c.state) then Called(g, moved.result)
    else Called(Gate(moved.c, NewEvent(CancelActive(g), g.c.epoch + 1)), moved.result)
  }

  function BeginStopping(g: Gate, reason: TransitionReason): Called<Transition> {
    var moved := BeginStoppingControl(g.c, reason);
    Called(Gate(moved.c, CancelActive(g)), moved.result)
  }

  // The events that finish_off takes out of the dictionary.
  function StaleEvents(w: Work): set<Generation> {
    set v | v in w.listed && v in w.events && w.events[v] && w.inFlight[v] == 0
  }

  function FinishOff(g: Gate, reason: TransitionReason): Called<Transition> {
    var moved := FinishOffControl(g.c, reason);
    if moved.result.Err? then Called(g.(c := moved.c), moved.result)
    else Called(Gate(moved.c, g.w.(listed := g.w.listed - StaleEvents(g.w))), moved.result)
  }

  function Fault(g: Gate, reason: TransitionReason): Called<Transition> {
    var moved := FaultControl(g.c, reason);
    Called(Gate(moved.c, CancelActive(g)), moved.result)
  }

  // ---------- the whole gate: work operations ----------

  function Register(g: Gate, generation: Generation): Called<Permit> {
    if generation !in g.w.listed || generation !in g.w.events || g.w.events[generation] then
      Called(g, Err(EventStale))
    else if g.c.revision.None? then
      Called(g, Err(RevisionMissing))
    else
      Called(g.(w := g.w.(inFlight := g.w.inFlight + multiset{generation})),
             Ok(Permit(generation, g.c.revision.value)))
  }

  function AcquirePreflight(g: Gate, generation: Generation): Called<Permit> {
    if g.c.state != Starting || g.c.active != Some(generation) then Called(g, Err(StaleGeneration))
    else Register(g, generation)
  }

  function AcquireCapture(g: Gate): Called<Permit> {
    if g.c.state != Recording then Called(g, Err(GateClosed))
    else if g.c.active.None? then Called(g, Err(WrongState))
    else Register(g, g.c.active.value)
  }

  function AcquirePersistence(g: Gate, generation: Generation): Called<Permit> {
    if g.c.state != Recording && g.c.state != Paused then Called(g, Err(GateClosed))
    else if g.c.active != Some(generation) then Called(g, Err(StaleGeneration))
    else Register(g, generation)
  }

  // The error of require_current_generation, or None when it returns.
  function CurrentGenerationError(g: Gate, generation: Generation): Option<GateError> {
    if g.c.active != Some(generation) then Some(StaleGeneration)
    else if g.c.state != Recording && g.c.state != Paused then Some(GateClosed)
    else None
  }

  function Release(g: Gate, generation: Generation): Gate {
    var inFlight := g.w.inFlight - multiset{generation};
    var listed := if g.w.inFlight[generation] <= 1 && g.c.active != Some(generation)
                  then g.w.listed - {generation} else g.w.listed;
    g.(w := g.w.(inFlight := inFlight, listed := listed))
  }

  // ---------- the gate's invariant ----------

  // The lifecycle half of the invariant, which never mentions registered work.
  predicate ControlInv(c: Control) {
    && c.state != Privacy
    && (c.active.Some? <==> IsActiveState(c.state))
    && (c.active.Some? ==> c.active.value == c.epoch && c.revision.Some?)
    && (c.draining.Some? ==> c.draining.value <= c.epoch && c.draining != c.active)
    && (c.state != Off ==> c.epoch > 0)
    && (c.state == Stopping ==> c.draining.Some? && c.draining.value < c.epoch)
  }

  predicate WorkInv(g: Gate) {
    && (forall v :: v in g.w.events ==> v <= g.c.epoch)
    && g.w.listed <= g.w.events.Keys
    && (forall v :: v in g.w.inFlight ==> v in g.w.events)
    // an event is set exactly when its generation is not the active one
    && (forall v :: v in g.w.events ==> (g.w.events[v] <==> g.c.active != Some(v)))
    && (g.c.active.Some? ==> g.c.active.value in g.w.listed)
    // an idle gate keeps only the events that running operations hold
    && (g.c.state == Off ==> forall v :: v in g.w.listed ==> g.w.inFlight[v] > 0)
  }

  predicate GateInv(g: Gate) {
    ControlInv(g.c) && WorkInv(g)
  }

  // A permit's view of its cancel event.
  predicate Cancelled(g: Gate, p: Permit)
    requires p.generation in g.w.events
  {
    g.w.events[p.generation]
  }
}
