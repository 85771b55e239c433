/**
 The capture gate as the object it is: fields behind a state lock, the keys and
 flags of its cancel events and a dictionary of in-flight counts. Every method is one
 critical section and is proved to do to the object's view exactly what the
 function of the same name in GateModel does to the value.
 */
module CaptureGateObject {
  import opened Wrappers
  import opened Lifecycle
  import opened GateModel

  type ThreadId = int

  class CaptureGate {
    var state: CaptureState
    var active: Option<Generation>
    var draining: Option<Generation>
    var epoch: nat
    var revision: Option<Revision>
    var healthy: bool
    var owner: Option<ThreadId>
    // The flag of every cancel event ever created, and the dictionary's keys.
    var flags: map<Generation, bool>
    var cancelEvents: set<Generation>
    var inFlight: map<Generation, nat>

    // The in-flight counts as a multiset.
    ghost var counts: multiset<Generation>

    ghost predicate Valid()
      reads `inFlight, `counts
    {
      && (forall g :: g in inFlight ==> inFlight[g] > 0)
      && (forall g: Generation :: counts[g] == if g in inFlight then inFlight[g] else 0)
    }

    ghost function ControlView(): Control
      reads this
    {
      Control(state, active, draining, epoch, revision, healthy)
    }

    ghost function View(): Gate
      reads this
    {
      Gate(ControlView(), Work(flags, cancelEvents, counts))
    }

    constructor ()
      ensures Valid() && View() == InitialGate && owner == None
    {
      state, active, draining, epoch, revision, healthy := Off, None, None, 0, None, true;
      owner := None;
      flags, cancelEvents, inFlight, counts := map[], {}, map[], multiset{};
    }

    // ---------- ownership ----------

    method BindOwner(caller: ThreadId) returns (r: Result<(), GateError>)
      requires Valid()
      modifies this`owner
      ensures Valid() && View() == old(View())
      ensures old(owner).None? ==> owner == Some(caller)
      ensures old(owner).Some? ==> owner == old(owner)
      ensures r == if owner == Some(caller) then Ok(()) else Err(NotOwner)
    {
      if owner.None? {
        owner := Some(caller);
        return Ok(());
      }
      r := if owner.value != caller then Err(NotOwner) else Ok(());
    }

    method ReleaseOwner(caller: ThreadId) returns (r: Result<(), GateError>)
      requires Valid()
      modifies this`owner
      ensures Valid() && View() == old(View())
      ensures old(owner) != Some(caller) ==> r == Err(NotOwner) && owner == old(owner)
      ensures old(owner) == Some(caller) ==> r == Ok(()) && owner == None
    {
      if owner != Some(caller) {
        return Err(NotOwner);
      }
      owner := None;
      r := Ok(());
    }

    // ---------- lifecycle operations ----------
    // None of them writes what Valid reads, so each keeps it by its frame alone.

    method BeginStart(caller: ThreadId, reason: TransitionReason, newRevision: Revision)
      returns (r: Result<Transition, GateError>)
      modifies `state, `active, `draining, `epoch, `revision, `healthy, `flags, `cancelEvents
      ensures owner != Some(caller) ==> r == Err(NotOwner) && View() == old(View())
      ensures owner == Some(caller) ==> Called(View(), r) == GateModel.BeginStart(old(View()), reason, newRevision)
    {
      if owner != Some(caller) {
        return Err(NotOwner);
      }
      if state != Off {
        return Err(CannotStart);
      }
      var generation := NextGenerationLocked(true, None);
      revision, healthy := Some(newRevision), true;
      ListNewEvent(generation);
      r := TransitionLocked(Starting, generation, reason);
    }

    method MarkRecording(caller: ThreadId, generation: Generation, reason: TransitionReason)
      returns (r: Result<Transition, GateError>)
      modifies this`state
      ensures owner != Some(caller) ==> r == Err(NotOwner) && View() == old(View())
      ensures owner == Some(caller) ==> Called(View(), r) == GateModel.MarkRecording(old(View()), generation, reason)
    {
      if owner != Some(caller) {
        return Err(NotOwner);
      }
      if state != Starting || active != Some(generation) {
        return Err(StaleGeneration);
      }
      r := TransitionLocked(Recording, generation, reason);
    }

    method Pause(caller: ThreadId, reason: TransitionReason) returns (r: Result<Transition, GateError>)
      modifies this`state
      ensures owner != Some(caller) ==> r == Err(NotOwner) && View() == old(View())
      ensures owner == Some(caller) ==> Called(View(), r) == GateModel.Pause(old(View()), reason)
    {
      if owner != Some(caller) {
        return Err(NotOwner);
      }
      if state != Recording || active.None? {
        return Err(WrongState);
      }
      r := TransitionLocked(Paused, active.value, reason);
    }

    method Resume(caller: ThreadId, reason: TransitionReason) returns (r: Result<Transition, GateError>)
      modifies this`state
      ensures owner != Some(caller) ==> r == Err(NotOwner) && View() == old(View())
      ensures owner == Some(caller) ==> Called(View(), r) == GateModel.Resume(old(View()), reason)
    {
      if owner != Some(caller) {
        return Err(NotOwner);
      }
      if state != Paused || active.None? {
        return Err(WrongState);
      }
      r := TransitionLocked(Recording, active.value, reason);
    }

    method InvalidateAndPause(caller: ThreadId, reason: TransitionReason)
      returns (previous: Option<Generation>, r: Result<Transition, GateError>)
      modifies `state, `active, `draining, `epoch, `revision, `healthy, `flags, `cancelEvents
      ensures owner != Some(caller) ==> r == Err(NotOwner) && View() == old(View())
      ensures owner == Some(caller) ==> Called(View(), r) == GateModel.InvalidateAndPause(old(View()), reason)
      ensures r.Ok? ==> previous == old(active)
    {
      previous := None;
      if owner != Some(caller) {
        return previous, Err(NotOwner);
      }
      if state != Starting && state != Recording && state != Paused {
        return previous, Err(WrongState);
      }
      previous := active;
      SetActiveEvent();
      var generation := NextGenerationLocked(true, previous);
      ListNewEvent(generation);
      r := TransitionLocked(Paused, generation, reason);
    }

    method BeginStopping(caller: ThreadId, reason: TransitionReason)
      returns (previous: Option<Generation>, r: Result<Transition, GateError>)
      modifies `state, `active, `draining, `epoch, `revision, `healthy, `flags, `cancelEvents
      ensures owner != Some(caller) ==> r == Err(NotOwner) && View() == old(View())
      ensures owner == Some(caller) ==> Called(View(), r) == GateModel.BeginStopping(old(View()), reason)
      ensures r.Ok? ==> previous == old(active)
    {
      previous := None;
      if owner != Some(caller) {
        return previous, Err(NotOwner);
      }
      previous := active;
      SetActiveEvent();
      var generation := NextGenerationLocked(false, if previous.Some? then previous else draining);
      r := TransitionLocked(Stopping, generation, reason);
    }

    method FinishOff(caller: ThreadId, reason: TransitionReason) returns (r: Result<Transition, GateError>)
      requires Valid()
      modifies `state, `active, `draining, `epoch, `revision, `healthy, `flags, `cancelEvents
      ensures owner != Some(caller) ==> r == Err(NotOwner) && View() == old(View())
      ensures owner == Some(caller) ==> Called(View(), r) == GateModel.FinishOff(old(View()), reason)
    {
      if owner != Some(caller) {
        return Err(NotOwner);
      }
      if epoch == 0 {
        epoch := epoch + 1;
      }
      r := TransitionLocked(Off, epoch, reason);
      if r.Err? {
        return;
      }
      ForgetSession();
    }

    method Fault(caller: ThreadId, reason: TransitionReason)
      returns (previous: Option<Generation>, r: Result<Transition, GateError>)
      modifies `state, `active, `draining, `epoch, `revision, `healthy, `flags, `cancelEvents
      ensures owner != Some(caller) ==> r == Err(NotOwner) && View() == old(View())
      ensures owner == Some(caller) ==> Called(View(), r) == GateModel.Fault(old(View()), reason)
      ensures r.Ok? ==> previous == FaultedGeneration(old(ControlView()))
    {
      previous := None;
      if owner != Some(caller) {
        return previous, Err(NotOwner);
      }
      previous := if active.Some? then active else draining;
      SetActiveEvent();
      var generation := NextGenerationLocked(false, if active.Some? then active else draining);
      healthy := false;
      r := TransitionLocked(Faulted, generation, reason);
    }

    // ---------- work operations ----------

    method AcquirePreflight(generation: Generation) returns (r: Result<Permit, GateError>)
      requires Valid()
      modifies this`inFlight, this`counts
      ensures Valid() && Called(View(), r) == GateModel.AcquirePreflight(old(View()), generation)
    {
      if state != Starting || active != Some(generation) {
        return Err(StaleGeneration);
      }
      r := RegisterLocked(generation);
    }

    method AcquireCapture() returns (r: Result<Permit, GateError>)
      requires Valid()
      modifies this`inFlight, this`counts
      ensures Valid() && Called(View(), r) == GateModel.AcquireCapture(old(View()))
    {
      if state != Recording {
        return Err(GateClosed);
      }
      if active.None? {
        return Err(WrongState);
      }
      r := RegisterLocked(active.value);
    }

    method AcquirePersistence(generation: Generation) returns (r: Result<Permit, GateError>)
      requires Valid()
      modifies this`inFlight, this`counts
      ensures Valid() && Called(View(), r) == GateModel.AcquirePersistence(old(View()), generation)
    {
      if state != Recording && state != Paused {
        return Err(GateClosed);
      }
      if active != Some(generation) {
        return Err(StaleGeneration);
      }
      r := RegisterLocked(generation);
    }

    method RequireCurrentGeneration(generation: Generation) returns (error: Option<GateError>)
      requires Valid()
      ensures error == CurrentGenerationError(View(), generation)
    {
      if active != Some(generation) {
        return Some(StaleGeneration);
      }
      error := if state != Recording && state != Paused then Some(GateClosed) else None;
    }

    method ReleaseOperation(generation: Generation)
      requires Valid()
      modifies this`inFlight, this`counts, this`cancelEvents
      ensures Valid() && View() == Release(old(View()), generation)
    {
      var last := CountDown(generation);
      if last && active != Some(generation) {
        cancelEvents := cancelEvents - {generation};
      }
    }

    // One operation less; whether it was the last of its generation.
    method CountDown(generation: Generation) returns (last: bool)
      requires Valid()
      modifies this`inFlight, this`counts
      ensures Valid() && counts == old(counts) - multiset{generation}
      ensures last <==> old(counts)[generation] <= 1
    {
      var current := if generation in inFlight then inFlight[generation] else 0;
      last := current <= 1;
      inFlight := if last then inFlight - {generation} else inFlight[generation := current - 1];
      counts := counts - multiset{generation};
    }

    // One look of wait_for_operations at the in-flight dictionary.
    method OperationsQuiescent(generation: Generation) returns (quiescent: bool)
      requires Valid()
      ensures quiescent <==> View().w.inFlight[generation] == 0
    {
      quiescent := generation !in inFlight || inFlight[generation] == 0;
    }

    // ---------- helpers that run under the lock ----------

    method TransitionLocked(current: CaptureState, generation: Generation, reason: TransitionReason)
      returns (r: Result<Transition, GateError>)
      modifies this`state
      ensures Moved(ControlView(), r) == MoveTo(old(ControlView()), current, generation, reason)
    {
      var previous := state;
      if !CanMove(previous, current) {
        return Err(IllegalTransition);
      }
      state := current;
      r := Ok(Transition(previous, current, generation, reason));
    }

    method ListNewEvent(generation: Generation)
      modifies this`flags, this`cancelEvents
      ensures View() == old(View()).(w := NewEvent(old(View()).w, generation))
    {
      flags := flags[generation := false];
      cancelEvents := cancelEvents + {generation};
    }

    method SetActiveEvent()
      modifies this`flags
      ensures View() == old(View()).(w := CancelActive(old(View())))
    {
      if active.Some? && active.value in cancelEvents {
        flags := flags[active.value := true];
      }
    }

    // Allocates the next generation and records who is active and who drains.
    method NextGenerationLocked(activate: bool, newDraining: Option<Generation>) returns (generation: Generation)
      modifies this`epoch, this`active, this`draining
      ensures generation == old(epoch) + 1
      ensures ControlView() == old(ControlView()).(epoch := generation,
                                                   active := if activate then Some(generation) else None,
                                                   draining := newDraining)
    {
      generation := epoch + 1;
      epoch := generation;
      active := if activate then Some(generation) else None;
      draining := newDraining;
    }

    method ForgetSession()
      requires Valid()
      modifies this`active, this`draining, this`revision, this`healthy, this`cancelEvents
      ensures ControlView() == old(ControlView()).(active := None, draining := None, revision := None, healthy := true)
      ensures cancelEvents == old(cancelEvents) - StaleEvents(old(View()).w)
    {
      var stale := set v | v in cancelEvents && v in flags && flags[v] && v !in inFlight;
      assert stale == StaleEvents(View().w);
      cancelEvents := cancelEvents - stale;
      active, draining, revision, healthy := None, None, None, true;
    }

    method RegisterLocked(generation: Generation) returns (r: Result<Permit, GateError>)
      requires Valid()
      modifies this`inFlight, this`counts
      ensures Valid() && Called(View(), r) == Register(old(View()), generation)
    {
      if generation !in cancelEvents || generation !in flags || flags[generation] {
        return Err(EventStale);
      }
      if revision.None? {
        return Err(RevisionMissing);
      }
      var current := if generation in inFlight then inFlight[generation] else 0;
      inFlight := inFlight[generation := current + 1];
      counts := counts + multiset{generation};
      r := Ok(Permit(generation, revision.value));
    }
  }
}
