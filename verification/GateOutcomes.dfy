/**
 The gate's operations said outright: on which states each succeeds, and the whole state
 it leaves, field by field. The state tables here are independent of the transition table.
 */
module GateOutcomes {
  import opened Wrappers
  import opened Lifecycle
  import opened GateModel

  predicate Active(s: CaptureState) {
    s == Starting || s == Recording || s == Paused
  }

  // The transition table read by its targets: who may come to each state.
  lemma WhoMayEnter(s: CaptureState)
    ensures CanMove(s, Off) <==> s == Starting || s == Stopping || s == Faulted
    ensures CanMove(s, Starting) <==> s == Off
    ensures CanMove(s, Recording) <==> s == Starting || s == Paused || s == Privacy
    ensures CanMove(s, Paused) <==> s == Starting || s == Recording || s == Paused || s == Privacy
    ensures CanMove(s, Privacy) <==> s == Recording || s == Paused
    ensures CanMove(s, Stopping) <==> s == Starting || s == Recording || s == Paused || s == Privacy
    ensures CanMove(s, Faulted) <==> s != Faulted
  {
  }

  // Each operation succeeds on exactly these states.
  lemma SessionsSucceedExactly(g: Gate, generation: Generation, reason: TransitionReason, revision: Revision)
    requires GateInv(g)
    ensures BeginStart(g, reason, revision).result.Ok? <==> g.c.state == Off
    ensures MarkRecording(g, generation, reason).result.Ok? <==> g.c.state == Starting && g.c.active == Some(generation)
    ensures Pause(g, reason).result.Ok? <==> g.c.state == Recording
    ensures Resume(g, reason).result.Ok? <==> g.c.state == Paused
    ensures FinishOff(g, reason).result.Ok? <==> g.c.state == Starting || g.c.state == Stopping || g.c.state == Faulted
  {
  }

  lemma InvalidationsSucceedExactly(g: Gate, reason: TransitionReason)
    requires GateInv(g)
    ensures InvalidateAndPause(g, reason).result.Ok? <==> Active(g.c.state)
    ensures BeginStopping(g, reason).result.Ok? <==> Active(g.c.state)
    ensures Fault(g, reason).result.Ok? <==> g.c.state != Faulted
  {
    hide InvalidateAndPause, BeginStopping;
    if g.c.active.Some? {
      InvalidationOutcomes(g, reason);
    } else {
      IdleOutcomes(g, reason);
    }
  }

  // The states a session goes through, and the generation it is under.
  lemma SessionOutcomes(g: Gate, generation: Generation, reason: TransitionReason, revision: Revision)
    requires GateInv(g)
    ensures g.c.state == Off ==>
              BeginStart(g, reason, revision)
              == Called(Gate(Control(Starting, Some(g.c.epoch + 1), None, g.c.epoch + 1, Some(revision), true),
                             g.w.(events := g.w.events[g.c.epoch + 1 := false], listed := g.w.listed + {g.c.epoch + 1})),
                        Ok(Transition(Off, Starting, g.c.epoch + 1, reason)))
    ensures g.c.state != Off ==> BeginStart(g, reason, revision) == Called(g, Err(CannotStart))
    ensures MarkRecording(g, generation, reason)
         == if g.c.state == Starting && g.c.active == Some(generation)
            then Called(g.(c := g.c.(state := Recording)), Ok(Transition(Starting, Recording, generation, reason)))
            else Called(g, Err(StaleGeneration))
    ensures Pause(g, reason)
         == if g.c.state == Recording && g.c.active.Some?
            then Called(g.(c := g.c.(state := Paused)), Ok(Transition(Recording, Paused, g.c.active.value, reason)))
            else Called(g, Err(WrongState))
    ensures Resume(g, reason)
         == if g.c.state == Paused && g.c.active.Some?
            then Called(g.(c := g.c.(state := Recording)), Ok(Transition(Paused, Recording, g.c.active.value, reason)))
            else Called(g, Err(WrongState))
  {
  }

  // What invalidates: the event of the active generation is set, and it is handed over.
  lemma InvalidationOutcomes(g: Gate, reason: TransitionReason)
    requires GateInv(g) && g.c.active.Some?
    ensures var next := g.c.epoch + 1;
            var cancelled := g.w.events[g.c.active.value := true];
            && InvalidateAndPause(g, reason)
               == Called(Gate(Control(Paused, Some(next), g.c.active, next, g.c.revision, g.c.healthy),
                              g.w.(events := cancelled[next := false], listed := g.w.listed + {next})),
                         Ok(Transition(g.c.state, Paused, next, reason)))
            && BeginStopping(g, reason)
               == Called(Gate(Control(Stopping, None, g.c.active, next, g.c.revision, g.c.healthy),
                              g.w.(events := cancelled)),
                         Ok(Transition(g.c.state, Stopping, next, reason)))
            && Fault(g, reason)
               == Called(Gate(Control(Faulted, None, g.c.active, next, g.c.revision, false), g.w.(events := cancelled)),
                         Ok(Transition(g.c.state, Faulted, next, reason)))
  {
  }

  // Without an active generation nothing is cancelled, and a fault keeps what drains.
  lemma IdleOutcomes(g: Gate, reason: TransitionReason)
    requires GateInv(g) && g.c.active.None?
    ensures InvalidateAndPause(g, reason) == Called(g, Err(WrongState))
    ensures BeginStopping(g, reason) == Called(g.(c := g.c.(epoch := g.c.epoch + 1)), Err(IllegalTransition))
    ensures g.c.state != Faulted ==>
              Fault(g, reason)
              == Called(g.(c := Control(Faulted, None, g.c.draining, g.c.epoch + 1, g.c.revision, false)),
                        Ok(Transition(g.c.state, Faulted, g.c.epoch + 1, reason)))
    ensures g.c.state == Stopping || g.c.state == Faulted ==>
              FinishOff(g, reason)
              == Called(Gate(Control(Off, None, None, g.c.epoch, None, true),
                             g.w.(listed := set v | v in g.w.listed && g.w.inFlight[v] > 0)),
                        Ok(Transition(g.c.state, Off, g.c.epoch, reason)))
  {
  }

  // Registered work: who is admitted, with which permit, and what a release takes back.
  lemma WorkOutcomes(g: Gate, generation: Generation)
    requires GateInv(g)
    ensures AcquirePreflight(g, generation).result.Ok? <==> g.c.state == Starting && g.c.active == Some(generation)
    ensures AcquireCapture(g).result.Ok? <==> g.c.state == Recording
    ensures AcquirePersistence(g, generation).result.Ok?
            <==> (g.c.state == Recording || g.c.state == Paused) && g.c.active == Some(generation)
    ensures CurrentGenerationError(g, generation)
         == if g.c.active != Some(generation) then Some(StaleGeneration)
            else if g.c.state == Starting then Some(GateClosed) else None
    ensures g.c.active.Some? ==>
              var admitted := g.(w := g.w.(inFlight := g.w.inFlight + multiset{g.c.active.value}));
              var permit := Ok(Permit(g.c.active.value, g.c.revision.value));
              && (g.c.state == Recording ==> AcquireCapture(g) == Called(admitted, permit))
              && (g.c.state == Starting ==> AcquirePreflight(g, g.c.active.value) == Called(admitted, permit))
              && (g.c.state == Recording || g.c.state == Paused ==>
                    AcquirePersistence(g, g.c.active.value) == Called(admitted, permit))
    ensures Release(g, generation).c == g.c && Release(g, generation).w.events == g.w.events
    ensures Release(g, generation).w.inFlight == g.w.inFlight - multiset{generation}
    ensures generation in Release(g, generation).w.listed
            <==> generation in g.w.listed && (g.w.inFlight[generation] > 1 || g.c.active == Some(generation))
    ensures forall v :: v != generation ==> (v in Release(g, generation).w.listed <==> v in g.w.listed)
  {
  }
}
