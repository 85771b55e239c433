/**
 What every sequence of gate calls keeps: permits are cancelled exactly when
 their generation is no longer active, an invalidated generation only drains,
 and the defensive raises of registration are unreachable.
 */
module GateTheorems {
  import opened Wrappers
  import opened Lifecycle
  import opened GateModel

  datatype Call =
    | Start(reason: TransitionReason, revision: Revision)
    | Record(generation: Generation, reason: TransitionReason)
    | PauseCall(reason: TransitionReason)
    | ResumeCall(reason: TransitionReason)
    | Invalidate(reason: TransitionReason)
    | Stop(reason: TransitionReason)
    | Finish(reason: TransitionReason)
    | FaultCall(reason: TransitionReason)
    | Preflight(generation: Generation)
    | Capture
    | Persist(generation: Generation)
    | ReleaseCall(index: nat)

  // A gate together with the permits handed out and not yet released.
  datatype Session = Session(gate: Gate, held: seq<Permit>)

  const Fresh := Session(InitialGate, [])

  // Only permit holders release, and finish_off follows a stop or a fault.
  predicate Allowed(s: Session, call: Call) {
    match call
    case ReleaseCall(i) => i < |s.held|
    case Finish(_) => s.gate.c.state == Stopping || s.gate.c.state == Faulted
    case _ => true
  }

  function Keep(s: Session, called: Called<Permit>): Session {
    Session(called.gate, if called.result.Ok? then s.held + [called.result.value] else s.held)
  }

  function Perform(s: Session, call: Call): Session
    requires Allowed(s, call)
  {
    match call
    case Start(reason, revision) => s.(gate := BeginStart(s.gate, reason, revision).gate)
    case Record(generation, reason) => s.(gate := MarkRecording(s.gate, generation, reason).gate)
    case PauseCall(reason) => s.(gate := Pause(s.gate, reason).gate)
    case ResumeCall(reason) => s.(gate := Resume(s.gate, reason).gate)
    case Invalidate(reason) => s.(gate := InvalidateAndPause(s.gate, reason).gate)
    case Stop(reason) => s.(gate := BeginStopping(s.gate, reason).gate)
    case Finish(reason) => s.(gate := FinishOff(s.gate, reason).gate)
    case FaultCall(reason) => s.(gate := Fault(s.gate, reason).gate)
    case Preflight(generation) => Keep(s, AcquirePreflight(s.gate, generation))
    case Capture => Keep(s, AcquireCapture(s.gate))
    case Persist(generation) => Keep(s, AcquirePersistence(s.gate, generation))
    case ReleaseCall(i) =>
      Session(Release(s.gate, s.held[i].generation), s.held[..i] + s.held[i + 1..])
  }

  predicate Runs(s: Session, calls: seq<Call>)
    decreases |calls|
  {
    calls == [] || (Allowed(s, calls[0]) && Runs(Perform(s, calls[0]), calls[1..]))
  }

  function After(s: Session, calls: seq<Call>): Session
    requires Runs(s, calls)
    decreases |calls|
  {
    if calls == [] then s else After(Perform(s, calls[0]), calls[1..])
  }

  // The generations of the held permits, with multiplicity.
  function Generations(held: seq<Permit>): multiset<Generation> {
    if held == [] then multiset{} else multiset{held[0].generation} + Generations(held[1..])
  }

  lemma {:induction false} GenerationsSplit(a: seq<Permit>, b: seq<Permit>)
    ensures Generations(a + b) == Generations(a) + Generations(b)
  {
    if a == [] {
      assert a + b == b;
    } else {
      assert (a + b)[1..] == a[1..] + b;
      GenerationsSplit(a[1..], b);
    }
  }

  lemma {:induction false} GenerationsRemove(held: seq<Permit>, i: nat)
    requires i < |held|
    ensures Generations(held) == Generations(held[..i] + held[i + 1..]) + multiset{held[i].generation}
  {
    assert held == held[..i] + ([held[i]] + held[i + 1..]);
    GenerationsSplit(held[..i], [held[i]] + held[i + 1..]);
    GenerationsSplit([held[i]], held[i + 1..]);
    GenerationsSplit(held[..i], held[i + 1..]);
    assert Generations([held[i]]) == multiset{held[i].generation};
  }

  predicate SessionInv(s: Session) {
    && GateInv(s.gate)
    && s.gate.w.inFlight == Generations(s.held)
    && (forall p :: p in s.held ==> p.generation in s.gate.w.events)
  }

  lemma StartKeeps(g: Gate, reason: TransitionReason, revision: Revision)
    requires GateInv(g)
    ensures GateInv(BeginStart(g, reason, revision).gate)
  {
  }

  lemma InvalidateKeeps(g: Gate, reason: TransitionReason)
    requires GateInv(g)
    ensures GateInv(InvalidateAndPause(g, reason).gate)
  {
  }

  lemma StopKeeps(g: Gate, reason: TransitionReason)
    requires GateInv(g)
    ensures GateInv(BeginStopping(g, reason).gate)
  {
  }

  lemma FaultKeeps(g: Gate, reason: TransitionReason)
    requires GateInv(g)
    ensures GateInv(Fault(g, reason).gate)
  {
  }

  lemma FinishKeeps(g: Gate, reason: TransitionReason)
    requires GateInv(g) && g.c.state != Starting
    ensures GateInv(FinishOff(g, reason).gate)
  {
  }

  lemma SwitchFrame(g: Gate, c: Control)
    requires GateInv(g) && ControlInv(c) && c.state != Off
    requires c.active == g.c.active && c.epoch == g.c.epoch
    ensures GateInv(g.(c := c))
  {
  }

  lemma SwitchControl(c: Control, generation: Generation, reason: TransitionReason)
    requires ControlInv(c)
    ensures var moved := MarkRecordingControl(c, generation, reason);
            if moved.result.Ok? then SameSession(c, moved.c) else moved.c == c
    ensures var moved := PauseControl(c, reason); if moved.result.Ok? then SameSession(c, moved.c) else moved.c == c
    ensures var moved := ResumeControl(c, reason); if moved.result.Ok? then SameSession(c, moved.c) else moved.c == c
  {
  }

  predicate SameSession(c: Control, c': Control) {
    ControlInv(c') && c'.state != Off && c'.active == c.active && c'.epoch == c.epoch
  }

  lemma SwitchKeeps(g: Gate, generation: Generation, reason: TransitionReason)
    requires GateInv(g)
    ensures GateInv(MarkRecording(g, generation, reason).gate)
    ensures GateInv(Pause(g, reason).gate)
    ensures GateInv(Resume(g, reason).gate)
  {
    hide ControlInv, WorkInv, MarkRecordingControl, PauseControl, ResumeControl;
    SwitchControl(g.c, generation, reason);
    if MarkRecordingControl(g.c, generation, reason).result.Ok? {
      SwitchFrame(g, MarkRecordingControl(g.c, generation, reason).c);
    }
    if PauseControl(g.c, reason).result.Ok? {
      SwitchFrame(g, PauseControl(g.c, reason).c);
    }
    if ResumeControl(g.c, reason).result.Ok? {
      SwitchFrame(g, ResumeControl(g.c, reason).c);
    }
    assert g.(c := g.c) == g;
  }

  // Registering admits exactly one operation more, of the active generation.
  lemma RegisterKeeps(g: Gate, generation: Generation)
    requires GateInv(g) && g.c.active == Some(generation)
    ensures Register(g, generation).result == Ok(Permit(generation, g.c.revision.value))
    ensures GateInv(Register(g, generation).gate)
  {
  }

  lemma ReleaseKeeps(g: Gate, generation: Generation)
    requires GateInv(g)
    ensures GateInv(Release(g, generation))
    ensures Release(g, generation).w.events == g.w.events
  {
  }

  // Lifecycle operations never forget an event and never touch the counts.
  lemma LifecycleFrame(s: Session, call: Call)
    requires Allowed(s, call)
    requires !call.Preflight? && !call.Capture? && !call.Persist? && !call.ReleaseCall?
    ensures var s' := Perform(s, call);
            && s'.held == s.held
            && s'.gate.w.inFlight == s.gate.w.inFlight
            && s.gate.w.events.Keys <= s'.gate.w.events.Keys
  {
  }

  lemma LifecycleCallKeepsInvariant(s: Session, call: Call)
    requires SessionInv(s) && Allowed(s, call)
    requires !call.Preflight? && !call.Capture? && !call.Persist? && !call.ReleaseCall?
    ensures SessionInv(Perform(s, call))
  {
    LifecycleFrame(s, call);
    match call
    case Start(reason, revision) => StartKeeps(s.gate, reason, revision);
    case Record(generation, reason) => SwitchKeeps(s.gate, generation, reason);
    case PauseCall(reason) => SwitchKeeps(s.gate, 1, reason);
    case ResumeCall(reason) => SwitchKeeps(s.gate, 1, reason);
    case Invalidate(reason) => InvalidateKeeps(s.gate, reason);
    case Stop(reason) => StopKeeps(s.gate, reason);
    case Finish(reason) => FinishKeeps(s.gate, reason);
    case FaultCall(reason) => FaultKeeps(s.gate, reason);
  }

  // An acquisition either raises and changes nothing or registers the active generation.
  predicate Admission(g: Gate, called: Called<Permit>) {
    || (called.gate == g && called.result.Err?)
    || (g.c.active.Some? && called == Register(g, g.c.active.value))
  }

  lemma AcquisitionsAreAdmissions(g: Gate, generation: Generation)
    ensures Admission(g, AcquirePreflight(g, generation))
    ensures Admission(g, AcquireCapture(g))
    ensures Admission(g, AcquirePersistence(g, generation))
  {
  }

  lemma AcquiredKeeps(s: Session, called: Called<Permit>)
    requires SessionInv(s) && Admission(s.gate, called)
    ensures SessionInv(Keep(s, called))
  {
    if called.result.Ok? {
      RegisterKeeps(s.gate, s.gate.c.active.value);
      GenerationsSplit(s.held, [called.result.value]);
    }
  }

  lemma ReleasedKeeps(s: Session, i: nat)
    requires SessionInv(s) && i < |s.held|
    ensures SessionInv(Session(Release(s.gate, s.held[i].generation), s.held[..i] + s.held[i + 1..]))
  {
    var p := s.held[i];
    var rest := s.held[..i] + s.held[i + 1..];
    GenerationsRemove(s.held, i);
    ReleaseKeeps(s.gate, p.generation);
    assert Release(s.gate, p.generation).w.inFlight == Generations(rest);
    assert forall q :: q in rest ==> q in s.held;
  }

  lemma WorkCallKeepsInvariant(s: Session, call: Call)
    requires SessionInv(s) && Allowed(s, call)
    requires call.Preflight? || call.Capture? || call.Persist? || call.ReleaseCall?
    ensures SessionInv(Perform(s, call))
  {
    match call
    case ReleaseCall(i) =>
      ReleasedKeeps(s, i);
    case Preflight(generation) =>
      AcquisitionsAreAdmissions(s.gate, generation);
      AcquiredKeeps(s, AcquirePreflight(s.gate, generation));
    case Capture =>
      AcquisitionsAreAdmissions(s.gate, 1);
      AcquiredKeeps(s, AcquireCapture(s.gate));
    case Persist(generation) =>
      AcquisitionsAreAdmissions(s.gate, generation);
      AcquiredKeeps(s, AcquirePersistence(s.gate, generation));
  }

  lemma CallKeepsInvariant(s: Session, call: Call)
    requires SessionInv(s) && Allowed(s, call)
    ensures SessionInv(Perform(s, call))
  {
    if call.Preflight? || call.Capture? || call.Persist? || call.ReleaseCall? {
      WorkCallKeepsInvariant(s, call);
    } else {
      LifecycleCallKeepsInvariant(s, call);
    }
  }

  lemma {:induction false} RunKeepsInvariant(s: Session, calls: seq<Call>)
    requires SessionInv(s) && Runs(s, calls)
    ensures SessionInv(After(s, calls))
    decreases |calls|
  {
    if calls != [] {
      CallKeepsInvariant(s, calls[0]);
      RunKeepsInvariant(Perform(s, calls[0]), calls[1..]);
    }
  }

  // In every reachable state the in-flight dictionary counts the outstanding
  // permits, and a permit is cancelled exactly when its generation is not active.
  lemma PermitsFollowTheActiveGeneration(calls: seq<Call>)
    requires Runs(Fresh, calls)
    ensures var s := After(Fresh, calls);
            && s.gate.w.inFlight == Generations(s.held)
            && (forall p :: p in s.held ==>
                  && p.generation in s.gate.w.events
                  && (Cancelled(s.gate, p) <==> s.gate.c.active != Some(p.generation)))
  {
    RunKeepsInvariant(Fresh, calls);
  }

  // Each acquisition succeeds exactly on its documented guard, so the raises for
  // a missing event or a missing revision inside registration cannot happen.
  lemma RegistrationNeverRaises(calls: seq<Call>, generation: Generation)
    requires Runs(Fresh, calls)
    ensures var g := After(Fresh, calls).gate;
            && (AcquireCapture(g).result.Ok? <==> g.c.state == Recording)
            && (AcquirePreflight(g, generation).result.Ok?
                <==> g.c.state == Starting && g.c.active == Some(generation))
            && (AcquirePersistence(g, generation).result.Ok?
                <==> CurrentGenerationError(g, generation).None?)
            && AcquireCapture(g).result != Err(EventStale) && AcquireCapture(g).result != Err(RevisionMissing)
            && AcquirePreflight(g, generation).result != Err(EventStale)
            && AcquirePreflight(g, generation).result != Err(RevisionMissing)
            && AcquirePersistence(g, generation).result != Err(EventStale)
            && AcquirePersistence(g, generation).result != Err(RevisionMissing)
  {
    RunKeepsInvariant(Fresh, calls);
  }

  // A generation that has been handed out and is not the active one.
  predicate Past(g: Gate, v: Generation) {
    v <= g.c.epoch && g.c.active != Some(v)
  }

  lemma LifecycleKeepsPast(s: Session, call: Call, v: Generation)
    requires Allowed(s, call) && Past(s.gate, v)
    requires !call.Preflight? && !call.Capture? && !call.Persist? && !call.ReleaseCall?
    ensures Past(Perform(s, call).gate, v)
  {
  }

  lemma WorkKeepsPast(s: Session, call: Call, v: Generation)
    requires Allowed(s, call) && Past(s.gate, v)
    requires call.Preflight? || call.Capture? || call.Persist? || call.ReleaseCall?
    ensures Past(Perform(s, call).gate, v) && Perform(s, call).gate.w.inFlight[v] <= s.gate.w.inFlight[v]
  {
  }

  lemma CallKeepsPast(s: Session, call: Call, v: Generation)
    requires Allowed(s, call) && Past(s.gate, v)
    ensures var s' := Perform(s, call);
            && Past(s'.gate, v)
            && s'.gate.w.inFlight[v] <= s.gate.w.inFlight[v]
  {
    hide Perform, Past;
    if call.Preflight? || call.Capture? || call.Persist? || call.ReleaseCall? {
      WorkKeepsPast(s, call, v);
    } else {
      LifecycleKeepsPast(s, call, v);
      LifecycleFrame(s, call);
    }
  }

  // Once retired, a generation stays retired, its in-flight count only falls (so
  // zero is stable) and no persistence operation is ever admitted for it again.
  lemma {:induction false} RetiredGenerationOnlyDrains(before: seq<Call>, after: seq<Call>, v: Generation)
    requires Runs(Fresh, before) && Runs(After(Fresh, before), after)
    requires Past(After(Fresh, before).gate, v)
    ensures var g := After(Fresh, before).gate;
            var g' := After(After(Fresh, before), after).gate;
            && Past(g', v)
            && g'.w.inFlight[v] <= g.w.inFlight[v]
            && AcquirePersistence(g', v).result.Err?
            && AcquirePreflight(g', v).result.Err?
            && (AcquireCapture(g').result.Ok? ==> AcquireCapture(g').result.value.generation != v)
  {
    hide Perform, Allowed, SessionInv, AcquirePersistence, AcquirePreflight, AcquireCapture;
    FreshInv();
    RunKeepsInvariant(Fresh, before);
    RetiredFrom(After(Fresh, before), after, v);
    RetiredIsRefused(After(After(Fresh, before), after).gate, v);
  }

  lemma FreshInv()
    ensures SessionInv(Fresh)
  {
  }

  lemma RetiredIsRefused(g: Gate, v: Generation)
    requires Past(g, v)
    ensures AcquirePersistence(g, v).result.Err? && AcquirePreflight(g, v).result.Err?
    ensures AcquireCapture(g).result.Ok? ==> AcquireCapture(g).result.value.generation != v
  {
  }

  lemma {:induction false} RetiredFrom(s: Session, calls: seq<Call>, v: Generation)
    requires SessionInv(s) && Runs(s, calls) && Past(s.gate, v)
    ensures Past(After(s, calls).gate, v)
    ensures After(s, calls).gate.w.inFlight[v] <= s.gate.w.inFlight[v]
    decreases |calls|
  {
    if calls != [] {
      CallKeepsPast(s, calls[0], v);
      CallKeepsInvariant(s, calls[0]);
      RetiredFrom(Perform(s, calls[0]), calls[1..], v);
    }
  }

  // Stop, fault and automatic pause retire the generation they find active.
  lemma InvalidationRetires(g: Gate, reason: TransitionReason, v: Generation)
    requires GateInv(g) && g.c.active == Some(v)
    ensures Past(InvalidateAndPause(g, reason).gate, v)
    ensures Past(BeginStopping(g, reason).gate, v)
    ensures Past(Fault(g, reason).gate, v)
  {
  }

  // finish_off leaves the invariant intact exactly when it is not called from
  // STARTING, where it would go to OFF without signalling the active event.
  lemma FinishOffNeedsInvalidation(g: Gate, reason: TransitionReason)
    requires GateInv(g)
    ensures GateInv(FinishOff(g, reason).gate) <==> g.c.state != Starting
  {
    if g.c.state == Starting {
      var v := g.c.active.value;
      assert v in g.w.events && !g.w.events[v];
      var g' := FinishOff(g, reason).gate;
      assert v in g'.w.events && !g'.w.events[v] && g'.c.active == None;
    }
  }

  // A refused stop or fault still moves the epoch, and nothing a permit can see.
  lemma RefusedInvalidationMovesTheEpoch(g: Gate, reason: TransitionReason)
    requires GateInv(g)
    ensures BeginStopping(g, reason).result.Err? <==> !IsActiveState(g.c.state)
    ensures BeginStopping(g, reason).result.Err? ==>
              BeginStopping(g, reason).gate == g.(c := g.c.(epoch := g.c.epoch + 1))
    ensures Fault(g, reason).result.Err? <==> g.c.state == Faulted
    ensures Fault(g, reason).result.Err? ==>
              Fault(g, reason).gate == g.(c := g.c.(epoch := g.c.epoch + 1, healthy := false))
  {
  }
}
