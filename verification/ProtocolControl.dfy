/** Every step of the lifecycle owner keeps the invariant. */
module ProtocolControl {
  import opened Wrappers
  import opened Lifecycle
  import opened GateModel
  import GateTheorems
  import opened PipelineModel
  import opened Protocol
  import opened ProtocolInvariant

  // ---------- the flow of messages ----------

  // Sessions are only added, and the drain bookkeeping is not read by messages.
  predicate Extends(h: History, h': History) {
    && h'.accepted == h.accepted
    && h'.committed == h.committed
    && (forall g :: g in h.sessions ==> g in h'.sessions && h'.sessions[g] == h.sessions[g])
  }

  lemma ExtendingKeepsMessages(edges: seq<Edge>, workers: seq<Worker>, h: History, h': History)
    requires |edges| == 4 && |workers| == 4 && Provenance(edges, workers, h) && Extends(h, h')
    ensures Provenance(edges, workers, h')
  {
    assert forall k, n | 0 <= k < 4 && MessageOk(h, k, n) :: MessageOk(h', k, n);
    forall k | 0 <= k < 4
      ensures QueueOk(h', k, edges[k].queue) && PcOk(h', k, workers[k].pc)
    {
      assert QueueOk(h, k, edges[k].queue) && PcOk(h, k, workers[k].pc);
    }
  }

  lemma ExtendingKeepsItems(ingress: IngressPc, slot: Option<Item>, h: History, h': History)
    requires Extends(h, h') && IngressOk(ingress, h) && SlotOk(slot, h) && AcceptedOk(h)
    ensures IngressOk(ingress, h') && SlotOk(slot, h') && AcceptedOk(h')
  {
  }

  lemma ExtendingKeepsFlow(edges: seq<Edge>, workers: seq<Worker>, ingress: IngressPc, slot: Option<Item>, h: History,
                           slot': Option<Item>, h': History)
    requires FlowInv(edges, workers, ingress, slot, h) && Extends(h, h')
    requires slot' == slot || slot' == None
    ensures FlowInv(edges, workers, ingress, slot', h')
  {
    ExtendingKeepsMessages(edges, workers, h, h');
    ExtendingKeepsItems(ingress, slot', h, h');
    assert Levels(edges, workers, h') == Levels(edges, workers, h);
  }

  lemma SlotOnlyEmpties(s: State, a: ControlAction)
    requires ControlEnabled(s, a)
    ensures ControlSlot(s, a) == s.slot || ControlSlot(s, a) == None
  {
  }

  lemma NewSessionExtends(gate: Gate, h: History, revision: Revision)
    requires Sessions(gate, h) && GateInv(gate)
    ensures Extends(h, h.(sessions := h.sessions[gate.c.epoch + 1 := revision]))
  {
    assert gate.c.epoch + 1 !in gate.w.events;
  }

  // ---------- the gate ----------

  predicate SameWorkCounts(gate: Gate, gate': Gate) {
    && GateInv(gate') && gate'.w.inFlight == gate.w.inFlight
    && (gate'.c.draining.Some? ==> gate'.c.draining.value in gate'.w.events)
  }

  // A fresh generation became the active one.
  predicate Activated(gate: Gate, gate': Gate, revision: Revision) {
    && SameWorkCounts(gate, gate')
    && gate'.c.active == Some(gate.c.epoch + 1)
    && gate'.c.revision == Some(revision)
    && gate'.w.events.Keys == gate.w.events.Keys + {gate.c.epoch + 1}
  }

  // No generation is active any more.
  predicate Deactivated(gate: Gate, gate': Gate) {
    && SameWorkCounts(gate, gate')
    && gate'.c.active == None
    && gate'.w.events.Keys == gate.w.events.Keys
  }

  // Recording and pausing within one generation.
  predicate Switched(gate: Gate, gate': Gate) {
    && GateInv(gate')
    && gate' == gate.(c := gate.c.(state := gate'.c.state))
    && (gate'.c.state == Recording || gate'.c.state == Paused)
  }

  lemma StartActivates(gate: Gate, reason: TransitionReason, revision: Revision)
    requires GateInv(gate) && gate.c.state == Off
    ensures Activated(gate, BeginStart(gate, reason, revision).gate, revision)
    ensures BeginStart(gate, reason, revision).gate.c.state == Starting
  {
    GateTheorems.StartKeeps(gate, reason, revision);
  }

  lemma InvalidationActivates(gate: Gate, h: History, reason: TransitionReason)
    requires GateInv(gate) && Sessions(gate, h) && IsActiveState(gate.c.state)
    ensures Activated(gate, InvalidateAndPause(gate, reason).gate, gate.c.revision.value)
    ensures InvalidateAndPause(gate, reason).gate.c.state == Paused
  {
    GateTheorems.InvalidateKeeps(gate, reason);
  }

  lemma StopDeactivates(gate: Gate, h: History, reason: TransitionReason)
    requires GateInv(gate) && Sessions(gate, h) && IsActiveState(gate.c.state)
    ensures Deactivated(gate, BeginStopping(gate, reason).gate)
    ensures BeginStopping(gate, reason).gate.c.state == Stopping
  {
    GateTheorems.StopKeeps(gate, reason);
  }

  lemma FaultDeactivates(gate: Gate, h: History, reason: TransitionReason)
    requires GateInv(gate) && Sessions(gate, h) && gate.c.state != Faulted
    ensures Deactivated(gate, Fault(gate, reason).gate)
    ensures Fault(gate, reason).gate.c.state == Faulted
  {
    GateTheorems.FaultKeeps(gate, reason);
  }

  lemma FinishDeactivates(gate: Gate, reason: TransitionReason)
    requires GateInv(gate) && (gate.c.state == Stopping || gate.c.state == Faulted)
    ensures Deactivated(gate, FinishOff(gate, reason).gate)
    ensures FinishOff(gate, reason).gate.c.state == Off
  {
    GateTheorems.FinishKeeps(gate, reason);
  }

  lemma SwitchSwitches(gate: Gate, reason: TransitionReason)
    requires GateInv(gate)
    ensures gate.c.state == Starting ==> Switched(gate, MarkRecording(gate, gate.c.active.value, reason).gate)
    ensures gate.c.state == Recording ==> Switched(gate, Pause(gate, reason).gate)
    ensures gate.c.state == Paused ==> Switched(gate, Resume(gate, reason).gate)
  {
    if gate.c.active.Some? {
      GateTheorems.SwitchKeeps(gate, gate.c.active.value, reason);
    }
  }

  // ---------- the gate: registered operations ----------

  // Everything committed so far is older than the next generation.
  predicate CommittedKnown(gate: Gate, h: History) {
    forall i :: 0 <= i < |h.committed| ==> h.committed[i].item.generation <= gate.c.epoch
  }

  lemma CommittedAreKnown(gate: Gate, edges: seq<Edge>, workers: seq<Worker>, h: History)
    requires |edges| == 4 && |workers| == 4 && Provenance(edges, workers, h)
    requires GateInv(gate) && Sessions(gate, h)
    ensures CommittedKnown(gate, h)
  {
    forall i | 0 <= i < |h.committed| ensures h.committed[i].item.generation <= gate.c.epoch {
      assert MessageOk(h, 3, h.committed[i]);
    }
  }

  predicate NotCommitting(pc: Pc) {
    !pc.Committing? && !pc.Persisted?
  }

  // Invalidations wait for the commit lock, and the other operations need a state
  // in which nothing is being committed.
  lemma NobodyCommits(gate: Gate, commitLock: bool, pc: Pc)
    requires CommitLockHeld(commitLock, pc) && CommitSafe(gate, pc)
    requires !commitLock || (gate.c.state != Recording && gate.c.state != Paused)
    ensures NotCommitting(pc)
  {
  }

  lemma ActivatingKeepsOperations(gate: Gate, commitLock: bool, ingress: IngressPc, preflight: Option<Permit>, pc: Pc,
                                  h: History, gate': Gate, revision: Revision, h': History)
    requires OperationInv(gate, commitLock, ingress, preflight, pc, h) && NotCommitting(pc)
    requires Activated(gate, gate', revision) && CommittedKnown(gate, h)
    requires h' == h.(sessions := h.sessions[gate.c.epoch + 1 := revision])
    ensures OperationInv(gate', commitLock, ingress, preflight, pc, h')
  {
  }

  lemma DeactivatingKeepsOperations(gate: Gate, commitLock: bool, ingress: IngressPc, preflight: Option<Permit>, pc: Pc,
                                    h: History, gate': Gate, h': History)
    requires OperationInv(gate, commitLock, ingress, preflight, pc, h) && NotCommitting(pc)
    requires Deactivated(gate, gate')
    requires h'.sessions == h.sessions && h'.committed == h.committed
    ensures OperationInv(gate', commitLock, ingress, preflight, pc, h')
  {
  }

  lemma SwitchingKeepsOperations(gate: Gate, commitLock: bool, ingress: IngressPc, preflight: Option<Permit>, pc: Pc,
                                 h: History, gate': Gate)
    requires OperationInv(gate, commitLock, ingress, preflight, pc, h) && Switched(gate, gate')
    ensures OperationInv(gate', commitLock, ingress, preflight, pc, h)
  {
  }

  // ---------- the drains ----------

  // No lifecycle operation revives a retired generation or anything of it.
  lemma ActivatingStaysQuiet(gate: Gate, gate': Gate, revision: Revision, edges: seq<Edge>, slot: Option<Item>)
    requires |edges| == 4 && GateInv(gate) && Activated(gate, gate', revision)
    ensures StaysQuiet(gate, edges, slot, gate', edges, slot)
  {
  }

  lemma DeactivatingStaysQuiet(gate: Gate, gate': Gate, edges: seq<Edge>, slot: Option<Item>, slot': Option<Item>)
    requires |edges| == 4 && Deactivated(gate, gate') && (slot' == slot || slot' == None)
    ensures StaysQuiet(gate, edges, slot, gate', edges, slot')
  {
  }

  lemma StartKeepsDrains(gate: Gate, edges: seq<Edge>, slot: Option<Item>, control: ControlPc, h: History,
                         gate': Gate, revision: Revision, h': History)
    requires |edges| == 4 && GateInv(gate) && DrainInv(gate, edges, slot, control, h)
    requires gate.c.state == Off && control.Ready?
    requires Activated(gate, gate', revision) && gate'.c.state == Starting
    requires h'.drained == h.drained && h'.abandoned == h.abandoned
    ensures DrainInv(gate', edges, slot, control, h')
  {
    ActivatingStaysQuiet(gate, gate', revision, edges, slot);
  }

  lemma SwitchKeepsDrains(gate: Gate, edges: seq<Edge>, slot: Option<Item>, control: ControlPc, h: History, gate': Gate)
    requires |edges| == 4 && DrainInv(gate, edges, slot, control, h) && control.Ready? && Switched(gate, gate')
    ensures DrainInv(gate', edges, slot, control, h)
  {
  }

  // An automatic pause and a stop hand the active generation to a fresh drain.
  lemma InvalidatingKeepsDrains(gate: Gate, edges: seq<Edge>, slot: Option<Item>, control: ControlPc, h: History,
                                gate': Gate, revision: Revision, control': ControlPc, h': History)
    requires |edges| == 4 && GateInv(gate) && DrainInv(gate, edges, slot, control, h)
    requires control.Ready? && gate.c.active.Some?
    requires || (Activated(gate, gate', revision) && gate'.c.state == Paused
                 && control' == Draining(gate.c.active, ToPaused, Cancel, true))
             || (Deactivated(gate, gate') && gate'.c.state == Stopping
                 && control' == Draining(gate.c.active, ToOff, Cancel, true))
    requires h'.drained == h.drained && h'.abandoned == h.abandoned
    ensures DrainInv(gate', edges, slot, control', h')
  {
    if gate'.c.active.Some? {
      ActivatingStaysQuiet(gate, gate', revision, edges, slot);
    } else {
      DeactivatingStaysQuiet(gate, gate', edges, slot, slot);
    }
    assert gate.c.active.value in gate.w.events;
  }

  // A fault abandons the active generation and the one being drained.
  lemma FaultKeepsDrains(gate: Gate, edges: seq<Edge>, slot: Option<Item>, control: ControlPc, h: History,
                         gate': Gate, control': ControlPc, h': History)
    requires |edges| == 4 && GateInv(gate) && Sessions(gate, h) && DrainInv(gate, edges, slot, control, h)
    requires Deactivated(gate, gate') && gate'.c.state == Faulted
    requires control' == Ready || control' == BeginDrain(FaultedGeneration(gate.c), AfterFault)
    requires h'.drained == h.drained
    requires h'.abandoned == h.abandoned + Options(gate.c.active)
                             + if control.Draining? then Options(control.generation) else {}
    ensures DrainInv(gate', edges, slot, control', h')
  {
    DeactivatingStaysQuiet(gate, gate', edges, slot, slot);
  }

  // ---------- steps inside a drain ----------

  predicate SameDrain(control: ControlPc, control': ControlPc) {
    && control.Draining? && control'.Draining?
    && control'.generation == control.generation && control'.purpose == control.purpose
    && (control'.ok ==> control.ok)
  }

  // A drain that moves on must have established what its next point asks for.
  lemma AdvancingKeepsDrains(gate: Gate, edges: seq<Edge>, slot: Option<Item>, control: ControlPc, h: History,
                             slot': Option<Item>, control': ControlPc)
    requires |edges| == 4 && DrainInv(gate, edges, slot, control, h)
    requires slot' == slot || slot' == None
    requires SameDrain(control, control')
    requires control.generation.None? ==> Clearing(control'.point)
    requires control'.ok && control.generation.Some? ==>
               Established(gate, edges, slot', control.generation.value, control'.point)
    ensures DrainInv(gate, edges, slot', control', h)
  {
    assert StaysQuiet(gate, edges, slot, gate, edges, slot');
  }

  // One more wait that saw zero.
  lemma OneMoreEdge(gate: Gate, edges: seq<Edge>, slot: Option<Item>, v: Generation, k: nat)
    requires |edges| == 4 && k < 4 && QuietUpTo(gate, edges, v, k) && edges[k].credits[v] == 0
    ensures Established(gate, edges, slot, v, if k == 3 then CheckSlot else AwaitEdge(k + 1))
  {
    assert QuietUpTo(gate, edges, v, k + 1);
  }

  lemma DrainStepKeepsDrains(s: State, a: ControlAction, slot': Option<Item>, control': ControlPc)
    requires |s.edges| == 4 && DrainInv(s.gate, s.edges, s.slot, s.control, s.history) && ControlEnabled(s, a)
    requires DrainAction(a)
    requires slot' == ControlSlot(s, a) && control' == ControlAfter(s, a)
    ensures DrainInv(s.gate, s.edges, slot', control', s.history)
  {
    SlotOnlyEmpties(s, a);
    if a.SeeEdge? && !a.timeout && s.control.ok {
      OneMoreEdge(s.gate, s.edges, s.slot, s.control.generation.value, s.control.point.k);
    }
    AdvancingKeepsDrains(s.gate, s.edges, s.slot, s.control, s.history, slot', control');
  }

  lemma StopFaultedKeepsDrains(gate: Gate, edges: seq<Edge>, slot: Option<Item>, control: ControlPc, h: History)
    requires |edges| == 4 && DrainInv(gate, edges, slot, control, h) && control.Ready? && gate.c.state == Faulted
    ensures DrainInv(gate, edges, slot, BeginDrain(None, ToOff), h)
  {
  }

  // ---------- the end of a drain ----------

  // A clean drain adds its generation to the drained ones.
  lemma CleanDrain(gate: Gate, edges: seq<Edge>, slot: Option<Item>, control: ControlPc, h: History, h': History)
    requires |edges| == 4 && DrainInv(gate, edges, slot, control, h)
    requires control.Draining? && control.point == Complete && control.ok
    requires h'.drained == h.drained + Options(control.generation) && h'.abandoned == h.abandoned
    ensures DrainedAreClean(gate, edges, slot, h'.drained)
    ensures Accounted(gate, Ready, h')
  {
  }

  lemma EndedKeepsDrains(gate: Gate, edges: seq<Edge>, slot: Option<Item>, control: ControlPc, h: History, h': History)
    requires |edges| == 4 && DrainInv(gate, edges, slot, control, h) && control.Draining? && control.point == Complete
    requires control.purpose == ToPaused && control.ok ==>
               h'.drained == h.drained + Options(control.generation) && h'.abandoned == h.abandoned
    requires control.purpose != ToPaused || !control.ok ==>
               gate.c.state == Faulted && h' == h
    ensures DrainInv(gate, edges, slot, Ready, h')
  {
    if control.purpose == ToPaused && control.ok {
      CleanDrain(gate, edges, slot, control, h, h');
    }
  }

  // The last step of a stop: the drained generation is recorded and the gate closes.
  lemma FinishedKeepsDrains(gate: Gate, edges: seq<Edge>, slot: Option<Item>, control: ControlPc, h: History,
                            gate': Gate, h': History)
    requires |edges| == 4 && DrainInv(gate, edges, slot, control, h)
    requires control.Draining? && control.point == Complete && control.ok && control.purpose == ToOff
    requires Deactivated(gate, gate') && gate'.c.state == Off && gate.c.active == None
    requires h'.drained == h.drained + Options(control.generation) && h'.abandoned == h.abandoned
    ensures DrainInv(gate', edges, slot, Ready, h')
  {
    CleanDrain(gate, edges, slot, control, h, h');
    DeactivatingStaysQuiet(gate, gate', edges, slot, slot);
  }

  // ---------- the steps ----------

  lemma ActivationKeepsFlow(s: State, revision: Revision, h': History)
    requires Inv(s)
    requires h' == s.history.(sessions := s.history.sessions[s.gate.c.epoch + 1 := revision])
    ensures FlowInv(s.edges, s.workers, s.ingress, s.slot, h')
  {
    NewSessionExtends(s.gate, s.history, revision);
    ExtendingKeepsFlow(s.edges, s.workers, s.ingress, s.slot, s.history, s.slot, h');
  }

  lemma ActivationKeepsOperations(edges: seq<Edge>, workers: seq<Worker>, gate: Gate, commitLock: bool,
                                  ingress: IngressPc, preflight: Option<Permit>, h: History,
                                  gate': Gate, revision: Revision, h': History)
    requires |edges| == 4 && |workers| == 4 && Provenance(edges, workers, h)
    requires OperationInv(gate, commitLock, ingress, preflight, workers[3].pc, h)
    requires !commitLock || gate.c.state == Off
    requires Activated(gate, gate', revision)
    requires h' == h.(sessions := h.sessions[gate.c.epoch + 1 := revision])
    ensures OperationInv(gate', commitLock, ingress, preflight, workers[3].pc, h')
  {
    CommittedAreKnown(gate, edges, workers, h);
    NobodyCommits(gate, commitLock, workers[3].pc);
    ActivatingKeepsOperations(gate, commitLock, ingress, preflight, workers[3].pc, h, gate', revision, h');
  }

  lemma StartEffect(s: State, reason: TransitionReason, revision: Revision)
    requires ControlEnabled(s, StartSession(reason, revision))
    ensures var s' := ApplyControl(s, StartSession(reason, revision));
            && s'.gate == BeginStart(s.gate, reason, revision).gate
            && s'.history == s.history.(sessions := s.history.sessions[s.gate.c.epoch + 1 := revision])
            && s'.control == s.control && s'.slot == s.slot
  {
  }

  lemma StartKeepsInv(s: State, reason: TransitionReason, revision: Revision)
    requires Inv(s) && ControlEnabled(s, StartSession(reason, revision))
    ensures Inv(ApplyControl(s, StartSession(reason, revision)))
  {
    hide Credits, IngressOk, SlotOk, AcceptedOk, Provenance, Ordered, Levels, WorkInv;
    hide DrainProgress, DrainedAreClean, Accounted, Sessions, CommitOrder, Operations;
    var s' := ApplyControl(s, StartSession(reason, revision));
    StartEffect(s, reason, revision);
    StartActivates(s.gate, reason, revision);
    ActivationKeepsFlow(s, revision, s'.history);
    ActivationKeepsOperations(s.edges, s.workers, s.gate, s.commitLock, s.ingress, s.preflight, s.history,
                              s'.gate, revision, s'.history);
    StartKeepsDrains(s.gate, s.edges, s.slot, s.control, s.history, s'.gate, revision, s'.history);
  }

  lemma SwitchKeepsInv(s: State, a: ControlAction)
    requires Inv(s) && ControlEnabled(s, a)
    requires a.EnterRecording? || a.PauseSession? || a.ResumeSession?
    ensures Inv(ApplyControl(s, a))
  {
    var s' := ApplyControl(s, a);
    SwitchSwitches(s.gate, a.reason);
    assert Switched(s.gate, s'.gate);
    SwitchingKeepsOperations(s.gate, s.commitLock, s.ingress, s.preflight, s.workers[3].pc, s.history, s'.gate);
    SwitchKeepsDrains(s.gate, s.edges, s.slot, s.control, s.history, s'.gate);
  }

  lemma AutomaticPauseKeepsInv(s: State, reason: TransitionReason)
    requires Inv(s) && ControlEnabled(s, PauseAutomatically(reason))
    ensures Inv(ApplyControl(s, PauseAutomatically(reason)))
  {
    var s' := ApplyControl(s, PauseAutomatically(reason));
    var revision := s.gate.c.revision.value;
    InvalidationActivates(s.gate, s.history, reason);
    ActivationKeepsFlow(s, revision, s'.history);
    ActivationKeepsOperations(s.edges, s.workers, s.gate, s.commitLock, s.ingress, s.preflight, s.history,
                              s'.gate, revision, s'.history);
    InvalidatingKeepsDrains(s.gate, s.edges, s.slot, s.control, s.history, s'.gate, revision, s'.control, s'.history);
  }

  // What an operation that leaves no active generation keeps of the registered work.
  lemma DeactivationKeepsOperations(s: State, gate': Gate, h': History)
    requires Inv(s) && (!s.commitLock || (s.gate.c.state != Recording && s.gate.c.state != Paused))
    requires Deactivated(s.gate, gate')
    requires h'.sessions == s.history.sessions && h'.committed == s.history.committed
    ensures OperationInv(gate', s.commitLock, s.ingress, s.preflight, s.workers[3].pc, h')
  {
    NobodyCommits(s.gate, s.commitLock, s.workers[3].pc);
    DeactivatingKeepsOperations(s.gate, s.commitLock, s.ingress, s.preflight, s.workers[3].pc, s.history, gate', h');
  }

  lemma StopKeepsInv(s: State, reason: TransitionReason)
    requires Inv(s) && ControlEnabled(s, StopSession(reason))
    ensures Inv(ApplyControl(s, StopSession(reason)))
  {
    var s' := ApplyControl(s, StopSession(reason));
    StopDeactivates(s.gate, s.history, reason);
    DeactivationKeepsOperations(s, s'.gate, s.history);
    InvalidatingKeepsDrains(s.gate, s.edges, s.slot, s.control, s.history, s'.gate, "", s'.control, s.history);
  }

  // Bookkeeping of drained and abandoned generations is invisible to messages.
  lemma BookkeepingKeepsFlow(s: State, h': History)
    requires Inv(s) && h' == s.history.(drained := h'.drained, abandoned := h'.abandoned)
    ensures FlowInv(s.edges, s.workers, s.ingress, s.slot, h')
  {
    ExtendingKeepsFlow(s.edges, s.workers, s.ingress, s.slot, s.history, s.slot, h');
  }

  lemma FaultKeepsInv(s: State, reason: TransitionReason, drain: bool)
    requires Inv(s) && ControlEnabled(s, EnterFault(reason, drain))
    ensures Inv(ApplyControl(s, EnterFault(reason, drain)))
  {
    var s' := ApplyControl(s, EnterFault(reason, drain));
    FaultDeactivates(s.gate, s.history, reason);
    BookkeepingKeepsFlow(s, s'.history);
    DeactivationKeepsOperations(s, s'.gate, s'.history);
    FaultKeepsDrains(s.gate, s.edges, s.slot, s.control, s.history, s'.gate, s'.control, s'.history);
  }

  lemma DrainStepKeepsInv(s: State, a: ControlAction)
    requires Inv(s) && ControlEnabled(s, a)
    requires DrainAction(a)
    ensures Inv(ApplyControl(s, a))
  {
    var s' := ApplyControl(s, a);
    SlotOnlyEmpties(s, a);
    ExtendingKeepsFlow(s.edges, s.workers, s.ingress, s.slot, s.history, s'.slot, s.history);
    DrainStepKeepsDrains(s, a, s'.slot, s'.control);
  }

  lemma FinishKeepsInv(s: State, reason: TransitionReason)
    requires s.control.Draining? && s.control.ok && s.control.purpose == ToOff
    requires Inv(s) && ControlEnabled(s, EndDrain(reason))
    ensures Inv(ApplyControl(s, EndDrain(reason)))
  {
    hide Credits, IngressOk, SlotOk, AcceptedOk, Provenance, Ordered, Levels;
    hide DrainProgress, DrainedAreClean, Accounted, Sessions, CommitOrder, Operations;
    var s' := ApplyControl(s, EndDrain(reason));
    FinishDeactivates(s.gate, reason);
    BookkeepingKeepsFlow(s, s'.history);
    DeactivationKeepsOperations(s, s'.gate, s'.history);
    FinishedKeepsDrains(s.gate, s.edges, s.slot, s.control, s.history, s'.gate, s'.history);
  }

  lemma BookkeepingKeepsOperations(s: State, h': History)
    requires Inv(s) && h' == s.history.(drained := h'.drained, abandoned := h'.abandoned)
    ensures OperationInv(s.gate, s.commitLock, s.ingress, s.preflight, s.workers[3].pc, h')
  {
  }

  lemma EndKeepsInv(s: State, reason: TransitionReason)
    requires s.control.Draining? && (s.control.ok ==> s.control.purpose != ToOff)
    requires Inv(s) && ControlEnabled(s, EndDrain(reason))
    ensures Inv(ApplyControl(s, EndDrain(reason)))
  {
    hide Credits, IngressOk, SlotOk, AcceptedOk, Provenance, Ordered, Levels, OperationInv;
    hide DrainProgress, DrainedAreClean, Accounted;
    var s' := ApplyControl(s, EndDrain(reason));
    BookkeepingKeepsFlow(s, s'.history);
    BookkeepingKeepsOperations(s, s'.history);
    EndedKeepsDrains(s.gate, s.edges, s.slot, s.control, s.history, s'.history);
  }

  lemma StopFaultedKeepsInv(s: State)
    requires Inv(s) && ControlEnabled(s, StopFaulted)
    ensures Inv(ApplyControl(s, StopFaulted))
  {
    StopFaultedKeepsDrains(s.gate, s.edges, s.slot, s.control, s.history);
  }

  lemma ControlKeepsInv(s: State, a: ControlAction)
    requires Inv(s) && ControlEnabled(s, a)
    ensures Inv(ApplyControl(s, a))
  {
    hide FlowInv, OperationInv;
    match a {
      case StartSession(reason, revision) => StartKeepsInv(s, reason, revision);
      case EnterRecording(reason) => SwitchKeepsInv(s, a);
      case PauseSession(reason) => SwitchKeepsInv(s, a);
      case ResumeSession(reason) => SwitchKeepsInv(s, a);
      case PauseAutomatically(reason) => AutomaticPauseKeepsInv(s, reason);
      case StopSession(reason) => StopKeepsInv(s, reason);
      case StopFaulted => StopFaultedKeepsInv(s);
      case EnterFault(reason, drain) => FaultKeepsInv(s, reason, drain);
      case CancelQueued(_) => DrainStepKeepsInv(s, a);
      case SeeOperations(_) => DrainStepKeepsInv(s, a);
      case SeeEdge(_) => DrainStepKeepsInv(s, a);
      case SeeSlot => DrainStepKeepsInv(s, a);
      case ClearCoalesced => DrainStepKeepsInv(s, a);
      case SeeDrained(_) => DrainStepKeepsInv(s, a);
      case EndDrain(reason) =>
        if s.control.ok && s.control.purpose == ToOff {
          FinishKeepsInv(s, reason);
        } else {
          EndKeepsInv(s, reason);
        }
    }
  }
}
