/**
 When a stop is clean. A stop from a session drains first. A stop that acknowledges a
 fault waits for no operation and no credit, but has the stages empty their queues one
 after another; it is clean for a generation exactly when, before it, no operation of it
 is registered and no credit of it is lost.
 */
module ProtocolStops {
  import opened Wrappers
  import opened Lifecycle
  import opened GateModel
  import opened PipelineModel
  import opened Protocol
  import opened ProtocolInvariant
  import opened ProtocolTheorems
  import opened ProtocolProgress

  // The counters say it all: a generation is clean exactly when the gate, the four
  // ledgers and the coalesced slot hold nothing of it.
  lemma CleanExactly(s: State, v: Generation)
    requires Inv(s)
    ensures Clean(s, v) <==> NoResidue(s.gate, s.edges, s.slot, v)
  {
    if NoResidue(s.gate, s.edges, s.slot, v) {
      NoResidueIsClean(s, v);
    }
  }

  // The last step of a stop, from a session or from a fault.
  predicate ClosesGate(s: State, step: Step) {
    && step.OfControl? && step.control.EndDrain?
    && s.control.Draining? && s.control.ok && s.control.purpose == ToOff
  }

  lemma FinishedGate(gate: Gate, reason: TransitionReason)
    requires GateInv(gate) && (gate.c.state == Stopping || gate.c.state == Faulted)
    ensures var gate' := FinishOff(gate, reason).gate;
            && gate'.c.state == Off && gate'.c.active == None
            && gate'.w.inFlight == gate.w.inFlight && gate'.w.events == gate.w.events
  {
  }

  // What a step of the owner leaves of the residue, and where a stop ends.
  predicate Closed(s: State, s': State) {
    && s'.gate.c.state == Off && s'.gate.c.active == None
    && s'.gate.w.inFlight == s.gate.w.inFlight && s'.gate.w.events == s.gate.w.events
    && s'.edges == s.edges
  }

  lemma ClosingStep(s: State, step: Step)
    requires Inv(s) && Enabled(s, step) && ClosesGate(s, step)
    ensures Closed(s, Apply(s, step)) && Apply(s, step).slot == s.slot
  {
    hide Inv;
    OwnerParts(s);
    FinishedGate(s.gate, step.control.reason);
  }

  lemma DrainedOrAbandoned(gate: Gate, edges: seq<Edge>, slot: Option<Item>, control: ControlPc, h: History, v: Generation)
    requires |edges| == 4 && GateInv(gate) && DrainInv(gate, edges, slot, control, h)
    requires control.Draining? && control.ok && control.purpose == ToOff && control.point == Complete
    requires v in gate.w.events && v !in h.abandoned
    ensures NoResidue(gate, edges, slot, v)
  {
  }

  lemma UnabandonedIsDrained(s: State, step: Step, v: Generation)
    requires Inv(s) && Enabled(s, step) && ClosesGate(s, step)
    requires v in s.gate.w.events && v !in s.history.abandoned
    ensures |s.edges| == 4 && NoResidue(s.gate, s.edges, s.slot, v)
  {
    hide Inv, DrainInv, NoResidue;
    OwnerParts(s);
    DrainedOrAbandoned(s.gate, s.edges, s.slot, s.control, s.history, v);
  }

  // Whatever the run was, other threads between the owner's steps included: a stop
  // ends clean for a generation exactly when nothing of it is left at its last step,
  // and then it stays clean in every continuation. For a generation that no fault has
  // cancelled nothing is left.
  lemma StopIsCleanExactly(s: State, before: seq<Step>, step: Step, after: seq<Step>, v: Generation)
    requires Initial(s) && Runs(s, before)
    requires Enabled(After(s, before), step) && ClosesGate(After(s, before), step)
    requires Runs(Apply(After(s, before), step), after) && v in After(s, before).gate.w.events
    ensures var s1 := After(s, before);
            var off := Apply(s1, step);
            var later := After(off, after);
            && off.gate.c.state == Off
            && |s1.edges| == 4 && |off.edges| == 4 && |off.workers| == 4 && |later.edges| == 4 && |later.workers| == 4
            && (Clean(off, v) <==> NoResidue(s1.gate, s1.edges, s1.slot, v))
            && (v !in s1.history.abandoned ==> NoResidue(s1.gate, s1.edges, s1.slot, v))
            && (NoResidue(s1.gate, s1.edges, s1.slot, v) ==> Clean(later, v))
  {
    hide Apply, Enabled, Inv, Clean, NoResidue;
    InitialInv(s);
    RunKeepsInv(s, before);
    var s1 := After(s, before);
    var off := Apply(s1, step);
    StepKeepsInv(s1, step);
    RunKeepsInv(off, after);
    ClosingStep(s1, step);
    OwnerParts(s1);
    OwnerParts(off);
    SameResidue(s1, off, v);
    CleanExactly(off, v);
    OwnerParts(After(off, after));
    if v !in s1.history.abandoned {
      UnabandonedIsDrained(s1, step, v);
    }
    if NoResidue(s1.gate, s1.edges, s1.slot, v) {
      CleanForEver(off, after, v);
    }
  }

  lemma SameResidue(s: State, s': State, v: Generation)
    requires |s.edges| == 4 && s'.edges == s.edges && s'.slot == s.slot && s'.gate.w.inFlight == s.gate.w.inFlight
    ensures NoResidue(s'.gate, s'.edges, s'.slot, v) == NoResidue(s.gate, s.edges, s.slot, v)
  {
  }

  // ---------- acknowledging a fault ----------

  // Nothing of v waits at the first n stages or is handled by them.
  predicate Vacated(edges: seq<Edge>, workers: seq<Worker>, v: Generation, n: nat)
    requires |edges| == 4 && |workers| == 4 && n <= 4
  {
    forall k :: 0 <= k < n ==> NoneQueued(edges[k].queue, v) && CleanWorker(workers[k].pc, v)
  }

  predicate NoneQueued(queue: seq<Message>, v: Generation) {
    forall i :: 0 <= i < |queue| ==> queue[i].item.generation != v
  }

  // No operation of v is registered, and none can be again.
  predicate Departed(gate: Gate, v: Generation) {
    Retired(gate, v) && gate.w.inFlight[v] == 0
  }

  // The owner acknowledges a fault, or has not begun to; the stages that have answered
  // are vacated.
  predicate Acknowledging(s: State, v: Generation) {
    && |s.edges| == 4 && |s.workers| == 4
    && s.gate.c.state == Faulted && Departed(s.gate, v)
    && (s.control.Draining? ==>
          && s.control.generation.None? && s.control.purpose == ToOff && Clearing(s.control.point)
          && (s.control.ok && s.control.point != Clear ==>
                !SlotHolds(s.slot, v) && Vacated(s.edges, s.workers, v, Answered(s.control.point))))
  }

  // How many stages have answered.
  function Answered(point: Point): (n: nat)
    ensures n <= 4
  {
    if point.AwaitStage? && point.k < 4 then point.k else if point == Complete then 4 else 0
  }

  // The steps of the owner that acknowledge a fault, with sockets that work, among any
  // steps of the other threads that lose no credit.
  predicate Acknowledges(steps: seq<Step>) {
    forall i :: 0 <= i < |steps| && steps[i].OfControl? ==> AcknowledgingAction(steps[i].control)
  }

  predicate AcknowledgingAction(a: ControlAction) {
    a.StopFaulted? || a.ClearCoalesced? || (a.SeeDrained? && a.answer != SocketFailed)
  }

  // ---------- the other threads while the owner acknowledges ----------

  lemma ReplacedKeepsVacated(edges: seq<Edge>, workers: seq<Worker>, j: nat, e: Edge, k: nat, w: Worker, v: Generation, n: nat)
    requires |edges| == 4 && |workers| == 4 && j < 4 && k < 4 && n <= 4 && Vacated(edges, workers, v, n)
    requires j < n ==> NoneQueued(e.queue, v)
    requires k < n ==> CleanWorker(w.pc, v)
    ensures Vacated(edges[j := e], workers[k := w], v, n)
  {
  }

  lemma LocalKeepsClean(gate: Gate, k: nat, w: Worker, a: LocalAction, v: Generation)
    requires k < 4 && LocalFits(k, w, a) && CleanWorker(w.pc, v)
    ensures CleanWorker(LocalWorker(gate, k, w, a).pc, v)
  {
  }

  lemma CommitKeepsClean(gate: Gate, w: Worker, commitLock: bool, a: CommitAction, v: Generation)
    requires CommitFits(w.pc, commitLock, a) && CleanWorker(w.pc, v)
    ensures CleanWorker(CommitWorker(gate, w, commitLock, a).pc, v)
  {
  }

  // A stage sends on what it holds, so a stage that holds nothing of v sends nothing of v.
  lemma EdgeKeepsClean(e: Edge, k: nat, w: Worker, a: EdgeAction, v: Generation)
    requires k < 4 && WorkerShape(k, w.pc) && EdgeFits(e, w, a) && CleanWorker(w.pc, v)
    ensures NoneQueued(e.queue, v) ==> NoneQueued(EdgeAfter(e, w, a).queue, v)
    ensures !a.Receive? || NoneQueued(e.queue, v) ==> CleanWorker(WorkerAfter(e, w, a).pc, v)
  {
    if a.SendSucceeds? {
      assert Forward(w.pc.m, w.pc.output).item.generation == w.pc.m.item.generation;
    }
  }

  lemma EdgeKeepsVacated(edges: seq<Edge>, workers: seq<Worker>, k: nat, a: EdgeAction, v: Generation, n: nat)
    requires |edges| == 4 && |workers| == 4 && k < 4 && n <= 4 && (OnOwnEdge(a) || k < 3)
    requires EdgeFits(edges[EdgeIndex(k, a)], workers[k], a)
    requires WorkerShape(k, workers[k].pc) && Vacated(edges, workers, v, n)
    ensures var j := EdgeIndex(k, a);
            Vacated(edges[j := EdgeAfter(edges[j], workers[k], a)], workers[k := WorkerAfter(edges[j], workers[k], a)], v, n)
  {
    hide WorkerShape, EdgeFits, EdgeAfter, WorkerAfter, NoneQueued, CleanWorker;
    var j := EdgeIndex(k, a);
    if k < n {
      EdgeKeepsClean(edges[j], k, workers[k], a, v);
    }
    ReplacedKeepsVacated(edges, workers, j, EdgeAfter(edges[j], workers[k], a), k, WorkerAfter(edges[j], workers[k], a), v, n);
  }

  lemma WorkerKeepsVacated(s: State, k: nat, a: WorkerAction, v: Generation, n: nat)
    requires |s.edges| == 4 && |s.workers| == 4 && k < 4 && n <= 4 && WorkerEnabled(s, k, a)
    requires WorkerShape(k, s.workers[k].pc) && Vacated(s.edges, s.workers, v, n)
    ensures Vacated(ApplyWorker(s, k, a).edges, ApplyWorker(s, k, a).workers, v, n)
  {
    hide WorkerShape, LocalFits, LocalWorker, EdgeFits, EdgeAfter, WorkerAfter, CommitFits, CommitWorker, CommitGate, NoneQueued, CleanWorker;
    match a {
      case Local(l) =>
        if k < n {
          LocalKeepsClean(s.gate, k, s.workers[k], l, v);
        }
        KeptEdge(s.edges, k);
        ReplacedKeepsVacated(s.edges, s.workers, k, s.edges[k], k, LocalWorker(s.gate, k, s.workers[k], l), v, n);
      case OnEdge(e) => EdgeKeepsVacated(s.edges, s.workers, k, e, v, n);
      case AtGate(c) =>
        if k < n {
          CommitKeepsClean(s.gate, s.workers[3], s.commitLock, c, v);
        }
        KeptEdge(s.edges, k);
        ReplacedKeepsVacated(s.edges, s.workers, k, s.edges[k], k, CommitWorker(s.gate, s.workers[3], s.commitLock, c), v, n);
    }
  }

  lemma KeptEdge(edges: seq<Edge>, k: nat)
    requires k < |edges|
    ensures edges[k := edges[k]] == edges
  {
  }

  lemma WorkerKeepsDeparted(s: State, k: nat, a: WorkerAction, v: Generation)
    requires |s.edges| == 4 && |s.workers| == 4 && k < 4 && WorkerEnabled(s, k, a) && Departed(s.gate, v)
    ensures Departed(ApplyWorker(s, k, a).gate, v)
  {
  }

  lemma WorkerKeepsTheRest(s: State, k: nat, a: WorkerAction)
    requires |s.edges| == 4 && |s.workers| == 4 && k < 4 && WorkerEnabled(s, k, a)
    ensures var s' := ApplyWorker(s, k, a);
            |s'.edges| == 4 && |s'.workers| == 4 && s'.control == s.control && s'.slot == s.slot
  {
  }

  lemma WorkerKeepsAcknowledging(s: State, k: nat, a: WorkerAction, v: Generation)
    requires Inv(s) && k < 4 && WorkerEnabled(s, k, a) && Acknowledging(s, v)
    ensures Acknowledging(ApplyWorker(s, k, a), v)
  {
    hide Inv, WorkerEnabled, ApplyWorker, Vacated, Departed, Retired, WorkerShape;
    LockIsFree(s);
    WorkersLeaveTheControl(s, k, a);
    WorkerKeepsTheRest(s, k, a);
    WorkerKeepsDeparted(s, k, a, v);
    if s.control.Draining? && s.control.ok && s.control.point != Clear {
      WorkerKeepsVacated(s, k, a, v, Answered(s.control.point));
    }
  }

  // The item of the ingress is of the operation it holds, and so not of v.
  lemma IngressIsOfAnother(s: State, v: Generation)
    requires Inv(s) && s.gate.w.inFlight[v] == 0
    ensures IngressOk(s.ingress, s.history)
    ensures !s.ingress.Quiet? ==> s.ingress.permit.generation != v
    ensures |s.edges| == 4 && |s.workers| == 4 && GateInv(s.gate)
  {
    assert Operations(s.gate, s.ingress, s.preflight, s.workers[3].pc);
    assert IngressOperation(s.ingress)[v] == 0;
  }

  lemma IngressKeepsVacated(s: State, a: IngressAction, v: Generation, n: nat)
    requires |s.edges| == 4 && |s.workers| == 4 && n <= 4 && IngressEnabled(s, a)
    requires IngressOk(s.ingress, s.history) && (!s.ingress.Quiet? ==> s.ingress.permit.generation != v)
    requires Vacated(s.edges, s.workers, v, n)
    ensures var s' := ApplyIngress(s, a);
            |s'.edges| == 4 && |s'.workers| == 4 && Vacated(s'.edges, s'.workers, v, n)
  {
  }

  lemma IngressKeepsDeparted(s: State, a: IngressAction, v: Generation)
    requires |s.edges| == 4 && IngressEnabled(s, a) && GateInv(s.gate) && Departed(s.gate, v)
    requires IngressOk(s.ingress, s.history) && (!s.ingress.Quiet? ==> s.ingress.permit.generation != v)
    ensures var s' := ApplyIngress(s, a);
            && Departed(s'.gate, v) && |s'.edges| == 4 && s'.workers == s.workers && s'.control == s.control
            && (!SlotHolds(s.slot, v) ==> !SlotHolds(s'.slot, v))
  {
  }

  lemma IngressKeepsAcknowledging(s: State, a: IngressAction, v: Generation)
    requires Inv(s) && IngressEnabled(s, a) && Acknowledging(s, v)
    ensures Acknowledging(ApplyIngress(s, a), v)
  {
    hide Inv, IngressEnabled, ApplyIngress, Vacated, Retired, IngressOk;
    IngressIsOfAnother(s, v);
    IngressLeavesTheControl(s, a);
    IngressKeepsDeparted(s, a, v);
    if s.control.Draining? && s.control.ok && s.control.point != Clear {
      IngressKeepsVacated(s, a, v, Answered(s.control.point));
    }
  }

  lemma PreflightKeepsAcknowledging(s: State, a: PreflightAction, v: Generation)
    requires PreflightEnabled(s, a) && Acknowledging(s, v)
    ensures Acknowledging(ApplyPreflight(s, a), v)
  {
    hide Vacated;
  }

  lemma ControlKeepsAcknowledging(s: State, a: ControlAction, v: Generation)
    requires ControlEnabled(s, a) && AcknowledgingAction(a) && Acknowledging(s, v)
    ensures Acknowledging(ApplyControl(s, a), v)
  {
    if a.SeeDrained? && a.answer.Emptied? && s.control.ok {
      assert Vacated(s.edges, s.workers, v, s.control.point.k + 1);
    }
  }

  lemma StepKeepsAcknowledging(s: State, step: Step, v: Generation)
    requires Inv(s) && Enabled(s, step) && Acknowledging(s, v)
    requires step.OfControl? ==> AcknowledgingAction(step.control)
    ensures Acknowledging(Apply(s, step), v)
  {
    hide Inv, Acknowledging, AcknowledgingAction;
    match step {
      case OfWorker(k, a) => WorkerKeepsAcknowledging(s, k, a, v);
      case OfIngress(a) => IngressKeepsAcknowledging(s, a, v);
      case OfPreflight(a) => PreflightKeepsAcknowledging(s, a, v);
      case OfControl(a) => ControlKeepsAcknowledging(s, a, v);
    }
  }

  lemma {:induction false} RunKeepsAcknowledging(s: State, steps: seq<Step>, v: Generation)
    requires Inv(s) && Runs(s, steps) && Acknowledging(s, v) && Acknowledges(steps)
    ensures Acknowledging(After(s, steps), v)
    decreases |steps|
  {
    hide Apply, Enabled, Inv, Acknowledging, AcknowledgingAction;
    if steps != [] {
      assert steps[0].OfControl? ==> AcknowledgingAction(steps[0].control);
      StepKeepsAcknowledging(s, steps[0], v);
      StepKeepsInv(s, steps[0]);
      RunKeepsAcknowledging(Apply(s, steps[0]), steps[1..], v);
    }
  }

  // ---------- where the acknowledgement ends ----------

  // No credit of v was lost: the ledgers count exactly what is held.
  predicate NoneLost(s: State, v: Generation)
    requires |s.edges| == 4 && |s.workers| == 4
  {
    forall k :: 0 <= k < 4 ==> s.edges[k].credits[v] == Holders(s, k)[v]
  }

  lemma LostExactly(s: State, v: Generation, k: nat)
    requires Inv(s) && k < 4
    ensures |s.edges| == 4 && |s.workers| == 4
    ensures s.edges[k].credits[v] == Holders(s, k)[v] + s.edges[k].leaked[v]
  {
    assert Balanced(s.edges[k], InHand(s.workers[k].pc), SenderCredit(s.workers, s.ingress, k));
  }

  lemma {:induction false} NoneQueuedCountsZero(queue: seq<Message>, v: Generation)
    requires NoneQueued(queue, v)
    ensures QueuedGenerations(queue)[v] == 0
  {
    if queue != [] {
      NoneQueuedCountsZero(queue[1..], v);
    }
  }

  lemma VacatedHoldsNothing(edges: seq<Edge>, workers: seq<Worker>, ingress: IngressPc, v: Generation, k: nat)
    requires |edges| == 4 && |workers| == 4 && k < 4 && Vacated(edges, workers, v, 4)
    requires forall j :: 0 <= j < 4 ==> WorkerShape(j, workers[j].pc)
    requires IngressCredit(ingress)[v] == 0
    ensures QueuedGenerations(edges[k].queue)[v] == 0 && InHand(workers[k].pc)[v] == 0
    ensures SenderCredit(workers, ingress, k)[v] == 0
  {
    NoneQueuedCountsZero(edges[k].queue, v);
    if k > 0 {
      assert CleanWorker(workers[k - 1].pc, v) && WorkerShape(k - 1, workers[k - 1].pc);
    }
  }

  lemma IngressHoldsNothing(s: State, v: Generation)
    requires Inv(s) && s.gate.w.inFlight[v] == 0
    ensures IngressCredit(s.ingress)[v] == 0
  {
    hide Inv;
    IngressIsOfAnother(s, v);
  }

  // Where every stage has answered, what is left of v is what was lost of it.
  lemma AcknowledgedResidue(s: State, v: Generation)
    requires Inv(s) && Acknowledging(s, v)
    requires s.control.Draining? && s.control.ok && s.control.point == Complete
    ensures NoResidue(s.gate, s.edges, s.slot, v) <==> forall k :: 0 <= k < 4 ==> s.edges[k].leaked[v] == 0
  {
    hide Inv, WorkerShape, Vacated, Retired;
    LockIsFree(s);
    IngressHoldsNothing(s, v);
    forall k | 0 <= k < 4 ensures s.edges[k].credits[v] == s.edges[k].leaked[v] {
      LostExactly(s, v, k);
      VacatedHoldsNothing(s.edges, s.workers, s.ingress, v, k);
    }
  }

  lemma RetiredWhenFaulted(s: State, v: Generation)
    requires Inv(s) && s.gate.c.state == Faulted && v in s.gate.w.events
    ensures Retired(s.gate, v)
  {
    hide Inv;
    OwnerParts(s);
  }

  // Sequential draining is sound: each stage answered at its own time, among steps of all
  // other threads, and yet at the end nothing of v is left but what was lost before.
  lemma AcknowledgementLeaves(s: State, during: seq<Step>, v: Generation)
    requires Inv(s) && s.gate.c.state == Faulted && s.control == Ready && v in s.gate.w.events
    requires Runs(s, during) && Acknowledges(during) && NoLoss(during)
    requires var c := After(s, during).control; c.Draining? && c.ok && c.point == Complete
    requires s.gate.w.inFlight[v] == 0
    ensures |s.edges| == 4 && |s.workers| == 4
    ensures var s2 := After(s, during);
            |s2.edges| == 4 && (NoResidue(s2.gate, s2.edges, s2.slot, v) <==> NoneLost(s, v))
  {
    hide Apply, Enabled, Inv, Vacated, NoResidue, Acknowledges, NoLoss;
    OwnerParts(s);
    RetiredWhenFaulted(s, v);
    RunKeepsInv(s, during);
    RunKeepsAcknowledging(s, during, v);
    AcknowledgedResidue(After(s, during), v);
    forall k | 0 <= k < 4
      ensures After(s, during).edges[k].leaked[v] == 0 <==> s.edges[k].credits[v] == Holders(s, k)[v]
    {
      RunKeepsLosses(s, during, k);
      LostExactly(s, v, k);
    }
  }

  // In every reachable fault, and whatever the other threads do meanwhile: a stop that
  // acknowledges it reaches OFF clean for a generation exactly when, before the stop, no
  // gate operation of it is registered and no credit of it is lost, and then it is clean
  // in every continuation. No operation of the generation ends, no further credit is lost
  // and no socket fails during the stop.
  lemma FaultedStopIsCleanExactly(s: State, before: seq<Step>, during: seq<Step>, step: Step, after: seq<Step>, v: Generation)
    requires Initial(s) && Runs(s, before) && v in After(s, before).gate.w.events
    requires After(s, before).gate.c.state == Faulted && After(s, before).control == Ready
    requires Runs(After(s, before), during) && Acknowledges(during) && NoLoss(during)
    requires Enabled(After(After(s, before), during), step) && ClosesGate(After(After(s, before), during), step)
    requires After(After(s, before), during).gate.w.inFlight[v] == After(s, before).gate.w.inFlight[v]
    requires Runs(Apply(After(After(s, before), during), step), after)
    ensures var s1 := After(s, before);
            var off := Apply(After(s1, during), step);
            var later := After(off, after);
            && |s1.edges| == 4 && |s1.workers| == 4 && |off.edges| == 4 && |off.workers| == 4
            && |later.edges| == 4 && |later.workers| == 4
            && off.gate.c.state == Off
            && (Clean(off, v) <==> s1.gate.w.inFlight[v] == 0 && NoneLost(s1, v))
            && (s1.gate.w.inFlight[v] == 0 && NoneLost(s1, v) ==> Clean(later, v))
  {
    hide Apply, Enabled, Inv, Clean, NoneLost, Retired, Acknowledges, NoLoss;
    InitialInv(s);
    RunKeepsInv(s, before);
    var s1 := After(s, before);
    RunKeepsInv(s1, during);
    var s2 := After(s1, during);
    StepKeepsInv(s2, step);
    var off := Apply(s2, step);
    RunKeepsInv(off, after);
    ClosesAtComplete(s2, step);
    ClosingStep(s2, step);
    OwnerParts(s1);
    OwnerParts(s2);
    OwnerParts(off);
    OwnerParts(After(off, after));
    SameResidue(s2, off, v);
    CleanExactly(off, v);
    if s1.gate.w.inFlight[v] == 0 {
      AcknowledgementLeaves(s1, during, v);
      if NoneLost(s1, v) {
        RetiredWhenFaulted(s1, v);
        RetiredIsNeverCommitted(s1, during, v);
        StaysRetired(s2, step, v);
        CleanForEver(off, after, v);
      }
    }
  }

  lemma ClosesAtComplete(s: State, step: Step)
    requires Enabled(s, step) && ClosesGate(s, step)
    ensures s.control.point == Complete
  {
  }
}
