/**
 Where persisted records come from: every accepted item is what one submission of the
 run brought, under the generation the caller expected and the gate was recording then.
 */
module ProtocolOrigins {
  import opened Wrappers
  import opened Lifecycle
  import opened GateModel
  import opened PipelineModel
  import opened Protocol
  import opened ProtocolInvariant
  import opened ProtocolTheorems

  // The step submits this item: the caller's record, frames and expected generation, while
  // the gate records under exactly that generation, with the session's revision.
  predicate Submits(s: State, step: Step, item: Item) {
    && step.OfIngress? && step.ingress.BeginSubmit?
    && item == Item(Raw, step.ingress.recordId, step.ingress.expected, item.revision, step.ingress.frames)
    && s.gate.c.state == Recording
    && s.gate.c.active == Some(step.ingress.expected)
    && s.gate.c.revision == Some(item.revision)
  }

  // Some step of the run submits it.
  predicate SubmittedIn(s: State, steps: seq<Step>, item: Item)
    requires Runs(s, steps)
    decreases |steps|
  {
    steps != [] && (Submits(s, steps[0], item) || SubmittedIn(Apply(s, steps[0]), steps[1..], item))
  }

  // The items that the ingress holds, that wait in the slot or that were accepted.
  predicate HoldsItem(s: State, item: Item) {
    || item in s.history.accepted
    || s.slot == Some(item)
    || (HoldsOne(s.ingress) && s.ingress.item == item)
  }

  predicate HoldsOne(pc: IngressPc) {
    pc.Submitting? || pc.SubmitCredited? || pc.SubmitFailed? || pc.Overloaded? || pc.FlushCredited? || pc.FlushFailed?
  }

  // ---------- one step ----------

  lemma CaptureGuard(g: Gate)
    requires AcquireCapture(g).result.Ok?
    ensures g.c.state == Recording && g.c.active == Some(AcquireCapture(g).result.value.generation)
    ensures g.c.revision == Some(AcquireCapture(g).result.value.revision)
  {
  }

  lemma SlotStepHolds(s: State, a: SlotAction, item: Item)
    requires |s.edges| == 4 && SlotEnabled(s, a) && HoldsItem(ApplyIngress(s, InSlot(a)), item)
    ensures HoldsItem(s, item)
  {
  }

  lemma RawStepHolds(s: State, a: RawAction, item: Item)
    requires |s.edges| == 4 && RawFits(s.edges[0], s.ingress, s.slot, a) && HoldsItem(ApplyIngress(s, OnRaw(a)), item)
    ensures HoldsItem(s, item)
  {
    hide RawEdgeAfter;
  }

  lemma IngressStepHolds(s: State, a: IngressAction, item: Item)
    requires |s.edges| == 4 && IngressEnabled(s, a) && HoldsItem(ApplyIngress(s, a), item)
    ensures HoldsItem(s, item) || Submits(s, OfIngress(a), item)
  {
    match a {
      case BeginSubmit(_, _, _) => CaptureGuard(s.gate);
      case BeginFlush =>
      case InSlot(l) => SlotStepHolds(s, l, item);
      case OnRaw(r) => RawStepHolds(s, r, item);
      case EndIngress =>
    }
  }

  lemma WorkerStepHolds(s: State, k: nat, a: WorkerAction, item: Item)
    requires |s.edges| == 4 && |s.workers| == 4 && k < 4 && WorkerEnabled(s, k, a) && HoldsItem(ApplyWorker(s, k, a), item)
    ensures HoldsItem(s, item)
  {
  }

  lemma ControlStepHolds(s: State, a: ControlAction, item: Item)
    requires ControlEnabled(s, a) && HoldsItem(ApplyControl(s, a), item)
    ensures HoldsItem(s, item)
  {
  }

  lemma StepHolds(s: State, step: Step, item: Item)
    requires Enabled(s, step) && HoldsItem(Apply(s, step), item)
    ensures HoldsItem(s, item) || Submits(s, step, item)
  {
    hide HoldsItem, Submits;
    match step {
      case OfWorker(k, a) => WorkerStepHolds(s, k, a, item);
      case OfIngress(a) => IngressStepHolds(s, a, item);
      case OfPreflight(a) => PreflightStepHolds(s, a, item);
      case OfControl(a) => ControlStepHolds(s, a, item);
    }
  }

  lemma PreflightStepHolds(s: State, a: PreflightAction, item: Item)
    requires PreflightEnabled(s, a) && HoldsItem(ApplyPreflight(s, a), item)
    ensures HoldsItem(s, item)
  {
  }

  // ---------- over runs ----------

  lemma {:induction false} RunHolds(s: State, steps: seq<Step>, item: Item)
    requires Runs(s, steps) && HoldsItem(After(s, steps), item)
    ensures HoldsItem(s, item) || SubmittedIn(s, steps, item)
    decreases |steps|
  {
    hide Apply, Enabled, HoldsItem, Submits;
    if steps != [] {
      RunHolds(Apply(s, steps[0]), steps[1..], item);
      if HoldsItem(Apply(s, steps[0]), item) {
        StepHolds(s, steps[0], item);
      }
    }
  }

  // The place of the submission in the run.
  lemma {:induction false} SubmissionStep(s: State, steps: seq<Step>, item: Item) returns (j: nat)
    requires Runs(s, steps) && SubmittedIn(s, steps, item)
    ensures j < |steps| && Runs(s, steps[..j]) && Submits(After(s, steps[..j]), steps[j], item)
    decreases |steps|
  {
    hide Apply, Enabled, Submits;
    if Submits(s, steps[0], item) {
      j := 0;
      assert steps[..0] == [];
    } else {
      var i := SubmissionStep(Apply(s, steps[0]), steps[1..], item);
      j := i + 1;
      assert steps[..j][0] == steps[0] && steps[..j][1..] == steps[1..][..i];
    }
  }

  // Every accepted item of every run is what some step of the run submitted.
  lemma AcceptedWereSubmitted(s: State, steps: seq<Step>, i: nat)
    requires Initial(s) && Runs(s, steps) && i < |After(s, steps).history.accepted|
    ensures exists j :: 0 <= j < |steps| && Runs(s, steps[..j])
                        && Submits(After(s, steps[..j]), steps[j], After(s, steps).history.accepted[i])
  {
    hide Apply, Enabled, Submits;
    var item := After(s, steps).history.accepted[i];
    RunHolds(s, steps, item);
    var j := SubmissionStep(s, steps, item);
  }

  // And so is every persisted record: it carries the record identifier and the generation
  // of a submission made while the gate recorded under that generation, and its revision.
  lemma PersistedWereSubmitted(s: State, steps: seq<Step>, i: nat)
    requires Initial(s) && Runs(s, steps) && i < |After(s, steps).history.committed|
    ensures var record := After(s, steps).history.committed[i].item;
            exists j :: 0 <= j < |steps| && Runs(s, steps[..j])
                        && steps[j].OfIngress? && steps[j].ingress.BeginSubmit?
                        && record.recordId == steps[j].ingress.recordId
                        && record.generation == steps[j].ingress.expected
                        && After(s, steps[..j]).gate.c.state == Recording
                        && After(s, steps[..j]).gate.c.active == Some(record.generation)
                        && After(s, steps[..j]).gate.c.revision == Some(record.revision)
  {
    hide Apply, Enabled;
    PersistedAreAcceptedInOrder(s, steps);
    var h := After(s, steps).history;
    var m := h.committed[i];
    AcceptedWereSubmitted(s, steps, m.ticket);
    var j :| 0 <= j < |steps| && Runs(s, steps[..j]) && Submits(After(s, steps[..j]), steps[j], h.accepted[m.ticket]);
  }

  // ---------- what the first stage receives ----------

  // The messages on their way to the first stage, and in its hands, are the accepted items
  // themselves, frames included.
  predicate RawIsAccepted(edges: seq<Edge>, workers: seq<Worker>, h: History)
    requires |edges| == 4 && |workers| == 4
  {
    && (forall i :: 0 <= i < |edges[0].queue| ==> IsAccepted(h, edges[0].queue[i]))
    && (!workers[0].pc.Polling? ==> IsAccepted(h, workers[0].pc.m))
  }

  predicate IsAccepted(h: History, m: Message) {
    m.ticket < |h.accepted| && m.item == h.accepted[m.ticket]
  }

  lemma WorkerKeepsRaw(s: State, k: nat, a: WorkerAction)
    requires |s.edges| == 4 && |s.workers| == 4 && k < 4 && WorkerEnabled(s, k, a)
    requires RawIsAccepted(s.edges, s.workers, s.history)
    ensures var s' := ApplyWorker(s, k, a); |s'.edges| == 4 && |s'.workers| == 4 && RawIsAccepted(s'.edges, s'.workers, s'.history)
  {
  }

  lemma IngressKeepsRaw(s: State, a: IngressAction)
    requires |s.edges| == 4 && |s.workers| == 4 && IngressEnabled(s, a)
    requires RawIsAccepted(s.edges, s.workers, s.history)
    ensures var s' := ApplyIngress(s, a); |s'.edges| == 4 && |s'.workers| == 4 && RawIsAccepted(s'.edges, s'.workers, s'.history)
  {
  }

  lemma {:induction false} RunKeepsRaw(s: State, steps: seq<Step>)
    requires Runs(s, steps) && |s.edges| == 4 && |s.workers| == 4 && RawIsAccepted(s.edges, s.workers, s.history)
    ensures var s' := After(s, steps); |s'.edges| == 4 && |s'.workers| == 4 && RawIsAccepted(s'.edges, s'.workers, s'.history)
    decreases |steps|
  {
    hide RawIsAccepted;
    if steps != [] {
      StepKeepsRaw(s, steps[0]);
      RunKeepsRaw(Apply(s, steps[0]), steps[1..]);
    }
  }

  lemma StepKeepsRaw(s: State, step: Step)
    requires Enabled(s, step) && RawIsAccepted(s.edges, s.workers, s.history)
    ensures var s' := Apply(s, step); |s'.edges| == 4 && |s'.workers| == 4 && RawIsAccepted(s'.edges, s'.workers, s'.history)
  {
    match step {
      case OfWorker(k, a) => WorkerKeepsRaw(s, k, a);
      case OfIngress(a) => IngressKeepsRaw(s, a);
      case OfPreflight(a) =>
      case OfControl(a) => ControlKeepsRaw(s, a);
    }
  }

  lemma ControlKeepsRaw(s: State, a: ControlAction)
    requires |s.edges| == 4 && |s.workers| == 4 && ControlEnabled(s, a) && RawIsAccepted(s.edges, s.workers, s.history)
    ensures var s' := ApplyControl(s, a); |s'.edges| == 4 && |s'.workers| == 4 && RawIsAccepted(s'.edges, s'.workers, s'.history)
  {
  }

  // So the first stage works on exactly what was submitted, frames included.
  lemma FirstStageSeesSubmissions(s: State, steps: seq<Step>)
    requires Initial(s) && Runs(s, steps)
    requires After(s, steps).workers != [] && !After(s, steps).workers[0].pc.Polling?
    ensures exists j :: 0 <= j < |steps| && Runs(s, steps[..j])
                        && Submits(After(s, steps[..j]), steps[j], After(s, steps).workers[0].pc.m.item)
  {
    hide Apply, Enabled, Submits;
    RunKeepsRaw(s, steps);
    var m := After(s, steps).workers[0].pc.m;
    AcceptedWereSubmitted(s, steps, m.ticket);
  }

  // ---------- the coalesced slot ----------

  // What changes the slot: a submission that could not be queued is kept there, in place of
  // an older one, unless the newest is dropped; a flush takes the item out when it was sent
  // or is stale; the owner clears its generation's or, for a fault, anyone's.
  lemma SlotChanges(s: State, step: Step)
    requires Enabled(s, step)
    ensures var s' := Apply(s, step);
            if step == OfIngress(InSlot(HandleOverload)) then
              s'.slot == if s.dropNewest then s.slot else Some(s.ingress.item)
            else if s'.slot != s.slot then
              && s'.slot == None
              && (|| step == OfIngress(OnRaw(FlushSends))
                  || (step == OfIngress(InSlot(FlushDiscards))
                      && (s.slot.value.generation != s.ingress.permit.generation || PermitCancelled(s, s.ingress.permit)))
                  || (step.OfControl? && s.control.Draining?
                      && (s.control.generation.None? || s.control.generation == Some(s.slot.value.generation))))
            else true
  {
    match step {
      case OfWorker(k, a) => WorkerKeepsSlot(s, k, a);
      case OfIngress(a) => IngressChangesSlot(s, a);
      case OfPreflight(a) =>
      case OfControl(a) => ControlChangesSlot(s, a);
    }
  }

  lemma WorkerKeepsSlot(s: State, k: nat, a: WorkerAction)
    requires |s.edges| == 4 && |s.workers| == 4 && k < 4 && WorkerEnabled(s, k, a)
    ensures ApplyWorker(s, k, a).slot == s.slot
  {
  }

  lemma IngressChangesSlot(s: State, a: IngressAction)
    requires |s.edges| == 4 && IngressEnabled(s, a)
    ensures var s' := ApplyIngress(s, a);
            if a == InSlot(HandleOverload) then s'.slot == if s.dropNewest then s.slot else Some(s.ingress.item)
            else if s'.slot != s.slot then
              && s'.slot == None
              && (a == OnRaw(FlushSends)
                  || (a == InSlot(FlushDiscards)
                      && (s.slot.value.generation != s.ingress.permit.generation || PermitCancelled(s, s.ingress.permit))))
            else true
  {
  }

  lemma ControlChangesSlot(s: State, a: ControlAction)
    requires ControlEnabled(s, a)
    ensures var s' := ApplyControl(s, a);
            s'.slot != s.slot ==>
              && s'.slot == None && s.control.Draining?
              && (s.control.generation.None? || s.control.generation == Some(s.slot.value.generation))
  {
  }
}
