/** Every step of the persistence operation keeps the invariant. */
module ProtocolCommit {
  import opened Wrappers
  import opened Lifecycle
  import opened GateModel
  import opened PipelineModel
  import opened Protocol
  import opened ProtocolInvariant
  import opened ProtocolWorkers

  // What a commit step does to its own program counter.
  lemma CommitWorkerHolding(gate: Gate, w: Worker, commitLock: bool, a: CommitAction)
    requires WorkerShape(3, w.pc) && CommitFits(w.pc, commitLock, a)
    ensures var pc' := CommitWorker(gate, w, commitLock, a).pc;
            && !w.pc.Polling? && !pc'.Polling? && pc'.m == w.pc.m
            && OutputCredit(pc') == multiset{} && OutputCredit(w.pc) == multiset{}
            && (Pending(pc') == Pending(w.pc) || Pending(pc') == [])
  {
  }

  lemma AdmittedPermit(gate: Gate, generation: Generation)
    ensures var r := AcquirePersistence(gate, generation).result;
            r.Ok? ==> r.value.generation == generation && CurrentGenerationError(gate, generation).None?
  {
  }

  lemma CommitWorkerShape(gate: Gate, w: Worker, commitLock: bool, a: CommitAction)
    requires WorkerShape(3, w.pc) && CommitFits(w.pc, commitLock, a)
    ensures WorkerShape(3, CommitWorker(gate, w, commitLock, a).pc)
  {
    if a.AdmitCommit? {
      AdmittedPermit(gate, w.pc.m.item.generation);
    }
  }

  // ---------- the flow of messages ----------

  // Messages are judged by the accepted submissions and the sessions only.
  lemma CommittingKeepsProvenance(edges: seq<Edge>, workers: seq<Worker>, h: History, m: Message)
    requires Shape(edges, workers) && Provenance(edges, workers, h) && MessageOk(h, 3, m)
    ensures Provenance(edges, workers, h.(committed := h.committed + [m]))
  {
    var h' := h.(committed := h.committed + [m]);
    assert forall k, n | 0 <= k < 4 && MessageOk(h, k, n) :: MessageOk(h', k, n);
    forall k | 0 <= k < 4
      ensures QueueOk(h', k, edges[k].queue) && PcOk(h', k, workers[k].pc)
    {
      assert QueueOk(h, k, edges[k].queue) && PcOk(h, k, workers[k].pc);
    }
  }

  lemma CommittingKeepsOrder(edges: seq<Edge>, workers: seq<Worker>, h: History, w: Worker)
    requires |edges| == 4 && |workers| == 4 && Ordered(Levels(edges, workers, h))
    requires workers[3].pc.Committing? && w.pc.Persisted?
    ensures Ordered(Levels(edges, workers[3 := w], h.(committed := h.committed + [workers[3].pc.m])))
  {
    var levels := Levels(edges, workers, h);
    var h' := h.(committed := h.committed + [workers[3].pc.m]);
    TicketsAppend(h.committed, workers[3].pc.m);
    MovingKeepsOrder(levels, 7, [], Tickets(h'.committed));
    assert Levels(edges, workers[3 := w], h') == levels[7 := []][8 := Tickets(h'.committed)];
  }

  lemma PersistingKeepsFlow(edges: seq<Edge>, workers: seq<Worker>, ingress: IngressPc, slot: Option<Item>, h: History,
                            w: Worker, workers': seq<Worker>, h': History)
    requires FlowInv(edges, workers, ingress, slot, h)
    requires workers[3].pc.Committing? && w.pc == Persisted(workers[3].pc.m, workers[3].pc.permit)
    requires workers' == workers[3 := w] && h' == h.(committed := h.committed + [workers[3].pc.m])
    ensures FlowInv(edges, workers', ingress, slot, h')
  {
    assert PcOk(h, 3, workers[3].pc);
    HoldingKeepsFlow(edges, workers, ingress, slot, h, 3, w, workers');
    CommittingKeepsOrder(edges, workers, h, w);
    RecordedKeepsFlow(edges, workers', ingress, slot, h, workers[3].pc.m);
  }

  lemma RecordedKeepsFlow(edges: seq<Edge>, workers: seq<Worker>, ingress: IngressPc, slot: Option<Item>, h: History,
                          m: Message)
    requires FlowInv(edges, workers, ingress, slot, h) && MessageOk(h, 3, m)
    requires Ordered(Levels(edges, workers, h.(committed := h.committed + [m])))
    ensures FlowInv(edges, workers, ingress, slot, h.(committed := h.committed + [m]))
  {
    CommittingKeepsProvenance(edges, workers, h, m);
  }

  lemma CommitKeepsFlow(edges: seq<Edge>, workers: seq<Worker>, ingress: IngressPc, slot: Option<Item>, h: History,
                        gate: Gate, commitLock: bool, a: CommitAction, workers': seq<Worker>, h': History)
    requires FlowInv(edges, workers, ingress, slot, h) && CommitFits(workers[3].pc, commitLock, a)
    requires workers' == workers[3 := CommitWorker(gate, workers[3], commitLock, a)]
    requires h' == CommitHistory(h, workers[3], a)
    ensures FlowInv(edges, workers', ingress, slot, h')
  {
    var w := CommitWorker(gate, workers[3], commitLock, a);
    if a.PersistSucceeds? {
      PersistingKeepsFlow(edges, workers, ingress, slot, h, w, workers', h');
    } else {
      CommitWorkerHolding(gate, workers[3], commitLock, a);
      CommitWorkerShape(gate, workers[3], commitLock, a);
      assert PcOk(h, 3, workers[3].pc);
      HoldingKeepsFlow(edges, workers, ingress, slot, h, 3, w, workers');
    }
  }

  // ---------- the gate and the lock ----------

  // The committed generations stay sorted: the one being added is the active one.
  lemma CommitKeepsCommitOrder(gate: Gate, committed: seq<Message>, m: Message)
    requires CommitOrder(gate, committed) && gate.c.active == Some(m.item.generation)
    ensures CommitOrder(gate, committed + [m])
  {
  }

  lemma CommitKeepsLock(w: Worker, gate: Gate, commitLock: bool, a: CommitAction)
    requires WorkerShape(3, w.pc) && CommitFits(w.pc, commitLock, a) && CommitLockHeld(commitLock, w.pc)
    ensures CommitLockHeld(CommitLockAfter(commitLock, a), CommitWorker(gate, w, commitLock, a).pc)
  {
  }

  lemma AdmittedOperation(gate: Gate, commitLock: bool, ingress: IngressPc, preflight: Option<Permit>,
                          pc: Pc, h: History, gate': Gate, pc': Pc)
    requires OperationInv(gate, commitLock, ingress, preflight, pc, h) && pc.Locked?
    requires SameButWork(gate, gate') && CurrentGenerationError(gate, pc.m.item.generation).None?
    requires gate'.w.inFlight == gate.w.inFlight + multiset{pc.m.item.generation}
    requires pc'.Committing? && pc'.m == pc.m && pc'.permit.generation == pc.m.item.generation
    ensures OperationInv(gate', commitLock, ingress, preflight, pc', h)
  {
    assert CommitOperation(pc') == multiset{pc.m.item.generation} && CommitOperation(pc) == multiset{};
  }

  // The two outcomes of the admission.
  lemma AdmitOutcome(gate: Gate, w: Worker, commitLock: bool, edges: seq<Edge>, slot: Option<Item>)
    requires |edges| == 4 && GateInv(gate) && w.pc.Locked?
    ensures var generation := w.pc.m.item.generation;
            var gate' := CommitGate(gate, w, commitLock, AdmitCommit);
            var pc' := CommitWorker(gate, w, commitLock, AdmitCommit).pc;
            || (gate' == gate && pc' == Unlocking(w.pc.m))
            || (&& SameButWork(gate, gate') && CurrentGenerationError(gate, generation).None?
                && gate'.w.inFlight == gate.w.inFlight + multiset{generation}
                && pc'.Committing? && pc'.m == w.pc.m && pc'.permit.generation == generation
                && StaysQuiet(gate, edges, slot, gate', edges, slot))
  {
    var generation := w.pc.m.item.generation;
    AdmittedPermit(gate, generation);
    if CurrentGenerationError(gate, generation).None? {
      AdmittedStaysQuiet(gate, generation, edges, slot);
    }
  }

  lemma AdmitKeepsOperations(gate: Gate, commitLock: bool, ingress: IngressPc, preflight: Option<Permit>,
                             w: Worker, h: History, edges: seq<Edge>, slot: Option<Item>, control: ControlPc,
                             gate': Gate, pc': Pc)
    requires |edges| == 4 && w.pc.Locked?
    requires OperationInv(gate, commitLock, ingress, preflight, w.pc, h)
    requires DrainInv(gate, edges, slot, control, h)
    requires gate' == CommitGate(gate, w, commitLock, AdmitCommit)
    requires pc' == CommitWorker(gate, w, commitLock, AdmitCommit).pc
    ensures OperationInv(gate', commitLock, ingress, preflight, pc', h)
    ensures DrainInv(gate', edges, slot, control, h)
  {
    AdmitOutcome(gate, w, commitLock, edges, slot);
    if pc' == Unlocking(w.pc.m) {
      HoldingKeepsOperations(gate, commitLock, ingress, preflight, w.pc, h, pc');
    } else {
      AdmittedOperation(gate, commitLock, ingress, preflight, w.pc, h, gate', pc');
      QuietStepKeepsDrains(gate, edges, slot, gate', edges, slot, control, h);
    }
  }

  lemma LeaveKeepsOperations(gate: Gate, commitLock: bool, ingress: IngressPc, preflight: Option<Permit>,
                             w: Worker, h: History, edges: seq<Edge>, slot: Option<Item>, control: ControlPc)
    requires |edges| == 4
    requires OperationInv(gate, commitLock, ingress, preflight, w.pc, h) && w.pc.Persisted?
    requires DrainInv(gate, edges, slot, control, h)
    ensures var gate' := CommitGate(gate, w, commitLock, LeaveGate);
            && OperationInv(gate', commitLock, ingress, preflight, CommitWorker(gate, w, commitLock, LeaveGate).pc, h)
            && DrainInv(gate', edges, slot, control, h)
  {
    ReleasedStaysQuiet(gate, w.pc.permit.generation, edges, slot);
    QuietStepKeepsDrains(gate, edges, slot, CommitGate(gate, w, commitLock, LeaveGate), edges, slot, control, h);
  }

  lemma OtherKeepsOperations(gate: Gate, commitLock: bool, ingress: IngressPc, preflight: Option<Permit>,
                             w: Worker, h: History, a: CommitAction, h': History)
    requires OperationInv(gate, commitLock, ingress, preflight, w.pc, h)
    requires WorkerShape(3, w.pc) && CommitFits(w.pc, commitLock, a) && !a.AdmitCommit? && !a.LeaveGate?
    requires h' == CommitHistory(h, w, a)
    ensures OperationInv(gate, CommitLockAfter(commitLock, a), ingress, preflight,
                         CommitWorker(gate, w, commitLock, a).pc, h')
  {
    CommitKeepsLock(w, gate, commitLock, a);
    if a.PersistSucceeds? {
      CommitKeepsCommitOrder(gate, h.committed, w.pc.m);
    }
  }

  lemma CommitKeepsInv(s: State, a: CommitAction)
    requires Inv(s) && CommitFits(s.workers[3].pc, s.commitLock, a)
    ensures Inv(ApplyCommit(s, a))
  {
    var s' := ApplyCommit(s, a);
    var w := s.workers[3];
    CommitKeepsFlow(s.edges, s.workers, s.ingress, s.slot, s.history, s.gate, s.commitLock, a, s'.workers, s'.history);
    if a.AdmitCommit? {
      AdmitKeepsOperations(s.gate, s.commitLock, s.ingress, s.preflight, w, s.history, s.edges, s.slot, s.control,
                           s'.gate, s'.workers[3].pc);
    } else if a.LeaveGate? {
      LeaveKeepsOperations(s.gate, s.commitLock, s.ingress, s.preflight, w, s.history, s.edges, s.slot, s.control);
    } else {
      OtherKeepsOperations(s.gate, s.commitLock, s.ingress, s.preflight, w, s.history, a, s'.history);
    }
  }
}
