/**
 Where everything goes. Over every run, each submission is accepted once, still waits at
 the ingress, or was dropped by a step that says why; and each accepted record is
 persisted once, still inside the pipeline, or was given up by a step that says why.
 */
module ProtocolAccounts {
  import opened Wrappers
  import opened Lifecycle
  import opened GateModel
  import GateOutcomes
  import opened PipelineModel
  import opened Protocol
  import opened ProtocolInvariant
  import opened ProtocolTheorems

  predicate Current(gate: Gate, g: Generation) {
    gate.c.active == Some(g) && (gate.c.state == Recording || gate.c.state == Paused)
  }

  function One(b: bool): nat {
    if b then 1 else 0
  }

  // ---------- submissions ----------

  // The step brings this item in: a record of the generation that is recording.
  predicate Brings(s: State, step: Step, x: Item) {
    && step.OfIngress? && step.ingress.BeginSubmit?
    && s.gate.c.active == Some(step.ingress.expected)
    && x.stage == Raw && x.recordId == step.ingress.recordId && x.frames == step.ingress.frames
    && x.generation == step.ingress.expected && s.gate.c.revision == Some(x.revision)
  }

  // The ingress works on this submission; a flush works on the slot's.
  predicate AtIngress(pc: IngressPc, x: Item) {
    (pc.Submitting? || pc.SubmitCredited? || pc.SubmitFailed? || pc.Overloaded?) && pc.item == x
  }

  // It is being submitted, or waits in the coalesced slot.
  function Waiting(s: State, x: Item): nat {
    One(AtIngress(s.ingress, x)) + One(s.slot == Some(x))
  }

  // What is dropped: a cancelled submission, the newest or the coalesced one under
  // overload, one whose encoding raises, a stale one at a flush, and what the owner clears.
  predicate Drops(s: State, step: Step, x: Item) {
    match step
    case OfIngress(InSlot(SubmitCancelled)) => AtIngress(s.ingress, x)
    case OfIngress(InSlot(HandleOverload)) => if s.dropNewest then AtIngress(s.ingress, x) else s.slot == Some(x)
    case OfIngress(InSlot(FlushDiscards)) => s.slot == Some(x)
    case OfIngress(OnRaw(SubmitEncodeFails)) => AtIngress(s.ingress, x)
    case OfControl(CancelQueued(raises)) => !raises && Clears(s, x)
    case OfControl(ClearCoalesced) => Clears(s, x)
    case _ => false
  }

  // The owner clears the slot of the generation it drains, or of anyone's after a fault.
  predicate Clears(s: State, x: Item) {
    && s.slot == Some(x) && s.control.Draining?
    && (s.control.generation.None? || s.control.generation.value == x.generation)
  }

  function Brought(s: State, steps: seq<Step>, x: Item): nat
    requires Runs(s, steps)
    decreases |steps|
  {
    if steps == [] then 0 else One(Brings(s, steps[0], x)) + Brought(Apply(s, steps[0]), steps[1..], x)
  }

  function Dropped(s: State, steps: seq<Step>, x: Item): nat
    requires Runs(s, steps)
    decreases |steps|
  {
    if steps == [] then 0 else One(Drops(s, steps[0], x)) + Dropped(Apply(s, steps[0]), steps[1..], x)
  }

  // A flush works on a copy of what is in the slot, and holds the slot's lock.
  predicate FlushHasTheSlot(s: State) {
    HoldsSlotLock(s.ingress) ==> s.slot == Some(s.ingress.item)
  }

  // What the step takes in, it keeps or drops.
  predicate Balances(s: State, step: Step, s': State, x: Item) {
    && multiset(s'.history.accepted)[x] + Waiting(s', x) + One(Drops(s, step, x))
       == multiset(s.history.accepted)[x] + Waiting(s, x) + One(Brings(s, step, x))
    && FlushHasTheSlot(s')
  }

  lemma Captures(gate: Gate)
    requires GateInv(gate) && AcquireCapture(gate).result.Ok?
    ensures var permit := AcquireCapture(gate).result.value;
            gate.c.active == Some(permit.generation) && gate.c.revision == Some(permit.revision)
  {
  }

  lemma BeginningBalances(s: State, recordId: int, expected: Generation, frames: seq<seq<int>>, x: Item)
    requires |s.edges| == 4 && IngressEnabled(s, BeginSubmit(recordId, expected, frames)) && GateInv(s.gate)
    ensures var a := BeginSubmit(recordId, expected, frames); Balances(s, OfIngress(a), ApplyIngress(s, a), x)
  {
    Captures(s.gate);
    hide AcquireCapture, GateInv;
  }

  lemma PassingBalances(s: State, a: IngressAction, x: Item)
    requires |s.edges| == 4 && IngressEnabled(s, a) && (a.BeginFlush? || a.EndIngress?)
    ensures Balances(s, OfIngress(a), ApplyIngress(s, a), x)
  {
    hide AcquireCapture, Release;
  }

  lemma SlotBalances(s: State, a: SlotAction, x: Item)
    requires |s.edges| == 4 && SlotEnabled(s, a) && FlushHasTheSlot(s)
    ensures Balances(s, OfIngress(InSlot(a)), ApplyIngress(s, InSlot(a)), x)
  {
  }

  lemma RawBalances(s: State, a: RawAction, x: Item)
    requires |s.edges| == 4 && RawFits(s.edges[0], s.ingress, s.slot, a) && FlushHasTheSlot(s)
    ensures Balances(s, OfIngress(OnRaw(a)), ApplyIngress(s, OnRaw(a)), x)
  {
    hide RawEdgeAfter, HasCredit;
  }

  lemma ControlBalances(s: State, a: ControlAction, x: Item)
    requires ControlEnabled(s, a) && FlushHasTheSlot(s)
    ensures Balances(s, OfControl(a), ApplyControl(s, a), x)
  {
    hide ControlGate, ControlAfter;
  }

  lemma WorkerBalances(s: State, k: nat, a: WorkerAction, x: Item)
    requires k < 4 && |s.edges| == 4 && |s.workers| == 4 && WorkerEnabled(s, k, a) && FlushHasTheSlot(s)
    ensures Balances(s, OfWorker(k, a), ApplyWorker(s, k, a), x)
  {
  }

  lemma PreflightBalances(s: State, a: PreflightAction, x: Item)
    requires PreflightEnabled(s, a) && FlushHasTheSlot(s)
    ensures Balances(s, OfPreflight(a), ApplyPreflight(s, a), x)
  {
  }

  lemma StepBalances(s: State, step: Step, x: Item)
    requires Enabled(s, step) && GateInv(s.gate) && FlushHasTheSlot(s)
    ensures Balances(s, step, Apply(s, step), x)
  {
    hide Balances, FlushHasTheSlot, GateInv;
    match step {
      case OfWorker(k, a) => WorkerBalances(s, k, a, x);
      case OfIngress(a) =>
        match a {
          case BeginSubmit(recordId, expected, frames) =>
            BeginningBalances(s, recordId, expected, frames, x);
            assert Balances(s, step, Apply(s, step), x);
          case InSlot(l) => SlotBalances(s, l, x);
          case OnRaw(r) => RawBalances(s, r, x);
          case _ => PassingBalances(s, a, x);
        }
      case OfPreflight(a) => PreflightBalances(s, a, x);
      case OfControl(a) => ControlBalances(s, a, x);
    }
  }

  lemma {:induction false} SubmissionsBalance(s: State, steps: seq<Step>, x: Item)
    requires Inv(s) && FlushHasTheSlot(s) && Runs(s, steps)
    ensures var s' := After(s, steps);
            multiset(s'.history.accepted)[x] + Waiting(s', x) + Dropped(s, steps, x)
            == multiset(s.history.accepted)[x] + Waiting(s, x) + Brought(s, steps, x)
    decreases |steps|
  {
    hide Apply, Enabled, Inv, GateInv, Waiting, Brings, Drops, FlushHasTheSlot, One;
    if steps != [] {
      OwnerParts(s);
      StepBalances(s, steps[0], x);
      StepKeepsInv(s, steps[0]);
      SubmissionsBalance(Apply(s, steps[0]), steps[1..], x);
    }
  }

  // Every submission under the recording generation is accepted once, still waits at the
  // ingress, or was dropped by a step of the run; and nothing else is accepted.
  lemma SubmissionsAreAccountedFor(s: State, steps: seq<Step>, x: Item)
    requires Initial(s) && Runs(s, steps)
    ensures Brought(s, steps, x)
         == multiset(After(s, steps).history.accepted)[x] + Waiting(After(s, steps), x) + Dropped(s, steps, x)
  {
    hide Apply, Enabled;
    InitialInv(s);
    SubmissionsBalance(s, steps, x);
  }

  // ---------- accepted records ----------

  // How often the record with this number waits for a stage or is in a stage's hands.
  function Inside(s: State, i: nat): nat
    requires |s.edges| == 4 && |s.workers| == 4
  {
    InQueues(s.edges, i) + InHands(s.workers, i)
  }

  function InQueues(edges: seq<Edge>, i: nat): nat
    requires |edges| == 4
  {
    Among(edges[0].queue, i) + Among(edges[1].queue, i) + Among(edges[2].queue, i) + Among(edges[3].queue, i)
  }

  function InHands(workers: seq<Worker>, i: nat): nat
    requires |workers| == 4
  {
    InHandOf(workers[0].pc, i) + InHandOf(workers[1].pc, i) + InHandOf(workers[2].pc, i) + InHandOf(workers[3].pc, i)
  }

  function Among(messages: seq<Message>, i: nat): nat {
    if messages == [] then 0 else Among(messages[..|messages| - 1], i) + One(messages[|messages| - 1].ticket == i)
  }

  // A stage is done with its message once it was forwarded, persisted or given up.
  function InHandOf(pc: Pc, i: nat): nat {
    if pc.Polling? || pc.Finishing? || pc.Persisted? || pc.Unlocking? then 0 else One(pc.m.ticket == i)
  }

  // The stages at which a record is given up, and why.
  predicate GivesUp(gate: Gate, k: nat, w: Worker, a: WorkerAction)
    requires !w.pc.Polling?
  {
    match a
    case Local(Discard) => true
    case Local(DecodeFails) => true
    case Local(FirstCheck) => !Current(gate, w.pc.m.item.generation)
    case Local(ProcessorFails) => true
    case Local(SkipCancelled) => true
    case Local(SecondCheck) =>
      !Current(gate, w.pc.m.item.generation) || (w.pc.Produced? && !Accepts(k, w.pc.m.item, w.pc.output))
    case Local(FindNoCredit) => true
    case OnEdge(HeaderUnreadable(_)) => true
    case OnEdge(EncodeFails) => true
    case OnEdge(ReturnCredit) => true
    case AtGate(AdmitCommit) => !Current(gate, w.pc.m.item.generation)
    case AtGate(PersistFails) => true
    case _ => false
  }

  // The next stage's item for the same record, generation and revision.
  predicate Accepts(k: nat, source: Item, output: Item) {
    && output.stage == (if k == 0 then Analyzed else if k == 1 then Redacted else Encrypted)
    && output.recordId == source.recordId
    && output.generation == source.generation
    && output.revision == source.revision
  }

  // This step gives up the record with this number.
  predicate Loses(s: State, step: Step, i: nat)
    requires |s.workers| == 4
  {
    && step.OfWorker? && step.k < 4 && !s.workers[step.k].pc.Polling?
    && GivesUp(s.gate, step.k, s.workers[step.k], step.work) && s.workers[step.k].pc.m.ticket == i
  }

  // How often the run gives it up.
  function GivenUp(s: State, steps: seq<Step>, i: nat): nat
    requires Runs(s, steps)
    decreases |steps|
  {
    if steps == [] then 0
    else assert Enabled(s, steps[0]); One(Loses(s, steps[0], i)) + GivenUp(Apply(s, steps[0]), steps[1..], i)
  }

  lemma OneMore(messages: seq<Message>, m: Message, i: nat)
    ensures Among(messages + [m], i) == Among(messages, i) + One(m.ticket == i)
  {
    assert (messages + [m])[..|messages|] == messages;
  }

  lemma {:induction false} OneLess(messages: seq<Message>, i: nat)
    requires messages != []
    ensures Among(messages, i) == One(messages[0].ticket == i) + Among(messages[1..], i)
  {
    var n := |messages| - 1;
    if n > 0 {
      OneLess(messages[..n], i);
      assert messages[..n][1..] == messages[1..][..n - 1];
    }
  }

  lemma QueueReplaced(edges: seq<Edge>, j: nat, e: Edge, i: nat)
    requires |edges| == 4 && j < 4
    ensures InQueues(edges[j := e], i) + Among(edges[j].queue, i) == InQueues(edges, i) + Among(e.queue, i)
  {
    hide Among;
  }

  lemma HandReplaced(workers: seq<Worker>, k: nat, w: Worker, i: nat)
    requires |workers| == 4 && k < 4
    ensures InHands(workers[k := w], i) + InHandOf(workers[k].pc, i) == InHands(workers, i) + InHandOf(w.pc, i)
  {
    hide InHandOf;
  }

  lemma LocalGivesUp(gate: Gate, k: nat, w: Worker, a: LocalAction, i: nat)
    requires k < 4 && LocalFits(k, w, a)
    ensures InHandOf(LocalWorker(gate, k, w, a).pc, i) + One(GivesUp(gate, k, w, Local(a)) && w.pc.m.ticket == i)
         == InHandOf(w.pc, i)
  {
  }

  lemma EdgeGivesUp(e: Edge, gate: Gate, k: nat, w: Worker, a: EdgeAction, i: nat)
    requires EdgeFits(e, w, a)
    ensures Among(EdgeAfter(e, w, a).queue, i) + InHandOf(WorkerAfter(e, w, a).pc, i)
            + One(!w.pc.Polling? && GivesUp(gate, k, w, OnEdge(a)) && w.pc.m.ticket == i)
         == Among(e.queue, i) + InHandOf(w.pc, i)
  {
    hide Among, Accepts, Current;
    if a.Receive? {
      OneLess(e.queue, i);
    } else if a.SendSucceeds? {
      OneMore(e.queue, Forward(w.pc.m, w.pc.output), i);
    }
  }

  lemma AdmittedWhenCurrent(gate: Gate, g: Generation)
    requires GateInv(gate)
    ensures AcquirePersistence(gate, g).result.Ok? <==> Current(gate, g)
  {
    GateOutcomes.WorkOutcomes(gate, g);
  }

  lemma CommitGivesUp(gate: Gate, w: Worker, h: History, commitLock: bool, a: CommitAction, i: nat)
    requires CommitFits(w.pc, commitLock, a) && GateInv(gate)
    ensures InHandOf(CommitWorker(gate, w, commitLock, a).pc, i) + Among(CommitHistory(h, w, a).committed, i)
            + One(GivesUp(gate, 3, w, AtGate(a)) && w.pc.m.ticket == i)
         == InHandOf(w.pc, i) + Among(h.committed, i)
  {
    hide Among;
    if a.AdmitCommit? {
      AdmittedWhenCurrent(gate, w.pc.m.item.generation);
    } else if a.PersistSucceeds? {
      OneMore(h.committed, w.pc.m, i);
    }
    hide GateInv, AcquirePersistence, Current;
  }

  // Records come in by being accepted, and go nowhere but to storage or a named loss.
  predicate Keeps(s: State, step: Step, s': State, i: nat)
    requires |s.edges| == 4 && |s.workers| == 4
  {
    && |s'.edges| == 4 && |s'.workers| == 4
    && Inside(s', i) + Among(s'.history.committed, i) + One(Loses(s, step, i)) + One(i < |s.history.accepted|)
       == Inside(s, i) + Among(s.history.committed, i) + One(i < |s'.history.accepted|)
  }

  lemma LocalKeeps(s: State, k: nat, a: LocalAction, i: nat)
    requires k < 4 && |s.edges| == 4 && |s.workers| == 4 && LocalEnabled(s, k, a)
    ensures Keeps(s, OfWorker(k, Local(a)), ApplyWorker(s, k, Local(a)), i)
  {
    hide InQueues, InHands, InHandOf, Among, GivesUp, LocalWorker;
    HandReplaced(s.workers, k, LocalWorker(s.gate, k, s.workers[k], a), i);
    LocalGivesUp(s.gate, k, s.workers[k], a, i);
  }

  lemma EdgeKeeps(s: State, k: nat, a: EdgeAction, i: nat)
    requires k < 4 && |s.edges| == 4 && |s.workers| == 4 && EdgeEnabled(s, k, a)
    ensures Keeps(s, OfWorker(k, OnEdge(a)), ApplyWorker(s, k, OnEdge(a)), i)
  {
    hide InQueues, InHands, InHandOf, Among, GivesUp, EdgeAfter, WorkerAfter, EdgeFits;
    var j := EdgeIndex(k, a);
    HandReplaced(s.workers, k, WorkerAfter(s.edges[j], s.workers[k], a), i);
    QueueReplaced(s.edges, j, EdgeAfter(s.edges[j], s.workers[k], a), i);
    EdgeGivesUp(s.edges[j], s.gate, k, s.workers[k], a, i);
  }

  lemma CommitKeeps(s: State, a: CommitAction, i: nat)
    requires |s.edges| == 4 && |s.workers| == 4 && CommitFits(s.workers[3].pc, s.commitLock, a) && GateInv(s.gate)
    ensures Keeps(s, OfWorker(3, AtGate(a)), ApplyCommit(s, a), i)
  {
    hide InQueues, InHands, InHandOf, Among, GivesUp, GateInv, CommitWorker, CommitGate;
    HandReplaced(s.workers, 3, CommitWorker(s.gate, s.workers[3], s.commitLock, a), i);
    CommitGivesUp(s.gate, s.workers[3], s.history, s.commitLock, a, i);
    NobodyPolls(s.workers[3].pc, s.commitLock, a);
  }

  lemma NobodyPolls(pc: Pc, commitLock: bool, a: CommitAction)
    requires CommitFits(pc, commitLock, a)
    ensures !pc.Polling?
  {
  }

  lemma RawKeeps(s: State, a: RawAction, i: nat)
    requires |s.edges| == 4 && |s.workers| == 4 && RawFits(s.edges[0], s.ingress, s.slot, a)
    ensures Keeps(s, OfIngress(OnRaw(a)), ApplyIngress(s, OnRaw(a)), i)
  {
    hide InQueues, InHands, Among;
    QueueReplaced(s.edges, 0, RawEdgeAfter(s.edges[0], s.ingress, s.slot, s.history.accepted, a), i);
    if Sends(a) {
      var item := RawItem(s.ingress, s.slot, a);
      OneMore(s.edges[0].queue, Message(item, |s.history.accepted|, [item.stage]), i);
    }
  }

  lemma OthersKeep(s: State, step: Step)
    requires Enabled(s, step) && !step.OfWorker? && !(step.OfIngress? && step.ingress.OnRaw?)
    ensures var s' := Apply(s, step);
            && s'.edges == s.edges && s'.workers == s.workers
            && s'.history.accepted == s.history.accepted && s'.history.committed == s.history.committed
  {
  }

  lemma StepKeeps(s: State, step: Step, i: nat)
    requires Enabled(s, step) && GateInv(s.gate)
    ensures Keeps(s, step, Apply(s, step), i)
  {
    match step {
      case OfWorker(k, Local(a)) => hide Keeps; LocalKeeps(s, k, a, i);
      case OfWorker(k, OnEdge(a)) => hide Keeps; EdgeKeeps(s, k, a, i);
      case OfWorker(k, AtGate(a)) => hide Keeps; CommitKeeps(s, a, i);
      case OfIngress(OnRaw(r)) => hide Keeps; RawKeeps(s, r, i);
      case _ =>
        hide InQueues, InHands, GateInv, Apply, Among, Enabled;
        assert Enabled(s, step);
        OthersKeep(s, step);
    }
  }

  lemma {:induction false} RecordsBalance(s: State, steps: seq<Step>, i: nat)
    requires Inv(s) && Runs(s, steps)
    ensures |s.edges| == 4 && |s.workers| == 4
    ensures var s' := After(s, steps);
            && |s'.edges| == 4 && |s'.workers| == 4
            && Inside(s', i) + Among(s'.history.committed, i) + GivenUp(s, steps, i) + One(i < |s.history.accepted|)
               == Inside(s, i) + Among(s.history.committed, i) + One(i < |s'.history.accepted|)
    decreases |steps|
  {
    hide Apply, Enabled, GateInv, Inv, Inside, Among, Loses, One;
    OwnerParts(s);
    if steps != [] {
      StepKeeps(s, steps[0], i);
      StepKeepsInv(s, steps[0]);
      RecordsBalance(Apply(s, steps[0]), steps[1..], i);
    }
  }

  // Every accepted record is in exactly one place: in the pipeline, in storage, or given
  // up by a step of the run.
  lemma RecordsAreAccountedFor(s: State, steps: seq<Step>, i: nat)
    requires Initial(s) && Runs(s, steps)
    ensures var s' := After(s, steps);
            && |s'.edges| == 4 && |s'.workers| == 4
            && Inside(s', i) + Among(s'.history.committed, i) + GivenUp(s, steps, i)
               == if i < |s'.history.accepted| then 1 else 0
  {
    hide Apply, Enabled;
    InitialInv(s);
    assert Inside(s, i) == 0 && Among(s.history.committed, i) == 0;
    hide Inv, Inside, Among;
    RecordsBalance(s, steps, i);
  }

  // ---------- when the choices are open ----------

  predicate Full(e: Edge) {
    |e.credits| == e.capacity
  }

  // A permit is cancelled exactly when its generation is no longer the active one.
  lemma CancelledExactly(s: State)
    requires Inv(s) && !s.ingress.Quiet?
    ensures PermitCancelled(s, s.ingress.permit) <==> s.gate.c.active != Some(s.ingress.permit.generation)
  {
  }

  lemma CapacitiesHold(s: State, k: nat)
    requires Inv(s) && k < 4
    ensures |s.edges| == 4 && |s.workers| == 4 && |s.edges[k].credits| <= s.edges[k].capacity
  {
    assert Balanced(s.edges[k], InHand(s.workers[k].pc), SenderCredit(s.workers, s.ingress, k));
  }

  lemma RecordingAdmits(gate: Gate)
    requires GateInv(gate)
    ensures AcquireCapture(gate).result.Ok? <==> gate.c.state == Recording
  {
    if gate.c.active.Some? {
      GateOutcomes.WorkOutcomes(gate, gate.c.active.value);
    }
  }

  // A submission begins exactly while recording. It is cancelled exactly when its
  // generation is gone, and finds no credit exactly when the raw edge is full.
  lemma SubmissionChoices(s: State, recordId: int, expected: Generation, frames: seq<seq<int>>)
    requires Inv(s)
    ensures Enabled(s, OfIngress(BeginSubmit(recordId, expected, frames))) <==> s.ingress.Quiet? && s.gate.c.state == Recording
    ensures Enabled(s, OfIngress(InSlot(SubmitCancelled)))
            <==> s.ingress.Submitting? && s.gate.c.active != Some(s.ingress.permit.generation)
    ensures |s.edges| == 4
    ensures Enabled(s, OfIngress(InSlot(SubmitFindsNoCredit))) <==> s.ingress.Submitting? && Full(s.edges[0])
    ensures Enabled(s, OfIngress(OnRaw(SubmitAcquire))) <==> s.ingress.Submitting? && !Full(s.edges[0])
    ensures Enabled(s, OfIngress(InSlot(HandleOverload))) <==> s.ingress.Overloaded?
  {
    hide Inv, GateInv, PermitCancelled, AcquireCapture;
    CapacitiesHold(s, 0);
    OwnerParts(s);
    RecordingAdmits(s.gate);
    if !s.ingress.Quiet? {
      CancelledExactly(s);
    }
  }

  // A flush ends empty-handed exactly when the slot is empty; it discards an item of
  // another generation than its own, or any once its own is gone; otherwise the raw edge
  // decides.
  lemma FlushChoices(s: State)
    requires Inv(s) && s.ingress.Flushing?
    ensures |s.edges| == 4
    ensures Enabled(s, OfIngress(InSlot(FlushEmpty))) <==> s.slot.None?
    ensures Enabled(s, OfIngress(InSlot(FlushDiscards)))
            <==> s.slot.Some? && (s.slot.value.generation != s.ingress.permit.generation
                                  || s.gate.c.active != Some(s.ingress.permit.generation))
    ensures var fits := s.slot.Some? && s.slot.value.generation == s.ingress.permit.generation;
            && (Enabled(s, OfIngress(InSlot(FlushOverload))) <==> fits && Full(s.edges[0]))
            && (Enabled(s, OfIngress(OnRaw(FlushAcquire))) <==> fits && !Full(s.edges[0]))
  {
    hide Inv, PermitCancelled;
    CapacitiesHold(s, 0);
    CancelledExactly(s);
  }

  // A stage sends exactly while the next edge has room, and the last stage, which alone
  // takes the commit lock, is never kept from it.
  lemma StageChoices(s: State, k: nat)
    requires Inv(s) && k < 3
    ensures |s.edges| == 4 && |s.workers| == 4
    ensures Enabled(s, OfWorker(k, OnEdge(AcquireCredit))) <==> s.workers[k].pc.Checked? && !Full(s.edges[k + 1])
    ensures Enabled(s, OfWorker(k, Local(FindNoCredit))) <==> s.workers[k].pc.Checked? && Full(s.edges[k + 1])
    ensures Enabled(s, OfWorker(3, AtGate(LockCommit))) <==> s.workers[3].pc.AwaitingCommit?
  {
    hide Inv, LocalWorker, CurrentGenerationError;
    CapacitiesHold(s, k + 1);
    CommitterLock(s);
  }

  lemma CommitterLock(s: State)
    requires Inv(s)
    ensures s.workers[3].pc.AwaitingCommit? ==> !s.commitLock
  {
  }
}
