/** Every step of the ingress owner and of the preflight actor keeps the invariant. */
module ProtocolIngress {
  import opened Wrappers
  import opened Lifecycle
  import opened GateModel
  import opened PipelineModel
  import opened Protocol
  import opened ProtocolInvariant
  import opened ProtocolWorkers

  // ---------- the flow of messages ----------

  // Changing only the ingress and the slot, without touching a credit.
  lemma IngressReplacedKeepsFlow(edges: seq<Edge>, workers: seq<Worker>, ingress: IngressPc, slot: Option<Item>, h: History,
                                 ingress': IngressPc, slot': Option<Item>)
    requires FlowInv(edges, workers, ingress, slot, h)
    requires IngressCredit(ingress') == IngressCredit(ingress)
    requires IngressOk(ingress', h) && SlotOk(slot', h)
    ensures FlowInv(edges, workers, ingress', slot', h)
  {
    hide Balanced, InHand, IngressCredit, Ordered, Levels, Provenance, AcceptedOk, IngressOk, SlotOk;
    forall k | 0 <= k < 4
      ensures Balanced(edges[k], InHand(workers[k].pc), SenderCredit(workers, ingress', k))
    {
      assert Balanced(edges[k], InHand(workers[k].pc), SenderCredit(workers, ingress, k));
    }
  }

  // Changing the raw edge together with the ingress, as far as credits go.
  lemma RawEdgeReplaced(edges: seq<Edge>, workers: seq<Worker>, ingress: IngressPc, e: Edge, ingress': IngressPc)
    requires |edges| == 4 && |workers| == 4 && Credits(edges, workers, ingress)
    requires Balanced(e, InHand(workers[0].pc), IngressCredit(ingress'))
    ensures Credits(edges[0 := e], workers, ingress')
  {
    hide Balanced, InHand, IngressCredit;
    forall k | 0 <= k < 4
      ensures Balanced(edges[0 := e][k], InHand(workers[k].pc), SenderCredit(workers, ingress', k))
    {
      if k != 0 {
        assert edges[0 := e][k] == edges[k];
        assert Balanced(edges[k], InHand(workers[k].pc), SenderCredit(workers, ingress, k));
      }
    }
  }

  lemma TakingBalances(e: Edge, inHand: multiset<Generation>, ingress: IngressPc, slot: Option<Item>,
                       accepted: seq<Item>, a: RawAction)
    requires a.SubmitAcquire? || a.FlushAcquire?
    requires RawFits(e, ingress, slot, a) && Balanced(e, inHand, IngressCredit(ingress))
    ensures Balanced(RawEdgeAfter(e, ingress, slot, accepted, a), inHand, IngressCredit(PcAfterRaw(e, ingress, slot, a)))
  {
    AcquiredBalances(e, inHand, RawItem(ingress, slot, a).generation);
  }

  lemma GivingBalances(e: Edge, inHand: multiset<Generation>, ingress: IngressPc, slot: Option<Item>,
                       accepted: seq<Item>, a: RawAction)
    requires !a.SubmitAcquire? && !a.FlushAcquire?
    requires RawFits(e, ingress, slot, a) && Balanced(e, inHand, IngressCredit(ingress))
    ensures Balanced(RawEdgeAfter(e, ingress, slot, accepted, a), inHand, IngressCredit(PcAfterRaw(e, ingress, slot, a)))
  {
    var item := ingress.item;
    assert IngressCredit(PcAfterRaw(e, ingress, slot, a)) == multiset{};
    assert Balanced(e, inHand, multiset{item.generation});
    if Sends(a) {
      SentBalances(e, inHand, Message(item, |accepted|, [item.stage]));
    } else if a.SubmitReturns? || a.FlushReturns? {
      ReturnedBalances(e, inHand, item.generation);
    } else {
      LeakedBalances(e, inHand, item.generation);
    }
  }

  lemma RawBalance(e: Edge, inHand: multiset<Generation>, ingress: IngressPc, slot: Option<Item>,
                   accepted: seq<Item>, a: RawAction)
    requires RawFits(e, ingress, slot, a) && Balanced(e, inHand, IngressCredit(ingress))
    ensures Balanced(RawEdgeAfter(e, ingress, slot, accepted, a), inHand, IngressCredit(PcAfterRaw(e, ingress, slot, a)))
  {
    if a.SubmitAcquire? || a.FlushAcquire? {
      TakingBalances(e, inHand, ingress, slot, accepted, a);
    } else {
      GivingBalances(e, inHand, ingress, slot, accepted, a);
    }
  }

  lemma RawKeepsIngressOk(e: Edge, ingress: IngressPc, slot: Option<Item>, h: History, a: RawAction)
    requires RawFits(e, ingress, slot, a) && IngressOk(ingress, h) && SlotOk(slot, h)
    ensures IngressOk(PcAfterRaw(e, ingress, slot, a), h)
    ensures SlotOk(SlotAfterRaw(slot, a), h)
    ensures ItemOk(h, RawItem(ingress, slot, a))
  {
  }

  // Raw steps that send nothing leave every queue as it is.
  lemma CreditOnRawKeepsFlow(edges: seq<Edge>, workers: seq<Worker>, ingress: IngressPc, slot: Option<Item>, h: History,
                             e: Edge, ingress': IngressPc, slot': Option<Item>, edges': seq<Edge>)
    requires FlowInv(edges, workers, ingress, slot, h)
    requires edges' == edges[0 := e] && e.queue == edges[0].queue
    requires Balanced(e, InHand(workers[0].pc), IngressCredit(ingress'))
    requires IngressOk(ingress', h) && SlotOk(slot', h)
    ensures FlowInv(edges', workers, ingress', slot', h)
  {
    hide Balanced, InHand, IngressCredit, Ordered, Levels, AcceptedOk, IngressOk, SlotOk, MessageOk, PcOk;
    RawEdgeReplaced(edges, workers, ingress, e, ingress');
    CreditKeepsOrder(edges, workers, h, 0, e, 0, workers[0]);
    SelfUpdate(workers, 0);
    assert QueueOk(h, 0, edges[0].queue);
    assert forall k :: 0 < k < 4 ==> edges'[k] == edges[k];
  }

  // ---------- accepting a submission ----------

  lemma AcceptingKeepsProvenance(edges: seq<Edge>, workers: seq<Worker>, h: History, item: Item)
    requires |edges| == 4 && |workers| == 4 && Provenance(edges, workers, h)
    ensures Provenance(edges, workers, h.(accepted := h.accepted + [item]))
  {
    var h' := h.(accepted := h.accepted + [item]);
    assert forall k, n | 0 <= k < 4 && MessageOk(h, k, n) :: MessageOk(h', k, n);
    forall k | 0 <= k < 4
      ensures QueueOk(h', k, edges[k].queue) && PcOk(h', k, workers[k].pc)
    {
      assert QueueOk(h, k, edges[k].queue) && PcOk(h, k, workers[k].pc);
    }
  }

  // Every ticket in the system belongs to an accepted submission.
  lemma TicketsAreAccepted(edges: seq<Edge>, workers: seq<Worker>, h: History, l: nat, i: nat)
    requires |edges| == 4 && |workers| == 4 && Provenance(edges, workers, h)
    requires l < 9 && i < |Levels(edges, workers, h)[l]|
    ensures Levels(edges, workers, h)[l][i] < |h.accepted|
  {
    if l == 8 {
      assert MessageOk(h, 3, h.committed[i]);
    } else if l % 2 == 0 {
      QueueTicketsAccepted(h, l / 2, edges[l / 2].queue, i);
    } else {
      assert PcOk(h, l / 2, workers[l / 2].pc);
    }
  }

  lemma QueueTicketsAccepted(h: History, k: nat, queue: seq<Message>, i: nat)
    requires k < 4 && QueueOk(h, k, queue) && i < |Tickets(queue)|
    ensures Tickets(queue)[i] < |h.accepted|
  {
    assert MessageOk(h, k, queue[i]);
  }

  // The newest submission enters behind all others.
  lemma EnteringKeepsOrder(levels: seq<seq<nat>>, newest: nat, top: seq<nat>)
    requires |levels| > 0 && Ordered(levels) && top == levels[0] + [newest]
    requires forall l, i :: 0 <= l < |levels| && 0 <= i < |levels[l]| ==> levels[l][i] < newest
    ensures Ordered(levels[0 := top])
  {
  }

  lemma AcceptingKeepsOrder(edges: seq<Edge>, workers: seq<Worker>, h: History, item: Item, e: Edge)
    requires |edges| == 4 && |workers| == 4 && Provenance(edges, workers, h) && Ordered(Levels(edges, workers, h))
    requires e.queue == edges[0].queue + [Message(item, |h.accepted|, [item.stage])]
    ensures Ordered(Levels(edges[0 := e], workers, h.(accepted := h.accepted + [item])))
  {
    var levels := Levels(edges, workers, h);
    forall l, i | 0 <= l < |levels| && 0 <= i < |levels[l]| ensures levels[l][i] < |h.accepted| {
      TicketsAreAccepted(edges, workers, h, l, i);
    }
    TicketsAppend(edges[0].queue, Message(item, |h.accepted|, [item.stage]));
    EnteringKeepsOrder(levels, |h.accepted|, Tickets(e.queue));
    assert Levels(edges[0 := e], workers, h.(accepted := h.accepted + [item])) == levels[0 := Tickets(e.queue)];
  }

  lemma EnteredIsOk(h: History, item: Item)
    requires ItemOk(h, item)
    ensures MessageOk(h.(accepted := h.accepted + [item]), 0, Message(item, |h.accepted|, [item.stage]))
  {
    assert Stages[..1] == [Raw];
  }

  lemma EnteredKeepsProvenance(edges: seq<Edge>, workers: seq<Worker>, h: History, item: Item,
                               e: Edge, edges': seq<Edge>, h': History)
    requires |edges| == 4 && |workers| == 4 && Provenance(edges, workers, h) && ItemOk(h, item)
    requires edges' == edges[0 := e] && h' == h.(accepted := h.accepted + [item])
    requires e.queue == edges[0].queue + [Message(item, |h.accepted|, [item.stage])]
    ensures Provenance(edges', workers, h')
  {
    AcceptingKeepsProvenance(edges, workers, h, item);
    EnteredIsOk(h, item);
    assert QueueOk(h', 0, edges[0].queue);
    QueueAppendOk(h', 0, edges[0].queue, Message(item, |h.accepted|, [item.stage]));
    forall k | 0 <= k < 4
      ensures QueueOk(h', k, edges'[k].queue) && PcOk(h', k, workers[k].pc)
    {
      assert QueueOk(h', k, edges[k].queue) && PcOk(h', k, workers[k].pc);
    }
  }

  lemma QueueAppendOk(h: History, k: nat, queue: seq<Message>, m: Message)
    requires k < 4 && QueueOk(h, k, queue) && MessageOk(h, k, m)
    ensures QueueOk(h, k, queue + [m])
  {
  }

  lemma AcceptingKeepsAccepted(h: History, item: Item, ingress: IngressPc, slot: Option<Item>)
    requires AcceptedOk(h) && ItemOk(h, item) && IngressOk(ingress, h) && SlotOk(slot, h)
    ensures var h' := h.(accepted := h.accepted + [item]);
            AcceptedOk(h') && IngressOk(ingress, h') && SlotOk(slot, h')
  {
  }

  lemma SendOnRawKeepsFlow(edges: seq<Edge>, workers: seq<Worker>, ingress: IngressPc, slot: Option<Item>, h: History,
                           item: Item, e: Edge, ingress': IngressPc, slot': Option<Item>, edges': seq<Edge>, h': History)
    requires FlowInv(edges, workers, ingress, slot, h) && ItemOk(h, item)
    requires edges' == edges[0 := e] && h' == h.(accepted := h.accepted + [item])
    requires e.queue == edges[0].queue + [Message(item, |h.accepted|, [item.stage])]
    requires Balanced(e, InHand(workers[0].pc), IngressCredit(ingress'))
    requires IngressOk(ingress', h) && SlotOk(slot', h)
    ensures FlowInv(edges', workers, ingress', slot', h')
  {
    RawEdgeReplaced(edges, workers, ingress, e, ingress');
    assert Shape(edges', workers);
    AcceptingKeepsOrder(edges, workers, h, item, e);
    AcceptingKeepsAccepted(h, item, ingress', slot');
    EnteredKeepsProvenance(edges, workers, h, item, e, edges', h');
  }

  lemma RawKeepsFlow(edges: seq<Edge>, workers: seq<Worker>, ingress: IngressPc, slot: Option<Item>, h: History,
                     a: RawAction, edges': seq<Edge>, h': History)
    requires FlowInv(edges, workers, ingress, slot, h) && RawFits(edges[0], ingress, slot, a)
    requires edges' == edges[0 := RawEdgeAfter(edges[0], ingress, slot, h.accepted, a)]
    requires h' == RawHistory(h, edges[0], ingress, slot, a)
    ensures FlowInv(edges', workers, PcAfterRaw(edges[0], ingress, slot, a),
                    SlotAfterRaw(slot, a), h')
  {
    var e := RawEdgeAfter(edges[0], ingress, slot, h.accepted, a);
    var ingress' := PcAfterRaw(edges[0], ingress, slot, a);
    var slot' := SlotAfterRaw(slot, a);
    assert Balanced(edges[0], InHand(workers[0].pc), SenderCredit(workers, ingress, 0));
    RawBalance(edges[0], InHand(workers[0].pc), ingress, slot, h.accepted, a);
    RawKeepsIngressOk(edges[0], ingress, slot, h, a);
    if Sends(a) {
      SendOnRawKeepsFlow(edges, workers, ingress, slot, h, ingress.item, e, ingress', slot', edges', h');
    } else {
      CreditOnRawKeepsFlow(edges, workers, ingress, slot, h, e, ingress', slot', edges');
    }
  }

  // ---------- quiet edges stay quiet ----------

  // The ingress takes credits and fills the slot only for the generation of the
  // operation it holds.
  lemma RawStaysQuiet(gate: Gate, edges: seq<Edge>, ingress: IngressPc, slot: Option<Item>, h: History,
                      a: RawAction)
    requires |edges| == 4 && RawFits(edges[0], ingress, slot, a) && IngressOk(ingress, h)
    requires ingress.permit.generation in gate.w.inFlight
    ensures StaysQuiet(gate, edges, slot, gate,
                       edges[0 := RawEdgeAfter(edges[0], ingress, slot, h.accepted, a)],
                       SlotAfterRaw(slot, a))
  {
    var e := RawEdgeAfter(edges[0], ingress, slot, h.accepted, a);
    assert RawItem(ingress, slot, a).generation == ingress.permit.generation;
    forall v, n | 0 <= n <= 4 && QuietUpTo(gate, edges, v, n)
      ensures QuietUpTo(gate, edges[0 := e], v, n)
    {
      if n > 0 {
        assert edges[0].credits[v] == 0;
        assert e.credits[v] == 0;
      }
    }
  }

  // ---------- the steps ----------

  lemma IngressHoldsOperation(s: State)
    requires Inv(s) && !s.ingress.Quiet?
    ensures s.ingress.permit.generation in s.gate.w.inFlight
  {
  }

  lemma AcceptingKeepsOperations(gate: Gate, commitLock: bool, ingress: IngressPc, preflight: Option<Permit>,
                                 committer: Pc, h: History, accepted: seq<Item>, ingress': IngressPc)
    requires OperationInv(gate, commitLock, ingress, preflight, committer, h)
    requires IngressOperation(ingress') == IngressOperation(ingress)
    ensures OperationInv(gate, commitLock, ingress', preflight, committer, h.(accepted := accepted))
  {
  }

  lemma AcceptingKeepsDrains(gate: Gate, edges: seq<Edge>, slot: Option<Item>, control: ControlPc,
                             h: History, accepted: seq<Item>)
    requires |edges| == 4 && DrainInv(gate, edges, slot, control, h)
    ensures DrainInv(gate, edges, slot, control, h.(accepted := accepted))
  {
  }

  lemma RawKeepsOperation(e: Edge, ingress: IngressPc, slot: Option<Item>, h: History, a: RawAction)
    requires RawFits(e, ingress, slot, a)
    ensures IngressOperation(PcAfterRaw(e, ingress, slot, a)) == IngressOperation(ingress)
    ensures RawHistory(h, e, ingress, slot, a) == h.(accepted := RawHistory(h, e, ingress, slot, a).accepted)
    ensures !ingress.Quiet?
  {
  }

  lemma RawKeepsInv(s: State, a: RawAction)
    requires Inv(s) && RawFits(s.edges[0], s.ingress, s.slot, a)
    ensures Inv(ApplyIngress(s, OnRaw(a)))
  {
    var s' := ApplyIngress(s, OnRaw(a));
    RawKeepsOperation(s.edges[0], s.ingress, s.slot, s.history, a);
    IngressHoldsOperation(s);
    RawKeepsFlow(s.edges, s.workers, s.ingress, s.slot, s.history, a, s'.edges, s'.history);
    RawStaysQuiet(s.gate, s.edges, s.ingress, s.slot, s.history, a);
    QuietStepKeepsDrains(s.gate, s.edges, s.slot, s.gate, s'.edges, s'.slot, s.control, s.history);
    AcceptingKeepsDrains(s.gate, s'.edges, s'.slot, s.control, s.history, s'.history.accepted);
    AcceptingKeepsOperations(s.gate, s.commitLock, s.ingress, s.preflight, s.workers[3].pc, s.history,
                             s'.history.accepted, s'.ingress);
  }

  // ---------- entering and leaving the gate ----------

  lemma SlotKeepsIngress(s: State, a: SlotAction, ingress: IngressPc, slot: Option<Item>)
    requires |s.edges| == 4 && SlotEnabled(s, a) && IngressOk(s.ingress, s.history) && SlotOk(s.slot, s.history)
    requires ingress == PcAfterSlot(s.ingress, a) && slot == SlotAfter(s, a)
    ensures IngressCredit(ingress) == IngressCredit(s.ingress)
    ensures IngressOperation(ingress) == IngressOperation(s.ingress)
    ensures IngressOk(ingress, s.history) && SlotOk(slot, s.history)
    ensures slot.Some? && slot != s.slot ==> slot.value.generation == s.ingress.permit.generation
    ensures !s.ingress.Quiet?
  {
    assert ingress == Leaving(s.ingress.permit)
        || ingress == SubmitFailed(s.ingress.permit, s.ingress.item)
        || ingress == Overloaded(s.ingress.permit, s.ingress.item)
        || ingress == FlushFailed(s.ingress.permit, s.ingress.item);
  }

  lemma SlotKeepsInv(s: State, a: SlotAction)
    requires Inv(s) && SlotEnabled(s, a)
    ensures Inv(ApplyIngress(s, InSlot(a)))
  {
    var s' := ApplyIngress(s, InSlot(a));
    SlotKeepsIngress(s, a, s'.ingress, s'.slot);
    IngressHoldsOperation(s);
    IngressReplacedKeepsFlow(s.edges, s.workers, s.ingress, s.slot, s.history, s'.ingress, s'.slot);
    QuietStepKeepsDrains(s.gate, s.edges, s.slot, s.gate, s.edges, s'.slot, s.control, s.history);
    AcceptingKeepsOperations(s.gate, s.commitLock, s.ingress, s.preflight, s.workers[3].pc, s.history,
                             s.history.accepted, s'.ingress);
  }

  lemma SameButWorkKeepsOperations(gate: Gate, commitLock: bool, ingress: IngressPc, preflight: Option<Permit>,
                                   committer: Pc, h: History, gate': Gate, ingress': IngressPc, preflight': Option<Permit>)
    requires OperationInv(gate, commitLock, ingress, preflight, committer, h) && SameButWork(gate, gate')
    requires Operations(gate', ingress', preflight', committer)
    ensures OperationInv(gate', commitLock, ingress', preflight', committer, h)
  {
  }

  lemma AddOne(total: multiset<Generation>, a: multiset<Generation>, b: multiset<Generation>, c: multiset<Generation>,
               g: Generation)
    requires total == a + b + c
    ensures total + multiset{g} == (a + multiset{g}) + b + c
    ensures total + multiset{g} == a + (b + multiset{g}) + c
  {
  }

  lemma TakeOne(total: multiset<Generation>, b: multiset<Generation>, c: multiset<Generation>, g: Generation)
    ensures total == multiset{g} + b + c ==> total - multiset{g} == multiset{} + b + c
    ensures total == b + multiset{g} + c ==> total - multiset{g} == b + multiset{} + c
  {
  }

  lemma CaptureAdmission(gate: Gate)
    requires GateInv(gate) && AcquireCapture(gate).result.Ok?
    ensures gate.c.active.Some? && AcquireCapture(gate) == Register(gate, gate.c.active.value)
    ensures AcquireCapture(gate).result.value.generation == gate.c.active.value
    ensures Some(AcquireCapture(gate).result.value.revision) == gate.c.revision
  {
  }

  // What the ingress stands on once the gate has admitted it.
  predicate Entered(ingress: IngressPc, permit: Permit) {
    || ingress == Flushing(permit)
    || ingress == Leaving(permit)
    || (&& ingress.Submitting? && ingress.permit == permit && ingress.item.stage == Raw
        && ingress.item.generation == permit.generation && ingress.item.revision == permit.revision)
  }

  lemma EnteredIngress(ingress: IngressPc, permit: Permit, h: History)
    requires Entered(ingress, permit) && OfSession(h, permit.generation, permit.revision)
    ensures IngressOperation(ingress) == multiset{permit.generation} && IngressCredit(ingress) == multiset{}
    ensures IngressOk(ingress, h)
  {
  }

  lemma EnteringTheGate(s: State, gate: Gate, ingress: IngressPc, permit: Permit)
    requires Inv(s) && s.ingress.Quiet? && AcquireCapture(s.gate) == Called(gate, Ok(permit))
    requires IngressOperation(ingress) == multiset{permit.generation}
    ensures OperationInv(gate, s.commitLock, ingress, s.preflight, s.workers[3].pc, s.history)
    ensures DrainInv(gate, s.edges, s.slot, s.control, s.history)
    ensures OfSession(s.history, permit.generation, permit.revision)
  {
    CaptureAdmission(s.gate);
    AdmittedStaysQuiet(s.gate, permit.generation, s.edges, s.slot);
    QuietStepKeepsDrains(s.gate, s.edges, s.slot, gate, s.edges, s.slot, s.control, s.history);
    AddOne(s.gate.w.inFlight, multiset{}, PreflightOperation(s.preflight), CommitOperation(s.workers[3].pc),
           permit.generation);
    assert multiset{} + multiset{permit.generation} == multiset{permit.generation};
    SameButWorkKeepsOperations(s.gate, s.commitLock, s.ingress, s.preflight, s.workers[3].pc, s.history,
                               gate, ingress, s.preflight);
  }

  lemma EnteringKeepsInv(s: State, gate: Gate, ingress: IngressPc, permit: Permit)
    requires Inv(s) && s.ingress.Quiet? && AcquireCapture(s.gate) == Called(gate, Ok(permit))
    requires Entered(ingress, permit)
    ensures Inv(s.(gate := gate, ingress := ingress))
  {
    assert IngressOperation(ingress) == multiset{permit.generation};
    EnteringTheGate(s, gate, ingress, permit);
    EnteringKeepsFlow(s.edges, s.workers, s.slot, s.history, ingress, permit);
  }

  lemma EnteringKeepsFlow(edges: seq<Edge>, workers: seq<Worker>, slot: Option<Item>, h: History,
                          ingress: IngressPc, permit: Permit)
    requires FlowInv(edges, workers, Quiet, slot, h)
    requires Entered(ingress, permit) && OfSession(h, permit.generation, permit.revision)
    ensures FlowInv(edges, workers, ingress, slot, h)
  {
    EnteredIngress(ingress, permit, h);
    IngressReplacedKeepsFlow(edges, workers, Quiet, slot, h, ingress, slot);
  }

  lemma LeavingTheGate(s: State, g: Generation, gate: Gate)
    requires Inv(s) && s.ingress.Leaving? && g == s.ingress.permit.generation && gate == Release(s.gate, g)
    ensures OperationInv(gate, s.commitLock, Quiet, s.preflight, s.workers[3].pc, s.history)
    ensures DrainInv(gate, s.edges, s.slot, s.control, s.history)
  {
    ReleasedStaysQuiet(s.gate, g, s.edges, s.slot);
    QuietStepKeepsDrains(s.gate, s.edges, s.slot, gate, s.edges, s.slot, s.control, s.history);
    TakeOne(s.gate.w.inFlight, PreflightOperation(s.preflight), CommitOperation(s.workers[3].pc), g);
    SameButWorkKeepsOperations(s.gate, s.commitLock, s.ingress, s.preflight, s.workers[3].pc, s.history,
                               gate, Quiet, s.preflight);
  }

  lemma LeavingKeepsInv(s: State)
    requires Inv(s) && s.ingress.Leaving?
    ensures Inv(s.(gate := Release(s.gate, s.ingress.permit.generation), ingress := Quiet))
  {
    LeavingTheGate(s, s.ingress.permit.generation, Release(s.gate, s.ingress.permit.generation));
    LeavingKeepsFlow(s.edges, s.workers, s.ingress, s.slot, s.history);
  }

  lemma LeavingKeepsFlow(edges: seq<Edge>, workers: seq<Worker>, ingress: IngressPc, slot: Option<Item>, h: History)
    requires FlowInv(edges, workers, ingress, slot, h) && ingress.Leaving?
    ensures FlowInv(edges, workers, Quiet, slot, h)
  {
    hide Shape, Credits, AcceptedOk, Provenance, Ordered, Levels, SlotOk;
    IngressReplacedKeepsFlow(edges, workers, ingress, slot, h, Quiet, slot);
  }

  lemma IngressKeepsInv(s: State, a: IngressAction)
    requires Inv(s) && IngressEnabled(s, a)
    ensures Inv(ApplyIngress(s, a))
  {
    match a {
      case BeginSubmit(recordId, expected, frames) =>
        var called := AcquireCapture(s.gate);
        EnteringKeepsInv(s, called.gate, Submission(called.result.value, recordId, expected, frames), called.result.value);
      case BeginFlush =>
        var called := AcquireCapture(s.gate);
        EnteringKeepsInv(s, called.gate, Flushing(called.result.value), called.result.value);
      case InSlot(l) => SlotKeepsInv(s, l);
      case OnRaw(r) => RawKeepsInv(s, r);
      case EndIngress => LeavingKeepsInv(s);
    }
  }

  // ---------- preflight ----------

  lemma PreflightAdmission(gate: Gate, g: Generation)
    requires AcquirePreflight(gate, g).result.Ok?
    ensures gate.c.active == Some(g) && AcquirePreflight(gate, g) == Register(gate, g)
  {
  }

  lemma PreflightEntersKeepsInv(s: State, g: Generation, gate: Gate, permit: Permit)
    requires Inv(s) && s.preflight.None? && AcquirePreflight(s.gate, g) == Called(gate, Ok(permit))
    ensures Inv(s.(gate := gate, preflight := Some(permit)))
  {
    PreflightAdmission(s.gate, g);
    AdmittedStaysQuiet(s.gate, g, s.edges, s.slot);
    QuietStepKeepsDrains(s.gate, s.edges, s.slot, gate, s.edges, s.slot, s.control, s.history);
    AddOne(s.gate.w.inFlight, IngressOperation(s.ingress), multiset{}, CommitOperation(s.workers[3].pc), g);
    assert PreflightOperation(Some(permit)) == multiset{} + multiset{g};
    SameButWorkKeepsOperations(s.gate, s.commitLock, s.ingress, s.preflight, s.workers[3].pc, s.history,
                               gate, s.ingress, Some(permit));
  }

  lemma PreflightLeavesKeepsInv(s: State, g: Generation)
    requires Inv(s) && s.preflight.Some? && s.preflight.value.generation == g
    ensures Inv(s.(gate := Release(s.gate, g), preflight := None))
  {
    ReleasedStaysQuiet(s.gate, g, s.edges, s.slot);
    QuietStepKeepsDrains(s.gate, s.edges, s.slot, Release(s.gate, g), s.edges, s.slot, s.control, s.history);
    TakeOne(s.gate.w.inFlight, IngressOperation(s.ingress), CommitOperation(s.workers[3].pc), g);
    SameButWorkKeepsOperations(s.gate, s.commitLock, s.ingress, s.preflight, s.workers[3].pc, s.history,
                               Release(s.gate, g), s.ingress, None);
  }

  lemma PreflightKeepsInv(s: State, a: PreflightAction)
    requires Inv(s) && PreflightEnabled(s, a)
    ensures Inv(ApplyPreflight(s, a))
  {
    match a {
      case BeginPreflight(g) =>
        var called := AcquirePreflight(s.gate, g);
        PreflightEntersKeepsInv(s, g, called.gate, called.result.value);
      case EndPreflight =>
        PreflightLeavesKeepsInv(s, s.preflight.value.generation);
    }
  }
}
