/** Every step of a stage actor keeps the invariant. */
module ProtocolWorkers {
  import opened Wrappers
  import opened Lifecycle
  import opened GateModel
  import opened PipelineModel
  import opened Protocol
  import opened ProtocolInvariant

  // ---------- steps inside the actor ----------

  // The actor keeps its message and everything it holds; at most it gives up
  // passing the message on.
  predicate SameHolding(k: nat, pc: Pc, pc': Pc) {
    && !pc.Polling? && !pc'.Polling? && pc'.m == pc.m
    && OutputCredit(pc') == OutputCredit(pc)
    && CommitOperation(pc') == CommitOperation(pc)
    && HoldsCommitLock(pc') == HoldsCommitLock(pc)
    && !pc'.Committing? && !pc'.Persisted?
    && (Pending(pc') == Pending(pc) || Pending(pc') == [])
    && WorkerShape(k, pc')
  }

  lemma LocalKeepsHolding(gate: Gate, k: nat, w: Worker, a: LocalAction)
    requires k < 4 && WorkerShape(k, w.pc) && LocalFits(k, w, a)
    ensures SameHolding(k, w.pc, LocalWorker(gate, k, w, a).pc)
  {
    var pc' := LocalWorker(gate, k, w, a).pc;
    assert pc'.m == w.pc.m;
    assert pc'.SendFailed? <==> w.pc.Sending?;
    assert WorkerShape(k, pc');
  }

  lemma HoldingKeepsShape(edges: seq<Edge>, workers: seq<Worker>, k: nat, w: Worker)
    requires Shape(edges, workers) && k < 4 && WorkerShape(k, w.pc)
    ensures Shape(edges, workers[k := w])
  {
  }

  lemma HoldingKeepsCredits(edges: seq<Edge>, workers: seq<Worker>, ingress: IngressPc, k: nat, w: Worker)
    requires |edges| == 4 && |workers| == 4 && k < 4 && Credits(edges, workers, ingress)
    requires InHand(w.pc) == InHand(workers[k].pc) && OutputCredit(w.pc) == OutputCredit(workers[k].pc)
    ensures Credits(edges, workers[k := w], ingress)
  {
    OwnEdgeReplaced(edges, workers, ingress, k, edges[k], w);
    SelfUpdate(edges, k);
  }

  lemma HoldingKeepsProvenance(edges: seq<Edge>, workers: seq<Worker>, h: History, k: nat, w: Worker)
    requires Shape(edges, workers) && k < 4 && Provenance(edges, workers, h)
    requires PcOk(h, k, w.pc)
    ensures Provenance(edges, workers[k := w], h)
  {
  }

  // Forgetting submissions at one level leaves the rest in order.
  lemma ForgettingKeepsOrder(levels: seq<seq<nat>>, l: nat)
    requires l < |levels| && Ordered(levels)
    ensures Ordered(levels[l := []])
  {
  }

  lemma SelfUpdate<T>(s: seq<T>, i: nat)
    requires i < |s|
    ensures s[i := s[i]] == s
  {
  }

  lemma HoldingKeepsOrder(edges: seq<Edge>, workers: seq<Worker>, h: History, k: nat, w: Worker)
    requires |edges| == 4 && |workers| == 4 && k < 4 && Ordered(Levels(edges, workers, h))
    requires Pending(w.pc) == Pending(workers[k].pc) || Pending(w.pc) == []
    ensures Ordered(Levels(edges, workers[k := w], h))
  {
    CreditKeepsOrder(edges, workers, h, k, edges[k], k, w);
    SelfUpdate(edges, k);
  }

  lemma HoldingKeepsFlow(edges: seq<Edge>, workers: seq<Worker>, ingress: IngressPc, slot: Option<Item>, h: History,
                         k: nat, w: Worker, workers': seq<Worker>)
    requires FlowInv(edges, workers, ingress, slot, h) && k < 4
    requires workers' == workers[k := w]
    requires WorkerShape(k, w.pc) && PcOk(h, k, w.pc)
    requires InHand(w.pc) == InHand(workers[k].pc) && OutputCredit(w.pc) == OutputCredit(workers[k].pc)
    requires Pending(w.pc) == Pending(workers[k].pc) || Pending(w.pc) == []
    ensures FlowInv(edges, workers', ingress, slot, h)
  {
    HoldingKeepsShape(edges, workers, k, w);
    assert Shape(edges, workers');
    HoldingKeepsCredits(edges, workers, ingress, k, w);
    HoldingKeepsProvenance(edges, workers, h, k, w);
    HoldingKeepsOrder(edges, workers, h, k, w);
  }

  lemma HoldingKeepsInv(s: State, k: nat, w: Worker, workers: seq<Worker>)
    requires Inv(s) && k < 4 && workers == s.workers[k := w]
    requires SameHolding(k, s.workers[k].pc, w.pc)
    ensures Inv(s.(workers := workers))
  {
    hide DrainInv, GateInv, Sessions, CommitOrder, Ordered, Levels, Credits, AcceptedOk, Operations, QueueOk;
    HoldingKeepsFlow(s.edges, s.workers, s.ingress, s.slot, s.history, k, w, workers);
    assert workers[3] == if k == 3 then w else s.workers[3];
    HoldingKeepsOperations(s.gate, s.commitLock, s.ingress, s.preflight, s.workers[3].pc, s.history, workers[3].pc);
  }

  lemma LocalKeepsInv(s: State, k: nat, a: LocalAction)
    requires Inv(s) && k < 4 && LocalEnabled(s, k, a)
    ensures Inv(ApplyWorker(s, k, Local(a)))
  {
    var s' := ApplyWorker(s, k, Local(a));
    var w := LocalWorker(s.gate, k, s.workers[k], a);
    LocalKeepsHolding(s.gate, k, s.workers[k], a);
    HoldingKeepsInv(s, k, w, s'.workers);
  }

  // A committer that neither takes nor gives back anything.
  lemma HoldingKeepsOperations(gate: Gate, commitLock: bool, ingress: IngressPc, preflight: Option<Permit>,
                               pc: Pc, h: History, pc': Pc)
    requires OperationInv(gate, commitLock, ingress, preflight, pc, h)
    requires CommitOperation(pc') == CommitOperation(pc) && HoldsCommitLock(pc') == HoldsCommitLock(pc)
    requires CommitSafe(gate, pc')
    ensures OperationInv(gate, commitLock, ingress, preflight, pc', h)
  {
  }

  // ---------- steps on an edge ----------

  lemma EdgeKeepsShape(e: Edge, k: nat, w: Worker, a: EdgeAction)
    requires k < 4 && WorkerShape(k, w.pc) && EdgeFits(e, w, a)
    ensures WorkerShape(k, WorkerAfter(e, w, a).pc)
    ensures CommitOperation(WorkerAfter(e, w, a).pc) == CommitOperation(w.pc)
    ensures HoldsCommitLock(WorkerAfter(e, w, a).pc) == HoldsCommitLock(w.pc)
    ensures var pc' := WorkerAfter(e, w, a).pc; !pc'.Committing? && !pc'.Persisted?
    ensures EdgeAfter(e, w, a).capacity == e.capacity
  {
  }

  lemma AcquiredBalances(e: Edge, inHand: multiset<Generation>, g: Generation)
    requires Balanced(e, inHand, multiset{}) && HasCredit(e)
    ensures Balanced(Acquired(e, g), inHand, multiset{g})
  {
  }

  lemma ReturnedBalances(e: Edge, inHand: multiset<Generation>, g: Generation)
    requires Balanced(e, inHand, multiset{g})
    ensures Balanced(Returned(e, g), inHand, multiset{})
  {
  }

  lemma SentBalances(e: Edge, inHand: multiset<Generation>, m: Message)
    requires Balanced(e, inHand, multiset{m.item.generation})
    ensures Balanced(Sent(e, m), inHand, multiset{})
  {
    QueuedAppend(e.queue, m);
  }

  lemma LeakedBalances(e: Edge, inHand: multiset<Generation>, g: Generation)
    requires Balanced(e, inHand, multiset{g})
    ensures Balanced(Leaked(e, g), inHand, multiset{})
  {
  }

  lemma ReceivedBalances(e: Edge, sending: multiset<Generation>)
    requires e.queue != [] && Balanced(e, multiset{}, sending)
    ensures Balanced(e.(queue := e.queue[1..]), multiset{e.queue[0].item.generation}, sending)
  {
  }

  lemma FinishedBalances(e: Edge, sending: multiset<Generation>, g: Generation)
    requires Balanced(e, multiset{g}, sending)
    ensures Balanced(Returned(e, g), multiset{}, sending)
  {
  }

  lemma UnreadBalances(e: Edge, sending: multiset<Generation>, g: Generation)
    requires Balanced(e, multiset{g}, sending)
    ensures Balanced(Leaked(e, g), multiset{}, sending)
  {
  }

  // Receiving and the two ways a message ends balance the stage's own edge.
  lemma OwnEdgeBalance(e: Edge, w: Worker, a: EdgeAction, sending: multiset<Generation>)
    requires OnOwnEdge(a)
    requires EdgeFits(e, w, a) && Balanced(e, InHand(w.pc), sending)
    ensures Balanced(EdgeAfter(e, w, a), InHand(WorkerAfter(e, w, a).pc), sending)
  {
    match a
    case Receive => ReceivedBalances(e, sending);
    case Finish => FinishedBalances(e, sending, w.pc.m.item.generation);
    case HeaderUnreadable(_) => UnreadBalances(e, sending, w.pc.m.item.generation);
  }

  // Sending, in each of its outcomes, balances the next edge.
  lemma NextEdgeBalance(e: Edge, w: Worker, a: EdgeAction, inHand: multiset<Generation>)
    requires !OnOwnEdge(a)
    requires EdgeFits(e, w, a) && Balanced(e, inHand, OutputCredit(w.pc))
    ensures Balanced(EdgeAfter(e, w, a), inHand, OutputCredit(WorkerAfter(e, w, a).pc))
  {
    match a
    case AcquireCredit => AcquiredBalances(e, inHand, w.pc.output.generation);
    case SendSucceeds => SentBalances(e, inHand, Forward(w.pc.m, w.pc.output));
    case EncodeFails => LeakedBalances(e, inHand, w.pc.output.generation);
    case ReturnCredit => ReturnedBalances(e, inHand, w.pc.output.generation);
  }

  // Which holdings of the actor an edge step leaves alone.
  lemma OtherHolding(e: Edge, w: Worker, a: EdgeAction)
    requires EdgeFits(e, w, a)
    ensures OnOwnEdge(a) ==> OutputCredit(WorkerAfter(e, w, a).pc) == OutputCredit(w.pc)
    ensures !OnOwnEdge(a) ==> InHand(WorkerAfter(e, w, a).pc) == InHand(w.pc)
  {
  }

  lemma OwnEdgeReplaced(edges: seq<Edge>, workers: seq<Worker>, ingress: IngressPc, k: nat, e: Edge, w: Worker)
    requires |edges| == 4 && |workers| == 4 && k < 4 && Credits(edges, workers, ingress)
    requires Balanced(e, InHand(w.pc), SenderCredit(workers, ingress, k))
    requires OutputCredit(w.pc) == OutputCredit(workers[k].pc)
    ensures Credits(edges[k := e], workers[k := w], ingress)
  {
    hide Balanced, InHand, OutputCredit, IngressCredit;
    var workers' := workers[k := w];
    forall i | 0 <= i < 4
      ensures Balanced(edges[k := e][i], InHand(workers'[i].pc), SenderCredit(workers', ingress, i))
    {
      if i == k {
        assert edges[k := e][i] == e && workers'[i] == w;
        assert SenderCredit(workers', ingress, i) == SenderCredit(workers, ingress, k);
      } else {
        assert edges[k := e][i] == edges[i] && workers'[i] == workers[i];
        if i > 0 {
          assert workers'[i - 1] == if i - 1 == k then w else workers[i - 1];
        }
      }
    }
  }

  lemma NextEdgeReplaced(edges: seq<Edge>, workers: seq<Worker>, ingress: IngressPc, k: nat, e: Edge, w: Worker)
    requires |edges| == 4 && |workers| == 4 && k < 3 && Credits(edges, workers, ingress)
    requires Balanced(e, InHand(workers[k + 1].pc), OutputCredit(w.pc))
    requires InHand(w.pc) == InHand(workers[k].pc)
    ensures Credits(edges[k + 1 := e], workers[k := w], ingress)
  {
    hide Balanced, InHand, OutputCredit, IngressCredit;
    var workers' := workers[k := w];
    forall i | 0 <= i < 4
      ensures Balanced(edges[k + 1 := e][i], InHand(workers'[i].pc), SenderCredit(workers', ingress, i))
    {
      if i == k + 1 {
        assert edges[k + 1 := e][i] == e && workers'[i] == workers[i] && workers'[i - 1] == w;
      } else {
        assert edges[k + 1 := e][i] == edges[i];
        assert workers'[i] == if i == k then w else workers[i];
        if i > 0 {
          assert workers'[i - 1] == workers[i - 1];
        }
      }
    }
  }

  lemma EdgeKeepsCredits(edges: seq<Edge>, workers: seq<Worker>, ingress: IngressPc, k: nat, a: EdgeAction)
    requires Shape(edges, workers) && k < 4 && (OnOwnEdge(a) || k < 3)
    requires Credits(edges, workers, ingress)
    requires EdgeFits(edges[EdgeIndex(k, a)], workers[k], a)
    ensures var j := EdgeIndex(k, a);
            Credits(edges[j := EdgeAfter(edges[j], workers[k], a)],
                    workers[k := WorkerAfter(edges[j], workers[k], a)], ingress)
  {
    var j := EdgeIndex(k, a);
    OtherHolding(edges[j], workers[k], a);
    assert Balanced(edges[j], InHand(workers[j].pc), SenderCredit(workers, ingress, j));
    if OnOwnEdge(a) {
      OwnEdgeBalance(edges[k], workers[k], a, SenderCredit(workers, ingress, k));
      OwnEdgeReplaced(edges, workers, ingress, k, EdgeAfter(edges[k], workers[k], a), WorkerAfter(edges[k], workers[k], a));
    } else {
      NextEdgeBalance(edges[j], workers[k], a, InHand(workers[j].pc));
      NextEdgeReplaced(edges, workers, ingress, k, EdgeAfter(edges[j], workers[k], a), WorkerAfter(edges[j], workers[k], a));
    }
  }

  // ---------- the submissions in flight ----------

  lemma EdgeKeepsProvenance(edges: seq<Edge>, workers: seq<Worker>, h: History, k: nat, a: EdgeAction)
    requires Shape(edges, workers) && k < 4 && (OnOwnEdge(a) || k < 3)
    requires Provenance(edges, workers, h)
    requires EdgeFits(edges[EdgeIndex(k, a)], workers[k], a)
    ensures var j := EdgeIndex(k, a);
            Provenance(edges[j := EdgeAfter(edges[j], workers[k], a)],
                       workers[k := WorkerAfter(edges[j], workers[k], a)], h)
  {
    var j := EdgeIndex(k, a);
    var e := EdgeAfter(edges[j], workers[k], a);
    var w := WorkerAfter(edges[j], workers[k], a);
    if a.SendSucceeds? {
      ForwardedIsOk(h, k, workers[k].pc);
      assert e.queue == edges[j].queue + [Forward(workers[k].pc.m, workers[k].pc.output)];
    }
    assert QueueOk(h, j, edges[j].queue);
    assert QueueOk(h, j, e.queue);
    assert PcOk(h, k, w.pc);
  }

  // What a stage sends on is a message its successor may receive.
  lemma ForwardedIsOk(h: History, k: nat, pc: Pc)
    requires k < 3 && WorkerShape(k, pc) && pc.Sending? && PcOk(h, k, pc)
    ensures MessageOk(h, k + 1, Forward(pc.m, pc.output))
  {
    assert Stages[..k + 1] + [Stages[k + 1]] == Stages[..k + 2];
  }

  // The oldest submission of a level moves one level down.
  lemma MovingKeepsOrder(levels: seq<seq<nat>>, l: nat, above: seq<nat>, below: seq<nat>)
    requires l + 1 < |levels| && levels[l] != [] && Ordered(levels)
    requires above == levels[l][1..] && below == levels[l + 1] + [levels[l][0]]
    ensures Ordered(levels[l := above][l + 1 := below])
  {
  }

  lemma UpdatesCommute<T>(s: seq<T>, i: nat, x: T, j: nat, y: T)
    requires i < |s| && j < |s| && i != j
    ensures s[i := x][j := y] == s[j := y][i := x]
  {
  }

  // Edge j and worker k own the levels 2j and 2k + 1.
  lemma LevelsUpdated(edges: seq<Edge>, workers: seq<Worker>, h: History, j: nat, e: Edge, k: nat, w: Worker)
    requires |edges| == 4 && |workers| == 4 && j < 4 && k < 4
    ensures Levels(edges[j := e], workers[k := w], h)
         == Levels(edges, workers, h)[2 * j := Tickets(e.queue)][2 * k + 1 := Pending(w.pc)]
  {
  }

  lemma TicketsTail(queue: seq<Message>)
    requires queue != []
    ensures Tickets(queue[1..]) == Tickets(queue)[1..] && Tickets(queue)[0] == queue[0].ticket
  {
  }

  lemma TicketsAppend(queue: seq<Message>, m: Message)
    ensures Tickets(queue + [m]) == Tickets(queue) + [m.ticket]
  {
  }

  lemma ReceiveKeepsOrder(edges: seq<Edge>, workers: seq<Worker>, h: History, k: nat)
    requires |edges| == 4 && |workers| == 4 && k < 4 && Ordered(Levels(edges, workers, h))
    requires EdgeFits(edges[k], workers[k], Receive)
    ensures Ordered(Levels(edges[k := EdgeAfter(edges[k], workers[k], Receive)],
                           workers[k := WorkerAfter(edges[k], workers[k], Receive)], h))
  {
    var e, w := EdgeAfter(edges[k], workers[k], Receive), WorkerAfter(edges[k], workers[k], Receive);
    LevelsUpdated(edges, workers, h, k, e, k, w);
    TicketsTail(edges[k].queue);
    MovingKeepsOrder(Levels(edges, workers, h), 2 * k, Tickets(e.queue), Pending(w.pc));
  }

  lemma SendKeepsOrder(edges: seq<Edge>, workers: seq<Worker>, h: History, k: nat)
    requires |edges| == 4 && |workers| == 4 && k < 3 && Ordered(Levels(edges, workers, h))
    requires EdgeFits(edges[k + 1], workers[k], SendSucceeds)
    ensures Ordered(Levels(edges[k + 1 := EdgeAfter(edges[k + 1], workers[k], SendSucceeds)],
                           workers[k := WorkerAfter(edges[k + 1], workers[k], SendSucceeds)], h))
  {
    var levels := Levels(edges, workers, h);
    var e := EdgeAfter(edges[k + 1], workers[k], SendSucceeds);
    var w := WorkerAfter(edges[k + 1], workers[k], SendSucceeds);
    LevelsUpdated(edges, workers, h, k + 1, e, k, w);
    TicketsAppend(edges[k + 1].queue, Forward(workers[k].pc.m, workers[k].pc.output));
    MovingKeepsOrder(levels, 2 * k + 1, Pending(w.pc), Tickets(e.queue));
    UpdatesCommute(levels, 2 * k + 1, Pending(w.pc), 2 * k + 2, Tickets(e.queue));
  }

  // The other edge steps leave the queue alone; at most the message is given up.
  lemma CreditKeepsOrder(edges: seq<Edge>, workers: seq<Worker>, h: History, j: nat, e: Edge, k: nat, w: Worker)
    requires |edges| == 4 && |workers| == 4 && j < 4 && k < 4 && Ordered(Levels(edges, workers, h))
    requires e.queue == edges[j].queue
    requires Pending(w.pc) == Pending(workers[k].pc) || Pending(w.pc) == []
    ensures Ordered(Levels(edges[j := e], workers[k := w], h))
  {
    var levels := Levels(edges, workers, h);
    LevelsUpdated(edges, workers, h, j, e, k, w);
    assert levels[2 * j := Tickets(e.queue)] == levels;
    if Pending(w.pc) == Pending(workers[k].pc) {
      assert levels[2 * k + 1 := Pending(w.pc)] == levels;
    } else {
      ForgettingKeepsOrder(levels, 2 * k + 1);
    }
  }

  lemma EdgeKeepsOrder(edges: seq<Edge>, workers: seq<Worker>, h: History, k: nat, a: EdgeAction)
    requires |edges| == 4 && |workers| == 4 && k < 4 && (OnOwnEdge(a) || k < 3)
    requires Ordered(Levels(edges, workers, h))
    requires EdgeFits(edges[EdgeIndex(k, a)], workers[k], a)
    ensures var j := EdgeIndex(k, a);
            Ordered(Levels(edges[j := EdgeAfter(edges[j], workers[k], a)],
                           workers[k := WorkerAfter(edges[j], workers[k], a)], h))
  {
    var j := EdgeIndex(k, a);
    if a.Receive? {
      ReceiveKeepsOrder(edges, workers, h, k);
    } else if a.SendSucceeds? {
      SendKeepsOrder(edges, workers, h, k);
    } else {
      CreditKeepsOrder(edges, workers, h, j, EdgeAfter(edges[j], workers[k], a),
                       k, WorkerAfter(edges[j], workers[k], a));
    }
  }

  // ---------- quiet edges stay quiet ----------

  // A stage takes a credit of the next edge only for a generation whose credit it
  // still holds on its own edge.
  lemma EdgeKeepsQuiet(edges: seq<Edge>, workers: seq<Worker>, ingress: IngressPc, k: nat, a: EdgeAction,
                       gate: Gate, v: Generation, n: nat)
    requires Shape(edges, workers) && k < 4 && (OnOwnEdge(a) || k < 3)
    requires Credits(edges, workers, ingress)
    requires EdgeFits(edges[EdgeIndex(k, a)], workers[k], a)
    requires n <= 4 && QuietUpTo(gate, edges, v, n)
    ensures var j := EdgeIndex(k, a);
            QuietUpTo(gate, edges[j := EdgeAfter(edges[j], workers[k], a)], v, n)
  {
    var j := EdgeIndex(k, a);
    if a.AcquireCredit? && j < n {
      assert Balanced(edges[k], InHand(workers[k].pc), SenderCredit(workers, ingress, k));
      assert workers[k].pc.m.item.generation in edges[k].credits;
      assert workers[k].pc.m.item.generation != v;
    }
    if j < n {
      assert EdgeAfter(edges[j], workers[k], a).credits[v] == 0;
    }
  }

  lemma EdgeStaysQuiet(s: State, k: nat, a: EdgeAction)
    requires Inv(s) && k < 4 && EdgeEnabled(s, k, a)
    ensures var j := EdgeIndex(k, a);
            StaysQuiet(s.gate, s.edges, s.slot,
                       s.gate, s.edges[j := EdgeAfter(s.edges[j], s.workers[k], a)], s.slot)
  {
    var j := EdgeIndex(k, a);
    var edges' := s.edges[j := EdgeAfter(s.edges[j], s.workers[k], a)];
    forall v, n | 0 <= n <= 4 && QuietUpTo(s.gate, s.edges, v, n)
      ensures QuietUpTo(s.gate, edges', v, n)
    {
      EdgeKeepsQuiet(s.edges, s.workers, s.ingress, k, a, s.gate, v, n);
    }
  }

  lemma EdgeKeepsCommitter(edges: seq<Edge>, workers: seq<Worker>, gate: Gate, k: nat, a: EdgeAction)
    requires Shape(edges, workers) && k < 4 && (OnOwnEdge(a) || k < 3)
    requires EdgeFits(edges[EdgeIndex(k, a)], workers[k], a) && CommitSafe(gate, workers[3].pc)
    ensures var w := WorkerAfter(edges[EdgeIndex(k, a)], workers[k], a);
            && Shape(edges[EdgeIndex(k, a) := EdgeAfter(edges[EdgeIndex(k, a)], workers[k], a)], workers[k := w])
            && CommitOperation(workers[k := w][3].pc) == CommitOperation(workers[3].pc)
            && HoldsCommitLock(workers[k := w][3].pc) == HoldsCommitLock(workers[3].pc)
            && CommitSafe(gate, workers[k := w][3].pc)
  {
    var w := WorkerAfter(edges[EdgeIndex(k, a)], workers[k], a);
    EdgeKeepsShape(edges[EdgeIndex(k, a)], k, workers[k], a);
    HoldingKeepsShape(edges, workers, k, w);
    assert workers[k := w][3] == if k == 3 then w else workers[3];
  }

  lemma EdgeKeepsFlow(edges: seq<Edge>, workers: seq<Worker>, ingress: IngressPc, slot: Option<Item>, h: History,
                      k: nat, a: EdgeAction, edges': seq<Edge>, workers': seq<Worker>)
    requires FlowInv(edges, workers, ingress, slot, h) && k < 4 && (OnOwnEdge(a) || k < 3)
    requires EdgeFits(edges[EdgeIndex(k, a)], workers[k], a)
    requires edges' == edges[EdgeIndex(k, a) := EdgeAfter(edges[EdgeIndex(k, a)], workers[k], a)]
    requires workers' == workers[k := WorkerAfter(edges[EdgeIndex(k, a)], workers[k], a)]
    ensures FlowInv(edges', workers', ingress, slot, h)
  {
    EdgeKeepsShape(edges[EdgeIndex(k, a)], k, workers[k], a);
    HoldingKeepsShape(edges, workers, k, WorkerAfter(edges[EdgeIndex(k, a)], workers[k], a));
    assert Shape(edges', workers');
    EdgeKeepsCredits(edges, workers, ingress, k, a);
    EdgeKeepsProvenance(edges, workers, h, k, a);
    EdgeKeepsOrder(edges, workers, h, k, a);
  }

  lemma EdgeKeepsInv(s: State, k: nat, a: EdgeAction)
    requires Inv(s) && k < 4 && EdgeEnabled(s, k, a)
    ensures Inv(ApplyWorker(s, k, OnEdge(a)))
  {
    var s' := ApplyWorker(s, k, OnEdge(a));
    EdgeKeepsFlow(s.edges, s.workers, s.ingress, s.slot, s.history, k, a, s'.edges, s'.workers);
    EdgeKeepsCommitter(s.edges, s.workers, s.gate, k, a);
    HoldingKeepsOperations(s.gate, s.commitLock, s.ingress, s.preflight, s.workers[3].pc, s.history, s'.workers[3].pc);
    EdgeStaysQuiet(s, k, a);
    QuietStepKeepsDrains(s.gate, s.edges, s.slot, s.gate, s'.edges, s.slot, s.control, s.history);
  }
}
