/**
 What holds in every run of the protocol, under every interleaving, failure and
 timeout: credits are conserved, commits and invalidations exclude each other, a
 successful drain leaves nothing behind for ever, a stop without a fault leaves an
 empty system, and what is persisted is an ordered part of what was submitted.
 */
module ProtocolTheorems {
  import opened Wrappers
  import opened Lifecycle
  import opened GateModel
  import opened PipelineModel
  import opened Protocol
  import opened ProtocolInvariant
  import ProtocolWorkers
  import ProtocolCommit
  import ProtocolIngress
  import ProtocolControl

  // ---------- the invariant over runs ----------

  lemma InitialCredits(s: State)
    requires Initial(s)
    ensures Credits(s.edges, s.workers, s.ingress)
  {
    forall k | 0 <= k < 4
      ensures Balanced(s.edges[k], InHand(s.workers[k].pc), SenderCredit(s.workers, s.ingress, k))
    {
      assert k > 0 ==> s.workers[k - 1].pc == Polling;
    }
  }

  lemma InitialOrder(s: State)
    requires Initial(s)
    ensures Ordered(Levels(s.edges, s.workers, s.history))
  {
    forall l | 0 <= l < 9 ensures Levels(s.edges, s.workers, s.history)[l] == [] {
    }
  }

  lemma InitialFlow(s: State)
    requires Initial(s)
    ensures FlowInv(s.edges, s.workers, s.ingress, s.slot, s.history)
  {
    hide Credits, Ordered, Levels;
    InitialCredits(s);
    InitialOrder(s);
  }

  lemma InitialOperations(s: State)
    requires Initial(s)
    ensures OperationInv(s.gate, s.commitLock, s.ingress, s.preflight, s.workers[3].pc, s.history)
  {
  }

  lemma InitialInv(s: State)
    requires Initial(s)
    ensures Inv(s)
  {
    hide FlowInv, OperationInv;
    InitialFlow(s);
    InitialOperations(s);
  }

  lemma WorkerKeepsInv(s: State, k: nat, a: WorkerAction)
    requires Inv(s) && k < 4 && WorkerEnabled(s, k, a)
    ensures Inv(ApplyWorker(s, k, a))
  {
    match a {
      case Local(l) => ProtocolWorkers.LocalKeepsInv(s, k, l);
      case OnEdge(e) => ProtocolWorkers.EdgeKeepsInv(s, k, e);
      case AtGate(c) => ProtocolCommit.CommitKeepsInv(s, c);
    }
  }

  lemma StepKeepsInv(s: State, step: Step)
    requires Inv(s) && Enabled(s, step)
    ensures Inv(Apply(s, step))
  {
    match step {
      case OfWorker(k, a) => WorkerKeepsInv(s, k, a);
      case OfIngress(a) => ProtocolIngress.IngressKeepsInv(s, a);
      case OfPreflight(a) => ProtocolIngress.PreflightKeepsInv(s, a);
      case OfControl(a) => ProtocolControl.ControlKeepsInv(s, a);
    }
  }

  lemma {:induction false} RunKeepsInv(s: State, steps: seq<Step>)
    requires Inv(s) && Runs(s, steps)
    ensures Inv(After(s, steps))
    decreases |steps|
  {
    if steps != [] {
      StepKeepsInv(s, steps[0]);
      RunKeepsInv(Apply(s, steps[0]), steps[1..]);
    }
  }

  // The gate and the owner of a state that satisfies the invariant.
  lemma OwnerParts(s: State)
    requires Inv(s)
    ensures GateInv(s.gate) && |s.edges| == 4 && |s.workers| == 4
    ensures DrainInv(s.gate, s.edges, s.slot, s.control, s.history)
  {
  }

  // ---------- conservation of credits ----------

  // The holders of credits of edge k: queued messages, the message its receiver
  // handles and the send its sender has in progress.
  function Holders(s: State, k: nat): multiset<Generation>
    requires k < 4 && |s.edges| == 4 && |s.workers| == 4
  {
    QueuedGenerations(s.edges[k].queue) + InHand(s.workers[k].pc) + SenderCredit(s.workers, s.ingress, k)
  }

  // The step loses a credit of edge k: an encoder raises after the credit was taken, or
  // the header of a received message cannot be read.
  predicate LosesCredit(step: Step, k: nat) {
    match step
    case OfWorker(j, OnEdge(EncodeFails)) => j + 1 == k
    case OfWorker(j, OnEdge(HeaderUnreadable(_))) => j == k
    case OfIngress(OnRaw(r)) => k == 0 && (r.SubmitEncodeFails? || r.FlushEncodeFails?)
    case _ => false
  }

  function LostCredits(steps: seq<Step>, k: nat): nat {
    if steps == [] then 0 else (if LosesCredit(steps[0], k) then 1 else 0) + LostCredits(steps[1..], k)
  }

  // The edge of a step, as far as its losses go.
  predicate LosesAsMany(edges: seq<Edge>, edges': seq<Edge>, k: nat, lost: bool) {
    && |edges'| == |edges| && k < |edges|
    && edges'[k].capacity == edges[k].capacity
    && |edges'[k].leaked| == |edges[k].leaked| + (if lost then 1 else 0)
    && (!lost ==> edges'[k].leaked == edges[k].leaked)
    && edges[k].leaked <= edges'[k].leaked
  }

  lemma WorkerLoses(s: State, j: nat, a: WorkerAction, k: nat)
    requires |s.workers| == 4 && |s.edges| == 4 && j < 4 && k < 4 && WorkerEnabled(s, j, a)
    ensures LosesAsMany(s.edges, ApplyWorker(s, j, a).edges, k, LosesCredit(OfWorker(j, a), k))
  {
  }

  lemma IngressLoses(s: State, a: IngressAction, k: nat)
    requires |s.edges| == 4 && k < 4 && IngressEnabled(s, a)
    ensures LosesAsMany(s.edges, ApplyIngress(s, a).edges, k, LosesCredit(OfIngress(a), k))
  {
  }

  lemma StepLoses(s: State, step: Step, k: nat)
    requires Enabled(s, step) && k < 4
    ensures LosesAsMany(s.edges, Apply(s, step).edges, k, LosesCredit(step, k))
  {
    hide LosesCredit;
    match step {
      case OfWorker(j, a) => WorkerLoses(s, j, a, k);
      case OfIngress(a) => IngressLoses(s, a, k);
      case OfPreflight(a) => NothingIsLost(step, k);
      case OfControl(a) => NothingIsLost(step, k);
    }
  }

  lemma NothingIsLost(step: Step, k: nat)
    requires step.OfPreflight? || step.OfControl?
    ensures !LosesCredit(step, k)
  {
  }

  lemma {:induction false} RunLoses(s: State, steps: seq<Step>, k: nat)
    requires Runs(s, steps) && k < 4 && |s.edges| == 4
    ensures |After(s, steps).edges| == 4
    ensures After(s, steps).edges[k].capacity == s.edges[k].capacity
    ensures |After(s, steps).edges[k].leaked| == |s.edges[k].leaked| + LostCredits(steps, k)
    decreases |steps|
  {
    if steps != [] {
      StepLoses(s, steps[0], k);
      RunLoses(Apply(s, steps[0]), steps[1..], k);
    }
  }

  // Credits in use are those of the holders and one for every loss; so they are exactly
  // the holders' when, and only when, no encoder raised and every header was readable.
  lemma CreditsAreConserved(s: State, steps: seq<Step>, k: nat)
    requires Initial(s) && Runs(s, steps) && k < 4
    ensures var s' := After(s, steps);
            && |s'.edges| == 4 && |s'.workers| == 4
            && Holders(s', k) <= s'.edges[k].credits
            && |s'.edges[k].credits| == |Holders(s', k)| + LostCredits(steps, k)
            && (s'.edges[k].credits == Holders(s', k) <==> LostCredits(steps, k) == 0)
            && |s'.edges[k].credits| <= s'.edges[k].capacity == s.edges[k].capacity
  {
    InitialInv(s);
    RunKeepsInv(s, steps);
    RunLoses(s, steps, k);
    var s' := After(s, steps);
    assert Balanced(s'.edges[k], InHand(s'.workers[k].pc), SenderCredit(s'.workers, s'.ingress, k));
    assert s'.edges[k].credits == Holders(s', k) + s'.edges[k].leaked;
  }

  // ---------- commits and invalidations ----------

  // While a persistence operation runs, its generation is the active one.
  lemma CommitsAreCurrent(s: State, steps: seq<Step>)
    requires Initial(s) && Runs(s, steps)
    ensures var s' := After(s, steps);
            && |s'.workers| == 4
            && (s'.workers[3].pc.Committing? || s'.workers[3].pc.Persisted? ==>
                  && s'.gate.c.active == Some(s'.workers[3].pc.m.item.generation)
                  && (s'.gate.c.state == Recording || s'.gate.c.state == Paused))
  {
    InitialInv(s);
    RunKeepsInv(s, steps);
  }

  lemma CommitterIsCurrent(s: State)
    requires Inv(s)
    ensures |s.workers| == 4
    ensures s.workers[3].pc.Committing? ==> s.gate.c.active == Some(s.workers[3].pc.m.item.generation)
  {
    assert CommitSafe(s.gate, s.workers[3].pc);
  }

  lemma CommitsAppend(s: State, step: Step)
    requires Enabled(s, step)
    ensures var s' := Apply(s, step);
            || s'.history.committed == s.history.committed
            || (s.workers[3].pc.Committing? && s'.history.committed == s.history.committed + [s.workers[3].pc.m])
  {
  }

  lemma CommittedOnlyGrows(s: State, step: Step)
    requires Inv(s) && Enabled(s, step)
    ensures var s' := Apply(s, step);
            || s'.history.committed == s.history.committed
            || (s.gate.c.active.Some?
                && exists m :: s'.history.committed == s.history.committed + [m] && s.gate.c.active == Some(m.item.generation))
  {
    CommitterIsCurrent(s);
    CommitsAppend(s, step);
  }

  // Nothing of generation v is recorded after the first n commits.
  predicate NoneOf(v: Generation, committed: seq<Message>, n: nat) {
    forall i :: n <= i < |committed| ==> committed[i].item.generation != v
  }

  lemma KnownIsOld(s: State, v: Generation)
    requires Inv(s) && v in s.gate.w.events
    ensures v <= s.gate.c.epoch
  {
    assert WorkInv(s.gate);
  }

  predicate SameControl(gate: Gate, gate': Gate) {
    gate'.c == gate.c && gate'.w.events == gate.w.events
  }

  lemma WorkersLeaveTheControl(s: State, k: nat, a: WorkerAction)
    requires k < 4 && |s.workers| == 4 && |s.edges| == 4 && WorkerEnabled(s, k, a)
    ensures SameControl(s.gate, ApplyWorker(s, k, a).gate)
  {
  }

  lemma IngressLeavesTheControl(s: State, a: IngressAction)
    requires |s.edges| == 4 && IngressEnabled(s, a)
    ensures SameControl(s.gate, ApplyIngress(s, a).gate)
  {
    hide SlotAfter, PcAfterSlot, RawEdgeAfter, PcAfterRaw, SlotAfterRaw, RawHistory, Submission;
  }

  lemma WorkLeavesTheControl(s: State, step: Step)
    requires Enabled(s, step) && !step.OfControl?
    ensures SameControl(s.gate, Apply(s, step).gate)
  {
    match step {
      case OfWorker(k, a) => WorkersLeaveTheControl(s, k, a);
      case OfIngress(a) => IngressLeavesTheControl(s, a);
      case OfPreflight(a) =>
    }
  }

  // The only generations that become active are new ones.
  lemma OnlyNewBecomeActive(s: State, a: ControlAction, v: Generation)
    requires ControlEnabled(s, a) && Retired(s.gate, v) && v <= s.gate.c.epoch
    ensures Retired(ControlGate(s, a), v)
  {
  }

  // A retired generation stays retired.
  lemma StaysRetired(s: State, step: Step, v: Generation)
    requires Inv(s) && Enabled(s, step) && Retired(s.gate, v)
    ensures Retired(Apply(s, step).gate, v)
  {
    KnownIsOld(s, v);
    if step.OfControl? {
      OnlyNewBecomeActive(s, step.control, v);
    } else {
      WorkLeavesTheControl(s, step);
    }
  }

  lemma {:induction false} RetiredIsNeverCommitted(s: State, steps: seq<Step>, v: Generation)
    requires Inv(s) && Runs(s, steps) && Retired(s.gate, v)
    ensures var s' := After(s, steps);
            && Retired(s'.gate, v)
            && s.history.committed <= s'.history.committed
            && NoneOf(v, s'.history.committed, |s.history.committed|)
    decreases |steps|
  {
    hide Apply, Enabled, Inv;
    if steps != [] {
      var next := Apply(s, steps[0]);
      CommittedOnlyGrows(s, steps[0]);
      StaysRetired(s, steps[0], v);
      StepKeepsInv(s, steps[0]);
      RetiredIsNeverCommitted(next, steps[1..], v);
    }
  }

  predicate Invalidates(step: Step) {
    step.OfControl? && (step.control.PauseAutomatically? || step.control.StopSession? || step.control.EnterFault?)
  }

  lemma InvalidatedIsRetired(s: State, step: Step, v: Generation)
    requires Enabled(s, step) && Invalidates(step) && GateInv(s.gate) && s.gate.c.active == Some(v)
    ensures var s' := Apply(s, step);
            Retired(s'.gate, v) && s'.history.committed == s.history.committed
  {
  }

  // Once a pause, a stop or a fault has invalidated the active generation, no
  // continuation of the run commits a record of it.
  lemma NoCommitAfterInvalidation(s: State, before: seq<Step>, step: Step, after: seq<Step>, v: Generation)
    requires Initial(s) && Runs(s, before)
    requires Enabled(After(s, before), step) && Invalidates(step)
    requires Runs(Apply(After(s, before), step), after)
    requires After(s, before).gate.c.active == Some(v)
    ensures var invalidated := Apply(After(s, before), step);
            && invalidated.history.committed == After(s, before).history.committed
            && NoneOf(v, After(invalidated, after).history.committed, |invalidated.history.committed|)
  {
    hide Apply, Enabled, Inv, GateInv, Retired;
    InitialInv(s);
    RunKeepsInv(s, before);
    var s1 := After(s, before);
    StepKeepsInv(s1, step);
    OwnerParts(s1);
    InvalidatedIsRetired(s1, step, v);
    RetiredIsNeverCommitted(Apply(s1, step), after, v);
  }

  // Committed generations never go back.
  lemma CommittedGenerationsIncrease(s: State, steps: seq<Step>, i: nat, j: nat)
    requires Initial(s) && Runs(s, steps) && i < j < |After(s, steps).history.committed|
    ensures After(s, steps).history.committed[i].item.generation <= After(s, steps).history.committed[j].item.generation
  {
    InitialInv(s);
    RunKeepsInv(s, steps);
  }

  // ---------- quiescence ----------

  // No credit, queued message, message in process, send in progress, gate
  // operation or coalesced frame belongs to v.
  predicate Clean(s: State, v: Generation)
    requires |s.edges| == 4 && |s.workers| == 4
  {
    && s.gate.w.inFlight[v] == 0
    && !SlotHolds(s.slot, v)
    && (s.ingress.Quiet? || s.ingress.permit.generation != v)
    && (s.preflight.None? || s.preflight.value.generation != v)
    && (forall k :: 0 <= k < 4 ==> CleanEdge(s.edges[k], v) && CleanWorker(s.workers[k].pc, v))
  }

  predicate CleanEdge(e: Edge, v: Generation) {
    e.credits[v] == 0 && forall i :: 0 <= i < |e.queue| ==> e.queue[i].item.generation != v
  }

  predicate CleanWorker(pc: Pc, v: Generation) {
    pc.Polling? || pc.m.item.generation != v
  }

  lemma QuietEdgeIsClean(e: Edge, pc: Pc, sending: multiset<Generation>, v: Generation)
    requires Balanced(e, InHand(pc), sending) && e.credits[v] == 0
    ensures CleanEdge(e, v) && CleanWorker(pc, v)
  {
    forall i | 0 <= i < |e.queue| ensures e.queue[i].item.generation != v {
      QueuedContains(e.queue, i);
    }
    assert InHand(pc)[v] == 0;
  }

  // Zero operations and zero credits are enough for a clean state.
  lemma NoResidueIsClean(s: State, v: Generation)
    requires Inv(s) && NoResidue(s.gate, s.edges, s.slot, v)
    ensures Clean(s, v)
  {
    forall k | 0 <= k < 4 ensures CleanEdge(s.edges[k], v) && CleanWorker(s.workers[k].pc, v) {
      QuietEdgeIsClean(s.edges[k], s.workers[k].pc, SenderCredit(s.workers, s.ingress, k), v);
    }
    assert IngressOperation(s.ingress)[v] == 0 && PreflightOperation(s.preflight)[v] == 0;
  }

  // The state with v counted among the drained generations; no step reads that.
  function Marked(s: State, v: Generation): State {
    s.(history := s.history.(drained := s.history.drained + {v}))
  }

  lemma MarkedDrains(gate: Gate, edges: seq<Edge>, slot: Option<Item>, control: ControlPc, h: History, v: Generation,
                     h': History)
    requires |edges| == 4 && DrainInv(gate, edges, slot, control, h)
    requires Retired(gate, v) && NoResidue(gate, edges, slot, v)
    requires h'.drained == h.drained + {v} && h'.abandoned == h.abandoned
    ensures DrainInv(gate, edges, slot, control, h')
  {
  }

  lemma MarkedInv(s: State, v: Generation)
    requires Inv(s) && Retired(s.gate, v) && NoResidue(s.gate, s.edges, s.slot, v)
    ensures Inv(Marked(s, v))
  {
    var h' := Marked(s, v).history;
    ProtocolControl.BookkeepingKeepsFlow(s, h');
    ProtocolControl.BookkeepingKeepsOperations(s, h');
    MarkedDrains(s.gate, s.edges, s.slot, s.control, s.history, v, h');
  }

  lemma MarkedStep(s: State, step: Step, v: Generation)
    requires Enabled(s, step)
    ensures Enabled(Marked(s, v), step)
    ensures var s1 := Apply(s, step);
            var s2 := Apply(Marked(s, v), step);
            && s2.gate == s1.gate && s2.edges == s1.edges && s2.slot == s1.slot
            && v in s2.history.drained
  {
  }

  lemma StaysClean(s: State, step: Step, v: Generation)
    requires Inv(s) && Enabled(s, step) && Retired(s.gate, v) && NoResidue(s.gate, s.edges, s.slot, v)
    ensures var s' := Apply(s, step);
            |s'.edges| == 4 && Retired(s'.gate, v) && NoResidue(s'.gate, s'.edges, s'.slot, v)
  {
    MarkedInv(s, v);
    MarkedStep(s, step, v);
    StepKeepsInv(Marked(s, v), step);
  }

  lemma {:induction false} CleanForEver(s: State, steps: seq<Step>, v: Generation)
    requires Inv(s) && Runs(s, steps) && Retired(s.gate, v) && NoResidue(s.gate, s.edges, s.slot, v)
    ensures var s' := After(s, steps);
            |s'.edges| == 4 && |s'.workers| == 4 && Retired(s'.gate, v) && Clean(s', v)
    decreases |steps|
  {
    if steps == [] {
      NoResidueIsClean(s, v);
    } else {
      StaysClean(s, steps[0], v);
      StepKeepsInv(s, steps[0]);
      CleanForEver(Apply(s, steps[0]), steps[1..], v);
    }
  }

  // What the last point of a drain without failures has established.
  lemma CompleteDrain(gate: Gate, edges: seq<Edge>, slot: Option<Item>, control: ControlPc, v: Generation)
    requires |edges| == 4 && DrainProgress(gate, edges, slot, control)
    requires control.Draining? && control.generation == Some(v) && control.point == Complete && control.ok
    ensures Retired(gate, v) && NoResidue(gate, edges, slot, v)
  {
  }

  lemma CompleteDrainIsClean(s: State, v: Generation)
    requires Inv(s)
    requires s.control.Draining? && s.control.generation == Some(v) && s.control.point == Complete && s.control.ok
    ensures Retired(s.gate, v) && NoResidue(s.gate, s.edges, s.slot, v)
  {
    hide FlowInv, OperationInv, DrainProgress, DrainedAreClean, ControlState, Accounted, NoResidue, Retired;
    OwnerParts(s);
    CompleteDrain(s.gate, s.edges, s.slot, s.control, v);
  }

  // The sequential waits are sound. Each looked at one thing at its own moment, yet
  // when the drain of v ends without a failure everything is clean at once, and it
  // stays clean in every continuation.
  lemma QuiescenceIsSound(s: State, before: seq<Step>, after: seq<Step>, v: Generation)
    requires Initial(s) && Runs(s, before) && Runs(After(s, before), after)
    requires var control := After(s, before).control;
             control.Draining? && control.generation == Some(v) && control.point == Complete && control.ok
    ensures var s' := After(After(s, before), after);
            |s'.edges| == 4 && |s'.workers| == 4 && Clean(s', v)
  {
    InitialInv(s);
    RunKeepsInv(s, before);
    CompleteDrainIsClean(After(s, before), v);
    CleanForEver(After(s, before), after, v);
  }

  // ---------- a stop without a fault ----------

  // Lost credits and abandoned generations are generations that were handed out.
  predicate Known(s: State) {
    && (forall k :: 0 <= k < |s.edges| ==> LeaksKnown(s.edges[k], s.history.sessions))
    && s.history.abandoned <= s.history.sessions.Keys
  }

  predicate LeaksKnown(e: Edge, sessions: map<Generation, Revision>) {
    forall v :: v in e.leaked ==> v in sessions
  }

  // What can be lost is the credit of an item whose session is known.
  lemma EncodedItemIsKnown(s: State, k: nat)
    requires Inv(s) && k < 4
    ensures !s.workers[k].pc.Polling? ==> s.workers[k].pc.m.item.generation in s.history.sessions
    ensures s.workers[k].pc.Sending? ==> s.workers[k].pc.output.generation in s.history.sessions
    ensures s.ingress.SubmitCredited? || s.ingress.FlushCredited? ==> s.ingress.item.generation in s.history.sessions
  {
    assert PcOk(s.history, k, s.workers[k].pc);
    assert WorkerShape(k, s.workers[k].pc);
  }

  // Every message in hand and every encoding in progress is of a known session.
  predicate EncodesKnown(s: State) {
    && (forall k :: 0 <= k < |s.workers| && !s.workers[k].pc.Polling? ==>
          s.workers[k].pc.m.item.generation in s.history.sessions)
    && (forall k :: 0 <= k < |s.workers| && s.workers[k].pc.Sending? ==>
          s.workers[k].pc.output.generation in s.history.sessions)
    && (s.ingress.SubmitCredited? || s.ingress.FlushCredited? ==> s.ingress.item.generation in s.history.sessions)
  }

  lemma WorkerKeepsLeaks(s: State, j: nat, a: WorkerAction, k: nat)
    requires |s.workers| == 4 && |s.edges| == 4 && j < 4 && k < 4 && WorkerEnabled(s, j, a)
    requires EncodesKnown(s) && LeaksKnown(s.edges[k], s.history.sessions)
    ensures LeaksKnown(ApplyWorker(s, j, a).edges[k], s.history.sessions)
    ensures ApplyWorker(s, j, a).history.sessions == s.history.sessions
    ensures ApplyWorker(s, j, a).history.abandoned == s.history.abandoned
  {
  }

  // What a step on the raw edge can lose is the credit of its item.
  lemma RawKeepsLeaks(e: Edge, pc: IngressPc, slot: Option<Item>, accepted: seq<Item>, a: RawAction,
                      sessions: map<Generation, Revision>)
    requires RawFits(e, pc, slot, a) && LeaksKnown(e, sessions)
    requires pc.SubmitCredited? || pc.FlushCredited? ==> pc.item.generation in sessions
    ensures LeaksKnown(RawEdgeAfter(e, pc, slot, accepted, a), sessions)
  {
  }

  lemma IngressKeepsLeaks(s: State, a: IngressAction, k: nat)
    requires |s.edges| == 4 && k < 4 && IngressEnabled(s, a)
    requires EncodesKnown(s) && LeaksKnown(s.edges[k], s.history.sessions)
    ensures LeaksKnown(ApplyIngress(s, a).edges[k], s.history.sessions)
    ensures ApplyIngress(s, a).history.sessions == s.history.sessions
    ensures ApplyIngress(s, a).history.abandoned == s.history.abandoned
  {
    hide LeaksKnown, RawFits, RawEdgeAfter, PcAfterRaw, SlotAfterRaw, SlotAfter, PcAfterSlot, SlotEnabled;
    if a.OnRaw? && k == 0 {
      RawKeepsLeaks(s.edges[0], s.ingress, s.slot, s.history.accepted, a.raw, s.history.sessions);
    }
  }

  lemma WorkKeepsKnown(s: State, step: Step)
    requires Enabled(s, step) && !step.OfControl? && Known(s) && EncodesKnown(s)
    ensures Known(Apply(s, step))
  {
    hide EncodesKnown, LeaksKnown;
    StepLoses(s, step, 0);
    forall k | 0 <= k < 4 ensures LeaksKnown(Apply(s, step).edges[k], Apply(s, step).history.sessions) {
      assert LeaksKnown(s.edges[k], s.history.sessions);
      match step {
        case OfWorker(j, a) => WorkerKeepsLeaks(s, j, a, k);
        case OfIngress(a) => IngressKeepsLeaks(s, a, k);
        case OfPreflight(a) =>
      }
    }
    match step {
      case OfWorker(j, a) => WorkerKeepsLeaks(s, j, a, 0);
      case OfIngress(a) => IngressKeepsLeaks(s, a, 0);
      case OfPreflight(a) =>
    }
  }

  lemma ControlKeepsKnown(s: State, a: ControlAction)
    requires ControlEnabled(s, a) && Known(s)
    requires s.gate.c.active.Some? ==> s.gate.c.active.value in s.history.sessions
    requires s.control.Draining? && s.control.generation.Some? ==> s.control.generation.value in s.history.sessions
    ensures Known(ApplyControl(s, a))
  {
    assert s.history.sessions.Keys <= ControlHistory(s, a).sessions.Keys;
    forall k | 0 <= k < |s.edges| ensures LeaksKnown(s.edges[k], ControlHistory(s, a).sessions) {
      assert LeaksKnown(s.edges[k], s.history.sessions);
    }
  }

  lemma ActiveAndDrainingAreKnown(s: State)
    requires Inv(s)
    ensures s.gate.c.active.Some? ==> s.gate.c.active.value in s.history.sessions
    ensures s.control.Draining? && s.control.generation.Some? ==> s.control.generation.value in s.history.sessions
    ensures s.history.sessions.Keys == s.gate.w.events.Keys
  {
    assert Sessions(s.gate, s.history);
    assert DrainProgress(s.gate, s.edges, s.slot, s.control);
  }

  lemma StepKeepsKnown(s: State, step: Step)
    requires Inv(s) && Enabled(s, step) && Known(s)
    ensures Known(Apply(s, step))
  {
    if step.OfControl? {
      ActiveAndDrainingAreKnown(s);
      ControlKeepsKnown(s, step.control);
    } else {
      forall k | 0 <= k < 4
        ensures !s.workers[k].pc.Polling? ==> s.workers[k].pc.m.item.generation in s.history.sessions
        ensures s.workers[k].pc.Sending? ==> s.workers[k].pc.output.generation in s.history.sessions
      {
        EncodedItemIsKnown(s, k);
      }
      EncodedItemIsKnown(s, 0);
      assert EncodesKnown(s);
      WorkKeepsKnown(s, step);
    }
  }

  lemma {:induction false} RunKeepsKnown(s: State, steps: seq<Step>)
    requires Inv(s) && Runs(s, steps) && Known(s)
    ensures Known(After(s, steps))
    decreases |steps|
  {
    if steps != [] {
      StepKeepsKnown(s, steps[0]);
      StepKeepsInv(s, steps[0]);
      RunKeepsKnown(Apply(s, steps[0]), steps[1..]);
    }
  }

  lemma InitialKnown(s: State)
    requires Initial(s)
    ensures Known(s)
  {
  }

  predicate FaultFree(steps: seq<Step>) {
    forall i :: 0 <= i < |steps| ==> !(steps[i].OfControl? && steps[i].control.EnterFault?)
  }

  lemma {:induction false} FaultFreeAbandonsNothing(s: State, steps: seq<Step>)
    requires Runs(s, steps) && FaultFree(steps)
    ensures After(s, steps).history.abandoned == s.history.abandoned
    decreases |steps|
  {
    if steps != [] {
      assert !(steps[0].OfControl? && steps[0].control.EnterFault?);
      FaultFreeAbandonsNothing(Apply(s, steps[0]), steps[1..]);
    }
  }

  lemma NewIsUnknown(s: State, v: Generation)
    requires Inv(s) && Known(s) && v > s.gate.c.epoch
    ensures v !in s.gate.w.events && v !in s.history.abandoned
  {
    hide LeaksKnown;
    if v in s.gate.w.events {
      KnownIsOld(s, v);
    }
    ActiveAndDrainingAreKnown(s);
  }

  // Whatever happened before a start, reaching OFF again without a fault leaves
  // nothing of any generation handed out since.
  lemma StopIsClean(s: State, before: seq<Step>, after: seq<Step>, v: Generation)
    requires Initial(s) && Runs(s, before) && Runs(After(s, before), after) && FaultFree(after)
    requires var off := After(After(s, before), after).gate; off.c.state == Off && v in off.w.events
    requires v > After(s, before).gate.c.epoch
    ensures var s' := After(After(s, before), after);
            && |s'.edges| == 4 && |s'.workers| == 4 && Clean(s', v)
            && v !in s'.gate.w.listed
  {
    hide Apply, Enabled, Inv, Clean, FaultFree;
    InitialInv(s);
    RunKeepsInv(s, before);
    var s1 := After(s, before);
    InitialKnown(s);
    RunKeepsKnown(s, before);
    NewIsUnknown(s1, v);
    RunKeepsInv(s1, after);
    FaultFreeAbandonsNothing(s1, after);
    OwnerParts(After(s1, after));
    OffIsClean(After(s1, after), v);
  }

  // At OFF the owner drains nothing, so what was not abandoned is drained.
  lemma OffIsDrained(gate: Gate, edges: seq<Edge>, slot: Option<Item>, control: ControlPc, h: History, v: Generation)
    requires |edges| == 4 && GateInv(gate) && DrainInv(gate, edges, slot, control, h)
    requires gate.c.state == Off && v in gate.w.events && v !in h.abandoned
    ensures NoResidue(gate, edges, slot, v) && v !in gate.w.listed && control.Ready?
  {
    assert control.Ready?;
    assert v in h.drained;
  }

  lemma OffIsClean(s: State, v: Generation)
    requires Inv(s) && s.gate.c.state == Off && v in s.gate.w.events && v !in s.history.abandoned
    ensures Clean(s, v) && v !in s.gate.w.listed && s.control.Ready?
  {
    OffIsDrained(s.gate, s.edges, s.slot, s.control, s.history, v);
    NoResidueIsClean(s, v);
  }

  // The system holds nothing at all.
  predicate Empty(s: State) {
    && s.gate.w.inFlight == multiset{} && s.gate.w.listed == {}
    && s.ingress == Quiet && s.slot == None && s.preflight == None && s.control == Ready
    && (forall k :: 0 <= k < |s.edges| ==> s.edges[k].credits == multiset{} && s.edges[k].queue == [])
    && (forall k :: 0 <= k < |s.workers| ==> s.workers[k].pc == Polling)
  }

  lemma StageIsEmpty(edges: seq<Edge>, workers: seq<Worker>, h: History, k: nat)
    requires |edges| == 4 && |workers| == 4 && k < 4 && Provenance(edges, workers, h)
    requires forall v :: v in h.sessions ==> CleanEdge(edges[k], v) && CleanWorker(workers[k].pc, v)
    ensures edges[k].queue == [] && workers[k].pc == Polling
  {
    assert QueueOk(h, k, edges[k].queue) && PcOk(h, k, workers[k].pc);
    assert edges[k].queue != [] ==> MessageOk(h, k, edges[k].queue[0]);
  }

  lemma NothingIsRegistered(gate: Gate, commitLock: bool, ingress: IngressPc, preflight: Option<Permit>, pc: Pc, h: History)
    requires OperationInv(gate, commitLock, ingress, preflight, pc, h)
    requires forall v :: v in gate.w.events ==> gate.w.inFlight[v] == 0 && v !in gate.w.listed
    ensures gate.w.inFlight == multiset{} && gate.w.listed == {}
    ensures ingress == Quiet && preflight == None
  {
    assert gate.w.inFlight == multiset{};
    assert |IngressOperation(ingress)| == 0 && |PreflightOperation(preflight)| == 0;
  }

  lemma EdgeHoldsNothing(e: Edge, sessions: map<Generation, Revision>)
    requires Balanced(e, multiset{}, multiset{}) && e.queue == [] && LeaksKnown(e, sessions)
    requires forall v :: v in sessions ==> CleanEdge(e, v)
    ensures e.credits == multiset{}
  {
    forall v ensures e.credits[v] == 0 {
      if v in sessions {
        assert CleanEdge(e, v);
      } else {
        assert v !in e.leaked;
      }
    }
  }

  lemma EdgesHoldNothing(edges: seq<Edge>, workers: seq<Worker>, h: History)
    requires |edges| == 4 && |workers| == 4 && Provenance(edges, workers, h) && Credits(edges, workers, Quiet)
    requires forall k :: 0 <= k < 4 ==> LeaksKnown(edges[k], h.sessions)
    requires forall v, k :: v in h.sessions && 0 <= k < 4 ==> CleanEdge(edges[k], v) && CleanWorker(workers[k].pc, v)
    ensures forall k :: 0 <= k < 4 ==> edges[k].credits == multiset{} && edges[k].queue == [] && workers[k].pc == Polling
  {
    hide QueueOk, PcOk, Balanced, LeaksKnown;
    forall k | 0 <= k < 4 ensures edges[k].queue == [] && workers[k].pc == Polling {
      StageIsEmpty(edges, workers, h, k);
    }
    forall k | 0 <= k < 4 ensures edges[k].credits == multiset{} {
      assert Balanced(edges[k], InHand(workers[k].pc), SenderCredit(workers, Quiet, k));
      EdgeHoldsNothing(edges[k], h.sessions);
    }
  }

  lemma CleanIsEmpty(s: State)
    requires Inv(s) && Known(s) && s.gate.c.state == Off && s.history.abandoned == {}
    ensures Empty(s)
  {
    ActiveAndDrainingAreKnown(s);
    OwnerIsReady(s);
    forall v | v in s.gate.w.events ensures Clean(s, v) && v !in s.gate.w.listed {
      OffIsClean(s, v);
    }
    NothingIsRegistered(s.gate, s.commitLock, s.ingress, s.preflight, s.workers[3].pc, s.history);
    EdgesHoldNothing(s.edges, s.workers, s.history);
    SlotIsKnown(s);
  }

  lemma OwnerIsReady(s: State)
    requires Inv(s) && s.gate.c.state == Off
    ensures s.control == Ready
  {
    assert ControlState(s.gate.c.state, s.control);
  }

  lemma SlotIsKnown(s: State)
    requires Inv(s)
    ensures s.slot.Some? ==> s.slot.value.generation in s.history.sessions
  {
    assert SlotOk(s.slot, s.history);
  }

  // A run without any fault that is back at OFF has emptied the whole system.
  lemma FaultFreeStopEmptiesTheSystem(s: State, steps: seq<Step>)
    requires Initial(s) && Runs(s, steps) && FaultFree(steps) && After(s, steps).gate.c.state == Off
    ensures Empty(After(s, steps))
  {
    hide Apply, Enabled, Inv, Known, FaultFree, Empty;
    InitialInv(s);
    InitialKnown(s);
    RunKeepsInv(s, steps);
    RunKeepsKnown(s, steps);
    FaultFreeAbandonsNothing(s, steps);
    CleanIsEmpty(After(s, steps));
  }

  // ---------- what is persisted ----------

  // The persisted records are an ordered part of the accepted submissions, each at
  // most once; each went through the four stages in order with its id, generation
  // and revision unchanged.
  lemma PersistedAreAcceptedInOrder(s: State, steps: seq<Step>)
    requires Initial(s) && Runs(s, steps)
    ensures var h := After(s, steps).history;
            && (forall i, j :: 0 <= i < j < |h.committed| ==> h.committed[i].ticket < h.committed[j].ticket)
            && (forall i :: 0 <= i < |h.committed| ==>
                  && h.committed[i].ticket < |h.accepted|
                  && h.committed[i].trail == Stages
                  && h.committed[i].item.stage == Encrypted
                  && SameRecord(h.committed[i].item, h.accepted[h.committed[i].ticket])
                  && OfSession(h, h.committed[i].item.generation, h.committed[i].item.revision))
  {
    hide Apply, Enabled, Inv;
    InitialInv(s);
    RunKeepsInv(s, steps);
    CommittedAreOk(After(s, steps));
  }

  lemma CommittedAreOk(s: State)
    requires Inv(s)
    ensures forall i :: 0 <= i < |s.history.committed| ==> MessageOk(s.history, 3, s.history.committed[i])
    ensures forall i, j :: 0 <= i < j < |s.history.committed| ==>
              s.history.committed[i].ticket < s.history.committed[j].ticket
  {
    CommittedInOrder(s.edges, s.workers, s.history);
    assert Provenance(s.edges, s.workers, s.history);
  }

  lemma CommittedInOrder(edges: seq<Edge>, workers: seq<Worker>, h: History)
    requires |edges| == 4 && |workers| == 4 && Ordered(Levels(edges, workers, h))
    ensures forall i, j :: 0 <= i < j < |h.committed| ==> h.committed[i].ticket < h.committed[j].ticket
  {
    var levels := Levels(edges, workers, h);
    forall i, j | 0 <= i < j < |h.committed| ensures h.committed[i].ticket < h.committed[j].ticket {
      assert levels[8][i] < levels[8][j];
    }
  }

  predicate NoStart(steps: seq<Step>) {
    forall i :: 0 <= i < |steps| ==> !(steps[i].OfControl? && steps[i].control.StartSession?)
  }

  // Every generation of a session, including those that automatic pauses open,
  // carries the configuration revision its start was given.
  lemma SessionsCarryTheStartRevision(s: State, reason: TransitionReason, revision: Revision, after: seq<Step>,
                                      v: Generation)
    requires ControlEnabled(s, StartSession(reason, revision))
    requires Runs(ApplyControl(s, StartSession(reason, revision)), after) && NoStart(after)
    requires v in After(ApplyControl(s, StartSession(reason, revision)), after).history.sessions
    requires v !in s.history.sessions
    ensures After(ApplyControl(s, StartSession(reason, revision)), after).history.sessions[v] == revision
  {
    SessionGoesOn(s.history.sessions, ApplyControl(s, StartSession(reason, revision)), after, revision);
  }

  predicate OpenedWith(known: map<Generation, Revision>, s: State, revision: Revision) {
    && (s.gate.c.revision.Some? ==> s.gate.c.revision.value == revision)
    && (forall v :: v in s.history.sessions && v !in known ==> s.history.sessions[v] == revision)
  }

  lemma WorkKeepsSessions(s: State, step: Step)
    requires Enabled(s, step) && !step.OfControl?
    ensures Apply(s, step).history.sessions == s.history.sessions
  {
  }

  lemma ControlKeepsOpenedWith(known: map<Generation, Revision>, s: State, a: ControlAction, revision: Revision)
    requires ControlEnabled(s, a) && !a.StartSession? && OpenedWith(known, s, revision)
    ensures OpenedWith(known, ApplyControl(s, a), revision)
  {
  }

  lemma StepKeepsOpenedWith(known: map<Generation, Revision>, s: State, step: Step, revision: Revision)
    requires Enabled(s, step) && !(step.OfControl? && step.control.StartSession?) && OpenedWith(known, s, revision)
    ensures OpenedWith(known, Apply(s, step), revision)
  {
    if step.OfControl? {
      ControlKeepsOpenedWith(known, s, step.control, revision);
    } else {
      hide ApplyWorker, ApplyIngress, ApplyPreflight;
      WorkLeavesTheControl(s, step);
      WorkKeepsSessions(s, step);
    }
  }

  lemma {:induction false} SessionGoesOn(known: map<Generation, Revision>, s: State, steps: seq<Step>, revision: Revision)
    requires Runs(s, steps) && NoStart(steps) && OpenedWith(known, s, revision)
    ensures OpenedWith(known, After(s, steps), revision)
    decreases |steps|
  {
    if steps != [] {
      assert !(steps[0].OfControl? && steps[0].control.StartSession?);
      StepKeepsOpenedWith(known, s, steps[0], revision);
      SessionGoesOn(known, Apply(s, steps[0]), steps[1..], revision);
    }
  }
}
