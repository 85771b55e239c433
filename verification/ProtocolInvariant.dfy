/**
 The invariant of the protocol: one predicate per concern, over exactly the parts
 of the state it speaks about.
 */
module ProtocolInvariant {
  import opened Wrappers
  import opened Lifecycle
  import opened GateModel
  import GateTheorems
  import opened PipelineModel
  import opened Protocol

  // ---------- shape ----------

  // Which program counters the stage with index k can reach.
  predicate WorkerShape(k: nat, pc: Pc) {
    && (pc.Processing? || pc.Produced? || pc.Checked? || pc.Sending? || pc.SendFailed? ==> k < 3)
    && (pc.AwaitingCommit? || HoldsCommitLock(pc) ==> k == 3)
    && (pc.Checked? || pc.Sending? || pc.SendFailed? ==> k < 3 && ValidOutput(k, pc.m.item, pc.output))
    && (pc.Committing? || pc.Persisted? ==> pc.permit.generation == pc.m.item.generation)
  }

  predicate Shape(edges: seq<Edge>, workers: seq<Worker>) {
    && |edges| == 4 && |workers| == 4
    && (forall k :: 0 <= k < 4 ==> WorkerShape(k, workers[k].pc))
  }

  // ---------- credits ----------

  // The credit of edge k that its sender holds for a send in progress.
  function SenderCredit(workers: seq<Worker>, ingress: IngressPc, k: nat): multiset<Generation>
    requires k < 4 && |workers| == 4
  {
    if k == 0 then IngressCredit(ingress) else OutputCredit(workers[k - 1].pc)
  }

  // Credits in use are the queued messages, the message in hand, the send in
  // progress and the lost credits, per generation.
  predicate Balanced(e: Edge, inHand: multiset<Generation>, sending: multiset<Generation>) {
    && e.credits == QueuedGenerations(e.queue) + inHand + sending + e.leaked
    && |e.credits| <= e.capacity
  }

  predicate Credits(edges: seq<Edge>, workers: seq<Worker>, ingress: IngressPc)
    requires |workers| == 4 && |edges| == 4
  {
    forall k :: 0 <= k < 4 ==> Balanced(edges[k], InHand(workers[k].pc), SenderCredit(workers, ingress, k))
  }

  // ---------- gate operations and the commit lock ----------

  predicate Operations(gate: Gate, ingress: IngressPc, preflight: Option<Permit>, committer: Pc) {
    gate.w.inFlight == IngressOperation(ingress) + PreflightOperation(preflight) + CommitOperation(committer)
  }

  predicate CommitLockHeld(commitLock: bool, committer: Pc) {
    commitLock <==> HoldsCommitLock(committer)
  }

  // While a persistence operation runs, its generation is active and the state
  // is RECORDING or PAUSED.
  predicate CommitSafe(gate: Gate, committer: Pc) {
    committer.Committing? || committer.Persisted? ==>
      CurrentGenerationError(gate, committer.m.item.generation).None?
  }

  // ---------- sessions and provenance ----------

  predicate OfSession(h: History, generation: Generation, revision: Revision) {
    generation in h.sessions && h.sessions[generation] == revision
  }

  predicate ItemOk(h: History, item: Item) {
    item.stage == Raw && OfSession(h, item.generation, item.revision)
  }

  // A message waiting for or handled by the stage with index k.
  predicate MessageOk(h: History, k: nat, m: Message)
    requires k < 4
  {
    && m.item.stage == Stages[k]
    && m.trail == Stages[..k + 1]
    && m.ticket < |h.accepted|
    && SameRecord(m.item, h.accepted[m.ticket])
    && OfSession(h, m.item.generation, m.item.revision)
  }

  predicate Sessions(gate: Gate, h: History) {
    && h.sessions.Keys == gate.w.events.Keys
    && (gate.c.active.Some? ==>
          gate.c.revision.Some? && OfSession(h, gate.c.active.value, gate.c.revision.value))
    && (gate.c.draining.Some? ==> gate.c.draining.value in gate.w.events)
  }

  predicate IngressOk(ingress: IngressPc, h: History) {
    && (!ingress.Quiet? ==> OfSession(h, ingress.permit.generation, ingress.permit.revision))
    && (ingress.Submitting? || ingress.SubmitCredited? || ingress.SubmitFailed?
        || ingress.Overloaded? || ingress.FlushCredited? || ingress.FlushFailed? ==>
          ItemOk(h, ingress.item) && ingress.item.generation == ingress.permit.generation)
  }

  predicate SlotOk(slot: Option<Item>, h: History) {
    slot.Some? ==> ItemOk(h, slot.value)
  }

  predicate QueueOk(h: History, k: nat, queue: seq<Message>)
    requires k < 4
  {
    forall i :: 0 <= i < |queue| ==> MessageOk(h, k, queue[i])
  }

  predicate PcOk(h: History, k: nat, pc: Pc)
    requires k < 4
  {
    !pc.Polling? ==> MessageOk(h, k, pc.m)
  }

  predicate Provenance(edges: seq<Edge>, workers: seq<Worker>, h: History)
    requires |workers| == 4 && |edges| == 4
  {
    && (forall k :: 0 <= k < 4 ==> QueueOk(h, k, edges[k].queue) && PcOk(h, k, workers[k].pc))
    && QueueOk(h, 3, h.committed)
  }

  predicate AcceptedOk(h: History) {
    forall t :: 0 <= t < |h.accepted| ==> ItemOk(h, h.accepted[t])
  }

  // ---------- order ----------

  // The submissions still in the system, from the newest level to the oldest:
  // queue 0, worker 0, queue 1, ..., worker 3, committed.
  function Levels(edges: seq<Edge>, workers: seq<Worker>, h: History): seq<seq<nat>>
    requires |workers| == 4 && |edges| == 4
  {
    [Tickets(edges[0].queue), Pending(workers[0].pc),
     Tickets(edges[1].queue), Pending(workers[1].pc),
     Tickets(edges[2].queue), Pending(workers[2].pc),
     Tickets(edges[3].queue), Pending(workers[3].pc),
     Tickets(h.committed)]
  }

  // Each level is increasing, and everything further down is older.
  predicate Ordered(levels: seq<seq<nat>>) {
    && (forall l, i, j :: 0 <= l < |levels| && 0 <= i < j < |levels[l]| ==> levels[l][i] < levels[l][j])
    && (forall l, h, i, j :: 0 <= l < h < |levels| && 0 <= i < |levels[l]| && 0 <= j < |levels[h]|
          ==> levels[h][j] < levels[l][i])
  }

  predicate CommitOrder(gate: Gate, committed: seq<Message>) {
    && (forall i, j :: 0 <= i < j < |committed| ==>
          committed[i].item.generation <= committed[j].item.generation)
    && (forall i :: 0 <= i < |committed| ==>
          gate.c.active.Some? ==> committed[i].item.generation <= gate.c.active.value)
  }

  // ---------- draining ----------

  predicate Retired(gate: Gate, v: Generation) {
    v in gate.w.events && gate.c.active != Some(v)
  }

  // No gate operation and no credit on the first n edges belongs to v.
  predicate QuietUpTo(gate: Gate, edges: seq<Edge>, v: Generation, n: nat)
    requires |edges| == 4 && n <= 4
  {
    && gate.w.inFlight[v] == 0
    && (forall k :: 0 <= k < n ==> edges[k].credits[v] == 0)
  }

  // Nothing of v is left anywhere.
  predicate NoResidue(gate: Gate, edges: seq<Edge>, slot: Option<Item>, v: Generation)
    requires |edges| == 4
  {
    QuietUpTo(gate, edges, v, 4) && !SlotHolds(slot, v)
  }

  // What a drain of v that has had no failure has established at its point.
  predicate Established(gate: Gate, edges: seq<Edge>, slot: Option<Item>, v: Generation, point: Point)
    requires |edges| == 4
  {
    match point
    case Cancel => true
    case AwaitOperations => true
    case AwaitEdge(k) => k < 4 && QuietUpTo(gate, edges, v, k)
    case CheckSlot => QuietUpTo(gate, edges, v, 4)
    case Clear => NoResidue(gate, edges, slot, v)
    case AwaitStage(_) => NoResidue(gate, edges, slot, v)
    case Complete => NoResidue(gate, edges, slot, v)
  }

  predicate DrainProgress(gate: Gate, edges: seq<Edge>, slot: Option<Item>, control: ControlPc)
    requires |edges| == 4
  {
    control.Draining? && control.generation.Some? ==>
      && Retired(gate, control.generation.value)
      && (control.ok ==> Established(gate, edges, slot, control.generation.value, control.point))
  }

  predicate DrainedAreClean(gate: Gate, edges: seq<Edge>, slot: Option<Item>, drained: set<Generation>)
    requires |edges| == 4
  {
    forall v :: v in drained ==> Retired(gate, v) && NoResidue(gate, edges, slot, v)
  }

  // The points of a drain that waits for no work.
  predicate Clearing(point: Point) {
    point == Clear || point.AwaitStage? || point == Complete
  }

  // The owner between messages is never in STOPPING, and a drain knows its state.
  predicate ControlState(state: CaptureState, control: ControlPc) {
    match control
    case Ready => state != Stopping
    case Draining(generation, purpose, point, ok) =>
      && (purpose == ToPaused ==> state == Paused && generation.Some?)
      && (purpose == ToOff ==>
            (state == Stopping && generation.Some?) || (state == Faulted && generation.None?))
      && (purpose == AfterFault ==> state == Faulted)
      && (generation.None? ==> Clearing(point))
  }

  // Every generation is active, drained, abandoned by a fault, or being drained.
  predicate Accounted(gate: Gate, control: ControlPc, h: History) {
    && (forall v :: v in gate.w.events ==>
          || gate.c.active == Some(v)
          || v in h.drained
          || v in h.abandoned
          || (control.Draining? && control.generation == Some(v)))
    && (control.Draining? && control.purpose == AfterFault && control.generation.Some? ==>
          control.generation.value in h.drained || control.generation.value in h.abandoned)
  }

  // ---------- the three parts ----------

  // Messages, credits and their history.
  predicate FlowInv(edges: seq<Edge>, workers: seq<Worker>, ingress: IngressPc, slot: Option<Item>, h: History) {
    && Shape(edges, workers)
    && Credits(edges, workers, ingress)
    && IngressOk(ingress, h)
    && SlotOk(slot, h)
    && AcceptedOk(h)
    && Provenance(edges, workers, h)
    && Ordered(Levels(edges, workers, h))
  }

  // The gate and the operations registered with it.
  predicate OperationInv(gate: Gate, commitLock: bool, ingress: IngressPc, preflight: Option<Permit>,
                     committer: Pc, h: History)
  {
    && GateInv(gate)
    && Operations(gate, ingress, preflight, committer)
    && CommitLockHeld(commitLock, committer)
    && CommitSafe(gate, committer)
    && Sessions(gate, h)
    && CommitOrder(gate, h.committed)
  }

  // The lifecycle owner and what its drains have established.
  predicate DrainInv(gate: Gate, edges: seq<Edge>, slot: Option<Item>, control: ControlPc, h: History)
    requires |edges| == 4
  {
    && DrainProgress(gate, edges, slot, control)
    && DrainedAreClean(gate, edges, slot, h.drained)
    && ControlState(gate.c.state, control)
    && Accounted(gate, control, h)
  }

  predicate Inv(s: State) {
    && FlowInv(s.edges, s.workers, s.ingress, s.slot, s.history)
    && OperationInv(s.gate, s.commitLock, s.ingress, s.preflight, s.workers[3].pc, s.history)
    && DrainInv(s.gate, s.edges, s.slot, s.control, s.history)
  }

  // ---------- draining, over one step ----------

  // The step keeps retired generations retired and takes nothing new for them.
  ghost predicate StaysQuiet(gate: Gate, edges: seq<Edge>, slot: Option<Item>,
                       gate': Gate, edges': seq<Edge>, slot': Option<Item>)
    requires |edges| == 4 && |edges'| == 4
  {
    forall v :: Retired(gate, v) ==>
      && Retired(gate', v)
      && (forall n :: 0 <= n <= 4 && QuietUpTo(gate, edges, v, n) ==> QuietUpTo(gate', edges', v, n))
      && (gate.w.inFlight[v] == 0 && !SlotHolds(slot, v) ==> !SlotHolds(slot', v))
  }

  lemma QuietStepKeepsDrains(gate: Gate, edges: seq<Edge>, slot: Option<Item>,
                             gate': Gate, edges': seq<Edge>, slot': Option<Item>,
                             control: ControlPc, h: History)
    requires |edges| == 4 && |edges'| == 4
    requires DrainInv(gate, edges, slot, control, h)
    requires StaysQuiet(gate, edges, slot, gate', edges', slot')
    requires gate'.c == gate.c && gate'.w.events == gate.w.events
    ensures DrainInv(gate', edges', slot', control, h)
  {
  }

  // ---------- gate operations that come and go ----------

  // The gate after one operation was admitted or released.
  predicate SameButWork(gate: Gate, gate': Gate) {
    && gate'.c == gate.c
    && gate'.w.events == gate.w.events
    && GateInv(gate')
  }

  lemma AdmittedStaysQuiet(gate: Gate, generation: Generation, edges: seq<Edge>, slot: Option<Item>)
    requires |edges| == 4 && GateInv(gate) && gate.c.active == Some(generation)
    ensures var called := Register(gate, generation);
            && called.result == Ok(Permit(generation, gate.c.revision.value))
            && SameButWork(gate, called.gate)
            && called.gate.w.inFlight == gate.w.inFlight + multiset{generation}
            && StaysQuiet(gate, edges, slot, called.gate, edges, slot)
  {
    GateTheorems.RegisterKeeps(gate, generation);
  }

  lemma ReleasedStaysQuiet(gate: Gate, generation: Generation, edges: seq<Edge>, slot: Option<Item>)
    requires |edges| == 4 && GateInv(gate)
    ensures SameButWork(gate, Release(gate, generation))
    ensures StaysQuiet(gate, edges, slot, Release(gate, generation), edges, slot)
  {
    GateTheorems.ReleaseKeeps(gate, generation);
  }
}
