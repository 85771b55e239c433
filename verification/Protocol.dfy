/**
 The capture lifecycle and the bounded pipeline as one interleaved machine. A
 step is one critical section of one thread: the ingress owner, one of the four
 stage actors, the preflight actor or the lifecycle owner. Outcomes that come
 from outside (a failed send, a raising processor, a deadline, a timeout) are
 choices of the step.
 */
module Protocol {
  import opened Wrappers
  import opened Lifecycle
  import opened GateModel
  import opened PipelineModel

  datatype State = State(gate: Gate,
                         commitLock: bool,
                         edges: seq<Edge>,
                         workers: seq<Worker>,
                         ingress: IngressPc,
                         slot: Option<Item>,
                         preflight: Option<Permit>,
                         control: ControlPc,
                         dropNewest: bool,
                         history: History)

  // What the run has done so far; no step reads it.
  datatype History = History(accepted: seq<Item>,
                             committed: seq<Message>,
                             sessions: map<Generation, Revision>,
                             drained: set<Generation>,
                             abandoned: set<Generation>)

  predicate Initial(s: State) {
    && s.gate == InitialGate
    && !s.commitLock
    && |s.edges| == 4 && |s.workers| == 4
    && (forall k :: 0 <= k < 4 ==>
          && s.edges[k].capacity > 0 && s.edges[k].credits == multiset{}
          && s.edges[k].queue == [] && s.edges[k].leaked == multiset{}
          && s.workers[k] == Worker(Polling, false))
    && s.ingress == Quiet && s.slot == None && s.preflight == None && s.control == Ready
    && s.history == History([], [], map[], {}, {})
  }

  // ---------- edges ----------

  predicate HasCredit(e: Edge) {
    |e.credits| < e.capacity
  }

  function Acquired(e: Edge, g: Generation): Edge {
    e.(credits := e.credits + multiset{g})
  }

  function Returned(e: Edge, g: Generation): Edge {
    e.(credits := e.credits - multiset{g})
  }

  function Sent(e: Edge, m: Message): Edge {
    e.(queue := e.queue + [m])
  }

  function Leaked(e: Edge, g: Generation): Edge {
    e.(leaked := e.leaked + multiset{g})
  }

  // ---------- stage actors ----------

  // Steps that change only the actor itself.
  datatype LocalAction =
    | Discard                 // faulted, cancelled or past its deadline
    | DecodeFails
    | FirstCheck              // require_current_generation before processing
    | ProcessorFails
    | Process(output: Item)   // whatever the processor returned
    | SkipCancelled
    | SecondCheck             // require_current_generation and output validation
    | FindNoCredit
    | SendFails

  // Steps on the input or the output edge.
  datatype EdgeAction =
    | Receive
    | Finish
    | HeaderUnreadable(draining: bool) // no generation, so the credit is not returned
    | AcquireCredit
    | SendSucceeds
    | EncodeFails
    | ReturnCredit

  // The action touches the edge the stage receives from, and not the next one.
  predicate OnOwnEdge(a: EdgeAction) {
    a.Receive? || a.Finish? || a.HeaderUnreadable?
  }

  // Steps of the persistence operation, on the gate and the commit lock.
  datatype CommitAction = LockCommit | AdmitCommit | PersistSucceeds | PersistFails | LeaveGate | UnlockCommit

  datatype WorkerAction = Local(local: LocalAction) | OnEdge(edge: EdgeAction) | AtGate(commit: CommitAction)

  predicate LocalFits(k: nat, w: Worker, a: LocalAction) {
    match a
    case Discard => w.pc.Received?
    case DecodeFails => w.pc.Received?
    case FirstCheck => w.pc.Received? && !w.faulted
    case ProcessorFails => w.pc.Processing?
    case Process(_) => w.pc.Processing?
    case SkipCancelled => w.pc.Produced?
    case SecondCheck => w.pc.Produced? && k < 3
    case FindNoCredit => w.pc.Checked? && k < 3
    case SendFails => w.pc.Sending?
  }

  predicate LocalEnabled(s: State, k: nat, a: LocalAction)
    requires k < 4 && |s.workers| == 4 && |s.edges| == 4
  {
    LocalFits(k, s.workers[k], a) && (a.FindNoCredit? ==> !HasCredit(s.edges[k + 1]))
  }

  function LocalWorker(gate: Gate, k: nat, w: Worker, a: LocalAction): Worker
    requires k < 4 && LocalFits(k, w, a)
  {
    var m := w.pc.m;
    match a
    case Discard => w.(pc := Finishing(m))
    case DecodeFails => Worker(Finishing(m), true)
    case FirstCheck =>
      if CurrentGenerationError(gate, m.item.generation).Some? then w.(pc := Finishing(m))
      else if k == 3 then w.(pc := AwaitingCommit(m))
      else w.(pc := Processing(m))
    case ProcessorFails => Worker(Finishing(m), true)
    case Process(output) => w.(pc := Produced(m, output))
    case SkipCancelled => w.(pc := Finishing(m))
    case SecondCheck =>
      if CurrentGenerationError(gate, m.item.generation).Some? then w.(pc := Finishing(m))
      else if !ValidOutput(k, m.item, w.pc.output) then Worker(Finishing(m), true)
      else w.(pc := Checked(m, w.pc.output))
    case FindNoCredit => w.(pc := Finishing(m))
    case SendFails => w.(pc := SendFailed(m, w.pc.output))
  }

  predicate EdgeEnabled(s: State, k: nat, a: EdgeAction)
    requires k < 4 && |s.workers| == 4 && |s.edges| == 4
  {
    && (OnOwnEdge(a) || k < 3)
    && EdgeFits(s.edges[EdgeIndex(k, a)], s.workers[k], a)
  }

  // The edge that the action touches: the stage's own, or the next.
  function EdgeIndex(k: nat, a: EdgeAction): nat {
    if OnOwnEdge(a) then k else k + 1
  }

  predicate EdgeFits(e: Edge, w: Worker, a: EdgeAction) {
    match a
    case Receive => w.pc.Polling? && e.queue != []
    case Finish => w.pc.Finishing?
    case HeaderUnreadable(_) => w.pc.Received?
    case AcquireCredit => w.pc.Checked? && HasCredit(e)
    case SendSucceeds => w.pc.Sending?
    case EncodeFails => w.pc.Sending?
    case ReturnCredit => w.pc.SendFailed?
  }

  function EdgeAfter(e: Edge, w: Worker, a: EdgeAction): Edge
    requires EdgeFits(e, w, a)
  {
    match a
    case Receive => e.(queue := e.queue[1..])
    case Finish => Returned(e, w.pc.m.item.generation)
    case HeaderUnreadable(_) => Leaked(e, w.pc.m.item.generation)
    case AcquireCredit => Acquired(e, w.pc.output.generation)
    case SendSucceeds => Sent(e, Forward(w.pc.m, w.pc.output))
    case EncodeFails => Leaked(e, w.pc.output.generation)
    case ReturnCredit => Returned(e, w.pc.output.generation)
  }

  function WorkerAfter(e: Edge, w: Worker, a: EdgeAction): Worker
    requires EdgeFits(e, w, a)
  {
    match a
    case Receive => w.(pc := Received(e.queue[0]))
    case Finish => w.(pc := Polling)
    case HeaderUnreadable(draining) => Worker(Polling, w.faulted || !draining)
    case AcquireCredit => w.(pc := Sending(w.pc.m, w.pc.output))
    case SendSucceeds => w.(pc := Finishing(w.pc.m))
    case EncodeFails => Worker(Finishing(w.pc.m), true)
    case ReturnCredit => w.(pc := Finishing(w.pc.m))
  }

  predicate CommitFits(pc: Pc, commitLock: bool, a: CommitAction) {
    match a
    case LockCommit => pc.AwaitingCommit? && !commitLock
    case AdmitCommit => pc.Locked?
    case PersistSucceeds => pc.Committing?
    case PersistFails => pc.Committing?
    case LeaveGate => pc.Persisted?
    case UnlockCommit => pc.Unlocking?
  }

  function CommitWorker(gate: Gate, w: Worker, commitLock: bool, a: CommitAction): Worker
    requires CommitFits(w.pc, commitLock, a)
  {
    var m := w.pc.m;
    match a
    case LockCommit => w.(pc := Locked(m))
    case AdmitCommit =>
      var called := AcquirePersistence(gate, m.item.generation);
      w.(pc := if called.result.Ok? then Committing(m, called.result.value) else Unlocking(m))
    case PersistSucceeds => w.(pc := Persisted(m, w.pc.permit))
    case PersistFails => Worker(Persisted(m, w.pc.permit), true)
    case LeaveGate => w.(pc := Unlocking(m))
    case UnlockCommit => w.(pc := Finishing(m))
  }

  function CommitGate(gate: Gate, w: Worker, commitLock: bool, a: CommitAction): Gate
    requires CommitFits(w.pc, commitLock, a)
  {
    match a
    case AdmitCommit => AcquirePersistence(gate, w.pc.m.item.generation).gate
    case LeaveGate => Release(gate, w.pc.permit.generation)
    case _ => gate
  }

  function CommitLockAfter(commitLock: bool, a: CommitAction): bool {
    if a.LockCommit? then true else if a.UnlockCommit? then false else commitLock
  }

  function CommitHistory(h: History, w: Worker, a: CommitAction): History
    requires a.PersistSucceeds? ==> w.pc.Committing?
  {
    if a.PersistSucceeds? then h.(committed := h.committed + [w.pc.m]) else h
  }

  function ApplyCommit(s: State, a: CommitAction): State
    requires |s.workers| == 4 && CommitFits(s.workers[3].pc, s.commitLock, a)
  {
    var w := s.workers[3];
    s.(gate := CommitGate(s.gate, w, s.commitLock, a),
       commitLock := CommitLockAfter(s.commitLock, a),
       workers := s.workers[3 := CommitWorker(s.gate, w, s.commitLock, a)],
       history := CommitHistory(s.history, w, a))
  }

  predicate WorkerEnabled(s: State, k: nat, a: WorkerAction)
    requires k < 4 && |s.workers| == 4 && |s.edges| == 4
  {
    match a
    case Local(l) => LocalEnabled(s, k, l)
    case OnEdge(e) => EdgeEnabled(s, k, e)
    case AtGate(c) => k == 3 && CommitFits(s.workers[3].pc, s.commitLock, c)
  }

  function ApplyWorker(s: State, k: nat, a: WorkerAction): State
    requires k < 4 && |s.workers| == 4 && |s.edges| == 4
    requires WorkerEnabled(s, k, a)
  {
    match a
    case Local(l) => s.(workers := s.workers[k := LocalWorker(s.gate, k, s.workers[k], l)])
    case OnEdge(e) =>
      var j := EdgeIndex(k, e);
      s.(edges := s.edges[j := EdgeAfter(s.edges[j], s.workers[k], e)],
         workers := s.workers[k := WorkerAfter(s.edges[j], s.workers[k], e)])
    case AtGate(c) => ApplyCommit(s, c)
  }

  // ---------- ingress ----------

  // Steps that change the ingress and its one coalesced slot.
  datatype SlotAction =
    | SubmitCancelled
    | SubmitFindsNoCredit
    | SubmitSendFails
    | HandleOverload
    | FlushEmpty
    | FlushDiscards
    | FlushOverload
    | FlushSendFails

  // Steps on the raw edge.
  datatype RawAction =
    | SubmitAcquire | SubmitSends | SubmitReturns | SubmitEncodeFails
    | FlushAcquire | FlushSends | FlushReturns | FlushEncodeFails

  datatype IngressAction =
    | BeginSubmit(recordId: int, expected: Generation, frames: seq<seq<int>>)
    | BeginFlush
    | InSlot(slot: SlotAction)
    | OnRaw(raw: RawAction)
    | EndIngress

  predicate PermitCancelled(s: State, p: Permit) {
    p.generation in s.gate.w.events && Cancelled(s.gate, p)
  }

  predicate SlotEnabled(s: State, a: SlotAction)
    requires |s.edges| == 4
  {
    var pc := s.ingress;
    match a
    case SubmitCancelled => pc.Submitting? && PermitCancelled(s, pc.permit)
    case SubmitFindsNoCredit => pc.Submitting? && !HasCredit(s.edges[0])
    case HandleOverload => pc.Overloaded?
    case SubmitSendFails => pc.SubmitCredited?
    case FlushEmpty => pc.Flushing? && s.slot.None?
    case FlushDiscards =>
      && pc.Flushing? && s.slot.Some?
      && (s.slot.value.generation != pc.permit.generation || PermitCancelled(s, pc.permit))
    case FlushOverload =>
      && pc.Flushing? && s.slot.Some? && s.slot.value.generation == pc.permit.generation
      && !HasCredit(s.edges[0])
    case FlushSendFails => pc.FlushCredited?
  }

  // The item that could not be queued: dropped, or kept in place of the older one.
  function Overload(dropNewest: bool, slot: Option<Item>, item: Item): Option<Item> {
    if dropNewest then slot else Some(item)
  }

  function PcAfterSlot(pc: IngressPc, a: SlotAction): IngressPc
    requires !pc.Quiet?
    requires a.SubmitSendFails? || a.FlushSendFails? ==> pc.SubmitCredited? || pc.FlushCredited?
    requires a.SubmitFindsNoCredit? ==> pc.Submitting?
  {
    match a
    case SubmitFindsNoCredit => Overloaded(pc.permit, pc.item)
    case SubmitSendFails => SubmitFailed(pc.permit, pc.item)
    case FlushSendFails => FlushFailed(pc.permit, pc.item)
    case _ => Leaving(pc.permit)
  }

  function SlotAfter(s: State, a: SlotAction): Option<Item>
    requires |s.edges| == 4 && SlotEnabled(s, a)
  {
    match a
    case HandleOverload => Overload(s.dropNewest, s.slot, s.ingress.item)
    case FlushDiscards => None
    case _ => s.slot
  }

  predicate RawFits(e: Edge, pc: IngressPc, slot: Option<Item>, a: RawAction) {
    match a
    case SubmitAcquire => pc.Submitting? && HasCredit(e)
    case SubmitSends => pc.SubmitCredited?
    case SubmitReturns => pc.SubmitFailed?
    case SubmitEncodeFails => pc.SubmitCredited?
    case FlushAcquire =>
      pc.Flushing? && slot.Some? && slot.value.generation == pc.permit.generation && HasCredit(e)
    case FlushSends => pc.FlushCredited?
    case FlushReturns => pc.FlushFailed?
    case FlushEncodeFails => pc.FlushCredited?
  }

  predicate Sends(a: RawAction) {
    a.SubmitSends? || a.FlushSends?
  }

  // The item at stake on the raw edge.
  function RawItem(pc: IngressPc, slot: Option<Item>, a: RawAction): Item
    requires if a.FlushAcquire? then slot.Some? else !pc.Quiet? && !pc.Flushing? && !pc.Leaving?
  {
    if a.FlushAcquire? then slot.value else pc.item
  }

  function RawEdgeAfter(e: Edge, pc: IngressPc, slot: Option<Item>, accepted: seq<Item>, a: RawAction): Edge
    requires RawFits(e, pc, slot, a)
  {
    var item := RawItem(pc, slot, a);
    if a.SubmitAcquire? || a.FlushAcquire? then Acquired(e, item.generation)
    else if Sends(a) then Sent(e, Message(item, |accepted|, [item.stage]))
    else if a.SubmitReturns? || a.FlushReturns? then Returned(e, item.generation)
    else Leaked(e, item.generation)
  }

  function PcAfterRaw(e: Edge, pc: IngressPc, slot: Option<Item>, a: RawAction): IngressPc
    requires RawFits(e, pc, slot, a)
  {
    match a
    case SubmitAcquire => SubmitCredited(pc.permit, pc.item)
    case FlushAcquire => FlushCredited(pc.permit, slot.value)
    case SubmitReturns => Overloaded(pc.permit, pc.item)
    case _ => Leaving(pc.permit)
  }

  function SlotAfterRaw(slot: Option<Item>, a: RawAction): Option<Item> {
    if a.FlushSends? then None else slot
  }

  // A queued item counts as an accepted submission.
  function RawHistory(h: History, e: Edge, pc: IngressPc, slot: Option<Item>, a: RawAction): History
    requires RawFits(e, pc, slot, a)
  {
    if Sends(a) then h.(accepted := h.accepted + [pc.item]) else h
  }

  predicate IngressEnabled(s: State, a: IngressAction)
    requires |s.edges| == 4
  {
    match a
    case BeginSubmit(_, _, _) => s.ingress.Quiet? && AcquireCapture(s.gate).result.Ok?
    case BeginFlush => s.ingress.Quiet? && AcquireCapture(s.gate).result.Ok?
    case InSlot(l) => SlotEnabled(s, l)
    case OnRaw(r) => RawFits(s.edges[0], s.ingress, s.slot, r)
    case EndIngress => s.ingress.Leaving?
  }

  // Where a submission stands once the gate has admitted it.
  function Submission(permit: Permit, recordId: int, expected: Generation, frames: seq<seq<int>>): IngressPc {
    if permit.generation != expected then Leaving(permit)
    else Submitting(permit, Item(Raw, recordId, expected, permit.revision, frames))
  }

  function ApplyIngress(s: State, a: IngressAction): State
    requires |s.edges| == 4 && IngressEnabled(s, a)
  {
    match a
    case BeginSubmit(recordId, expected, frames) =>
      var called := AcquireCapture(s.gate);
      s.(gate := called.gate, ingress := Submission(called.result.value, recordId, expected, frames))
    case BeginFlush =>
      var called := AcquireCapture(s.gate);
      s.(gate := called.gate, ingress := Flushing(called.result.value))
    case InSlot(l) => s.(slot := SlotAfter(s, l), ingress := PcAfterSlot(s.ingress, l))
    case OnRaw(r) =>
      var e := s.edges[0];
      s.(edges := s.edges[0 := RawEdgeAfter(e, s.ingress, s.slot, s.history.accepted, r)],
         ingress := PcAfterRaw(e, s.ingress, s.slot, r),
         slot := SlotAfterRaw(s.slot, r),
         history := RawHistory(s.history, e, s.ingress, s.slot, r))
    case EndIngress => s.(gate := Release(s.gate, s.ingress.permit.generation), ingress := Quiet)
  }

  // ---------- preflight ----------

  datatype PreflightAction = BeginPreflight(generation: Generation) | EndPreflight

  predicate PreflightEnabled(s: State, a: PreflightAction) {
    match a
    case BeginPreflight(g) => s.preflight.None? && AcquirePreflight(s.gate, g).result.Ok?
    case EndPreflight => s.preflight.Some?
  }

  function ApplyPreflight(s: State, a: PreflightAction): State
    requires PreflightEnabled(s, a)
  {
    match a
    case BeginPreflight(g) =>
      var called := AcquirePreflight(s.gate, g);
      s.(gate := called.gate, preflight := Some(called.result.value))
    case EndPreflight => s.(gate := Release(s.gate, s.preflight.value.generation), preflight := None)
  }

  // ---------- the lifecycle owner ----------

  datatype ControlAction =
    | StartSession(reason: TransitionReason, revision: Revision)
    | EnterRecording(reason: TransitionReason)
    | PauseSession(reason: TransitionReason)
    | ResumeSession(reason: TransitionReason)
    | PauseAutomatically(reason: TransitionReason)
    | StopSession(reason: TransitionReason)
    | StopFaulted                                       // clears every buffer, waits for no work
    | EnterFault(reason: TransitionReason, drain: bool)
    | CancelQueued(raises: bool)
    | SeeOperations(timeout: bool)
    | SeeEdge(timeout: bool)
    | SeeSlot
    | ClearCoalesced
    | SeeDrained(answer: DrainAnswer)                   // the next stage's answer
    | EndDrain(reason: TransitionReason)

  predicate ControlEnabled(s: State, a: ControlAction) {
    var c := s.gate.c;
    var pc := s.control;
    match a
    case StartSession(_, _) => pc.Ready? && c.state == Off
    case EnterRecording(_) => pc.Ready? && c.state == Starting && c.active.Some?
    case PauseSession(_) => pc.Ready? && c.state == Recording
    case ResumeSession(_) => pc.Ready? && c.state == Paused
    case PauseAutomatically(_) => pc.Ready? && IsActiveState(c.state) && !s.commitLock
    case StopSession(_) => pc.Ready? && IsActiveState(c.state) && !s.commitLock
    case StopFaulted => pc.Ready? && c.state == Faulted
    case EnterFault(_, drain) => c.state != Faulted && !s.commitLock && FaultsHere(pc, drain)
    case CancelQueued(_) => pc.Draining? && pc.point == Cancel && !HoldsSlotLock(s.ingress)
    case SeeOperations(timeout) =>
      && pc.Draining? && pc.point == AwaitOperations && pc.generation.Some?
      && (timeout || s.gate.w.inFlight[pc.generation.value] == 0)
    case SeeEdge(timeout) =>
      && pc.Draining? && pc.point.AwaitEdge? && pc.point.k < 4 && |s.edges| == 4 && pc.generation.Some?
      && (timeout || s.edges[pc.point.k].credits[pc.generation.value] == 0)
    case SeeSlot => pc.Draining? && pc.point == CheckSlot && pc.generation.Some? && !HoldsSlotLock(s.ingress)
    case ClearCoalesced => pc.Draining? && pc.point == Clear && !HoldsSlotLock(s.ingress)
    case SeeDrained(answer) =>
      && pc.Draining? && pc.point.AwaitStage? && pc.point.k < 4 && |s.edges| == 4 && |s.workers| == 4
      && (answer.Emptied? ==> IdleStage(s, pc.point.k))
    case EndDrain(_) =>
      pc.Draining? && pc.point == Complete && (pc.ok || pc.purpose == AfterFault || c.state == Faulted)
  }

  // The owner faults with a drain between messages or when an announcement failed, and
  // without one after a drain that failed.
  predicate FaultsHere(pc: ControlPc, drain: bool) {
    if drain then pc.Ready? || pc.point == Cancel else pc.Draining? && pc.point == Complete && !pc.ok
  }

  // A stage that handles no message and has none waiting.
  predicate IdleStage(s: State, k: nat)
    requires k < 4 && |s.edges| == 4 && |s.workers| == 4
  {
    s.workers[k].pc.Polling? && s.edges[k].queue == []
  }

  // The steps inside a drain.
  predicate DrainAction(a: ControlAction) {
    a.CancelQueued? || a.SeeOperations? || a.SeeEdge? || a.SeeSlot? || a.ClearCoalesced? || a.SeeDrained?
  }

  // The drain that follows an invalidation; with no generation only buffers are cleared.
  function BeginDrain(generation: Option<Generation>, purpose: Purpose): ControlPc {
    Draining(generation, purpose, if generation.Some? then Cancel else Clear, true)
  }

  predicate SlotHolds(slot: Option<Item>, g: Generation) {
    slot.Some? && slot.value.generation == g
  }

  // clear_coalesced with a generation, or with None for every generation.
  function ClearSlot(slot: Option<Item>, generation: Option<Generation>): Option<Item> {
    if generation.None? || SlotHolds(slot, generation.value) then None else slot
  }

  function Options(o: Option<Generation>): set<Generation> {
    if o.Some? then {o.value} else {}
  }

  function ControlGate(s: State, a: ControlAction): Gate
    requires ControlEnabled(s, a)
  {
    match a
    case StartSession(reason, revision) => BeginStart(s.gate, reason, revision).gate
    case EnterRecording(reason) => MarkRecording(s.gate, s.gate.c.active.value, reason).gate
    case PauseSession(reason) => Pause(s.gate, reason).gate
    case ResumeSession(reason) => Resume(s.gate, reason).gate
    case PauseAutomatically(reason) => InvalidateAndPause(s.gate, reason).gate
    case StopSession(reason) => BeginStopping(s.gate, reason).gate
    case EnterFault(reason, _) => Fault(s.gate, reason).gate
    case EndDrain(reason) =>
      if s.control.ok && s.control.purpose == ToOff then FinishOff(s.gate, reason).gate else s.gate
    case _ => s.gate
  }

  function ControlAfter(s: State, a: ControlAction): ControlPc
    requires ControlEnabled(s, a)
  {
    var pc := s.control;
    match a
    case PauseAutomatically(_) => BeginDrain(s.gate.c.active, ToPaused)
    case StopSession(_) => BeginDrain(s.gate.c.active, ToOff)
    case StopFaulted => BeginDrain(None, ToOff)
    case EnterFault(_, drain) => if drain then BeginDrain(FaultedGeneration(s.gate.c), AfterFault) else Ready
    case CancelQueued(raises) => pc.(point := AwaitOperations, ok := pc.ok && !raises)
    case SeeOperations(timeout) => pc.(point := AwaitEdge(0), ok := pc.ok && !timeout)
    case SeeEdge(timeout) =>
      if timeout then pc.(point := Clear, ok := false)
      else pc.(point := if pc.point.k == 3 then CheckSlot else AwaitEdge(pc.point.k + 1))
    case SeeSlot => pc.(point := Clear, ok := pc.ok && !SlotHolds(s.slot, pc.generation.value))
    case ClearCoalesced => pc.(point := AwaitStage(0))
    case SeeDrained(answer) =>
      if answer.AskRaised? then pc.(point := Complete, ok := false)
      else pc.(point := if pc.point.k == 3 then Complete else AwaitStage(pc.point.k + 1))
    case EndDrain(_) => Ready
    case _ => pc
  }

  function ControlSlot(s: State, a: ControlAction): Option<Item>
    requires ControlEnabled(s, a)
  {
    match a
    case CancelQueued(raises) => if raises then s.slot else ClearSlot(s.slot, s.control.generation)
    case ClearCoalesced => ClearSlot(s.slot, s.control.generation)
    case _ => s.slot
  }

  function ControlHistory(s: State, a: ControlAction): History
    requires ControlEnabled(s, a)
  {
    var h := s.history;
    match a
    case StartSession(_, revision) => h.(sessions := h.sessions[s.gate.c.epoch + 1 := revision])
    case PauseAutomatically(_) =>
      if s.gate.c.revision.None? then h
      else h.(sessions := h.sessions[s.gate.c.epoch + 1 := s.gate.c.revision.value])
    case EnterFault(_, _) =>
      h.(abandoned := h.abandoned + Options(s.gate.c.active)
                      + if s.control.Draining? then Options(s.control.generation) else {})
    case EndDrain(_) =>
      if s.control.ok && s.control.purpose != AfterFault
      then h.(drained := h.drained + Options(s.control.generation)) else h
    case _ => h
  }

  function ApplyControl(s: State, a: ControlAction): State
    requires ControlEnabled(s, a)
  {
    s.(gate := ControlGate(s, a), control := ControlAfter(s, a),
       slot := ControlSlot(s, a), history := ControlHistory(s, a))
  }

  // ---------- runs ----------

  datatype Step =
    | OfWorker(k: nat, work: WorkerAction)
    | OfIngress(ingress: IngressAction)
    | OfPreflight(preflight: PreflightAction)
    | OfControl(control: ControlAction)

  predicate Enabled(s: State, step: Step) {
    && |s.workers| == 4 && |s.edges| == 4
    && match step
       case OfWorker(k, a) => k < 4 && WorkerEnabled(s, k, a)
       case OfIngress(a) => IngressEnabled(s, a)
       case OfPreflight(a) => PreflightEnabled(s, a)
       case OfControl(a) => ControlEnabled(s, a)
  }

  function Apply(s: State, step: Step): State
    requires Enabled(s, step)
  {
    match step
    case OfWorker(k, a) => ApplyWorker(s, k, a)
    case OfIngress(a) => ApplyIngress(s, a)
    case OfPreflight(a) => ApplyPreflight(s, a)
    case OfControl(a) => ApplyControl(s, a)
  }

  predicate Runs(s: State, steps: seq<Step>)
    decreases |steps|
  {
    steps == [] || (Enabled(s, steps[0]) && Runs(Apply(s, steps[0]), steps[1..]))
  }

  function After(s: State, steps: seq<Step>): State
    requires Runs(s, steps)
    decreases |steps|
  {
    if steps == [] then s else After(Apply(s, steps[0]), steps[1..])
  }
}
