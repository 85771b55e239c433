/**
 What safety alone does not say: a submission does get through. While a session records,
 the other threads at rest and no stage faulted, every record with valid stage outputs has
 a run in which it is accepted, passes the four stages and is committed.
 */
module ProtocolDelivery {
  import opened Wrappers
  import opened Lifecycle
  import opened GateModel
  import opened PipelineModel
  import opened Protocol
  import opened ProtocolInvariant
  import opened ProtocolTheorems
  import opened ProtocolProgress

  // ---------- one stage ----------

  function Passing(k: nat, output: Item): seq<WorkerAction> {
    [OnEdge(Receive), Local(FirstCheck), Local(Process(output)), Local(SecondCheck),
     OnEdge(AcquireCredit), OnEdge(SendSucceeds), OnEdge(Finish)]
  }

  function BySteps(k: nat, actions: seq<WorkerAction>): (steps: seq<Step>)
    ensures |steps| == |actions|
  {
    seq(|actions|, i requires 0 <= i < |actions| => OfWorker(k, actions[i]))
  }

  // The state with the stage at this point, its edge and the next one changed.
  function At(s: State, k: nat, pc: Pc, e: Edge): State
    requires k < |s.workers| && k < |s.edges|
  {
    s.(workers := s.workers[k := Worker(pc, false)], edges := s.edges[k := e])
  }

  predicate Current(gate: Gate, g: Generation) {
    gate.c.active == Some(g) && (gate.c.state == Recording || gate.c.state == Paused)
  }

  predicate ReadyFor(s: State, k: nat, m: Message) {
    && |s.edges| == 4 && |s.workers| == 4 && k < 4
    && s.workers[k] == Worker(Polling, false) && s.edges[k].queue == [m]
    && Current(s.gate, m.item.generation)
  }

  // The stage has the message, and its queue is empty.
  lemma Receives(s: State, k: nat, m: Message)
    requires ReadyFor(s, k, m)
    ensures Enabled(s, OfWorker(k, OnEdge(Receive)))
    ensures Apply(s, OfWorker(k, OnEdge(Receive))) == At(s, k, Received(m), s.edges[k].(queue := []))
  {
    assert [m][1..] == [];
  }

  lemma FirstPasses(s: State, k: nat, m: Message)
    requires |s.edges| == 4 && |s.workers| == 4 && k < 4
    requires s.workers[k] == Worker(Received(m), false) && Current(s.gate, m.item.generation)
    ensures Enabled(s, OfWorker(k, Local(FirstCheck)))
    ensures Apply(s, OfWorker(k, Local(FirstCheck)))
         == At(s, k, if k == 3 then AwaitingCommit(m) else Processing(m), s.edges[k])
  {
  }

  lemma Processes(s: State, k: nat, m: Message, output: Item)
    requires |s.edges| == 4 && |s.workers| == 4 && k < 3 && s.workers[k] == Worker(Processing(m), false)
    ensures Enabled(s, OfWorker(k, Local(Process(output))))
    ensures Apply(s, OfWorker(k, Local(Process(output)))) == At(s, k, Produced(m, output), s.edges[k])
  {
  }

  lemma SecondPasses(s: State, k: nat, m: Message, output: Item)
    requires |s.edges| == 4 && |s.workers| == 4 && k < 3
    requires s.workers[k] == Worker(Produced(m, output), false) && Current(s.gate, m.item.generation)
    requires ValidOutput(k, m.item, output)
    ensures Enabled(s, OfWorker(k, Local(SecondCheck)))
    ensures Apply(s, OfWorker(k, Local(SecondCheck))) == At(s, k, Checked(m, output), s.edges[k])
  {
  }

  lemma TakesCredit(s: State, k: nat, m: Message, output: Item)
    requires |s.edges| == 4 && |s.workers| == 4 && k < 3
    requires s.workers[k] == Worker(Checked(m, output), false) && HasCredit(s.edges[k + 1])
    ensures Enabled(s, OfWorker(k, OnEdge(AcquireCredit)))
    ensures Apply(s, OfWorker(k, OnEdge(AcquireCredit)))
         == At(s, k, Sending(m, output), s.edges[k]).(edges := s.edges[k + 1 := Acquired(s.edges[k + 1], output.generation)])
  {
  }

  lemma SendsOn(s: State, k: nat, m: Message, output: Item)
    requires |s.edges| == 4 && |s.workers| == 4 && k < 3 && s.workers[k] == Worker(Sending(m, output), false)
    ensures Enabled(s, OfWorker(k, OnEdge(SendSucceeds)))
    ensures Apply(s, OfWorker(k, OnEdge(SendSucceeds)))
         == At(s, k, Finishing(m), s.edges[k]).(edges := s.edges[k + 1 := Sent(s.edges[k + 1], Forward(m, output))])
  {
  }

  lemma Finishes(s: State, k: nat, m: Message)
    requires |s.edges| == 4 && |s.workers| == 4 && k < 4 && s.workers[k] == Worker(Finishing(m), false)
    ensures Enabled(s, OfWorker(k, OnEdge(Finish)))
    ensures Apply(s, OfWorker(k, OnEdge(Finish))) == At(s, k, Polling, Returned(s.edges[k], m.item.generation))
  {
  }

  // A message and the step after a run.
  lemma OneMore(s: State, steps: seq<Step>, step: Step)
    requires Runs(s, steps) && Enabled(After(s, steps), step)
    ensures Runs(s, steps + [step]) && After(s, steps + [step]) == Apply(After(s, steps), step)
  {
    hide Apply, Enabled;
    OneStepRuns(After(s, steps), step);
    RunsJoin(s, steps, [step]);
  }

  // The message has moved from the stage's queue to the next one, credits included.
  function Passed(s: State, k: nat, m: Message, output: Item): State
    requires |s.edges| == 4 && k < 3
  {
    s.(edges := s.edges[k := Returned(s.edges[k].(queue := []), m.item.generation)]
                       [k + 1 := Sent(Acquired(s.edges[k + 1], output.generation), Forward(m, output))])
  }

  lemma StagePasses(s: State, k: nat, m: Message, output: Item) returns (steps: seq<Step>)
    requires ReadyFor(s, k, m) && k < 3 && ValidOutput(k, m.item, output) && HasCredit(s.edges[k + 1])
    ensures Runs(s, steps) && After(s, steps) == Passed(s, k, m, output)
  {
    hide Apply, Enabled, ValidOutput, HasCredit;
    var e, next := s.edges[k].(queue := []), s.edges[k + 1];
    Receives(s, k, m);
    OneStepRuns(s, OfWorker(k, OnEdge(Receive)));
    steps := [OfWorker(k, OnEdge(Receive))];
    var s1 := After(s, steps);
    FirstPasses(s1, k, m);
    OneMore(s, steps, OfWorker(k, Local(FirstCheck)));
    steps := steps + [OfWorker(k, Local(FirstCheck))];
    var s2 := After(s, steps);
    Processes(s2, k, m, output);
    OneMore(s, steps, OfWorker(k, Local(Process(output))));
    steps := steps + [OfWorker(k, Local(Process(output)))];
    var s3 := After(s, steps);
    SecondPasses(s3, k, m, output);
    OneMore(s, steps, OfWorker(k, Local(SecondCheck)));
    steps := steps + [OfWorker(k, Local(SecondCheck))];
    var s4 := After(s, steps);
    assert s4 == At(s, k, Checked(m, output), e);
    steps := SendPasses(s, steps, s4, k, m, output);
  }

  lemma SendPasses(s: State, checks: seq<Step>, s4: State, k: nat, m: Message, output: Item) returns (steps: seq<Step>)
    requires ReadyFor(s, k, m) && k < 3 && HasCredit(s.edges[k + 1])
    requires Runs(s, checks) && After(s, checks) == s4 == At(s, k, Checked(m, output), s.edges[k].(queue := []))
    ensures Runs(s, steps) && After(s, steps) == Passed(s, k, m, output)
  {
    hide Apply, Enabled, HasCredit;
    steps := checks;
    TakesCredit(s4, k, m, output);
    OneMore(s, steps, OfWorker(k, OnEdge(AcquireCredit)));
    steps := steps + [OfWorker(k, OnEdge(AcquireCredit))];
    var s5 := After(s, steps);
    SendsOn(s5, k, m, output);
    OneMore(s, steps, OfWorker(k, OnEdge(SendSucceeds)));
    steps := steps + [OfWorker(k, OnEdge(SendSucceeds))];
    var s6 := After(s, steps);
    Finishes(s6, k, m);
    OneMore(s, steps, OfWorker(k, OnEdge(Finish)));
    steps := steps + [OfWorker(k, OnEdge(Finish))];
    assert s.workers[k := Worker(Polling, false)] == s.workers;
  }

  // ---------- the persistence operation ----------

  lemma Admits(gate: Gate, g: Generation)
    requires GateInv(gate) && Current(gate, g)
    ensures gate.c.revision.Some?
    ensures var called := AcquirePersistence(gate, g);
            && called.result == Ok(Permit(g, gate.c.revision.value)) && called.gate.c == gate.c
            && Release(called.gate, g) == gate
  {
    assert gate.w.inFlight + multiset{g} - multiset{g} == gate.w.inFlight;
  }

  lemma LocksCommit(s: State, m: Message)
    requires |s.edges| == 4 && |s.workers| == 4 && s.workers[3] == Worker(AwaitingCommit(m), false) && !s.commitLock
    ensures Enabled(s, OfWorker(3, AtGate(LockCommit)))
    ensures Apply(s, OfWorker(3, AtGate(LockCommit))) == At(s, 3, Locked(m), s.edges[3]).(commitLock := true)
  {
  }

  lemma AdmitsCommit(s: State, m: Message)
    requires |s.edges| == 4 && |s.workers| == 4 && s.workers[3] == Worker(Locked(m), false)
    requires GateInv(s.gate) && Current(s.gate, m.item.generation)
    ensures Enabled(s, OfWorker(3, AtGate(AdmitCommit)))
    ensures Apply(s, OfWorker(3, AtGate(AdmitCommit)))
         == At(s, 3, Committing(m, Permit(m.item.generation, s.gate.c.revision.value)), s.edges[3])
            .(gate := AcquirePersistence(s.gate, m.item.generation).gate)
  {
    hide AcquirePersistence, Release, GateInv;
    Admits(s.gate, m.item.generation);
  }

  lemma PersistsIt(s: State, m: Message, permit: Permit)
    requires |s.edges| == 4 && |s.workers| == 4 && s.workers[3] == Worker(Committing(m, permit), false)
    ensures Enabled(s, OfWorker(3, AtGate(PersistSucceeds)))
    ensures Apply(s, OfWorker(3, AtGate(PersistSucceeds)))
         == At(s, 3, Persisted(m, permit), s.edges[3]).(history := s.history.(committed := s.history.committed + [m]))
  {
  }

  lemma LeavesGate(s: State, m: Message, permit: Permit)
    requires |s.edges| == 4 && |s.workers| == 4 && s.workers[3] == Worker(Persisted(m, permit), false)
    ensures Enabled(s, OfWorker(3, AtGate(LeaveGate)))
    ensures Apply(s, OfWorker(3, AtGate(LeaveGate)))
         == At(s, 3, Unlocking(m), s.edges[3]).(gate := Release(s.gate, permit.generation))
  {
  }

  lemma UnlocksCommit(s: State, m: Message)
    requires |s.edges| == 4 && |s.workers| == 4 && s.workers[3] == Worker(Unlocking(m), false)
    ensures Enabled(s, OfWorker(3, AtGate(UnlockCommit)))
    ensures Apply(s, OfWorker(3, AtGate(UnlockCommit))) == At(s, 3, Finishing(m), s.edges[3]).(commitLock := false)
  {
  }

  // The message has been committed and its credit returned.
  function Committed(s: State, m: Message): State
    requires |s.edges| == 4
  {
    s.(edges := s.edges[3 := Returned(s.edges[3].(queue := []), m.item.generation)],
       history := s.history.(committed := s.history.committed + [m]))
  }

  lemma RecordIsCommitted(s: State, m: Message) returns (steps: seq<Step>)
    requires ReadyFor(s, 3, m) && GateInv(s.gate) && !s.commitLock
    ensures Runs(s, steps) && After(s, steps) == Committed(s, m)
  {
    hide Apply, Enabled, GateInv, AcquirePersistence, Release;
    var g := m.item.generation;
    Receives(s, 3, m);
    OneStepRuns(s, OfWorker(3, OnEdge(Receive)));
    steps := [OfWorker(3, OnEdge(Receive))];
    FirstPasses(After(s, steps), 3, m);
    OneMore(s, steps, OfWorker(3, Local(FirstCheck)));
    steps := steps + [OfWorker(3, Local(FirstCheck))];
    LocksCommit(After(s, steps), m);
    OneMore(s, steps, OfWorker(3, AtGate(LockCommit)));
    steps := steps + [OfWorker(3, AtGate(LockCommit))];
    Admits(s.gate, g);
    AdmitsCommit(After(s, steps), m);
    OneMore(s, steps, OfWorker(3, AtGate(AdmitCommit)));
    steps := steps + [OfWorker(3, AtGate(AdmitCommit))];
    assert After(s, steps) == Inside(s, m);
    steps := CommitEnds(s, steps, m);
  }

  // Where the persistence operation is registered.
  function Inside(s: State, m: Message): State
    requires |s.edges| == 4 && |s.workers| == 4 && s.gate.c.revision.Some?
  {
    At(s, 3, Committing(m, Permit(m.item.generation, s.gate.c.revision.value)), s.edges[3].(queue := []))
      .(gate := AcquirePersistence(s.gate, m.item.generation).gate, commitLock := true)
  }

  lemma CommitEnds(s: State, entered: seq<Step>, m: Message) returns (steps: seq<Step>)
    requires ReadyFor(s, 3, m) && GateInv(s.gate) && !s.commitLock && s.gate.c.revision.Some?
    requires Runs(s, entered) && After(s, entered) == Inside(s, m)
    ensures Runs(s, steps) && After(s, steps) == Committed(s, m)
  {
    hide Apply, Enabled, GateInv, AcquirePersistence, Release;
    var permit := Permit(m.item.generation, s.gate.c.revision.value);
    Admits(s.gate, m.item.generation);
    steps := entered;
    PersistsIt(After(s, steps), m, permit);
    OneMore(s, steps, OfWorker(3, AtGate(PersistSucceeds)));
    steps := steps + [OfWorker(3, AtGate(PersistSucceeds))];
    LeavesGate(After(s, steps), m, permit);
    OneMore(s, steps, OfWorker(3, AtGate(LeaveGate)));
    steps := steps + [OfWorker(3, AtGate(LeaveGate))];
    UnlocksCommit(After(s, steps), m);
    OneMore(s, steps, OfWorker(3, AtGate(UnlockCommit)));
    steps := steps + [OfWorker(3, AtGate(UnlockCommit))];
    Finishes(After(s, steps), 3, m);
    OneMore(s, steps, OfWorker(3, OnEdge(Finish)));
    steps := steps + [OfWorker(3, OnEdge(Finish))];
    assert s.workers[3 := Worker(Polling, false)] == s.workers;
  }

  // ---------- the submission ----------

  lemma AdmitsCapture(gate: Gate, g: Generation)
    requires GateInv(gate) && gate.c.state == Recording && gate.c.active == Some(g)
    ensures gate.c.revision.Some?
    ensures var called := AcquireCapture(gate);
            called.result == Ok(Permit(g, gate.c.revision.value)) && Release(called.gate, g) == gate
  {
    assert gate.w.inFlight + multiset{g} - multiset{g} == gate.w.inFlight;
  }

  function Submitted(s: State, item: Item): State
    requires |s.edges| == 4
  {
    s.(edges := s.edges[0 := Sent(Acquired(s.edges[0], item.generation), Message(item, |s.history.accepted|, [Raw]))],
       history := s.history.(accepted := s.history.accepted + [item]))
  }

  lemma SubmissionBegins(s: State, item: Item)
    requires |s.edges| == 4 && |s.workers| == 4 && s.ingress == Quiet && HasCredit(s.edges[0])
    requires GateInv(s.gate) && s.gate.c.state == Recording && s.gate.c.active == Some(item.generation)
    requires item.stage == Raw && s.gate.c.revision == Some(item.revision)
    ensures var begin, take := OfIngress(BeginSubmit(item.recordId, item.generation, item.frames)), OfIngress(OnRaw(SubmitAcquire));
            && Enabled(s, begin) && Enabled(Apply(s, begin), take)
            && Apply(Apply(s, begin), take)
               == s.(gate := AcquireCapture(s.gate).gate,
                     ingress := SubmitCredited(Permit(item.generation, item.revision), item),
                     edges := s.edges[0 := Acquired(s.edges[0], item.generation)])
  {
    hide AcquireCapture, Release, GateInv;
    AdmitsCapture(s.gate, item.generation);
  }

  lemma SubmissionEnds(s: State, permit: Permit, item: Item)
    requires |s.edges| == 4 && |s.workers| == 4 && s.ingress == SubmitCredited(permit, item) && item.stage == Raw
    ensures var send, end := OfIngress(OnRaw(SubmitSends)), OfIngress(EndIngress);
            && Enabled(s, send) && Enabled(Apply(s, send), end)
            && Apply(Apply(s, send), end)
               == s.(gate := Release(s.gate, permit.generation), ingress := Quiet,
                     edges := s.edges[0 := Sent(s.edges[0], Message(item, |s.history.accepted|, [Raw]))],
                     history := s.history.(accepted := s.history.accepted + [item]))
  {
  }

  lemma SubmissionRuns(s: State, item: Item) returns (steps: seq<Step>)
    requires |s.edges| == 4 && |s.workers| == 4 && s.ingress == Quiet && HasCredit(s.edges[0])
    requires GateInv(s.gate) && s.gate.c.state == Recording && s.gate.c.active == Some(item.generation)
    requires item.stage == Raw && s.gate.c.revision == Some(item.revision)
    ensures Runs(s, steps) && After(s, steps) == Submitted(s, item)
  {
    hide Apply, Enabled, GateInv, AcquireCapture, Release, HasCredit;
    AdmitsCapture(s.gate, item.generation);
    SubmissionBegins(s, item);
    var begin, take := OfIngress(BeginSubmit(item.recordId, item.generation, item.frames)), OfIngress(OnRaw(SubmitAcquire));
    OneStepRuns(s, begin);
    OneMore(s, [begin], take);
    steps := [begin] + [take];
    var s2 := After(s, steps);
    var send, end := OfIngress(OnRaw(SubmitSends)), OfIngress(EndIngress);
    SubmissionEnds(s2, Permit(item.generation, item.revision), item);
    OneMore(s, steps, send);
    OneMore(s, steps + [send], end);
    steps := steps + [send] + [end];
  }

  // A flush takes in what waits in the slot.
  lemma FlushBegins(s: State, item: Item)
    requires |s.edges| == 4 && |s.workers| == 4 && s.ingress == Quiet && HasCredit(s.edges[0])
    requires GateInv(s.gate) && s.gate.c.state == Recording && s.gate.c.active == Some(item.generation)
    requires s.slot == Some(item) && s.gate.c.revision.Some?
    ensures var begin, take := OfIngress(BeginFlush), OfIngress(OnRaw(FlushAcquire));
            && Enabled(s, begin) && Enabled(Apply(s, begin), take)
            && Apply(Apply(s, begin), take)
               == s.(gate := AcquireCapture(s.gate).gate,
                     ingress := FlushCredited(Permit(item.generation, s.gate.c.revision.value), item),
                     edges := s.edges[0 := Acquired(s.edges[0], item.generation)])
  {
    hide AcquireCapture, Release, GateInv;
    AdmitsCapture(s.gate, item.generation);
  }

  lemma FlushEnds(s: State, permit: Permit, item: Item)
    requires |s.edges| == 4 && |s.workers| == 4 && s.ingress == FlushCredited(permit, item) && item.stage == Raw
    ensures var send, end := OfIngress(OnRaw(FlushSends)), OfIngress(EndIngress);
            && Enabled(s, send) && Enabled(Apply(s, send), end)
            && Apply(Apply(s, send), end)
               == s.(gate := Release(s.gate, permit.generation), ingress := Quiet, slot := None,
                     edges := s.edges[0 := Sent(s.edges[0], Message(item, |s.history.accepted|, [Raw]))],
                     history := s.history.(accepted := s.history.accepted + [item]))
  {
  }

  // While its generation records and a raw credit is free, the coalesced item can be
  // accepted, which empties the slot.
  lemma CoalescedItemsGetIn(s: State, item: Item) returns (steps: seq<Step>)
    requires |s.edges| == 4 && |s.workers| == 4 && s.ingress == Quiet && HasCredit(s.edges[0])
    requires GateInv(s.gate) && s.gate.c.state == Recording && s.gate.c.active == Some(item.generation)
    requires s.slot == Some(item) && item.stage == Raw
    ensures Runs(s, steps) && After(s, steps) == Submitted(s, item).(slot := None)
  {
    hide Apply, Enabled, GateInv, AcquireCapture, Release, HasCredit;
    AdmitsCapture(s.gate, item.generation);
    FlushBegins(s, item);
    var begin, take := OfIngress(BeginFlush), OfIngress(OnRaw(FlushAcquire));
    OneStepRuns(s, begin);
    OneMore(s, [begin], take);
    steps := [begin] + [take];
    var send, end := OfIngress(OnRaw(FlushSends)), OfIngress(EndIngress);
    FlushEnds(After(s, steps), Permit(item.generation, s.gate.c.revision.value), item);
    OneMore(s, steps, send);
    OneMore(s, steps + [send], end);
    steps := steps + [send] + [end];
  }

  // ---------- the whole way ----------

  // What a processor returns for this record at this stage.
  predicate OutputOf(item: Item, stage: Stage, output: Item) {
    output.stage == stage && output.recordId == item.recordId && output.generation == item.generation
    && output.revision == item.revision
  }

  predicate CanRecord(s: State) {
    && Inv(s) && AtRest(s) && s.gate.c.state == Recording
    && (forall k :: 0 <= k < 4 ==> s.workers[k] == Worker(Polling, false))
    && (forall k :: 0 <= k < 4 ==> |s.edges[k].credits| < s.edges[k].capacity)
  }

  // What the steps need of such a state.
  predicate Prepared(s: State) {
    && |s.edges| == 4 && |s.workers| == 4 && GateInv(s.gate) && !s.commitLock && s.ingress == Quiet
    && s.gate.c.state == Recording && s.gate.c.active.Some? && s.gate.c.revision.Some?
    && (forall k :: 0 <= k < 4 ==> s.edges[k].queue == [] && HasCredit(s.edges[k]))
    && (forall k :: 0 <= k < 4 ==> s.workers[k] == Worker(Polling, false))
  }

  lemma RestIsPrepared(s: State)
    requires CanRecord(s)
    ensures Prepared(s)
  {
    OwnerParts(s);
  }

  lemma ReturnsWhatItTook(e: Edge, m: Message)
    requires e.queue == []
    ensures Returned(Sent(Acquired(e, m.item.generation), m).(queue := []), m.item.generation) == e
  {
    assert e.credits + multiset{m.item.generation} - multiset{m.item.generation} == e.credits;
  }

  // The record stands before the stage with index k, and nothing else has changed.
  function Reached(s: State, item: Item, k: nat, m: Message): State
    requires |s.edges| == 4 && k < 4
  {
    s.(edges := s.edges[k := Sent(Acquired(s.edges[k], m.item.generation), m)],
       history := s.history.(accepted := s.history.accepted + [item]))
  }

  lemma PassesOn(s: State, item: Item, k: nat, m: Message, output: Item) returns (steps: seq<Step>)
    requires Prepared(s) && k < 3 && s.gate.c.active == Some(m.item.generation) && ValidOutput(k, m.item, output)
    ensures Runs(Reached(s, item, k, m), steps)
    ensures After(Reached(s, item, k, m), steps) == Reached(s, item, k + 1, Forward(m, output))
  {
    hide Apply, Enabled, GateInv, ValidOutput;
    steps := StagePasses(Reached(s, item, k, m), k, m, output);
    ReturnsWhatItTook(s.edges[k], m);
    var e := Sent(Acquired(s.edges[k + 1], output.generation), Forward(m, output));
    assert s.edges[k := Sent(Acquired(s.edges[k], m.item.generation), m)][k := s.edges[k]][k + 1 := e] == s.edges[k + 1 := e];
  }

  lemma IsCommitted(s: State, item: Item, m: Message) returns (steps: seq<Step>)
    requires Prepared(s) && s.gate.c.active == Some(m.item.generation)
    ensures Runs(Reached(s, item, 3, m), steps)
    ensures After(Reached(s, item, 3, m), steps)
         == s.(history := s.history.(accepted := s.history.accepted + [item], committed := s.history.committed + [m]))
  {
    hide Apply, Enabled, GateInv;
    steps := RecordIsCommitted(Reached(s, item, 3, m), m);
    ReturnsWhatItTook(s.edges[3], m);
    assert s.edges[3 := Sent(Acquired(s.edges[3], m.item.generation), m)][3 := s.edges[3]] == s.edges;
  }

  // While a session records and the others are at rest, a submitted record whose stages
  // return valid outputs can be accepted, pass all stages and be committed, and the system
  // is then where it was but for its history.
  lemma SubmissionsGetThrough(s: State, item: Item, analyzed: Item, redacted: Item, encrypted: Item) returns (steps: seq<Step>)
    requires CanRecord(s)
    requires item.stage == Raw && s.gate.c.active == Some(item.generation) && s.gate.c.revision == Some(item.revision)
    requires OutputOf(item, Analyzed, analyzed) && OutputOf(item, Redacted, redacted) && OutputOf(item, Encrypted, encrypted)
    ensures Runs(s, steps)
    ensures After(s, steps)
         == s.(history := s.history.(accepted := s.history.accepted + [item],
                                     committed := s.history.committed
                                                  + [Message(encrypted, |s.history.accepted|,
                                                             [Raw, Analyzed, Redacted, Encrypted])]))
  {
    hide Apply, Enabled, GateInv, HasCredit, Inv, AtRest, Prepared, CanRecord, Submitted, Reached;
    RestIsPrepared(s);
    var m0 := Message(item, |s.history.accepted|, [Raw]);
    var m1 := Forward(m0, analyzed);
    var m2 := Forward(m1, redacted);
    var m3 := Forward(m2, encrypted);
    assert m3 == Message(encrypted, |s.history.accepted|, [Raw, Analyzed, Redacted, Encrypted]);
    SubmittedReaches(s, item, m0);
    steps := SubmissionRuns(s, item);
    var pass := PassesOn(s, item, 0, m0, analyzed);
    RunsJoin(s, steps, pass);
    steps := steps + pass;
    pass := PassesOn(s, item, 1, m1, redacted);
    RunsJoin(s, steps, pass);
    steps := steps + pass;
    pass := PassesOn(s, item, 2, m2, encrypted);
    RunsJoin(s, steps, pass);
    steps := steps + pass;
    pass := IsCommitted(s, item, m3);
    RunsJoin(s, steps, pass);
    steps := steps + pass;
  }

  lemma SubmittedReaches(s: State, item: Item, m: Message)
    requires Prepared(s) && m == Message(item, |s.history.accepted|, [Raw])
    ensures |s.edges| == 4 && |s.workers| == 4 && s.ingress == Quiet && HasCredit(s.edges[0])
    ensures GateInv(s.gate) && s.gate.c.state == Recording
    ensures Submitted(s, item) == Reached(s, item, 0, m)
  {
  }
}
