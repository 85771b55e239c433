/**
 No thread can hold another up for ever: from every reachable state each stage can bring
 its message to an end and empty its queue by its own steps, and the ingress and the
 preflight can leave the gate by theirs. So whatever lock or wait the owner meets, the
 holder alone has a continuation that frees it.
 */
module ProtocolProgress {
  import opened Wrappers
  import opened Lifecycle
  import opened GateModel
  import opened PipelineModel
  import opened Protocol
  import opened ProtocolInvariant
  import opened ProtocolTheorems

  // ---------- joining runs ----------

  lemma {:induction false} RunsJoin(s: State, a: seq<Step>, b: seq<Step>)
    requires Runs(s, a) && Runs(After(s, a), b)
    ensures Runs(s, a + b) && After(s, a + b) == After(After(s, a), b)
    decreases |a|
  {
    hide Apply, Enabled;
    if a == [] {
      assert a + b == b;
    } else {
      assert (a + b)[0] == a[0] && (a + b)[1..] == a[1..] + b;
      RunsJoin(Apply(s, a[0]), a[1..], b);
    }
  }

  lemma OneStepRuns(s: State, step: Step)
    requires Enabled(s, step)
    ensures Runs(s, [step]) && After(s, [step]) == Apply(s, step)
  {
    hide Apply, Enabled;
    var s' := Apply(s, step);
    assert [step][1..] == [];
    assert Runs(s', []) && After(s', []) == s';
  }

  // The run loses no credit.
  predicate NoLoss(steps: seq<Step>) {
    forall i, k :: 0 <= i < |steps| && 0 <= k < 4 ==> !LosesCredit(steps[i], k)
  }

  // ---------- a stage brings its message to an end ----------

  // A step of the stage with index k that needs nothing of the others.
  function NextAction(pc: Pc, hasCredit: bool): WorkerAction
    requires !pc.Polling?
  {
    match pc
    case Received(_) => Local(Discard)
    case Processing(m) => Local(Process(m.item))
    case Produced(_, _) => Local(SkipCancelled)
    case Checked(_, _) => if hasCredit then OnEdge(AcquireCredit) else Local(FindNoCredit)
    case Sending(_, _) => Local(SendFails)
    case SendFailed(_, _) => OnEdge(ReturnCredit)
    case AwaitingCommit(_) => AtGate(LockCommit)
    case Locked(_) => AtGate(AdmitCommit)
    case Committing(_, _) => AtGate(PersistSucceeds)
    case Persisted(_, _) => AtGate(LeaveGate)
    case Unlocking(_) => AtGate(UnlockCommit)
    case Finishing(_) => OnEdge(Finish)
  }

  // How many such steps there are at most.
  function Rank(pc: Pc): nat {
    match pc
    case Polling => 0
    case Finishing(_) => 1
    case Received(_) | Produced(_, _) | SendFailed(_, _) | Unlocking(_) => 2
    case Processing(_) | Sending(_, _) | Persisted(_, _) => 3
    case Checked(_, _) | Committing(_, _) => 4
    case Locked(_) => 5
    case AwaitingCommit(_) => 6
  }

  function StageStep(s: State, k: nat): Step
    requires |s.workers| == 4 && |s.edges| == 4 && k < 4 && !s.workers[k].pc.Polling?
  {
    OfWorker(k, NextAction(s.workers[k].pc, k < 3 && HasCredit(s.edges[k + 1])))
  }

  // What the stage with index k leaves alone.
  predicate OthersKept(s: State, s': State, k: nat) {
    && |s.workers| == |s'.workers| == 4 && |s.edges| == |s'.edges| == 4
    && (forall j :: 0 <= j < 4 && j != k ==> s'.workers[j] == s.workers[j] && s'.edges[j].queue == s.edges[j].queue)
    && s'.gate.c == s.gate.c && s'.ingress == s.ingress && s'.slot == s.slot && s'.preflight == s.preflight
    && s'.control == s.control
  }

  lemma LockIsFree(s: State)
    requires Inv(s)
    ensures |s.workers| == 4 && |s.edges| == 4
    ensures s.commitLock <==> HoldsCommitLock(s.workers[3].pc)
    ensures forall k :: 0 <= k < 4 ==> WorkerShape(k, s.workers[k].pc)
  {
  }

  lemma LocalMoves(gate: Gate, k: nat, w: Worker, a: LocalAction)
    requires k < 4 && WorkerShape(k, w.pc) && !w.pc.Polling? && Local(a) == NextAction(w.pc, false)
    ensures LocalFits(k, w, a) && Rank(LocalWorker(gate, k, w, a).pc) < Rank(w.pc)
  {
  }

  lemma EdgeMoves(e: Edge, w: Worker, a: EdgeAction)
    requires (w.pc.Checked? && a.AcquireCredit? && HasCredit(e)) || (w.pc.SendFailed? && a.ReturnCredit?)
             || (w.pc.Finishing? && a.Finish?)
    ensures EdgeFits(e, w, a) && EdgeAfter(e, w, a).queue == e.queue && Rank(WorkerAfter(e, w, a).pc) < Rank(w.pc)
  {
  }

  lemma CommitMoves(gate: Gate, w: Worker, commitLock: bool, a: CommitAction)
    requires !w.pc.Polling? && AtGate(a) == NextAction(w.pc, false) && (a.LockCommit? ==> !commitLock)
    ensures CommitFits(w.pc, commitLock, a) && CommitGate(gate, w, commitLock, a).c == gate.c
    ensures Rank(CommitWorker(gate, w, commitLock, a).pc) < Rank(w.pc)
  {
  }

  lemma NextLosesNothing(s: State, k: nat)
    requires |s.workers| == 4 && |s.edges| == 4 && k < 4 && !s.workers[k].pc.Polling?
    ensures forall e :: 0 <= e < 4 ==> !LosesCredit(StageStep(s, k), e)
  {
  }

  // The step is allowed, leaves the others alone and brings the stage closer to its end.
  predicate Advances(s: State, k: nat, a: WorkerAction)
    requires |s.workers| == 4 && |s.edges| == 4 && k < 4
  {
    && WorkerEnabled(s, k, a)
    && var s' := ApplyWorker(s, k, a);
       OthersKept(s, s', k) && s'.edges[k].queue == s.edges[k].queue && Rank(s'.workers[k].pc) < Rank(s.workers[k].pc)
  }

  lemma LocalAdvances(s: State, k: nat, a: LocalAction)
    requires |s.workers| == 4 && |s.edges| == 4 && k < 4
    requires LocalEnabled(s, k, a) && Rank(LocalWorker(s.gate, k, s.workers[k], a).pc) < Rank(s.workers[k].pc)
    ensures Advances(s, k, Local(a))
  {
    hide LocalFits, LocalWorker, Rank;
  }

  lemma EdgeAdvances(s: State, k: nat, a: EdgeAction)
    requires |s.workers| == 4 && |s.edges| == 4 && k < 4 && EdgeEnabled(s, k, a)
    requires EdgeAfter(s.edges[EdgeIndex(k, a)], s.workers[k], a).queue == s.edges[EdgeIndex(k, a)].queue
    requires Rank(WorkerAfter(s.edges[EdgeIndex(k, a)], s.workers[k], a).pc) < Rank(s.workers[k].pc)
    ensures Advances(s, k, OnEdge(a))
  {
    hide EdgeFits, EdgeAfter, WorkerAfter, Rank;
  }

  lemma CommitAdvances(s: State, a: CommitAction)
    requires |s.workers| == 4 && |s.edges| == 4 && CommitFits(s.workers[3].pc, s.commitLock, a)
    requires CommitGate(s.gate, s.workers[3], s.commitLock, a).c == s.gate.c
    requires Rank(CommitWorker(s.gate, s.workers[3], s.commitLock, a).pc) < Rank(s.workers[3].pc)
    ensures Advances(s, 3, AtGate(a))
  {
    hide CommitFits, CommitGate, CommitWorker, CommitHistory, Rank;
  }

  lemma NextAdvances(s: State, k: nat)
    requires |s.workers| == 4 && |s.edges| == 4 && k < 4 && WorkerShape(k, s.workers[k].pc) && !s.workers[k].pc.Polling?
    requires s.commitLock <==> HoldsCommitLock(s.workers[3].pc)
    ensures Advances(s, k, NextAction(s.workers[k].pc, k < 3 && HasCredit(s.edges[k + 1])))
  {
    hide Advances, LocalWorker, EdgeAfter, WorkerAfter, CommitGate, CommitWorker, Rank, LocalFits;
    var w := s.workers[k];
    match NextAction(w.pc, k < 3 && HasCredit(s.edges[k + 1])) {
      case Local(a) =>
        LocalMoves(s.gate, k, w, a);
        LocalAdvances(s, k, a);
      case OnEdge(a) =>
        EdgeMoves(s.edges[EdgeIndex(k, a)], w, a);
        EdgeAdvances(s, k, a);
      case AtGate(a) =>
        CommitMoves(s.gate, w, s.commitLock, a);
        CommitAdvances(s, a);
    }
  }

  lemma StageMoves(s: State, k: nat)
    requires |s.workers| == 4 && |s.edges| == 4 && k < 4 && WorkerShape(k, s.workers[k].pc) && !s.workers[k].pc.Polling?
    requires s.commitLock <==> HoldsCommitLock(s.workers[3].pc)
    ensures Enabled(s, StageStep(s, k))
    ensures var s' := Apply(s, StageStep(s, k));
            OthersKept(s, s', k) && s'.edges[k].queue == s.edges[k].queue && Rank(s'.workers[k].pc) < Rank(s.workers[k].pc)
    ensures forall e :: 0 <= e < 4 ==> !LosesCredit(StageStep(s, k), e)
  {
    hide NextAction, WorkerEnabled, ApplyWorker, LosesCredit, Rank, HasCredit, OthersKept;
    NextLosesNothing(s, k);
    NextAdvances(s, k);
  }

  // Steps of the stage with index k alone.
  predicate ByStage(steps: seq<Step>, k: nat) {
    forall i :: 0 <= i < |steps| ==> steps[i].OfWorker? && steps[i].k == k
  }

  lemma {:induction false} StageFinishes(s: State, k: nat) returns (steps: seq<Step>)
    requires Inv(s) && k < 4
    ensures Runs(s, steps) && ByStage(steps, k) && NoLoss(steps)
    ensures var s' := After(s, steps);
            Inv(s') && OthersKept(s, s', k) && s'.edges[k].queue == s.edges[k].queue && s'.workers[k].pc.Polling?
    decreases Rank(s.workers[k].pc)
  {
    hide Apply, Enabled, Inv, LosesCredit, Rank, WorkerShape;
    LockIsFree(s);
    if s.workers[k].pc.Polling? {
      steps := [];
    } else {
      StageMoves(s, k);
      var step := StageStep(s, k);
      StepKeepsInv(s, step);
      var rest := StageFinishes(Apply(s, step), k);
      OneStepRuns(s, step);
      RunsJoin(s, [step], rest);
      steps := [step] + rest;
    }
  }

  lemma StageReceives(s: State, k: nat)
    requires |s.workers| == 4 && |s.edges| == 4 && k < 4 && s.workers[k].pc.Polling? && s.edges[k].queue != []
    ensures Enabled(s, OfWorker(k, OnEdge(Receive)))
    ensures var s' := Apply(s, OfWorker(k, OnEdge(Receive)));
            OthersKept(s, s', k) && s'.edges[k].queue == s.edges[k].queue[1..]
    ensures forall e :: 0 <= e < 4 ==> !LosesCredit(OfWorker(k, OnEdge(Receive)), e)
  {
  }

  // The stage finishes its message and then takes every message off its queue.
  lemma {:induction false} StageEmpties(s: State, k: nat) returns (steps: seq<Step>)
    requires Inv(s) && k < 4
    ensures Runs(s, steps) && ByStage(steps, k) && NoLoss(steps)
    ensures var s' := After(s, steps);
            Inv(s') && OthersKept(s, s', k) && IdleStage(s', k)
    decreases |s.edges[k].queue|
  {
    hide Apply, Enabled, Inv, LosesCredit;
    LockIsFree(s);
    var first := StageFinishes(s, k);
    var s1 := After(s, first);
    if s1.edges[k].queue == [] {
      steps := first;
    } else {
      var receive := OfWorker(k, OnEdge(Receive));
      StageReceives(s1, k);
      StepKeepsInv(s1, receive);
      var rest := StageEmpties(Apply(s1, receive), k);
      OneStepRuns(s1, receive);
      RunsJoin(s1, [receive], rest);
      RunsJoin(s, first, [receive] + rest);
      steps := first + ([receive] + rest);
    }
  }

  // ---------- the ingress and the preflight leave the gate ----------

  function NextIngress(s: State): IngressAction
    requires |s.edges| == 4 && !s.ingress.Quiet?
  {
    match s.ingress
    case Submitting(_, _) => if HasCredit(s.edges[0]) then OnRaw(SubmitAcquire) else InSlot(SubmitFindsNoCredit)
    case SubmitCredited(_, _) => InSlot(SubmitSendFails)
    case SubmitFailed(_, _) => OnRaw(SubmitReturns)
    case Overloaded(_, _) => InSlot(HandleOverload)
    case Flushing(permit) =>
      if s.slot.None? then InSlot(FlushEmpty)
      else if s.slot.value.generation != permit.generation then InSlot(FlushDiscards)
      else if HasCredit(s.edges[0]) then OnRaw(FlushAcquire) else InSlot(FlushOverload)
    case FlushCredited(_, _) => InSlot(FlushSendFails)
    case FlushFailed(_, _) => OnRaw(FlushReturns)
    case Leaving(_) => EndIngress
  }

  function IngressRank(pc: IngressPc): nat {
    match pc
    case Quiet => 0
    case Leaving(_) => 1
    case Overloaded(_, _) | FlushFailed(_, _) => 2
    case SubmitFailed(_, _) | FlushCredited(_, _) => 3
    case SubmitCredited(_, _) | Flushing(_) => 4
    case Submitting(_, _) => 5
  }

  // What the ingress leaves alone when it queues nothing.
  predicate StagesKept(s: State, s': State) {
    && s'.workers == s.workers && |s.edges| == |s'.edges| == 4
    && (forall j :: 0 <= j < 4 ==> s'.edges[j].queue == s.edges[j].queue)
    && s'.gate.c == s.gate.c && s'.control == s.control
  }

  lemma SlotMoves(s: State, a: SlotAction)
    requires |s.edges| == 4 && !s.ingress.Quiet? && InSlot(a) == NextIngress(s)
    ensures SlotEnabled(s, a) && IngressRank(PcAfterSlot(s.ingress, a)) < IngressRank(s.ingress)
  {
  }

  lemma RawMoves(s: State, a: RawAction)
    requires |s.edges| == 4 && !s.ingress.Quiet? && OnRaw(a) == NextIngress(s)
    ensures RawFits(s.edges[0], s.ingress, s.slot, a)
    ensures IngressRank(PcAfterRaw(s.edges[0], s.ingress, s.slot, a)) < IngressRank(s.ingress)
    ensures RawEdgeAfter(s.edges[0], s.ingress, s.slot, s.history.accepted, a).queue == s.edges[0].queue
    ensures !Sends(a) && !a.SubmitEncodeFails? && !a.FlushEncodeFails?
  {
  }

  lemma IngressMoves(s: State)
    requires |s.workers| == 4 && |s.edges| == 4 && !s.ingress.Quiet?
    ensures Enabled(s, OfIngress(NextIngress(s)))
    ensures var s' := Apply(s, OfIngress(NextIngress(s)));
            StagesKept(s, s') && s'.preflight == s.preflight && IngressRank(s'.ingress) < IngressRank(s.ingress)
    ensures forall e :: 0 <= e < 4 ==> !LosesCredit(OfIngress(NextIngress(s)), e)
  {
    hide SlotEnabled, PcAfterSlot, SlotAfter, RawFits, PcAfterRaw, RawEdgeAfter, SlotAfterRaw, RawHistory;
    match NextIngress(s) {
      case InSlot(a) => SlotMoves(s, a);
      case OnRaw(a) => RawMoves(s, a);
      case EndIngress =>
    }
  }

  predicate ByIngress(steps: seq<Step>) {
    forall i :: 0 <= i < |steps| ==> steps[i].OfIngress?
  }

  lemma {:induction false} IngressLeaves(s: State) returns (steps: seq<Step>)
    requires Inv(s)
    ensures Runs(s, steps) && ByIngress(steps) && NoLoss(steps)
    ensures var s' := After(s, steps);
            Inv(s') && StagesKept(s, s') && s'.preflight == s.preflight && s'.ingress.Quiet?
    decreases IngressRank(s.ingress)
  {
    hide Apply, Enabled, Inv, LosesCredit, IngressRank;
    LockIsFree(s);
    if s.ingress.Quiet? {
      steps := [];
    } else {
      IngressMoves(s);
      var step := OfIngress(NextIngress(s));
      StepKeepsInv(s, step);
      var rest := IngressLeaves(Apply(s, step));
      OneStepRuns(s, step);
      RunsJoin(s, [step], rest);
      steps := [step] + rest;
    }
  }

  // ---------- all of them come to rest ----------

  // No thread but the owner has anything to do, or holds anything.
  predicate AtRest(s: State) {
    && |s.edges| == 4 && |s.workers| == 4 && !s.commitLock
    && s.ingress.Quiet? && s.preflight.None? && s.gate.w.inFlight == multiset{}
    && (forall k :: 0 <= k < 4 ==> s.workers[k].pc.Polling?)
    && (forall k :: 0 <= k < 4 ==> s.edges[k].queue == [] && s.edges[k].credits == s.edges[k].leaked)
  }

  // Steps of the other threads.
  predicate ByOthers(steps: seq<Step>) {
    forall i :: 0 <= i < |steps| ==> !steps[i].OfControl?
  }

  lemma PreflightEnds(s: State)
    requires |s.workers| == 4 && |s.edges| == 4 && s.preflight.Some?
    ensures Enabled(s, OfPreflight(EndPreflight))
    ensures var s' := Apply(s, OfPreflight(EndPreflight));
            StagesKept(s, s') && s'.ingress == s.ingress && s'.preflight.None?
    ensures forall e :: 0 <= e < 4 ==> !LosesCredit(OfPreflight(EndPreflight), e)
  {
  }

  lemma PreflightLeaves(s: State) returns (steps: seq<Step>)
    requires Inv(s)
    ensures Runs(s, steps) && ByOthers(steps) && NoLoss(steps)
    ensures var s' := After(s, steps);
            Inv(s') && StagesKept(s, s') && s'.ingress == s.ingress && s'.preflight.None?
  {
    hide Apply, Enabled, Inv, LosesCredit;
    LockIsFree(s);
    steps := [];
    if s.preflight.Some? {
      PreflightEnds(s);
      StepKeepsInv(s, OfPreflight(EndPreflight));
      OneStepRuns(s, OfPreflight(EndPreflight));
      steps := [OfPreflight(EndPreflight)];
    }
  }

  // The stages from the one with index k on empty themselves; those before are idle.
  lemma {:induction false} StagesEmpty(s: State, k: nat) returns (steps: seq<Step>)
    requires Inv(s) && k <= 4
    requires forall j :: 0 <= j < k ==> s.workers[j].pc.Polling?
    requires forall j :: 0 <= j < k ==> s.edges[j].queue == []
    ensures Runs(s, steps) && ByOthers(steps) && NoLoss(steps)
    ensures var s' := After(s, steps);
            && Inv(s') && s'.gate.c == s.gate.c && s'.control == s.control
            && s'.ingress == s.ingress && s'.preflight == s.preflight
            && |s'.workers| == 4 && |s'.edges| == 4
            && (forall j :: 0 <= j < 4 ==> s'.workers[j].pc.Polling?)
            && (forall j :: 0 <= j < 4 ==> s'.edges[j].queue == [])
    decreases 4 - k
  {
    hide Apply, Enabled, Inv, LosesCredit;
    LockIsFree(s);
    steps := [];
    if k < 4 {
      var empties := StageEmpties(s, k);
      var rest := StagesEmpty(After(s, empties), k + 1);
      RunsJoin(s, empties, rest);
      steps := empties + rest;
    }
  }

  lemma RestHoldsNothing(s: State)
    requires Inv(s) && s.ingress.Quiet? && s.preflight.None?
    requires forall j :: 0 <= j < 4 ==> s.workers[j].pc.Polling?
    requires forall j :: 0 <= j < 4 ==> s.edges[j].queue == []
    ensures AtRest(s)
  {
    assert Operations(s.gate, s.ingress, s.preflight, s.workers[3].pc);
    forall k | 0 <= k < 4 ensures s.edges[k].credits == s.edges[k].leaked {
      assert Balanced(s.edges[k], InHand(s.workers[k].pc), SenderCredit(s.workers, s.ingress, k));
      assert k > 0 ==> s.workers[k - 1].pc.Polling?;
    }
  }

  // From every reachable state the other threads can come to rest by themselves, without
  // losing a credit and without the owner.
  lemma OthersComeToRest(s: State) returns (steps: seq<Step>)
    requires Inv(s)
    ensures Runs(s, steps) && ByOthers(steps) && NoLoss(steps)
    ensures var s' := After(s, steps);
            Inv(s') && AtRest(s') && s'.gate.c == s.gate.c && s'.control == s.control
  {
    hide Apply, Enabled, Inv, LosesCredit;
    var a := IngressLeaves(s);
    var s1 := After(s, a);
    var b := PreflightLeaves(s1);
    var s2 := After(s1, b);
    LockIsFree(s2);
    var c := StagesEmpty(s2, 0);
    RestHoldsNothing(After(s2, c));
    RunsJoin(s1, b, c);
    RunsJoin(s, a, b + c);
    steps := a + (b + c);
  }

  // ---------- what was lost ----------

  lemma {:induction false} RunKeepsLosses(s: State, steps: seq<Step>, k: nat)
    requires Runs(s, steps) && |s.edges| == 4 && k < 4 && NoLoss(steps)
    ensures |After(s, steps).edges| == 4 && After(s, steps).edges[k].leaked == s.edges[k].leaked
    decreases |steps|
  {
    hide Apply, Enabled;
    if steps != [] {
      StepLoses(s, steps[0], k);
      assert !LosesCredit(steps[0], k);
      RunKeepsLosses(Apply(s, steps[0]), steps[1..], k);
    }
  }

  lemma {:induction false} LossesOnlyGrow(s: State, steps: seq<Step>, k: nat)
    requires Runs(s, steps) && |s.edges| == 4 && k < 4
    ensures |After(s, steps).edges| == 4 && s.edges[k].leaked <= After(s, steps).edges[k].leaked
    decreases |steps|
  {
    hide Apply, Enabled;
    if steps != [] {
      StepLoses(s, steps[0], k);
      LossesOnlyGrow(Apply(s, steps[0]), steps[1..], k);
    }
  }

  // A generation that has lost a credit is never clean again.
  lemma LostIsNeverClean(s: State, steps: seq<Step>, v: Generation, k: nat)
    requires Inv(s) && Runs(s, steps) && k < 4 && s.edges[k].leaked[v] > 0
    ensures var s' := After(s, steps);
            |s'.edges| == 4 && |s'.workers| == 4 && s'.edges[k].credits[v] > 0 && !Clean(s', v)
  {
    hide Apply, Enabled;
    RunKeepsInv(s, steps);
    LossesOnlyGrow(s, steps, k);
    LeaksAreCredits(After(s, steps), k);
  }

  lemma LeaksAreCredits(s: State, k: nat)
    requires Inv(s) && k < 4
    ensures |s.edges| == 4 && |s.workers| == 4 && s.edges[k].leaked <= s.edges[k].credits
  {
    assert Balanced(s.edges[k], InHand(s.workers[k].pc), SenderCredit(s.workers, s.ingress, k));
  }
}
