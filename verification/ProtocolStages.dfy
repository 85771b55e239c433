/**
 What stages work on: a stage begins only with a current message and while it has not
 faulted, and what faults it, it keeps for ever.
 */
module ProtocolStages {
  import opened Wrappers
  import opened Lifecycle
  import opened GateModel
  import opened PipelineModel
  import opened Protocol
  import opened ProtocolInvariant
  import opened ProtocolTheorems
  import opened ProtocolAccounts

  // A processor works on the message, or its output or itself is on the way out.
  predicate Working(pc: Pc) {
    || pc.Processing? || pc.Produced? || pc.Checked? || pc.Sending? || pc.SendFailed?
    || pc.AwaitingCommit? || pc.Locked? || pc.Committing?
  }

  // What faults a stage: an unreadable message, a processor, an encoding or a sink that
  // raises, and an output that does not fit its source.
  predicate Faults(gate: Gate, k: nat, w: Worker, a: WorkerAction) {
    match a
    case Local(DecodeFails) => true
    case Local(ProcessorFails) => true
    case Local(SecondCheck) =>
      w.pc.Produced? && Current(gate, w.pc.m.item.generation) && !Accepts(k, w.pc.m.item, w.pc.output)
    case OnEdge(HeaderUnreadable(draining)) => !draining
    case OnEdge(EncodeFails) => true
    case AtGate(PersistFails) => true
    case _ => false
  }

  lemma StagesFaultExactly(s: State, step: Step, k: nat)
    requires Enabled(s, step) && k < 4
    ensures |Apply(s, step).workers| == 4
    ensures Apply(s, step).workers[k].faulted
            <==> s.workers[k].faulted || (step.OfWorker? && step.k == k && Faults(s.gate, k, s.workers[k], step.work))
  {
    match step {
      case OfWorker(j, a) => WorkerFaults(s, j, a);
      case _ => OnlyStagesMoveStages(s, step);
    }
  }

  lemma WorkerFaults(s: State, k: nat, a: WorkerAction)
    requires k < 4 && |s.edges| == 4 && |s.workers| == 4 && WorkerEnabled(s, k, a)
    ensures var s' := ApplyWorker(s, k, a);
            && |s'.workers| == 4
            && (s'.workers[k].faulted <==> s.workers[k].faulted || Faults(s.gate, k, s.workers[k], a))
            && (forall j :: 0 <= j < 4 && j != k ==> s'.workers[j] == s.workers[j])
  {
  }

  lemma OnlyStagesMoveStages(s: State, step: Step)
    requires Enabled(s, step) && !step.OfWorker?
    ensures Apply(s, step).workers == s.workers
  {
  }

  // A stage begins to work exactly on its first check of a current message, unless it has
  // faulted; and an output goes on only if its source is still current and it fits.
  lemma StagesBeginExactly(s: State, step: Step, k: nat)
    requires Enabled(s, step) && k < 4
    ensures |Apply(s, step).workers| == 4
    ensures !Working(s.workers[k].pc) ==>
              (Working(Apply(s, step).workers[k].pc)
               <==> step == OfWorker(k, Local(FirstCheck)) && Current(s.gate, s.workers[k].pc.m.item.generation))
    ensures step == OfWorker(k, Local(FirstCheck)) ==> !s.workers[k].faulted
    ensures Apply(s, step).workers[k].pc.Checked? && !s.workers[k].pc.Checked? ==>
              && Current(s.gate, Apply(s, step).workers[k].pc.m.item.generation)
              && Accepts(k, Apply(s, step).workers[k].pc.m.item, Apply(s, step).workers[k].pc.output)
  {
    match step {
      case OfWorker(j, a) => WorkerBegins(s, j, a);
      case _ => OnlyStagesMoveStages(s, step);
    }
  }

  lemma WorkerBegins(s: State, k: nat, a: WorkerAction)
    requires k < 4 && |s.edges| == 4 && |s.workers| == 4 && WorkerEnabled(s, k, a)
    ensures var w, s' := s.workers[k], ApplyWorker(s, k, a);
            && |s'.workers| == 4
            && (forall j :: 0 <= j < 4 && j != k ==> s'.workers[j] == s.workers[j])
            && (!Working(w.pc) ==>
                  (Working(s'.workers[k].pc) <==> a == Local(FirstCheck) && Current(s.gate, w.pc.m.item.generation)))
            && (a == Local(FirstCheck) ==> !w.faulted)
            && (Working(s'.workers[k].pc) ==> s'.workers[k].pc.m == w.pc.m)
            && (s'.workers[k].pc.Checked? && !w.pc.Checked? ==>
                  && Current(s.gate, s'.workers[k].pc.m.item.generation)
                  && Accepts(k, s'.workers[k].pc.m.item, s'.workers[k].pc.output))
  {
    hide EdgeAfter, HasCredit, CommitGate, CommitHistory, AcquirePersistence;
  }

  // A faulted stage that has let go of its message never works again.
  lemma {:induction false} FaultedStagesDoNoWork(s: State, steps: seq<Step>, k: nat)
    requires Runs(s, steps) && |s.workers| == 4 && k < 4
    requires s.workers[k].faulted && !Working(s.workers[k].pc)
    ensures |After(s, steps).workers| == 4
    ensures After(s, steps).workers[k].faulted && !Working(After(s, steps).workers[k].pc)
    decreases |steps|
  {
    hide Apply, Enabled, Working;
    if steps != [] {
      StagesFaultExactly(s, steps[0], k);
      StagesBeginExactly(s, steps[0], k);
      FaultedStagesDoNoWork(Apply(s, steps[0]), steps[1..], k);
    }
  }

  predicate WorksOn(pc: Pc, v: Generation) {
    Working(pc) && pc.m.item.generation == v
  }

  // No stage begins to work on a message of an invalidated generation.
  lemma {:induction false} RetiredIsNeverWorkedOn(s: State, steps: seq<Step>, k: nat, v: Generation)
    requires Inv(s) && Runs(s, steps) && k < 4 && Retired(s.gate, v)
    requires |s.workers| == 4 && !WorksOn(s.workers[k].pc, v)
    ensures |After(s, steps).workers| == 4 && !WorksOn(After(s, steps).workers[k].pc, v)
    decreases |steps|
  {
    hide Apply, Enabled, Inv;
    if steps != [] {
      StaysRetired(s, steps[0], v);
      StepKeepsInv(s, steps[0]);
      NotWorkedOn(s, steps[0], k, v);
      hide Retired, WorksOn;
      RetiredIsNeverWorkedOn(Apply(s, steps[0]), steps[1..], k, v);
    }
  }

  lemma NotWorkedOn(s: State, step: Step, k: nat, v: Generation)
    requires Enabled(s, step) && k < 4 && Retired(s.gate, v) && !WorksOn(s.workers[k].pc, v)
    ensures |Apply(s, step).workers| == 4 && !WorksOn(Apply(s, step).workers[k].pc, v)
  {
    match step {
      case OfWorker(j, a) => WorkerBegins(s, j, a);
      case _ => OnlyStagesMoveStages(s, step);
    }
  }
}
