/**
 One pipeline stage as the object it is, handling one message to its end: whatever
 the decoder, the cancellation token, the gate, the processor and the socket answer,
 the message's input credit is given back exactly once, if its header can be read, and
 an output credit is kept exactly for an item that left or whose encoding raised.
 */
module StageActorObject {
  import opened Lifecycle
  import opened Wrappers
  import opened PipelineModel
  import opened CreditLedgerObject

  datatype Persisting = Committed | Refused | SinkRaises

  // What the outside answers while one message is handled.
  datatype Answers = Answers(headerRead: bool,           // the header yields a generation
                             decodes: bool,              // the message is well formed
                             stopped: bool,              // cancelled, or past its deadline
                             current: bool,              // the first look at the gate
                             processed: Option<Item>,    // None when the processor raises
                             cancelledSince: bool,
                             stillCurrent: bool,         // the second look at the gate
                             sending: SendOutcome,
                             persisting: Persisting,
                             sinkAlive: bool)            // the fault sink does not raise

  datatype Verdict = Drop | Finished | Forward(output: Item) | Lose(output: Item) | Fail

  function Judge(k: nat, faulted: bool, hasCredit: bool, item: Item, a: Answers): Verdict
    requires k < 4
  {
    if !a.headerRead || !a.decodes then Fail
    else if faulted || a.stopped || !a.current then Drop
    else if k == 3 then
      match a.persisting
      case Committed => Finished
      case Refused => Drop
      case SinkRaises => Fail
    else JudgeOutput(k, hasCredit, item, a)
  }

  // From the processor's answer on.
  function JudgeOutput(k: nat, hasCredit: bool, item: Item, a: Answers): Verdict
    requires k < 3
  {
    if a.processed.None? then Fail
    else if a.cancelledSince || !a.stillCurrent then Drop
    else if !ValidOutput(k, item, a.processed.value) then Fail
    else if !hasCredit then Drop
    else
      match a.sending
      case SendOk => Forward(a.processed.value)
      case SendFails => Drop
      case EncodeRaises => Lose(a.processed.value)
  }

  // ---------- what each verdict means ----------

  // Nothing speaks against the message: it is well formed, the stage has not faulted, and
  // the message is neither cancelled, nor past its deadline, nor stale.
  predicate Live(faulted: bool, a: Answers) {
    a.headerRead && a.decodes && !faulted && !a.stopped && a.current
  }

  // The processor's item belongs to the next stage and to the same record.
  predicate Succeeds(k: nat, item: Item, output: Item) {
    && output.stage == (if k == 0 then Analyzed else if k == 1 then Redacted else Encrypted)
    && output.recordId == item.recordId && output.generation == item.generation && output.revision == item.revision
  }

  // The processor returned, and its item is still wanted.
  predicate Wanted(a: Answers) {
    a.processed.Some? && !a.cancelledSince && a.stillCurrent
  }

  // When a verdict is due, each in its own words.
  predicate Due(verdict: Verdict, k: nat, faulted: bool, hasCredit: bool, item: Item, a: Answers) {
    match verdict
    case Finished => k == 3 && Live(faulted, a) && a.persisting == Committed
    case Forward(output) =>
      && k < 3 && Live(faulted, a) && Wanted(a) && output == a.processed.value
      && Succeeds(k, item, output) && hasCredit && a.sending == SendOk
    case Lose(output) =>
      && k < 3 && Live(faulted, a) && Wanted(a) && output == a.processed.value
      && Succeeds(k, item, output) && hasCredit && a.sending == EncodeRaises
    case Fail =>
      || !a.headerRead || !a.decodes
      || (k == 3 && Live(faulted, a) && a.persisting == SinkRaises)
      || (k < 3 && Live(faulted, a) && (a.processed.None? || (Wanted(a) && !Succeeds(k, item, a.processed.value))))
    case Drop =>
      && a.headerRead && a.decodes
      && (|| !Live(faulted, a)
          || (k == 3 && a.persisting == Refused)
          || (k < 3 && a.processed.Some? && !Wanted(a))
          || (k < 3 && Wanted(a) && Succeeds(k, item, a.processed.value) && (!hasCredit || a.sending == SendFails)))
  }

  // Exactly one verdict is due, and it is the one the stage comes to.
  lemma VerdictsExactly(k: nat, faulted: bool, hasCredit: bool, item: Item, a: Answers, verdict: Verdict)
    requires k < 4
    ensures verdict == Judge(k, faulted, hasCredit, item, a) <==> Due(verdict, k, faulted, hasCredit, item, a)
  {
    if k < 3 && a.processed.Some? {
      assert Stages[k + 1] == if k == 0 then Analyzed else if k == 1 then Redacted else Encrypted;
      assert ValidOutput(k, item, a.processed.value) <==> Succeeds(k, item, a.processed.value);
    }
  }

  // The generations that the headers of pulled messages name, with multiplicity; None
  // stands for a header that cannot be read.
  function Generations(pulled: seq<Option<Generation>>): multiset<Generation> {
    if pulled == [] then multiset{} else Generations(pulled[..|pulled| - 1]) + Named(pulled[|pulled| - 1])
  }

  function Named(header: Option<Generation>): multiset<Generation> {
    if header.None? then multiset{} else multiset{header.value}
  }

  // Every readable header counts once.
  lemma GenerationsCount(pulled: seq<Option<Generation>>, g: Generation)
    ensures Generations([]) == multiset{}
    ensures Generations(pulled + [Some(g)]) == Generations(pulled) + multiset{g}
    ensures Generations(pulled + [None]) == Generations(pulled)
  {
    assert (pulled + [Some(g)])[..|pulled|] == pulled && (pulled + [None])[..|pulled|] == pulled;
  }

  class StageActor {
    const k: nat
    const input: CreditLedger
    const output: CreditLedger
    var sent: seq<Item>
    var faulted: bool
    var polling: bool
    var completed: nat
    var dropped: nat
    var faults: nat

    ghost predicate Valid()
      reads this, input, output
    {
      k < 4 && input != output && input.Valid() && output.Valid()
    }

    constructor (k: nat, input: CreditLedger, output: CreditLedger)
      requires k < 4 && input != output && input.Valid() && output.Valid()
      ensures Valid() && this.k == k && this.input == input && this.output == output
      ensures sent == [] && !faulted && polling && completed == dropped == faults == 0
    {
      this.k, this.input, this.output := k, input, output;
      sent, faulted, polling, completed, dropped, faults := [], false, true, 0, 0, 0;
    }

    method EmitFault(sinkAlive: bool)
      requires Valid()
      modifies this`faulted, this`faults, this`polling
      ensures Valid() && faulted && faults == old(faults) + 1 && polling == (old(polling) && sinkAlive)
    {
      faulted, faults := true, faults + 1;
      if !sinkAlive {
        polling := false;
      }
    }

    // Everything up to the final block, which releases the input credit.
    method Work(item: Item, a: Answers) returns (verdict: Verdict)
      requires Valid()
      modifies this, output
      ensures Valid()
      ensures verdict == Judge(k, old(faulted), |old(output.credits)| < output.capacity, item, a)
      ensures output.credits == match verdict
                                case Forward(o) => old(output.credits) + multiset{o.generation}
                                case Lose(o) => old(output.credits) + multiset{o.generation}
                                case _ => old(output.credits)
      ensures sent == if verdict.Forward? then old(sent) + [verdict.output] else old(sent)
      ensures faulted <==> old(faulted) || verdict.Fail? || verdict.Lose?
      ensures polling == (old(polling) && (verdict.Fail? || verdict.Lose? ==> a.sinkAlive))
      ensures completed == old(completed) + (if verdict.Finished? || verdict.Forward? then 1 else 0)
      ensures dropped == old(dropped) + (if verdict.Drop? then 1 else 0)
      ensures faults == old(faults) + (if verdict.Fail? || verdict.Lose? then 1 else 0)
    {
      if !a.headerRead || !a.decodes {
        EmitFault(a.sinkAlive);
        return Fail;
      }
      if faulted || a.stopped || !a.current {
        dropped := dropped + 1;
        return Drop;
      }
      if k == 3 {
        if a.persisting == SinkRaises {
          EmitFault(a.sinkAlive);
          return Fail;
        }
        if a.persisting == Refused {
          dropped := dropped + 1;
          return Drop;
        }
        completed := completed + 1;
        return Finished;
      }
      verdict := Process(item, a);
    }

    // The processor's answer, its checks, and the send.
    method Process(item: Item, a: Answers) returns (verdict: Verdict)
      requires Valid() && k < 3
      modifies this, output
      ensures Valid()
      ensures verdict == JudgeOutput(k, |old(output.credits)| < output.capacity, item, a)
      ensures output.credits == match verdict
                                case Forward(o) => old(output.credits) + multiset{o.generation}
                                case Lose(o) => old(output.credits) + multiset{o.generation}
                                case _ => old(output.credits)
      ensures sent == if verdict.Forward? then old(sent) + [verdict.output] else old(sent)
      ensures faulted <==> old(faulted) || verdict.Fail? || verdict.Lose?
      ensures polling == (old(polling) && (verdict.Fail? || verdict.Lose? ==> a.sinkAlive))
      ensures completed == old(completed) + (if verdict.Finished? || verdict.Forward? then 1 else 0)
      ensures dropped == old(dropped) + (if verdict.Drop? then 1 else 0)
      ensures faults == old(faults) + (if verdict.Fail? || verdict.Lose? then 1 else 0)
    {
      if a.processed.None? {
        EmitFault(a.sinkAlive);
        return Fail;
      }
      var out := a.processed.value;
      if a.cancelledSince || !a.stillCurrent {
        dropped := dropped + 1;
        return Drop;
      }
      if !ValidOutput(k, item, out) {
        EmitFault(a.sinkAlive);
        return Fail;
      }
      var went := SendOutput(out, a.sending);
      if went == None {
        dropped := dropped + 1;
        return Drop;
      }
      if went == Some(EncodeRaises) {
        EmitFault(a.sinkAlive);
        return Lose(out);
      }
      completed := completed + 1;
      verdict := Forward(out);
    }

    // None for no credit or a failed send, whose credit goes back.
    method SendOutput(out: Item, sending: SendOutcome) returns (went: Option<SendOutcome>)
      requires Valid()
      modifies output, this`sent
      ensures Valid()
      ensures went == if |old(output.credits)| < output.capacity && sending != SendFails then Some(sending) else None
      ensures output.credits == if went.Some? then old(output.credits) + multiset{out.generation} else old(output.credits)
      ensures sent == if went == Some(SendOk) then old(sent) + [out] else old(sent)
    {
      var acquired := output.TryAcquire(out.generation);
      if !acquired {
        return None;
      }
      if sending == SendFails {
        var _ := output.ReleaseIfAcquired(out.generation);
        return None;
      }
      if sending == SendOk {
        sent := sent + [out];
      }
      went := Some(sending);
    }

    // The input credit of a message whose header names a generation.
    method ReleaseInput(header: Option<Generation>)
      requires Valid()
      modifies input
      ensures Valid() && input.credits == old(input.credits) - Named(header)
    {
      if header.Some? {
        var _ := input.ReleaseIfAcquired(header.value);
      }
    }

    // One received message. The output credit is taken before the input credit is given
    // back, so the generation is never without a credit in between.
    method HandleParts(item: Item, a: Answers) returns (verdict: Verdict)
      requires Valid()
      modifies this, input, output
      ensures Valid()
      ensures Due(verdict, k, old(faulted), |old(output.credits)| < output.capacity, item, a)
      ensures input.credits == if a.headerRead then old(input.credits) - multiset{item.generation} else old(input.credits)
      ensures output.credits == match verdict
                                case Forward(o) => old(output.credits) + multiset{o.generation}
                                case Lose(o) => old(output.credits) + multiset{o.generation}
                                case _ => old(output.credits)
      ensures sent == if verdict.Forward? then old(sent) + [verdict.output] else old(sent)
      ensures faulted <==> old(faulted) || verdict.Fail? || verdict.Lose?
      ensures completed == old(completed) + (if verdict.Finished? || verdict.Forward? then 1 else 0)
      ensures dropped == old(dropped) + (if verdict.Drop? then 1 else 0)
      ensures faults == old(faults) + (if verdict.Fail? || verdict.Lose? then 1 else 0)
    {
      ghost var hasCredit := |output.credits| < output.capacity;
      ghost var wasFaulted := faulted;
      verdict := Work(item, a);
      VerdictsExactly(k, wasFaulted, hasCredit, item, a, verdict);
      ReleaseInput(if a.headerRead then Some(item.generation) else None);
    }

    // The drain loop: every queued message is taken off and its credit given back, if
    // its header can be read.
    method Drain(pulled: seq<Option<Generation>>) returns (drained: nat)
      requires Valid()
      modifies this`dropped, input
      ensures Valid() && drained == |pulled| && dropped == old(dropped) + |pulled|
      ensures input.credits == old(input.credits) - Generations(pulled)
    {
      drained := 0;
      assert pulled[..0] == [];
      while drained < |pulled|
        invariant drained <= |pulled| && input.Valid() && dropped == old(dropped) + drained
        invariant input.credits == old(input.credits) - Generations(pulled[..drained])
      {
        OneMoreReleased(input.credits, old(input.credits), pulled, drained);
        ReleaseInput(pulled[drained]);
        drained, dropped := drained + 1, dropped + 1;
      }
      assert pulled[..|pulled|] == pulled;
    }
  }

  lemma OneMoreReleased(now: multiset<Generation>, before: multiset<Generation>, pulled: seq<Option<Generation>>, n: nat)
    requires n < |pulled| && now == before - Generations(pulled[..n])
    ensures now - Named(pulled[n]) == before - Generations(pulled[..n + 1])
  {
    assert pulled[..n + 1][..n] == pulled[..n];
  }

  // A forwarded item is valid, and a faulted stage forwards nothing until it is rebuilt.
  lemma ForwardedItemsAreValid(k: nat, faulted: bool, hasCredit: bool, item: Item, a: Answers)
    requires k < 4 && Judge(k, faulted, hasCredit, item, a).Forward?
    ensures k < 3 && !faulted && hasCredit && a.headerRead && a.decodes && a.current && a.stillCurrent && !a.stopped && !a.cancelledSince
    ensures var out := Judge(k, faulted, hasCredit, item, a).output;
            && out.stage == Stages[k + 1] && out.recordId == item.recordId
            && out.generation == item.generation && out.revision == item.revision
  {
  }
}
