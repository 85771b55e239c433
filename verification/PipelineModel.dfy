/**
 Work items, stages and edges of the capture pipeline, and what one stage demands
 of the item its processor returns.
 */
module PipelineModel {
  import opened Wrappers
  import opened Lifecycle
  import opened GateModel

  datatype Stage = Raw | Analyzed | Redacted | Encrypted

  const Stages := [Raw, Analyzed, Redacted, Encrypted]

  datatype Item = Item(stage: Stage,
                       recordId: int,
                       generation: Generation,
                       revision: Revision,
                       frames: seq<seq<int>>)

  // An item on its way, with two history values: the number of the submission it
  // came from and the stages it was sent to so far.
  datatype Message = Message(item: Item, ticket: nat, trail: seq<Stage>)

  // `credits` is the ledger's dictionary as a multiset; `leaked` are the credits that no
  // code path returns: of sends whose encoding raised, and of messages whose header
  // could not be read.
  datatype Edge = Edge(capacity: nat,
                       credits: multiset<Generation>,
                       queue: seq<Message>,
                       leaked: multiset<Generation>)

  // What the stage with index k accepts from its processor.
  predicate ValidOutput(k: nat, source: Item, output: Item)
    requires k < 3
  {
    && output.stage == Stages[k + 1]
    && output.recordId == source.recordId
    && output.generation == source.generation
    && output.revision == source.revision
  }

  predicate SameRecord(a: Item, b: Item) {
    a.recordId == b.recordId && a.generation == b.generation && a.revision == b.revision
  }

  function Forward(m: Message, output: Item): Message {
    Message(output, m.ticket, m.trail + [output.stage])
  }

  // The generations of the messages of a queue, with multiplicity.
  function QueuedGenerations(queue: seq<Message>): multiset<Generation> {
    if queue == [] then multiset{}
    else multiset{queue[0].item.generation} + QueuedGenerations(queue[1..])
  }

  lemma {:induction false} QueuedAppend(queue: seq<Message>, m: Message)
    ensures QueuedGenerations(queue + [m]) == QueuedGenerations(queue) + multiset{m.item.generation}
  {
    if queue == [] {
      assert queue + [m] == [m];
    } else {
      assert (queue + [m])[1..] == queue[1..] + [m];
      QueuedAppend(queue[1..], m);
    }
  }

  lemma {:induction false} QueuedContains(queue: seq<Message>, i: nat)
    requires i < |queue|
    ensures queue[i].item.generation in QueuedGenerations(queue)
  {
    if i > 0 {
      QueuedContains(queue[1..], i - 1);
    }
  }

  // ---------- program counters ----------

  // Where a stage actor stands while it handles one message.
  datatype Pc =
    | Polling
    | Received(m: Message)
    | Processing(m: Message)
    | Produced(m: Message, output: Item)
    | Checked(m: Message, output: Item)
    | Sending(m: Message, output: Item)      // holds an output credit
    | SendFailed(m: Message, output: Item)   // holds an output credit
    | AwaitingCommit(m: Message)
    | Locked(m: Message)                     // holds the commit lock
    | Committing(m: Message, permit: Permit) // lock and gate operation
    | Persisted(m: Message, permit: Permit)  // lock and gate operation
    | Unlocking(m: Message)                  // lock
    | Finishing(m: Message)

  datatype Worker = Worker(pc: Pc, faulted: bool)

  // Where the ingress owner stands.
  datatype IngressPc =
    | Quiet
    | Submitting(permit: Permit, item: Item)
    | SubmitCredited(permit: Permit, item: Item)
    | SubmitFailed(permit: Permit, item: Item)
    | Overloaded(permit: Permit, item: Item)    // could not be queued
    | Flushing(permit: Permit)
    | FlushCredited(permit: Permit, item: Item) // holds the coalesced lock
    | FlushFailed(permit: Permit, item: Item)   // holds the coalesced lock
    | Leaving(permit: Permit)

  // The lifecycle owner between messages, or inside a drain.
  datatype Purpose = ToPaused | ToOff | AfterFault

  datatype Point = Cancel | AwaitOperations | AwaitEdge(k: nat) | CheckSlot | Clear | AwaitStage(k: nat) | Complete

  // What asking a stage to drain its queue came to.
  datatype DrainAnswer = Emptied | SocketFailed | AskRaised

  datatype ControlPc = Ready | Draining(generation: Option<Generation>, purpose: Purpose, point: Point, ok: bool)

  // ---------- what a program counter holds ----------

  function InHand(pc: Pc): multiset<Generation> {
    if pc.Polling? then multiset{} else multiset{pc.m.item.generation}
  }

  function OutputCredit(pc: Pc): multiset<Generation> {
    if pc.Sending? || pc.SendFailed? then multiset{pc.output.generation} else multiset{}
  }

  function IngressCredit(pc: IngressPc): multiset<Generation> {
    if pc.SubmitCredited? || pc.SubmitFailed? || pc.FlushCredited? || pc.FlushFailed?
    then multiset{pc.item.generation} else multiset{}
  }

  function IngressOperation(pc: IngressPc): multiset<Generation> {
    if pc.Quiet? then multiset{} else multiset{pc.permit.generation}
  }

  function PreflightOperation(p: Option<Permit>): multiset<Generation> {
    if p.None? then multiset{} else multiset{p.value.generation}
  }

  function CommitOperation(pc: Pc): multiset<Generation> {
    if pc.Committing? || pc.Persisted? then multiset{pc.permit.generation} else multiset{}
  }

  predicate HoldsCommitLock(pc: Pc) {
    pc.Locked? || pc.Committing? || pc.Persisted? || pc.Unlocking?
  }

  predicate HoldsSlotLock(pc: IngressPc) {
    pc.FlushCredited? || pc.FlushFailed?
  }

  // The submission a worker still has to pass on, if any.
  function Pending(pc: Pc): seq<nat> {
    if pc.Polling? || pc.Finishing? || pc.Persisted? || pc.Unlocking? then [] else [pc.m.ticket]
  }

  function Tickets(queue: seq<Message>): seq<nat> {
    seq(|queue|, i requires 0 <= i < |queue| => queue[i].ticket)
  }
}
