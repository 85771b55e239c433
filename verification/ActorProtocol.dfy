/**
 The two models of the lifecycle owner agree: the owner's half of the protocol is an
 automaton of its own, and every message the actor handles, with every answer of the
 sink and the coordinator, is a path of that automaton between two Ready states. What
 the other threads must permit for a step, OthersPermit, is no part of a path; a pipeline
 that is not quiescent appears in it as a timed-out wait for the first edge.
 */
module ActorProtocol {
  import opened Wrappers
  import opened Lifecycle
  import opened GateModel
  import PipelineModel
  import Protocol
  import opened ActorModel
  import opened ActorTheorems

  type Action = Protocol.ControlAction
  type Pc = PipelineModel.ControlPc

  datatype Owner = Owner(c: Control, pc: Pc)

  // ---------- the owner's half of the protocol ----------

  // The guard of an action as far as the owner itself is concerned.
  predicate Can(o: Owner, a: Action) {
    var pc := o.pc;
    match a
    case StartSession(_, _) => pc.Ready? && o.c.state == Off
    case EnterRecording(_) => pc.Ready? && o.c.state == Starting && o.c.active.Some?
    case PauseSession(_) => pc.Ready? && o.c.state == Recording
    case ResumeSession(_) => pc.Ready? && o.c.state == Paused
    case PauseAutomatically(_) => pc.Ready? && IsActiveState(o.c.state)
    case StopSession(_) => pc.Ready? && IsActiveState(o.c.state)
    case StopFaulted => pc.Ready? && o.c.state == Faulted
    case EnterFault(_, drain) => o.c.state != Faulted && Protocol.FaultsHere(pc, drain)
    case CancelQueued(_) => pc.Draining? && pc.point == PipelineModel.Cancel
    case SeeOperations(_) => pc.Draining? && pc.point == PipelineModel.AwaitOperations && pc.generation.Some?
    case SeeEdge(_) => pc.Draining? && pc.point.AwaitEdge? && pc.point.k < 4 && pc.generation.Some?
    case SeeSlot => pc.Draining? && pc.point == PipelineModel.CheckSlot && pc.generation.Some?
    case ClearCoalesced => pc.Draining? && pc.point == PipelineModel.Clear
    case SeeDrained(_) => pc.Draining? && pc.point.AwaitStage? && pc.point.k < 4
    case EndDrain(_) =>
      && pc.Draining? && pc.point == PipelineModel.Complete
      && (pc.ok || pc.purpose == PipelineModel.AfterFault || o.c.state == Faulted)
  }

  // What the other threads must leave free, and what a wait must see.
  predicate OthersPermit(s: Protocol.State, a: Action)
    requires |s.edges| == 4 && |s.workers| == 4
  {
    match a
    case PauseAutomatically(_) => !s.commitLock
    case StopSession(_) => !s.commitLock
    case EnterFault(_, _) => !s.commitLock
    case CancelQueued(_) => !PipelineModel.HoldsSlotLock(s.ingress)
    case SeeOperations(timeout) =>
      timeout || (s.control.Draining? && s.control.generation.Some? ==> s.gate.w.inFlight[s.control.generation.value] == 0)
    case SeeEdge(timeout) =>
      timeout || (s.control.Draining? && s.control.generation.Some? && s.control.point.AwaitEdge? && s.control.point.k < 4 ==>
                    s.edges[s.control.point.k].credits[s.control.generation.value] == 0)
    case SeeSlot => !PipelineModel.HoldsSlotLock(s.ingress)
    case ClearCoalesced => !PipelineModel.HoldsSlotLock(s.ingress)
    case SeeDrained(answer) =>
      answer.Emptied? ==>
        (s.control.Draining? && s.control.point.AwaitStage? && s.control.point.k < 4 ==> Protocol.IdleStage(s, s.control.point.k))
    case _ => true
  }

  function ControlOf(c: Control, pc: Pc, a: Action): Control {
    match a
    case StartSession(reason, revision) => BeginStartControl(c, reason, revision).c
    case EnterRecording(reason) => if c.active.Some? then MarkRecordingControl(c, c.active.value, reason).c else c
    case PauseSession(reason) => PauseControl(c, reason).c
    case ResumeSession(reason) => ResumeControl(c, reason).c
    case PauseAutomatically(reason) => InvalidateAndPauseControl(c, reason).c
    case StopSession(reason) => BeginStoppingControl(c, reason).c
    case EnterFault(reason, _) => FaultControl(c, reason).c
    case EndDrain(reason) =>
      if pc.Draining? && pc.ok && pc.purpose == PipelineModel.ToOff then FinishOffControl(c, reason).c else c
    case _ => c
  }

  function PcOf(c: Control, pc: Pc, a: Action, slotHeld: bool): Pc
    requires Can(Owner(c, pc), a)
  {
    match a
    case PauseAutomatically(_) => Protocol.BeginDrain(c.active, PipelineModel.ToPaused)
    case StopSession(_) => Protocol.BeginDrain(c.active, PipelineModel.ToOff)
    case StopFaulted => Protocol.BeginDrain(None, PipelineModel.ToOff)
    case EnterFault(_, drain) =>
      if drain then Protocol.BeginDrain(FaultedGeneration(c), PipelineModel.AfterFault) else PipelineModel.Ready
    case CancelQueued(raises) => pc.(point := PipelineModel.AwaitOperations, ok := pc.ok && !raises)
    case SeeOperations(timeout) => pc.(point := PipelineModel.AwaitEdge(0), ok := pc.ok && !timeout)
    case SeeEdge(timeout) =>
      if timeout then pc.(point := PipelineModel.Clear, ok := false)
      else pc.(point := if pc.point.k == 3 then PipelineModel.CheckSlot else PipelineModel.AwaitEdge(pc.point.k + 1))
    case SeeSlot => pc.(point := PipelineModel.Clear, ok := pc.ok && !slotHeld)
    case ClearCoalesced => pc.(point := PipelineModel.AwaitStage(0))
    case SeeDrained(answer) =>
      if answer.AskRaised? then pc.(point := PipelineModel.Complete, ok := false)
      else pc.(point := if pc.point.k == 3 then PipelineModel.Complete else PipelineModel.AwaitStage(pc.point.k + 1))
    case EndDrain(_) => PipelineModel.Ready
    case _ => pc
  }

  function Do(o: Owner, a: Action, slotHeld: bool): Owner
    requires Can(o, a)
  {
    Owner(ControlOf(o.c, o.pc, a), PcOf(o.c, o.pc, a, slotHeld))
  }

  function Projected(s: Protocol.State): Owner {
    Owner(s.gate.c, s.control)
  }

  // The protocol's control steps are exactly the automaton's, where the others permit.
  lemma ProtocolProjects(s: Protocol.State, a: Action)
    requires |s.edges| == 4 && |s.workers| == 4
    ensures Protocol.ControlEnabled(s, a) <==> Can(Projected(s), a) && OthersPermit(s, a)
    ensures Protocol.ControlEnabled(s, a) ==>
              var held := a.SeeSlot? && Protocol.SlotHolds(s.slot, s.control.generation.value);
              Projected(Protocol.ApplyControl(s, a)) == Do(Projected(s), a, held)
  {
  }

  // ---------- paths ----------

  predicate Runs(o: Owner, path: seq<Action>)
    decreases |path|
  {
    path == [] || (Can(o, path[0]) && Runs(Do(o, path[0], false), path[1..]))
  }

  function After(o: Owner, path: seq<Action>): Owner
    requires Runs(o, path)
    decreases |path|
  {
    if path == [] then o else After(Do(o, path[0], false), path[1..])
  }

  // The path leads from one owner to another.
  predicate Leads(o: Owner, path: seq<Action>, o': Owner) {
    Runs(o, path) && After(o, path) == o'
  }

  lemma {:induction false} Joined(o: Owner, p: seq<Action>, o1: Owner, q: seq<Action>, o2: Owner)
    requires Leads(o, p, o1) && Leads(o1, q, o2)
    ensures Leads(o, p + q, o2)
    decreases |p|
  {
    hide Can, Do;
    if p == [] {
      assert p + q == q;
    } else {
      assert (p + q)[1..] == p[1..] + q && (p + q)[0] == p[0];
      Joined(Do(o, p[0], false), p[1..], o1, q, o2);
    }
  }

  lemma OneAction(o: Owner, a: Action)
    requires Can(o, a)
    ensures Leads(o, [a], Do(o, a, false))
  {
    assert [a][1..] == [];
    assert After(Do(o, a, false), []) == Do(o, a, false);
  }

  lemma Then(o: Owner, a: Action, q: seq<Action>, o2: Owner)
    requires Can(o, a) && Leads(Do(o, a, false), q, o2)
    ensures Leads(o, [a] + q, o2)
  {
    OneAction(o, a);
    Joined(o, [a], Do(o, a, false), q, o2);
  }

  // ---------- drains ----------

  function WaitPath(outcome: DrainOutcome): seq<Action> {
    if outcome.pipelineQuiet then
      [Protocol.SeeEdge(false), Protocol.SeeEdge(false), Protocol.SeeEdge(false), Protocol.SeeEdge(false), Protocol.SeeSlot]
    else [Protocol.SeeEdge(true)]
  }

  function DrainPath(generation: Option<Generation>, outcome: DrainOutcome): seq<Action> {
    if generation.None? then ClearPath(outcome.cleared)
    else
      [Protocol.CancelQueued(!(outcome.cancelQueued && outcome.cancelInFlight)), Protocol.SeeOperations(!outcome.operationsQuiet)]
      + WaitPath(outcome)
      + ClearPath(outcome.cleared)
  }

  // Every stage answers, or the first one does not.
  function ClearPath(cleared: bool): seq<Action> {
    if cleared then
      [Protocol.ClearCoalesced, Protocol.SeeDrained(PipelineModel.Emptied), Protocol.SeeDrained(PipelineModel.Emptied),
       Protocol.SeeDrained(PipelineModel.Emptied), Protocol.SeeDrained(PipelineModel.Emptied)]
    else [Protocol.ClearCoalesced, Protocol.SeeDrained(PipelineModel.AskRaised)]
  }

  lemma ClearLeads(c: Control, generation: Option<Generation>, purpose: PipelineModel.Purpose, ok: bool, cleared: bool)
    ensures Leads(Owner(c, PipelineModel.Draining(generation, purpose, PipelineModel.Clear, ok)), ClearPath(cleared),
                  Owner(c, PipelineModel.Draining(generation, purpose, PipelineModel.Complete, ok && cleared)))
  {
    var path := ClearPath(cleared);
    var o := Owner(c, PipelineModel.Draining(generation, purpose, PipelineModel.Clear, ok));
    var o1 := Do(o, path[0], false);
    var o2 := Do(o1, path[1], false);
    if cleared {
      var o3 := Do(o2, path[2], false);
      var o4 := Do(o3, path[3], false);
      OneAction(o4, path[4]);
      Then(o3, path[3], [path[4]], Do(o4, path[4], false));
      Then(o2, path[2], [path[3]] + [path[4]], Do(o4, path[4], false));
      Then(o1, path[1], [path[2]] + ([path[3]] + [path[4]]), Do(o4, path[4], false));
      Then(o, path[0], [path[1]] + ([path[2]] + ([path[3]] + [path[4]])), Do(o4, path[4], false));
      assert path == [path[0]] + ([path[1]] + ([path[2]] + ([path[3]] + [path[4]])));
    } else {
      OneAction(o1, path[1]);
      Then(o, path[0], [path[1]], o2);
      assert path == [path[0]] + [path[1]];
    }
  }

  lemma WaitsLead(c: Control, g: Generation, purpose: PipelineModel.Purpose, ok: bool, outcome: DrainOutcome)
    ensures Leads(Owner(c, PipelineModel.Draining(Some(g), purpose, PipelineModel.AwaitEdge(0), ok)), WaitPath(outcome),
                  Owner(c, PipelineModel.Draining(Some(g), purpose, PipelineModel.Clear, ok && outcome.pipelineQuiet)))
  {
    var path := WaitPath(outcome);
    var o := Owner(c, PipelineModel.Draining(Some(g), purpose, PipelineModel.AwaitEdge(0), ok));
    if outcome.pipelineQuiet {
      var o1 := Do(o, path[0], false);
      var o2 := Do(o1, path[1], false);
      var o3 := Do(o2, path[2], false);
      var o4 := Do(o3, path[3], false);
      OneAction(o4, path[4]);
      Then(o3, path[3], [path[4]], Do(o4, path[4], false));
      Then(o2, path[2], [path[3]] + [path[4]], Do(o4, path[4], false));
      Then(o1, path[1], [path[2]] + ([path[3]] + [path[4]]), Do(o4, path[4], false));
      Then(o, path[0], [path[1]] + ([path[2]] + ([path[3]] + [path[4]])), Do(o4, path[4], false));
      assert path == [path[0]] + ([path[1]] + ([path[2]] + ([path[3]] + [path[4]])));
    } else {
      OneAction(o, path[0]);
    }
  }

  // A drain walks from its beginning to completion, and is ok exactly when the actor
  // sees no fault code.
  lemma DrainLeads(c: Control, generation: Option<Generation>, purpose: PipelineModel.Purpose, outcome: DrainOutcome)
    ensures Leads(Owner(c, Protocol.BeginDrain(generation, purpose)), DrainPath(generation, outcome),
                  Owner(c, PipelineModel.Draining(generation, purpose, PipelineModel.Complete,
                                                  DrainFault(outcome, generation).None?)))
  {
    var o := Owner(c, Protocol.BeginDrain(generation, purpose));
    var clear := ClearPath(outcome.cleared);
    hide ClearPath;
    if generation.None? {
      ClearLeads(c, generation, purpose, true, outcome.cleared);
    } else {
      var cancel := Protocol.CancelQueued(!(outcome.cancelQueued && outcome.cancelInFlight));
      var look := Protocol.SeeOperations(!outcome.operationsQuiet);
      var o1 := Do(o, cancel, false);
      var o2 := Do(o1, look, false);
      WaitsLead(c, generation.value, purpose, o2.pc.ok, outcome);
      var o3 := Owner(c, PipelineModel.Draining(generation, purpose, PipelineModel.Clear, o2.pc.ok && outcome.pipelineQuiet));
      var o4 := Owner(c, PipelineModel.Draining(generation, purpose, PipelineModel.Complete, o3.pc.ok && outcome.cleared));
      ClearLeads(c, generation, purpose, o3.pc.ok, outcome.cleared);
      Joined(o2, WaitPath(outcome), o3, clear, o4);
      Then(o1, look, WaitPath(outcome) + clear, o4);
      Then(o, cancel, [look] + (WaitPath(outcome) + clear), o4);
      assert DrainPath(generation, outcome) == [cancel] + ([look] + (WaitPath(outcome) + clear));
    }
  }

  // ---------- faults and announcements ----------

  function FaultPath(a: Actor, env: Environment, reason: TransitionReason, drain: bool): seq<Action> {
    if a.c.state == Faulted then []
    else if !drain then [Protocol.EnterFault(reason, false)]
    else [Protocol.EnterFault(reason, true)]
         + (DrainPath(FaultedGeneration(a.c), env.coordinator(|a.drains|)) + [Protocol.EndDrain(reason)])
  }

  // The drain of a fault ends wherever it ends.
  lemma FaultDrainLeads(c: Control, generation: Option<Generation>, outcome: DrainOutcome, reason: TransitionReason)
    ensures Leads(Owner(c, Protocol.BeginDrain(generation, PipelineModel.AfterFault)),
                  DrainPath(generation, outcome) + [Protocol.EndDrain(reason)], Owner(c, PipelineModel.Ready))
  {
    hide Leads, DrainPath, DrainFault;
    DrainLeads(c, generation, PipelineModel.AfterFault, outcome);
    var complete := Owner(c, PipelineModel.Draining(generation, PipelineModel.AfterFault, PipelineModel.Complete,
                                                    DrainFault(outcome, generation).None?));
    OneAction(complete, Protocol.EndDrain(reason));
    Joined(Owner(c, Protocol.BeginDrain(generation, PipelineModel.AfterFault)), DrainPath(generation, outcome), complete,
           [Protocol.EndDrain(reason)], Owner(c, PipelineModel.Ready));
  }

  lemma FaultPathLeads(a: Actor, env: Environment, fault: FaultCode, reason: TransitionReason, drain: bool, pc: Pc)
    requires ControlInv(a.c) && (a.c.state == Faulted ==> pc.Ready?) && Protocol.FaultsHere(pc, drain)
    ensures Leads(Owner(a.c, pc), FaultPath(a, env, reason, drain),
                  Owner(EnterFault(a, env, fault, reason, drain).c, PipelineModel.Ready))
  {
    hide Leads, DrainPath;
    var after := Owner(FaultControl(a.c, reason).c, PipelineModel.Ready);
    if a.c.state == Faulted {
      Nothing(Owner(a.c, pc));
    } else if !drain {
      OneAction(Owner(a.c, pc), Protocol.EnterFault(reason, false));
    } else {
      FaultDrainLeads(after.c, FaultedGeneration(a.c), env.coordinator(|a.drains|), reason);
      Then(Owner(a.c, pc), Protocol.EnterFault(reason, true),
           DrainPath(FaultedGeneration(a.c), env.coordinator(|a.drains|)) + [Protocol.EndDrain(reason)], after);
    }
  }

  lemma Nothing(o: Owner)
    ensures Leads(o, [], o)
  {
  }

  // What follows an announcement: nothing, or the fault of a sink that raised.
  function AnnouncedPath(a: Actor, env: Environment, c: Control, t: Transition): seq<Action> {
    if env.sink(|a.attempts|) then [] else FaultPath(Recorded(a.(c := c), env, t, None), env, CriticalFault, true)
  }

  lemma AnnouncedLeads(a: Actor, env: Environment, moved: Moved<Transition>, done: Reply, pc: Pc)
    requires moved.result.Ok? && ControlInv(moved.c) && moved.c.state != Faulted
    requires env.sink(|a.attempts|) ==> pc.Ready?
    requires Protocol.FaultsHere(pc, true)
    ensures Leads(Owner(moved.c, pc), AnnouncedPath(a, env, moved.c, moved.result.value),
                  Owner(Announce(a, env, moved, done).actor.c, PipelineModel.Ready))
  {
    hide Leads, FaultPath;
    if env.sink(|a.attempts|) {
      Nothing(Owner(moved.c, pc));
    } else {
      FaultPathLeads(Recorded(a.(c := moved.c), env, moved.result.value, None), env, AuditFailure, CriticalFault, true, pc);
    }
  }

  // After a drain: the end that changes the state, or the fault without a second drain.
  function SettledPath(a: Actor, env: Environment, generation: Option<Generation>, reason: TransitionReason): seq<Action> {
    if NextDrain(a, env, generation).None? then [Protocol.EndDrain(reason)] else [Protocol.EnterFault(CriticalFault, false)]
  }

  // A pause or a stop: the action, then either the fault of a sink that raised, or the
  // drain and what it leads to.
  function DrainingPath(a: Actor, env: Environment, moved: Moved<Transition>, first: Action, reason: TransitionReason): seq<Action> {
    if moved.result.Err? then []
    else if !env.sink(|a.attempts|) then [first] + AnnouncedPath(a, env, moved.c, moved.result.value)
    else
      [first] + (DrainPath(a.c.active, env.coordinator(|a.drains|)) + SettledPath(a, env, a.c.active, reason))
  }

  lemma PausePathLeads(a: Actor, env: Environment, reason: TransitionReason, done: Reply)
    requires ControlInv(a.c) && IsActiveState(a.c.state)
    ensures var moved := InvalidateAndPauseControl(a.c, reason);
            Leads(Owner(a.c, PipelineModel.Ready), DrainingPath(a, env, moved, Protocol.PauseAutomatically(reason), reason),
                  Owner(AnnounceAndDrain(a, env, moved, a.c.active, done).actor.c, PipelineModel.Ready))
  {
    hide Leads, DrainPath, FaultPath;
    var moved := InvalidateAndPauseControl(a.c, reason);
    var first := Protocol.PauseAutomatically(reason);
    var o1 := Do(Owner(a.c, PipelineModel.Ready), first, false);
    assert o1 == Owner(moved.c, Protocol.BeginDrain(a.c.active, PipelineModel.ToPaused)) && ControlInv(moved.c);
    if !env.sink(|a.attempts|) {
      AnnouncedLeads(a, env, moved, done, o1.pc);
      Then(Owner(a.c, PipelineModel.Ready), first, AnnouncedPath(a, env, moved.c, moved.result.value),
           Owner(Announce(a, env, moved, done).actor.c, PipelineModel.Ready));
    } else {
      SettledLeads(a, env, moved, reason, PipelineModel.ToPaused, done);
      Then(Owner(a.c, PipelineModel.Ready), first,
           DrainPath(a.c.active, env.coordinator(|a.drains|)) + SettledPath(a, env, a.c.active, reason),
           Owner(AnnounceAndDrain(a, env, moved, a.c.active, done).actor.c, PipelineModel.Ready));
    }
  }

  // The drain that follows a delivered announcement of a pause.
  lemma SettledLeads(a: Actor, env: Environment, moved: Moved<Transition>, reason: TransitionReason,
                     purpose: PipelineModel.Purpose, done: Reply)
    requires moved.result.Ok? && moved.c.state != Faulted && env.sink(|a.attempts|) && purpose == PipelineModel.ToPaused
    ensures Leads(Owner(moved.c, Protocol.BeginDrain(a.c.active, purpose)),
                  DrainPath(a.c.active, env.coordinator(|a.drains|)) + SettledPath(a, env, a.c.active, reason),
                  Owner(AnnounceAndDrain(a, env, moved, a.c.active, done).actor.c, PipelineModel.Ready))
  {
    hide Leads, DrainPath;
    var outcome := env.coordinator(|a.drains|);
    DrainLeads(moved.c, a.c.active, purpose, outcome);
    var complete := Owner(moved.c, PipelineModel.Draining(a.c.active, purpose, PipelineModel.Complete,
                                                          DrainFault(outcome, a.c.active).None?));
    var last := SettledPath(a, env, a.c.active, reason)[0];
    OneAction(complete, last);
    Joined(Owner(moved.c, Protocol.BeginDrain(a.c.active, purpose)), DrainPath(a.c.active, outcome), complete, [last],
           Do(complete, last, false));
  }

  // ---------- stops ----------

  const OffReply := Reply(true, true, NowOff, None)

  // Closing the gate and announcing it.
  function FinishPath(a: Actor, env: Environment, reason: TransitionReason): seq<Action> {
    var moved := FinishOffControl(a.c, reason);
    if moved.result.Err? then []
    else [Protocol.EndDrain(reason)] + AnnouncedPath(a, env, moved.c, moved.result.value)
  }

  lemma FinishPathLeads(a: Actor, env: Environment, reason: TransitionReason, generation: Option<Generation>)
    requires ControlInv(a.c) && (a.c.state == Stopping || a.c.state == Faulted)
    ensures Leads(Owner(a.c, PipelineModel.Draining(generation, PipelineModel.ToOff, PipelineModel.Complete, true)),
                  FinishPath(a, env, reason), Owner(Finish(a, env, reason).actor.c, PipelineModel.Ready))
  {
    hide Leads, FaultPath;
    var moved := FinishOffControl(a.c, reason);
    var o := Owner(a.c, PipelineModel.Draining(generation, PipelineModel.ToOff, PipelineModel.Complete, true));
    AnnouncedLeads(a, env, moved, OffReply, PipelineModel.Ready);
    Then(o, Protocol.EndDrain(reason), AnnouncedPath(a, env, moved.c, moved.result.value),
         Owner(Finish(a, env, reason).actor.c, PipelineModel.Ready));
  }

  function ActiveStopPath(a: Actor, env: Environment, reason: TransitionReason): seq<Action> {
    var moved := BeginStoppingControl(a.c, reason);
    if moved.result.Err? then []
    else if !env.sink(|a.attempts|) then [Protocol.StopSession(reason)] + AnnouncedPath(a, env, moved.c, moved.result.value)
    else
      [Protocol.StopSession(reason)]
      + (DrainPath(a.c.active, env.coordinator(|a.drains|))
         + if NextDrain(a, env, a.c.active).None? then FinishPath(StopAndDrain(a, env, reason).actor, env, reason)
           else [Protocol.EnterFault(CriticalFault, false)])
  }

  lemma ActiveStopLeads(a: Actor, env: Environment, reason: TransitionReason)
    requires ControlInv(a.c) && IsActiveState(a.c.state) && !a.manual
    ensures Leads(Owner(a.c, PipelineModel.Ready), ActiveStopPath(a, env, reason),
                  Owner(HandleStop(a, env, reason).actor.c, PipelineModel.Ready))
  {
    hide Leads, DrainPath, FaultPath, FinishPath, Finish;
    var first := Protocol.StopSession(reason);
    var moved := BeginStoppingControl(a.c, reason);
    var o1 := Owner(moved.c, Protocol.BeginDrain(a.c.active, PipelineModel.ToOff));
    var end := Owner(HandleStop(a, env, reason).actor.c, PipelineModel.Ready);
    assert a.(manual := false) == a && ControlInv(moved.c);
    if !env.sink(|a.attempts|) {
      AnnouncedLeads(a, env, moved, OffReply, o1.pc);
      Then(Owner(a.c, PipelineModel.Ready), first, AnnouncedPath(a, env, moved.c, moved.result.value), end);
    } else {
      var outcome := env.coordinator(|a.drains|);
      var complete := Owner(moved.c, PipelineModel.Draining(a.c.active, PipelineModel.ToOff, PipelineModel.Complete,
                                                            DrainFault(outcome, a.c.active).None?));
      var rest := if NextDrain(a, env, a.c.active).None? then FinishPath(StopAndDrain(a, env, reason).actor, env, reason)
                  else [Protocol.EnterFault(CriticalFault, false)];
      DrainLeads(moved.c, a.c.active, PipelineModel.ToOff, outcome);
      StoppedLeads(a, env, reason, complete, rest);
      Joined(o1, DrainPath(a.c.active, outcome), complete, rest, end);
      Then(Owner(a.c, PipelineModel.Ready), first, DrainPath(a.c.active, outcome) + rest, end);
    }
  }

  lemma StoppedLeads(a: Actor, env: Environment, reason: TransitionReason, complete: Owner, rest: seq<Action>)
    requires ControlInv(a.c) && IsActiveState(a.c.state) && !a.manual && env.sink(|a.attempts|)
    requires var moved := BeginStoppingControl(a.c, reason);
             complete == Owner(moved.c, PipelineModel.Draining(a.c.active, PipelineModel.ToOff, PipelineModel.Complete,
                                                               NextDrain(a, env, a.c.active).None?))
    requires rest == if NextDrain(a, env, a.c.active).None? then FinishPath(StopAndDrain(a, env, reason).actor, env, reason)
                     else [Protocol.EnterFault(CriticalFault, false)]
    ensures Leads(complete, rest, Owner(HandleStop(a, env, reason).actor.c, PipelineModel.Ready))
  {
    hide Leads, FinishPath, Finish;
    assert a.(manual := false) == a;
    var stopping := StopAndDrain(a, env, reason);
    if NextDrain(a, env, a.c.active).None? {
      assert stopping.actor.c == complete.c && stopping.reply.code == NowOff && ControlInv(complete.c);
      FinishPathLeads(stopping.actor, env, reason, a.c.active);
    } else {
      OneAction(complete, Protocol.EnterFault(CriticalFault, false));
    }
  }

  function FaultedStopPath(a: Actor, env: Environment, reason: TransitionReason): seq<Action> {
    [Protocol.StopFaulted]
    + (DrainPath(None, env.coordinator(|a.drains|))
       + if NextDrain(a, env, None).None? then FinishPath(Drained(a, None), env, reason) else [Protocol.EndDrain(reason)])
  }

  lemma FaultedStopLeads(a: Actor, env: Environment, reason: TransitionReason)
    requires ControlInv(a.c) && a.c.state == Faulted && !a.manual
    ensures Leads(Owner(a.c, PipelineModel.Ready), FaultedStopPath(a, env, reason),
                  Owner(HandleStop(a, env, reason).actor.c, PipelineModel.Ready))
  {
    hide Leads, DrainPath, FinishPath, Finish;
    assert a.(manual := false) == a;
    var outcome := env.coordinator(|a.drains|);
    var o1 := Owner(a.c, Protocol.BeginDrain(None, PipelineModel.ToOff));
    var ok := DrainFault(outcome, None).None?;
    var complete := Owner(a.c, PipelineModel.Draining(None, PipelineModel.ToOff, PipelineModel.Complete, ok));
    var end := Owner(HandleStop(a, env, reason).actor.c, PipelineModel.Ready);
    var rest := if ok then FinishPath(Drained(a, None), env, reason) else [Protocol.EndDrain(reason)];
    DrainLeads(a.c, None, PipelineModel.ToOff, outcome);
    if ok {
      FinishPathLeads(Drained(a, None), env, reason, None);
    } else {
      OneAction(complete, Protocol.EndDrain(reason));
    }
    Joined(o1, DrainPath(None, outcome), complete, rest, end);
    Then(Owner(a.c, PipelineModel.Ready), Protocol.StopFaulted, DrainPath(None, outcome) + rest, end);
  }

  function StopPath(a: Actor, env: Environment, reason: TransitionReason): seq<Action> {
    var a0 := a.(manual := false);
    if a.c.state == Off then []
    else if a.c.state == Faulted then FaultedStopPath(a0, env, reason)
    else ActiveStopPath(a0, env, reason)
  }

  lemma StopLeads(a: Actor, env: Environment, reason: TransitionReason)
    requires ActorInv(a)
    ensures Leads(Owner(a.c, PipelineModel.Ready), StopPath(a, env, reason),
                  Owner(HandleStop(a, env, reason).actor.c, PipelineModel.Ready))
  {
    hide Leads, FaultedStopPath, ActiveStopPath;
    var a0 := a.(manual := false);
    if a.c.state == Off {
      Nothing(Owner(a.c, PipelineModel.Ready));
    } else if a.c.state == Faulted {
      FaultedStopLeads(a0, env, reason);
    } else {
      ActiveStopLeads(a0, env, reason);
    }
    assert HandleStop(a0, env, reason) == HandleStop(a, env, reason);
  }

  // ---------- the other messages ----------

  // One action and its announcement.
  function MovePath(a: Actor, env: Environment, moved: Moved<Transition>, action: Action): seq<Action> {
    if moved.result.Err? then [] else [action] + AnnouncedPath(a, env, moved.c, moved.result.value)
  }

  lemma MoveLeads(a: Actor, env: Environment, moved: Moved<Transition>, action: Action, done: Reply)
    requires Can(Owner(a.c, PipelineModel.Ready), action)
    requires Do(Owner(a.c, PipelineModel.Ready), action, false) == Owner(moved.c, PipelineModel.Ready)
    requires moved.result.Ok? && ControlInv(moved.c) && moved.c.state != Faulted
    ensures Leads(Owner(a.c, PipelineModel.Ready), MovePath(a, env, moved, action),
                  Owner(Announce(a, env, moved, done).actor.c, PipelineModel.Ready))
  {
    hide Leads, Announce, AnnouncedPath, Can, Do;
    AnnouncedLeads(a, env, moved, done, PipelineModel.Ready);
    Then(Owner(a.c, PipelineModel.Ready), action, AnnouncedPath(a, env, moved.c, moved.result.value),
         Owner(Announce(a, env, moved, done).actor.c, PipelineModel.Ready));
  }

  const StartedReply := Reply(true, true, NowStarting, None)

  function StartPath(a: Actor, env: Environment, reason: TransitionReason, config: ConfigOutcome, alive: bool): seq<Action> {
    if a.c.state != Off then []
    else if config.Unreadable? then FaultPath(a, env, CriticalFault, true)
    else if !config.permitted then []
    else
      var moved := BeginStartControl(a.c, reason, config.revision);
      MovePath(a, env, moved, Protocol.StartSession(reason, config.revision))
      + if !env.sink(|a.attempts|) || alive then []
        else FaultPath(Announce(a, env, moved, StartedReply).actor, env, CriticalFault, true)
  }

  lemma StartLeads(a: Actor, env: Environment, reason: TransitionReason, config: ConfigOutcome, alive: bool)
    requires ActorInv(a)
    ensures Leads(Owner(a.c, PipelineModel.Ready), StartPath(a, env, reason, config, alive),
                  Owner(HandleStart(a, env, reason, config, alive).actor.c, PipelineModel.Ready))
  {
    hide Leads, MovePath, FaultPath, Announce, ActorInv, EnterFault;
    var o := Owner(a.c, PipelineModel.Ready);
    InvIsControl(a);
    if a.c.state != Off {
      Nothing(o);
    } else if config.Unreadable? {
      FaultPathLeads(a, env, PreflightFailure, CriticalFault, true, PipelineModel.Ready);
    } else if !config.permitted {
      Nothing(o);
    } else {
      var moved := BeginStartControl(a.c, reason, config.revision);
      var started := Announce(a, env, moved, StartedReply).actor;
      MoveLeads(a, env, moved, Protocol.StartSession(reason, config.revision), StartedReply);
      Nothing(Owner(started.c, PipelineModel.Ready));
      if env.sink(|a.attempts|) && !alive {
        DeliveredKeepsControl(a, env, moved, StartedReply);
        FaultPathLeads(started, env, PreflightFailure, CriticalFault, true, PipelineModel.Ready);
        Joined(o, MovePath(a, env, moved, Protocol.StartSession(reason, config.revision)), Owner(started.c, PipelineModel.Ready),
               FaultPath(started, env, CriticalFault, true),
               Owner(HandleStart(a, env, reason, config, alive).actor.c, PipelineModel.Ready));
      } else {
        Joined(o, MovePath(a, env, moved, Protocol.StartSession(reason, config.revision)), Owner(started.c, PipelineModel.Ready),
               [], Owner(started.c, PipelineModel.Ready));
      }
    }
  }

  lemma InvIsControl(a: Actor)
    requires ActorInv(a)
    ensures ControlInv(a.c) && a.c.state != Stopping && a.c.state != Privacy
  {
  }

  lemma DeliveredKeepsControl(a: Actor, env: Environment, moved: Moved<Transition>, done: Reply)
    requires moved.result.Ok? && env.sink(|a.attempts|)
    ensures Announce(a, env, moved, done).actor.c == moved.c
  {
  }

  const RecordingReply := Reply(true, true, NowRecording, None)
  const PausedReply := Reply(true, true, SessionSafetyPaused, None)

  function PausePath(a: Actor, env: Environment, reason: TransitionReason): seq<Action> {
    DrainingPath(a, env, InvalidateAndPauseControl(a.c, reason), Protocol.PauseAutomatically(reason), reason)
  }

  function PreflightPath(a: Actor, env: Environment, generation: Generation, outcome: PreflightOutcome, reason: TransitionReason)
    : seq<Action>
  {
    if a.c.state != Starting || a.c.active != Some(generation) then []
    else if outcome.NotReady? then FaultPath(a, env, CriticalFault, true)
    else
      var pauseReason := PauseReason(a, outcome.startPaused);
      if pauseReason.Some? then PausePath(a.(automatic := pauseReason), env, pauseReason.value)
      else MovePath(a, env, MarkRecordingControl(a.c, generation, reason), Protocol.EnterRecording(reason))
  }

  lemma PreflightLeads(a: Actor, env: Environment, generation: Generation, outcome: PreflightOutcome, reason: TransitionReason)
    requires ActorInv(a)
    ensures Leads(Owner(a.c, PipelineModel.Ready), PreflightPath(a, env, generation, outcome, reason),
                  Owner(HandlePreflight(a, env, generation, outcome, reason).actor.c, PipelineModel.Ready))
  {
    hide Leads, MovePath, DrainingPath, FaultPath, Announce, AnnounceAndDrain, ActorInv, EnterFault;
    InvIsControl(a);
    if a.c.state != Starting || a.c.active != Some(generation) {
      Nothing(Owner(a.c, PipelineModel.Ready));
    } else if outcome.NotReady? {
      FaultPathLeads(a, env, outcome.fault, CriticalFault, true, PipelineModel.Ready);
    } else if PauseReason(a, outcome.startPaused).Some? {
      var pauseReason := PauseReason(a, outcome.startPaused);
      PausePathLeads(a.(automatic := pauseReason), env, pauseReason.value, PausedReply);
    } else {
      MoveLeads(a, env, MarkRecordingControl(a.c, generation, reason), Protocol.EnterRecording(reason), RecordingReply);
    }
  }

  function SwitchPath(a: Actor, env: Environment, m: Message): seq<Action> {
    match m
    case PauseMessage(reason) =>
      if a.c.state != Recording then []
      else MovePath(a.(manual := true), env, PauseControl(a.c, reason), Protocol.PauseSession(reason))
    case ResumeMessage(reason) =>
      if a.automatic.Some? || a.c.state != Paused then []
      else MovePath(a.(manual := false), env, ResumeControl(a.c, reason), Protocol.ResumeSession(reason))
    case Release(reason) =>
      if a.automatic.None? || reason != ExpectedRelease(a) || a.c.state != Paused || a.manual then []
      else MovePath(a.(automatic := None), env, ResumeControl(a.c, reason), Protocol.ResumeSession(reason))
    case Block(reason) =>
      if (a.automatic == Some(SessionLocked) && reason == Idle) || (a.automatic == Some(reason) && a.c.state == Paused)
         || !IsActiveState(a.c.state) then []
      else PausePath(a.(automatic := Some(reason)), env, reason)
    case _ => []
  }

  lemma SwitchLeads(a: Actor, env: Environment, m: Message)
    requires ActorInv(a) && (m.PauseMessage? || m.ResumeMessage? || m.Release? || m.Block?)
    ensures Leads(Owner(a.c, PipelineModel.Ready), SwitchPath(a, env, m), Owner(Receive(a, env, m).c, PipelineModel.Ready))
  {
    hide Leads, MovePath, DrainingPath, Announce, AnnounceAndDrain, ActorInv;
    InvIsControl(a);
    if SwitchPath(a, env, m) == [] {
      Nothing(Owner(a.c, PipelineModel.Ready));
    }
    match m {
      case PauseMessage(reason) =>
        if a.c.state == Recording {
          MoveLeads(a.(manual := true), env, PauseControl(a.c, reason), Protocol.PauseSession(reason),
                    Reply(true, true, NowPaused, None));
        }
      case ResumeMessage(reason) =>
        if a.automatic.None? && a.c.state == Paused {
          MoveLeads(a.(manual := false), env, ResumeControl(a.c, reason), Protocol.ResumeSession(reason), RecordingReply);
        }
      case Release(reason) =>
        if a.automatic.Some? && reason == ExpectedRelease(a) && a.c.state == Paused && !a.manual {
          MoveLeads(a.(automatic := None), env, ResumeControl(a.c, reason), Protocol.ResumeSession(reason), RecordingReply);
        }
      case Block(reason) =>
        if IsActiveState(a.c.state) {
          PausePathLeads(a.(automatic := Some(reason)), env, reason, PausedReply);
        }
    }
  }

  function MessagePath(a: Actor, env: Environment, m: Message): seq<Action> {
    match m
    case Start(reason, config, alive) => StartPath(a, env, reason, config, alive)
    case Stop(reason) => StopPath(a, env, reason)
    case FaultMessage(fault, reason) => FaultPath(a, env, reason, true)
    case PreflightComplete(generation, outcome, reason) => PreflightPath(a, env, generation, outcome, reason)
    case Unexpected => FaultPath(a, env, CriticalFault, true)
    case OnStart(first, config, alive) =>
      if first.Unreadable? then FaultPath(a, env, CriticalFault, true)
      else if first.permitted then StartPath(a, env, StartupOptIn, config, alive) else []
    case OnStop => StopPath(a, env, Shutdown)
    case OnFailure => FaultPath(a, env, CriticalFault, true)
    case _ => SwitchPath(a, env, m)
  }

  // Every message is a path of the protocol's owner, from Ready to Ready.
  lemma MessagesArePaths(a: Actor, env: Environment, m: Message)
    requires ActorInv(a) && WellFormed(m)
    ensures Leads(Owner(a.c, PipelineModel.Ready), MessagePath(a, env, m), Owner(Receive(a, env, m).c, PipelineModel.Ready))
  {
    hide Leads, StartPath, StopPath, FaultPath, PreflightPath, SwitchPath, ActorInv, WellFormed;
    hide HandleStart, HandleStop, HandlePreflight, HandlePause, HandleResume, HandleBlock, HandleRelease, EnterFault;
    InvIsControl(a);
    match m {
      case Start(reason, config, alive) => StartLeads(a, env, reason, config, alive);
      case Stop(reason) => StopLeads(a, env, reason);
      case FaultMessage(fault, reason) => FaultMessageLeads(a, env, fault, reason);
      case PreflightComplete(generation, outcome, reason) => PreflightLeads(a, env, generation, outcome, reason);
      case Unexpected => FaultPathLeads(a, env, ActorFailure, CriticalFault, true, PipelineModel.Ready);
      case OnStart(first, config, alive) =>
        Nothing(Owner(a.c, PipelineModel.Ready));
        FaultPathLeads(a, env, PreflightFailure, CriticalFault, true, PipelineModel.Ready);
        StartLeads(a, env, StartupOptIn, config, alive);
      case OnStop => OnStopLeads(a, env);
      case OnFailure => FaultPathLeads(a, env, ActorFailure, CriticalFault, true, PipelineModel.Ready);
      case _ => SwitchLeads(a, env, m);
    }
  }

  lemma FaultMessageLeads(a: Actor, env: Environment, fault: FaultCode, reason: TransitionReason)
    requires ControlInv(a.c)
    ensures Leads(Owner(a.c, PipelineModel.Ready), FaultPath(a, env, reason, true),
                  Owner(HandleFault(a, env, fault, reason).actor.c, PipelineModel.Ready))
  {
    hide Leads, FaultPath;
    FaultPathLeads(a, env, fault, reason, true, PipelineModel.Ready);
  }

  lemma OnStopLeads(a: Actor, env: Environment)
    requires ActorInv(a)
    ensures Leads(Owner(a.c, PipelineModel.Ready), StopPath(a, env, Shutdown),
                  Owner(HandleOnStop(a, env).c, PipelineModel.Ready))
  {
    hide Leads, HandleStop, EnterFault;
    StopLeads(a, env, Shutdown);
    StopKeeps(a, env, Shutdown);
    if a.c.state == Off {
      Nothing(Owner(a.c, PipelineModel.Ready));
    }
  }

  function PathOfAll(a: Actor, env: Environment, messages: seq<Message>): seq<Action>
    decreases |messages|
  {
    if messages == [] then []
    else MessagePath(a, env, messages[0]) + PathOfAll(Receive(a, env, messages[0]), env, messages[1..])
  }

  // Every history of the actor is a path of the protocol's owner.
  lemma {:induction false} HistoriesArePaths(a: Actor, env: Environment, messages: seq<Message>)
    requires ActorInv(a) && AllWellFormed(messages)
    ensures Leads(Owner(a.c, PipelineModel.Ready), PathOfAll(a, env, messages),
                  Owner(ReceiveAll(a, env, messages).c, PipelineModel.Ready))
    decreases |messages|
  {
    hide Leads, MessagePath, Receive, ActorInv, WellFormed;
    if messages == [] {
      Nothing(Owner(a.c, PipelineModel.Ready));
    } else {
      assert WellFormed(messages[0]);
      var next := Receive(a, env, messages[0]);
      MessagesArePaths(a, env, messages[0]);
      ReceiveKeeps(a, env, messages[0]);
      HistoriesArePaths(next, env, messages[1..]);
      Joined(Owner(a.c, PipelineModel.Ready), MessagePath(a, env, messages[0]), Owner(next.c, PipelineModel.Ready),
             PathOfAll(next, env, messages[1..]), Owner(ReceiveAll(a, env, messages).c, PipelineModel.Ready));
    }
  }
}
