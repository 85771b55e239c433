/**
 The owner among the other threads: whatever the actor does next, the others can permit
 it, except where a lost credit keeps a wait from ever seeing zero; and every history of
 the actor is a run of the protocol. So what holds of all runs holds of the actor's.
 */
module ActorRuns {
  import opened Wrappers
  import opened Lifecycle
  import opened GateModel
  import PipelineModel
  import Protocol
  import ProtocolInvariant
  import ProtocolTheorems
  import ProtocolProgress
  import opened ActorModel
  import opened ActorTheorems
  import opened ActorProtocol

  type State = Protocol.State

  // ---------- the others can permit what the owner wants ----------

  // The wait of the owner for an edge that has lost a credit of its generation.
  predicate WaitsForLost(s: State, a: Action)
    requires |s.edges| == 4
  {
    && a == Protocol.SeeEdge(false) && s.control.Draining? && s.control.generation.Some?
    && s.control.point.AwaitEdge? && s.control.point.k < 4
    && s.edges[s.control.point.k].leaked[s.control.generation.value] > 0
  }

  lemma RestPermits(s: State, a: Action)
    requires ProtocolProgress.AtRest(s) && Can(Projected(s), a) && !WaitsForLost(s, a)
    ensures Protocol.ControlEnabled(s, a)
  {
    ProtocolProjects(s, a);
  }

  // In every reachable state: what the owner may do next, the other threads can permit by
  // their own steps, unless it is a wait for an edge that has lost a credit.
  lemma OthersCanPermit(s: State, a: Action) returns (steps: seq<Protocol.Step>)
    requires ProtocolInvariant.Inv(s) && Can(Projected(s), a) && !WaitsForLost(s, a)
    ensures Protocol.Runs(s, steps) && ProtocolProgress.ByOthers(steps)
    ensures var s' := Protocol.After(s, steps);
            Projected(s') == Projected(s) && Protocol.ControlEnabled(s', a)
  {
    hide Can, ProtocolInvariant.Inv, Protocol.ControlEnabled, Protocol.Apply, Protocol.Enabled, ProtocolProgress.AtRest;
    steps := ProtocolProgress.OthersComeToRest(s);
    ProtocolProgress.LockIsFree(s);
    KeepsWait(s, steps, a);
    RestPermits(Protocol.After(s, steps), a);
  }

  lemma KeepsWait(s: State, steps: seq<Protocol.Step>, a: Action)
    requires Protocol.Runs(s, steps) && |s.edges| == 4 && ProtocolProgress.NoLoss(steps)
    requires !WaitsForLost(s, a) && Protocol.After(s, steps).control == s.control
    ensures |Protocol.After(s, steps).edges| == 4 && !WaitsForLost(Protocol.After(s, steps), a)
  {
    hide Protocol.Apply, Protocol.Enabled;
    ProtocolProgress.RunKeepsLosses(s, steps, 0);
    if s.control.Draining? && s.control.point.AwaitEdge? && s.control.point.k < 4 {
      ProtocolProgress.RunKeepsLosses(s, steps, s.control.point.k);
    }
  }

  // And such a wait sees zero in no continuation in which the owner waits.
  lemma LostIsNeverPermitted(s: State, a: Action, steps: seq<Protocol.Step>)
    requires ProtocolInvariant.Inv(s) && WaitsForLost(s, a) && Protocol.Runs(s, steps)
    requires Protocol.After(s, steps).control == s.control
    ensures !Protocol.ControlEnabled(Protocol.After(s, steps), a)
  {
    hide ProtocolInvariant.Inv, Protocol.Apply, Protocol.Enabled;
    ProtocolProgress.LostIsNeverClean(s, steps, s.control.generation.value, s.control.point.k);
  }

  // A commit lock or a slot lock that blocks the owner is given up by the steps of its
  // holder alone.
  lemma CommitLockIsGivenUp(s: State) returns (steps: seq<Protocol.Step>)
    requires ProtocolInvariant.Inv(s)
    ensures Protocol.Runs(s, steps) && ProtocolProgress.ByStage(steps, 3)
    ensures !Protocol.After(s, steps).commitLock && Projected(Protocol.After(s, steps)) == Projected(s)
  {
    hide ProtocolInvariant.Inv, Protocol.Apply, Protocol.Enabled;
    steps := ProtocolProgress.StageFinishes(s, 3);
    ProtocolProgress.LockIsFree(Protocol.After(s, steps));
  }

  lemma SlotLockIsGivenUp(s: State) returns (steps: seq<Protocol.Step>)
    requires ProtocolInvariant.Inv(s)
    ensures Protocol.Runs(s, steps) && ProtocolProgress.ByIngress(steps)
    ensures !PipelineModel.HoldsSlotLock(Protocol.After(s, steps).ingress)
    ensures Projected(Protocol.After(s, steps)) == Projected(s)
  {
    hide ProtocolInvariant.Inv, Protocol.Apply, Protocol.Enabled;
    steps := ProtocolProgress.IngressLeaves(s);
  }

  // ---------- histories of the actor are runs of the protocol ----------

  predicate NothingLost(s: State) {
    forall k :: 0 <= k < |s.edges| ==> s.edges[k].leaked == multiset{}
  }

  // A drain without failure has cleared its generation from the slot.
  predicate Settled(s: State) {
    s.control.Draining? && s.control.ok && s.control.generation.Some? && s.control.point != PipelineModel.Cancel ==>
      !Protocol.SlotHolds(s.slot, s.control.generation.value)
  }

  predicate Still(s: State) {
    ProtocolProgress.AtRest(s) && NothingLost(s) && Settled(s)
  }

  lemma StillStep(s: State, a: Action)
    requires Still(s) && Can(Projected(s), a)
    ensures Protocol.ControlEnabled(s, a)
    ensures Still(Protocol.ApplyControl(s, a)) && Projected(Protocol.ApplyControl(s, a)) == Do(Projected(s), a, false)
  {
    hide Protocol.ControlGate, Protocol.ControlAfter, Protocol.ControlEnabled, Can, Do;
    RestPermits(s, a);
    ProtocolProjects(s, a);
    ControlKeepsRest(s, a);
    StillSettled(s, a);
  }

  lemma ControlKeepsRest(s: State, a: Action)
    requires ProtocolProgress.AtRest(s) && NothingLost(s) && Protocol.ControlEnabled(s, a)
    ensures ProtocolProgress.AtRest(Protocol.ApplyControl(s, a)) && NothingLost(Protocol.ApplyControl(s, a))
  {
  }

  lemma StillSettled(s: State, a: Action)
    requires Settled(s) && Protocol.ControlEnabled(s, a) && |s.edges| == 4 && |s.workers| == 4
    ensures Settled(Protocol.ApplyControl(s, a))
    ensures Projected(Protocol.ApplyControl(s, a)) == Do(Projected(s), a, false)
  {
    ProtocolProjects(s, a);
  }

  // The owner's actions as steps of the protocol.
  function Lifted(path: seq<Action>): (steps: seq<Protocol.Step>)
    ensures |steps| == |path|
  {
    seq(|path|, i requires 0 <= i < |path| => Protocol.OfControl(path[i]))
  }

  lemma {:induction false} PathsRun(s: State, path: seq<Action>)
    requires Still(s) && Runs(Projected(s), path)
    ensures Protocol.Runs(s, Lifted(path))
    ensures var s' := Protocol.After(s, Lifted(path)); Still(s') && Projected(s') == After(Projected(s), path)
    decreases |path|
  {
    hide Still, Can, Do, Protocol.ControlEnabled, Protocol.ApplyControl;
    if path != [] {
      StillStep(s, path[0]);
      StillIsFour(s);
      assert Lifted(path)[0] == Protocol.OfControl(path[0]) && Lifted(path)[1..] == Lifted(path[1..]);
      PathsRun(Protocol.ApplyControl(s, path[0]), path[1..]);
    }
  }

  lemma StillIsFour(s: State)
    requires Still(s)
    ensures |s.edges| == 4 && |s.workers| == 4
  {
  }

  // Every history of the actor, with every answer of the sink and the coordinator, is a
  // run of the protocol from its beginning that ends in the gate the actor leaves.
  lemma HistoriesRun(s: State, env: Environment, messages: seq<Message>)
    requires Protocol.Initial(s) && AllWellFormed(messages)
    ensures Protocol.Runs(s, Lifted(PathOfAll(InitialActor, env, messages)))
    ensures Projected(Protocol.After(s, Lifted(PathOfAll(InitialActor, env, messages))))
         == Owner(ReceiveAll(InitialActor, env, messages).c, PipelineModel.Ready)
  {
    assert Still(s) && ActorInv(InitialActor) && Projected(s) == Owner(InitialActor.c, PipelineModel.Ready);
    HistoriesArePaths(InitialActor, env, messages);
    PathsRun(s, PathOfAll(InitialActor, env, messages));
  }

  // The same from the middle of any run that has lost no credit: the other threads come to
  // rest, and then the actor's next messages are steps of the protocol.
  lemma HistoriesGoOn(s: State, before: seq<Protocol.Step>, a: Actor, env: Environment, messages: seq<Message>)
    returns (rest: seq<Protocol.Step>)
    requires Protocol.Initial(s) && Protocol.Runs(s, before) && ProtocolProgress.NoLoss(before)
    requires Projected(Protocol.After(s, before)) == Owner(a.c, PipelineModel.Ready)
    requires ActorInv(a) && AllWellFormed(messages)
    ensures ProtocolProgress.ByOthers(rest)
    ensures var s1 := Protocol.After(s, before);
            && Protocol.Runs(s1, rest + Lifted(PathOfAll(a, env, messages)))
            && Projected(Protocol.After(s1, rest + Lifted(PathOfAll(a, env, messages))))
               == Owner(ReceiveAll(a, env, messages).c, PipelineModel.Ready)
  {
    hide ActorInv, PathOfAll, ReceiveAll, Protocol.Apply, Protocol.Enabled, ProtocolInvariant.Inv, ProtocolProgress.AtRest;
    ProtocolTheorems.InitialInv(s);
    ProtocolTheorems.RunKeepsInv(s, before);
    var s1 := Protocol.After(s, before);
    rest := ProtocolProgress.OthersComeToRest(s1);
    var s2 := Protocol.After(s1, rest);
    ProtocolProgress.LockIsFree(s1);
    ProtocolProgress.LockIsFree(s2);
    forall k | 0 <= k < 4 ensures s2.edges[k].leaked == multiset{} {
      ProtocolProgress.RunKeepsLosses(s, before, k);
      ProtocolProgress.RunKeepsLosses(s1, rest, k);
    }
    HistoriesArePaths(a, env, messages);
    PathsRun(s2, PathOfAll(a, env, messages));
    ProtocolProgress.RunsJoin(s1, rest, Lifted(PathOfAll(a, env, messages)));
  }
}
