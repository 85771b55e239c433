/**
 The session's safety preflight in front of the lifecycle owner: it looks at the lock
 itself and reports IDLE only for a session it has seen unlocked. With it, a latched
 SESSION_LOCKED falls only after an observed unlock or a SESSION_UNLOCKED.
 */
module SessionPreflight {
  import opened Wrappers
  import opened Lifecycle
  import opened ActorModel
  import opened ActorTheorems
  import opened ActorOutcomes

  // What the lock source said; UNKNOWN also when asking it failed.
  datatype LockState = Locked | Unlocked | Unknown

  // `idle` holds when idle handling pauses capture and the sources resolve to IDLE.
  datatype Observation = Observation(lock: LockState, idle: bool)

  // The result that reaches the owner, from the base preflight's and the observation.
  function Check(base: PreflightOutcome, o: Observation): PreflightOutcome {
    if base.NotReady? then base
    else if o.lock != Unlocked then PreflightOutcome.Ready(Some(SessionLocked))
    else if o.idle then PreflightOutcome.Ready(Some(Idle))
    else base
  }

  // A message of the owner, or a preflight with what it observed.
  datatype Event =
    | Command(message: Message)
    | Checked(generation: Generation, base: PreflightOutcome, observation: Observation, reason: TransitionReason)

  function MessageOf(e: Event): Message {
    match e
    case Command(m) => m
    case Checked(generation, base, o, reason) => PreflightComplete(generation, Check(base, o), reason)
  }

  predicate Proper(e: Event) {
    match e
    case Command(m) => WellFormed(m) && !m.PreflightComplete?
    case Checked(generation, base, _, reason) => WellFormed(PreflightComplete(generation, base, reason))
  }

  // The event shows the session unlocked.
  predicate ShowsUnlocked(e: Event) {
    e == Command(Release(SessionUnlocked)) || (e.Checked? && e.observation.lock == Unlocked)
  }

  // An accepted preflight of the starting generation that saw an unlocked, idle session.
  predicate UnlockedAndIdle(a: Actor, e: Event) {
    && e.Checked? && a.c.state == Starting && a.c.active == Some(e.generation)
    && e.observation.lock == Unlocked && e.base.Ready?
    && (e.observation.idle || e.base.startPaused == Some(Idle))
  }

  // What takes a latched lock away, exactly.
  lemma OnlyUnlockedSessionsLoseTheLock(a: Actor, env: Environment, e: Event)
    requires ActorInv(a) && Proper(e) && a.automatic == Some(SessionLocked)
    ensures Receive(a, env, MessageOf(e)).automatic != Some(SessionLocked)
            <==> e == Command(Release(SessionUnlocked)) || UnlockedAndIdle(a, e)
  {
    hide Receive, ActorInv;
    WhatClearsTheLock(a, env, MessageOf(e));
  }

  function Messages(events: seq<Event>): (messages: seq<Message>)
    ensures |messages| == |events|
  {
    seq(|events|, i requires 0 <= i < |events| => MessageOf(events[i]))
  }

  // Over every run, whatever the base preflight, the sink and the coordinator answer:
  // where a latched lock is gone, or where recording goes on, the session was shown
  // unlocked since.
  lemma NoRecordingWithoutAnUnlock(a: Actor, env: Environment, events: seq<Event>)
    requires ActorInv(a) && a.automatic == Some(SessionLocked)
    requires forall i :: 0 <= i < |events| ==> Proper(events[i])
    ensures var a' := ReceiveAll(a, env, Messages(events));
            a'.automatic != Some(SessionLocked) || a'.c.state == Recording ==>
              exists i :: 0 <= i < |events| && ShowsUnlocked(events[i])
  {
    var messages := Messages(events);
    if forall i :: 0 <= i < |events| ==> !ShowsUnlocked(events[i]) {
      forall i | 0 <= i < |messages| ensures KeepsLock(messages[i]) && WellFormed(messages[i]) {
        assert Proper(events[i]) && !ShowsUnlocked(events[i]);
      }
      TheLockHolds(a, env, messages);
    }
  }

  // What reaches the owner: a base preflight that is not ready as it is, a session not seen
  // unlocked as locked, and an unlocked one as the idle sources or the base say.
  lemma CheckReports(base: PreflightOutcome, o: Observation)
    ensures Check(base, o)
         == if base.NotReady? then base
            else if o.lock == Locked || o.lock == Unknown then PreflightOutcome.Ready(Some(SessionLocked))
            else if o.idle then PreflightOutcome.Ready(Some(Idle))
            else base
  {
  }

  // A start of a session that is not seen unlocked latches the lock and never records; it
  // ends paused when the sink and the drain succeed.
  lemma LockedSessionsStartPaused(a: Actor, env: Environment, e: Event)
    requires ActorInv(a) && Proper(e) && e.Checked? && e.base.Ready? && e.observation.lock != Unlocked
    requires a.c.state == Starting && a.c.active == Some(e.generation)
    ensures var a' := Receive(a, env, MessageOf(e));
            && a'.automatic == Some(SessionLocked)
            && a'.c.state == if env.sink(|a.attempts|) && DrainsWell(a, env) then Paused else Faulted
  {
    hide Receive, ActorInv;
    EveryMessageEnds(a, env, MessageOf(e));
    EveryMessageLatches(a, env, MessageOf(e));
  }
}
