/** Freshness of authorizations, lifetime of markers and independence of rule order. */
module PolicyTheorems {
  import opened Wrappers
  import opened PolicyModel

  datatype Call =
    | EvaluateCall(operation: Operation, context: Context)   // also what authorize does to the engine
    | PrivacyCall(active: bool)
    | LockCall(locked: bool)
    | MarkCall(scope: Scope, context: Context, ttl: int)
    | ClearCall(cleared: Option<Scope>)
    | ReplaceCall(configuration: Option<Configuration>, revision: string)

  function Perform(e: Engine, call: Call): Engine {
    match call
    case EvaluateCall(_, context) => Snapshot(e, context.evaluatedAt)
    case PrivacyCall(active) => SetPrivacyMode(e, active)
    case LockCall(locked) => SetSessionLocked(e, locked)
    case MarkCall(scope, context, ttl) => MarkCurrentSensitive(e, scope, context, ttl)
    case ClearCall(scope) => ClearTemporary(e, scope)
    case ReplaceCall(configuration, revision) => ReplacePolicy(e, configuration, revision)
  }

  function PerformAll(e: Engine, calls: seq<Call>): Engine
    decreases |calls|
  {
    if calls == [] then e else PerformAll(Perform(e, calls[0]), calls[1..])
  }

  // ---------- freshness ----------

  // A call either leaves the engine as it was or moves its generation.
  lemma ChangeMovesTheGeneration(e: Engine, call: Call)
    ensures Perform(e, call) == e || Perform(e, call).generation == e.generation + 1
  {
  }

  lemma {:induction false} GenerationTellsTheState(e: Engine, calls: seq<Call>)
    ensures PerformAll(e, calls).generation >= e.generation
    ensures PerformAll(e, calls).generation == e.generation ==> PerformAll(e, calls) == e
    decreases |calls|
  {
    if calls != [] {
      ChangeMovesTheGeneration(e, calls[0]);
      GenerationTellsTheState(Perform(e, calls[0]), calls[1..]);
    }
  }

  lemma {:induction false} PruningTwice(temporary: seq<Marker>, now: int)
    ensures Unexpired(Unexpired(temporary, now), now) == Unexpired(temporary, now)
  {
    if temporary != [] {
      PruningTwice(temporary[1..], now);
      assert temporary[0].expiresAt > now ==>
               ([temporary[0]] + Unexpired(temporary[1..], now))[1..] == Unexpired(temporary[1..], now);
    }
  }

  lemma SnapshotTwice(e: Engine, now: int)
    ensures Snapshot(Snapshot(e, now), now) == Snapshot(e, now)
  {
    PruningTwice(e.temporary, now);
  }

  lemma AllowedMeansOpen(e: Engine, operation: Operation, context: Context, oracles: Oracles)
    requires Evaluate(e, operation, context, oracles).allowed
    ensures e.healthy && !e.privacyMode && !e.sessionLocked
    ensures Evaluate(e, operation, context, oracles).revision == e.revision
    ensures Evaluate(e, operation, context, oracles).generation == e.generation
  {
  }

  // An authorization is current after a run exactly when the engine is, to the last
  // field, the one that issued it; evaluating the original request again then allows
  // it under the same generation. There is no ABA: a state that was left and
  // restored has another generation.
  lemma CurrentMeansUnchanged(e: Engine, operation: Operation, phase: Phase, context: Context, oracles: Oracles,
                              calls: seq<Call>, captureGeneration: Option<int>)
    requires Authorize(e, operation, phase, context, oracles).Ok?
    ensures var a := Authorize(e, operation, phase, context, oracles).value;
            var issued := Snapshot(e, context.evaluatedAt);
            var now := PerformAll(issued, calls);
            && (IsCurrent(now, a, captureGeneration) <==>
                  now == issued && (captureGeneration.None? || captureGeneration.value == context.captureGeneration))
            && (IsCurrent(now, a, captureGeneration) ==>
                  Authorize(now, operation, phase, context, oracles) == Ok(a))
  {
    var issued := Snapshot(e, context.evaluatedAt);
    AllowedMeansOpen(issued, operation, context, oracles);
    GenerationTellsTheState(issued, calls);
    SnapshotTwice(e, context.evaluatedAt);
  }

  // ---------- markers ----------

  // The call does not end the life of a marker of this scope that expires then.
  predicate KeepsMarker(call: Call, scope: Scope, expiresAt: int) {
    match call
    case EvaluateCall(_, context) => context.evaluatedAt < expiresAt
    case PrivacyCall(active) => !active
    case LockCall(locked) => !locked
    case MarkCall(other, _, _) => other != scope
    case ClearCall(other) => other.Some? && other.value != scope
    case ReplaceCall(configuration, revision) => configuration.None? || Blank(revision)
  }

  lemma {:induction false} RetainedMembers(temporary: seq<Marker>, scope: Scope, m: Marker)
    ensures m in Retained(temporary, scope) <==> m in temporary && m.scope != scope
  {
    if temporary != [] {
      RetainedMembers(temporary[1..], scope, m);
      assert temporary == [temporary[0]] + temporary[1..];
    }
  }

  lemma {:induction false} UnexpiredMembers(temporary: seq<Marker>, now: int, m: Marker)
    ensures m in Unexpired(temporary, now) <==> m in temporary && m.expiresAt > now
  {
    if temporary != [] {
      UnexpiredMembers(temporary[1..], now, m);
      assert temporary == [temporary[0]] + temporary[1..];
    }
  }

  lemma MarkerSurvives(e: Engine, call: Call, m: Marker)
    requires m in e.temporary && KeepsMarker(call, m.scope, m.expiresAt)
    ensures m in Perform(e, call).temporary
  {
    match call {
      case EvaluateCall(_, context) => UnexpiredMembers(e.temporary, context.evaluatedAt, m);
      case MarkCall(other, _, _) => RetainedMembers(e.temporary, other, m);
      case ClearCall(other) =>
        if other.Some? {
          RetainedMembers(e.temporary, other.value, m);
        }
      case _ =>
    }
  }

  lemma {:induction false} MarkerSurvivesAll(e: Engine, calls: seq<Call>, m: Marker)
    requires m in e.temporary && forall i :: 0 <= i < |calls| ==> KeepsMarker(calls[i], m.scope, m.expiresAt)
    ensures m in PerformAll(e, calls).temporary
    decreases |calls|
  {
    if calls != [] {
      assert KeepsMarker(calls[0], m.scope, m.expiresAt);
      MarkerSurvives(e, calls[0], m);
      MarkerSurvivesAll(Perform(e, calls[0]), calls[1..], m);
    }
  }

  lemma {:induction false} CoveredIsReported(temporary: seq<Marker>, context: Context)
    ensures TemporaryReason(temporary, context).Some? <==> exists m :: m in temporary && Covers(m, context)
  {
    if temporary != [] {
      CoveredIsReported(temporary[1..], context);
      assert temporary == [temporary[0]] + temporary[1..];
    }
  }

  lemma CoveredIsDenied(e: Engine, m: Marker, operation: Operation, context: Context, oracles: Oracles)
    requires m in e.temporary && Covers(m, context)
    ensures !Evaluate(e, operation, context, oracles).allowed
  {
    CoveredIsReported(e.temporary, context);
  }

  // From the moment a context is marked sensitive until it expires, no request of the
  // same capture generation in that window or workspace is allowed, whatever else
  // happens short of clearing the marker, replacing the policy or closing the session.
  lemma MarkedContextsStayDenied(e: Engine, scope: Scope, marked: Context, ttl: int, calls: seq<Call>,
                                 operation: Operation, context: Context, oracles: Oracles)
    requires LifetimeOk(ttl) && ScopeValue(scope, marked).Some?
    requires forall i :: 0 <= i < |calls| ==> KeepsMarker(calls[i], scope, marked.evaluatedAt + ttl)
    requires context.captureGeneration == marked.captureGeneration && ScopeValue(scope, context) == ScopeValue(scope, marked)
    requires context.evaluatedAt < marked.evaluatedAt + ttl
    ensures var now := PerformAll(MarkCurrentSensitive(e, scope, marked, ttl), calls);
            !Evaluate(Snapshot(now, context.evaluatedAt), operation, context, oracles).allowed
  {
    hide Evaluate;
    var m := Marker(scope, ScopeValue(scope, marked).value, marked.evaluatedAt + ttl, marked.captureGeneration);
    var e1 := MarkCurrentSensitive(e, scope, marked, ttl);
    assert e1.temporary[|e1.temporary| - 1] == m;
    MarkerSurvivesAll(e1, calls, m);
    var now := PerformAll(e1, calls);
    UnexpiredMembers(now.temporary, context.evaluatedAt, m);
    CoveredIsDenied(Snapshot(now, context.evaluatedAt), m, operation, context, oracles);
  }

  // ---------- the order of the rules ----------

  predicate SameRules(a: seq<Rule>, b: seq<Rule>) {
    (forall r :: r in a ==> r in b) && (forall r :: r in b ==> r in a)
  }

  lemma {:induction false} UncertainIff(rules: seq<Rule>, operation: Operation, context: Context, oracles: Oracles)
    ensures FirstUncertain(rules, operation, context, oracles).Some?
            <==> exists r :: r in rules && Uncertain(r, operation, context, oracles)
  {
    if rules != [] {
      UncertainIff(rules[1..], operation, context, oracles);
      assert rules == [rules[0]] + rules[1..];
    }
  }

  lemma {:induction false} DecidingMembers(rules: seq<Rule>, operation: Operation, context: Context, oracles: Oracles,
                                           effect: Effect, r: Rule)
    ensures r in Deciding(rules, operation, context, oracles, effect)
            <==> r in rules && Decides(r, operation, context, oracles, effect)
  {
    if rules != [] {
      DecidingMembers(rules[1..], operation, context, oracles, effect, r);
      assert rules == [rules[0]] + rules[1..];
    }
  }

  lemma {:induction false} StrongestIsStrongest(rules: seq<Rule>)
    requires rules != []
    ensures Strongest(rules) in rules
    ensures forall r :: r in rules ==> Stronger(Strongest(rules), r)
  {
    if |rules| > 1 {
      StrongestIsStrongest(rules[1..]);
      assert rules == [rules[0]] + rules[1..];
    }
  }

  lemma StrongestOfSame(a: seq<Rule>, b: seq<Rule>)
    requires SameRules(a, b)
    ensures a == [] <==> b == []
    ensures a != [] ==> b != [] && Strongest(a).id == Strongest(b).id
  {
    if a != [] {
      assert a[0] in b;
    }
    if b != [] {
      assert b[0] in a;
      StrongestIsStrongest(a);
      StrongestIsStrongest(b);
    }
  }

  // The verdict does not depend on the order of the rules or on repetitions: two
  // engines with the same rules agree on whether a request is allowed and on
  // whether that is certain, and a certain decision is the same in every field.
  lemma OrderOfRulesIsIrrelevant(e: Engine, rules: seq<Rule>, operation: Operation, context: Context, oracles: Oracles)
    requires SameRules(e.configuration.rules, rules)
    requires oracles.builtin(e.configuration.(rules := rules), context) == oracles.builtin(e.configuration, context)
    ensures var d1 := Evaluate(e, operation, context, oracles);
            var d2 := Evaluate(e.(configuration := e.configuration.(rules := rules)), operation, context, oracles);
            && d1.allowed == d2.allowed && d1.certain == d2.certain
            && (d1.certain ==> d1 == d2)
  {
    var mine := e.configuration.rules;
    UncertainIff(mine, operation, context, oracles);
    UncertainIff(rules, operation, context, oracles);
    SameDeciders(mine, rules, operation, context, oracles, Deny);
    SameDeciders(mine, rules, operation, context, oracles, Allow);
  }

  lemma SameDeciders(a: seq<Rule>, b: seq<Rule>, operation: Operation, context: Context, oracles: Oracles, effect: Effect)
    requires SameRules(a, b)
    ensures var x := Deciding(a, operation, context, oracles, effect);
            var y := Deciding(b, operation, context, oracles, effect);
            && (x == [] <==> y == [])
            && (x != [] ==> y != [] && Strongest(x).id == Strongest(y).id)
  {
    var x := Deciding(a, operation, context, oracles, effect);
    var y := Deciding(b, operation, context, oracles, effect);
    forall r ensures r in x <==> r in y {
      DecidingMembers(a, operation, context, oracles, effect, r);
      DecidingMembers(b, operation, context, oracles, effect, r);
    }
    StrongestOfSame(x, y);
  }

  // The engine is open and the request's context and operation are acceptable.
  predicate Admissible(e: Engine, operation: Operation, context: Context) {
    && e.healthy && !e.privacyMode && !e.sessionLocked
    && (CaptureSensitive(operation) ==> ContextFailure(e, context).None?)
    && (operation == RemoteProvider ==> e.configuration.remoteAuthorized)
  }

  // A request is allowed exactly when it is admissible, every rule that concerns it can
  // be judged, none denies it, no marker and no built-in entry covers it, and a rule
  // or the default allows it.
  lemma AllowedExactly(e: Engine, operation: Operation, context: Context, oracles: Oracles)
    ensures Evaluate(e, operation, context, oracles).allowed <==>
            && Admissible(e, operation, context)
            && (forall r :: r in e.configuration.rules ==>
                  !Uncertain(r, operation, context, oracles) && !Decides(r, operation, context, oracles, Deny))
            && (forall m :: m in e.temporary ==> !Covers(m, context))
            && oracles.builtin(e.configuration, context).None?
            && (e.configuration.defaultEffect == Allow
                || exists r :: r in e.configuration.rules && Decides(r, operation, context, oracles, Allow))
    ensures Evaluate(e, operation, context, oracles).allowed ==> Evaluate(e, operation, context, oracles).certain
  {
    UncertainIff(e.configuration.rules, operation, context, oracles);
    DecidingIff(e.configuration.rules, operation, context, oracles, Deny);
    DecidingIff(e.configuration.rules, operation, context, oracles, Allow);
    CoveredIsReported(e.temporary, context);
  }

  lemma DecidingIff(rules: seq<Rule>, operation: Operation, context: Context, oracles: Oracles, effect: Effect)
    ensures Deciding(rules, operation, context, oracles, effect) != []
            <==> exists r :: r in rules && Decides(r, operation, context, oracles, effect)
  {
    var deciding := Deciding(rules, operation, context, oracles, effect);
    if deciding != [] {
      DecidingMembers(rules, operation, context, oracles, effect, deciding[0]);
    }
    if r :| r in rules && Decides(r, operation, context, oracles, effect) {
      DecidingMembers(rules, operation, context, oracles, effect, r);
    }
  }
}
