/**
 The policy engine as the object it is: fields behind a lock that its mutators and
 the snapshot update. Each method is proved to do to the object's view exactly what
 the function of the same name in PolicyModel does to the value.
 */
module PolicyEngineObject {
  import opened Wrappers
  import opened PolicyModel

  class PolicyEngine {
    const oracles: Oracles
    var configuration: Configuration
    var revision: string
    var generation: nat
    var privacyMode: bool
    var sessionLocked: bool
    var healthy: bool
    var temporary: seq<Marker>

    ghost function View(): Engine
      reads this
    {
      Engine(configuration, revision, generation, privacyMode, sessionLocked, healthy, temporary)
    }

    constructor (configuration: Configuration, revision: string, oracles: Oracles)
      ensures View() == Initial(configuration, revision) && this.oracles == oracles
    {
      this.oracles, this.configuration, this.revision := oracles, configuration, revision;
      generation, privacyMode, sessionLocked, healthy, temporary := 1, false, false, true, [];
    }

    method SetPrivacyMode(active: bool)
      modifies this`privacyMode, this`generation, this`temporary
      ensures View() == PolicyModel.SetPrivacyMode(old(View()), active)
    {
      if privacyMode == active {
        return;
      }
      privacyMode, generation := active, generation + 1;
      if active {
        temporary := [];
      }
    }

    method SetSessionLocked(locked: bool)
      modifies this`sessionLocked, this`generation, this`temporary
      ensures View() == PolicyModel.SetSessionLocked(old(View()), locked)
    {
      if sessionLocked == locked {
        return;
      }
      sessionLocked, generation := locked, generation + 1;
      if locked {
        temporary := [];
      }
    }

    method MarkCurrentSensitive(scope: Scope, context: Context, ttl: int) returns (r: Result<(), PolicyError>)
      modifies this`temporary, this`generation
      ensures View() == PolicyModel.MarkCurrentSensitive(old(View()), scope, context, ttl)
      ensures r == if !LifetimeOk(ttl) then Err(BadLifetime)
                   else if ScopeValue(scope, context).None? then Err(ContextUnavailable) else Ok(())
    {
      if !(1 <= ttl <= 86_400) {
        return Err(BadLifetime);
      }
      var value := ScopeValue(scope, context);
      if value.None? {
        return Err(ContextUnavailable);
      }
      var marker := Marker(scope, value.value, context.evaluatedAt + ttl, context.captureGeneration);
      temporary, generation := Retained(temporary, scope) + [marker], generation + 1;
      r := Ok(());
    }

    method ClearTemporarySensitive(scope: Option<Scope>)
      modifies this`temporary, this`generation
      ensures View() == ClearTemporary(old(View()), scope)
    {
      if scope.None? {
        if temporary == [] {
          return;
        }
        temporary, generation := [], generation + 1;
        return;
      }
      var retained := Retained(temporary, scope.value);
      if retained == temporary {
        return;
      }
      temporary, generation := retained, generation + 1;
    }

    method ReplacePolicy(replacement: Option<Configuration>, newRevision: string) returns (r: Result<(), PolicyError>)
      modifies this
      ensures View() == PolicyModel.ReplacePolicy(old(View()), replacement, newRevision)
      ensures r == if Blank(newRevision) then Err(EmptyRevision)
                   else if replacement.None? then Err(InvalidPolicy) else Ok(())
    {
      if Blank(newRevision) {
        return Err(EmptyRevision);
      }
      if replacement.None? {
        healthy, generation := false, generation + 1;
        return Err(InvalidPolicy);
      }
      configuration, revision, temporary := replacement.value, newRevision, [];
      healthy, generation := true, generation + 1;
      r := Ok(());
    }

    method TakeSnapshot(now: int) returns (snapshot: Engine)
      modifies this`temporary, this`generation
      ensures View() == Snapshot(old(View()), now) && snapshot == View()
    {
      var unexpired := Unexpired(temporary, now);
      if unexpired != temporary {
        temporary, generation := unexpired, generation + 1;
      }
      snapshot := Engine(configuration, revision, generation, privacyMode, sessionLocked, healthy, temporary);
    }

    // The loop over the rules, on an immutable snapshot.
    method EvaluateRules(e: Engine, operation: Operation, context: Context) returns (decision: Decision)
      ensures decision == PolicyModel.EvaluateRules(e, operation, context, oracles)
    {
      var rules := e.configuration.rules;
      var denies: seq<Rule> := [];
      var allows: seq<Rule> := [];
      var i := 0;
      while i < |rules|
        invariant i <= |rules|
        invariant FirstUncertain(rules, operation, context, oracles)
               == FirstUncertain(rules[i..], operation, context, oracles)
        invariant Deciding(rules, operation, context, oracles, Deny)
               == denies + Deciding(rules[i..], operation, context, oracles, Deny)
        invariant Deciding(rules, operation, context, oracles, Allow)
               == allows + Deciding(rules[i..], operation, context, oracles, Allow)
      {
        var rule := rules[i];
        assert rules[i..][1..] == rules[i + 1..] && rules[i..][0] == rule;
        if rule.enabled && operation in rule.operations {
          var matched := MatchRule(rule, context, oracles);
          if matched == Malformed || matched == Unknown {
            return UncertainDenial(e, rule, context, oracles);
          }
          if matched == Matches {
            if rule.effect == Deny {
              denies := denies + [rule];
            } else {
              allows := allows + [rule];
            }
          }
        }
        i := i + 1;
      }
      assert rules[i..] == [] && denies + [] == denies && allows + [] == allows;
      decision := Settle(e, denies, allows, context, oracles);
    }

    method Evaluate(operation: Operation, context: Context) returns (decision: Decision)
      modifies this`temporary, this`generation
      ensures View() == Snapshot(old(View()), context.evaluatedAt)
      ensures decision == PolicyModel.Evaluate(View(), operation, context, oracles)
    {
      var e := TakeSnapshot(context.evaluatedAt);
      if !e.healthy {
        return Denying(e, true, PolicyUnavailable, None);
      }
      if e.privacyMode {
        return Denying(e, true, PrivacyModeActive, None);
      }
      if e.sessionLocked {
        return Denying(e, true, SessionIsLocked, None);
      }
      if CaptureSensitive(operation) {
        var failure := ContextFailure(e, context);
        if failure.Some? {
          return Denying(e, false, failure.value, None);
        }
      }
      if operation == RemoteProvider && !e.configuration.remoteAuthorized {
        return Denying(e, true, RemoteNotAuthorized, None);
      }
      decision := EvaluateRules(e, operation, context);
    }

    method Authorize(operation: Operation, phase: Phase, context: Context) returns (r: Result<Authorization, PolicyError>)
      modifies this`temporary, this`generation
      ensures View() == Snapshot(old(View()), context.evaluatedAt)
      ensures r == PolicyModel.Authorize(old(View()), operation, phase, context, oracles)
    {
      var decision := Evaluate(operation, context);
      if !decision.allowed || !decision.certain {
        return Err(Denied(decision));
      }
      r := Ok(Authorization(operation, phase, decision.revision, decision.generation, context.captureGeneration));
    }

    method IsAuthorizationCurrent(a: Authorization, captureGeneration: Option<int>) returns (current: bool)
      ensures current <==> IsCurrent(View(), a, captureGeneration)
    {
      if privacyMode || sessionLocked || !healthy {
        return false;
      }
      if a.revision != revision || a.generation != generation {
        return false;
      }
      current := captureGeneration.None? || a.captureGeneration == captureGeneration.value;
    }
  }
}
