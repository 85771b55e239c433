/**
 The policy engine said outright, down to what the judge answers for each condition of each
 rule: when a request is allowed, for which reason it is decided, and what every mutator
 leaves in every field.
 */
module PolicyOutcomes {
  import opened Wrappers
  import opened PolicyModel
  import opened PolicyTheorems

  // ---------- one rule ----------

  // Some condition of the rule is answered like this.
  predicate SomeAnswer(rule: Rule, context: Context, oracles: Oracles, answer: Match) {
    exists i :: 0 <= i < |rule.conditions| && oracles.judge(rule.conditions[i], context) == answer
  }

  predicate EveryConditionMatches(rule: Rule, context: Context, oracles: Oracles) {
    forall i :: 0 <= i < |rule.conditions| ==> oracles.judge(rule.conditions[i], context) == Matches
  }

  // A rule cannot be judged when a condition is malformed, or when none says no and some is
  // unknown.
  predicate CannotBeJudged(rule: Rule, context: Context, oracles: Oracles) {
    || SomeAnswer(rule, context, oracles, Malformed)
    || (!SomeAnswer(rule, context, oracles, NoMatch) && SomeAnswer(rule, context, oracles, Unknown))
  }

  lemma AnswerIsJudged(rule: Rule, context: Context, oracles: Oracles, answer: Match)
    ensures answer in Judged(rule, context, oracles) <==> SomeAnswer(rule, context, oracles, answer)
  {
    var matches := Judged(rule, context, oracles);
    if i :| 0 <= i < |rule.conditions| && oracles.judge(rule.conditions[i], context) == answer {
      assert matches[i] == answer;
    }
  }

  // Malformed data outranks a mismatch, and a mismatch outranks missing data.
  lemma RuleIsMatched(rule: Rule, context: Context, oracles: Oracles)
    ensures MatchRule(rule, context, oracles)
         == if SomeAnswer(rule, context, oracles, Malformed) then Malformed
            else if SomeAnswer(rule, context, oracles, NoMatch) then NoMatch
            else if SomeAnswer(rule, context, oracles, Unknown) then Unknown
            else Matches
    ensures MatchRule(rule, context, oracles) == Matches <==> EveryConditionMatches(rule, context, oracles)
  {
    hide Judged, SomeAnswer;
    AnswerIsJudged(rule, context, oracles, Malformed);
    AnswerIsJudged(rule, context, oracles, NoMatch);
    AnswerIsJudged(rule, context, oracles, Unknown);
    NothingElse(rule, context, oracles);
  }

  lemma NothingElse(rule: Rule, context: Context, oracles: Oracles)
    ensures EveryConditionMatches(rule, context, oracles)
            <==> !SomeAnswer(rule, context, oracles, Malformed) && !SomeAnswer(rule, context, oracles, NoMatch)
                 && !SomeAnswer(rule, context, oracles, Unknown)
  {
    if !EveryConditionMatches(rule, context, oracles) {
      var i :| 0 <= i < |rule.conditions| && oracles.judge(rule.conditions[i], context) != Matches;
      assert SomeAnswer(rule, context, oracles, oracles.judge(rule.conditions[i], context));
    }
  }

  // The rule is switched on and speaks of this operation.
  predicate Speaks(rule: Rule, operation: Operation) {
    rule.enabled && operation in rule.operations
  }

  predicate Blind(rule: Rule, operation: Operation, context: Context, oracles: Oracles) {
    Speaks(rule, operation) && CannotBeJudged(rule, context, oracles)
  }

  predicate Says(rule: Rule, operation: Operation, context: Context, oracles: Oracles, effect: Effect) {
    Speaks(rule, operation) && EveryConditionMatches(rule, context, oracles) && rule.effect == effect
  }

  lemma RuleSays(rule: Rule, operation: Operation, context: Context, oracles: Oracles, effect: Effect)
    ensures Uncertain(rule, operation, context, oracles) <==> Blind(rule, operation, context, oracles)
    ensures Decides(rule, operation, context, oracles, effect) <==> Says(rule, operation, context, oracles, effect)
  {
    hide MatchRule, SomeAnswer, EveryConditionMatches;
    RuleIsMatched(rule, context, oracles);
  }

  // ---------- the request ----------

  // The metadata is there, well formed, not from the future and not too old.
  predicate FreshContext(e: Engine, context: Context) {
    && context.hasFields && !context.malformed
    && context.observedAt <= context.evaluatedAt <= context.observedAt + e.configuration.maxMetadataAge
  }

  predicate OpenFor(e: Engine, operation: Operation, context: Context) {
    && e.healthy && !e.privacyMode && !e.sessionLocked
    && (operation == OtherOperation || FreshContext(e, context))
    && (operation == RemoteProvider ==> e.configuration.remoteAuthorized)
  }

  // A marker of this capture generation names the window or the workspace.
  predicate Marks(m: Marker, context: Context) {
    && m.captureGeneration == context.captureGeneration
    && (m.scope == Window ==> context.window == Some(m.value))
    && (m.scope == Workspace ==> context.workspace == Some(m.value))
  }

  // Allowed means: open, every rule that speaks of it can be judged and none denies it, no
  // marker and no built-in entry names it, and a rule or the default allows it.
  lemma AllowedOutright(e: Engine, operation: Operation, context: Context, oracles: Oracles)
    ensures Evaluate(e, operation, context, oracles).allowed <==>
            && OpenFor(e, operation, context)
            && (forall i :: 0 <= i < |e.configuration.rules| ==>
                  && !Blind(e.configuration.rules[i], operation, context, oracles)
                  && !Says(e.configuration.rules[i], operation, context, oracles, Deny))
            && (forall i :: 0 <= i < |e.temporary| ==> !Marks(e.temporary[i], context))
            && oracles.builtin(e.configuration, context).None?
            && (e.configuration.defaultEffect == Allow
                || exists i :: 0 <= i < |e.configuration.rules| && Says(e.configuration.rules[i], operation, context, oracles, Allow))
  {
    hide Evaluate, Blind, Says, Uncertain, Decides, Covers, Marks;
    AllowedExactly(e, operation, context, oracles);
    RulesAgree(e.configuration.rules, operation, context, oracles, Deny);
    RulesAgree(e.configuration.rules, operation, context, oracles, Allow);
    MarkersAgree(e.temporary, context);
  }

  lemma RulesAgree(rules: seq<Rule>, operation: Operation, context: Context, oracles: Oracles, effect: Effect)
    ensures (exists r :: r in rules && Decides(r, operation, context, oracles, effect))
            <==> exists i :: 0 <= i < |rules| && Says(rules[i], operation, context, oracles, effect)
    ensures (exists r :: r in rules && Uncertain(r, operation, context, oracles))
            <==> exists i :: 0 <= i < |rules| && Blind(rules[i], operation, context, oracles)
  {
    hide Blind, Says, Uncertain, Decides;
    forall r ensures Uncertain(r, operation, context, oracles) <==> Blind(r, operation, context, oracles) {
      RuleSays(r, operation, context, oracles, effect);
    }
    forall r ensures Decides(r, operation, context, oracles, effect) <==> Says(r, operation, context, oracles, effect) {
      RuleSays(r, operation, context, oracles, effect);
    }
  }

  lemma MarkersAgree(temporary: seq<Marker>, context: Context)
    ensures (exists m :: m in temporary && Covers(m, context)) <==> exists i :: 0 <= i < |temporary| && Marks(temporary[i], context)
  {
    forall m ensures Covers(m, context) <==> Marks(m, context) {
    }
  }

  // ---------- the reasons ----------

  // The rule, among those that say this, with the highest priority and then the smallest
  // identifier.
  predicate Speaker(rules: seq<Rule>, operation: Operation, context: Context, oracles: Oracles, effect: Effect, id: nat) {
    exists i ::
      && 0 <= i < |rules| && rules[i].id == id && Says(rules[i], operation, context, oracles, effect)
      && forall j :: 0 <= j < |rules| && Says(rules[j], operation, context, oracles, effect) ==>
           rules[i].priority > rules[j].priority || (rules[i].priority == rules[j].priority && id <= rules[j].id)
  }

  predicate SomeSays(rules: seq<Rule>, operation: Operation, context: Context, oracles: Oracles, effect: Effect) {
    exists i :: 0 <= i < |rules| && Says(rules[i], operation, context, oracles, effect)
  }

  // The first rule that cannot be judged.
  predicate FirstBlind(rules: seq<Rule>, operation: Operation, context: Context, oracles: Oracles, i: nat) {
    && i < |rules| && Blind(rules[i], operation, context, oracles)
    && forall j :: 0 <= j < i ==> !Blind(rules[j], operation, context, oracles)
  }

  lemma {:induction false} FirstUncertainIsFirst(rules: seq<Rule>, operation: Operation, context: Context, oracles: Oracles)
    returns (i: nat)
    ensures FirstUncertain(rules, operation, context, oracles).Some? ==>
              FirstBlind(rules, operation, context, oracles, i)
              && FirstUncertain(rules, operation, context, oracles).value == rules[i]
    ensures FirstUncertain(rules, operation, context, oracles).None? ==>
              forall j :: 0 <= j < |rules| ==> !Blind(rules[j], operation, context, oracles)
  {
    hide Blind, Uncertain;
    i := 0;
    if rules != [] {
      RuleSays(rules[0], operation, context, oracles, Allow);
      if !Uncertain(rules[0], operation, context, oracles) {
        var k := FirstUncertainIsFirst(rules[1..], operation, context, oracles);
        i := k + 1;
        assert forall j :: 0 < j < |rules| ==> rules[j] == rules[1..][j - 1];
      }
    }
  }

  lemma StrongestSpeaks(rules: seq<Rule>, operation: Operation, context: Context, oracles: Oracles, effect: Effect)
    ensures Deciding(rules, operation, context, oracles, effect) != [] <==> SomeSays(rules, operation, context, oracles, effect)
    ensures Deciding(rules, operation, context, oracles, effect) != [] ==>
              Speaker(rules, operation, context, oracles, effect,
                      Strongest(Deciding(rules, operation, context, oracles, effect)).id)
  {
    hide Says, Decides;
    var deciding := Deciding(rules, operation, context, oracles, effect);
    forall r ensures r in deciding <==> r in rules && Says(r, operation, context, oracles, effect) {
      DecidingMembers(rules, operation, context, oracles, effect, r);
      RuleSays(r, operation, context, oracles, effect);
    }
    if deciding != [] {
      StrongestIsStrongest(deciding);
      assert deciding[0] in deciding;
      var strongest := Strongest(deciding);
      var i :| 0 <= i < |rules| && rules[i] == strongest;
      forall j | 0 <= j < |rules| && Says(rules[j], operation, context, oracles, effect)
        ensures rules[i].priority > rules[j].priority
                || (rules[i].priority == rules[j].priority && strongest.id <= rules[j].id)
      {
        assert rules[j] in deciding;
      }
    }
    if i :| 0 <= i < |rules| && Says(rules[i], operation, context, oracles, effect) {
      assert rules[i] in deciding;
    }
  }

  predicate Denies(d: Decision, certain: bool, reason: Reason, ruleId: Option<RuleId>) {
    !d.allowed && d.certain == certain && d.reason == reason && d.ruleId == ruleId
  }

  predicate Allows(d: Decision, reason: Reason, ruleId: Option<RuleId>) {
    d.allowed && d.certain && d.reason == reason && d.ruleId == ruleId
  }

  // What comes before the rules, in order.
  lemma ClosedReasons(e: Engine, operation: Operation, context: Context, oracles: Oracles)
    ensures var d := Evaluate(e, operation, context, oracles);
            && d.revision == e.revision && d.generation == e.generation
            && if !e.healthy then Denies(d, true, PolicyUnavailable, None)
               else if e.privacyMode then Denies(d, true, PrivacyModeActive, None)
               else if e.sessionLocked then Denies(d, true, SessionIsLocked, None)
               else if operation != OtherOperation && !context.hasFields then Denies(d, false, SourceUnavailable, None)
               else if operation != OtherOperation
                    && !(context.observedAt <= context.evaluatedAt <= context.observedAt + e.configuration.maxMetadataAge)
               then Denies(d, false, StaleContext, None)
               else if operation != OtherOperation && context.malformed then Denies(d, false, MalformedContext, None)
               else if operation == RemoteProvider && !e.configuration.remoteAuthorized
               then Denies(d, true, RemoteNotAuthorized, None)
               else d == EvaluateRules(e, operation, context, oracles)
  {
  }

  // The first rule that cannot be judged ends the evaluation without certainty.
  lemma BlindReasons(e: Engine, operation: Operation, context: Context, oracles: Oracles, i: nat)
    requires FirstBlind(e.configuration.rules, operation, context, oracles, i)
    ensures Denies(EvaluateRules(e, operation, context, oracles), false,
                   if SomeAnswer(e.configuration.rules[i], context, oracles, Malformed) then MalformedContext else RequiredContextMissing,
                   Some(Named(e.configuration.rules[i].id)))
  {
    hide Blind, MatchRule, SomeAnswer;
    var k := FirstUncertainIsFirst(e.configuration.rules, operation, context, oracles);
    RuleIsMatched(e.configuration.rules[i], context, oracles);
  }

  // Then a denying rule, a marker, a built-in entry, an allowing rule and the default, in
  // that order; a rule is named by the strongest that says so.
  lemma SettledReasons(e: Engine, operation: Operation, context: Context, oracles: Oracles)
    requires forall i :: 0 <= i < |e.configuration.rules| ==> !Blind(e.configuration.rules[i], operation, context, oracles)
    ensures var d := EvaluateRules(e, operation, context, oracles);
            var rules := e.configuration.rules;
            if SomeSays(rules, operation, context, oracles, Deny) then
              && !d.allowed && d.certain && d.reason == ExplicitRuleDeny
              && d.ruleId.Some? && d.ruleId.value.Named? && Speaker(rules, operation, context, oracles, Deny, d.ruleId.value.id)
            else if exists i :: 0 <= i < |e.temporary| && Marks(e.temporary[i], context) then
              (Denies(d, true, TemporarySensitiveWindow, None) && exists i :: 0 <= i < |e.temporary| && Marks(e.temporary[i], context) && e.temporary[i].scope == Window)
              || (Denies(d, true, TemporarySensitiveWorkspace, None) && exists i :: 0 <= i < |e.temporary| && Marks(e.temporary[i], context) && e.temporary[i].scope == Workspace)
            else if oracles.builtin(e.configuration, context).Some? then
              var found := oracles.builtin(e.configuration, context).value;
              Denies(d, true, BuiltinSensitive(found.0), Some(Builtin(found.1)))
            else if SomeSays(rules, operation, context, oracles, Allow) then
              && d.allowed && d.certain && d.reason == ExplicitRuleAllow
              && d.ruleId.Some? && d.ruleId.value.Named? && Speaker(rules, operation, context, oracles, Allow, d.ruleId.value.id)
            else if e.configuration.defaultEffect == Allow then Allows(d, DefaultAllow, None)
            else Denies(d, true, DefaultDeny, None)
  {
    hide Blind, SomeSays, Speaker, Deciding, FirstUncertain;
    var k := FirstUncertainIsFirst(e.configuration.rules, operation, context, oracles);
    StrongestSpeaks(e.configuration.rules, operation, context, oracles, Deny);
    StrongestSpeaks(e.configuration.rules, operation, context, oracles, Allow);
    var at := MarkerSpeaks(e.temporary, context);
  }

  lemma {:induction false} MarkerSpeaks(temporary: seq<Marker>, context: Context) returns (i: nat)
    ensures TemporaryReason(temporary, context).Some? ==>
              i < |temporary| && Marks(temporary[i], context)
              && TemporaryReason(temporary, context)
                 == Some(if temporary[i].scope == Window then TemporarySensitiveWindow else TemporarySensitiveWorkspace)
    ensures TemporaryReason(temporary, context).None? ==> forall j :: 0 <= j < |temporary| ==> !Marks(temporary[j], context)
  {
    i := 0;
    if temporary != [] && !Covers(temporary[0], context) {
      var k := MarkerSpeaks(temporary[1..], context);
      i := k + 1;
      assert forall j :: 0 < j < |temporary| ==> temporary[j] == temporary[1..][j - 1];
    }
  }

  // ---------- the mutators ----------

  // Entering or leaving privacy or the lock is a change of its own, and entering forgets
  // every marker.
  lemma SwitchesAre(e: Engine, on: bool)
    ensures var p := SetPrivacyMode(e, on);
            && p.privacyMode == on && p.sessionLocked == e.sessionLocked && p.healthy == e.healthy
            && p.configuration == e.configuration && p.revision == e.revision
            && p.generation == e.generation + (if e.privacyMode != on then 1 else 0)
            && p.temporary == (if on && !e.privacyMode then [] else e.temporary)
    ensures var l := SetSessionLocked(e, on);
            && l.sessionLocked == on && l.privacyMode == e.privacyMode && l.healthy == e.healthy
            && l.configuration == e.configuration && l.revision == e.revision
            && l.generation == e.generation + (if e.sessionLocked != on then 1 else 0)
            && l.temporary == (if on && !e.sessionLocked then [] else e.temporary)
  {
  }

  // A policy that compiles replaces the old one and its revision, forgets every marker and
  // heals the engine; one that does not makes it deny everything.
  lemma ReplacementIs(e: Engine, configuration: Option<Configuration>, revision: string)
    requires exists i :: 0 <= i < |revision| && !Space(revision[i])
    ensures ReplacePolicy(e, configuration, revision)
         == if configuration.Some? then
              Engine(configuration.value, revision, e.generation + 1, e.privacyMode, e.sessionLocked, true, [])
            else
              Engine(e.configuration, e.revision, e.generation + 1, e.privacyMode, e.sessionLocked, false, e.temporary)
  {
  }

  // A mark lasts from one second to a day, replaces the one of its scope and stands last.
  lemma MarkIs(e: Engine, scope: Scope, context: Context, ttl: int)
    ensures var value := if scope == Window then context.window else context.workspace;
            MarkCurrentSensitive(e, scope, context, ttl)
            == if 1 <= ttl <= 86400 && value.Some? then
                 Engine(e.configuration, e.revision, e.generation + 1, e.privacyMode, e.sessionLocked, e.healthy,
                        Retained(e.temporary, scope)
                        + [Marker(scope, value.value, context.evaluatedAt + ttl, context.captureGeneration)])
               else e
  {
  }

  // Clearing takes out the markers of the scope, or all, and is a change exactly when
  // there were some.
  lemma ClearingIs(e: Engine, scope: Option<Scope>)
    ensures var kept := if scope.None? then [] else Retained(e.temporary, scope.value);
            ClearTemporary(e, scope)
            == Engine(e.configuration, e.revision, e.generation + (if kept != e.temporary then 1 else 0),
                      e.privacyMode, e.sessionLocked, e.healthy, kept)
  {
  }

  // A snapshot takes out what has expired, and is a change exactly when something had.
  lemma SnapshotIs(e: Engine, now: int)
    ensures var kept := Unexpired(e.temporary, now);
            Snapshot(e, now)
            == Engine(e.configuration, e.revision, e.generation + (if kept != e.temporary then 1 else 0),
                      e.privacyMode, e.sessionLocked, e.healthy, kept)
  {
  }

  // Both decide marker by marker and keep the order of what stays.
  lemma {:induction false} MarkersKeptInOrder(a: seq<Marker>, b: seq<Marker>, m: Marker, scope: Scope, now: int)
    ensures Retained(a + b, scope) == Retained(a, scope) + Retained(b, scope)
    ensures Retained([m], scope) == if m.scope != scope then [m] else []
    ensures Unexpired(a + b, now) == Unexpired(a, now) + Unexpired(b, now)
    ensures Unexpired([m], now) == if now < m.expiresAt then [m] else []
    ensures Retained([], scope) == [] && Unexpired([], now) == []
    decreases |a|
  {
    if a == [] {
      assert a + b == b;
    } else {
      assert (a + b)[0] == a[0] && (a + b)[1..] == a[1..] + b;
      MarkersKeptInOrder(a[1..], b, m, scope, now);
    }
  }

  // ---------- authorizations ----------

  // An authorization names what was asked and the pruned engine it was given under, and
  // it is current while nothing of that has changed.
  lemma AuthorizationIs(e: Engine, operation: Operation, phase: Phase, context: Context, oracles: Oracles)
    ensures var pruned := Snapshot(e, context.evaluatedAt);
            var d := Evaluate(pruned, operation, context, oracles);
            Authorize(e, operation, phase, context, oracles)
            == if d.allowed then
                 Ok(Authorization(operation, phase, pruned.revision, pruned.generation, context.captureGeneration))
               else Err(Denied(d))
  {
    hide Snapshot, MatchRule;
    AllowedIsCertain(Snapshot(e, context.evaluatedAt), operation, context, oracles);
  }

  lemma AllowedIsCertain(e: Engine, operation: Operation, context: Context, oracles: Oracles)
    ensures var d := Evaluate(e, operation, context, oracles);
            (d.allowed ==> d.certain) && d.revision == e.revision && d.generation == e.generation
  {
    hide MatchRule;
  }

  lemma CurrentIs(e: Engine, a: Authorization, captureGeneration: Option<int>)
    ensures IsCurrent(e, a, captureGeneration) <==>
            && e.healthy && !e.privacyMode && !e.sessionLocked
            && a.revision == e.revision && a.generation == e.generation
            && (captureGeneration.Some? ==> captureGeneration.value == a.captureGeneration)
  {
  }
}
