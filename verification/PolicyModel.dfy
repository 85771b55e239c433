/**
 The policy engine as a value: its mutators, the snapshot that prunes expired
 markers, and the evaluation of one request. Text matching, the built-in lists and
 time zones are foreign: a judge decides each condition of a rule.
 */
module PolicyModel {
  import opened Wrappers

  datatype Operation = Screenshot | Ocr | Indexing | Summarization | RemoteProvider | OtherOperation

  datatype Phase = Phase(name: string)

  datatype Effect = Allow | Deny

  datatype Match = Matches | NoMatch | Unknown | Malformed

  // Rule identifiers order like numbers.
  datatype RuleId = Named(id: nat) | Builtin(name: string)

  datatype Condition = Condition(token: int)

  datatype Rule = Rule(id: nat, enabled: bool, operations: set<Operation>, effect: Effect, priority: int,
                       conditions: seq<Condition>)

  datatype Configuration = Configuration(rules: seq<Rule>, defaultEffect: Effect, maxMetadataAge: int,
                                         remoteAuthorized: bool, detail: int)

  datatype Scope = Window | Workspace

  // `detail` stands for the metadata only the judge looks at.
  datatype Context = Context(window: Option<string>, workspace: Option<string>, hasFields: bool, malformed: bool,
                             observedAt: int, evaluatedAt: int, captureGeneration: int, detail: int)

  datatype Marker = Marker(scope: Scope, value: string, expiresAt: int, captureGeneration: int)

  datatype Engine = Engine(configuration: Configuration, revision: string, generation: nat,
                           privacyMode: bool, sessionLocked: bool, healthy: bool, temporary: seq<Marker>)

  datatype Reason =
    | PolicyUnavailable | PrivacyModeActive | SessionIsLocked | SourceUnavailable | StaleContext | MalformedContext
    | RequiredContextMissing | RemoteNotAuthorized | ExplicitRuleDeny | ExplicitRuleAllow
    | TemporarySensitiveWindow | TemporarySensitiveWorkspace | BuiltinSensitive(what: int)
    | DefaultAllow | DefaultDeny

  datatype Decision = Decision(allowed: bool, certain: bool, reason: Reason, ruleId: Option<RuleId>,
                               revision: string, generation: nat)

  datatype Authorization = Authorization(operation: Operation, phase: Phase, revision: string, generation: nat,
                                         captureGeneration: int)

  datatype Oracles = Oracles(judge: (Condition, Context) -> Match,
                             builtin: (Configuration, Context) -> Option<(int, string)>)

  function Initial(configuration: Configuration, revision: string): Engine {
    Engine(configuration, revision, 1, false, false, true, [])
  }

  // ---------- mutators ----------

  function Bumped(e: Engine): Engine {
    e.(generation := e.generation + 1)
  }

  function SetPrivacyMode(e: Engine, active: bool): Engine {
    if e.privacyMode == active then e
    else Bumped(e).(privacyMode := active, temporary := if active then [] else e.temporary)
  }

  function SetSessionLocked(e: Engine, locked: bool): Engine {
    if e.sessionLocked == locked then e
    else Bumped(e).(sessionLocked := locked, temporary := if locked then [] else e.temporary)
  }

  function ScopeValue(scope: Scope, context: Context): Option<string> {
    if scope == Window then context.window else context.workspace
  }

  // The markers of other scopes.
  function Retained(temporary: seq<Marker>, scope: Scope): seq<Marker> {
    if temporary == [] then []
    else if temporary[0].scope != scope then [temporary[0]] + Retained(temporary[1..], scope)
    else Retained(temporary[1..], scope)
  }

  datatype PolicyError = BadLifetime | ContextUnavailable | InvalidPolicy | EmptyRevision | Denied(decision: Decision)

  predicate LifetimeOk(ttl: int) {
    1 <= ttl <= 86_400
  }

  // Returns the engine unchanged where the source raises.
  function MarkCurrentSensitive(e: Engine, scope: Scope, context: Context, ttl: int): Engine {
    if !LifetimeOk(ttl) || ScopeValue(scope, context).None? then e
    else
      var marker := Marker(scope, ScopeValue(scope, context).value, context.evaluatedAt + ttl, context.captureGeneration);
      Bumped(e).(temporary := Retained(e.temporary, scope) + [marker])
  }

  function ClearTemporary(e: Engine, scope: Option<Scope>): Engine {
    var retained := if scope.None? then [] else Retained(e.temporary, scope.value);
    if retained == e.temporary then e else Bumped(e).(temporary := retained)
  }

  // The characters that stripping a text removes.
  predicate Space(c: char) {
    var n := c as int;
    || 9 <= n <= 13 || 28 <= n <= 32 || n == 0x85 || n == 0xA0 || n == 0x1680 || 0x2000 <= n <= 0x200A
    || n == 0x2028 || n == 0x2029 || n == 0x202F || n == 0x205F || n == 0x3000
  }

  predicate Blank(s: string) {
    forall c :: c in s ==> Space(c)
  }

  // A configuration that does not compile makes the engine unhealthy; a blank revision
  // is refused before anything changes.
  function ReplacePolicy(e: Engine, configuration: Option<Configuration>, revision: string): Engine {
    if Blank(revision) then e
    else if configuration.None? then Bumped(e).(healthy := false)
    else Bumped(e).(configuration := configuration.value, revision := revision, temporary := [], healthy := true)
  }

  // ---------- the snapshot ----------

  function Unexpired(temporary: seq<Marker>, now: int): seq<Marker> {
    if temporary == [] then []
    else if temporary[0].expiresAt > now then [temporary[0]] + Unexpired(temporary[1..], now)
    else Unexpired(temporary[1..], now)
  }

  // Pruning is a change of its own.
  function Snapshot(e: Engine, now: int): Engine {
    var temporary := Unexpired(e.temporary, now);
    if temporary == e.temporary then e else Bumped(e).(temporary := temporary)
  }

  // ---------- evaluation ----------

  function Allowing(e: Engine, reason: Reason, ruleId: Option<RuleId>): Decision {
    Decision(true, true, reason, ruleId, e.revision, e.generation)
  }

  function Denying(e: Engine, certain: bool, reason: Reason, ruleId: Option<RuleId>): Decision {
    Decision(false, certain, reason, ruleId, e.revision, e.generation)
  }

  function ContextFailure(e: Engine, context: Context): Option<Reason> {
    if !context.hasFields then Some(SourceUnavailable)
    else if context.evaluatedAt < context.observedAt
         || context.evaluatedAt - context.observedAt > e.configuration.maxMetadataAge then Some(StaleContext)
    else if context.malformed then Some(MalformedContext)
    else None
  }

  predicate CaptureSensitive(operation: Operation) {
    operation != OtherOperation
  }

  function Judged(rule: Rule, context: Context, oracles: Oracles): seq<Match> {
    seq(|rule.conditions|, i requires 0 <= i < |rule.conditions| => oracles.judge(rule.conditions[i], context))
  }

  // Malformed data outranks a mismatch, and a mismatch outranks missing data.
  function MatchRule(rule: Rule, context: Context, oracles: Oracles): Match {
    var matches := Judged(rule, context, oracles);
    if Malformed in matches then Malformed
    else if NoMatch in matches then NoMatch
    else if Unknown in matches then Unknown
    else Matches
  }

  predicate Concerns(rule: Rule, operation: Operation) {
    rule.enabled && operation in rule.operations
  }

  predicate Uncertain(rule: Rule, operation: Operation, context: Context, oracles: Oracles) {
    && Concerns(rule, operation)
    && (MatchRule(rule, context, oracles) == Malformed || MatchRule(rule, context, oracles) == Unknown)
  }

  predicate Decides(rule: Rule, operation: Operation, context: Context, oracles: Oracles, effect: Effect) {
    Concerns(rule, operation) && MatchRule(rule, context, oracles) == Matches && rule.effect == effect
  }

  // The first rule that cannot be judged ends the evaluation.
  function FirstUncertain(rules: seq<Rule>, operation: Operation, context: Context, oracles: Oracles): Option<Rule> {
    if rules == [] then None
    else if Uncertain(rules[0], operation, context, oracles) then Some(rules[0])
    else FirstUncertain(rules[1..], operation, context, oracles)
  }

  function Deciding(rules: seq<Rule>, operation: Operation, context: Context, oracles: Oracles, effect: Effect): seq<Rule> {
    if rules == [] then []
    else
      var rest := Deciding(rules[1..], operation, context, oracles, effect);
      if Decides(rules[0], operation, context, oracles, effect) then [rules[0]] + rest else rest
  }

  predicate Stronger(a: Rule, b: Rule) {
    a.priority > b.priority || (a.priority == b.priority && a.id <= b.id)
  }

  function Strongest(rules: seq<Rule>): Rule
    requires rules != []
  {
    if |rules| == 1 then rules[0]
    else
      var rest := Strongest(rules[1..]);
      if Stronger(rules[0], rest) then rules[0] else rest
  }

  function TemporaryReason(temporary: seq<Marker>, context: Context): Option<Reason> {
    if temporary == [] then None
    else if Covers(temporary[0], context) then
      Some(if temporary[0].scope == Window then TemporarySensitiveWindow else TemporarySensitiveWorkspace)
    else TemporaryReason(temporary[1..], context)
  }

  predicate Covers(marker: Marker, context: Context) {
    marker.captureGeneration == context.captureGeneration && ScopeValue(marker.scope, context) == Some(marker.value)
  }

  function UncertainDenial(e: Engine, rule: Rule, context: Context, oracles: Oracles): Decision {
    Denying(e, false, if MatchRule(rule, context, oracles) == Malformed then MalformedContext else RequiredContextMissing,
            Some(Named(rule.id)))
  }

  // The part of the evaluation that looks at the rules.
  function EvaluateRules(e: Engine, operation: Operation, context: Context, oracles: Oracles): Decision {
    var rules := e.configuration.rules;
    var uncertain := FirstUncertain(rules, operation, context, oracles);
    if uncertain.Some? then UncertainDenial(e, uncertain.value, context, oracles)
    else Settle(e, Deciding(rules, operation, context, oracles, Deny), Deciding(rules, operation, context, oracles, Allow),
                context, oracles)
  }

  // What the matched rules, the markers, the built-in lists and the default settle.
  function Settle(e: Engine, denies: seq<Rule>, allows: seq<Rule>, context: Context, oracles: Oracles): Decision {
    if denies != [] then Denying(e, true, ExplicitRuleDeny, Some(Named(Strongest(denies).id)))
    else if TemporaryReason(e.temporary, context).Some? then
      Denying(e, true, TemporaryReason(e.temporary, context).value, None)
    else if oracles.builtin(e.configuration, context).Some? then
      var found := oracles.builtin(e.configuration, context).value;
      Denying(e, true, BuiltinSensitive(found.0), Some(Builtin(found.1)))
    else if allows != [] then Allowing(e, ExplicitRuleAllow, Some(Named(Strongest(allows).id)))
    else if e.configuration.defaultEffect == Allow then Allowing(e, DefaultAllow, None)
    else Denying(e, true, DefaultDeny, None)
  }

  // The evaluation of a snapshot.
  function Evaluate(e: Engine, operation: Operation, context: Context, oracles: Oracles): Decision {
    if !e.healthy then Denying(e, true, PolicyUnavailable, None)
    else if e.privacyMode then Denying(e, true, PrivacyModeActive, None)
    else if e.sessionLocked then Denying(e, true, SessionIsLocked, None)
    else if CaptureSensitive(operation) && ContextFailure(e, context).Some? then
      Denying(e, false, ContextFailure(e, context).value, None)
    else if operation == RemoteProvider && !e.configuration.remoteAuthorized then
      Denying(e, true, RemoteNotAuthorized, None)
    else EvaluateRules(e, operation, context, oracles)
  }

  // ---------- authorizations ----------

  function Authorize(e: Engine, operation: Operation, phase: Phase, context: Context, oracles: Oracles)
    : Result<Authorization, PolicyError>
  {
    var snapshot := Snapshot(e, context.evaluatedAt);
    var decision := Evaluate(snapshot, operation, context, oracles);
    if !decision.allowed || !decision.certain then Err(Denied(decision))
    else Ok(Authorization(operation, phase, decision.revision, decision.generation, context.captureGeneration))
  }

  predicate IsCurrent(e: Engine, a: Authorization, captureGeneration: Option<int>) {
    && !e.privacyMode && !e.sessionLocked && e.healthy
    && a.revision == e.revision && a.generation == e.generation
    && (captureGeneration.None? || a.captureGeneration == captureGeneration.value)
  }
}
