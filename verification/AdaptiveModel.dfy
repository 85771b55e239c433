/**
 Adaptive capture as a value: when a capture is due, and which frames continue the
 span of near-duplicates that is open. Cadences and thresholds are reals.
 */
module AdaptiveModel {
  import opened Wrappers

  const HASH_BITS := 64
  const NS_PER_SECOND := 1_000_000_000.0

  type Fingerprint = f: int | 0 <= f < 0x1_0000_0000_0000_0000

  datatype Context = Context(generation: int, policyRevision: string, configurationRevision: string,
                             application: Option<string>, workspace: Option<string>, windowId: Option<string>)

  predicate SameScope(a: Context, b: Context) {
    a.generation == b.generation && a.policyRevision == b.policyRevision
    && a.configurationRevision == b.configurationRevision
  }

  predicate SameKey(a: Context, b: Context) {
    a.application == b.application && a.workspace == b.workspace && a.windowId == b.windowId
  }

  datatype Controller = Controller(cadence: real, threshold: real, debounceNs: nat, maxBackoff: nat, backoff: nat,
                                   lastCaptureNs: Option<int>, lastCaptureContext: Option<Context>,
                                   pendingContext: Option<Context>, pendingSinceNs: Option<int>,
                                   dedupContext: Option<Context>, fingerprint: Option<Fingerprint>,
                                   spanCount: nat, spanStartedNs: Option<int>, spanLastSeenNs: Option<int>)

  datatype AdaptiveError =
    | BadCadence | BadThreshold | BadDebounce | BadBackoff
    | NegativeTime | TimeWentBackwards | BadFingerprint
    | TimestampMissing   // a defensive raise

  datatype Trigger = NoTrigger | Cadence | ContextChange

  datatype Decision = Accept(count: nat, startedNs: int, lastSeenNs: int)
                    | Coalesce(count: nat, startedNs: int, lastSeenNs: int)

  predicate PowerOfTwo(n: nat)
    decreases n
  {
    n == 1 || (n > 1 && n % 2 == 0 && PowerOfTwo(n / 2))
  }

  function Create(cadence: real, threshold: real, debounceSeconds: real, maxBackoff: int): Result<Controller, AdaptiveError> {
    if !(0.0 < cadence <= 3600.0) then Err(BadCadence)
    else if !(0.0 <= threshold <= 1.0) then Err(BadThreshold)
    else if !(0.0 <= debounceSeconds <= 60.0) then Err(BadDebounce)
    else if maxBackoff < 1 || maxBackoff > 64 || !PowerOfTwo(maxBackoff) then Err(BadBackoff)
    else Ok(Controller(cadence, threshold, (debounceSeconds * NS_PER_SECOND).Floor, maxBackoff, 1,
                       None, None, None, None, None, None, 0, None, None))
  }

  // ---------- when a capture is due ----------

  function EffectiveCadence(c: Controller): real {
    c.cadence * c.backoff as real
  }

  function ClearPending(c: Controller): Controller {
    c.(pendingContext := None, pendingSinceNs := None)
  }

  datatype Polled = Polled(c: Controller, result: Result<Trigger, AdaptiveError>)

  function CadenceTrigger(c: Controller, now: int): Trigger
    requires c.lastCaptureNs.Some?
  {
    if now - c.lastCaptureNs.value >= (EffectiveCadence(c) * NS_PER_SECOND).Floor then Cadence else NoTrigger
  }

  function Poll(c: Controller, context: Context, now: int): Polled {
    if now < 0 then Polled(c, Err(NegativeTime))
    else if c.lastCaptureNs.None? || c.lastCaptureContext.None? then Polled(c, Ok(Cadence))
    else if now < c.lastCaptureNs.value then Polled(c, Err(TimeWentBackwards))
    else if !SameScope(context, c.lastCaptureContext.value) then Polled(ClearPending(c), Ok(Cadence))
    else if SameKey(context, c.lastCaptureContext.value) then Polled(ClearPending(c), Ok(CadenceTrigger(c, now)))
    else if c.pendingContext.None? || !SameKey(context, c.pendingContext.value) then
      Polled(c.(pendingContext := Some(context), pendingSinceNs := Some(now)), Ok(CadenceTrigger(c, now)))
    else if c.pendingSinceNs.None? then Polled(c, Err(TimestampMissing))
    else if now < c.pendingSinceNs.value then Polled(c, Err(TimeWentBackwards))
    else if now - c.pendingSinceNs.value >= c.debounceNs then Polled(ClearPending(c), Ok(ContextChange))
    else Polled(c, Ok(CadenceTrigger(c, now)))
  }

  function ResetDedup(c: Controller): Controller {
    c.(dedupContext := None, fingerprint := None, spanCount := 0, spanStartedNs := None, spanLastSeenNs := None)
  }

  datatype Marked = Marked(c: Controller, error: Option<AdaptiveError>)

  // Whether marking a capture closes the open span.
  predicate ScopeChanged(c: Controller, context: Context) {
    c.lastCaptureContext.Some? && !SameScope(context, c.lastCaptureContext.value)
  }

  function MarkCaptureStarted(c: Controller, context: Context, now: int): Marked {
    if now < 0 then Marked(c, Some(NegativeTime))
    else if c.lastCaptureNs.Some? && now < c.lastCaptureNs.value then Marked(c, Some(TimeWentBackwards))
    else
      var c1 := if ScopeChanged(c, context) then ResetDedup(c) else c;
      Marked(ClearPending(c1.(lastCaptureContext := Some(context), lastCaptureNs := Some(now))), None)
  }

  function NoteOverload(c: Controller): Controller {
    c.(backoff := if c.backoff * 2 < c.maxBackoff then c.backoff * 2 else c.maxBackoff)
  }

  function NoteSuccess(c: Controller): Controller {
    c.(backoff := if c.backoff / 2 > 1 then c.backoff / 2 else 1)
  }

  function Reset(c: Controller): Controller {
    ResetDedup(ClearPending(c.(lastCaptureNs := None, lastCaptureContext := None))).(backoff := 1)
  }

  // ---------- near-duplicates ----------

  // The number of the lowest n binary digits in which two numbers differ.
  function Differing(a: nat, b: nat, n: nat): nat {
    if n == 0 then 0 else (if a % 2 != b % 2 then 1 else 0) + Differing(a / 2, b / 2, n - 1)
  }

  // The Hamming distance of two fingerprints.
  function Hamming(a: Fingerprint, b: Fingerprint): nat {
    Differing(a, b, HASH_BITS)
  }

  predicate Similar(c: Controller, a: Fingerprint, b: Fingerprint) {
    Hamming(a, b) as real / HASH_BITS as real <= c.threshold
  }

  datatype Classified = Classified(c: Controller, result: Result<Decision, AdaptiveError>)

  function NewSpan(c: Controller, context: Context, fingerprint: Fingerprint, observed: int): Classified {
    Classified(c.(dedupContext := Some(context), fingerprint := Some(fingerprint), spanCount := 1,
                  spanStartedNs := Some(observed), spanLastSeenNs := Some(observed)),
               Ok(Accept(1, observed, observed)))
  }

  function ClassifyFrame(c: Controller, context: Context, fingerprint: int, observed: int): Classified {
    if observed < 0 then Classified(c, Err(NegativeTime))
    else if !(0 <= fingerprint < 0x1_0000_0000_0000_0000) then Classified(c, Err(BadFingerprint))
    else if c.spanLastSeenNs.Some? && observed < c.spanLastSeenNs.value then Classified(c, Err(TimeWentBackwards))
    else if c.dedupContext != Some(context) || c.fingerprint.None? then NewSpan(c, context, fingerprint, observed)
    else if Similar(c, c.fingerprint.value, fingerprint) then
      if c.spanStartedNs.None? then Classified(c, Err(TimestampMissing))
      else Classified(c.(spanCount := c.spanCount + 1, spanLastSeenNs := Some(observed)),
                      Ok(Coalesce(c.spanCount + 1, c.spanStartedNs.value, observed)))
    else NewSpan(c, context, fingerprint, observed)
  }
}
