/**
 The adaptive controller as the object it is. Each method is proved to do to the
 object's view exactly what the function of the same name in AdaptiveModel does.
 */
module AdaptiveControllerObject {
  import opened Wrappers
  import opened AdaptiveModel

  class AdaptiveController {
    const cadence: real
    const threshold: real
    const debounceNs: nat
    const maxBackoff: nat
    var backoff: nat
    var lastCaptureNs: Option<int>
    var lastCaptureContext: Option<Context>
    var pendingContext: Option<Context>
    var pendingSinceNs: Option<int>
    var dedupContext: Option<Context>
    var fingerprint: Option<Fingerprint>
    var spanCount: nat
    var spanStartedNs: Option<int>
    var spanLastSeenNs: Option<int>

    ghost function View(): Controller
      reads this
    {
      Controller(cadence, threshold, debounceNs, maxBackoff, backoff, lastCaptureNs, lastCaptureContext,
                 pendingContext, pendingSinceNs, dedupContext, fingerprint, spanCount, spanStartedNs, spanLastSeenNs)
    }

    // The source raises for other arguments; see AdaptiveModel.Create.
    constructor (cadence: real, threshold: real, debounceSeconds: real, maxBackoff: int)
      requires Create(cadence, threshold, debounceSeconds, maxBackoff).Ok?
      ensures View() == Create(cadence, threshold, debounceSeconds, maxBackoff).value
    {
      this.cadence, this.threshold, this.maxBackoff := cadence, threshold, maxBackoff;
      debounceNs := (debounceSeconds * NS_PER_SECOND).Floor;
      backoff := 1;
      lastCaptureNs, lastCaptureContext, pendingContext, pendingSinceNs := None, None, None, None;
      dedupContext, fingerprint, spanCount, spanStartedNs, spanLastSeenNs := None, None, 0, None, None;
    }

    method Poll(context: Context, now: int) returns (r: Result<Trigger, AdaptiveError>)
      modifies this`pendingContext, this`pendingSinceNs
      ensures Polled(View(), r) == AdaptiveModel.Poll(old(View()), context, now)
    {
      if now < 0 {
        return Err(NegativeTime);
      }
      var effective := cadence * backoff as real;
      if lastCaptureNs.None? || lastCaptureContext.None? {
        return Ok(Cadence);
      }
      if now < lastCaptureNs.value {
        return Err(TimeWentBackwards);
      }
      var previous := lastCaptureContext.value;
      if !SameScope(context, previous) {
        ClearPendingChange();
        return Ok(Cadence);
      }
      if !SameKey(context, previous) {
        if pendingContext.None? || !SameKey(context, pendingContext.value) {
          pendingContext, pendingSinceNs := Some(context), Some(now);
        } else {
          if pendingSinceNs.None? {
            return Err(TimestampMissing);
          }
          if now < pendingSinceNs.value {
            return Err(TimeWentBackwards);
          }
          if now - pendingSinceNs.value >= debounceNs {
            ClearPendingChange();
            return Ok(ContextChange);
          }
        }
      } else {
        ClearPendingChange();
      }
      var cadenceNs := (effective * NS_PER_SECOND).Floor;
      r := Ok(if now - lastCaptureNs.value >= cadenceNs then Cadence else NoTrigger);
    }

    method MarkCaptureStarted(context: Context, now: int) returns (error: Option<AdaptiveError>)
      modifies this
      ensures Marked(View(), error) == AdaptiveModel.MarkCaptureStarted(old(View()), context, now)
    {
      if now < 0 {
        return Some(NegativeTime);
      }
      if lastCaptureNs.Some? && now < lastCaptureNs.value {
        return Some(TimeWentBackwards);
      }
      if lastCaptureContext.Some? && !SameScope(context, lastCaptureContext.value) {
        ResetDedupState();
      }
      lastCaptureContext, lastCaptureNs := Some(context), Some(now);
      ClearPendingChange();
      error := None;
    }

    method ClassifyFrame(context: Context, observedFingerprint: int, observed: int) returns (r: Result<Decision, AdaptiveError>)
      modifies this
      ensures Classified(View(), r) == AdaptiveModel.ClassifyFrame(old(View()), context, observedFingerprint, observed)
    {
      if observed < 0 {
        return Err(NegativeTime);
      }
      if observedFingerprint < 0 || observedFingerprint >= 0x1_0000_0000_0000_0000 {
        return Err(BadFingerprint);
      }
      if spanLastSeenNs.Some? && observed < spanLastSeenNs.value {
        return Err(TimeWentBackwards);
      }
      if dedupContext == Some(context) && fingerprint.Some? {
        var changedBits := Hamming(fingerprint.value, observedFingerprint);
        if changedBits as real / HASH_BITS as real <= threshold {
          if spanStartedNs.None? {
            return Err(TimestampMissing);
          }
          spanCount, spanLastSeenNs := spanCount + 1, Some(observed);
          return Ok(Coalesce(spanCount, spanStartedNs.value, observed));
        }
      }
      dedupContext, fingerprint, spanCount := Some(context), Some(observedFingerprint), 1;
      spanStartedNs, spanLastSeenNs := Some(observed), Some(observed);
      r := Ok(Accept(1, observed, observed));
    }

    method NoteOverload()
      modifies this`backoff
      ensures View() == AdaptiveModel.NoteOverload(old(View()))
    {
      backoff := if backoff * 2 < maxBackoff then backoff * 2 else maxBackoff;
    }

    method NoteSuccess()
      modifies this`backoff
      ensures View() == AdaptiveModel.NoteSuccess(old(View()))
    {
      backoff := if backoff / 2 > 1 then backoff / 2 else 1;
    }

    method Reset()
      modifies this
      ensures View() == AdaptiveModel.Reset(old(View()))
    {
      lastCaptureNs, lastCaptureContext := None, None;
      ClearPendingChange();
      ResetDedupState();
      backoff := 1;
    }

    method ClearPendingChange()
      modifies this`pendingContext, this`pendingSinceNs
      ensures View() == ClearPending(old(View()))
    {
      pendingContext, pendingSinceNs := None, None;
    }

    method ResetDedupState()
      modifies this`dedupContext, this`fingerprint, this`spanCount, this`spanStartedNs, this`spanLastSeenNs
      ensures View() == ResetDedup(old(View()))
    {
      dedupContext, fingerprint, spanCount, spanStartedNs, spanLastSeenNs := None, None, 0, None, None;
    }
  }
}
