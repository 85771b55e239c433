/**
 Adaptive capture said outright: when a poll calls for a capture and why, what opens, joins
 and closes a span, and how often captures are put off.
 */
module AdaptiveOutcomes {
  import opened Wrappers
  import opened Words
  import opened AdaptiveModel
  import opened AdaptiveTheorems

  // ---------- when a capture is due ----------

  // The whole cadence, as often put off as the backoff says, has passed since the last
  // capture; times are whole nanoseconds.
  predicate CadenceIsOver(c: Controller, now: int)
    requires c.lastCaptureNs.Some?
  {
    c.cadence * c.backoff as real * 1_000_000_000.0 < (now - c.lastCaptureNs.value + 1) as real
  }

  lemma FloorReached(x: real, n: int)
    ensures n >= x.Floor <==> x < (n + 1) as real
  {
  }

  lemma CadenceIsChecked(c: Controller, now: int)
    requires c.lastCaptureNs.Some?
    ensures CadenceTrigger(c, now) == if CadenceIsOver(c, now) then Cadence else NoTrigger
  {
    FloorReached(c.cadence * c.backoff as real * 1_000_000_000.0, now - c.lastCaptureNs.value);
  }

  // Another generation, policy or configuration than that of the last capture.
  predicate OtherScope(a: Context, b: Context) {
    a.generation != b.generation || a.policyRevision != b.policyRevision || a.configurationRevision != b.configurationRevision
  }

  // Another application, workspace or window.
  predicate OtherPlace(a: Context, b: Context) {
    a.application != b.application || a.workspace != b.workspace || a.windowId != b.windowId
  }

  // What a poll calls for.
  lemma PollCallsFor(c: Controller, context: Context, now: int)
    requires PairedFields(c)
    ensures var r := Poll(c, context, now).result;
            if now < 0 then r == Err(NegativeTime)
            else if c.lastCaptureNs.None? then r == Ok(Cadence)
            else if now < c.lastCaptureNs.value then r == Err(TimeWentBackwards)
            else
              var last := c.lastCaptureContext.value;
              if OtherScope(context, last) then r == Ok(Cadence)
              else if OtherPlace(context, last) && c.pendingContext.Some? && !OtherPlace(context, c.pendingContext.value)
                   && now < c.pendingSinceNs.value
              then r == Err(TimeWentBackwards)
              else if OtherPlace(context, last) && c.pendingContext.Some? && !OtherPlace(context, c.pendingContext.value)
                   && now - c.pendingSinceNs.value >= c.debounceNs
              then r == Ok(ContextChange)
              else r == Ok(if CadenceIsOver(c, now) then Cadence else NoTrigger)
  {
    if c.lastCaptureNs.Some? {
      CadenceIsChecked(c, now);
    }
  }

  // What a poll remembers: a change of place from its first poll on, until it is reported
  // or undone; nothing else changes.
  lemma PollRemembers(c: Controller, context: Context, now: int)
    requires PairedFields(c)
    ensures var r := Poll(c, context, now);
            var forgets := c.(pendingContext := None, pendingSinceNs := None);
            if r.result.Err? || c.lastCaptureNs.None? then r.c == c
            else if OtherScope(context, c.lastCaptureContext.value) || !OtherPlace(context, c.lastCaptureContext.value)
                 || r.result == Ok(ContextChange) then r.c == forgets
            else if c.pendingContext.Some? && !OtherPlace(context, c.pendingContext.value) then r.c == c
            else r.c == c.(pendingContext := Some(context), pendingSinceNs := Some(now))
  {
  }

  // What a capture that starts leaves, and when it is refused.
  lemma CaptureStarts(c: Controller, context: Context, now: int)
    ensures var r := MarkCaptureStarted(c, context, now);
            if now < 0 then r == Marked(c, Some(NegativeTime))
            else if c.lastCaptureNs.Some? && now < c.lastCaptureNs.value then r == Marked(c, Some(TimeWentBackwards))
            else
              var started := c.(lastCaptureNs := Some(now), lastCaptureContext := Some(context), pendingContext := None, pendingSinceNs := None);
              r == Marked(if c.lastCaptureContext.Some? && OtherScope(context, c.lastCaptureContext.value)
                          then started.(dedupContext := None, fingerprint := None, spanCount := 0, spanStartedNs := None, spanLastSeenNs := None)
                          else started, None)
  {
  }

  // ---------- putting captures off ----------

  function Doubled(n: nat): nat {
    if n == 0 then 1 else 2 * Doubled(n - 1)
  }

  function Overloads(c: Controller, n: nat): Controller {
    if n == 0 then c else NoteOverload(Overloads(c, n - 1))
  }

  // Every overload doubles the interval, up to the bound.
  lemma {:induction false} OverloadsDouble(c: Controller, n: nat)
    requires c.backoff == 1 <= c.maxBackoff
    ensures Overloads(c, n) == c.(backoff := if Doubled(n) <= c.maxBackoff then Doubled(n) else Overloads(c, n).backoff)
    ensures Doubled(n) > c.maxBackoff ==> Overloads(c, n).backoff == c.maxBackoff
  {
    if n > 0 {
      OverloadsDouble(c, n - 1);
    }
  }

  // Every success halves it, down to the cadence itself; a reset starts anew.
  lemma SuccessHalves(c: Controller)
    requires BackoffOk(c)
    ensures NoteSuccess(c) == c.(backoff := NoteSuccess(c).backoff)
    ensures if c.backoff == 1 then NoteSuccess(c).backoff == 1 else 2 * NoteSuccess(c).backoff == c.backoff
  {
  }

  lemma ResetForgets(c: Controller)
    ensures Reset(c) == Controller(c.cadence, c.threshold, c.debounceNs, c.maxBackoff, 1, None, None, None, None, None, None, 0, None, None)
  {
  }

  // Which settings a controller takes, and how it begins.
  lemma SettingsTaken(cadence: real, threshold: real, debounce: real, maxBackoff: int)
    ensures Create(cadence, threshold, debounce, maxBackoff).Ok? <==>
            0.0 < cadence <= 3600.0 && 0.0 <= threshold <= 1.0 && 0.0 <= debounce <= 60.0
            && (maxBackoff == 1 || maxBackoff == 2 || maxBackoff == 4 || maxBackoff == 8 || maxBackoff == 16
                || maxBackoff == 32 || maxBackoff == 64)
    ensures Create(cadence, threshold, debounce, maxBackoff).Ok? ==>
              var c := Create(cadence, threshold, debounce, maxBackoff).value;
              && c.cadence == cadence && c.threshold == threshold && c.maxBackoff == maxBackoff && c.backoff == 1
              && c.lastCaptureNs.None? && c.pendingContext.None? && c.fingerprint.None? && c.spanCount == 0
              && c.debounceNs as real <= debounce * 1_000_000_000.0 < (c.debounceNs + 1) as real
  {
    PowersUpTo64(maxBackoff);
  }

  lemma PowersUpTo64(n: int)
    ensures 1 <= n <= 64 && PowerOfTwo(n) <==> n == 1 || n == 2 || n == 4 || n == 8 || n == 16 || n == 32 || n == 64
  {
    if 1 < n <= 64 && n % 2 == 0 {
      PowersUpTo64(n / 2);
    }
  }

  // ---------- near-duplicates ----------

  // The distance counts the places where the digits differ: a place more adds one exactly
  // when the digits differ there.
  lemma {:induction false} DistanceCountsDigits(a: nat, b: nat, n: nat)
    ensures Differing(a, b, 0) == 0
    ensures Differing(a, b, n + 1) == Differing(a, b, n) + if Bit(a, n) != Bit(b, n) then 1 else 0
    decreases n
  {
    if n > 0 {
      DistanceCountsDigits(a / 2, b / 2, n - 1);
    }
  }

  // A fingerprint close enough to the span's first one.
  predicate CloseEnough(c: Controller, fingerprint: Fingerprint)
    requires c.fingerprint.Some?
  {
    Differing(c.fingerprint.value, fingerprint, 64) as real <= c.threshold * 64.0
  }

  // What becomes of a frame: it joins the open span exactly when its whole context is the
  // span's and its fingerprint is close to the span's first, and otherwise opens one.
  lemma FramesAreClassified(c: Controller, context: Context, fingerprint: int, observed: int)
    requires PairedFields(c)
    ensures var r := ClassifyFrame(c, context, fingerprint, observed);
            if observed < 0 then r == Classified(c, Err(NegativeTime))
            else if !(0 <= fingerprint < 0x1_0000_0000_0000_0000) then r == Classified(c, Err(BadFingerprint))
            else if c.spanLastSeenNs.Some? && observed < c.spanLastSeenNs.value then r == Classified(c, Err(TimeWentBackwards))
            else if c.dedupContext == Some(context) && c.fingerprint.Some? && CloseEnough(c, fingerprint) then
              r == Classified(c.(spanCount := c.spanCount + 1, spanLastSeenNs := Some(observed)),
                              Ok(Coalesce(c.spanCount + 1, c.spanStartedNs.value, observed)))
            else
              r == Classified(c.(dedupContext := Some(context), fingerprint := Some(fingerprint), spanCount := 1,
                                 spanStartedNs := Some(observed), spanLastSeenNs := Some(observed)),
                              Ok(Accept(1, observed, observed)))
  {
    hide Differing;
    if c.fingerprint.Some? && 0 <= fingerprint < 0x1_0000_0000_0000_0000 {
      ShareOfBits(Differing(c.fingerprint.value, fingerprint, 64), c.threshold);
    }
  }

  lemma ShareOfBits(bits: nat, threshold: real)
    ensures bits as real / 64.0 <= threshold <==> bits as real <= threshold * 64.0
  {
  }
}
