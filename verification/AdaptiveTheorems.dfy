/** What adaptive capture keeps over every run of its operations. */
module AdaptiveTheorems {
  import opened Wrappers
  import opened AdaptiveModel

  // ---------- distance ----------

  lemma {:induction false} DifferingTriangle(a: nat, b: nat, c: nat, n: nat)
    ensures Differing(a, c, n) <= Differing(a, b, n) + Differing(b, c, n)
  {
    if n > 0 {
      DifferingTriangle(a / 2, b / 2, c / 2, n - 1);
    }
  }

  lemma {:induction false} DifferingSymmetric(a: nat, b: nat, n: nat)
    ensures Differing(a, b, n) == Differing(b, a, n)
    ensures Differing(a, a, n) == 0 && Differing(a, b, n) <= n
  {
    if n > 0 {
      DifferingSymmetric(a / 2, b / 2, n - 1);
    }
  }

  // ---------- runs ----------

  datatype Event =
    | PollAt(context: Context, now: int)
    | Mark(context: Context, now: int)
    | Classify(context: Context, fingerprint: int, observed: int)
    | Overload
    | Success
    | ResetAll

  datatype Frame = Frame(context: Context, fingerprint: Fingerprint, observed: int)

  // The frames of one span, and whether the deduplication state was empty when it began.
  datatype Span = Span(frames: seq<Frame>, afterReset: bool)

  // A controller with the spans its classified frames have formed, and, since the last
  // reset, the latest count its decisions gave for each span and the frames classified.
  datatype Tracked = Tracked(c: Controller, spans: seq<Span>, classified: nat, counts: seq<nat>, sinceReset: nat)

  // The event forgets the open span.
  predicate Resets(c: Controller, e: Event) {
    || e.ResetAll?
    || (e.Mark? && MarkCaptureStarted(c, e.context, e.now).error.None? && ScopeChanged(c, e.context))
  }

  function Restarted(t: Tracked, c: Controller): Tracked {
    t.(c := c, counts := [], sinceReset := 0)
  }

  // What the decisions say: an accepted frame opens a count, a coalesced one updates it.
  function Counted(counts: seq<nat>, decision: Decision): seq<nat> {
    if decision.Accept? || counts == [] then counts + [decision.count]
    else counts[|counts| - 1 := decision.count]
  }

  function Track(t: Tracked, e: Event): Tracked {
    match e
    case PollAt(context, now) => t.(c := Poll(t.c, context, now).c)
    case Mark(context, now) =>
      var marked := MarkCaptureStarted(t.c, context, now).c;
      if Resets(t.c, e) then Restarted(t, marked) else t.(c := marked)
    case Overload => t.(c := NoteOverload(t.c))
    case Success => t.(c := NoteSuccess(t.c))
    case ResetAll => Restarted(t, Reset(t.c))
    case Classify(context, fingerprint, observed) =>
      var done := ClassifyFrame(t.c, context, fingerprint, observed);
      if done.result.Err? then t.(c := done.c)
      else Tracked(done.c, Recorded(t, Frame(context, fingerprint, observed), done.result.value), t.classified + 1,
                   Counted(t.counts, done.result.value), t.sinceReset + 1)
  }

  // An accepted frame begins a span, a coalesced one joins the last.
  function Recorded(t: Tracked, frame: Frame, decision: Decision): seq<Span> {
    if decision.Accept? || t.spans == [] then t.spans + [Span([frame], t.c.fingerprint.None?)]
    else
      var last := t.spans[|t.spans| - 1];
      t.spans[..|t.spans| - 1] + [last.(frames := last.frames + [frame])]
  }

  function TrackAll(t: Tracked, events: seq<Event>): Tracked
    decreases |events|
  {
    if events == [] then t else TrackAll(Track(t, events[0]), events[1..])
  }

  // ---------- the invariant ----------

  // All frames of a span share the context of its first frame and are similar to it.
  predicate SpanOk(threshold: real, s: Span) {
    && s.frames != []
    && (forall i :: 0 <= i < |s.frames| ==>
          && s.frames[i].context == s.frames[0].context
          && Hamming(s.frames[0].fingerprint, s.frames[i].fingerprint) as real / 64.0 <= threshold)
    && (forall i :: 0 < i < |s.frames| ==> s.frames[i - 1].observed <= s.frames[i].observed)
  }

  // A span that follows another in the same context, with nothing reset between,
  // begins with a frame that is not similar to the other's first.
  predicate Separated(threshold: real, a: Span, b: Span)
    requires a.frames != [] && b.frames != []
  {
    !b.afterReset && a.frames[0].context == b.frames[0].context ==>
      Hamming(a.frames[0].fingerprint, b.frames[0].fingerprint) as real / 64.0 > threshold
  }

  predicate SpansOk(threshold: real, spans: seq<Span>) {
    && (forall i :: 0 <= i < |spans| ==> SpanOk(threshold, spans[i]))
    && (forall i :: 0 < i < |spans| ==> Separated(threshold, spans[i - 1], spans[i]))
  }

  function Total(spans: seq<Span>): nat {
    if spans == [] then 0 else Total(spans[..|spans| - 1]) + |spans[|spans| - 1].frames|
  }

  // The open span is the last one, and the controller remembers its first frame.
  predicate OpenSpan(c: Controller, spans: seq<Span>) {
    c.fingerprint.Some? ==>
      && spans != [] && spans[|spans| - 1].frames != []
      && var frames := spans[|spans| - 1].frames;
         && c.dedupContext == Some(frames[0].context) && c.fingerprint == Some(frames[0].fingerprint)
         && c.spanCount == |frames|
         && c.spanStartedNs == Some(frames[0].observed) && c.spanLastSeenNs == Some(frames[|frames| - 1].observed)
  }

  predicate PairedFields(c: Controller) {
    && (c.dedupContext.Some? <==> c.fingerprint.Some?)
    && (c.spanStartedNs.Some? <==> c.fingerprint.Some?) && (c.spanLastSeenNs.Some? <==> c.fingerprint.Some?)
    && (c.pendingContext.Some? <==> c.pendingSinceNs.Some?)
    && (c.lastCaptureNs.Some? <==> c.lastCaptureContext.Some?)
  }

  predicate BackoffOk(c: Controller) {
    PowerOfTwo(c.maxBackoff) && PowerOfTwo(c.backoff) && 1 <= c.backoff <= c.maxBackoff <= 64
  }

  predicate TrackedOk(t: Tracked) {
    && t.c.threshold >= 0.0
    && PairedFields(t.c) && BackoffOk(t.c)
    && SpansOk(t.c.threshold, t.spans)
    && OpenSpan(t.c, t.spans)
    && Total(t.spans) == t.classified
  }

  // ---------- the proof ----------

  lemma DoublingPowers(a: nat, b: nat)
    requires PowerOfTwo(a) && PowerOfTwo(b) && a < b
    ensures 2 * a <= b && PowerOfTwo(2 * a)
    decreases a
  {
    assert (2 * a) / 2 == a;
    if a > 1 {
      DoublingPowers(a / 2, b / 2);
    }
  }

  lemma BackoffStaysPower(c: Controller)
    requires BackoffOk(c)
    ensures BackoffOk(NoteOverload(c)) && BackoffOk(NoteSuccess(c))
  {
    if c.backoff < c.maxBackoff {
      DoublingPowers(c.backoff, c.maxBackoff);
    }
  }

  // One overload is undone by one success, unless the backoff was saturated.
  lemma SuccessUndoesOverload(c: Controller)
    requires BackoffOk(c)
    ensures NoteSuccess(NoteOverload(c)) == c <==> c.backoff < c.maxBackoff || c.maxBackoff == 1
  {
    if c.backoff < c.maxBackoff {
      DoublingPowers(c.backoff, c.maxBackoff);
    }
  }

  lemma NewSpanKeepsSpans(threshold: real, spans: seq<Span>, s: Span)
    requires SpansOk(threshold, spans) && SpanOk(threshold, s)
    requires spans != [] ==> Separated(threshold, spans[|spans| - 1], s)
    ensures SpansOk(threshold, spans + [s]) && Total(spans + [s]) == Total(spans) + |s.frames|
  {
    var more := spans + [s];
    assert more[..|spans|] == spans;
    forall i | 0 <= i < |more| ensures SpanOk(threshold, more[i]) {
      assert i < |spans| ==> more[i] == spans[i] && SpanOk(threshold, spans[i]);
    }
    forall i | 0 < i < |more| ensures Separated(threshold, more[i - 1], more[i]) {
      if i < |spans| {
        assert Separated(threshold, spans[i - 1], spans[i]);
      }
    }
  }

  lemma LongerSpanKeepsSpans(threshold: real, spans: seq<Span>, frame: Frame)
    requires SpansOk(threshold, spans) && spans != []
    requires var frames := spans[|spans| - 1].frames;
             && frame.context == frames[0].context && frames[|frames| - 1].observed <= frame.observed
             && Hamming(frames[0].fingerprint, frame.fingerprint) as real / 64.0 <= threshold
    ensures var last := spans[|spans| - 1];
            var longer := spans[..|spans| - 1] + [last.(frames := last.frames + [frame])];
            SpansOk(threshold, longer) && Total(longer) == Total(spans) + 1
  {
    var n := |spans| - 1;
    var last := spans[n];
    var longer := spans[..n] + [last.(frames := last.frames + [frame])];
    assert longer[..n] == spans[..n];
    assert SpanOk(threshold, spans[n]);
    assert SpanOk(threshold, longer[n]);
    forall i | 0 < i < |longer| ensures Separated(threshold, longer[i - 1], longer[i]) {
      assert Separated(threshold, spans[i - 1], spans[i]);
    }
  }

  // What an accepted frame is to the span before it.
  lemma AcceptedSpan(c: Controller, spans: seq<Span>, frame: Frame)
    requires OpenSpan(c, spans) && PairedFields(c) && c.threshold >= 0.0
    requires ClassifyFrame(c, frame.context, frame.fingerprint, frame.observed).result.Ok?
    requires ClassifyFrame(c, frame.context, frame.fingerprint, frame.observed).result.value.Accept?
    requires spans != [] ==> spans[|spans| - 1].frames != []
    ensures var s := Span([frame], c.fingerprint.None?);
            SpanOk(c.threshold, s) && (spans != [] ==> Separated(c.threshold, spans[|spans| - 1], s))
  {
    hide Differing;
    DifferingSymmetric(frame.fingerprint, frame.fingerprint, HASH_BITS);
  }

  // What a coalesced frame is to the span it joins.
  lemma CoalescedFrame(c: Controller, spans: seq<Span>, frame: Frame)
    requires OpenSpan(c, spans) && PairedFields(c)
    requires ClassifyFrame(c, frame.context, frame.fingerprint, frame.observed).result.Ok?
    requires ClassifyFrame(c, frame.context, frame.fingerprint, frame.observed).result.value.Coalesce?
    ensures spans != [] && spans[|spans| - 1].frames != []
    ensures var frames := spans[|spans| - 1].frames;
            && frame.context == frames[0].context && frames[|frames| - 1].observed <= frame.observed
            && Hamming(frames[0].fingerprint, frame.fingerprint) as real / 64.0 <= c.threshold
  {
    hide Differing;
  }

  lemma ClassifiedFields(c: Controller, spans: seq<Span>, frame: Frame)
    requires OpenSpan(c, spans) && PairedFields(c) && BackoffOk(c)
    requires ClassifyFrame(c, frame.context, frame.fingerprint, frame.observed).result.Ok?
    ensures var done := ClassifyFrame(c, frame.context, frame.fingerprint, frame.observed);
            && PairedFields(done.c) && BackoffOk(done.c) && done.c.threshold == c.threshold
            && OpenSpan(done.c, Recorded(Tracked(c, spans, 0, [], 0), frame, done.result.value))
  {
    hide Differing, PowerOfTwo;
  }

  lemma ClassifyKeepsOk(t: Tracked, context: Context, fingerprint: int, observed: int)
    requires TrackedOk(t)
    ensures TrackedOk(Track(t, Classify(context, fingerprint, observed)))
  {
    hide SpanOk, Separated, Total, BackoffOk, PairedFields, OpenSpan, Similar, Hamming;
    var done := ClassifyFrame(t.c, context, fingerprint, observed);
    if done.result.Ok? {
      var frame := Frame(context, fingerprint, observed);
      ClassifiedFields(t.c, t.spans, frame);
      if t.spans != [] {
        LastSpanHasFrames(t.c.threshold, t.spans);
      }
      if done.result.value.Accept? {
        AcceptedSpan(t.c, t.spans, frame);
        NewSpanKeepsSpans(t.c.threshold, t.spans, Span([frame], t.c.fingerprint.None?));
      } else {
        CoalescedFrame(t.c, t.spans, frame);
        LongerSpanKeepsSpans(t.c.threshold, t.spans, frame);
      }
    } else {
      RefusedFrame(t.c, context, fingerprint, observed);
    }
  }

  lemma LastSpanHasFrames(threshold: real, spans: seq<Span>)
    requires SpansOk(threshold, spans) && spans != []
    ensures spans[|spans| - 1].frames != []
  {
    assert SpanOk(threshold, spans[|spans| - 1]);
  }

  lemma RefusedFrame(c: Controller, context: Context, fingerprint: int, observed: int)
    requires ClassifyFrame(c, context, fingerprint, observed).result.Err?
    ensures ClassifyFrame(c, context, fingerprint, observed).c == c
  {
  }

  // Everything but classifying leaves the open span as it is or closes it.
  predicate SameDedup(c: Controller, c': Controller) {
    && c'.dedupContext == c.dedupContext && c'.fingerprint == c.fingerprint && c'.spanCount == c.spanCount
    && c'.spanStartedNs == c.spanStartedNs && c'.spanLastSeenNs == c.spanLastSeenNs
  }

  lemma QuietStep(c: Controller, e: Event)
    requires PairedFields(c) && BackoffOk(c) && !e.Classify?
    ensures var c' := Track(Tracked(c, [], 0, [], 0), e).c;
            && PairedFields(c') && BackoffOk(c') && c'.threshold == c.threshold
            && (SameDedup(c, c') || c'.fingerprint.None?)
  {
    hide PowerOfTwo;
    OneIsAPower();
    BackoffStaysPower(c);
  }

  lemma OneIsAPower()
    ensures PowerOfTwo(1)
  {
  }

  lemma QuietKeepsOk(t: Tracked, c': Controller)
    requires TrackedOk(t) && PairedFields(c') && BackoffOk(c') && c'.threshold == t.c.threshold
    requires SameDedup(t.c, c') || c'.fingerprint.None?
    ensures TrackedOk(t.(c := c')) && TrackedOk(Restarted(t, c'))
  {
  }

  lemma TrackKeepsOk(t: Tracked, e: Event)
    requires TrackedOk(t)
    ensures TrackedOk(Track(t, e))
  {
    if e.Classify? {
      ClassifyKeepsOk(t, e.context, e.fingerprint, e.observed);
    } else {
      QuietStep(t.c, e);
      QuietKeepsOk(t, Track(t, e).c);
    }
  }

  lemma {:induction false} TrackAllKeepsOk(t: Tracked, events: seq<Event>)
    requires TrackedOk(t)
    ensures TrackedOk(TrackAll(t, events))
    decreases |events|
  {
    if events != [] {
      TrackKeepsOk(t, events[0]);
      TrackAllKeepsOk(Track(t, events[0]), events[1..]);
    }
  }

  lemma {:induction false} SettingsStay(t: Tracked, events: seq<Event>)
    ensures TrackAll(t, events).c.threshold == t.c.threshold
    decreases |events|
  {
    if events != [] {
      SettingsStay(Track(t, events[0]), events[1..]);
    }
  }

  // ---------- the controller's own counts ----------

  function Sum(counts: seq<nat>): nat {
    if counts == [] then 0 else Sum(counts[..|counts| - 1]) + counts[|counts| - 1]
  }

  // The counts are the sizes of the spans since the last reset, and none is missing.
  predicate SizesOf(counts: seq<nat>, spans: seq<Span>) {
    && |counts| <= |spans|
    && var since := spans[|spans| - |counts|..];
       forall k :: 0 <= k < |counts| ==> counts[k] == |since[k].frames| && since[k].afterReset == (k == 0)
  }

  predicate CountsOk(t: Tracked) {
    && SizesOf(t.counts, t.spans)
    && Sum(t.counts) == t.sinceReset
    && (t.c.fingerprint.Some? <==> t.counts != [])
    && (t.c.fingerprint.Some? ==> t.counts[|t.counts| - 1] == t.c.spanCount)
  }

  lemma AcceptedCounts(counts: seq<nat>, spans: seq<Span>, frame: Frame)
    requires SizesOf(counts, spans)
    ensures SizesOf(counts + [1], spans + [Span([frame], counts == [])])
    ensures Sum(counts + [1]) == Sum(counts) + 1
  {
    var begun := Span([frame], counts == []);
    var more, longer := counts + [1], spans + [begun];
    var since := spans[|spans| - |counts|..];
    assert more[..|counts|] == counts;
    assert longer[|longer| - |more|..] == since + [begun];
    forall k | 0 <= k < |more|
      ensures more[k] == |(since + [begun])[k].frames| && (since + [begun])[k].afterReset == (k == 0)
    {
      if k < |counts| {
        assert counts[k] == |since[k].frames| && since[k].afterReset == (k == 0);
      }
    }
  }

  lemma CoalescedCounts(counts: seq<nat>, spans: seq<Span>, frame: Frame)
    requires SizesOf(counts, spans) && counts != []
    ensures var last := spans[|spans| - 1];
            var count := counts[|counts| - 1] + 1;
            && SizesOf(counts[|counts| - 1 := count], spans[..|spans| - 1] + [last.(frames := last.frames + [frame])])
            && Sum(counts[|counts| - 1 := count]) == Sum(counts) + 1
  {
    var n := |counts| - 1;
    var last := spans[|spans| - 1];
    var longer := last.(frames := last.frames + [frame]);
    assert counts[n := counts[n] + 1][..n] == counts[..n];
    assert (spans[..|spans| - 1] + [longer])[|spans| - |counts|..] == spans[|spans| - |counts|..][n := longer];
  }

  lemma ClassifyKeepsCounts(t: Tracked, context: Context, fingerprint: int, observed: int)
    requires TrackedOk(t) && CountsOk(t)
    ensures CountsOk(Track(t, Classify(context, fingerprint, observed)))
  {
    hide TrackedOk, SizesOf, Sum, Similar, Hamming;
    if ClassifyFrame(t.c, context, fingerprint, observed).result.Ok? {
      var frame := Frame(context, fingerprint, observed);
      AcceptedCounts(t.counts, t.spans, frame);
      if t.counts != [] {
        CoalescedCounts(t.counts, t.spans, frame);
        SpansAreThere(t.counts, t.spans);
      }
    }
  }

  lemma SpansAreThere(counts: seq<nat>, spans: seq<Span>)
    requires SizesOf(counts, spans) && counts != []
    ensures spans != []
  {
  }

  lemma QuietKeepsCounts(t: Tracked, e: Event)
    requires CountsOk(t) && PairedFields(t.c) && !e.Classify?
    ensures CountsOk(Track(t, e))
  {
    hide SizesOf, Sum;
    NothingCounted(t.spans);
  }

  lemma NothingCounted(spans: seq<Span>)
    ensures SizesOf([], spans) && Sum([]) == 0
  {
  }

  lemma {:induction false} TrackAllKeepsCounts(t: Tracked, events: seq<Event>)
    requires TrackedOk(t) && CountsOk(t)
    ensures CountsOk(TrackAll(t, events))
    decreases |events|
  {
    if events != [] {
      var e := events[0];
      if e.Classify? {
        ClassifyKeepsCounts(t, e.context, e.fingerprint, e.observed);
      } else {
        QuietKeepsCounts(t, e);
      }
      TrackKeepsOk(t, e);
      TrackAllKeepsCounts(Track(t, e), events[1..]);
    }
  }

  // ---------- what a reader of the spans may rely on ----------

  // Over every run: the frames of a span share their context, each is within the
  // threshold of the first, and so any two differ in at most twice the threshold;
  // neighbouring spans of one context with no reset between begin further apart than
  // the threshold; and the spans hold every classified frame exactly once. The counts
  // that the decisions reported since the last reset are the sizes of the spans since
  // then, they sum to the frames classified since then, and the open span's is the
  // controller's own.
  lemma SpansAreSound(cadence: real, threshold: real, debounce: real, maxBackoff: int, events: seq<Event>,
                      k: nat, i: nat, j: nat)
    requires Create(cadence, threshold, debounce, maxBackoff).Ok?
    ensures var t := TrackAll(Tracked(Create(cadence, threshold, debounce, maxBackoff).value, [], 0, [], 0), events);
            && Total(t.spans) == t.classified
            && SizesOf(t.counts, t.spans) && Sum(t.counts) == t.sinceReset
            && (if t.c.fingerprint.None? then t.sinceReset == 0
                else t.counts != [] && t.counts[|t.counts| - 1] == t.c.spanCount)
            && (k < |t.spans| && i < |t.spans[k].frames| && j < |t.spans[k].frames| ==>
                  && t.spans[k].frames[i].context == t.spans[k].frames[j].context
                  && Hamming(t.spans[k].frames[0].fingerprint, t.spans[k].frames[i].fingerprint) as real / 64.0 <= threshold
                  && Hamming(t.spans[k].frames[i].fingerprint, t.spans[k].frames[j].fingerprint) as real / 64.0
                     <= 2.0 * threshold)
            && (0 < k < |t.spans| ==>
                  t.spans[k - 1].frames != [] && t.spans[k].frames != [] && Separated(threshold, t.spans[k - 1], t.spans[k]))
  {
    var t0 := Tracked(Create(cadence, threshold, debounce, maxBackoff).value, [], 0, [], 0);
    TrackAllKeepsOk(t0, events);
    TrackAllKeepsCounts(t0, events);
    SettingsStay(t0, events);
    var t := TrackAll(t0, events);
    if k < |t.spans| && i < |t.spans[k].frames| && j < |t.spans[k].frames| {
      var frames := t.spans[k].frames;
      assert SpanOk(threshold, t.spans[k]);
      DifferingSymmetric(frames[0].fingerprint, frames[i].fingerprint, HASH_BITS);
      DifferingTriangle(frames[i].fingerprint, frames[0].fingerprint, frames[j].fingerprint, HASH_BITS);
    }
  }

  // The raises for a missing timestamp cannot happen in any run, and the backoff
  // multiplier is always a power of two within its bound.
  lemma DefensiveRaisesAreUnreachable(cadence: real, threshold: real, debounce: real, maxBackoff: int, events: seq<Event>,
                                      context: Context, fingerprint: int, now: int)
    requires Create(cadence, threshold, debounce, maxBackoff).Ok?
    ensures var t := TrackAll(Tracked(Create(cadence, threshold, debounce, maxBackoff).value, [], 0, [], 0), events);
            && Poll(t.c, context, now).result != Err(TimestampMissing)
            && ClassifyFrame(t.c, context, fingerprint, now).result != Err(TimestampMissing)
            && PowerOfTwo(t.c.backoff) && 1 <= t.c.backoff <= t.c.maxBackoff
  {
    TrackAllKeepsOk(Tracked(Create(cadence, threshold, debounce, maxBackoff).value, [], 0, [], 0), events);
  }

  // ---------- debouncing ----------

  // A poll that finds the same unfinished change.
  predicate Steady(c: Controller, context: Context, now: int) {
    && c.lastCaptureNs.Some? && c.lastCaptureContext.Some? && c.lastCaptureNs.value <= now && 0 <= now
    && SameScope(context, c.lastCaptureContext.value) && !SameKey(context, c.lastCaptureContext.value)
  }

  // A context change is reported exactly when the same new key was already pending
  // and has been for the debounce time; reporting it, or anything that clears the
  // pending change, makes the next change wait its full time again.
  lemma ChangeIsDebounced(c: Controller, context: Context, now: int)
    requires PairedFields(c)
    ensures Poll(c, context, now).result == Ok(ContextChange)
            <==> Steady(c, context, now) && c.pendingContext.Some? && SameKey(context, c.pendingContext.value)
                 && now - c.pendingSinceNs.value >= c.debounceNs && now >= c.pendingSinceNs.value
    ensures Poll(c, context, now).result == Ok(ContextChange) ==> Poll(c, context, now).c.pendingContext.None?
  {
  }

  predicate Polls(events: seq<Event>, context: Context, since: int) {
    && (forall i :: 0 <= i < |events| ==> events[i].PollAt? && SameKey(events[i].context, context)
                                            && SameScope(events[i].context, context) && events[i].now >= since)
    && (forall i :: 0 < i < |events| ==> events[i - 1].now <= events[i].now)
  }

  // A key first polled at `since` stays pending from then on while it is polled, until
  // the debounce time is over.
  lemma {:induction false} PendingKeepsItsStart(t: Tracked, events: seq<Event>, context: Context, since: int)
    requires Polls(events, context, since) && Steady(t.c, context, since) && PairedFields(t.c)
    requires t.c.pendingContext.Some? && SameKey(context, t.c.pendingContext.value) && t.c.pendingSinceNs == Some(since)
    requires forall i :: 0 <= i < |events| ==> events[i].now < since + t.c.debounceNs
    ensures TrackAll(t, events).c.pendingSinceNs == Some(since) && TrackAll(t, events).c == t.c
    decreases |events|
  {
    if events != [] {
      assert events[0].now >= since && events[0].now < since + t.c.debounceNs;
      PendingKeepsItsStart(Track(t, events[0]), events[1..], context, since);
    }
  }
}
