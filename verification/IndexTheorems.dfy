/**
 What the index promises over any history of operations: a completed rebuild indexes
 exactly the documents, however often it was interrupted; the entries are a map from
 identifiers; and a search depends on that map alone.
 */
module IndexTheorems {
  import opened Wrappers
  import opened IndexModel

  // ---------- what a completed rebuild leaves ----------

  predicate SnapshotOk(s: Snapshot) {
    && s.dimensions > 0
    && (forall e :: e in s.entries ==> |e.vector| == s.dimensions)
    && Distinct(EntryIds(s.entries))
  }

  // The progress covers the first `offset` documents.
  predicate Covers(done: Option<Snapshot>, documents: seq<Document>, offset: nat) {
    && offset <= |documents|
    && (done.None? ==> offset == 0)
    && (done.Some? ==> MatchesPrefix(done.value, documents) && |done.value.entries| == offset)
  }

  predicate VectorsFit(done: Option<Snapshot>) {
    done.Some? ==> done.value.dimensions > 0 && forall e :: e in done.value.entries ==> |e.vector| == done.value.dimensions
  }

  lemma EmbeddedCovers(documents: seq<Document>, offset: nat, next: nat, done: Option<Snapshot>, call: nat, provider: Provider)
    requires Covers(done, documents, offset) && offset < next <= |documents|
    requires Embedded(done, documents[offset..next], call, provider).Ok?
    ensures var s := Embedded(done, documents[offset..next], call, provider).value;
            Covers(Some(s), documents, next) && (VectorsFit(done) ==> VectorsFit(Some(s)))
            && (done.Some? ==> done.value.entries <= s.entries && s.model == done.value.model && s.dimensions == done.value.dimensions)
  {
  }

  lemma {:induction false} BatchesCover(documents: seq<Document>, offset: nat, batchSize: nat, done: Option<Snapshot>,
                                        calls: nat, provider: Provider, stop: Stop)
    requires batchSize > 0 && Covers(done, documents, offset)
    ensures var p := Batches(documents, offset, batchSize, done, calls, provider, stop);
            && Covers(p.done, documents, Completed(p.done))
            && (p.error.None? ==> Completed(p.done) == |documents|)
            && (VectorsFit(done) ==> VectorsFit(p.done))
            && (done.Some? ==> p.done.Some? && done.value.entries <= p.done.value.entries
                               && p.done.value.model == done.value.model && p.done.value.dimensions == done.value.dimensions)
    decreases |documents| - offset
  {
    if offset < |documents| && stop != StopBeforeBatch(calls) {
      var next := BatchEnd(offset, batchSize, |documents|);
      var embedded := Embedded(done, documents[offset..next], calls, provider);
      if embedded.Ok? {
        EmbeddedCovers(documents, offset, next, done, calls, provider);
        BatchesCover(documents, next, batchSize, Some(embedded.value), calls + 1, provider, stop);
      }
    }
  }

  lemma PrefixIds(s: Snapshot, documents: seq<Document>)
    requires MatchesPrefix(s, documents) && Distinct(DocumentIds(documents))
    ensures EntryIds(s.entries) == DocumentIds(documents)[..|s.entries|] && Distinct(EntryIds(s.entries))
  {
  }

  // Whatever the checkpoint was and however the provider answers: when a rebuild
  // completes, the active identifiers are the documents', in order, the checkpoint
  // is gone and the manifest counts the documents.
  lemma CompletedRebuild(index: Index, documents: seq<Document>, provider: Provider, batchSize: int, stop: Stop)
    requires Rebuild(index, documents, provider, batchSize, stop).result.Ok?
    ensures var after := Rebuild(index, documents, provider, batchSize, stop);
            && after.index.active.Some? && after.index.checkpoint == None
            && EntryIds(after.index.active.value.entries) == DocumentIds(documents)
            && after.result.value == ManifestOf(after.index.active.value)
            && after.result.value.count == |documents|
  {
    var start := Resume(index.checkpoint, documents);
    BatchesCover(documents, Completed(start), batchSize, start, 0, provider, stop);
    var s := Rebuild(index, documents, provider, batchSize, stop).index.active.value;
    PrefixIds(s, documents);
    assert DocumentIds(documents)[..|s.entries|] == DocumentIds(documents);
  }

  // ---------- crash and resume ----------

  // A provider that embeds each text by itself, the same way every time.
  ghost predicate Embeds(provider: Provider, model: string, dimensions: nat, embed: string -> Vector) {
    && dimensions > 0
    && (forall text :: |embed(text)| == dimensions)
    && (forall n: nat, texts: seq<string> ::
          provider(n, texts) == Some(Response(model, seq(|texts|, i requires 0 <= i < |texts| => embed(texts[i])))))
  }

  // The entries of an uninterrupted rebuild.
  function Fresh(documents: seq<Document>, embed: string -> Vector): (entries: seq<Entry>)
    ensures |entries| == |documents|
  {
    seq(|documents|, i requires 0 <= i < |documents| =>
      Entry(documents[i].recordId, documents[i].capturedAt, embed(documents[i].content)))
  }

  function FreshSnapshot(documents: seq<Document>, n: nat, model: string, dimensions: nat, embed: string -> Vector): Snapshot
    requires n <= |documents|
  {
    Snapshot(model, dimensions, Fresh(documents, embed)[..n])
  }

  predicate PartOfFresh(done: Option<Snapshot>, documents: seq<Document>, model: string, dimensions: nat, embed: string -> Vector) {
    done.Some? ==>
      && |done.value.entries| <= |documents|
      && done.value == FreshSnapshot(documents, |done.value.entries|, model, dimensions, embed)
  }

  lemma EmbeddedIsFresh(documents: seq<Document>, offset: nat, next: nat, done: Option<Snapshot>, call: nat, provider: Provider,
                        model: string, dimensions: nat, embed: string -> Vector)
    requires Embeds(provider, model, dimensions, embed) && Completed(done) == offset < next <= |documents|
    requires PartOfFresh(done, documents, model, dimensions, embed)
    ensures Embedded(done, documents[offset..next], call, provider)
         == Ok(FreshSnapshot(documents, next, model, dimensions, embed))
  {
    var batch := documents[offset..next];
    var response := provider(call, Texts(batch)).value;
    assert response.vectors[0] == embed(Texts(batch)[0]);
    var entries := Entries(batch, response.vectors);
    forall i | 0 <= i < |batch| ensures entries[i] == Fresh(documents, embed)[offset + i] {
      assert response.vectors[i] == embed(Texts(batch)[i]);
    }
    assert Fresh(documents, embed)[..next] == Fresh(documents, embed)[..offset] + entries;
    if done.None? {
      assert Fresh(documents, embed)[..offset] + entries == entries;
    }
  }

  // The loop ends complete, or with a part when it was stopped.
  lemma {:induction false} BatchesAreFresh(documents: seq<Document>, offset: nat, batchSize: nat, done: Option<Snapshot>,
                                           calls: nat, provider: Provider, stop: Stop,
                                           model: string, dimensions: nat, embed: string -> Vector)
    requires batchSize > 0 && Embeds(provider, model, dimensions, embed) && Completed(done) == offset <= |documents|
    requires PartOfFresh(done, documents, model, dimensions, embed)
    ensures var p := Batches(documents, offset, batchSize, done, calls, provider, stop);
            && PartOfFresh(p.done, documents, model, dimensions, embed)
            && (p.error.None? ==> Completed(p.done) == |documents|)
            && (!stop.StopBeforeBatch? ==> p.error.None?)
    decreases |documents| - offset
  {
    if offset < |documents| && stop != StopBeforeBatch(calls) {
      var next := BatchEnd(offset, batchSize, |documents|);
      EmbeddedIsFresh(documents, offset, next, done, calls, provider, model, dimensions, embed);
      BatchesAreFresh(documents, next, batchSize, Some(FreshSnapshot(documents, next, model, dimensions, embed)), calls + 1,
                      provider, stop, model, dimensions, embed);
    }
  }

  datatype Attempt = Attempt(batchSize: int, stop: Stop)

  // Rebuilds of the same documents, one after another.
  function Attempts(index: Index, documents: seq<Document>, provider: Provider, attempts: seq<Attempt>): Index
    decreases |attempts|
  {
    if attempts == [] then index
    else Attempts(Rebuild(index, documents, provider, attempts[0].batchSize, attempts[0].stop).index,
                  documents, provider, attempts[1..])
  }

  // The checkpoint does not fit the documents or is part of their fresh rebuild.
  predicate Consistent(index: Index, documents: seq<Document>, model: string, dimensions: nat, embed: string -> Vector) {
    PartOfFresh(Resume(index.checkpoint, documents), documents, model, dimensions, embed)
  }

  lemma AttemptStaysConsistent(index: Index, documents: seq<Document>, provider: Provider, a: Attempt,
                               model: string, dimensions: nat, embed: string -> Vector)
    requires Embeds(provider, model, dimensions, embed) && Consistent(index, documents, model, dimensions, embed)
    ensures Consistent(Rebuild(index, documents, provider, a.batchSize, a.stop).index, documents, model, dimensions, embed)
  {
    if DocumentsError(documents).None? && a.batchSize > 0 {
      var start := Resume(index.checkpoint, documents);
      BatchesAreFresh(documents, Completed(start), a.batchSize, start, 0, provider, a.stop, model, dimensions, embed);
    }
  }

  lemma {:induction false} AttemptsStayConsistent(index: Index, documents: seq<Document>, provider: Provider,
                                                  attempts: seq<Attempt>,
                                                  model: string, dimensions: nat, embed: string -> Vector)
    requires Embeds(provider, model, dimensions, embed) && Consistent(index, documents, model, dimensions, embed)
    ensures Consistent(Attempts(index, documents, provider, attempts), documents, model, dimensions, embed)
    decreases |attempts|
  {
    if attempts != [] {
      var next := Rebuild(index, documents, provider, attempts[0].batchSize, attempts[0].stop).index;
      AttemptStaysConsistent(index, documents, provider, attempts[0], model, dimensions, embed);
      AttemptsStayConsistent(next, documents, provider, attempts[1..], model, dimensions, embed);
    }
  }

  lemma ConsistentRebuildIsFresh(index: Index, documents: seq<Document>, provider: Provider, batchSize: int,
                                 model: string, dimensions: nat, embed: string -> Vector)
    requires Embeds(provider, model, dimensions, embed) && Consistent(index, documents, model, dimensions, embed)
    requires DocumentsError(documents).None? && batchSize > 0
    ensures Rebuild(index, documents, provider, batchSize, RunToEnd).index
         == Index(Some(FreshSnapshot(documents, |documents|, model, dimensions, embed)), None)
    ensures Rebuild(index, documents, provider, batchSize, RunToEnd).result.Ok?
  {
    var start := Resume(index.checkpoint, documents);
    BatchesAreFresh(documents, Completed(start), batchSize, start, 0, provider, RunToEnd, model, dimensions, embed);
    BatchesCover(documents, Completed(start), batchSize, start, 0, provider, RunToEnd);
  }

  // After any number of rebuilds, each stopped anywhere and with its own batch size,
  // one that runs to the end leaves what a single uninterrupted rebuild leaves.
  lemma CrashesDoNotMatter(index: Index, documents: seq<Document>, provider: Provider, attempts: seq<Attempt>,
                           batchSize: int, otherSize: int, model: string, dimensions: nat, embed: string -> Vector)
    requires Embeds(provider, model, dimensions, embed) && index.checkpoint.None?
    requires DocumentsError(documents).None? && batchSize > 0 && otherSize > 0
    ensures Rebuild(Attempts(index, documents, provider, attempts), documents, provider, batchSize, RunToEnd).index
         == Rebuild(index, documents, provider, otherSize, RunToEnd).index
  {
    AttemptsStayConsistent(index, documents, provider, attempts, model, dimensions, embed);
    ConsistentRebuildIsFresh(Attempts(index, documents, provider, attempts), documents, provider, batchSize,
                             model, dimensions, embed);
    ConsistentRebuildIsFresh(index, documents, provider, otherSize, model, dimensions, embed);
  }

  // A checkpoint is matched by identifiers alone, so text that changed since is not
  // embedded again: the result is the fresh one exactly when the checkpoint that
  // fits, if any, is itself part of the fresh one.
  lemma StaleCheckpointsSurvive(index: Index, documents: seq<Document>, provider: Provider, batchSize: int,
                                model: string, dimensions: nat, embed: string -> Vector)
    requires Embeds(provider, model, dimensions, embed) && DocumentsError(documents).None? && batchSize > 0
    ensures Rebuild(index, documents, provider, batchSize, RunToEnd).index
            == Index(Some(FreshSnapshot(documents, |documents|, model, dimensions, embed)), None)
            <==> Consistent(index, documents, model, dimensions, embed)
  {
    if Consistent(index, documents, model, dimensions, embed) {
      ConsistentRebuildIsFresh(index, documents, provider, batchSize, model, dimensions, embed);
    } else {
      var start := Resume(index.checkpoint, documents);
      BatchesCover(documents, Completed(start), batchSize, start, 0, provider, RunToEnd);
      assert Fresh(documents, embed)[..|documents|] == Fresh(documents, embed);
    }
  }

  // The first n documents of both lists were captured at the same times and embed alike.
  predicate Unchanged(was: seq<Document>, now: seq<Document>, n: nat, embed: string -> Vector)
    requires n <= |was| && n <= |now|
  {
    forall i :: 0 <= i < n ==>
      was[i].capturedAt == now[i].capturedAt && embed(was[i].content) == embed(now[i].content)
  }

  // Whether the first n documents of `was` stand at the head of `now` by identifier.
  predicate Heads(was: seq<Document>, n: nat, now: seq<Document>)
    requires n <= |was|
  {
    n <= |now| && forall i :: 0 <= i < n ==> was[i].recordId == now[i].recordId
  }

  lemma SamePartWhenUnchanged(was: seq<Document>, now: seq<Document>, n: nat, model: string, dimensions: nat,
                              embed: string -> Vector)
    requires n <= |was| && n <= |now| && Heads(was, n, now)
    ensures FreshSnapshot(was, n, model, dimensions, embed) == FreshSnapshot(now, n, model, dimensions, embed)
            <==> Unchanged(was, now, n, embed)
  {
    if FreshSnapshot(was, n, model, dimensions, embed) == FreshSnapshot(now, n, model, dimensions, embed) {
      forall i | 0 <= i < n
        ensures was[i].capturedAt == now[i].capturedAt && embed(was[i].content) == embed(now[i].content)
      {
        assert Fresh(was, embed)[..n][i] == Fresh(now, embed)[..n][i];
      }
    }
  }

  // A rebuild of `was` was cut off after n documents, and now the documents are `now`:
  // the rebuild that goes on is the fresh one exactly when the identifiers no longer
  // fit, so that it starts over, or the n documents are unchanged.
  lemma ChangedTextSurvives(index: Index, was: seq<Document>, n: nat, now: seq<Document>, provider: Provider,
                            batchSize: int, model: string, dimensions: nat, embed: string -> Vector)
    requires Embeds(provider, model, dimensions, embed) && DocumentsError(now).None? && batchSize > 0
    requires n <= |was| && index.checkpoint == Some(FreshSnapshot(was, n, model, dimensions, embed))
    ensures Rebuild(index, now, provider, batchSize, RunToEnd).index
            == Index(Some(FreshSnapshot(now, |now|, model, dimensions, embed)), None)
            <==> (Heads(was, n, now) ==> Unchanged(was, now, n, embed))
  {
    StaleCheckpointsSurvive(index, now, provider, batchSize, model, dimensions, embed);
    assert Heads(was, n, now) <==> MatchesPrefix(index.checkpoint.value, now);
    if Heads(was, n, now) {
      SamePartWhenUnchanged(was, now, n, model, dimensions, embed);
    }
  }

  // One text changes between a rebuild that is cut off and the one that completes.
  const Old := [Document(1, 0, "old", true), Document(2, 0, "same", true)]
  const New := [Document(1, 0, "new", true), Document(2, 0, "same", true)]

  function Embedding(text: string): Vector {
    if text == "old" then [1.0] else [0.0]
  }

  // The provider that answers with `embed` of every text.
  function Answers(model: string, embed: string -> Vector): Provider {
    (n: nat, texts: seq<string>) =>
      Some(Response(model, seq(|texts|, i requires 0 <= i < |texts| => embed(texts[i]))))
  }

  lemma AnswersEmbed(model: string, dimensions: nat, embed: string -> Vector)
    requires dimensions > 0 && forall text :: |embed(text)| == dimensions
    ensures Embeds(Answers(model, embed), model, dimensions, embed)
  {
    forall n: nat, texts: seq<string>
      ensures Answers(model, embed)(n, texts)
           == Some(Response(model, seq(|texts|, i requires 0 <= i < |texts| => embed(texts[i]))))
    {
      var vectors := seq(|texts|, i requires 0 <= i < |texts| => embed(texts[i]));
      assert Answers(model, embed)(n, texts).value.vectors == vectors;
    }
  }

  const Answer := Answers("m", Embedding)

  lemma OldAndNewAreValid()
    ensures Embeds(Answer, "m", 1, Embedding)
    ensures DocumentsError(Old).None? && DocumentsError(New).None?
  {
    AnswersEmbed("m", 1, Embedding);
    assert forall d :: d in Old || d in New ==> d.redacted;
    assert Distinct(DocumentIds(Old)) && Distinct(DocumentIds(New));
  }

  lemma OldIsCutOff()
    ensures Rebuild(Index(None, None), Old, Answer, 1, StopBeforeBatch(1)).index
         == Index(None, Some(FreshSnapshot(Old, 1, "m", 1, Embedding)))
  {
    OldAndNewAreValid();
    EmbeddedIsFresh(Old, 0, 1, None, 0, Answer, "m", 1, Embedding);
  }

  // It completes, with the vector of the text that is no longer there.
  lemma CompletedWithTheOldVector()
    ensures var cut := Rebuild(Index(None, None), Old, Answer, 1, StopBeforeBatch(1)).index;
            var done := Rebuild(cut, New, Answer, 1, RunToEnd);
            && done.result.Ok? && done.index.active.Some? && |done.index.active.value.entries| == 2
            && done.index.active.value.entries[0] == Entry(1, 0, Embedding("old"))
            && Embedding("old") != Embedding(New[0].content)
  {
    OldIsCutOff();
    OldAndNewAreValid();
    var cut := Rebuild(Index(None, None), Old, Answer, 1, StopBeforeBatch(1)).index;
    var start := cut.checkpoint;
    assert start.value.entries == [Entry(1, 0, [1.0])];
    ResumedRebuildFinishes(cut, New, Answer, 1, "m", 1);
    BatchesCover(New, 1, 1, start, 0, Answer, RunToEnd);
  }

  // A provider of one model and dimension, whatever its vectors are.
  ghost predicate Uniform(provider: Provider, model: string, dimensions: nat) {
    && dimensions > 0
    && (forall n: nat, texts: seq<string> ::
          && provider(n, texts).Some?
          && provider(n, texts).value.model == model
          && |provider(n, texts).value.vectors| == |texts|
          && forall v :: v in provider(n, texts).value.vectors ==> |v| == dimensions)
  }

  lemma UniformEmbeds(batch: seq<Document>, call: nat, done: Option<Snapshot>, provider: Provider, model: string,
                      dimensions: nat)
    requires Uniform(provider, model, dimensions) && batch != []
    ensures var embedded := Embedded(done, batch, call, provider);
            if done.None? || (done.value.model == model && done.value.dimensions == dimensions) then
              embedded.Ok? && embedded.value.model == model && embedded.value.dimensions == dimensions
            else
              embedded == Err(ModelMismatch)
  {
    var vectors := provider(call, Texts(batch)).value.vectors;
    assert vectors[0] in vectors;
  }

  lemma {:induction false} UniformBatchesEnd(documents: seq<Document>, offset: nat, batchSize: nat, done: Option<Snapshot>,
                                             calls: nat, provider: Provider, model: string, dimensions: nat)
    requires batchSize > 0 && Uniform(provider, model, dimensions)
    requires done.Some? ==> done.value.model == model && done.value.dimensions == dimensions
    ensures Batches(documents, offset, batchSize, done, calls, provider, RunToEnd).error.None?
    decreases |documents| - offset
  {
    if offset < |documents| {
      var next := BatchEnd(offset, batchSize, |documents|);
      UniformEmbeds(documents[offset..next], calls, done, provider, model, dimensions);
      UniformBatchesEnd(documents, next, batchSize, Some(Embedded(done, documents[offset..next], calls, provider).value),
                        calls + 1, provider, model, dimensions);
    }
  }

  // The checkpoint that would be resumed is of the provider's model, or needs no more of it.
  predicate Resumable(start: Option<Snapshot>, n: nat, model: string, dimensions: nat) {
    start.Some? ==> |start.value.entries| == n || (start.value.model == model && start.value.dimensions == dimensions)
  }

  // A rebuild of valid documents completes exactly when the checkpoint it would resume,
  // if any, is resumable; and otherwise it fails at its first batch and leaves both
  // files as they were, so that every later one fails too.
  lemma ResumedRebuildFinishes(index: Index, documents: seq<Document>, provider: Provider, batchSize: int,
                               model: string, dimensions: nat)
    requires Uniform(provider, model, dimensions)
    ensures var done := Rebuild(index, documents, provider, batchSize, RunToEnd);
            var start := Resume(index.checkpoint, documents);
            && (done.result.Ok? <==> DocumentsError(documents).None? && batchSize > 0
                                     && Resumable(start, |documents|, model, dimensions))
            && (DocumentsError(documents).None? && batchSize > 0 && !Resumable(start, |documents|, model, dimensions) ==>
                  done == Outcome(index, Err(ModelMismatch)))
  {
    if DocumentsError(documents).None? && batchSize > 0 {
      var start := Resume(index.checkpoint, documents);
      var offset := Completed(start);
      BatchesCover(documents, offset, batchSize, start, 0, provider, RunToEnd);
      if offset < |documents| {
        UniformEmbeds(documents[offset..BatchEnd(offset, batchSize, |documents|)], 0, start, provider, model, dimensions);
        if Resumable(start, |documents|, model, dimensions) {
          UniformBatchesEnd(documents, offset, batchSize, start, 0, provider, model, dimensions);
        }
      }
    }
  }

  lemma AnswersAreUniform(model: string, dimensions: nat, embed: string -> Vector)
    requires dimensions > 0 && forall text :: |embed(text)| == dimensions
    ensures Uniform(Answers(model, embed), model, dimensions)
  {
  }

  // The rebuild that was cut off, gone on with another model, is refused.
  lemma AnotherModelIsRefused()
    ensures var cut := Rebuild(Index(None, None), Old, Answer, 1, StopBeforeBatch(1)).index;
            Rebuild(cut, Old, Answers("n", Embedding), 1, RunToEnd) == Outcome(cut, Err(ModelMismatch))
  {
    OldIsCutOff();
    OldAndNewAreValid();
    AnswersAreUniform("n", 1, Embedding);
    var cut := Rebuild(Index(None, None), Old, Answer, 1, StopBeforeBatch(1)).index;
    assert cut.checkpoint.value.model == "m" && |cut.checkpoint.value.entries| == 1;
    assert MatchesPrefix(cut.checkpoint.value, Old);
    ResumedRebuildFinishes(cut, Old, Answers("n", Embedding), 1, "n", 1);
  }

  // The same for a provider of which nothing is known but that its first answer is of
  // another model: however the rebuild would be stopped, it fails at its first batch and
  // leaves both files as they were.
  lemma ModelChangeBlocks(index: Index, documents: seq<Document>, provider: Provider, batchSize: int, stop: Stop)
    requires DocumentsError(documents).None? && batchSize > 0
    requires var start := Resume(index.checkpoint, documents);
             && start.Some? && |start.value.entries| < |documents|
             && forall texts: seq<string> :: provider(0, texts).Some? ==> provider(0, texts).value.model != start.value.model
    ensures Rebuild(index, documents, provider, batchSize, stop).result.Err?
    ensures Rebuild(index, documents, provider, batchSize, stop).index == index
  {
    var start := Resume(index.checkpoint, documents);
    var offset := |start.value.entries|;
    var next := BatchEnd(offset, batchSize, |documents|);
    assert Embedded(start, documents[offset..next], 0, provider).Err?;
  }

  // ---------- the entries as a map ----------

  function View(entries: seq<Entry>): map<RecordId, Entry> {
    if entries == [] then map[] else View(entries[1..])[entries[0].recordId := entries[0]]
  }

  predicate Ascending(entries: seq<Entry>) {
    forall i, j :: 0 <= i < j < |entries| ==> entries[i].recordId < entries[j].recordId
  }

  predicate DistinctEntries(entries: seq<Entry>) {
    forall i, j :: 0 <= i < j < |entries| ==> entries[i].recordId != entries[j].recordId
  }

  lemma {:induction false} ViewMembers(entries: seq<Entry>, id: RecordId)
    requires DistinctEntries(entries)
    ensures id in View(entries) <==> exists e :: e in entries && e.recordId == id
    ensures id in View(entries) ==> View(entries)[id] in entries && View(entries)[id].recordId == id
    ensures forall e :: e in entries && e.recordId == id ==> id in View(entries) && View(entries)[id] == e
  {
    if entries != [] {
      ViewMembers(entries[1..], id);
      assert entries == [entries[0]] + entries[1..];
    }
  }

  lemma ViewOfCons(e: Entry, rest: seq<Entry>)
    ensures View([e] + rest) == View(rest)[e.recordId := e]
  {
    assert ([e] + rest)[1..] == rest;
  }

  // Inserting keeps the order and overrides one key.
  lemma {:induction false} PutOverrides(entries: seq<Entry>, e: Entry)
    ensures View(Put(entries, e)) == View(entries)[e.recordId := e]
    ensures forall x :: x in Put(entries, e) ==> x == e || x in entries
  {
    if entries == [] {
      ViewOfCons(e, []);
    } else {
      var first, rest := entries[0], entries[1..];
      assert entries == [first] + rest;
      ViewOfCons(first, rest);
      if e.recordId < first.recordId {
        ViewOfCons(e, entries);
      } else if e.recordId == first.recordId {
        ViewOfCons(e, rest);
      } else {
        PutOverrides(rest, e);
        ViewOfCons(first, Put(rest, e));
      }
    }
  }

  lemma {:induction false} PutKeepsOrder(entries: seq<Entry>, e: Entry)
    requires Ascending(entries)
    ensures Ascending(Put(entries, e))
  {
    if entries != [] && e.recordId > entries[0].recordId {
      PutKeepsOrder(entries[1..], e);
      PutOverrides(entries[1..], e);
      var rest := Put(entries[1..], e);
      forall j | 0 <= j < |rest| ensures entries[0].recordId < rest[j].recordId {
        assert rest[j] in rest;
      }
    }
  }

  lemma PutIsOverride(entries: seq<Entry>, e: Entry)
    requires Ascending(entries)
    ensures Ascending(Put(entries, e))
    ensures View(Put(entries, e)) == View(entries)[e.recordId := e]
    ensures forall x :: x in Put(entries, e) ==> x == e || x in entries
  {
    PutKeepsOrder(entries, e);
    PutOverrides(entries, e);
  }

  lemma OverrideMovesOver(m: map<RecordId, Entry>, e: Entry, rest: map<RecordId, Entry>)
    requires e.recordId !in rest
    ensures m[e.recordId := e] + rest == m + rest[e.recordId := e]
  {
  }

  lemma {:induction false} PutAllIsOverride(entries: seq<Entry>, added: seq<Entry>)
    requires Ascending(entries) && DistinctEntries(added)
    ensures Ascending(PutAll(entries, added))
    ensures View(PutAll(entries, added)) == View(entries) + View(added)
    ensures forall x :: x in PutAll(entries, added) ==> x in entries || x in added
    decreases |added|
  {
    if added != [] {
      PutIsOverride(entries, added[0]);
      PutAllIsOverride(Put(entries, added[0]), added[1..]);
      ViewMembers(added[1..], added[0].recordId);
      OverrideMovesOver(View(entries), added[0], View(added[1..]));
    }
  }

  lemma {:induction false} PutAllSplits(entries: seq<Entry>, a: seq<Entry>, b: seq<Entry>)
    ensures PutAll(entries, a + b) == PutAll(PutAll(entries, a), b)
    decreases |a|
  {
    if a == [] {
      assert a + b == b;
    } else {
      assert (a + b)[1..] == a[1..] + b;
      PutAllSplits(Put(entries, a[0]), a[1..], b);
    }
  }

  lemma {:induction false} WithoutKeepsMembers(entries: seq<Entry>, ids: set<RecordId>)
    requires DistinctEntries(entries)
    ensures DistinctEntries(Without(entries, ids))
    ensures forall x :: x in Without(entries, ids) ==> x in entries
  {
    if entries != [] {
      WithoutKeepsMembers(entries[1..], ids);
      var rest := Without(entries[1..], ids);
      forall j | 0 <= j < |rest| ensures rest[j].recordId != entries[0].recordId {
        assert rest[j] in entries[1..];
      }
    }
  }

  lemma {:induction false} WithoutIsRestriction(entries: seq<Entry>, ids: set<RecordId>)
    requires DistinctEntries(entries)
    ensures View(Without(entries, ids)) == View(entries) - ids
  {
    if entries != [] {
      var first, rest := entries[0], entries[1..];
      assert entries == [first] + rest;
      ViewOfCons(first, rest);
      WithoutIsRestriction(rest, ids);
      ViewMembers(rest, first.recordId);
      if first.recordId !in ids {
        ViewOfCons(first, Without(rest, ids));
      }
    }
  }

  // ---------- every operation ----------

  predicate IndexOk(index: Index) {
    && (index.active.Some? ==> SnapshotOk(index.active.value))
    && (index.checkpoint.Some? ==> SnapshotOk(index.checkpoint.value))
  }

  datatype Operation =
    | RebuildOp(documents: seq<Document>, provider: Provider, batchSize: int, stop: Stop)
    | AddOp(documents: seq<Document>, provider: Provider)
    | RemoveOp(ids: seq<RecordId>)
    | ClearOp

  function Perform(index: Index, op: Operation): Index {
    match op
    case RebuildOp(documents, provider, batchSize, stop) => Rebuild(index, documents, provider, batchSize, stop).index
    case AddOp(documents, provider) => Add(index, documents, provider).index
    case RemoveOp(ids) => Remove(index, ids).index
    case ClearOp => Clear(index)
  }

  function PerformAll(index: Index, ops: seq<Operation>): Index
    decreases |ops|
  {
    if ops == [] then index else PerformAll(Perform(index, ops[0]), ops[1..])
  }

  lemma DistinctIsDistinct(entries: seq<Entry>)
    ensures Distinct(EntryIds(entries)) <==> DistinctEntries(entries)
  {
    if Distinct(EntryIds(entries)) {
      forall i, j | 0 <= i < j < |entries| ensures entries[i].recordId != entries[j].recordId {
        assert EntryIds(entries)[i] != EntryIds(entries)[j];
      }
    }
  }

  lemma RebuildKeepsOk(index: Index, documents: seq<Document>, provider: Provider, batchSize: int, stop: Stop)
    requires IndexOk(index)
    ensures IndexOk(Rebuild(index, documents, provider, batchSize, stop).index)
  {
    if DocumentsError(documents).None? && batchSize > 0 {
      var start := Resume(index.checkpoint, documents);
      BatchesCover(documents, Completed(start), batchSize, start, 0, provider, stop);
      var p := Batches(documents, Completed(start), batchSize, start, 0, provider, stop);
      if p.done.Some? {
        PrefixIds(p.done.value, documents);
      }
    }
  }

  lemma NoEntries()
    ensures Ascending([]) && View([]) == map[]
  {
  }

  lemma AddedAreDistinct(documents: seq<Document>, vectors: seq<Vector>)
    requires |vectors| == |documents| && Distinct(DocumentIds(documents))
    ensures DistinctEntries(Entries(documents, vectors))
  {
    var added := Entries(documents, vectors);
    forall i, j | 0 <= i < j < |added| ensures added[i].recordId != added[j].recordId {
      assert DocumentIds(documents)[i] != DocumentIds(documents)[j];
    }
  }

  // The entries that add stores.
  lemma AddedEntries(current: seq<Entry>, documents: seq<Document>, vectors: seq<Vector>)
    requires DistinctEntries(current) && |vectors| == |documents| && Distinct(DocumentIds(documents))
    ensures var entries := PutAll([], current + Entries(documents, vectors));
            && Ascending(entries)
            && View(entries) == View(current) + View(Entries(documents, vectors))
            && (forall x :: x in entries ==> x in current || x in Entries(documents, vectors))
  {
    hide PutAll, View, Entries, DistinctEntries, Ascending, Distinct;
    var added := Entries(documents, vectors);
    AddedAreDistinct(documents, vectors);
    NoEntries();
    PutAllSplits([], current, added);
    PutAllIsOverride([], current);
    PutAllIsOverride(PutAll([], current), added);
  }

  lemma AddKeepsOk(index: Index, documents: seq<Document>, provider: Provider)
    requires IndexOk(index)
    ensures IndexOk(Add(index, documents, provider).index)
  {
    if Add(index, documents, provider).result.Ok? {
      var current := index.active.value;
      var vectors := provider(0, Texts(documents)).value.vectors;
      DistinctIsDistinct(current.entries);
      AddedEntries(current.entries, documents, vectors);
      var entries := PutAll([], current.entries + Entries(documents, vectors));
      DistinctIsDistinct(entries);
      forall e | e in entries ensures |e.vector| == current.dimensions {
        if e !in current.entries {
          var i :| 0 <= i < |documents| && Entries(documents, vectors)[i] == e;
          assert vectors[i] in vectors;
        }
      }
    }
  }

  lemma RemoveKeepsOk(index: Index, ids: seq<RecordId>)
    requires IndexOk(index)
    ensures IndexOk(Remove(index, ids).index)
  {
    if index.active.Some? {
      DistinctIsDistinct(index.active.value.entries);
      WithoutKeepsMembers(index.active.value.entries, IdSet(ids));
      DistinctIsDistinct(Without(index.active.value.entries, IdSet(ids)));
    }
  }

  // Over every history of operations, failed and interrupted ones included, ids stay
  // unique and every vector has the dimension of its snapshot.
  lemma {:induction false} HistoryKeepsOk(index: Index, ops: seq<Operation>)
    requires IndexOk(index)
    ensures IndexOk(PerformAll(index, ops))
    decreases |ops|
  {
    if ops != [] {
      match ops[0] {
        case RebuildOp(documents, provider, batchSize, stop) => RebuildKeepsOk(index, documents, provider, batchSize, stop);
        case AddOp(documents, provider) => AddKeepsOk(index, documents, provider);
        case RemoveOp(ids) => RemoveKeepsOk(index, ids);
        case ClearOp =>
      }
      HistoryKeepsOk(Perform(index, ops[0]), ops[1..]);
    }
  }

  // The map an index stands for.
  function Contents(index: Index): map<RecordId, Entry> {
    if index.active.None? then map[] else View(index.active.value.entries)
  }

  // An add that succeeds overrides the map, a failed one leaves it; a removal is a
  // restriction; clearing empties the map.
  lemma OperationsRefineTheMap(ops: seq<Operation>, documents: seq<Document>, provider: Provider, ids: seq<RecordId>)
    ensures var index := PerformAll(Index(None, None), ops);
            var added := Add(index, documents, provider);
            var removed := Remove(index, ids);
            && Contents(added.index)
               == (if added.result.Ok?
                   then Contents(index) + View(Entries(documents, provider(0, Texts(documents)).value.vectors))
                   else Contents(index))
            && Contents(removed.index)
               == (if removed.result.Ok? then Contents(index) - IdSet(ids) else Contents(index))
            && Contents(Clear(index)) == map[]
  {
    var index := PerformAll(Index(None, None), ops);
    HistoryKeepsOk(Index(None, None), ops);
    if index.active.Some? {
      var entries := index.active.value.entries;
      DistinctIsDistinct(entries);
      WithoutIsRestriction(entries, IdSet(ids));
      if Add(index, documents, provider).result.Ok? {
        AddedEntries(entries, documents, provider(0, Texts(documents)).value.vectors);
      }
    }
  }

  // ---------- search ----------

  predicate Ranked(hits: seq<Hit>) {
    forall i, j :: 0 <= i < j < |hits| ==> Before(hits[i], hits[j])
  }

  // Two hits that are neither before each other have the same identifier.
  lemma BeforeIsTotal(a: Hit, b: Hit)
    ensures a.recordId != b.recordId ==> Before(a, b) || Before(b, a)
    ensures !(Before(a, b) && Before(b, a))
  {
  }

  predicate DistinctHits(hits: seq<Hit>) {
    forall i, j :: 0 <= i < j < |hits| ==> hits[i].recordId != hits[j].recordId
  }

  lemma {:induction false} InsertedRanks(sorted: seq<Hit>, h: Hit)
    requires Ranked(sorted) && forall x :: x in sorted ==> x.recordId != h.recordId
    ensures Ranked(Inserted(sorted, h))
    ensures forall x :: x in Inserted(sorted, h) <==> x == h || x in sorted
    ensures |Inserted(sorted, h)| == |sorted| + 1
  {
    if sorted != [] && Before(sorted[0], h) {
      assert forall i, j :: 0 <= i < j < |sorted[1..]| ==> sorted[1..][i] == sorted[i + 1] && sorted[1..][j] == sorted[j + 1];
      InsertedRanks(sorted[1..], h);
      forall x | x in Inserted(sorted[1..], h) ensures Before(sorted[0], x) {
      }
    } else if sorted != [] {
      BeforeIsTotal(sorted[0], h);
    }
  }

  lemma {:induction false} SortRanks(hits: seq<Hit>)
    requires DistinctHits(hits)
    ensures Ranked(SortHits(hits)) && |SortHits(hits)| == |hits|
    ensures forall x :: x in SortHits(hits) <==> x in hits
  {
    if hits != [] {
      SortRanks(hits[1..]);
      assert hits == [hits[0]] + hits[1..];
      InsertedRanks(SortHits(hits[1..]), hits[0]);
    }
  }

  // A ranked sequence is determined by its elements.
  lemma {:induction false} RankedIsUnique(a: seq<Hit>, b: seq<Hit>)
    requires Ranked(a) && Ranked(b) && forall x :: x in a <==> x in b
    ensures a == b
    decreases |a|
  {
    if a != [] {
      assert a[0] in b;
    }
    if b != [] {
      assert b[0] in a;
      assert a[0] == b[0] by {
        if a[0] != b[0] {
          var i :| 0 <= i < |b| && b[i] == a[0];
          var j :| 0 <= j < |a| && a[j] == b[0];
          BeforeIsTotal(a[0], b[0]);
          assert false;
        }
      }
      forall x ensures x in a[1..] <==> x in b[1..] {
        RestMembers(a, x);
        RestMembers(b, x);
      }
      RankedIsUnique(a[1..], b[1..]);
    }
  }

  lemma RestMembers(a: seq<Hit>, x: Hit)
    requires Ranked(a) && a != []
    ensures x in a[1..] <==> x in a && x != a[0]
  {
    if x in a[1..] {
      var i :| 0 <= i < |a[1..]| && a[1..][i] == x;
      assert Before(a[0], a[i + 1]);
      BeforeIsTotal(a[0], a[0]);
    }
  }

  lemma {:induction false} HitsOfEntries(entries: seq<Entry>, query: Query, vector: Vector, score: Score)
    requires DistinctEntries(entries)
    ensures DistinctHits(Hits(entries, query, vector, score))
    ensures forall h :: h in Hits(entries, query, vector, score) <==>
                exists e :: e in entries && Within(query, e.capturedAt) && h == HitOf(e, vector, score)
  {
    if entries != [] {
      HitsOfEntries(entries[1..], query, vector, score);
      assert entries == [entries[0]] + entries[1..];
      var rest := Hits(entries[1..], query, vector, score);
      forall h | h in rest ensures h.recordId != entries[0].recordId {
        var e :| e in entries[1..] && h == HitOf(e, vector, score);
      }
    }
  }

  lemma RankingKeepsTheBest(entries: seq<Entry>, query: Query, vector: Vector, score: Score, h: Hit)
    requires DistinctEntries(entries)
    ensures var all := Hits(entries, query, vector, score);
            var found := First(SortHits(all), query.limit);
            && Ranked(found)
            && |found| == (if |all| <= query.limit then |all| else query.limit)
            && (h in all <==> exists e :: e in entries && Within(query, e.capturedAt) && h == HitOf(e, vector, score))
            && (h in found ==> h in all)
            && (h in all && h !in found ==> |found| == query.limit && forall x :: x in found ==> Before(x, h))
  {
    var all := Hits(entries, query, vector, score);
    HitsOfEntries(entries, query, vector, score);
    SortRanks(all);
    var sorted := SortHits(all);
    if h in all && h !in First(sorted, query.limit) {
      var j :| 0 <= j < |sorted| && sorted[j] == h;
    }
  }

  // The vector a search ranks by.
  function QueryVector(provider: Provider, query: Query): Vector {
    var response := provider(0, [query.text]);
    if response.None? || response.value.vectors == [] then [] else response.value.vectors[0]
  }

  // The hit of an entry of the map in the time window.
  predicate IsHit(contents: map<RecordId, Entry>, query: Query, vector: Vector, score: Score, h: Hit) {
    && h.recordId in contents
    && Within(query, contents[h.recordId].capturedAt)
    && h == HitOf(contents[h.recordId], vector, score)
  }

  lemma HitsAreOfTheMap(entries: seq<Entry>, query: Query, vector: Vector, score: Score, h: Hit)
    requires DistinctEntries(entries)
    ensures IsHit(View(entries), query, vector, score, h)
            <==> exists e :: e in entries && Within(query, e.capturedAt) && h == HitOf(e, vector, score)
  {
    ViewMembers(entries, h.recordId);
  }

  // After every history of operations, a search that answers returns the best hits of the
  // map in the time window: ranked, every one of them while the limit is not reached, and
  // what it leaves out ranks after everything it returns.
  lemma SearchReturnsTheBest(ops: seq<Operation>, query: Query, provider: Provider, score: Score, h: Hit)
    requires Search(PerformAll(Index(None, None), ops), query, provider, score).Ok?
    ensures var index := PerformAll(Index(None, None), ops);
            var found := Search(index, query, provider, score).value;
            var vector := QueryVector(provider, query);
            && Ranked(found) && |found| <= query.limit
            && (h in found ==> IsHit(Contents(index), query, vector, score, h))
            && (IsHit(Contents(index), query, vector, score, h) && h !in found ==>
                  |found| == query.limit && forall x :: x in found ==> Before(x, h))
  {
    hide Ranked, Hits, SortHits, First, View, IsHit;
    var index := PerformAll(Index(None, None), ops);
    var vector := QueryVector(provider, query);
    HistoryKeepsOk(Index(None, None), ops);
    if index.active.Some? {
      DistinctIsDistinct(index.active.value.entries);
      RankingKeepsTheBest(index.active.value.entries, query, vector, score, h);
      HitsAreOfTheMap(index.active.value.entries, query, vector, score, h);
    } else {
      NothingFound(query, vector, score, h);
    }
  }

  lemma NothingFound(query: Query, vector: Vector, score: Score, h: Hit)
    ensures Ranked([]) && !IsHit(map[], query, vector, score, h)
  {
  }

  lemma RankingSeesOnlyTheMap(a: seq<Entry>, b: seq<Entry>, query: Query, vector: Vector, score: Score)
    requires DistinctEntries(a) && DistinctEntries(b) && View(a) == View(b)
    ensures SortHits(Hits(a, query, vector, score)) == SortHits(Hits(b, query, vector, score))
  {
    forall e ensures e in a <==> e in b {
      ViewMembers(a, e.recordId);
      ViewMembers(b, e.recordId);
    }
    HitsOfEntries(a, query, vector, score);
    HitsOfEntries(b, query, vector, score);
    SortRanks(Hits(a, query, vector, score));
    SortRanks(Hits(b, query, vector, score));
    RankedIsUnique(SortHits(Hits(a, query, vector, score)), SortHits(Hits(b, query, vector, score)));
  }

  // Both are uninitialized, or of the same model and dimension.
  predicate SameSpace(a: Index, b: Index) {
    && (a.active.Some? <==> b.active.Some?)
    && (a.active.Some? ==> a.active.value.model == b.active.value.model && a.active.value.dimensions == b.active.value.dimensions)
  }

  // Two histories that end in the same map in the same space give every search the same
  // answer, whatever order their entries are stored in.
  lemma SearchSeesOnlyTheMap(opsA: seq<Operation>, opsB: seq<Operation>, query: Query, provider: Provider, score: Score)
    requires var a := PerformAll(Index(None, None), opsA);
             var b := PerformAll(Index(None, None), opsB);
             Contents(a) == Contents(b) && SameSpace(a, b)
    ensures Search(PerformAll(Index(None, None), opsA), query, provider, score)
         == Search(PerformAll(Index(None, None), opsB), query, provider, score)
  {
    hide Hits, SortHits, View;
    var a := PerformAll(Index(None, None), opsA);
    var b := PerformAll(Index(None, None), opsB);
    HistoryKeepsOk(Index(None, None), opsA);
    HistoryKeepsOk(Index(None, None), opsB);
    if a.active.Some? {
      DistinctIsDistinct(a.active.value.entries);
      DistinctIsDistinct(b.active.value.entries);
      if Search(a, query, provider, score).Ok? {
        var vector := provider(0, [query.text]).value.vectors[0];
        RankingSeesOnlyTheMap(a.active.value.entries, b.active.value.entries, query, vector, score);
      }
    }
  }
}
