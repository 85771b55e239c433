/**
 The index said outright, on the fields of its entries and hits: how a search ranks and
 what it leaves out, which documents and answers are refused, what the provider is asked,
 and in which order entries are stored.
 */
module IndexOutcomes {
  import opened Wrappers
  import opened IndexModel
  import opened IndexTheorems

  // ---------- search ----------

  // A hit stands for this entry of the window.
  predicate StandsFor(h: Hit, e: Entry, query: Query, vector: Vector, score: Score) {
    && h.recordId == e.recordId && h.capturedAt == e.capturedAt && h.score == score(vector, e.vector)
    && InWindow(e, query)
  }

  predicate InWindow(e: Entry, query: Query) {
    && (query.startAt.Some? ==> query.startAt.value <= e.capturedAt)
    && (query.endAt.Some? ==> e.capturedAt < query.endAt.value)
  }

  // The better score first; then the earlier capture; then the smaller identifier.
  predicate Better(a: Hit, b: Hit) {
    && a.score >= b.score
    && (a.score == b.score ==> a.capturedAt <= b.capturedAt)
    && (a.score == b.score && a.capturedAt == b.capturedAt ==> a.recordId < b.recordId)
  }

  lemma BeforeIsBetter(a: Hit, b: Hit)
    ensures Before(a, b) <==> Better(a, b)
  {
  }

  // After every history: the hits stand for entries of the window, the better ones come
  // first, and an entry of the window is left out only when the limit is reached, by hits
  // that are all better.
  lemma SearchRanks(ops: seq<Operation>, query: Query, provider: Provider, score: Score)
    requires Search(PerformAll(Index(None, None), ops), query, provider, score).Ok?
    requires PerformAll(Index(None, None), ops).active.Some?
    ensures provider(0, [query.text]).Some? && |provider(0, [query.text]).value.vectors| == 1
    ensures var entries := PerformAll(Index(None, None), ops).active.value.entries;
            var found := Search(PerformAll(Index(None, None), ops), query, provider, score).value;
            var vector := provider(0, [query.text]).value.vectors[0];
            && |found| <= query.limit
            && (forall i, j :: 0 <= i < j < |found| ==> Better(found[i], found[j]))
            && (forall h :: h in found ==> exists e :: e in entries && StandsFor(h, e, query, vector, score))
            && (forall e :: e in entries && InWindow(e, query) ==>
                  || (exists h :: h in found && StandsFor(h, e, query, vector, score))
                  || (|found| == query.limit
                      && forall h :: h in found ==> Better(h, Hit(e.recordId, e.capturedAt, score(vector, e.vector)))))
  {
    hide Hits, SortHits, Before, Better;
    var index := PerformAll(Index(None, None), ops);
    var entries := index.active.value.entries;
    var vector := provider(0, [query.text]).value.vectors[0];
    var found := Search(index, query, provider, score).value;
    HistoryKeepsOk(Index(None, None), ops);
    DistinctIsDistinct(entries);
    forall i, j | 0 <= i < j < |found| ensures Better(found[i], found[j]) {
      RankingKeepsTheBest(entries, query, vector, score, found[i]);
      BeforeIsBetter(found[i], found[j]);
    }
    forall h | h in found ensures exists e :: e in entries && StandsFor(h, e, query, vector, score) {
      RankingKeepsTheBest(entries, query, vector, score, h);
    }
    forall e | e in entries && InWindow(e, query)
      ensures || (exists h :: h in found && StandsFor(h, e, query, vector, score))
              || (|found| == query.limit
                  && forall h :: h in found ==> Better(h, Hit(e.recordId, e.capturedAt, score(vector, e.vector))))
    {
      EntryIsFound(entries, query, vector, score, e, found);
    }
    assert found == First(SortHits(Hits(entries, query, vector, score)), query.limit);
    RankingKeepsTheBest(entries, query, vector, score, Hit(0, 0, 0.0));
  }

  lemma EntryIsFound(entries: seq<Entry>, query: Query, vector: Vector, score: Score, e: Entry, found: seq<Hit>)
    requires DistinctEntries(entries) && e in entries && InWindow(e, query)
    requires found == First(SortHits(Hits(entries, query, vector, score)), query.limit)
    ensures || (exists h :: h in found && StandsFor(h, e, query, vector, score))
            || (|found| == query.limit
                && forall h :: h in found ==> Better(h, Hit(e.recordId, e.capturedAt, score(vector, e.vector))))
  {
    hide Hits, SortHits, Before, Better;
    var mine := Hit(e.recordId, e.capturedAt, score(vector, e.vector));
    RankingKeepsTheBest(entries, query, vector, score, mine);
    assert mine == HitOf(e, vector, score) && Within(query, e.capturedAt);
    if mine in found {
      assert StandsFor(mine, e, query, vector, score);
    } else {
      forall h | h in found ensures Better(h, mine) {
        BeforeIsBetter(h, mine);
      }
    }
  }

  // When a search answers, and with which error it does not.
  lemma SearchAnswers(index: Index, query: Query, provider: Provider, score: Score)
    ensures var r := Search(index, query, provider, score);
            if index.active.None? then r == Ok([])
            else
              var answer := provider(0, [query.text]);
              if answer.None? then r == Err(ProviderFailed)
              else if |answer.value.vectors| != 1 then r == Err(WrongVectorCount)
              else if answer.value.vectors[0] == [] then r == Err(InconsistentDimensions)
              else if answer.value.model != index.active.value.model
                   || |answer.value.vectors[0]| != index.active.value.dimensions then r == Err(ModelMismatch)
              else r.Ok?
  {
  }

  // ---------- what is refused ----------

  // Nothing that is empty, not redacted or double is embedded, and the index stays as it was.
  lemma DocumentsRefused(index: Index, documents: seq<Document>, provider: Provider, batchSize: int, stop: Stop)
    ensures documents == [] ==>
              Rebuild(index, documents, provider, batchSize, stop) == Outcome(index, Err(NoDocuments))
              && Add(index, documents, provider) == Outcome(index, Err(NoDocuments))
    ensures (exists i :: 0 <= i < |documents| && !documents[i].redacted) ==>
              Rebuild(index, documents, provider, batchSize, stop) == Outcome(index, Err(NotRedacted))
              && Add(index, documents, provider) == Outcome(index, Err(NotRedacted))
    ensures documents != [] && (forall i :: 0 <= i < |documents| ==> documents[i].redacted)
            && (exists i, j :: 0 <= i < j < |documents| && documents[i].recordId == documents[j].recordId) ==>
              Rebuild(index, documents, provider, batchSize, stop) == Outcome(index, Err(DuplicateIds))
              && Add(index, documents, provider) == Outcome(index, Err(DuplicateIds))
  {
    if i, j :| 0 <= i < j < |documents| && documents[i].recordId == documents[j].recordId {
      assert DocumentIds(documents)[i] == DocumentIds(documents)[j];
    }
  }

  predicate Acceptable(documents: seq<Document>) {
    && documents != []
    && (forall i :: 0 <= i < |documents| ==> documents[i].redacted)
    && (forall i, j :: 0 <= i < j < |documents| ==> documents[i].recordId != documents[j].recordId)
  }

  lemma AcceptableExactly(documents: seq<Document>)
    ensures DocumentsError(documents).None? <==> Acceptable(documents)
  {
    if Acceptable(documents) {
      assert Distinct(DocumentIds(documents));
    } else if documents != [] && forall i :: 0 <= i < |documents| ==> documents[i].redacted {
      var i, j :| 0 <= i < j < |documents| && documents[i].recordId == documents[j].recordId;
      assert DocumentIds(documents)[i] == DocumentIds(documents)[j];
    }
  }

  // An add asks once, for every document's text in order, and takes an answer of the
  // index's model with one vector of its dimension for each.
  lemma AddAnswers(index: Index, documents: seq<Document>, provider: Provider)
    requires Acceptable(documents)
    ensures var r := Add(index, documents, provider);
            if index.active.None? then r == Outcome(index, Err(NotInitialized))
            else
              var texts := seq(|documents|, i requires 0 <= i < |documents| => documents[i].content);
              var answer := provider(0, texts);
              if answer.None? then r == Outcome(index, Err(ProviderFailed))
              else if |answer.value.vectors| != |documents| then r == Outcome(index, Err(WrongVectorCount))
              else if answer.value.vectors[0] == []
                   || exists i :: 0 <= i < |documents| && |answer.value.vectors[i]| != |answer.value.vectors[0]|
              then r == Outcome(index, Err(InconsistentDimensions))
              else if answer.value.model != index.active.value.model
                   || |answer.value.vectors[0]| != index.active.value.dimensions
              then r == Outcome(index, Err(ModelMismatch))
              else
                && r.index.active.Some? && r.index.checkpoint == index.checkpoint
                && r.index.active.value.model == index.active.value.model
                && r.index.active.value.dimensions == index.active.value.dimensions
                && r.result == Ok(Manifest(index.active.value.model, index.active.value.dimensions,
                                           |r.index.active.value.entries|))
  {
    hide PutAll;
    AcceptableExactly(documents);
    assert Texts(documents) == seq(|documents|, i requires 0 <= i < |documents| => documents[i].content);
    if index.active.Some? && provider(0, Texts(documents)).Some? {
      ConsistentExactly(provider(0, Texts(documents)).value, |documents|);
    }
  }

  lemma ConsistentExactly(response: Response, n: nat)
    requires n > 0
    ensures ResponseError(response, n)
         == if |response.vectors| != n then Some(WrongVectorCount)
            else if response.vectors[0] == [] || exists i :: 0 <= i < n && |response.vectors[i]| != |response.vectors[0]|
            then Some(InconsistentDimensions) else None
  {
    if |response.vectors| == n {
      if v :| v in response.vectors && |v| != |response.vectors[0]| {
        var i :| 0 <= i < n && response.vectors[i] == v;
      }
      if i :| 0 <= i < n && |response.vectors[i]| != |response.vectors[0]| {
        assert response.vectors[i] in response.vectors;
      }
    }
  }

  // After an add the entries stand in the order of their identifiers.
  lemma AddedInOrder(ops: seq<Operation>, documents: seq<Document>, provider: Provider)
    requires Add(PerformAll(Index(None, None), ops), documents, provider).result.Ok?
    ensures var entries := Add(PerformAll(Index(None, None), ops), documents, provider).index.active.value.entries;
            forall i, j :: 0 <= i < j < |entries| ==> entries[i].recordId < entries[j].recordId
  {
    hide PutAll, View;
    var index := PerformAll(Index(None, None), ops);
    HistoryKeepsOk(Index(None, None), ops);
    DistinctIsDistinct(index.active.value.entries);
    AddedEntries(index.active.value.entries, documents, provider(0, Texts(documents)).value.vectors);
  }

  // Removing decides entry by entry, and keeps the order of what stays: it goes part by
  // part, and one entry stays exactly when it is not named.
  lemma {:induction false} RemovedInOrder(a: seq<Entry>, b: seq<Entry>, e: Entry, ids: set<RecordId>)
    ensures Without(a + b, ids) == Without(a, ids) + Without(b, ids)
    ensures Without([e], ids) == if e.recordId in ids then [] else [e]
    ensures Without([], ids) == []
    decreases |a|
  {
    if a == [] {
      assert a + b == b;
    } else {
      assert (a + b)[0] == a[0] && (a + b)[1..] == a[1..] + b;
      RemovedInOrder(a[1..], b, e, ids);
    }
  }

  // A removal is refused for no or double identifiers; without an index there is nothing
  // to remove.
  lemma RemoveAnswers(index: Index, ids: seq<RecordId>)
    ensures var r := Remove(index, ids);
            if ids == [] then r == Outcome(index, Err(NoRecordIds))
            else if exists i, j :: 0 <= i < j < |ids| && ids[i] == ids[j] then r == Outcome(index, Err(DuplicateIds))
            else if index.active.None? then r == Outcome(index, Ok(Manifest("uninitialized", 0, 0)))
            else
              && r.index.active.Some? && r.index.checkpoint == index.checkpoint
              && r.index.active.value.model == index.active.value.model
              && r.index.active.value.dimensions == index.active.value.dimensions
              && r.index.active.value.entries == Without(index.active.value.entries, set id | id in ids)
              && r.result == Ok(Manifest(index.active.value.model, index.active.value.dimensions, |r.index.active.value.entries|))
  {
    hide Without;
  }

  // Clearing forgets the active snapshot and keeps an unfinished rebuild.
  lemma ClearAnswers(index: Index)
    ensures Clear(index) == Index(None, index.checkpoint)
  {
  }

  // ---------- what a rebuild asks ----------

  // The call number c of a rebuild that goes on from `start` asks for these texts.
  function Asked(documents: seq<Document>, start: nat, batchSize: nat, c: nat): (texts: seq<string>)
    requires batchSize > 0 && start <= |documents|
  {
    var from := start + c * batchSize;
    var to := if from + batchSize < |documents| then from + batchSize else |documents|;
    if from >= |documents| then [] else seq(to - from, i requires 0 <= i < to - from => documents[from + i].content)
  }

  // Where a rebuild starts: behind the checkpoint, if its identifiers are the first ones.
  function StartOf(index: Index, documents: seq<Document>): (start: nat)
    ensures start <= |documents|
  {
    if index.checkpoint.Some? && |index.checkpoint.value.entries| <= |documents|
       && (forall i :: 0 <= i < |index.checkpoint.value.entries| ==> index.checkpoint.value.entries[i].recordId == documents[i].recordId)
    then |index.checkpoint.value.entries| else 0
  }

  lemma {:induction false} BatchesAsk(documents: seq<Document>, start: nat, offset: nat, batchSize: nat, done: Option<Snapshot>,
                                      calls: nat, p: Provider, q: Provider, stop: Stop)
    requires batchSize > 0 && start <= |documents| && offset == (if start + calls * batchSize < |documents| then start + calls * batchSize else |documents|)
    requires forall c: nat :: p(c, Asked(documents, start, batchSize, c)) == q(c, Asked(documents, start, batchSize, c))
    ensures Batches(documents, offset, batchSize, done, calls, p, stop) == Batches(documents, offset, batchSize, done, calls, q, stop)
    decreases |documents| - offset
  {
    if offset < |documents| && stop != StopBeforeBatch(calls) {
      var next := BatchEnd(offset, batchSize, |documents|);
      assert Texts(documents[offset..next]) == Asked(documents, start, batchSize, calls);
      assert p(calls, Asked(documents, start, batchSize, calls)) == q(calls, Asked(documents, start, batchSize, calls));
      assert Embedded(done, documents[offset..next], calls, p) == Embedded(done, documents[offset..next], calls, q);
      if Embedded(done, documents[offset..next], calls, p).Ok? {
        assert (calls + 1) * batchSize == calls * batchSize + batchSize;
        BatchesAsk(documents, start, next, batchSize, Some(Embedded(done, documents[offset..next], calls, p).value), calls + 1, p, q, stop);
      }
    }
  }

  // A rebuild asks for nothing but its batches, in order, behind what the checkpoint holds:
  // providers that agree on those calls lead to the same rebuild.
  lemma RebuildAsksInBatches(index: Index, documents: seq<Document>, p: Provider, q: Provider, batchSize: int, stop: Stop)
    requires batchSize > 0
    requires forall c: nat :: p(c, Asked(documents, StartOf(index, documents), batchSize, c))
                           == q(c, Asked(documents, StartOf(index, documents), batchSize, c))
    ensures Rebuild(index, documents, p, batchSize, stop) == Rebuild(index, documents, q, batchSize, stop)
  {
    hide Batches;
    var start := Resume(index.checkpoint, documents);
    assert Completed(start) == StartOf(index, documents);
    BatchesAsk(documents, Completed(start), Completed(start), batchSize, start, 0, p, q, stop);
  }

  // And it does ask: what fails the first call fails the rebuild.
  lemma RebuildNeedsAnswers(index: Index, documents: seq<Document>, provider: Provider, batchSize: int)
    requires batchSize > 0 && Acceptable(documents) && StartOf(index, documents) < |documents|
    requires provider(0, Asked(documents, StartOf(index, documents), batchSize, 0)).None?
    ensures Rebuild(index, documents, provider, batchSize, RunToEnd) == Outcome(index, Err(ProviderFailed))
  {
    AcceptableExactly(documents);
    var start := Resume(index.checkpoint, documents);
    var offset := Completed(start);
    assert offset == StartOf(index, documents);
    assert Texts(documents[offset..BatchEnd(offset, batchSize, |documents|)]) == Asked(documents, offset, batchSize, 0);
  }

  // What a completed rebuild reports.
  lemma RebuildReports(index: Index, documents: seq<Document>, provider: Provider, batchSize: int, stop: Stop)
    requires Rebuild(index, documents, provider, batchSize, stop).result.Ok?
    ensures Acceptable(documents) && batchSize > 0
    ensures var after := Rebuild(index, documents, provider, batchSize, stop);
            && after.index.active.Some? && after.index.checkpoint.None?
            && after.result.value == Manifest(after.index.active.value.model, after.index.active.value.dimensions, |documents|)
            && |after.index.active.value.entries| == |documents|
            && forall i :: 0 <= i < |documents| ==> after.index.active.value.entries[i].recordId == documents[i].recordId
  {
    AcceptableExactly(documents);
    CompletedRebuild(index, documents, provider, batchSize, stop);
    var entries := Rebuild(index, documents, provider, batchSize, stop).index.active.value.entries;
    forall i | 0 <= i < |documents| ensures entries[i].recordId == documents[i].recordId {
      assert EntryIds(entries)[i] == DocumentIds(documents)[i];
    }
  }
}
