/**
 The index as the object it is: two snapshot files that the operations replace. Each
 method is proved to do to the object's view exactly what the function of the same
 name in IndexModel does to the value.
 */
module SemanticIndexObject {
  import opened Wrappers
  import opened IndexModel

  class SemanticIndex {
    // The two files; None when a file does not exist.
    var active: Option<Snapshot>
    var checkpoint: Option<Snapshot>

    ghost function View(): Index
      reads this
    {
      Index(active, checkpoint)
    }

    constructor ()
      ensures View() == Index(None, None)
    {
      active, checkpoint := None, None;
    }

    method CurrentManifest() returns (r: Result<Manifest, IndexError>)
      ensures r == if active.None? then Err(NotInitialized) else Ok(ManifestOf(active.value))
    {
      if active.None? {
        return Err(NotInitialized);
      }
      r := Ok(Manifest(active.value.model, active.value.dimensions, |active.value.entries|));
    }

    method RecordIds() returns (ids: seq<RecordId>)
      ensures ids == if active.None? then [] else EntryIds(active.value.entries)
    {
      ids := [];
      if active.Some? {
        for i := 0 to |active.value.entries|
          invariant ids == EntryIds(active.value.entries[..i])
        {
          assert active.value.entries[..i + 1] == active.value.entries[..i] + [active.value.entries[i]];
          ids := ids + [active.value.entries[i].recordId];
        }
        assert active.value.entries[..|active.value.entries|] == active.value.entries;
      }
    }

    method Rebuild(documents: seq<Document>, provider: Provider, batchSize: int, stop: Stop)
      returns (r: Result<Manifest, IndexError>)
      modifies this
      ensures Outcome(View(), r) == IndexModel.Rebuild(old(View()), documents, provider, batchSize, stop)
    {
      var invalid := DocumentsError(documents);
      if invalid.Some? {
        return Err(invalid.value);
      }
      if batchSize <= 0 {
        return Err(BadBatchSize);
      }
      var done: Option<Snapshot> := None;
      var offset := 0;
      if checkpoint.Some? && MatchesPrefix(checkpoint.value, documents) {
        done, offset := checkpoint, |checkpoint.value.entries|;
      }
      ghost var start := done;
      var calls := 0;
      while offset < |documents|
        invariant offset <= |documents| && active == old(active)
        invariant checkpoint == Saved(done, old(checkpoint))
        invariant Batches(documents, Completed(start), batchSize, start, 0, provider, stop)
               == Batches(documents, offset, batchSize, done, calls, provider, stop)
      {
        if stop == StopBeforeBatch(calls) {
          return Err(Interrupted);
        }
        var next := BatchEnd(offset, batchSize, |documents|);
        var embedded := Embedded(done, documents[offset..next], calls, provider);
        if embedded.Err? {
          return Err(embedded.error);
        }
        done := Some(embedded.value);
        checkpoint := done;
        offset, calls := next, calls + 1;
      }
      if done.None? {
        return Err(NoDocuments);
      }
      active := done;
      if stop == StopBeforeUnlink {
        return Err(Interrupted);
      }
      checkpoint := None;
      r := Ok(ManifestOf(done.value));
    }

    method Add(documents: seq<Document>, provider: Provider) returns (r: Result<Manifest, IndexError>)
      modifies this
      ensures Outcome(View(), r) == IndexModel.Add(old(View()), documents, provider)
    {
      var invalid := DocumentsError(documents);
      if invalid.Some? {
        return Err(invalid.value);
      }
      if active.None? {
        return Err(NotInitialized);
      }
      var response := provider(0, Texts(documents));
      if response.None? {
        return Err(ProviderFailed);
      }
      var failure := ResponseError(response.value, |documents|);
      if failure.Some? {
        return Err(failure.value);
      }
      if response.value.model != active.value.model || |response.value.vectors[0]| != active.value.dimensions {
        return Err(ModelMismatch);
      }
      var entries := Merged(active.value.entries + Entries(documents, response.value.vectors));
      active := Some(active.value.(entries := entries));
      r := Ok(ManifestOf(active.value));
    }

    // The later one of two entries with one identifier stays.
    method Merged(incoming: seq<Entry>) returns (entries: seq<Entry>)
      ensures entries == PutAll([], incoming)
    {
      entries := [];
      var i := 0;
      while i < |incoming|
        invariant i <= |incoming|
        invariant PutAll([], incoming) == PutAll(entries, incoming[i..])
      {
        assert incoming[i..][1..] == incoming[i + 1..];
        entries := Put(entries, incoming[i]);
        i := i + 1;
      }
    }

    method Remove(ids: seq<RecordId>) returns (r: Result<Manifest, IndexError>)
      modifies this
      ensures Outcome(View(), r) == IndexModel.Remove(old(View()), ids)
    {
      if ids == [] {
        return Err(NoRecordIds);
      }
      if !Distinct(ids) {
        return Err(DuplicateIds);
      }
      if active.None? {
        return Ok(Manifest("uninitialized", 0, 0));
      }
      active := Some(active.value.(entries := Without(active.value.entries, IdSet(ids))));
      r := Ok(ManifestOf(active.value));
    }

    method Clear()
      modifies this
      ensures View() == IndexModel.Clear(old(View()))
    {
      active := None;
    }

    method Search(query: Query, provider: Provider, score: Score) returns (r: Result<seq<Hit>, IndexError>)
      ensures r == IndexModel.Search(View(), query, provider, score)
    {
      if active.None? {
        return Ok([]);
      }
      var response := provider(0, [query.text]);
      if response.None? {
        return Err(ProviderFailed);
      }
      var failure := ResponseError(response.value, 1);
      if failure.Some? {
        return Err(failure.value);
      }
      if response.value.model != active.value.model || |response.value.vectors[0]| != active.value.dimensions {
        return Err(ModelMismatch);
      }
      var hits := SortHits(Hits(active.value.entries, query, response.value.vectors[0], score));
      r := Ok(if |hits| <= query.limit then hits else hits[..query.limit]);
    }
  }
}
