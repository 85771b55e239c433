/**
 The semantic index as a value: an active snapshot, the checkpoint of an unfinished
 rebuild, and what each operation makes of them. Saving a snapshot is one atomic
 step; what an embedding provider answers may differ from call to call.
 */
module IndexModel {
  import opened Wrappers

  // The text form of an identifier orders like its 128-bit number.
  type RecordId = nat
  type Vector = seq<real>

  datatype Document = Document(recordId: RecordId, capturedAt: int, content: string, redacted: bool)

  datatype Entry = Entry(recordId: RecordId, capturedAt: int, vector: Vector)

  datatype Snapshot = Snapshot(model: string, dimensions: nat, entries: seq<Entry>)

  datatype Index = Index(active: Option<Snapshot>, checkpoint: Option<Snapshot>)

  datatype Manifest = Manifest(model: string, dimensions: nat, count: nat)

  datatype IndexError =
    | NoDocuments | NotRedacted | DuplicateIds | BadBatchSize | NoRecordIds | NotInitialized
    | WrongVectorCount | InconsistentDimensions | ModelMismatch | ProviderFailed | Interrupted

  datatype Response = Response(model: string, vectors: seq<Vector>)

  // The answer to the n-th call of one operation; None when the provider raises.
  type Provider = (nat, seq<string>) -> Option<Response>

  // Where a rebuild is cut off, if it is: before a batch, or between writing the
  // active snapshot and removing the checkpoint.
  datatype Stop = RunToEnd | StopBeforeBatch(batch: nat) | StopBeforeUnlink

  // ---------- documents and responses ----------

  function Texts(documents: seq<Document>): (texts: seq<string>)
    ensures |texts| == |documents|
  {
    seq(|documents|, i requires 0 <= i < |documents| => documents[i].content)
  }

  function DocumentIds(documents: seq<Document>): (ids: seq<RecordId>)
    ensures |ids| == |documents|
  {
    seq(|documents|, i requires 0 <= i < |documents| => documents[i].recordId)
  }

  function EntryIds(entries: seq<Entry>): (ids: seq<RecordId>)
    ensures |ids| == |entries|
  {
    seq(|entries|, i requires 0 <= i < |entries| => entries[i].recordId)
  }

  function Entries(documents: seq<Document>, vectors: seq<Vector>): (entries: seq<Entry>)
    requires |documents| == |vectors|
    ensures |entries| == |documents|
  {
    seq(|documents|, i requires 0 <= i < |documents| =>
      Entry(documents[i].recordId, documents[i].capturedAt, vectors[i]))
  }

  predicate Distinct(ids: seq<RecordId>) {
    forall i, j :: 0 <= i < j < |ids| ==> ids[i] != ids[j]
  }

  function DocumentsError(documents: seq<Document>): Option<IndexError> {
    if documents == [] then Some(NoDocuments)
    else if exists d :: d in documents && !d.redacted then Some(NotRedacted)
    else if !Distinct(DocumentIds(documents)) then Some(DuplicateIds)
    else None
  }

  // The error of validating a response to n > 0 inputs.
  function ResponseError(response: Response, n: nat): Option<IndexError> {
    if |response.vectors| != n then Some(WrongVectorCount)
    else if n == 0 || |response.vectors[0]| == 0 || exists v :: v in response.vectors && |v| != |response.vectors[0]|
    then Some(InconsistentDimensions)
    else None
  }

  // ---------- rebuild ----------

  predicate MatchesPrefix(snapshot: Snapshot, documents: seq<Document>) {
    && |snapshot.entries| <= |documents|
    && forall i :: 0 <= i < |snapshot.entries| ==> snapshot.entries[i].recordId == documents[i].recordId
  }

  // The checkpoint a rebuild goes on from, if it fits the documents.
  function Resume(checkpoint: Option<Snapshot>, documents: seq<Document>): Option<Snapshot> {
    if checkpoint.Some? && MatchesPrefix(checkpoint.value, documents) then checkpoint else None
  }

  function Completed(done: Option<Snapshot>): nat {
    if done.Some? then |done.value.entries| else 0
  }

  // The progress after one more batch.
  function Embedded(done: Option<Snapshot>, batch: seq<Document>, call: nat, provider: Provider): Result<Snapshot, IndexError> {
    var response := provider(call, Texts(batch));
    if response.None? then Err(ProviderFailed)
    else if ResponseError(response.value, |batch|).Some? then Err(ResponseError(response.value, |batch|).value)
    else
      var dimensions := |response.value.vectors[0]|;
      var entries := Entries(batch, response.value.vectors);
      if done.None? then Ok(Snapshot(response.value.model, dimensions, entries))
      else if response.value.model != done.value.model || dimensions != done.value.dimensions then Err(ModelMismatch)
      else Ok(done.value.(entries := done.value.entries + entries))
  }

  function BatchEnd(offset: nat, batchSize: nat, n: nat): nat {
    if offset + batchSize < n then offset + batchSize else n
  }

  datatype Progress = Progress(done: Option<Snapshot>, error: Option<IndexError>)

  // The batch loop from `offset` on; `calls` batches were done before.
  function Batches(documents: seq<Document>, offset: nat, batchSize: nat, done: Option<Snapshot>, calls: nat,
                   provider: Provider, stop: Stop): Progress
    requires batchSize > 0
    decreases |documents| - offset
  {
    if offset >= |documents| then Progress(done, None)
    else if stop == StopBeforeBatch(calls) then Progress(done, Some(Interrupted))
    else
      var next := BatchEnd(offset, batchSize, |documents|);
      var embedded := Embedded(done, documents[offset..next], calls, provider);
      if embedded.Err? then Progress(done, Some(embedded.error))
      else Batches(documents, next, batchSize, Some(embedded.value), calls + 1, provider, stop)
  }

  datatype Outcome<+T> = Outcome(index: Index, result: Result<T, IndexError>)

  function ManifestOf(snapshot: Snapshot): Manifest {
    Manifest(snapshot.model, snapshot.dimensions, |snapshot.entries|)
  }

  // What the checkpoint file holds once the loop has ended: each batch replaced it.
  function Saved(done: Option<Snapshot>, checkpoint: Option<Snapshot>): Option<Snapshot> {
    if done.Some? then done else checkpoint
  }

  function Rebuild(index: Index, documents: seq<Document>, provider: Provider, batchSize: int, stop: Stop): Outcome<Manifest> {
    if DocumentsError(documents).Some? then Outcome(index, Err(DocumentsError(documents).value))
    else if batchSize <= 0 then Outcome(index, Err(BadBatchSize))
    else
      var start := Resume(index.checkpoint, documents);
      var progress := Batches(documents, Completed(start), batchSize, start, 0, provider, stop);
      var checkpoint := Saved(progress.done, index.checkpoint);
      if progress.error.Some? then Outcome(Index(index.active, checkpoint), Err(progress.error.value))
      else if progress.done.None? then Outcome(Index(index.active, checkpoint), Err(NoDocuments))
      else if stop == StopBeforeUnlink then Outcome(Index(progress.done, checkpoint), Err(Interrupted))
      else Outcome(Index(progress.done, None), Ok(ManifestOf(progress.done.value)))
  }

  // ---------- add, remove, clear ----------

  // Entries in order of their identifiers, the later one of two equal ones kept.
  function Put(entries: seq<Entry>, e: Entry): seq<Entry> {
    if entries == [] then [e]
    else if e.recordId < entries[0].recordId then [e] + entries
    else if e.recordId == entries[0].recordId then [e] + entries[1..]
    else [entries[0]] + Put(entries[1..], e)
  }

  function PutAll(entries: seq<Entry>, added: seq<Entry>): seq<Entry>
    decreases |added|
  {
    if added == [] then entries else PutAll(Put(entries, added[0]), added[1..])
  }

  function Add(index: Index, documents: seq<Document>, provider: Provider): Outcome<Manifest> {
    if DocumentsError(documents).Some? then Outcome(index, Err(DocumentsError(documents).value))
    else if index.active.None? then Outcome(index, Err(NotInitialized))
    else
      var current := index.active.value;
      var response := provider(0, Texts(documents));
      if response.None? then Outcome(index, Err(ProviderFailed))
      else if ResponseError(response.value, |documents|).Some? then
        Outcome(index, Err(ResponseError(response.value, |documents|).value))
      else if response.value.model != current.model || |response.value.vectors[0]| != current.dimensions then
        Outcome(index, Err(ModelMismatch))
      else
        var entries := PutAll([], current.entries + Entries(documents, response.value.vectors));
        var replacement := current.(entries := entries);
        Outcome(index.(active := Some(replacement)), Ok(ManifestOf(replacement)))
  }

  function Without(entries: seq<Entry>, ids: set<RecordId>): seq<Entry> {
    if entries == [] then []
    else if entries[0].recordId in ids then Without(entries[1..], ids)
    else [entries[0]] + Without(entries[1..], ids)
  }

  function IdSet(ids: seq<RecordId>): set<RecordId> {
    set id | id in ids
  }

  function Remove(index: Index, ids: seq<RecordId>): Outcome<Manifest> {
    if ids == [] then Outcome(index, Err(NoRecordIds))
    else if !Distinct(ids) then Outcome(index, Err(DuplicateIds))
    else if index.active.None? then Outcome(index, Ok(Manifest("uninitialized", 0, 0)))
    else
      var replacement := index.active.value.(entries := Without(index.active.value.entries, IdSet(ids)));
      Outcome(index.(active := Some(replacement)), Ok(ManifestOf(replacement)))
  }

  function Clear(index: Index): Index {
    index.(active := None)
  }

  // ---------- search ----------

  datatype Query = Query(text: string, startAt: Option<int>, endAt: Option<int>, limit: nat)

  datatype Hit = Hit(recordId: RecordId, capturedAt: int, score: real)

  // The similarity the hits are ranked by.
  type Score = (Vector, Vector) -> real

  predicate Within(query: Query, capturedAt: int) {
    && (query.startAt.Some? ==> query.startAt.value <= capturedAt)
    && (query.endAt.Some? ==> capturedAt < query.endAt.value)
  }

  function HitOf(e: Entry, vector: Vector, score: Score): Hit {
    Hit(e.recordId, e.capturedAt, score(vector, e.vector))
  }

  function Hits(entries: seq<Entry>, query: Query, vector: Vector, score: Score): seq<Hit> {
    if entries == [] then []
    else
      var rest := Hits(entries[1..], query, vector, score);
      if Within(query, entries[0].capturedAt) then [HitOf(entries[0], vector, score)] + rest else rest
  }

  // Best score first, then the earlier capture, then the smaller identifier.
  predicate Before(a: Hit, b: Hit) {
    || a.score > b.score
    || (a.score == b.score && (a.capturedAt < b.capturedAt || (a.capturedAt == b.capturedAt && a.recordId < b.recordId)))
  }

  function Inserted(sorted: seq<Hit>, h: Hit): seq<Hit> {
    if sorted == [] then [h]
    else if Before(sorted[0], h) then [sorted[0]] + Inserted(sorted[1..], h)
    else [h] + sorted
  }

  function SortHits(hits: seq<Hit>): seq<Hit> {
    if hits == [] then [] else Inserted(SortHits(hits[1..]), hits[0])
  }

  function First(hits: seq<Hit>, limit: nat): seq<Hit> {
    if |hits| <= limit then hits else hits[..limit]
  }

  function Search(index: Index, query: Query, provider: Provider, score: Score): Result<seq<Hit>, IndexError> {
    if index.active.None? then Ok([])
    else
      var response := provider(0, [query.text]);
      if response.None? then Err(ProviderFailed)
      else if ResponseError(response.value, 1).Some? then Err(ResponseError(response.value, 1).value)
      else if response.value.model != index.active.value.model
           || |response.value.vectors[0]| != index.active.value.dimensions then Err(ModelMismatch)
      else Ok(First(SortHits(Hits(index.active.value.entries, query, response.value.vectors[0], score)), query.limit))
  }
}
