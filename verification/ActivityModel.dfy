/**
 Activity segmentation: records in time order, cut wherever two neighbours do not
 continue each other. Seconds, scores and vector components are reals; the square
 root is a function the caller supplies.
 */
module ActivityModel {
  import opened Wrappers
  import opened Sequences
  import opened AdaptiveModel

  type RecordId = nat

  // capturedAt counts microseconds; the text of an identifier orders like its number.
  datatype Record = Record(recordId: RecordId, capturedAt: int, policyRevision: string, application: Option<string>,
                           workspace: Option<string>, hash: Option<Fingerprint>, vector: Option<seq<real>>)

  datatype Policy = Policy(maxGap: real, strongGap: real, minimumScore: real, minimumSimilarity: real)

  datatype Cluster = Cluster(ids: seq<RecordId>, startedAt: int, endedAt: int)

  datatype ActivityError = NotTimeOrdered | DimensionMismatch | DuplicateRecords | EndPrecedesStart

  predicate PolicyOk(p: Policy) {
    && 0.0 < p.maxGap <= 86_400.0 && 0.0 <= p.strongGap <= p.maxGap
    && 0.0 <= p.minimumScore <= 1.0 && 0.0 <= p.minimumSimilarity <= 1.0
  }

  // ---------- similarity ----------

  function Dot(a: seq<real>, b: seq<real>): real
    requires |a| == |b|
  {
    if a == [] then 0.0 else a[0] * b[0] + Dot(a[1..], b[1..])
  }

  type Root = real -> real

  ghost predicate IsRoot(root: Root) {
    forall x: real :: x >= 0.0 ==> root(x) >= 0.0 && root(x) * root(x) == x
  }

  function Clamp(x: real): real {
    if x > 1.0 then 1.0 else if x < 0.0 then 0.0 else x
  }

  function Cosine(a: seq<real>, b: seq<real>, root: Root): real
    requires |a| == |b|
  {
    Ratio(Dot(a, b), root(Dot(a, a)) * root(Dot(b, b)))
  }

  function Ratio(numerator: real, norm: real): real {
    if norm == 0.0 then 0.0 else numerator / norm
  }

  function SemanticSimilarity(a: Option<seq<real>>, b: Option<seq<real>>, root: Root): Result<Option<real>, ActivityError> {
    if a.None? || b.None? then Ok(None)
    else if |a.value| != |b.value| then Err(DimensionMismatch)
    else Ok(Some(Clamp(Cosine(a.value, b.value, root))))
  }

  function PerceptualSimilarity(a: Option<Fingerprint>, b: Option<Fingerprint>): Option<real> {
    if a.None? || b.None? then None else Some(1.0 - Hamming(a.value, b.value) as real / 64.0)
  }

  // ---------- continuity ----------

  function Gap(previous: Record, current: Record): real {
    (current.capturedAt - previous.capturedAt) as real / 1_000_000.0
  }

  predicate BothDiffer(a: Option<string>, b: Option<string>) {
    a.Some? && b.Some? && a != b
  }

  function GapScore(gap: real, p: Policy): real
    requires gap <= p.maxGap
  {
    if gap <= p.strongGap then 0.2
    else if p.maxGap > p.strongGap then
      var share := (p.maxGap - gap) / (p.maxGap - p.strongGap);
      0.2 * if share > 0.0 then share else 0.0
    else 0.0
  }

  function Score(semantic: real, perceptual: real, previous: Record, current: Record, p: Policy): real
    requires Gap(previous, current) <= p.maxGap
  {
    0.4 * semantic + 0.2 * perceptual + GapScore(Gap(previous, current), p)
    + if previous.application.Some? && previous.application == current.application then 0.2 else 0.0
  }

  function Continues(previous: Record, current: Record, p: Policy, root: Root): Result<bool, ActivityError> {
    if previous.policyRevision != current.policyRevision then Ok(false)
    else if Gap(previous, current) < 0.0 then Err(NotTimeOrdered)
    else if Gap(previous, current) > p.maxGap then Ok(false)
    else if BothDiffer(previous.workspace, current.workspace) then Ok(false)
    else
      var semantic := SemanticSimilarity(previous.vector, current.vector, root);
      if semantic.Err? then Err(semantic.error)
      else if semantic.value.None? || semantic.value.value < p.minimumSimilarity then Ok(false)
      else
        var perceptual := PerceptualSimilarity(previous.hash, current.hash);
        if perceptual.None? then Ok(false)
        else Ok(Score(semantic.value.value, perceptual.value, previous, current, p) >= p.minimumScore)
  }

  // ---------- order ----------

  predicate NotAfter(a: Record, b: Record) {
    a.capturedAt < b.capturedAt || (a.capturedAt == b.capturedAt && a.recordId <= b.recordId)
  }

  // Stable: an element goes behind the ones it is not before.
  function Inserted(sorted: seq<Record>, r: Record): seq<Record> {
    if sorted == [] then [r]
    else if NotAfter(sorted[0], r) && !(NotAfter(r, sorted[0])) then [sorted[0]] + Inserted(sorted[1..], r)
    else [r] + sorted
  }

  function Sorted(records: seq<Record>): seq<Record> {
    if records == [] then [] else Inserted(Sorted(records[1..]), records[0])
  }

  // ---------- segmentation ----------

  // The groups after one more record.
  function Extended(groups: seq<seq<Record>>, r: Record, joins: bool): seq<seq<Record>>
    requires groups != []
  {
    if joins then AllButLast(groups) + [Last(groups) + [r]] else groups + [[r]]
  }

  function Groups(ordered: seq<Record>, p: Policy, root: Root): (r: Result<seq<seq<Record>>, ActivityError>)
    requires ordered != []
    ensures r.Ok? ==> r.value != [] && Last(r.value) != [] && Last(Last(r.value)) == Last(ordered)
  {
    if |ordered| == 1 then Ok([ordered])
    else
      var before := Groups(AllButLast(ordered), p, root);
      if before.Err? then before
      else
        var joins := Continues(Last(AllButLast(ordered)), Last(ordered), p, root);
        if joins.Err? then Err(joins.error) else Ok(Extended(before.value, Last(ordered), joins.value))
  }

  function Ids(group: seq<Record>): (ids: seq<RecordId>)
    ensures |ids| == |group|
  {
    seq(|group|, i requires 0 <= i < |group| => group[i].recordId)
  }

  predicate DistinctIds(ids: seq<RecordId>) {
    forall i, j :: 0 <= i < j < |ids| ==> ids[i] != ids[j]
  }

  function ClusterOf(group: seq<Record>): Result<Cluster, ActivityError>
    requires group != []
  {
    if !DistinctIds(Ids(group)) then Err(DuplicateRecords)
    else if Last(group).capturedAt < group[0].capturedAt then Err(EndPrecedesStart)
    else Ok(Cluster(Ids(group), group[0].capturedAt, Last(group).capturedAt))
  }

  function Clusters(groups: seq<seq<Record>>): Result<seq<Cluster>, ActivityError>
    requires forall i :: 0 <= i < |groups| ==> groups[i] != []
  {
    if groups == [] then Ok([])
    else
      var before := Clusters(AllButLast(groups));
      if before.Err? then before
      else
        var cluster := ClusterOf(Last(groups));
        if cluster.Err? then Err(cluster.error) else Ok(before.value + [cluster.value])
  }
}
