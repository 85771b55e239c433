/**
 Segmentation said outright, on the fields of two neighbouring records: when the second goes
 on with the first, and what the clusters of a whole sequence are.
 */
module ActivityOutcomes {
  import opened Wrappers
  import opened Sequences
  import opened AdaptiveModel
  import opened ActivityModel
  import opened ActivityTheorems

  // ---------- similarity ----------

  // The scalar product adds the products of the components, one by one.
  lemma {:induction false} DotAddsProducts(a: seq<real>, b: seq<real>, x: real, y: real)
    requires |a| == |b|
    ensures Dot([], []) == 0.0
    ensures Dot(a + [x], b + [y]) == Dot(a, b) + x * y
  {
    if a == [] {
      assert [] + [x] == [x] && [] + [y] == [y] && [x][1..] == [] && [y][1..] == [];
    } else {
      assert (a + [x])[1..] == a[1..] + [x] && (b + [y])[1..] == b[1..] + [y];
      DotAddsProducts(a[1..], b[1..], x, y);
    }
  }

  // The cosine of the angle between two vectors, as far as it is positive; nothing is
  // similar to a zero vector.
  function Similarity(a: seq<real>, b: seq<real>, root: Root): real
    requires |a| == |b|
  {
    var norms := root(Dot(a, a)) * root(Dot(b, b));
    if norms == 0.0 then 0.0
    else if Dot(a, b) / norms < 0.0 then 0.0
    else if Dot(a, b) / norms > 1.0 then 1.0
    else Dot(a, b) / norms
  }

  // What the time between two records adds: a fifth up to the strong gap, then less and
  // less until the longest gap.
  function Closeness(seconds: real, p: Policy): real
    requires PolicyOk(p) && seconds <= p.maxGap
  {
    if seconds <= p.strongGap then 0.2 else 0.2 * ((p.maxGap - seconds) / (p.maxGap - p.strongGap))
  }

  function Seconds(previous: Record, current: Record): real {
    (current.capturedAt - previous.capturedAt) as real / 1_000_000.0
  }

  // The records can belong together at all: same policy, in order, close in time, not in
  // two known workspaces.
  predicate Compatible(previous: Record, current: Record, p: Policy) {
    && previous.policyRevision == current.policyRevision
    && previous.capturedAt <= current.capturedAt
    && Seconds(previous, current) <= p.maxGap
    && (previous.workspace.Some? && current.workspace.Some? ==> previous.workspace == current.workspace)
  }

  predicate SameApplication(previous: Record, current: Record) {
    previous.application.Some? && current.application.Some? && previous.application == current.application
  }

  // Four tenths for the meaning, two for the picture, two for the time and two for the
  // application.
  function Continuity(previous: Record, current: Record, p: Policy, root: Root): real
    requires PolicyOk(p) && Seconds(previous, current) <= p.maxGap
    requires previous.vector.Some? && current.vector.Some? && |previous.vector.value| == |current.vector.value|
    requires previous.hash.Some? && current.hash.Some?
  {
    0.4 * Similarity(previous.vector.value, current.vector.value, root)
    + 0.2 * (1.0 - Differing(previous.hash.value, current.hash.value, 64) as real / 64.0)
    + Closeness(Seconds(previous, current), p)
    + (if SameApplication(previous, current) then 0.2 else 0.0)
  }

  // The second record goes on with the first.
  predicate GoesOn(previous: Record, current: Record, p: Policy, root: Root)
    requires PolicyOk(p)
  {
    && Compatible(previous, current, p)
    && previous.vector.Some? && current.vector.Some? && |previous.vector.value| == |current.vector.value|
    && Similarity(previous.vector.value, current.vector.value, root) >= p.minimumSimilarity
    && previous.hash.Some? && current.hash.Some?
    && Continuity(previous, current, p, root) >= p.minimumScore
  }

  lemma GapsAgree(previous: Record, current: Record, p: Policy)
    requires PolicyOk(p)
    ensures Gap(previous, current) == Seconds(previous, current)
    ensures Gap(previous, current) < 0.0 <==> current.capturedAt < previous.capturedAt
    ensures Gap(previous, current) <= p.maxGap ==> GapScore(Gap(previous, current), p) == Closeness(Seconds(previous, current), p)
  {
    var gap := Gap(previous, current);
    if p.strongGap < gap <= p.maxGap {
      NonNegativeQuotient(p.maxGap - gap, p.maxGap - p.strongGap);
    }
  }

  lemma SimilaritiesAgree(a: seq<real>, b: seq<real>, root: Root)
    requires |a| == |b|
    ensures SemanticSimilarity(Some(a), Some(b), root) == Ok(Some(Similarity(a, b, root)))
  {
    hide Dot;
  }

  // When two neighbours continue each other, when they do not, and when comparing them is
  // an error.
  lemma ContinuesOutright(previous: Record, current: Record, p: Policy, root: Root)
    requires PolicyOk(p)
    ensures Continues(previous, current, p, root)
         == if previous.policyRevision == current.policyRevision && current.capturedAt < previous.capturedAt
            then Err(NotTimeOrdered)
            else if Compatible(previous, current, p) && previous.vector.Some? && current.vector.Some?
                 && |previous.vector.value| != |current.vector.value|
            then Err(DimensionMismatch)
            else Ok(GoesOn(previous, current, p, root))
  {
    hide Dot, Similarity, SemanticSimilarity, Closeness, GapScore, Gap, Seconds, Differing;
    GapsAgree(previous, current, p);
    if previous.vector.Some? && current.vector.Some? && |previous.vector.value| == |current.vector.value| {
      SimilaritiesAgree(previous.vector.value, current.vector.value, root);
    }
    NoSimilarity(previous.vector, current.vector, root);
  }

  lemma NoSimilarity(a: Option<seq<real>>, b: Option<seq<real>>, root: Root)
    ensures a.None? || b.None? ==> SemanticSimilarity(a, b, root) == Ok(None)
    ensures a.Some? && b.Some? && |a.value| != |b.value| ==> SemanticSimilarity(a, b, root) == Err(DimensionMismatch)
  {
  }

  // ---------- the clusters ----------

  // By time, and by identifier at the same time.
  predicate TimeOrdered(records: seq<Record>) {
    forall i, j :: 0 <= i < j < |records| ==>
      || records[i].capturedAt < records[j].capturedAt
      || (records[i].capturedAt == records[j].capturedAt && records[i].recordId <= records[j].recordId)
  }

  // No group is empty; neighbours go on with each other inside a group, and not across.
  predicate CutWhereNothingGoesOn(groups: seq<seq<Record>>, p: Policy, root: Root)
    requires PolicyOk(p)
  {
    && (forall g :: 0 <= g < |groups| ==> groups[g] != [])
    && (forall g, i :: 0 <= g < |groups| && 0 <= i < |groups[g]| - 1 ==> GoesOn(groups[g][i], groups[g][i + 1], p, root))
    && (forall g :: 0 <= g < |groups| - 1 ==> !GoesOn(groups[g][|groups[g]| - 1], groups[g + 1][0], p, root))
  }

  // A cluster lists its records' identifiers, from the first capture to the last.
  predicate Lists(clusters: seq<Cluster>, groups: seq<seq<Record>>) {
    && |clusters| == |groups|
    && forall g :: 0 <= g < |groups| ==>
         && |groups[g]| > 0 && |clusters[g].ids| == |groups[g]|
         && (forall i :: 0 <= i < |groups[g]| ==> clusters[g].ids[i] == groups[g][i].recordId)
         && clusters[g].startedAt == groups[g][0].capturedAt
         && clusters[g].endedAt == groups[g][|groups[g]| - 1].capturedAt
  }

  predicate DistinctIdentifiers(records: seq<Record>) {
    forall i, j :: 0 <= i < j < |records| ==> records[i].recordId != records[j].recordId
  }

  lemma {:induction false} SortedIsTimeOrdered(records: seq<Record>)
    ensures TimeOrdered(Sorted(records)) && multiset(Sorted(records)) == multiset(records)
  {
    SortedInOrder(records);
  }

  // Segmentation yields the records in time order, cut where nothing goes on.
  lemma SegmentsOutright(records: seq<Record>, p: Policy, root: Root)
    requires PolicyOk(p) && DistinctIdentifiers(records) && Segmented(records, p, root).Ok?
    ensures exists groups ::
              && CutWhereNothingGoesOn(groups, p, root)
              && multiset(Concat(groups)) == multiset(records) && TimeOrdered(Concat(groups))
              && Lists(Segmented(records, p, root).value, groups)
  {
    hide Continues, GoesOn, Concat, Sorted;
    if records == [] {
      NoGroups(p, root);
    } else {
      SegmentationIsTheCut(records, p, root);
      SortedIsTimeOrdered(records);
      var groups :| CutAtFailures(groups, p, root) && Concat(groups) == Sorted(records)
                    && Describe(Segmented(records, p, root).value, groups);
      CutsAgree(groups, p, root);
      DescribedIsListed(Segmented(records, p, root).value, groups);
    }
  }

  lemma NoGroups(p: Policy, root: Root)
    requires PolicyOk(p)
    ensures CutWhereNothingGoesOn([], p, root) && Concat<Record>([]) == [] && TimeOrdered([]) && Lists([], [])
  {
  }

  lemma CutsAgree(groups: seq<seq<Record>>, p: Policy, root: Root)
    requires PolicyOk(p) && CutAtFailures(groups, p, root)
    ensures CutWhereNothingGoesOn(groups, p, root)
  {
    hide Continues, GoesOn;
    forall g, i | 0 <= g < |groups| && 0 <= i < |groups[g]| - 1
      ensures GoesOn(groups[g][i], groups[g][i + 1], p, root)
    {
      ContinuesOutright(groups[g][i], groups[g][i + 1], p, root);
    }
    forall g | 0 <= g < |groups| - 1 ensures !GoesOn(groups[g][|groups[g]| - 1], groups[g + 1][0], p, root) {
      ContinuesOutright(groups[g][|groups[g]| - 1], groups[g + 1][0], p, root);
    }
  }

  lemma DescribedIsListed(clusters: seq<Cluster>, groups: seq<seq<Record>>)
    requires Describe(clusters, groups) && forall g :: 0 <= g < |groups| ==> groups[g] != []
    ensures Lists(clusters, groups)
  {
  }

  // ---------- when segmentation fails ----------

  // Two neighbours that could belong together have vectors of different lengths.
  predicate Incomparable(previous: Record, current: Record, p: Policy) {
    && Compatible(previous, current, p) && previous.vector.Some? && current.vector.Some?
    && |previous.vector.value| != |current.vector.value|
  }

  lemma {:induction false} GroupsFail(ordered: seq<Record>, p: Policy, root: Root)
    requires PolicyOk(p) && ordered != [] && TimeOrdered(ordered)
    ensures Groups(ordered, p, root).Err? <==> exists i :: 0 <= i < |ordered| - 1 && Incomparable(ordered[i], ordered[i + 1], p)
    decreases |ordered|
  {
    hide Continues, GoesOn, Incomparable;
    if |ordered| > 1 {
      var n := |ordered| - 2;
      var init := AllButLast(ordered);
      GroupsFail(init, p, root);
      assert forall i :: 0 <= i < |init| ==> init[i] == ordered[i];
      LastFails(ordered[n], ordered[n + 1], p, root);
      assert Last(init) == ordered[n] && Last(ordered) == ordered[n + 1];
      if i :| 0 <= i < |ordered| - 1 && Incomparable(ordered[i], ordered[i + 1], p) {
        if i < n {
          assert Incomparable(init[i], init[i + 1], p);
        }
      }
    }
  }

  lemma LastFails(previous: Record, current: Record, p: Policy, root: Root)
    requires PolicyOk(p) && previous.capturedAt <= current.capturedAt
    ensures Continues(previous, current, p, root).Err? <==> Incomparable(previous, current, p)
  {
    hide Continues, GoesOn;
    ContinuesOutright(previous, current, p, root);
  }

  // Segmentation fails exactly when, in time order, two such neighbours meet.
  lemma SegmentationFails(records: seq<Record>, p: Policy, root: Root)
    requires PolicyOk(p) && DistinctIdentifiers(records)
    ensures Segmented(records, p, root).Err?
            <==> exists i :: 0 <= i < |Sorted(records)| - 1 && Incomparable(Sorted(records)[i], Sorted(records)[i + 1], p)
    ensures Segmented(records, p, root).Err? ==> Segmented(records, p, root).error == DimensionMismatch
  {
    hide Incomparable, Continues, GoesOn, Groups, Clusters;
    SortedIsTimeOrdered(records);
    if records != [] {
      SortedIsNotEmpty(records);
      GroupsFail(Sorted(records), p, root);
      SegmentationIsTheCut(records, p, root);
      if Groups(Sorted(records), p, root).Ok? {
        ClustersOfDistinct(records, p, root);
      }
    }
  }

  lemma ClustersOfDistinct(records: seq<Record>, p: Policy, root: Root)
    requires records != [] && DistinctIdentifiers(records) && Sorted(records) != [] && Groups(Sorted(records), p, root).Ok?
    ensures Segmented(records, p, root).Ok?
  {
    hide Continues;
    SortedInOrder(records);
    var groups := Groups(Sorted(records), p, root).value;
    GroupsAreCuts(Sorted(records), p, root);
    SortedStaysDistinct(records);
    forall g | 0 <= g < |groups| ensures ClusterOf(groups[g]).Ok? {
      GroupsOfDistinct(groups, g);
    }
    ClustersDescribe(groups);
  }

  // ---------- identifiers that come twice ----------

  predicate Repeats(ids: seq<RecordId>) {
    exists i, j :: 0 <= i < j < |ids| && ids[i] == ids[j]
  }

  lemma {:induction false} GroupTimes(groups: seq<seq<Record>>, g: nat)
    requires (forall k :: 0 <= k < |groups| ==> groups[k] != []) && g < |groups| && InOrder(Concat(groups))
    ensures groups[g][0].capturedAt <= Last(groups[g]).capturedAt
    decreases |groups|
  {
    var all, init := Concat(groups), Concat(AllButLast(groups));
    assert all == init + Last(groups);
    if g == |groups| - 1 {
      assert all[|init|] == groups[g][0] && all[|all| - 1] == Last(groups[g]);
    } else {
      assert forall i :: 0 <= i < |init| ==> all[i] == init[i];
      GroupTimes(AllButLast(groups), g);
    }
  }

  lemma {:induction false} ClustersFail(groups: seq<seq<Record>>)
    requires forall g :: 0 <= g < |groups| ==> groups[g] != [] && groups[g][0].capturedAt <= Last(groups[g]).capturedAt
    ensures Clusters(groups).Err? <==> exists g :: 0 <= g < |groups| && Repeats(Ids(groups[g]))
    ensures Clusters(groups).Err? ==> Clusters(groups).error == DuplicateRecords
  {
    if groups != [] {
      var init := AllButLast(groups);
      ClustersFail(init);
      assert Last(groups) == groups[|groups| - 1] && forall g :: 0 <= g < |init| ==> init[g] == groups[g];
      assert !DistinctIds(Ids(Last(groups))) <==> Repeats(Ids(Last(groups)));
    }
  }

  // With any identifiers at all: no cluster lists one twice, and what fails is a pair of
  // vectors of different lengths or an identifier that comes twice within one activity.
  lemma RepeatsAreRefused(records: seq<Record>, p: Policy, root: Root)
    requires records != []
    ensures Segmented(records, p, root).Ok? ==>
              forall c :: 0 <= c < |Segmented(records, p, root).value| ==> !Repeats(Segmented(records, p, root).value[c].ids)
    ensures Segmented(records, p, root).Err? ==>
              var error := Segmented(records, p, root).error;
              if Groups(Sorted(records), p, root).Err? then error == DimensionMismatch
              else && error == DuplicateRecords
                   && var groups := Groups(Sorted(records), p, root).value;
                      exists g :: 0 <= g < |groups| && Repeats(Ids(groups[g]))
  {
    hide Continues, Repeats;
    SortedInOrder(records);
    OnlyDimensionsCanFail(Sorted(records), p, root);
    if Groups(Sorted(records), p, root).Ok? {
      var groups: seq<seq<Record>> := Groups(Sorted(records), p, root).value;
      GroupsAreCuts(Sorted(records), p, root);
      forall g: nat | g < |groups| ensures groups[g] != [] && groups[g][0].capturedAt <= Last(groups[g]).capturedAt {
        GroupTimes(groups, g);
      }
      ClustersFail(groups);
      ClustersDescribe(groups);
    }
  }
}
