/**
 Segmentation proved: the loop computes the groups, the groups are the unique cut of
 the sorted records at the failures of continuity, the result does not depend on the
 input's order, and scores are in range by the Cauchy-Schwarz inequality.
 */
module ActivityTheorems {
  import opened Wrappers
  import opened Sequences
  import opened AdaptiveModel
  import AdaptiveTheorems
  import opened ActivityModel

  // ---------- scores ----------

  lemma SquareGrows(x: real)
    ensures x * x >= 0.0
  {
  }

  // The sum of (l * a - m * b) squared, by its three dot products.
  predicate FormIsNonNegative(l: real, m: real, p: real, d: real, q: real) {
    l * l * p - 2.0 * l * m * d + m * m * q >= 0.0
  }

  predicate SquareBounded(d: real, p: real, q: real) {
    d * d <= p * q
  }

  lemma {:induction false} SquaresOfDifferences(a: seq<real>, b: seq<real>, l: real, m: real)
    requires |a| == |b|
    ensures FormIsNonNegative(l, m, Dot(a, a), Dot(a, b), Dot(b, b))
  {
    hide FormIsNonNegative;
    if a == [] {
      FormOfNothing(l, m);
    } else {
      SquaresOfDifferences(a[1..], b[1..], l, m);
      FormGrows(l, m, a[0], b[0], Dot(a[1..], a[1..]), Dot(a[1..], b[1..]), Dot(b[1..], b[1..]),
                Dot(a, a), Dot(a, b), Dot(b, b));
    }
  }

  lemma FormOfNothing(l: real, m: real)
    ensures FormIsNonNegative(l, m, 0.0, 0.0, 0.0)
  {
  }

  lemma FormGrows(l: real, m: real, x: real, y: real, p: real, d: real, q: real, p': real, d': real, q': real)
    requires FormIsNonNegative(l, m, p, d, q)
    requires p' == x * x + p && d' == x * y + d && q' == y * y + q
    ensures FormIsNonNegative(l, m, p', d', q')
  {
    ExpandForm(l, m, x, y, p, d, q);
    SquareGrows(l * x - m * y);
  }

  lemma ExpandForm(l: real, m: real, x: real, y: real, p: real, d: real, q: real)
    ensures l * l * (x * x + p) - 2.0 * l * m * (x * y + d) + m * m * (y * y + q)
         == (l * x - m * y) * (l * x - m * y) + (l * l * p - 2.0 * l * m * d + m * m * q)
  {
    var u, v := l * x, m * y;
    assert (u - v) * (u - v) == u * u - 2.0 * u * v + v * v;
    assert u * u == l * l * (x * x) && v * v == m * m * (y * y) && u * v == l * m * (x * y);
    assert l * l * (x * x + p) == l * l * (x * x) + l * l * p;
    assert l * m * (x * y + d) == l * m * (x * y) + l * m * d;
    assert m * m * (y * y + q) == m * m * (y * y) + m * m * q;
  }

  lemma {:induction false} DotOfSelf(a: seq<real>)
    ensures Dot(a, a) >= 0.0
  {
    if a != [] {
      SquareGrows(a[0]);
      DotOfSelf(a[1..]);
    }
  }

  // The Cauchy-Schwarz inequality.
  lemma {:induction false} CauchySchwarz(a: seq<real>, b: seq<real>)
    requires |a| == |b|
    ensures SquareBounded(Dot(a, b), Dot(a, a), Dot(b, b))
  {
    hide FormIsNonNegative;
    if a != [] {
      hide SquareBounded;
      CauchySchwarz(a[1..], b[1..]);
      SquaresOfDifferences(a[1..], b[1..], b[0], a[0]);
      CauchyGrows(a[0], b[0], Dot(a[1..], a[1..]), Dot(a[1..], b[1..]), Dot(b[1..], b[1..]),
                  Dot(a, a), Dot(a, b), Dot(b, b));
    }
  }

  lemma CauchyGrows(x: real, y: real, p: real, d: real, q: real, p': real, d': real, q': real)
    requires SquareBounded(d, p, q) && FormIsNonNegative(y, x, p, d, q)
    requires p' == x * x + p && d' == x * y + d && q' == y * y + q
    ensures SquareBounded(d', p', q')
  {
    CauchyStep(x, y, p, d, q);
  }

  lemma CauchyStep(x: real, y: real, p: real, d: real, q: real)
    requires SquareBounded(d, p, q) && FormIsNonNegative(y, x, p, d, q)
    ensures SquareBounded(x * y + d, x * x + p, y * y + q)
  {
    assert (x * y + d) * (x * y + d) == (x * y) * (x * y) + 2.0 * (x * y) * d + d * d;
    assert (x * x + p) * (y * y + q) == (x * x) * (y * y) + x * x * q + p * (y * y) + p * q;
    assert (x * y) * (x * y) == (x * x) * (y * y);
    assert y * y * p == p * (y * y) && 2.0 * y * x * d == 2.0 * (x * y) * d;
  }

  lemma PositiveProduct(a: real, b: real)
    requires a > 0.0 && b > 0.0
    ensures a * b > 0.0
  {
  }

  lemma LargerSquare(x: real, y: real)
    requires 0.0 <= y < x
    ensures x * x > y * y
  {
    PositiveProduct(x - y, x + y);
    assert (x - y) * (x + y) == x * x - y * y;
  }

  lemma SquareOrder(x: real, y: real)
    requires y >= 0.0 && x * x <= y * y
    ensures -y <= x <= y
  {
    assert (-x) * (-x) == x * x;
    if x > y {
      LargerSquare(x, y);
    } else if x < -y {
      LargerSquare(-x, y);
    }
  }

  lemma NormBounds(left: real, right: real, aa: real, bb: real, d: real)
    requires left >= 0.0 && right >= 0.0 && left * left == aa && right * right == bb && SquareBounded(d, aa, bb)
    ensures left * right >= 0.0 && -(left * right) <= d <= left * right
  {
    var norm := left * right;
    assert norm * norm == (left * left) * (right * right);
    SquareOrder(d, norm);
  }

  // The cosine never leaves [-1, 1], so the upper clamp changes nothing.
  lemma UpperClampIsIdle(a: seq<real>, b: seq<real>, root: Root)
    requires |a| == |b| && IsRoot(root)
    ensures -1.0 <= Cosine(a, b, root) <= 1.0
    ensures Clamp(Cosine(a, b, root)) == if Cosine(a, b, root) < 0.0 then 0.0 else Cosine(a, b, root)
  {
    hide Dot, SquareBounded, Ratio;
    DotOfSelf(a);
    DotOfSelf(b);
    CauchySchwarz(a, b);
    NormBounds(root(Dot(a, a)), root(Dot(b, b)), Dot(a, a), Dot(b, b), Dot(a, b));
    RatioInRange(Dot(a, b), root(Dot(a, a)) * root(Dot(b, b)));
  }

  lemma RatioInRange(d: real, norm: real)
    requires norm >= 0.0 && -norm <= d <= norm
    ensures -1.0 <= Ratio(d, norm) <= 1.0
  {
    if norm != 0.0 {
      QuotientInRange(d, norm);
    }
  }

  lemma QuotientAtMostOne(d: real, n: real)
    requires n > 0.0 && d <= n
    ensures d / n <= 1.0
  {
    var q := d / n;
    assert q * n == d && (q - 1.0) * n == q * n - n;
    if q > 1.0 {
      PositiveProduct(q - 1.0, n);
    }
  }

  lemma ProductsCancel(a: real, b: real, n: real)
    requires n > 0.0 && a * n == b * n
    ensures a == b
  {
    assert (a - b) * n == a * n - b * n && (b - a) * n == b * n - a * n;
    if a > b {
      PositiveProduct(a - b, n);
    } else if b > a {
      PositiveProduct(b - a, n);
    }
  }

  lemma NegatedQuotient(d: real, n: real)
    requires n > 0.0
    ensures (-d) / n == -(d / n)
  {
    var p, q := (-d) / n, d / n;
    assert p * n == -d && q * n == d;
    assert (-q) * n == -(q * n);
    ProductsCancel(p, -q, n);
  }

  lemma QuotientInRange(d: real, n: real)
    requires n > 0.0 && -n <= d <= n
    ensures -1.0 <= d / n <= 1.0
    ensures d >= 0.0 ==> d / n >= 0.0
  {
    QuotientAtMostOne(d, n);
    QuotientAtMostOne(-d, n);
    NegatedQuotient(d, n);
    if d >= 0.0 {
      NonNegativeQuotient(d, n);
    }
  }

  lemma NonNegativeQuotient(d: real, n: real)
    requires n > 0.0 && d >= 0.0
    ensures d / n >= 0.0
  {
  }

  lemma PerceptualInRange(a: Option<Fingerprint>, b: Option<Fingerprint>)
    ensures PerceptualSimilarity(a, b).Some? ==> 0.0 <= PerceptualSimilarity(a, b).value <= 1.0
  {
    if a.Some? && b.Some? {
      AdaptiveTheorems.DifferingSymmetric(a.value, b.value, HASH_BITS);
    }
  }

  lemma GapScoreInRange(gap: real, p: Policy)
    requires PolicyOk(p) && gap <= p.maxGap
    ensures 0.0 <= GapScore(gap, p) <= 0.2
  {
    if gap > p.strongGap && p.maxGap > p.strongGap {
      QuotientInRange(p.maxGap - gap, p.maxGap - p.strongGap);
    }
  }

  // The continuity score is in [0, 1], the range its threshold is given in.
  lemma ScoreInRange(previous: Record, current: Record, p: Policy, root: Root)
    requires PolicyOk(p) && IsRoot(root) && Gap(previous, current) <= p.maxGap
    ensures var s := SemanticSimilarity(previous.vector, current.vector, root);
            var h := PerceptualSimilarity(previous.hash, current.hash);
            s.Ok? && s.value.Some? && h.Some? ==>
              0.0 <= s.value.value <= 1.0 && 0.0 <= Score(s.value.value, h.value, previous, current, p) <= 1.0
  {
    PerceptualInRange(previous.hash, current.hash);
    GapScoreInRange(Gap(previous, current), p);
    if previous.vector.Some? && current.vector.Some? && |previous.vector.value| == |current.vector.value| {
      UpperClampIsIdle(previous.vector.value, current.vector.value, root);
    }
  }

  // ---------- sorting ----------

  predicate InOrder(records: seq<Record>) {
    forall i, j :: 0 <= i < j < |records| ==> NotAfter(records[i], records[j])
  }

  lemma {:induction false} InsertedMembers(sorted: seq<Record>, r: Record)
    ensures multiset(Inserted(sorted, r)) == multiset(sorted) + multiset{r}
  {
    if sorted != [] {
      assert sorted == [sorted[0]] + sorted[1..];
      InsertedMembers(sorted[1..], r);
    }
  }

  lemma {:induction false} InsertedInOrder(sorted: seq<Record>, r: Record)
    requires InOrder(sorted)
    ensures InOrder(Inserted(sorted, r))
  {
    if sorted != [] && NotAfter(sorted[0], r) && !NotAfter(r, sorted[0]) {
      InsertedInOrder(sorted[1..], r);
      InsertedMembers(sorted[1..], r);
      var tail := Inserted(sorted[1..], r);
      forall i | 0 <= i < |tail| ensures NotAfter(sorted[0], tail[i]) {
        assert tail[i] in multiset(tail);
        assert tail[i] == r || tail[i] in multiset(sorted[1..]);
      }
    }
  }

  lemma {:induction false} SortedInOrder(records: seq<Record>)
    ensures InOrder(Sorted(records)) && multiset(Sorted(records)) == multiset(records)
  {
    if records != [] {
      SortedInOrder(records[1..]);
      InsertedInOrder(Sorted(records[1..]), records[0]);
      InsertedMembers(Sorted(records[1..]), records[0]);
      assert records == [records[0]] + records[1..];
    }
  }

  predicate DistinctRecords(records: seq<Record>) {
    forall i, j :: 0 <= i < j < |records| ==> records[i].recordId != records[j].recordId
  }

  // With distinct identifiers an ordered sequence is determined by its elements.
  lemma {:induction false} OrderIsUnique(a: seq<Record>, b: seq<Record>)
    requires InOrder(a) && InOrder(b) && multiset(a) == multiset(b)
    requires forall x, y :: x in multiset(a) && y in multiset(a) && x.recordId == y.recordId ==> x == y
    ensures a == b
  {
    hide InOrder;
    SameLengths(a, b);
    if a != [] {
      SameHead(a, b);
      Tails(a, b);
      OrderIsUnique(a[1..], b[1..]);
      assert a == [a[0]] + a[1..] && b == [b[0]] + b[1..];
    }
  }

  lemma SameLengths(a: seq<Record>, b: seq<Record>)
    requires multiset(a) == multiset(b)
    ensures |a| == |b|
  {
    assert |multiset(a)| == |a| && |multiset(b)| == |b|;
  }

  lemma Tails(a: seq<Record>, b: seq<Record>)
    requires InOrder(a) && InOrder(b) && a != [] && b != [] && a[0] == b[0] && multiset(a) == multiset(b)
    ensures InOrder(a[1..]) && InOrder(b[1..]) && multiset(a[1..]) == multiset(b[1..])
    ensures forall x :: x in multiset(a[1..]) ==> x in multiset(a)
  {
    hide NotAfter;
    TailOf(a);
    TailOf(b);
  }

  lemma TailOf(a: seq<Record>)
    requires a != []
    ensures multiset(a[1..]) == multiset(a) - multiset{a[0]}
  {
    assert a == [a[0]] + a[1..];
  }

  lemma SameHead(a: seq<Record>, b: seq<Record>)
    requires InOrder(a) && InOrder(b) && multiset(a) == multiset(b) && a != [] && b != []
    requires forall x, y :: x in multiset(a) && y in multiset(a) && x.recordId == y.recordId ==> x == y
    ensures a[0] == b[0]
  {
    assert a[0] in multiset(b) && b[0] in multiset(a);
    var i :| 0 <= i < |b| && b[i] == a[0];
    var j :| 0 <= j < |a| && a[j] == b[0];
    assert i == 0 || NotAfter(b[0], b[i]);
    assert j == 0 || NotAfter(a[0], a[j]);
  }

  // ---------- the groups ----------

  // Every neighbour pair inside a group continues, and no pair across a boundary does.
  predicate CutAtFailures(groups: seq<seq<Record>>, p: Policy, root: Root) {
    && (forall g :: 0 <= g < |groups| ==> groups[g] != [])
    && (forall g, i :: 0 <= g < |groups| && 0 <= i < |groups[g]| - 1 ==>
          Continues(groups[g][i], groups[g][i + 1], p, root) == Ok(true))
    && (forall g :: 0 < g < |groups| ==> Continues(Last(groups[g - 1]), groups[g][0], p, root) == Ok(false))
  }

  lemma ExtendedConcat(groups: seq<seq<Record>>, r: Record, joins: bool)
    requires groups != []
    ensures Concat(Extended(groups, r, joins)) == Concat(groups) + [r]
  {
    var next := Extended(groups, r, joins);
    if joins {
      assert AllButLast(next) == AllButLast(groups) && Last(next) == Last(groups) + [r];
      assert Concat(AllButLast(groups)) + (Last(groups) + [r]) == Concat(AllButLast(groups)) + Last(groups) + [r];
    } else {
      assert AllButLast(next) == groups && Last(next) == [r];
    }
  }

  lemma ExtendedCuts(groups: seq<seq<Record>>, r: Record, joins: bool, p: Policy, root: Root)
    requires groups != [] && CutAtFailures(groups, p, root)
    requires Continues(Last(Last(groups)), r, p, root) == Ok(joins)
    ensures CutAtFailures(Extended(groups, r, joins), p, root)
  {
    var next := Extended(groups, r, joins);
    forall g, i | 0 <= g < |next| && 0 <= i < |next[g]| - 1
      ensures Continues(next[g][i], next[g][i + 1], p, root) == Ok(true)
    {
      if g < |groups| - 1 || !joins {
        assert next[g] == (if g < |groups| then groups[g] else [r]);
      } else if i < |groups[g]| - 1 {
        assert next[g][i] == groups[g][i] && next[g][i + 1] == groups[g][i + 1];
      }
    }
  }

  lemma SingleGroup(ordered: seq<Record>, p: Policy, root: Root)
    requires |ordered| == 1
    ensures CutAtFailures([ordered], p, root) && Concat([ordered]) == ordered
  {
    hide Continues;
    assert AllButLast([ordered]) == [];
    assert Concat([ordered]) == [] + ordered;
  }

  // The groups are the sorted records cut exactly where continuity fails.
  lemma {:induction false} GroupsAreCuts(ordered: seq<Record>, p: Policy, root: Root)
    requires ordered != [] && Groups(ordered, p, root).Ok?
    ensures CutAtFailures(Groups(ordered, p, root).value, p, root)
    ensures Concat(Groups(ordered, p, root).value) == ordered
    decreases |ordered|
  {
    hide Continues, Extended, CutAtFailures, Concat;
    if |ordered| == 1 {
      SingleGroup(ordered, p, root);
    } else {
      var before := AllButLast(ordered);
      GroupsAreCuts(before, p, root);
      var joins := Continues(Last(before), Last(ordered), p, root);
      ExtendedConcat(Groups(before, p, root).value, Last(ordered), joins.value);
      ExtendedCuts(Groups(before, p, root).value, Last(ordered), joins.value, p, root);
      assert before + [Last(ordered)] == ordered;
    }
  }

  // On sorted records the negative-gap error cannot occur: what can is a pair of
  // vectors of different length.
  lemma {:induction false} OnlyDimensionsCanFail(ordered: seq<Record>, p: Policy, root: Root)
    requires ordered != [] && InOrder(ordered)
    ensures Groups(ordered, p, root).Err? ==> Groups(ordered, p, root).error == DimensionMismatch
    decreases |ordered|
  {
    if |ordered| > 1 {
      OnlyDimensionsCanFail(AllButLast(ordered), p, root);
      assert NotAfter(Last(AllButLast(ordered)), Last(ordered));
    }
  }

  // There is only one such cut.
  lemma {:induction false} CutsAreUnique(a: seq<seq<Record>>, b: seq<seq<Record>>, p: Policy, root: Root)
    requires CutAtFailures(a, p, root) && CutAtFailures(b, p, root) && Concat(a) == Concat(b)
    ensures a == b
    decreases |a|
  {
    if a == [] {
      if b != [] {
        ConcatEnds(b);
      }
    } else {
      ConcatEnds(a);
      LastGroupsAgree(a, b, p, root);
      assert Concat(AllButLast(a)) == Concat(AllButLast(b)) by {
        var n := |Last(a)|;
        assert Concat(a)[..|Concat(a)| - n] == Concat(AllButLast(a));
        assert Concat(b)[..|Concat(b)| - n] == Concat(AllButLast(b));
      }
      CutsAreUnique(AllButLast(a), AllButLast(b), p, root);
      assert AllButLast(a) + [Last(a)] == a && AllButLast(b) + [Last(b)] == b;
    }
  }

  lemma {:induction false} ConcatEnds(groups: seq<seq<Record>>)
    requires groups != [] && forall g :: 0 <= g < |groups| ==> groups[g] != []
    ensures Concat(groups) != [] && Last(Concat(groups)) == Last(Last(groups))
  {
  }

  // A longer last group contains the pair that the other cut separates.
  lemma BoundaryPair(a: seq<seq<Record>>, b: seq<seq<Record>>)
    requires (forall g :: 0 <= g < |a| ==> a[g] != []) && forall g :: 0 <= g < |b| ==> b[g] != []
    requires Concat(a) == Concat(b) && a != [] && b != [] && |Last(a)| > |Last(b)|
    ensures |b| > 1
    ensures var i := |Last(a)| - |Last(b)| - 1;
            a[|a| - 1][i] == Last(b[|b| - 2]) && a[|a| - 1][i + 1] == b[|b| - 1][0]
  {
    hide Concat;
    ConcatSplits(a);
    ConcatSplits(b);
    var rest := Concat(AllButLast(b));
    TwoSuffixes(Concat(AllButLast(a)), Last(a), rest, Last(b));
    ConcatEnds(AllButLast(b));
  }

  lemma ConcatSplits(groups: seq<seq<Record>>)
    requires groups != []
    ensures Concat(groups) == Concat(AllButLast(groups)) + Last(groups)
    ensures Concat(AllButLast(groups)) != [] ==> AllButLast(groups) != []
  {
  }

  // Of two suffixes, the longer one holds the element before the shorter one.
  lemma TwoSuffixes(x: seq<Record>, p: seq<Record>, y: seq<Record>, q: seq<Record>)
    requires x + p == y + q && |p| > |q| > 0
    ensures y != []
    ensures p[|p| - |q| - 1] == Last(y) && p[|p| - |q|] == q[0]
  {
    var all := x + p;
    assert all[|x| + |p| - |q| - 1] == p[|p| - |q| - 1] && all[|x| + |p| - |q|] == p[|p| - |q|];
    assert |y| == |x| + |p| - |q|;
  }

  lemma LongerLastGroup(a: seq<seq<Record>>, b: seq<seq<Record>>, p: Policy, root: Root)
    requires CutAtFailures(a, p, root) && CutAtFailures(b, p, root) && Concat(a) == Concat(b)
    requires a != [] && b != []
    ensures |Last(a)| <= |Last(b)|
  {
    hide Continues;
    if |Last(a)| > |Last(b)| {
      BoundaryPair(a, b);
      assert false;
    }
  }

  lemma LastGroupsAgree(a: seq<seq<Record>>, b: seq<seq<Record>>, p: Policy, root: Root)
    requires CutAtFailures(a, p, root) && CutAtFailures(b, p, root) && Concat(a) == Concat(b)
    requires a != [] && b != []
    ensures Last(a) == Last(b)
  {
    LongerLastGroup(a, b, p, root);
    LongerLastGroup(b, a, p, root);
    var n := |Last(a)|;
    assert Last(a) == Concat(a)[|Concat(a)| - n..];
    assert Last(b) == Concat(b)[|Concat(b)| - n..];
  }

  // ---------- the segmenter ----------

  function Segmented(records: seq<Record>, p: Policy, root: Root): Result<seq<Cluster>, ActivityError> {
    if records == [] then Ok([])
    else
      SortedIsNotEmpty(records);
      var groups := Groups(Sorted(records), p, root);
      if groups.Err? then Err(groups.error)
      else
        NoGroupIsEmpty(records, p, root);
        Clusters(groups.value)
  }

  lemma SortIgnoresOrder(a: seq<Record>, b: seq<Record>)
    requires multiset(a) == multiset(b) && DistinctRecords(a)
    ensures Sorted(a) == Sorted(b)
  {
    SortedInOrder(a);
    SortedInOrder(b);
    var sorted := multiset(Sorted(a));
    forall x, y | x in sorted && y in sorted && x.recordId == y.recordId ensures x == y {
      assert x in multiset(a) && y in multiset(a);
    }
    OrderIsUnique(Sorted(a), Sorted(b));
  }

  // With distinct identifiers the clusters do not depend on the order of the input.
  lemma InputOrderIsIrrelevant(a: seq<Record>, b: seq<Record>, p: Policy, root: Root)
    requires multiset(a) == multiset(b) && DistinctRecords(a)
    ensures Segmented(a, p, root) == Segmented(b, p, root)
  {
    assert |multiset(a)| == |a| && |multiset(b)| == |b|;
    SortIgnoresOrder(a, b);
  }

  // What the clusters say: in time order, one per group, with the group's identifiers
  // and its first and last instant.
  predicate Describe(clusters: seq<Cluster>, groups: seq<seq<Record>>) {
    && |clusters| == |groups|
    && forall g :: 0 <= g < |groups| ==>
         && groups[g] != [] && clusters[g].ids == Ids(groups[g])
         && clusters[g].startedAt == groups[g][0].capturedAt && clusters[g].endedAt == Last(groups[g]).capturedAt
  }

  lemma {:induction false} ClustersDescribe(groups: seq<seq<Record>>)
    requires forall g :: 0 <= g < |groups| ==> groups[g] != []
    ensures Clusters(groups).Ok? ==> Describe(Clusters(groups).value, groups)
    ensures Clusters(groups).Ok? <==> forall g :: 0 <= g < |groups| ==> ClusterOf(groups[g]).Ok?
  {
    if groups != [] {
      ClustersDescribe(AllButLast(groups));
      assert AllButLast(groups) + [Last(groups)] == groups;
    }
  }

  lemma {:induction false} GroupsOfDistinct(groups: seq<seq<Record>>, g: nat)
    requires (forall k :: 0 <= k < |groups| ==> groups[k] != []) && g < |groups|
    requires DistinctRecords(Concat(groups)) && InOrder(Concat(groups))
    ensures ClusterOf(groups[g]).Ok?
    decreases |groups|
  {
    var all := Concat(groups);
    var init := Concat(AllButLast(groups));
    assert all == init + Last(groups);
    if g == |groups| - 1 {
      forall i, j | 0 <= i < j < |groups[g]| ensures Ids(groups[g])[i] != Ids(groups[g])[j] {
        assert all[|init| + i] == groups[g][i] && all[|init| + j] == groups[g][j];
      }
      assert all[|init|] == groups[g][0] && all[|all| - 1] == Last(groups[g]);
    } else {
      assert forall i :: 0 <= i < |init| ==> all[i] == init[i];
      GroupsOfDistinct(AllButLast(groups), g);
    }
  }

  // Segmentation of records with distinct identifiers fails only on vectors of different
  // lengths; otherwise the clusters describe the one partition of the sorted records
  // that is cut exactly where continuity fails.
  lemma SegmentationIsTheCut(records: seq<Record>, p: Policy, root: Root)
    requires records != [] && DistinctRecords(records)
    ensures var r := Segmented(records, p, root);
            && (r.Err? ==> r.error == DimensionMismatch)
            && (r.Ok? ==> exists groups :: CutAtFailures(groups, p, root) && Concat(groups) == Sorted(records)
                                           && Describe(r.value, groups))
    ensures InOrder(Sorted(records)) && multiset(Sorted(records)) == multiset(records)
  {
    SortedInOrder(records);
    var ordered := Sorted(records);
    assert |multiset(ordered)| == |ordered|;
    OnlyDimensionsCanFail(ordered, p, root);
    if Groups(ordered, p, root).Ok? {
      var groups := Groups(ordered, p, root).value;
      GroupsAreCuts(ordered, p, root);
      SortedStaysDistinct(records);
      forall g | 0 <= g < |groups| ensures ClusterOf(groups[g]).Ok? {
        GroupsOfDistinct(groups, g);
      }
      ClustersDescribe(groups);
      assert CutAtFailures(groups, p, root) && Concat(groups) == ordered;
    }
  }

  lemma {:induction false} InsertedStaysDistinct(sorted: seq<Record>, r: Record)
    requires DistinctRecords(sorted) && forall x :: x in sorted ==> x.recordId != r.recordId
    ensures DistinctRecords(Inserted(sorted, r))
  {
    if sorted != [] {
      var tail := Inserted(sorted[1..], r);
      InsertedStaysDistinct(sorted[1..], r);
      InsertedMembers(sorted[1..], r);
      forall j | 0 <= j < |tail| ensures tail[j].recordId != sorted[0].recordId {
        assert tail[j] in multiset(tail);
        assert tail[j] == r || tail[j] in multiset(sorted[1..]);
      }
    }
  }

  lemma {:induction false} SortedStaysDistinct(records: seq<Record>)
    requires DistinctRecords(records)
    ensures DistinctRecords(Sorted(records))
  {
    if records != [] {
      SortedStaysDistinct(records[1..]);
      SortedInOrder(records[1..]);
      forall x | x in Sorted(records[1..]) ensures x.recordId != records[0].recordId {
        assert x in multiset(Sorted(records[1..]));
        assert x in multiset(records[1..]);
      }
      InsertedStaysDistinct(Sorted(records[1..]), records[0]);
    }
  }

  // The segmenter's loop over the sorted records.
  method GroupRecords(ordered: seq<Record>, p: Policy, root: Root) returns (r: Result<seq<seq<Record>>, ActivityError>)
    requires ordered != []
    ensures r == Groups(ordered, p, root)
  {
    hide Continues, Extended;
    var groups := [[ordered[0]]];
    var i := 1;
    assert ordered[..1] == [ordered[0]];
    while i < |ordered|
      invariant 1 <= i <= |ordered|
      invariant Groups(ordered[..i], p, root) == Ok(groups)
    {
      assert AllButLast(ordered[..i + 1]) == ordered[..i] && Last(ordered[..i + 1]) == ordered[i];
      var previous := Last(Last(groups));
      var joins := Continues(previous, ordered[i], p, root);
      i := i + 1;
      if joins.Err? {
        FailureStays(ordered, i, p, root);
        return Err(joins.error);
      }
      groups := Extended(groups, ordered[i - 1], joins.value);
    }
    assert ordered[..|ordered|] == ordered;
    r := Ok(groups);
  }

  method Segment(records: seq<Record>, p: Policy, root: Root) returns (r: Result<seq<Cluster>, ActivityError>)
    ensures r == Segmented(records, p, root)
  {
    hide Sorted, Groups, Clusters, CutAtFailures, InOrder;
    if records == [] {
      return Ok([]);
    }
    SortedIsNotEmpty(records);
    var groups := GroupRecords(Sorted(records), p, root);
    if groups.Err? {
      return Err(groups.error);
    }
    NoGroupIsEmpty(records, p, root);
    r := BuildClusters(groups.value);
  }

  lemma SortedIsNotEmpty(records: seq<Record>)
    requires records != []
    ensures Sorted(records) != []
  {
    SortedInOrder(records);
    SameLengths(Sorted(records), records);
  }

  lemma NoGroupIsEmpty(records: seq<Record>, p: Policy, root: Root)
    requires records != [] && Sorted(records) != [] && Groups(Sorted(records), p, root).Ok?
    ensures var groups := Groups(Sorted(records), p, root).value;
            forall g :: 0 <= g < |groups| ==> groups[g] != []
  {
    GroupsAreCuts(Sorted(records), p, root);
  }

  lemma {:induction false} FailureStays(ordered: seq<Record>, n: nat, p: Policy, root: Root)
    requires 0 < n <= |ordered| && Groups(ordered[..n], p, root).Err?
    ensures Groups(ordered, p, root) == Groups(ordered[..n], p, root)
    decreases |ordered| - n
  {
    if n == |ordered| {
      assert ordered[..n] == ordered;
    } else {
      assert AllButLast(ordered[..n + 1]) == ordered[..n];
      FailureStays(ordered, n + 1, p, root);
    }
  }

  method BuildClusters(groups: seq<seq<Record>>) returns (r: Result<seq<Cluster>, ActivityError>)
    requires forall g :: 0 <= g < |groups| ==> groups[g] != []
    ensures r == Clusters(groups)
  {
    var clusters: seq<Cluster> := [];
    var g := 0;
    while g < |groups|
      invariant g <= |groups|
      invariant Clusters(groups[..g]) == Ok(clusters)
    {
      assert AllButLast(groups[..g + 1]) == groups[..g] && Last(groups[..g + 1]) == groups[g];
      var cluster := ClusterOf(groups[g]);
      g := g + 1;
      if cluster.Err? {
        ClusterFailureStays(groups, g);
        return Err(cluster.error);
      }
      clusters := clusters + [cluster.value];
    }
    assert groups[..|groups|] == groups;
    r := Ok(clusters);
  }

  lemma {:induction false} ClusterFailureStays(groups: seq<seq<Record>>, n: nat)
    requires forall g :: 0 <= g < |groups| ==> groups[g] != []
    requires n <= |groups| && Clusters(groups[..n]).Err?
    ensures Clusters(groups) == Clusters(groups[..n])
    decreases |groups| - n
  {
    if n == |groups| {
      assert groups[..n] == groups;
    } else {
      assert AllButLast(groups[..n + 1]) == groups[..n];
      ClusterFailureStays(groups, n + 1);
    }
  }
}
