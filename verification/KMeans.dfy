/**
 `kMeansClustering`: signals are assigned to the nearest of k centroids by cosine distance and centroids are
 replaced by means, until an assignment pass changes nothing or fifty passes are done.
 */
module KMeans {
  import opened Vectors

  datatype Signal = Signal(id: string, embedding: Vector)
  datatype Member = Member(id: string, relevance: real)
  datatype Cluster = Cluster(centroid: Vector, signals: seq<Member>)

  const MAX_ITER := 50

  /** math.MaxFloat64 */
  const MAX_FLOAT64: real := 179769313486231570814527423731704356798070567525844996598917476803157260780028538760589558632766878171540458953514382464234321326889464182768467546703537516986049910576551282076245490090389328944075868508455133942304583236903222948165808559332123348274797826204144723168738177180919299881250404026184124858368.0

  // ---------- assignment ----------

  /** The centroid of least index among those at least distance. */
  ghost predicate IsNearest(sqrt: real -> real, v: Vector, centroids: seq<Vector>, c: nat) {
    && c < |centroids|
    && forall j :: 0 <= j < |centroids| ==>
         var dc, dj := CosineDistance(sqrt, v, centroids[c]), CosineDistance(sqrt, v, centroids[j]);
         dc <= dj && (j < c ==> dc < dj)
  }

  method Nearest(sqrt: real -> real, v: Vector, centroids: array<Vector>) returns (bestCluster: nat)
    requires IsSqrt(sqrt) && centroids.Length > 0
    ensures IsNearest(sqrt, v, centroids[..], bestCluster)
  {
    var minDist := MAX_FLOAT64;
    bestCluster := 0;
    for c := 0 to centroids.Length
      invariant c == 0 ==> minDist == MAX_FLOAT64 && bestCluster == 0
      invariant c > 0 ==> bestCluster < c && minDist == CosineDistance(sqrt, v, centroids[bestCluster])
      invariant forall j :: 0 <= j < c ==>
                  minDist <= CosineDistance(sqrt, v, centroids[j])
                  && (j < bestCluster ==> minDist < CosineDistance(sqrt, v, centroids[j]))
    {
      var dist := ComputeCosineDistance(sqrt, v, centroids[c]);
      CosineDistanceBounds(sqrt, v, centroids[c]);
      if dist < minDist {
        minDist := dist;
        bestCluster := c;
      }
    }
  }

  /** Every signal of the right dimension sits at its nearest centroid; the others stay where they were. */
  ghost predicate Assigned(sqrt: real -> real, signals: seq<Signal>, dim: nat, centroids: seq<Vector>,
                           before: seq<nat>, after: seq<nat>)
  {
    && |signals| == |before| == |after|
    && forall i :: 0 <= i < |signals| ==>
         if |signals[i].embedding| == dim then IsNearest(sqrt, signals[i].embedding, centroids, after[i])
         else after[i] == before[i]
  }

  method AssignAll(sqrt: real -> real, signals: seq<Signal>, dim: nat, centroids: array<Vector>,
                   assignments: array<nat>)
    returns (changed: bool)
    requires IsSqrt(sqrt) && centroids.Length > 0 && assignments.Length == |signals|
    modifies assignments
    ensures Assigned(sqrt, signals, dim, centroids[..], old(assignments[..]), assignments[..])
    ensures changed <==> assignments[..] != old(assignments[..])
  {
    changed := false;
    ghost var before := assignments[..];
    for i := 0 to |signals|
      invariant forall j :: i <= j < |signals| ==> assignments[j] == before[j]
      invariant forall j :: 0 <= j < i ==>
                  if |signals[j].embedding| == dim
                  then IsNearest(sqrt, signals[j].embedding, centroids[..], assignments[j])
                  else assignments[j] == before[j]
      invariant changed <==> exists j :: 0 <= j < i && assignments[j] != before[j]
    {
      if |signals[i].embedding| != dim {
        continue;
      }
      var bestCluster := Nearest(sqrt, signals[i].embedding, centroids);
      if assignments[i] != bestCluster {
        assignments[i] := bestCluster;
        changed := true;
      }
    }
  }

  // ---------- means ----------

  /** How many of the first signals have the right dimension and belong to cluster c. */
  function MemberCount(signals: seq<Signal>, assignments: seq<nat>, dim: nat, c: nat): nat
    requires |assignments| == |signals|
  {
    if signals == [] then 0
    else
      var n := |signals| - 1;
      MemberCount(signals[..n], assignments[..n], dim, c)
      + if |signals[n].embedding| == dim && assignments[n] == c then 1 else 0
  }

  /** The sum of component d over the same signals. */
  function MemberSum(signals: seq<Signal>, assignments: seq<nat>, dim: nat, c: nat, d: nat): real
    requires |assignments| == |signals| && d < dim
  {
    if signals == [] then 0.0
    else
      var n := |signals| - 1;
      MemberSum(signals[..n], assignments[..n], dim, c, d)
      + if |signals[n].embedding| == dim && assignments[n] == c then signals[n].embedding[d] else 0.0
  }

  ghost predicate IsMean(signals: seq<Signal>, assignments: seq<nat>, dim: nat, c: nat, centroid: Vector)
    requires |assignments| == |signals|
  {
    && |centroid| == dim && MemberCount(signals, assignments, dim, c) > 0
    && forall d :: 0 <= d < dim ==>
         centroid[d]
         == Over(MemberSum(signals, assignments, dim, c, d), MemberCount(signals, assignments, dim, c) as real)
  }

  /** Every cluster with a member of the right dimension has their mean as its centroid. */
  ghost predicate Means(signals: seq<Signal>, assignments: seq<nat>, dim: nat, centroids: seq<Vector>)
    requires |assignments| == |signals|
  {
    forall c :: 0 <= c < |centroids| && MemberCount(signals, assignments, dim, c) > 0 ==>
      IsMean(signals, assignments, dim, c, centroids[c])
  }

  /** Clusters with members of the right dimension get their mean, the others keep their centroid. */
  ghost predicate Recomputed(signals: seq<Signal>, assignments: seq<nat>, dim: nat, before: seq<Vector>,
                             after: seq<Vector>)
    requires |assignments| == |signals|
  {
    && |after| == |before|
    && forall c :: 0 <= c < |after| ==>
         if MemberCount(signals, assignments, dim, c) > 0 then IsMean(signals, assignments, dim, c, after[c])
         else after[c] == before[c]
  }

  // ---------- what a mean is ----------

  predicate IsMember(signals: seq<Signal>, assignments: seq<nat>, dim: nat, c: nat, i: int)
    requires |assignments| == |signals|
  {
    0 <= i < |signals| && |signals[i].embedding| == dim && assignments[i] == c
  }

  /** The sum of what the members of cluster c differ from x in component d. */
  function Deviation(signals: seq<Signal>, assignments: seq<nat>, dim: nat, c: nat, d: nat, x: real): real
    requires |assignments| == |signals| && d < dim
  {
    if signals == [] then 0.0
    else
      var n := |signals| - 1;
      Deviation(signals[..n], assignments[..n], dim, c, d, x)
      + if |signals[n].embedding| == dim && assignments[n] == c then signals[n].embedding[d] - x else 0.0
  }

  /** In every component the members' deviations cancel out, and the centroid lies between two members. */
  ghost predicate Centred(signals: seq<Signal>, assignments: seq<nat>, dim: nat, c: nat, centroid: Vector)
    requires |assignments| == |signals|
  {
    && |centroid| == dim
    && forall d :: 0 <= d < dim ==>
         && Deviation(signals, assignments, dim, c, d, centroid[d]) == 0.0
         && (exists i :: IsMember(signals, assignments, dim, c, i) && signals[i].embedding[d] <= centroid[d])
         && (exists i :: IsMember(signals, assignments, dim, c, i) && signals[i].embedding[d] >= centroid[d])
  }

  ghost predicate HasMember(signals: seq<Signal>, assignments: seq<nat>, dim: nat, c: nat)
    requires |assignments| == |signals|
  {
    exists i :: IsMember(signals, assignments, dim, c, i)
  }

  lemma {:induction false} CountedMembers(signals: seq<Signal>, assignments: seq<nat>, dim: nat, c: nat)
    requires |assignments| == |signals|
    ensures MemberCount(signals, assignments, dim, c) > 0 <==> HasMember(signals, assignments, dim, c)
  {
    if signals != [] {
      var n := |signals| - 1;
      CountedMembers(signals[..n], assignments[..n], dim, c);
      if i :| IsMember(signals, assignments, dim, c, i) {
        if i < n { assert IsMember(signals[..n], assignments[..n], dim, c, i); }
      }
      if i :| IsMember(signals[..n], assignments[..n], dim, c, i) {
        assert IsMember(signals, assignments, dim, c, i);
      }
      if IsMember(signals, assignments, dim, c, n) { assert HasMember(signals, assignments, dim, c); }
    }
  }

  lemma {:induction false} DeviationIsSum(signals: seq<Signal>, assignments: seq<nat>, dim: nat, c: nat, d: nat,
                                          x: real)
    requires |assignments| == |signals| && d < dim
    ensures Deviation(signals, assignments, dim, c, d, x)
            == MemberSum(signals, assignments, dim, c, d) - Times(MemberCount(signals, assignments, dim, c) as real, x)
  {
    if signals != [] {
      var n := |signals| - 1;
      DeviationIsSum(signals[..n], assignments[..n], dim, c, d, x);
      var k := MemberCount(signals[..n], assignments[..n], dim, c);
      assert Times((k + 1) as real, x) == Times(k as real, x) + x;
    }
  }

  /** If every member is above x in component d, so is their sum of deviations. */
  lemma {:induction false} DeviationAbove(signals: seq<Signal>, assignments: seq<nat>, dim: nat, c: nat, d: nat,
                                          x: real)
    requires |assignments| == |signals| && d < dim
    requires forall i :: IsMember(signals, assignments, dim, c, i) ==> signals[i].embedding[d] > x
    ensures Deviation(signals, assignments, dim, c, d, x) >= 0.0
    ensures MemberCount(signals, assignments, dim, c) > 0 ==> Deviation(signals, assignments, dim, c, d, x) > 0.0
  {
    if signals != [] {
      var n := |signals| - 1;
      forall i | IsMember(signals[..n], assignments[..n], dim, c, i) ensures signals[..n][i].embedding[d] > x {
        assert IsMember(signals, assignments, dim, c, i);
      }
      DeviationAbove(signals[..n], assignments[..n], dim, c, d, x);
      assert IsMember(signals, assignments, dim, c, n) ==> signals[n].embedding[d] > x;
    }
  }

  lemma {:induction false} DeviationBelow(signals: seq<Signal>, assignments: seq<nat>, dim: nat, c: nat, d: nat,
                                          x: real)
    requires |assignments| == |signals| && d < dim
    requires forall i :: IsMember(signals, assignments, dim, c, i) ==> signals[i].embedding[d] < x
    ensures Deviation(signals, assignments, dim, c, d, x) <= 0.0
    ensures MemberCount(signals, assignments, dim, c) > 0 ==> Deviation(signals, assignments, dim, c, d, x) < 0.0
  {
    if signals != [] {
      var n := |signals| - 1;
      forall i | IsMember(signals[..n], assignments[..n], dim, c, i) ensures signals[..n][i].embedding[d] < x {
        assert IsMember(signals, assignments, dim, c, i);
      }
      DeviationBelow(signals[..n], assignments[..n], dim, c, d, x);
      assert IsMember(signals, assignments, dim, c, n) ==> signals[n].embedding[d] < x;
    }
  }

  lemma QuotientTimes(x: real, y: real)
    requires y != 0.0
    ensures Times(y, Over(x, y)) == x
  {
    var q := x / y;
    assert q * y == x;
    assert y * q == q * y;
  }

  /** A mean is centred among its members. */
  lemma MeanIsCentred(signals: seq<Signal>, assignments: seq<nat>, dim: nat, c: nat, centroid: Vector)
    requires |assignments| == |signals| && IsMean(signals, assignments, dim, c, centroid)
    ensures Centred(signals, assignments, dim, c, centroid)
  {
    var k := MemberCount(signals, assignments, dim, c);
    forall d | 0 <= d < dim
      ensures Deviation(signals, assignments, dim, c, d, centroid[d]) == 0.0
      ensures exists i :: IsMember(signals, assignments, dim, c, i) && signals[i].embedding[d] <= centroid[d]
      ensures exists i :: IsMember(signals, assignments, dim, c, i) && signals[i].embedding[d] >= centroid[d]
    {
      var x := centroid[d];
      DeviationIsSum(signals, assignments, dim, c, d, x);
      QuotientTimes(MemberSum(signals, assignments, dim, c, d), k as real);
      if forall i :: IsMember(signals, assignments, dim, c, i) ==> signals[i].embedding[d] > x {
        DeviationAbove(signals, assignments, dim, c, d, x);
      }
      if forall i :: IsMember(signals, assignments, dim, c, i) ==> signals[i].embedding[d] < x {
        DeviationBelow(signals, assignments, dim, c, d, x);
      }
    }
  }

  /** Clusters with members are centred on them, the others keep their centroid. */
  ghost predicate Recentred(signals: seq<Signal>, assignments: seq<nat>, dim: nat, before: seq<Vector>,
                            after: seq<Vector>)
    requires |assignments| == |signals|
  {
    && |after| == |before|
    && forall c :: 0 <= c < |after| ==>
         if HasMember(signals, assignments, dim, c) then Centred(signals, assignments, dim, c, after[c])
         else after[c] == before[c]
  }

  lemma RecomputedIsRecentred(signals: seq<Signal>, assignments: seq<nat>, dim: nat, before: seq<Vector>,
                              after: seq<Vector>)
    requires |assignments| == |signals| && Recomputed(signals, assignments, dim, before, after)
    ensures Recentred(signals, assignments, dim, before, after)
  {
    forall c | 0 <= c < |after|
      ensures if HasMember(signals, assignments, dim, c) then Centred(signals, assignments, dim, c, after[c])
              else after[c] == before[c]
    {
      CountedMembers(signals, assignments, dim, c);
      if HasMember(signals, assignments, dim, c) { MeanIsCentred(signals, assignments, dim, c, after[c]); }
    }
  }

  // ---------- recomputing ----------

  lemma MembersSnoc(signals: seq<Signal>, assignments: seq<nat>, dim: nat, i: nat)
    requires |assignments| == |signals| && i < |signals|
    ensures signals[..i + 1][..i] == signals[..i] && assignments[..i + 1][..i] == assignments[..i]
  {
  }

  /** The sums and counts of all clusters in one pass over the signals. */
  method Accumulate(signals: seq<Signal>, dim: nat, k: nat, assignments: array<nat>)
    returns (counts: array<nat>, sums: array2<real>)
    requires assignments.Length == |signals| && forall i :: 0 <= i < |signals| ==> assignments[i] < k
    ensures fresh(counts) && fresh(sums) && counts.Length == sums.Length0 == k && sums.Length1 == dim
    ensures forall c :: 0 <= c < k ==> counts[c] == MemberCount(signals, assignments[..], dim, c)
    ensures forall c, d :: 0 <= c < k && 0 <= d < dim ==> sums[c, d] == MemberSum(signals, assignments[..], dim, c, d)
  {
    counts := new nat[k](_ => 0);
    sums := new real[k, dim]((_, _) => 0.0);
    ghost var asg := assignments[..];
    for i := 0 to |signals|
      invariant assignments[..] == asg
      invariant forall c :: 0 <= c < k ==> counts[c] == MemberCount(signals[..i], asg[..i], dim, c)
      invariant forall c, d :: 0 <= c < k && 0 <= d < dim ==> sums[c, d] == MemberSum(signals[..i], asg[..i], dim, c, d)
    {
      MembersSnoc(signals, asg, dim, i);
      var c := assignments[i];
      if |signals[i].embedding| != dim {
        continue;
      }
      counts[c] := counts[c] + 1;
      for d := 0 to dim
        invariant assignments[..] == asg
        invariant forall c' :: 0 <= c' < k ==> counts[c'] == MemberCount(signals[..i + 1], asg[..i + 1], dim, c')
        invariant forall c', d' :: 0 <= c' < k && 0 <= d' < dim ==>
                    sums[c', d'] == if c' == c && d' >= d then MemberSum(signals[..i], asg[..i], dim, c', d')
                                    else MemberSum(signals[..i + 1], asg[..i + 1], dim, c', d')
      {
        sums[c, d] := sums[c, d] + signals[i].embedding[d];
      }
    }
    assert signals[..|signals|] == signals && asg[..|signals|] == asg;
  }

  method Recompute(signals: seq<Signal>, dim: nat, assignments: array<nat>, centroids: array<Vector>)
    requires assignments.Length == |signals| && forall i :: 0 <= i < |signals| ==> assignments[i] < centroids.Length
    modifies centroids
    ensures Recomputed(signals, assignments[..], dim, old(centroids[..]), centroids[..])
    ensures Recentred(signals, assignments[..], dim, old(centroids[..]), centroids[..])
  {
    var counts, sums := Accumulate(signals, dim, centroids.Length, assignments);
    ghost var asg := assignments[..];
    ghost var before := centroids[..];
    for c := 0 to centroids.Length
      invariant assignments[..] == asg
      invariant forall c' :: c <= c' < centroids.Length ==> centroids[c'] == before[c']
      invariant forall c' :: 0 <= c' < c ==>
                  if MemberCount(signals, asg, dim, c') > 0 then IsMean(signals, asg, dim, c', centroids[c'])
                  else centroids[c'] == before[c']
      invariant forall c' :: 0 <= c' < centroids.Length ==> counts[c'] == MemberCount(signals, asg, dim, c')
      invariant forall c', d :: c <= c' < centroids.Length && 0 <= d < dim ==>
                  sums[c', d] == MemberSum(signals, asg, dim, c', d)
    {
      if counts[c] > 0 {
        for d := 0 to dim
          modifies sums
          invariant assignments[..] == asg && counts[c] == MemberCount(signals, asg, dim, c)
          invariant forall d' :: 0 <= d' < dim ==>
                      sums[c, d'] == if d' < d then Over(MemberSum(signals, asg, dim, c, d'), counts[c] as real)
                                     else MemberSum(signals, asg, dim, c, d')
          invariant forall c', d' :: c < c' < centroids.Length && 0 <= d' < dim ==>
                      sums[c', d'] == MemberSum(signals, asg, dim, c', d')
        {
          sums[c, d] := Over(sums[c, d], counts[c] as real);
        }
        centroids[c] := seq(dim, d requires 0 <= d < dim reads sums => sums[c, d]);
      }
    }
    RecomputedIsRecentred(signals, asg, dim, before, centroids[..]);
  }

  // ---------- the clusters ----------

  /** The members of cluster c, in the order of the signals. */
  function Bucket(sqrt: real -> real, signals: seq<Signal>, assignments: seq<nat>, centroid: Vector, c: nat)
    : seq<Member>
    requires |assignments| == |signals|
  {
    if signals == [] then []
    else
      var n := |signals| - 1;
      Bucket(sqrt, signals[..n], assignments[..n], centroid, c)
      + if assignments[n] == c
        then [Member(signals[n].id, 1.0 - CosineDistance(sqrt, signals[n].embedding, centroid))]
        else []
  }

  /** What the loop works on. */
  datatype Stage = Stage(centroids: seq<Vector>, assignments: seq<nat>)

  function ClustersOf(sqrt: real -> real, signals: seq<Signal>, s: Stage): (r: seq<Cluster>)
    requires |s.assignments| == |signals|
    ensures |r| == |s.centroids|
  {
    seq(|s.centroids|, c requires 0 <= c < |s.centroids| =>
      Cluster(s.centroids[c], Bucket(sqrt, signals, s.assignments, s.centroids[c], c)))
  }

  method BuildClusters(sqrt: real -> real, signals: seq<Signal>, assignments: array<nat>, centroids: array<Vector>)
    returns (clusters: seq<Cluster>)
    requires IsSqrt(sqrt) && assignments.Length == |signals|
    requires forall i :: 0 <= i < |signals| ==> assignments[i] < centroids.Length
    ensures clusters == ClustersOf(sqrt, signals, Stage(centroids[..], assignments[..]))
  {
    var buckets := new seq<Member>[centroids.Length](_ => []);
    ghost var asg := assignments[..];
    for i := 0 to |signals|
      modifies buckets
      invariant forall c :: 0 <= c < centroids.Length ==>
                  buckets[c] == Bucket(sqrt, signals[..i], asg[..i], centroids[c], c)
    {
      assert signals[..i + 1][..i] == signals[..i] && asg[..i + 1][..i] == asg[..i];
      var c := assignments[i];
      var dist := ComputeCosineDistance(sqrt, signals[i].embedding, centroids[c]);
      buckets[c] := buckets[c] + [Member(signals[i].id, 1.0 - dist)];
    }
    assert signals[..|signals|] == signals && asg[..|signals|] == asg;
    clusters := seq(centroids.Length, c requires 0 <= c < centroids.Length reads centroids, buckets =>
      Cluster(centroids[c], buckets[c]));
  }

  /** A first centroid: the signal's embedding copied into a buffer of dimension dim. */
  function CopyOf(v: Vector, dim: nat): (r: Vector)
    ensures CopiedInto(v, dim, r)
  {
    seq(dim, d requires 0 <= d < dim => if d < |v| then v[d] else 0.0)
  }

  /** The buffer of dimension dim begins with the embedding, and zeros follow. */
  ghost predicate CopiedInto(v: Vector, dim: nat, r: Vector) {
    && |r| == dim && (|v| == dim ==> r == v)
    && forall d :: 0 <= d < dim ==> (d < |v| ==> r[d] == v[d]) && (d >= |v| ==> r[d] == 0.0)
  }

  /** The first k signals give the first centroids; when there are fewer, the rest have no components. */
  function FirstCentroids(signals: seq<Signal>, k: nat, dim: nat): (r: seq<Vector>)
    ensures |r| == k
  {
    seq(k, i requires 0 <= i < k => if i < |signals| then CopyOf(signals[i].embedding, dim) else [])
  }

  // ---------- the run ----------

  function FirstStage(signals: seq<Signal>, k: nat, dim: nat): Stage {
    Stage(FirstCentroids(signals, k, dim), seq(|signals|, _ => 0))
  }

  /** One pass that changes something: signals move to their nearest centroids, then centroids to the means. */
  ghost predicate PassTo(sqrt: real -> real, signals: seq<Signal>, dim: nat, s: Stage, t: Stage) {
    && Assigned(sqrt, signals, dim, s.centroids, s.assignments, t.assignments)
    && t.assignments != s.assignments
    && Recomputed(signals, t.assignments, dim, s.centroids, t.centroids)
  }

  /** A pass would change nothing. */
  ghost predicate Stable(sqrt: real -> real, signals: seq<Signal>, dim: nat, s: Stage) {
    Assigned(sqrt, signals, dim, s.centroids, s.assignments, s.assignments)
  }

  /** The stages of a run so far. */
  ghost predicate IsRun(sqrt: real -> real, signals: seq<Signal>, k: nat, dim: nat, run: seq<Stage>) {
    && 1 <= |run| <= MAX_ITER + 1 && run[0] == FirstStage(signals, k, dim)
    && forall i :: 0 <= i < |run| - 1 ==> PassTo(sqrt, signals, dim, run[i], run[i + 1])
  }

  /** The run is over after fifty passes, or as soon as a pass would change nothing; its last stage gives the
      clusters. */
  ghost predicate Clustered(sqrt: real -> real, signals: seq<Signal>, k: nat, dim: nat, run: seq<Stage>,
                            clusters: seq<Cluster>)
  {
    && IsRun(sqrt, signals, k, dim, run)
    && var end := run[|run| - 1];
       && (|run| == MAX_ITER + 1 || Stable(sqrt, signals, dim, end))
       && |end.assignments| == |signals| && clusters == ClustersOf(sqrt, signals, end)
  }

  ghost predicate IsClustering(sqrt: real -> real, signals: seq<Signal>, k: nat, dim: nat, clusters: seq<Cluster>) {
    exists run :: Clustered(sqrt, signals, k, dim, run, clusters)
  }

  method InitCentroids(signals: seq<Signal>, k: nat, dim: nat) returns (centroids: array<Vector>)
    ensures fresh(centroids) && centroids[..] == FirstCentroids(signals, k, dim)
    ensures forall i :: 0 <= i < k && i < |signals| ==> CopiedInto(signals[i].embedding, dim, centroids[i])
  {
    centroids := new Vector[k](_ => []);
    var i := 0;
    while i < k && i < |signals|
      invariant 0 <= i <= k && i <= |signals|
      invariant forall j :: 0 <= j < k ==> centroids[j] == if j < i then CopyOf(signals[j].embedding, dim) else []
    {
      centroids[i] := CopyOf(signals[i].embedding, dim);
      i := i + 1;
    }
  }

  /** One iteration: an assignment pass, and new centroids if it changed anything. */
  method Pass(sqrt: real -> real, signals: seq<Signal>, dim: nat, centroids: array<Vector>, assignments: array<nat>)
    returns (changed: bool)
    requires IsSqrt(sqrt) && centroids.Length > 0 && assignments.Length == |signals|
    requires forall i :: 0 <= i < |signals| ==> assignments[i] < centroids.Length
    modifies centroids, assignments
    ensures forall i :: 0 <= i < |signals| ==> assignments[i] < centroids.Length
    ensures var s, t := Stage(old(centroids[..]), old(assignments[..])), Stage(centroids[..], assignments[..]);
            if changed then PassTo(sqrt, signals, dim, s, t) else t == s && Stable(sqrt, signals, dim, s)
  {
    ghost var s := Stage(centroids[..], assignments[..]);
    changed := AssignAll(sqrt, signals, dim, centroids, assignments);
    if !changed {
      return;
    }
    AssignedInRange(sqrt, signals, dim, s, assignments[..]);
    assert forall i :: 0 <= i < |signals| ==> assignments[..][i] < centroids.Length;
    Recompute(signals, dim, assignments, centroids);
  }

  lemma AssignedInRange(sqrt: real -> real, signals: seq<Signal>, dim: nat, s: Stage, after: seq<nat>)
    requires Assigned(sqrt, signals, dim, s.centroids, s.assignments, after)
    requires forall i :: 0 <= i < |signals| ==> s.assignments[i] < |s.centroids|
    ensures forall i :: 0 <= i < |signals| ==> after[i] < |s.centroids|
  {
  }

  method KMeansClustering(sqrt: real -> real, signals: seq<Signal>, k: int) returns (clusters: seq<Cluster>)
    requires IsSqrt(sqrt)
    ensures if |signals| == 0 || k <= 0 || |signals[0].embedding| == 0 then clusters == []
            else IsClustering(sqrt, signals, k, |signals[0].embedding|, clusters)
  {
    if |signals| == 0 || k <= 0 {
      return [];
    }
    var dim := |signals[0].embedding|;
    if dim == 0 {
      return [];
    }
    var centroids := InitCentroids(signals, k, dim);
    var asg := new nat[|signals|](_ => 0);
    ghost var run := [Stage(centroids[..], asg[..])];
    ghost var stopped := false;
    for iter := 0 to MAX_ITER
      invariant !stopped && |run| == iter + 1 && run[iter] == Stage(centroids[..], asg[..])
      invariant IsRun(sqrt, signals, k, dim, run)
      invariant forall i :: 0 <= i < |signals| ==> asg[i] < centroids.Length
    {
      var changed := Pass(sqrt, signals, dim, centroids, asg);
      if !changed {
        stopped := true;
        break;
      }
      run := run + [Stage(centroids[..], asg[..])];
    }
    clusters := BuildClusters(sqrt, signals, asg, centroids);
    assert Clustered(sqrt, signals, k, dim, run, clusters);
  }

  // ---------- what a run achieves ----------

  /** Every stage: indices in range, signals of another dimension left in cluster 0, centroids initialised, and after
      the first pass exact means. */
  ghost predicate Sound(signals: seq<Signal>, k: nat, dim: nat, s: Stage, passes: nat) {
    && |s.assignments| == |signals| && |s.centroids| == k
    && (forall j :: 0 <= j < |signals| ==>
          s.assignments[j] < k && (|signals[j].embedding| != dim ==> s.assignments[j] == 0))
    && (forall c :: 0 <= c < k && c < |signals| ==> |s.centroids[c]| == dim)
    && (passes > 0 ==> Means(signals, s.assignments, dim, s.centroids))
  }

  lemma PassKeepsSound(sqrt: real -> real, signals: seq<Signal>, k: nat, dim: nat, s: Stage, t: Stage, passes: nat)
    requires Sound(signals, k, dim, s, passes) && PassTo(sqrt, signals, dim, s, t)
    ensures Sound(signals, k, dim, t, passes + 1)
  {
  }

  lemma {:induction false} RunSound(sqrt: real -> real, signals: seq<Signal>, k: nat, dim: nat, run: seq<Stage>, i: nat)
    requires k > 0 && IsRun(sqrt, signals, k, dim, run) && i < |run|
    ensures Sound(signals, k, dim, run[i], i)
  {
    if i > 0 {
      RunSound(sqrt, signals, k, dim, run, i - 1);
      PassKeepsSound(sqrt, signals, k, dim, run[i - 1], run[i], i - 1);
    }
  }

  /** Every signal of the right dimension is at its nearest centroid, ties broken by the lower index. */
  ghost predicate EverybodyAtNearest(sqrt: real -> real, signals: seq<Signal>, dim: nat, s: Stage)
    requires |s.assignments| == |signals| && forall i :: 0 <= i < |signals| ==> s.assignments[i] < |s.centroids|
  {
    forall i, c :: 0 <= i < |signals| && |signals[i].embedding| == dim && 0 <= c < |s.centroids| ==>
      var v, own := signals[i].embedding, s.assignments[i];
      var mine, other := CosineDistance(sqrt, v, s.centroids[own]), CosineDistance(sqrt, v, s.centroids[c]);
      mine <= other && (c < own ==> mine < other)
  }

  /** A run that stops before its fiftieth pass ends in a fixed point: every signal of the right dimension is at its
      nearest centroid, and every centroid of a cluster with members is their mean -- unless there was no pass at all,
      and then everybody is at the first signal's.  The means are exact at the cap, too. */
  lemma EarlyStopIsFixedPoint(sqrt: real -> real, signals: seq<Signal>, k: nat, dim: nat, run: seq<Stage>,
                              clusters: seq<Cluster>)
    requires k > 0 && Clustered(sqrt, signals, k, dim, run, clusters)
    ensures var end := run[|run| - 1];
            && Sound(signals, k, dim, end, |run| - 1)
            && (|run| > 1 ==> Recentred(signals, end.assignments, dim, end.centroids, end.centroids))
            && (|run| <= MAX_ITER ==> EverybodyAtNearest(sqrt, signals, dim, end))
            && (|run| == 1 ==> forall i :: 0 <= i < |signals| ==> end.assignments[i] == 0)
  {
    var end := run[|run| - 1];
    RunSound(sqrt, signals, k, dim, run, |run| - 1);
    if |run| > 1 { RecomputedIsRecentred(signals, end.assignments, dim, end.centroids, end.centroids); }
    if |run| <= MAX_ITER { StableIsNearest(sqrt, signals, dim, end); }
  }

  lemma StableIsNearest(sqrt: real -> real, signals: seq<Signal>, dim: nat, s: Stage)
    requires Stable(sqrt, signals, dim, s) && forall i :: 0 <= i < |signals| ==> s.assignments[i] < |s.centroids|
    ensures EverybodyAtNearest(sqrt, signals, dim, s)
  {
    hide CosineDistance;
    forall i, c | 0 <= i < |signals| && |signals[i].embedding| == dim && 0 <= c < |s.centroids|
      ensures var v, own := signals[i].embedding, s.assignments[i];
              var mine, other := CosineDistance(sqrt, v, s.centroids[own]), CosineDistance(sqrt, v, s.centroids[c]);
              mine <= other && (c < own ==> mine < other)
    {
      assert IsNearest(sqrt, signals[i].embedding, s.centroids, s.assignments[i]);
    }
  }

  lemma AssignedUnique(sqrt: real -> real, signals: seq<Signal>, dim: nat, s: Stage, a: seq<nat>, b: seq<nat>)
    requires Assigned(sqrt, signals, dim, s.centroids, s.assignments, a)
    requires Assigned(sqrt, signals, dim, s.centroids, s.assignments, b)
    ensures a == b
  {
    forall i | 0 <= i < |signals| ensures a[i] == b[i] {
      if |signals[i].embedding| == dim { NearestUnique(sqrt, signals[i].embedding, s.centroids, a[i], b[i]); }
    }
  }

  lemma NearestUnique(sqrt: real -> real, v: Vector, centroids: seq<Vector>, a: nat, b: nat)
    requires IsNearest(sqrt, v, centroids, a) && IsNearest(sqrt, v, centroids, b)
    ensures a == b
  {
    var da, db := CosineDistance(sqrt, v, centroids[a]), CosineDistance(sqrt, v, centroids[b]);
    assert (a < b ==> da < db) && (b < a ==> db < da) && da == db;
  }

  lemma MeanUnique(signals: seq<Signal>, assignments: seq<nat>, dim: nat, c: nat, a: Vector, b: Vector)
    requires |assignments| == |signals|
    requires IsMean(signals, assignments, dim, c, a) && IsMean(signals, assignments, dim, c, b)
    ensures a == b
  {
    assert forall d :: 0 <= d < dim ==> a[d] == b[d];
  }

  lemma PassUnique(sqrt: real -> real, signals: seq<Signal>, dim: nat, s: Stage, t: Stage, u: Stage)
    requires PassTo(sqrt, signals, dim, s, t) && PassTo(sqrt, signals, dim, s, u)
    ensures t == u
  {
    AssignedUnique(sqrt, signals, dim, s, t.assignments, u.assignments);
    forall c | 0 <= c < |t.centroids| ensures t.centroids[c] == u.centroids[c] {
      if MemberCount(signals, t.assignments, dim, c) > 0 {
        MeanUnique(signals, t.assignments, dim, c, t.centroids[c], u.centroids[c]);
      }
    }
  }

  lemma {:induction false} RunsAgree(sqrt: real -> real, signals: seq<Signal>, k: nat, dim: nat, a: seq<Stage>,
                                     b: seq<Stage>, i: nat)
    requires IsRun(sqrt, signals, k, dim, a) && IsRun(sqrt, signals, k, dim, b) && i < |a| && i < |b|
    ensures a[i] == b[i]
  {
    if i > 0 {
      RunsAgree(sqrt, signals, k, dim, a, b, i - 1);
      assert PassTo(sqrt, signals, dim, a[i - 1], a[i]) && PassTo(sqrt, signals, dim, b[i - 1], b[i]);
      PassUnique(sqrt, signals, dim, a[i - 1], a[i], b[i]);
    }
  }

  lemma NotLonger(sqrt: real -> real, signals: seq<Signal>, k: nat, dim: nat, a: seq<Stage>, b: seq<Stage>,
                  clusters: seq<Cluster>)
    requires Clustered(sqrt, signals, k, dim, a, clusters) && IsRun(sqrt, signals, k, dim, b)
    ensures |b| <= |a|
  {
    if |a| < |b| {
      var n := |a| - 1;
      RunsAgree(sqrt, signals, k, dim, a, b, n);
      assert PassTo(sqrt, signals, dim, b[n], b[n + 1]);
      AssignedUnique(sqrt, signals, dim, b[n], b[n].assignments, b[n + 1].assignments);
    }
  }

  /** The specification leaves nothing open: there is one run and one clustering. */
  lemma ClusteringUnique(sqrt: real -> real, signals: seq<Signal>, k: nat, dim: nat,
                         a: seq<Stage>, clusters1: seq<Cluster>, b: seq<Stage>, clusters2: seq<Cluster>)
    requires Clustered(sqrt, signals, k, dim, a, clusters1) && Clustered(sqrt, signals, k, dim, b, clusters2)
    ensures a == b && clusters1 == clusters2
  {
    NotLonger(sqrt, signals, k, dim, a, b, clusters1);
    NotLonger(sqrt, signals, k, dim, b, a, clusters2);
    forall i | 0 <= i < |a| ensures a[i] == b[i] { RunsAgree(sqrt, signals, k, dim, a, b, i); }
  }

  // ---------- every signal exactly once, in order ----------

  /** How many of the signals are in cluster c. */
  function Occurrences(assignments: seq<nat>, c: nat): nat {
    if assignments == [] then 0
    else Occurrences(assignments[..|assignments| - 1], c) + if assignments[|assignments| - 1] == c then 1 else 0
  }

  /** A cluster holds its signals and nothing else, each at the position given by how many signals of the same
      cluster come before it. */
  lemma {:induction false} BucketPositions(sqrt: real -> real, signals: seq<Signal>, assignments: seq<nat>,
                                           centroid: Vector, c: nat, i: nat)
    requires |assignments| == |signals| && i <= |signals|
    ensures |Bucket(sqrt, signals, assignments, centroid, c)| == Occurrences(assignments, c)
    ensures Occurrences(assignments[..i], c) <= Occurrences(assignments, c)
    ensures i < |signals| && assignments[i] == c ==>
              && Occurrences(assignments[..i], c) < Occurrences(assignments, c)
              && Bucket(sqrt, signals, assignments, centroid, c)[Occurrences(assignments[..i], c)]
                 == Member(signals[i].id, 1.0 - CosineDistance(sqrt, signals[i].embedding, centroid))
  {
    if signals != [] {
      var n := |signals| - 1;
      if i <= n {
        BucketPositions(sqrt, signals[..n], assignments[..n], centroid, c, i);
        assert assignments[..n][..i] == assignments[..i];
      } else {
        BucketPositions(sqrt, signals[..n], assignments[..n], centroid, c, n);
        assert assignments[..i] == assignments;
      }
    } else {
      assert assignments[..i] == assignments;
    }
  }

  /** The sizes of the first k clusters together. */
  function TotalSize(assignments: seq<nat>, k: nat): nat {
    if k == 0 then 0 else TotalSize(assignments, k - 1) + Occurrences(assignments, k - 1)
  }

  lemma {:induction false} TotalSizeSnoc(assignments: seq<nat>, k: nat)
    requires assignments != []
    ensures var n := |assignments| - 1;
            TotalSize(assignments, k) == TotalSize(assignments[..n], k) + if assignments[n] < k then 1 else 0
  {
    if k > 0 { TotalSizeSnoc(assignments, k - 1); }
  }

  /** Nothing is lost and nothing counted twice. */
  lemma {:induction false} SizesAddUp(assignments: seq<nat>, k: nat)
    requires forall i :: 0 <= i < |assignments| ==> assignments[i] < k
    ensures TotalSize(assignments, k) == |assignments|
  {
    if assignments == [] {
      EmptyTotal(k);
    } else {
      TotalSizeSnoc(assignments, k);
      SizesAddUp(assignments[..|assignments| - 1], k);
    }
  }

  lemma {:induction false} EmptyTotal(k: nat)
    ensures TotalSize([], k) == 0
  {
    if k > 0 { EmptyTotal(k - 1); }
  }

  /** The clusters partition the signals: each signal is in the cluster it is assigned to, at its place in input
      order, and the cluster sizes add up to the number of signals; every stored relevance is in [-1, 1]. */
  lemma ClustersPartition(sqrt: real -> real, signals: seq<Signal>, k: nat, dim: nat, run: seq<Stage>,
                          clusters: seq<Cluster>)
    requires IsSqrt(sqrt) && k > 0 && Clustered(sqrt, signals, k, dim, run, clusters)
    ensures var assignments := run[|run| - 1].assignments;
            && |clusters| == k && |assignments| == |signals| && TotalSize(assignments, k) == |signals|
            && (forall c :: 0 <= c < k ==> |clusters[c].signals| == Occurrences(assignments, c))
            && forall i :: 0 <= i < |signals| ==> assignments[i] < k && InPlace(sqrt, signals, assignments, clusters, i)
  {
    RunSound(sqrt, signals, k, dim, run, |run| - 1);
    var assignments := run[|run| - 1].assignments;
    SizesAddUp(assignments, k);
    forall c | 0 <= c < k ensures |clusters[c].signals| == Occurrences(assignments, c) {
      BucketPositions(sqrt, signals, assignments, clusters[c].centroid, c, |signals|);
    }
    forall i | 0 <= i < |signals| ensures InPlace(sqrt, signals, assignments, clusters, i) {
      var centroid := clusters[assignments[i]].centroid;
      BucketPositions(sqrt, signals, assignments, centroid, assignments[i], i);
      CosineDistanceBounds(sqrt, signals[i].embedding, centroid);
    }
  }

  /** Signal i stands in its cluster behind the earlier signals of that cluster, with its relevance to the centroid. */
  ghost predicate InPlace(sqrt: real -> real, signals: seq<Signal>, assignments: seq<nat>, clusters: seq<Cluster>,
                          i: nat)
    requires |assignments| == |signals| && i < |signals| && assignments[i] < |clusters|
  {
    var members := clusters[assignments[i]].signals;
    var place := Occurrences(assignments[..i], assignments[i]);
    place < |members| && members[place].id == signals[i].id
    && members[place].relevance == 1.0 - CosineDistance(sqrt, signals[i].embedding, clusters[assignments[i]].centroid)
    && -1.0 <= members[place].relevance <= 1.0
  }

  // ---------- how many clusters ----------

  function Ceil(x: real): int { if x.Floor as real == x then x.Floor else x.Floor + 1 }

  /** The least r with r * r >= n / 2. */
  ghost predicate IsHalfRoot(n: nat, r: int) {
    r >= 0 && 2 * r * r >= n && (r > 0 ==> 2 * (r - 1) * (r - 1) < n)
  }

  /** The root, cut to 2..20. */
  ghost predicate IsChoice(n: nat, k: int) {
    exists root :: IsHalfRoot(n, root) && k == if root < 2 then 2 else if root > 20 then 20 else root
  }

  method ChooseK(sqrt: real -> real, n: nat) returns (k: int)
    requires IsSqrt(sqrt)
    ensures IsChoice(n, k)
    ensures 2 <= k <= 20 && (k == 20 || 2 * k * k >= n) && (k == 2 || 2 * (k - 1) * (k - 1) < n)
    ensures n >= 3 ==> 2 <= k <= 20 && k <= n
  {
    k := Ceil(sqrt(n as real / 2.0));
    ghost var root := k;
    CeilOfRoot(sqrt, n);
    if k < 2 {
      k := 2;
    }
    if k > 20 {
      k := 20;
    }
    RootBelow(n, root);
  }

  lemma CeilOfRoot(sqrt: real -> real, n: nat)
    requires IsSqrt(sqrt)
    ensures IsHalfRoot(n, Ceil(sqrt(n as real / 2.0)))
  {
    var x := sqrt(n as real / 2.0);
    var r := Ceil(x);
    assert x * x == n as real / 2.0;
    var y := r as real;
    assert x <= y < x + 1.0;
    SquareBetween(x, y);
    assert 2.0 * (y * y) >= n as real;
    assert (2 * r * r) as real == 2.0 * (y * y);
    if r > 0 {
      var z := (r - 1) as real;
      assert 0.0 <= z < x;
      SquareBelow(z, x);
      assert (2 * (r - 1) * (r - 1)) as real == 2.0 * (z * z);
    }
  }

  lemma SquareBetween(x: real, y: real)
    requires 0.0 <= x <= y
    ensures x * x <= y * y
  {
    assert x * x <= x * y && x * y <= y * y;
  }

  lemma SquareBelow(x: real, y: real)
    requires 0.0 <= x < y
    ensures x * x < y * y
  {
    var d := y - x;
    ProductPositive(d, y);
    assert Times(d, y) == y * y - x * y;
    assert x * x <= x * y;
  }

  lemma RootBelow(n: nat, r: int)
    requires IsHalfRoot(n, r)
    ensures n >= 3 ==> r <= n
  {
    if r >= 4 {
      SquareLarge(r - 1);
      assert 2 * (r - 1) * (r - 1) == 2 * ((r - 1) * (r - 1));
    }
  }

  lemma SquareLarge(d: int)
    requires d >= 3
    ensures d * d >= 3 * d
  {
    assert (d - 3) * d >= 0;
  }

  /** ClusterThemesWorker's use of the above: fewer than three signals are not clustered; otherwise the chosen k
      leaves no centroid uninitialised. */
  method ClusterThemes(sqrt: real -> real, signals: seq<Signal>) returns (clusters: seq<Cluster>)
    requires IsSqrt(sqrt)
    ensures |signals| < 3 || |signals[0].embedding| == 0 ==> clusters == []
    ensures |signals| >= 3 && |signals[0].embedding| > 0 ==>
              && 2 <= |clusters| <= 20 && |clusters| <= |signals| && IsChoice(|signals|, |clusters|)
              && IsClustering(sqrt, signals, |clusters|, |signals[0].embedding|, clusters)
              && forall c :: 0 <= c < |clusters| ==> |clusters[c].centroid| == |signals[0].embedding|
  {
    if |signals| < 3 {
      return [];
    }
    var k := ChooseK(sqrt, |signals|);
    clusters := KMeansClustering(sqrt, signals, k);
    if |signals[0].embedding| > 0 {
      ghost var dim := |signals[0].embedding|;
      ghost var run :| Clustered(sqrt, signals, k, dim, run, clusters);
      RunSound(sqrt, signals, k, dim, run, |run| - 1);
    }
  }
}
