/**
 Length validation by clusterization of hit lengths (GeneValidator's
 `LengthClusterValidation`): the hit lengths are sorted and handed to a
 hierarchical clusterer, the densest of the returned clusters gives the
 acceptance interval for the prediction's length, and a silhouette score rates
 how well the prediction sits in that cluster.

 The clusterer itself is not part of this model: every operation that needs it
 takes it as a function from the sorted lengths to the clusters.
 */
module ValidationLengthCluster {

  import opened Wrappers
  import opened Sorting

  // ---------------------------------------------------------------------------
  // Data model
  // ---------------------------------------------------------------------------

  /**
   An object handed to the validation as the prediction or as a hit: either a
   `Sequence`, of which only the length matters here, or any other object, which
   has no length to read.
   */
  datatype Input = Sequence(xmlLength: int) | NonSequence

  /**
   A cluster as the clusterer returns it: the (length, frequency) pairs of its
   members, its density and its limits (least and greatest member length).
   */
  datatype Cluster = Cluster(lengths: seq<(int, int)>, density: real, limits: (int, int))

  /** The verdicts `:yes` and `:no`. */
  datatype Verdict = Yes | No

  /** `LengthClusterValidationOutput`: the prediction's length and the acceptance interval, if any. */
  datatype LengthClusterValidationOutput = LengthClusterValidationOutput(predictionLen: int, limits: Option<(int, int)>)

  /**
   What `run` produces: the length report, or a plain validation report that
   carries only a message.
   */
  datatype Report = LengthReport(output: LengthClusterValidationOutput) | MessageReport(message: string)

  const NotEnoughEvidence: Report := MessageReport("Not enough evidence")

  /** Whether `len` lies in the closed interval `limits`. */
  predicate WithinLimits(len: int, limits: (int, int))
  {
    limits.0 <= len <= limits.1
  }

  // ---------------------------------------------------------------------------
  // The verdict rule
  // ---------------------------------------------------------------------------

  /** `:yes` when the prediction's length lies in the limits, `:no` when it does not, nothing without limits. */
  function Validation(o: LengthClusterValidationOutput): (v: Option<Verdict>)
    ensures v.None? <==> o.limits.None?
    ensures o.limits.Some? ==> (v == Some(Yes) <==> WithinLimits(o.predictionLen, o.limits.value))
    ensures o.limits.Some? ==> (v == Some(No) <==> !WithinLimits(o.predictionLen, o.limits.value))
  {
    if o.limits != None then
      if o.predictionLen >= o.limits.value.0 && o.predictionLen <= o.limits.value.1 then Some(Yes) else Some(No)
    else
      None
  }

  /** The accepted lengths form an interval: a length between two accepted ones is accepted. */
  lemma AcceptedLengthsAreConvex(limits: (int, int), x: int, y: int, z: int)
    requires x <= y <= z
    requires Validation(LengthClusterValidationOutput(x, Some(limits))) == Some(Yes)
    requires Validation(LengthClusterValidationOutput(z, Some(limits))) == Some(Yes)
    ensures Validation(LengthClusterValidationOutput(y, Some(limits))) == Some(Yes)
  {
  }

  // ---------------------------------------------------------------------------
  // Length extraction and the densest cluster
  // ---------------------------------------------------------------------------

  /**
   The lengths of the hits, in order; `None` when some hit is not a `Sequence`
   (reading its length raises).
   */
  function HitLengths(lst: seq<Input>): (r: Option<seq<int>>)
    ensures r.Some? <==> forall i :: 0 <= i < |lst| ==> lst[i].Sequence?
    ensures r.Some? ==> |r.value| == |lst| && forall i :: 0 <= i < |lst| ==> r.value[i] == lst[i].xmlLength
  {
    if lst == [] then Some([])
    else
      match lst[0]
      case NonSequence => None
      case Sequence(len) =>
        match HitLengths(lst[1..])
        case None => None
        case Some(rest) => Some([len] + rest)
  }

  /** The elements of the sorted contents are the hit lengths, each as often as it occurs. */
  lemma ContentsArePermutedHitLengths(lst: seq<Input>, len: int)
    requires HitLengths(lst).Some?
    ensures Sorted(SortAscending(HitLengths(lst).value))
    ensures multiset(SortAscending(HitLengths(lst).value))[len] == |set i | 0 <= i < |lst| && lst[i].xmlLength == len|
  {
    var ls := HitLengths(lst).value;
    CountOccurrences(ls, len);
    assert (set i | 0 <= i < |ls| && ls[i] == len) == (set i | 0 <= i < |lst| && lst[i].xmlLength == len);
  }

  /** The multiplicity of `x` in `s` is the number of positions holding `x`. */
  lemma {:induction false} CountOccurrences(s: seq<int>, x: int)
    ensures multiset(s)[x] == |set i | 0 <= i < |s| && s[i] == x|
  {
    if s != [] {
      var t := s[..|s| - 1];
      CountOccurrences(t, x);
      assert s == t + [s[|s| - 1]];
      var inT := set i | 0 <= i < |t| && t[i] == x;
      var inS := set i | 0 <= i < |s| && s[i] == x;
      if s[|s| - 1] == x {
        assert inS == inT + {|s| - 1};
      } else {
        assert inS == inT;
      }
    }
  }

  /**
   The index chosen by the densest-cluster scan: when some cluster has positive
   density, the first cluster whose density is greater than that of every cluster
   before it and not below that of any cluster after it; otherwise 0.
   */
  predicate IsMaxDensityIndex(clusters: seq<Cluster>, k: nat)
  {
    if forall j :: 0 <= j < |clusters| ==> clusters[j].density <= 0.0 then
      k == 0
    else
      && k < |clusters|
      && clusters[k].density > 0.0
      && (forall j :: 0 <= j < k ==> clusters[j].density < clusters[k].density)
      && (forall j :: k < j < |clusters| ==> clusters[j].density <= clusters[k].density)
  }

  /** The conditions of `IsMaxDensityIndex` fix the index. */
  lemma MaxDensityIndexIsUnique(clusters: seq<Cluster>, k1: nat, k2: nat)
    requires IsMaxDensityIndex(clusters, k1) && IsMaxDensityIndex(clusters, k2)
    ensures k1 == k2
  {
  }

  /**
   The chosen index is valid when there are clusters; no cluster of positive
   density is denser than the chosen one; and among equally dense clusters the
   first is chosen.
   */
  lemma MaxDensityIndexIsDensest(clusters: seq<Cluster>, k: nat)
    requires IsMaxDensityIndex(clusters, k)
    ensures |clusters| > 0 ==> k < |clusters|
    ensures |clusters| > 0 ==> forall j :: 0 <= j < |clusters| ==>
      clusters[j].density <= clusters[k].density || clusters[j].density <= 0.0
    ensures |clusters| > 0 ==> forall j :: 0 <= j < |clusters| && clusters[j].density == clusters[k].density ==>
      k <= j || clusters[k].density <= 0.0
  {
  }

  /** What `clusterization_by_length` comes to. */
  datatype Clusterization =
    | Clustered(clusters: seq<Cluster>, maxDensityClusterIdx: nat)
      /** A `TypeError`: the message goes to standard error and the process exits. */
    | TypeErrorExit
      /** A hit after the first is not a `Sequence`: reading its length raises. */
    | NoMethodError

  /**
   Sorts the hit lengths, clusters them with `hierarchical` and finds the first
   cluster of greatest positive density.
   */
  method ClusterizationByLength(lst: seq<Input>, predictedSeq: Input, hierarchical: seq<int> -> seq<Cluster>)
    returns (r: Clusterization)
    ensures r.TypeErrorExit? <==> |lst| == 0 || lst[0].NonSequence? || predictedSeq.NonSequence?
    ensures r.NoMethodError? <==> !r.TypeErrorExit? && HitLengths(lst).None?
    ensures r.Clustered? ==> HitLengths(lst).Some?
    ensures r.Clustered? ==> r.clusters == hierarchical(SortAscending(HitLengths(lst).value))
    ensures r.Clustered? ==> IsMaxDensityIndex(r.clusters, r.maxDensityClusterIdx)
  {
    if |lst| == 0 || lst[0].NonSequence? || predictedSeq.NonSequence? {
      return TypeErrorExit;
    }
    var lengths := HitLengths(lst);
    if lengths.None? {
      return NoMethodError;
    }
    var contents := SortAscending(lengths.value);
    var clusters := hierarchical(contents);

    var maxDensity := 0.0;
    var maxDensityClusterIdx: nat := 0;
    for i := 0 to |clusters|
      invariant maxDensityClusterIdx == 0 || maxDensityClusterIdx < i
      invariant (forall j :: 0 <= j < i ==> clusters[j].density <= 0.0) ==> maxDensityClusterIdx == 0 && maxDensity == 0.0
      invariant !(forall j :: 0 <= j < i ==> clusters[j].density <= 0.0) ==>
        && maxDensityClusterIdx < i
        && maxDensity == clusters[maxDensityClusterIdx].density > 0.0
        && (forall j :: 0 <= j < maxDensityClusterIdx ==> clusters[j].density < maxDensity)
        && (forall j :: maxDensityClusterIdx < j < i ==> clusters[j].density <= maxDensity)
    {
      if clusters[i].density > maxDensity {
        maxDensity := clusters[i].density;
        maxDensityClusterIdx := i;
      }
    }
    return Clustered(clusters, maxDensityClusterIdx);
  }

  // ---------------------------------------------------------------------------
  // Silhouette score
  // ---------------------------------------------------------------------------

  function Abs(x: int): nat
  {
    if x < 0 then -x else x
  }

  /** Every cluster has at least one (length, frequency) entry. */
  predicate NonEmptyClusters(clusters: seq<Cluster>)
  {
    forall i :: 0 <= i < |clusters| ==> |clusters[i].lengths| > 0
  }

  /** The sum of |len - seqLen| over the entries; the frequencies do not enter it. */
  function SumDistance(lengths: seq<(int, int)>, seqLen: int): (d: int)
    ensures d >= 0
  {
    if lengths == [] then 0
    else SumDistance(lengths[..|lengths| - 1], seqLen) + Abs(lengths[|lengths| - 1].0 - seqLen)
  }

  /** Appending an entry adds its distance to the sum. */
  lemma SumDistanceAppend(lengths: seq<(int, int)>, entry: (int, int), seqLen: int)
    ensures SumDistance(lengths + [entry], seqLen) == SumDistance(lengths, seqLen) + Abs(entry.0 - seqLen)
  {
    assert (lengths + [entry])[..|lengths|] == lengths;
  }

  /** The average dissimilarity of a length with the entries of a cluster. */
  function MeanDistance(lengths: seq<(int, int)>, seqLen: int): (m: real)
    requires |lengths| > 0
    ensures m >= 0.0
  {
    SumDistance(lengths, seqLen) as real / |lengths| as real
  }

  /** A sum of distances is 0 exactly when every entry has the length `seqLen`. */
  lemma {:induction false} SumDistanceZero(lengths: seq<(int, int)>, seqLen: int)
    ensures SumDistance(lengths, seqLen) == 0 <==> forall k :: 0 <= k < |lengths| ==> lengths[k].0 == seqLen
  {
    if lengths != [] {
      var prefix := lengths[..|lengths| - 1];
      SumDistanceZero(prefix, seqLen);
      assert forall k :: 0 <= k < |prefix| ==> prefix[k] == lengths[k];
    }
  }

  /** A cluster is at mean distance 0 from `seqLen` exactly when all its entries have that length. */
  lemma MeanDistanceZero(lengths: seq<(int, int)>, seqLen: int)
    requires |lengths| > 0
    ensures MeanDistance(lengths, seqLen) == 0.0 <==> forall k :: 0 <= k < |lengths| ==> lengths[k].0 == seqLen
  {
    SumDistanceZero(lengths, seqLen);
  }

  /**
   `b_vector` after the clusters `clusters` have been scanned: for every cluster
   other than `idx`, in order, its mean distance to `seqLen` unless that is 0.
   */
  function OtherClusterMeans(clusters: seq<Cluster>, idx: nat, seqLen: int): (v: seq<real>)
    requires NonEmptyClusters(clusters)
    ensures |v| <= |clusters|
  {
    if clusters == [] then []
    else
      var n := |clusters| - 1;
      var prefix := OtherClusterMeans(clusters[..n], idx, seqLen);
      var m := MeanDistance(clusters[n].lengths, seqLen);
      if n != idx && m != 0.0 then prefix + [m] else prefix
  }

  /** The least element of `v`, the model of `Array#min` (`nil` on an empty array). */
  function Min(v: seq<real>): (r: Option<real>)
    ensures r.None? <==> v == []
    ensures r.Some? ==> r.value in v && forall k :: 0 <= k < |v| ==> r.value <= v[k]
  {
    if v == [] then None
    else
      match Min(v[1..])
      case None => Some(v[0])
      case Some(m) => if v[0] <= m then Some(v[0]) else Some(m)
  }

  /** `a`: the mean distance of the prediction's length to the entries of cluster `idx`. */
  function OwnDissimilarity(clusters: seq<Cluster>, idx: nat, seqLen: int): real
    requires NonEmptyClusters(clusters) && idx < |clusters|
  {
    MeanDistance(clusters[idx].lengths, seqLen)
  }

  /** `b`: the smallest non-zero mean distance to another cluster, 0 when there is none. */
  function NearestDissimilarity(clusters: seq<Cluster>, idx: nat, seqLen: int): real
    requires NonEmptyClusters(clusters)
  {
    match Min(OtherClusterMeans(clusters, idx, seqLen))
    case None => 0.0
    case Some(b) => b
  }

  /** `(b - a) / max(a, b)`; `None` where Ruby's division gives NaN (`a` and `b` both 0). */
  function Silhouette(a: real, b: real): Option<real>
  {
    var m := if a >= b then a else b;
    if m == 0.0 then None else Some((b - a) / m)
  }

  /** `OtherClusterMeans` holds exactly the non-zero mean distances of the clusters other than `idx`. */
  lemma {:induction false} OtherClusterMeansMembers(clusters: seq<Cluster>, idx: nat, seqLen: int)
    requires NonEmptyClusters(clusters)
    ensures forall x :: x in OtherClusterMeans(clusters, idx, seqLen) ==>
      x > 0.0 && exists i :: 0 <= i < |clusters| && i != idx && MeanDistance(clusters[i].lengths, seqLen) == x
    ensures forall i :: 0 <= i < |clusters| && i != idx && MeanDistance(clusters[i].lengths, seqLen) != 0.0 ==>
      MeanDistance(clusters[i].lengths, seqLen) in OtherClusterMeans(clusters, idx, seqLen)
  {
    if clusters != [] {
      var n := |clusters| - 1;
      var prefix := clusters[..n];
      assert NonEmptyClusters(prefix);
      OtherClusterMeansMembers(prefix, idx, seqLen);
      assert forall i :: 0 <= i < n ==> prefix[i] == clusters[i];
    }
  }

  /** `b` is 0 exactly when no other cluster is at non-zero distance, and otherwise the least such distance. */
  lemma NearestDissimilarityIsLeastNonZeroMean(clusters: seq<Cluster>, idx: nat, seqLen: int)
    requires NonEmptyClusters(clusters)
    ensures NearestDissimilarity(clusters, idx, seqLen) >= 0.0
    ensures NearestDissimilarity(clusters, idx, seqLen) == 0.0 <==>
      forall i :: 0 <= i < |clusters| && i != idx ==> MeanDistance(clusters[i].lengths, seqLen) == 0.0
    ensures NearestDissimilarity(clusters, idx, seqLen) > 0.0 ==>
      && (exists i :: 0 <= i < |clusters| && i != idx && MeanDistance(clusters[i].lengths, seqLen) == NearestDissimilarity(clusters, idx, seqLen))
      && (forall i :: 0 <= i < |clusters| && i != idx && MeanDistance(clusters[i].lengths, seqLen) != 0.0 ==>
            NearestDissimilarity(clusters, idx, seqLen) <= MeanDistance(clusters[i].lengths, seqLen))
  {
    OtherClusterMeansMembers(clusters, idx, seqLen);
    var v := OtherClusterMeans(clusters, idx, seqLen);
    if v != [] {
      assert v[0] in v;
    }
  }

  /** With `a` and `b` non-negative and not both 0, the silhouette lies in [-1, 1], and at the ends when one of them is 0. */
  lemma SilhouetteBounds(a: real, b: real)
    requires a >= 0.0 && b >= 0.0
    requires a > 0.0 || b > 0.0
    ensures Silhouette(a, b).Some?
    ensures -1.0 <= Silhouette(a, b).value <= 1.0
    ensures Silhouette(a, b).value > 0.0 <==> a < b
    ensures b == 0.0 ==> Silhouette(a, b).value == -1.0
    ensures a == 0.0 ==> Silhouette(a, b).value == 1.0
  {
    var m := if a >= b then a else b;
    QuotientBounds(b - a, m);
  }

  /** A quotient by a positive `m` of a number in [-m, m] lies in [-1, 1] and has the number's sign. */
  lemma QuotientBounds(x: real, m: real)
    requires m > 0.0 && -m <= x <= m
    ensures -1.0 <= x / m <= 1.0
    ensures x / m > 0.0 <==> x > 0.0
    ensures x == -m ==> x / m == -1.0
    ensures x == m ==> x / m == 1.0
  {
    var q := x / m;
    assert q * m == x;
    assert q > 1.0 ==> q * m > m;
    assert q < -1.0 ==> q * m < -m;
    assert q > 0.0 ==> q * m > 0.0;
    assert q <= 0.0 ==> q * m <= 0.0;
  }

  /** With a single cluster, `b` is 0 and the silhouette is -1 unless the prediction's length is that of every entry. */
  lemma SingleClusterSilhouette(cluster: Cluster, seqLen: int)
    requires |cluster.lengths| > 0
    requires exists k :: 0 <= k < |cluster.lengths| && cluster.lengths[k].0 != seqLen
    ensures NearestDissimilarity([cluster], 0, seqLen) == 0.0
    ensures Silhouette(OwnDissimilarity([cluster], 0, seqLen), NearestDissimilarity([cluster], 0, seqLen)) == Some(-1.0)
  {
    NearestDissimilarityIsLeastNonZeroMean([cluster], 0, seqLen);
    MeanDistanceZero(cluster.lengths, seqLen);
    SilhouetteBounds(OwnDissimilarity([cluster], 0, seqLen), 0.0);
  }

  /** The average dissimilarity of `seqLen` with the entries of one cluster. */
  method AverageDissimilarity(lengths: seq<(int, int)>, seqLen: int) returns (m: real)
    requires |lengths| > 0
    ensures m == MeanDistance(lengths, seqLen)
  {
    var sum := 0;
    for k := 0 to |lengths|
      invariant sum == SumDistance(lengths[..k], seqLen)
    {
      var (len, frecv) := lengths[k];
      assert lengths[..k + 1][..k] == lengths[..k];
      sum := sum + Abs(len - seqLen);
    }
    assert lengths[..|lengths|] == lengths;
    m := sum as real / |lengths| as real;
  }

  /**
   The silhouette of the prediction `sequence` relative to cluster `idx`:
   `(b - a) / max(a, b)` with `a` its mean distance to cluster `idx` and `b` the
   least non-zero mean distance to another cluster (0 when there is none).
   */
  method SequenceSilhouette(sequence: Input, idx: nat, clusters: seq<Cluster>) returns (s: Option<real>)
    requires sequence.Sequence?
    requires idx < |clusters|
    requires NonEmptyClusters(clusters)
    ensures s == Silhouette(OwnDissimilarity(clusters, idx, sequence.xmlLength), NearestDissimilarity(clusters, idx, sequence.xmlLength))
  {
    var seqLen := sequence.xmlLength;

    var a := AverageDissimilarity(clusters[idx].lengths, seqLen);

    var bVector: seq<real> := [];
    for i := 0 to |clusters|
      invariant bVector == OtherClusterMeans(clusters[..i], idx, seqLen)
    {
      assert clusters[..i + 1][..i] == clusters[..i];
      // the mean for cluster i, unless i is the densest cluster itself
      if i != idx {
        var b := AverageDissimilarity(clusters[i].lengths, seqLen);
        if b != 0.0 {
          bVector := bVector + [b];
        }
      }
    }
    assert clusters[..|clusters|] == clusters;
    var b := match Min(bVector) case None => 0.0 case Some(m) => m;
    var m := if a >= b then a else b;
    s := if m == 0.0 then None else Some((b - a) / m);
  }

  // ---------------------------------------------------------------------------
  // The validation object
  // ---------------------------------------------------------------------------

  /**
   `LengthClusterValidation`: the prediction and its hits, and what `run` leaves
   behind (the clusters, the index of the densest one and the length report).
   */
  class LengthClusterValidation {
    const prediction: Input
    const hits: seq<Input>
    const filename: string
    const plot: bool
    const shortHeader: string := "Valid_Length(Cluster)"
    const header: string := "Valid Length(Cluster)"
    const description: string := "Check whether the prediction length fits the most of the BLAST hit lengths, by 1D hierarchical clusterization."

    var clusters: seq<Cluster>
    var maxDensityCluster: nat
    var validationReport: Option<LengthClusterValidationOutput>

    constructor (prediction: Input, hits: seq<Input>, filename: string, plot: bool)
      ensures this.prediction == prediction && this.hits == hits
      ensures this.filename == filename && this.plot == plot
      ensures clusters == [] && maxDensityCluster == 0 && validationReport == None
    {
      this.prediction := prediction;
      this.hits := hits;
      this.filename := filename;
      this.plot := plot;
      clusters := [];
      maxDensityCluster := 0;
      validationReport := None;
    }

    /** Whether the prediction and the first hit are `Sequence`s, the check `run` starts with. */
    predicate Admissible()
    {
      prediction.Sequence? && |hits| > 0 && hits[0].Sequence?
    }

    /**
     Validates the prediction's length against the densest cluster of the hit
     lengths and stores the report; any failure gives "Not enough evidence".
     */
    method Run(hierarchical: seq<int> -> seq<Cluster>) returns (report: Report)
      modifies this
      ensures !Admissible() || HitLengths(hits).None? ==>
        && report == NotEnoughEvidence
        && clusters == old(clusters) && maxDensityCluster == old(maxDensityCluster)
        && validationReport == old(validationReport)
      ensures Admissible() && HitLengths(hits).Some? ==>
        && clusters == hierarchical(SortAscending(HitLengths(hits).value))
        && IsMaxDensityIndex(clusters, maxDensityCluster)
      ensures Admissible() && HitLengths(hits).Some? && clusters == [] ==>
        report == NotEnoughEvidence && validationReport == old(validationReport)
      ensures Admissible() && HitLengths(hits).Some? && clusters != [] ==>
        && maxDensityCluster < |clusters|
        && validationReport == Some(LengthClusterValidationOutput(prediction.xmlLength, Some(clusters[maxDensityCluster].limits)))
        && report == LengthReport(validationReport.value)
    {
      if !(prediction.Sequence? && |hits| > 0 && hits[0].Sequence?) {
        return NotEnoughEvidence;
      }
      var ret := ClusterizationByLength(hits, prediction, hierarchical);
      if !ret.Clustered? {
        return NotEnoughEvidence;
      }
      clusters := ret.clusters;
      maxDensityCluster := ret.maxDensityClusterIdx;
      // No cluster at that index (the clusterer returned none): `nil.get_limits` raises.
      if maxDensityCluster >= |clusters| {
        return NotEnoughEvidence;
      }
      var limits := clusters[maxDensityCluster].limits;
      var predictionLen := prediction.xmlLength;
      // Plotting, when `plot` is set, happens here and is not part of this model.
      var output := LengthClusterValidationOutput(predictionLen, Some(limits));
      validationReport := Some(output);
      report := LengthReport(output);
    }
  }

  // ---------------------------------------------------------------------------
  // Worked examples
  // ---------------------------------------------------------------------------

  /** The hit lengths 100, 102, 98, 101, 400, 405, 398 reach the clusterer as 98, 100, 101, 102, 398, 400, 405. */
  lemma ExampleContents()
    ensures SortAscending([100, 102, 98, 101, 400, 405, 398]) == [98, 100, 101, 102, 398, 400, 405]
  {
    ExampleContentsSorted();
    ExampleContentsPermuted();
    SortAscendingIsTheOnlySort([100, 102, 98, 101, 400, 405, 398], [98, 100, 101, 102, 398, 400, 405]);
  }

  /** 98, 100, 101, 102, 398, 400, 405 is in order. */
  lemma ExampleContentsSorted()
    ensures Sorted([98, 100, 101, 102, 398, 400, 405])
  {
  }

  /** 98, 100, 101, 102, 398, 400, 405 holds the example's hit lengths. */
  lemma ExampleContentsPermuted()
    ensures multiset([98, 100, 101, 102, 398, 400, 405]) == multiset([100, 102, 98, 101, 400, 405, 398])
  {
  }

  /** Two singleton clusters of equal density: the first wins, and a prediction of 175 is rejected. */
  lemma ExampleTieGoesToFirstCluster(k: nat)
    requires IsMaxDensityIndex([Cluster([(50, 1)], 1.0, (50, 50)), Cluster([(300, 1)], 1.0, (300, 300))], k)
    ensures k == 0
    ensures Validation(LengthClusterValidationOutput(175, Some([Cluster([(50, 1)], 1.0, (50, 50)), Cluster([(300, 1)], 1.0, (300, 300))][k].limits))) == Some(No)
  {
    var cs := [Cluster([(50, 1)], 1.0, (50, 50)), Cluster([(300, 1)], 1.0, (300, 300))];
    assert IsMaxDensityIndex(cs, 0);
    MaxDensityIndexIsUnique(cs, k, 0);
  }

  /** The mean distances of 100 to the example's clusters {98, 100, 101, 102} and {398, 400, 405}. */
  lemma ExampleMeanDistances()
    ensures MeanDistance([(98, 1), (100, 1), (101, 1), (102, 1)], 100) == 1.25
    ensures MeanDistance([(398, 1), (400, 1), (405, 1)], 100) == 301.0
  {
    SumDistanceAppend([(98, 1), (100, 1), (101, 1)], (102, 1), 100);
    SumDistanceAppend([(98, 1), (100, 1)], (101, 1), 100);
    SumDistanceAppend([(98, 1)], (100, 1), 100);
    SumDistanceAppend([], (98, 1), 100);
    SumDistanceAppend([(398, 1), (400, 1)], (405, 1), 100);
    SumDistanceAppend([(398, 1)], (400, 1), 100);
    SumDistanceAppend([], (398, 1), 100);
    assert [(98, 1), (100, 1), (101, 1), (102, 1)] == [(98, 1), (100, 1), (101, 1)] + [(102, 1)];
    assert [(98, 1), (100, 1), (101, 1)] == [(98, 1), (100, 1)] + [(101, 1)];
    assert [(98, 1), (100, 1)] == [(98, 1)] + [(100, 1)];
    assert [(98, 1)] == [] + [(98, 1)];
    assert SumDistance([(98, 1), (100, 1), (101, 1), (102, 1)], 100) == 5;
    assert [(398, 1), (400, 1), (405, 1)] == [(398, 1), (400, 1)] + [(405, 1)];
    assert [(398, 1), (400, 1)] == [(398, 1)] + [(400, 1)];
    assert [(398, 1)] == [] + [(398, 1)];
    assert SumDistance([(398, 1), (400, 1), (405, 1)], 100) == 903;
  }

  /**
   Clusters {98, 100, 101, 102} and {398, 400, 405}, prediction 100: `a` is 1.25,
   `b` is 301 and the silhouette (301 - 1.25) / 301, above 0.99.
   */
  lemma ExampleSilhouette()
    ensures var cs := [Cluster([(98, 1), (100, 1), (101, 1), (102, 1)], 0.8, (98, 102)),
                       Cluster([(398, 1), (400, 1), (405, 1)], 0.375, (398, 405))];
      && OwnDissimilarity(cs, 0, 100) == 1.25
      && NearestDissimilarity(cs, 0, 100) == 301.0
      && Silhouette(OwnDissimilarity(cs, 0, 100), NearestDissimilarity(cs, 0, 100)) == Some(299.75 / 301.0)
      && 299.75 / 301.0 > 0.99
  {
    var c0 := Cluster([(98, 1), (100, 1), (101, 1), (102, 1)], 0.8, (98, 102));
    var c1 := Cluster([(398, 1), (400, 1), (405, 1)], 0.375, (398, 405));
    ExampleMeanDistances();
    assert [c0, c1][..1] == [c0];
    assert [c0][..0] == [];
    assert OtherClusterMeans([c0], 0, 100) == [];
    assert OtherClusterMeans([c0, c1], 0, 100) == [301.0];
  }
}
