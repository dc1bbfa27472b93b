/** The segmentation step: rows grouped by the cluster labels KMeans assigns,
    per-cluster sizes, member lists and means, and the three qualitative
    characterizations of each cluster. */
module Segmentation {
  import opened Numeric
  import opened Records
  import opened Features

  /** KMeans(n_clusters=4). */
  const ClusterCount: nat := 4

  // ---------------------------------------------------------------- characterization

  datatype Level = Low | Medium | High

  function Rank(l: Level): nat
  {
    match l
    case Low => 0
    case Medium => 1
    case High => 2
  }

  /** A mean against two breakpoints. None stands for the NaN mean of an empty
      cluster: each comparison with NaN is false, so it lands on Low. */
  function Classify(mean: Option<real>, medium: real, high: real): Level
  {
    match mean
    case None => Low
    case Some(m) => if m > high then High else if m > medium then Medium else Low
  }

  /** Mobility level from the mean trip count. */
  function MobilityLevel(meanTrips: Option<real>): (l: Level)
    ensures l == High <==> meanTrips.Some? && meanTrips.value > 15000.0
    ensures l == Medium <==> meanTrips.Some? && 8000.0 < meanTrips.value <= 15000.0
    ensures l == Low <==> meanTrips.None? || meanTrips.value <= 8000.0
  {
    Classify(meanTrips, 8000.0, 15000.0)
  }

  /** Member engagement from the mean member ratio. */
  function EngagementLevel(meanRatio: Option<real>): (l: Level)
    ensures l == High <==> meanRatio.Some? && meanRatio.value > 0.8
    ensures l == Medium <==> meanRatio.Some? && 0.6 < meanRatio.value <= 0.8
    ensures l == Low <==> meanRatio.None? || meanRatio.value <= 0.6
  {
    Classify(meanRatio, 0.6, 0.8)
  }

  /** Dining preference from the mean restaurant spending. */
  function DiningPreference(meanRestaurants: Option<real>): (l: Level)
    ensures l == High <==> meanRestaurants.Some? && meanRestaurants.value > 150000.0
    ensures l == Medium <==> meanRestaurants.Some? && 80000.0 < meanRestaurants.value <= 150000.0
    ensures l == Low <==> meanRestaurants.None? || meanRestaurants.value <= 80000.0
  {
    Classify(meanRestaurants, 80000.0, 150000.0)
  }

  /** A larger mean never gets a lower level. */
  lemma ClassifyMonotone(a: real, b: real, medium: real, high: real)
    requires a <= b
    ensures Rank(Classify(Some(a), medium, high)) <= Rank(Classify(Some(b), medium, high))
  {
  }

  datatype Characteristics = Characteristics(mobilityLevel: Level, engagement: Level, diningPreference: Level)

  /** The means of one cluster; a cluster with no members has none (NaN). */
  datatype ClusterMeans = ClusterMeans(trips: real, memberRatio: real, duration: real, restaurants: real)

  /** _characterize_cluster: an empty cluster is low everywhere; otherwise each
      characteristic is classified from its own mean, and the duration mean
      plays no part. */
  function Characterize(means: Option<ClusterMeans>): (c: Characteristics)
    ensures means.None? ==> c == Characteristics(Low, Low, Low)
    ensures means.Some? ==>
      && c.mobilityLevel == MobilityLevel(Some(means.value.trips))
      && c.engagement == EngagementLevel(Some(means.value.memberRatio))
      && c.diningPreference == DiningPreference(Some(means.value.restaurants))
  {
    match means
    case None => Characteristics(MobilityLevel(None), EngagementLevel(None), DiningPreference(None))
    case Some(m) =>
      Characteristics(MobilityLevel(Some(m.trips)), EngagementLevel(Some(m.memberRatio)),
                      DiningPreference(Some(m.restaurants)))
  }

  // ---------------------------------------------------------------- grouping

  /** The rows whose label is k, in row order: combined_data[cluster == k]. */
  function Members(rows: seq<CombinedRow>, labels: seq<int>, k: int): (m: seq<CombinedRow>)
    requires |labels| == |rows|
    ensures |m| == multiset(labels)[k]
    ensures forall i :: 0 <= i < |m| ==> m[i] in rows
    decreases |rows|
  {
    if |rows| == 0 then []
    else
      var n := |rows| - 1;
      assert labels == labels[..n] + [labels[n]];
      var head := Members(rows[..n], labels[..n], k);
      assert forall i :: 0 <= i < |head| ==> head[i] in rows;
      head + (if labels[n] == k then [rows[n]] else [])
  }

  function CountiesOf(rows: seq<CombinedRow>): seq<Fips>
  {
    seq(|rows|, i requires 0 <= i < |rows| => rows[i].mobility.county)
  }

  predicate HasRestaurants(rows: seq<CombinedRow>)
  {
    forall i :: 0 <= i < |rows| ==> Restaurants in rows[i].spending
  }

  function Trips(rows: seq<CombinedRow>): seq<real>
  {
    seq(|rows|, i requires 0 <= i < |rows| => rows[i].mobility.totalTrips as real)
  }

  function MemberRatios(rows: seq<CombinedRow>): seq<real>
  {
    seq(|rows|, i requires 0 <= i < |rows| => rows[i].mobility.memberRatio)
  }

  function Durations(rows: seq<CombinedRow>): seq<real>
  {
    seq(|rows|, i requires 0 <= i < |rows| => rows[i].mobility.avgTripDuration)
  }

  function RestaurantSpending(rows: seq<CombinedRow>): seq<real>
    requires HasRestaurants(rows)
  {
    seq(|rows|, i requires 0 <= i < |rows| => rows[i].spending[Restaurants])
  }

  /** The four column means of a cluster's rows; NaN (None) when it has none. */
  function MeansOf(rows: seq<CombinedRow>): (r: Option<ClusterMeans>)
    requires HasRestaurants(rows)
    ensures r.None? <==> |rows| == 0
    ensures r.Some? ==>
      && r.value.trips * |rows| as real == Sum(Trips(rows))
      && r.value.memberRatio * |rows| as real == Sum(MemberRatios(rows))
      && r.value.duration * |rows| as real == Sum(Durations(rows))
      && r.value.restaurants * |rows| as real == Sum(RestaurantSpending(rows))
  {
    if |rows| == 0 then None
    else Some(ClusterMeans(Mean(Trips(rows)), Mean(MemberRatios(rows)),
                           Mean(Durations(rows)), Mean(RestaurantSpending(rows))))
  }

  /** One entry of cluster_profiles. */
  datatype ClusterProfile = ClusterProfile(
    clusterId: nat,
    size: nat,
    counties: seq<Fips>,
    means: Option<ClusterMeans>,
    characteristics: Characteristics)

  /** The profile of cluster k: its size is its member count, which is the
      number of rows labelled k; its means are undefined exactly when it is
      empty. */
  function ProfileOf(rows: seq<CombinedRow>, labels: seq<int>, k: nat): (p: ClusterProfile)
    requires |labels| == |rows| && HasRestaurants(rows)
    ensures p.clusterId == k
    ensures p.size == |p.counties| == multiset(labels)[k]
    ensures p.means.None? <==> p.size == 0
    ensures p.characteristics == Characterize(p.means)
  {
    var m := Members(rows, labels, k);
    assert HasRestaurants(m);
    var means := MeansOf(m);
    ClusterProfile(k, |m|, CountiesOf(m), means, Characterize(means))
  }

  /** cluster_profiles, filled cluster by cluster. */
  method ProfileClusters(rows: seq<CombinedRow>, labels: seq<int>) returns (profiles: seq<ClusterProfile>)
    requires |labels| == |rows| && HasRestaurants(rows)
    ensures |profiles| == ClusterCount
    ensures forall k :: 0 <= k < ClusterCount ==> profiles[k] == ProfileOf(rows, labels, k)
  {
    profiles := [];
    var clusterId := 0;
    while clusterId < ClusterCount
      invariant 0 <= clusterId <= ClusterCount
      invariant |profiles| == clusterId
      invariant forall k :: 0 <= k < clusterId ==> profiles[k] == ProfileOf(rows, labels, k)
    {
      var clusterData := Members(rows, labels, clusterId);
      assert HasRestaurants(clusterData);
      var means := MeansOf(clusterData);
      profiles := profiles + [ClusterProfile(clusterId, |clusterData|, CountiesOf(clusterData),
                                             means, Characterize(means))];
      clusterId := clusterId + 1;
    }
  }

  // ---------------------------------------------------------------- partition

  predicate LabelsInRange(labels: seq<int>)
  {
    forall j :: 0 <= j < |labels| ==> 0 <= labels[j] < ClusterCount
  }

  /** With every label in 0..3, the four label counts add up to the row count. */
  lemma {:induction false} LabelCountsSum(labels: seq<int>)
    requires LabelsInRange(labels)
    ensures multiset(labels)[0] + multiset(labels)[1] + multiset(labels)[2] + multiset(labels)[3] == |labels|
    decreases |labels|
  {
    if |labels| > 0 {
      var n := |labels| - 1;
      assert labels == labels[..n] + [labels[n]];
      LabelCountsSum(labels[..n]);
    }
  }

  /** The cluster sizes sum to the number of combined rows. */
  lemma PartitionSizes(rows: seq<CombinedRow>, labels: seq<int>)
    requires |labels| == |rows| && LabelsInRange(labels)
    ensures |Members(rows, labels, 0)| + |Members(rows, labels, 1)|
          + |Members(rows, labels, 2)| + |Members(rows, labels, 3)| == |rows|
  {
    LabelCountsSum(labels);
  }

  /** Extending the rows by one extends the list of its label's cluster by
      that row's county, and no other list. */
  lemma MembersSnoc(rows: seq<CombinedRow>, labels: seq<int>, k: int)
    requires |labels| == |rows| && |rows| > 0
    ensures var n := |rows| - 1;
      CountiesOf(Members(rows, labels, k))
        == CountiesOf(Members(rows[..n], labels[..n], k))
           + (if labels[n] == k then [rows[n].mobility.county] else [])
  {
    var n := |rows| - 1;
    var head := Members(rows[..n], labels[..n], k);
    assert Members(rows, labels, k) == head + (if labels[n] == k then [rows[n]] else []);
  }

  /** One row added to one of four lists keeps their multiset union equal
      to the whole. */
  lemma FourWayStep(a0: seq<Fips>, a1: seq<Fips>, a2: seq<Fips>, a3: seq<Fips>,
                    b0: seq<Fips>, b1: seq<Fips>, b2: seq<Fips>, b3: seq<Fips>,
                    whole: seq<Fips>, c: Fips, l: int)
    requires 0 <= l < ClusterCount
    requires b0 == a0 + (if l == 0 then [c] else [])
    requires b1 == a1 + (if l == 1 then [c] else [])
    requires b2 == a2 + (if l == 2 then [c] else [])
    requires b3 == a3 + (if l == 3 then [c] else [])
    requires multiset(a0) + multiset(a1) + multiset(a2) + multiset(a3) == multiset(whole)
    ensures multiset(b0) + multiset(b1) + multiset(b2) + multiset(b3) == multiset(whole + [c])
  {
    assert multiset(whole + [c]) == multiset(whole) + multiset{c};
  }

  /** Together the four member lists hold every row's county exactly as often
      as the rows do. */
  lemma {:induction false} PartitionCounties(rows: seq<CombinedRow>, labels: seq<int>)
    requires |labels| == |rows| && LabelsInRange(labels)
    ensures multiset(CountiesOf(Members(rows, labels, 0))) + multiset(CountiesOf(Members(rows, labels, 1)))
          + multiset(CountiesOf(Members(rows, labels, 2))) + multiset(CountiesOf(Members(rows, labels, 3)))
          == multiset(CountiesOf(rows))
    decreases |rows|
  {
    if |rows| > 0 {
      var n := |rows| - 1;
      var rs, ls := rows[..n], labels[..n];
      PartitionCounties(rs, ls);
      var c := rows[n].mobility.county;
      assert CountiesOf(rows) == CountiesOf(rs) + [c];
      MembersSnoc(rows, labels, 0);
      MembersSnoc(rows, labels, 1);
      MembersSnoc(rows, labels, 2);
      MembersSnoc(rows, labels, 3);
      FourWayStep(CountiesOf(Members(rs, ls, 0)), CountiesOf(Members(rs, ls, 1)),
                  CountiesOf(Members(rs, ls, 2)), CountiesOf(Members(rs, ls, 3)),
                  CountiesOf(Members(rows, labels, 0)), CountiesOf(Members(rows, labels, 1)),
                  CountiesOf(Members(rows, labels, 2)), CountiesOf(Members(rows, labels, 3)),
                  CountiesOf(rs), c, labels[n]);
    }
  }

  /** A county is in cluster k's list exactly when some row of that county is
      labelled k. */
  lemma {:induction false} MemberCounty(rows: seq<CombinedRow>, labels: seq<int>, k: int, c: Fips)
    requires |labels| == |rows|
    ensures c in CountiesOf(Members(rows, labels, k)) <==>
      exists j :: 0 <= j < |rows| && labels[j] == k && rows[j].mobility.county == c
    decreases |rows|
  {
    if |rows| > 0 {
      var n := |rows| - 1;
      var rs, ls := rows[..n], labels[..n];
      MemberCounty(rs, ls, k, c);
      var head := Members(rs, ls, k);
      var tail := if labels[n] == k then [rows[n]] else [];
      assert Members(rows, labels, k) == head + tail;
      assert CountiesOf(head + tail) == CountiesOf(head) + CountiesOf(tail);
      if exists j :: 0 <= j < |rows| && labels[j] == k && rows[j].mobility.county == c {
        var j :| 0 <= j < |rows| && labels[j] == k && rows[j].mobility.county == c;
        if j < n {
          assert ls[j] == k && rs[j].mobility.county == c;
        } else {
          assert CountiesOf(tail) == [c];
        }
      }
      if c in CountiesOf(head) {
        var j :| 0 <= j < n && ls[j] == k && rs[j].mobility.county == c;
        assert labels[j] == k && rows[j].mobility.county == c;
      }
    }
  }

  predicate DistinctCounties(rows: seq<CombinedRow>)
  {
    forall i, j :: 0 <= i < j < |rows| ==> rows[i].mobility.county != rows[j].mobility.county
  }

  /** When the combined rows have distinct counties, each county appears in
      the list of its own cluster and of no other. */
  lemma ExactlyOneCluster(rows: seq<CombinedRow>, labels: seq<int>, j: nat, k: int)
    requires |labels| == |rows| && DistinctCounties(rows)
    requires j < |rows|
    ensures rows[j].mobility.county in CountiesOf(Members(rows, labels, k)) <==> labels[j] == k
  {
    var c := rows[j].mobility.county;
    MemberCounty(rows, labels, k, c);
    if c in CountiesOf(Members(rows, labels, k)) {
      var j' :| 0 <= j' < |rows| && labels[j'] == k && rows[j'].mobility.county == c;
      assert j' == j;
    }
  }

  /** A cluster is empty exactly when no row carries its label. */
  lemma EmptyCluster(rows: seq<CombinedRow>, labels: seq<int>, k: nat)
    requires |labels| == |rows| && HasRestaurants(rows)
    ensures ProfileOf(rows, labels, k).means.None? <==> k !in labels
  {
  }

  /** Means of a non-empty cluster lie within the bounds its rows respect. */
  lemma ClusterRatioBounds(rows: seq<CombinedRow>, labels: seq<int>, k: nat, lo: real, hi: real)
    requires |labels| == |rows| && HasRestaurants(rows)
    requires forall j :: 0 <= j < |rows| ==> lo <= rows[j].mobility.memberRatio <= hi
    requires ProfileOf(rows, labels, k).means.Some?
    ensures lo <= ProfileOf(rows, labels, k).means.value.memberRatio <= hi
  {
    var m := Members(rows, labels, k);
    MeanBounds(MemberRatios(m), lo, hi);
  }

  // ---------------------------------------------------------------- segmentation step

  /** The combined table and the labels KMeans gave its rows. */
  datatype Clustered = Clustered(table: CombinedTable, labels: seq<int>)

  /** StandardScaler followed by KMeans(n_clusters=4): a call into a library,
      taken as a function from the feature matrix to one label per row. */
  type Clusterer = seq<seq<real>> -> seq<int>

  /** Everything before the profiles: pivot and join, select the features
      (KeyError when a feature column is absent), refuse fewer rows than
      clusters, cluster, and attach the labels (a length mismatch raises). */
  function Cluster(mob: seq<MobilityRow>, spending: seq<SpendingRow>, kmeans: Clusterer): (r: Result<Clustered>)
    ensures !NoDuplicatePairs(spending) ==> r == Err(DuplicateEntries)
    ensures NoDuplicatePairs(spending) && !(FeatureCategories <= RowCategories(spending)) ==>
      r == Err(MissingColumns(FeatureCategories - RowCategories(spending)))
    ensures NoDuplicatePairs(spending) && FeatureCategories <= RowCategories(spending) ==>
      var table := AssembleFeatures(mob, spending).value;
      && (|table.rows| < ClusterCount ==> r == Err(TooFewRegions(|table.rows|)))
      && (|table.rows| >= ClusterCount ==>
            var labels := kmeans(FeatureMatrix(table).value);
            && (|labels| != |table.rows| ==> r == Err(LabelCountMismatch(|labels|, |table.rows|)))
            && (|labels| == |table.rows| ==> r == Ok(Clustered(table, labels))))
    ensures r.Ok? ==>
      && |r.value.labels| == |r.value.table.rows| >= ClusterCount
      && HasRestaurants(r.value.table.rows)
      && Pivot(spending).Ok?
      && r.value.table == Merge(mob, Pivot(spending).value)
      && WellFormedTable(r.value.table)
      && FeatureMatrix(r.value.table).Ok?
      && r.value.labels == kmeans(FeatureMatrix(r.value.table).value)
  {
    match AssembleFeatures(mob, spending)
    case Err(e) => Err(e)
    case Ok(table) =>
      match FeatureMatrix(table)
      case Err(e) => Err(e)
      case Ok(features) =>
        if |table.rows| < ClusterCount then Err(TooFewRegions(|table.rows|))
        else
          var labels := kmeans(features);
          if |labels| != |table.rows| then Err(LabelCountMismatch(|labels|, |table.rows|))
          else Ok(Clustered(table, labels))
  }

  datatype Segmentation = Segmentation(profiles: seq<ClusterProfile>, nClusters: nat, algorithm: string)

  /** _perform_segmentation_analysis: fails exactly when clustering fails, and
      otherwise holds the profiles of clusters 0..3 in order. */
  method PerformSegmentation(mob: seq<MobilityRow>, spending: seq<SpendingRow>, kmeans: Clusterer)
    returns (r: Result<Segmentation>)
    ensures r.Ok? <==> Cluster(mob, spending, kmeans).Ok?
    ensures r.Err? ==> r.error == Cluster(mob, spending, kmeans).error
    ensures r.Ok? ==>
      var c := Cluster(mob, spending, kmeans).value;
      && r.value.nClusters == ClusterCount
      && |r.value.profiles| == ClusterCount
      && forall k :: 0 <= k < ClusterCount ==> r.value.profiles[k] == ProfileOf(c.table.rows, c.labels, k)
  {
    var clustered := Cluster(mob, spending, kmeans);
    if clustered.Err? {
      return Err(clustered.error);
    }
    var profiles := ProfileClusters(clustered.value.table.rows, clustered.value.labels);
    r := Ok(Segmentation(profiles, ClusterCount, "kmeans"));
  }
}
