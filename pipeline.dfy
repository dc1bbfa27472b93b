/** The whole analysis: generate the tables, segment, bind personas, list
    the opportunities and aggregate the market intelligence. */
module Pipeline {
  import opened Numeric
  import opened Records
  import opened Generators
  import opened Features
  import opened Segmentation
  import opened Personas
  import opened Opportunities
  import opened Intelligence

  /** The record counts of the generated tables. */
  datatype DataSummary = DataSummary(mobilityRecords: nat, spendingRecords: nat, demographicRecords: nat)

  datatype AnalysisResult = AnalysisResult(
    personas: seq<Persona>,
    opportunities: seq<Opportunity>,
    insights: MarketIntelligence,
    segmentation: Segmentation,
    summary: DataSummary)

  // ------------------------------------------------ the generated tables join

  /** The generated spending table never repeats a (county, category) pair,
      so pivoting it cannot fail. */
  lemma GeneratedSpendingNoDuplicates(ds: seq<seq<real>>)
    requires |ds| == |Counties| && WellShapedDraws(ds)
    ensures NoDuplicatePairs(SpendingTable(Counties, ds))
  {
    var rows := SpendingTable(Counties, ds);
    CountiesWellFormed();
    CategoriesDistinct();
    forall p, q | 0 <= p < q < |rows| ensures !SamePair(rows[p], rows[q]) {
      SpendingTableFloor(Counties, ds, p);
      SpendingTableFloor(Counties, ds, q);
      if p / 7 == q / 7 {
        assert p % 7 != q % 7;
      }
    }
  }

  /** Every county has spending rows, and every feature category occurs. */
  lemma GeneratedSpendingCovers(ds: seq<seq<real>>)
    requires |ds| == |Counties| && WellShapedDraws(ds)
    ensures forall i :: 0 <= i < |Counties| ==> Counties[i] in RowCounties(SpendingTable(Counties, ds))
    ensures FeatureCategories <= RowCategories(SpendingTable(Counties, ds))
  {
    var rows := SpendingTable(Counties, ds);
    forall i | 0 <= i < |Counties| ensures Counties[i] in RowCounties(rows) {
      assert (7 * i) / 7 == i;
      SpendingTableFloor(Counties, ds, 7 * i);
    }
    SpendingTableFloor(Counties, ds, 0);
    SpendingTableFloor(Counties, ds, 1);
    SpendingTableFloor(Counties, ds, 3);
  }

  /** With the generated tables, feature assembly succeeds, the join keeps
      all seven counties in order, and clustering fails only when the
      clusterer returns a label vector of the wrong length. */
  lemma GeneratedClustering(mobDraws: seq<MobilityDraw>, spendDraws: seq<seq<real>>, kmeans: Clusterer)
    requires |mobDraws| == |Counties|
    requires |spendDraws| == |Counties| && WellShapedDraws(spendDraws)
    ensures var mob := MobilityTable(mobDraws);
      var spending := SpendingTable(Counties, spendDraws);
      && AssembleFeatures(mob, spending).Ok?
      && var table := AssembleFeatures(mob, spending).value;
      && |table.rows| == |Counties|
      && (forall i :: 0 <= i < |Counties| ==> table.rows[i].mobility == mob[i])
      && FeatureMatrix(table).Ok?
      && (Cluster(mob, spending, kmeans).Ok? <==> |kmeans(FeatureMatrix(table).value)| == |Counties|)
  {
    var mob := MobilityTable(mobDraws);
    var spending := SpendingTable(Counties, spendDraws);
    GeneratedSpendingNoDuplicates(spendDraws);
    GeneratedSpendingCovers(spendDraws);
    PivotSpec(spending);
    PivotKeys(spending);
    var t := Pivot(spending).value;
    assert forall j :: 0 <= j < |mob| ==> mob[j].county in t.cells by {
      forall j | 0 <= j < |mob| ensures mob[j].county in t.cells {
        assert mob[j].county == Counties[j];
      }
    }
    MergeKeepsAll(mob, t);
  }

  /** A successful clustering of the generated tables holds all seven
      counties, each with a member ratio in [0.3, 0.95]. */
  lemma GeneratedRows(mobDraws: seq<MobilityDraw>, spendDraws: seq<seq<real>>, kmeans: Clusterer)
    requires |mobDraws| == |Counties|
    requires |spendDraws| == |Counties| && WellShapedDraws(spendDraws)
    requires Cluster(MobilityTable(mobDraws), SpendingTable(Counties, spendDraws), kmeans).Ok?
    ensures var rows := Cluster(MobilityTable(mobDraws), SpendingTable(Counties, spendDraws), kmeans).value.table.rows;
      && |rows| == |Counties|
      && forall j :: 0 <= j < |rows| ==> 0.3 <= rows[j].mobility.memberRatio <= 0.95
  {
    var mob := MobilityTable(mobDraws);
    var spending := SpendingTable(Counties, spendDraws);
    GeneratedClustering(mobDraws, spendDraws, kmeans);
    var rows := Cluster(mob, spending, kmeans).value.table.rows;
    assert rows == AssembleFeatures(mob, spending).value.rows;
    CountiesWellFormed();
    forall j | 0 <= j < |rows| ensures 0.3 <= rows[j].mobility.memberRatio <= 0.95 {
      assert rows[j].mobility == MobilityRecord(Counties[j], mobDraws[j]);
    }
  }

  // ------------------------------------------------ persona totals

  /** The population estimates of the four personas add up to 50000 people
      per clustered county when every label names one of the four clusters. */
  lemma PartitionPopulation(rows: seq<CombinedRow>, labels: seq<int>, ps: seq<Persona>)
    requires |labels| == |rows| && HasRestaurants(rows) && LabelsInRange(labels)
    requires |ps| == ClusterCount
    requires forall k :: 0 <= k < ClusterCount ==>
      ps[k].estimatedPopulation == ProfileOf(rows, labels, k).size * PopulationPerCounty
    ensures TotalPopulation(ps) == PopulationPerCounty * |rows|
  {
    LabelCountsSum(labels);
    var m := multiset(labels);
    assert ps[0].estimatedPopulation == m[0] * PopulationPerCounty by { assert ProfileOf(rows, labels, 0).size == m[0]; }
    assert ps[1].estimatedPopulation == m[1] * PopulationPerCounty by { assert ProfileOf(rows, labels, 1).size == m[1]; }
    assert ps[2].estimatedPopulation == m[2] * PopulationPerCounty by { assert ProfileOf(rows, labels, 2).size == m[2]; }
    assert ps[3].estimatedPopulation == m[3] * PopulationPerCounty by { assert ProfileOf(rows, labels, 3).size == m[3]; }
    assert TotalPopulation(ps[..1]) == ps[0].estimatedPopulation by { assert ps[..1][..0] == []; }
    assert TotalPopulation(ps[..2]) == TotalPopulation(ps[..1]) + ps[1].estimatedPopulation by { assert ps[..2][..1] == ps[..1]; }
    assert TotalPopulation(ps[..3]) == TotalPopulation(ps[..2]) + ps[2].estimatedPopulation by { assert ps[..3][..2] == ps[..2]; }
    assert ps[..|ps| - 1] == ps[..3];
  }

  // ------------------------------------------------ the pipeline

  /** The facts a run establishes about its personas and market figures,
      for clustered rows and labels. */
  predicate AnalysisFacts(rows: seq<CombinedRow>, labels: seq<int>, draws: seq<PersonaDraw>, a: AnalysisResult)
    requires |labels| == |rows| && HasRestaurants(rows) && |draws| == ClusterCount
  {
    var o := a.insights.overview;
    && |a.personas| == ClusterCount
    && |a.segmentation.profiles| == ClusterCount
    && (forall i :: 0 <= i < ClusterCount ==>
          && a.personas[i].clusterIds == [i]
          && a.personas[i].name == Templates[i].name
          && a.personas[i].estimatedPopulation == multiset(labels)[i] * PopulationPerCounty
          && a.segmentation.profiles[i] == ProfileOf(rows, labels, i)
          && PersonaOf(i, a.segmentation.profiles[i], draws[i]) == Ok(a.personas[i])
          && a.personas[i].targetingEffectiveness <= EffectivenessCap)
    && a.opportunities == Catalogue
    && |a.opportunities| == 5
    && GenerateMarketIntelligence(a.personas, a.opportunities) == Ok(a.insights)
    && o.numberOfSegments == ClusterCount
    && o.totalOpportunityValue == 1480000
    && o.totalAddressableMarket == TotalMarketValue(a.personas)
    && o.totalPopulation == TotalPopulation(a.personas)
    && (LabelsInRange(labels) ==> o.totalPopulation == PopulationPerCounty * |rows|)
    && o.averageTargetingEffectiveness <= EffectivenessCap
    && ((forall i :: 0 <= i < ClusterCount ==> ValidPersonaDraw(draws[i])) ==>
          && 15 * o.totalPopulation <= o.totalAddressableMarket <= 35 * o.totalPopulation
          && 0.6 <= o.averageTargetingEffectiveness)
  }

  /** Everything after segmentation: personas, opportunities and market
      intelligence. The run fails exactly when some cluster is empty. */
  method AnalyzeSegments(segmentation: Segmentation, personaDraws: seq<PersonaDraw>, summary: DataSummary,
                         ghost rows: seq<CombinedRow>, ghost labels: seq<int>)
    returns (r: Result<AnalysisResult>)
    requires |labels| == |rows| && HasRestaurants(rows)
    requires forall j :: 0 <= j < |rows| ==> 0.3 <= rows[j].mobility.memberRatio <= 0.95
    requires |personaDraws| == ClusterCount
    requires |segmentation.profiles| == ClusterCount
    requires forall k :: 0 <= k < ClusterCount ==> segmentation.profiles[k] == ProfileOf(rows, labels, k)
    ensures r.Ok? <==> forall k :: 0 <= k < ClusterCount ==> k in labels
    ensures r.Err? ==> exists k :: 0 <= k < ClusterCount && k !in labels && r.error == UndefinedMean(k)
    ensures r.Ok? ==> r.value.segmentation == segmentation && r.value.summary == summary
    ensures r.Ok? ==> AnalysisFacts(rows, labels, personaDraws, r.value)
  {
    var profiles := segmentation.profiles;
    ProfilesOfClusters(rows, labels, profiles);
    var personas := GeneratePersonas(profiles, personaDraws);
    if personas.Err? {
      return Err(personas.error);
    }
    var ps := personas.value;
    var opportunities := IdentifyOpportunities(ps);
    var insights := GenerateMarketIntelligence(ps, opportunities);
    PersonaIdentity(rows, labels, profiles, personaDraws, ps);
    if LabelsInRange(labels) {
      PartitionPopulation(rows, labels, ps);
    }
    PersonaEffectiveness(rows, labels, profiles, personaDraws, ps);
    if forall k :: 0 <= k < ClusterCount ==> ValidPersonaDraw(personaDraws[k]) {
      PersonaMarket(profiles, personaDraws, ps);
    }
    r := Ok(AnalysisResult(ps, opportunities, insights.value, segmentation, summary));
  }

  /** generate_comprehensive_analysis. The mobility and spending draws feed the
      generators, kmeans stands for StandardScaler + KMeans, and personaDraws
      hold the uniform deviates each persona takes. The run fails when
      clustering fails or when a cluster is left empty. */
  method GenerateComprehensiveAnalysis(
    mobDraws: seq<MobilityDraw>, spendDraws: seq<seq<real>>, kmeans: Clusterer, personaDraws: seq<PersonaDraw>)
    returns (r: Result<AnalysisResult>)
    requires |mobDraws| == |Counties|
    requires |spendDraws| == |Counties| && WellShapedDraws(spendDraws)
    requires |personaDraws| == ClusterCount
    ensures var c := Cluster(MobilityTable(mobDraws), SpendingTable(Counties, spendDraws), kmeans);
      r.Ok? <==> c.Ok? && forall k :: 0 <= k < ClusterCount ==> k in c.value.labels
    ensures var c := Cluster(MobilityTable(mobDraws), SpendingTable(Counties, spendDraws), kmeans);
      r.Err? ==>
        || (c.Err? && r.error == c.error)
        || (c.Ok? && exists k :: 0 <= k < ClusterCount && k !in c.value.labels && r.error == UndefinedMean(k))
    ensures r.Ok? ==>
      var c := Cluster(MobilityTable(mobDraws), SpendingTable(Counties, spendDraws), kmeans).value;
      && |c.table.rows| == |Counties|
      && AnalysisFacts(c.table.rows, c.labels, personaDraws, r.value)
      && r.value.summary == DataSummary(|Counties|, (|SpendingCategories| + 1) * |Counties|, |Counties|)
  {
    var mobility := GenerateMobility(mobDraws);
    var spending := GenerateSpending(spendDraws);
    var segmentation := PerformSegmentation(mobility, spending, kmeans);
    if segmentation.Err? {
      return Err(segmentation.error);
    }
    ghost var c := Cluster(mobility, spending, kmeans).value;
    GeneratedRows(mobDraws, spendDraws, kmeans);
    r := AnalyzeSegments(segmentation.value, personaDraws, DataSummary(|mobility|, |spending|, |Counties|),
                         c.table.rows, c.labels);
  }

  /** What the profiles of a clustered table say about empty clusters. */
  lemma ProfilesOfClusters(rows: seq<CombinedRow>, labels: seq<int>, profiles: seq<ClusterProfile>)
    requires |labels| == |rows| && HasRestaurants(rows)
    requires |profiles| == ClusterCount
    requires forall k :: 0 <= k < ClusterCount ==> profiles[k] == ProfileOf(rows, labels, k)
    ensures forall k :: 0 <= k < ClusterCount ==>
      profiles[k].clusterId == k && (profiles[k].means.None? <==> k !in labels)
  {
    forall k | 0 <= k < ClusterCount
      ensures profiles[k].clusterId == k && (profiles[k].means.None? <==> k !in labels)
    {
      EmptyCluster(rows, labels, k);
    }
  }

  /** The personas of a full run: persona k describes cluster k with the
      k-th template and one population unit per member county. */
  lemma PersonaIdentity(rows: seq<CombinedRow>, labels: seq<int>, profiles: seq<ClusterProfile>,
                        draws: seq<PersonaDraw>, ps: seq<Persona>)
    requires |labels| == |rows| && HasRestaurants(rows)
    requires |profiles| == ClusterCount && |draws| == ClusterCount && |ps| == ClusterCount
    requires forall k :: 0 <= k < ClusterCount ==> profiles[k] == ProfileOf(rows, labels, k)
    requires forall k :: 0 <= k < ClusterCount ==> PersonaOf(k, profiles[k], draws[k]) == Ok(ps[k])
    ensures forall k :: 0 <= k < ClusterCount ==>
      && ps[k].clusterIds == [k]
      && ps[k].name == Templates[k].name
      && ps[k].estimatedPopulation == multiset(labels)[k] * PopulationPerCounty
  {
    forall k | 0 <= k < ClusterCount
      ensures && ps[k].clusterIds == [k]
              && ps[k].name == Templates[k].name
              && ps[k].estimatedPopulation == multiset(labels)[k] * PopulationPerCounty
    {
      assert PersonaOf(k, profiles[k], draws[k]).Ok?;
      assert k % |Templates| == k;
    }
  }

  /** The average effectiveness of a full run is at most the cap, and at least
      0.6 when the draws are in range, since every member ratio is at least 0.3. */
  lemma PersonaEffectiveness(rows: seq<CombinedRow>, labels: seq<int>, profiles: seq<ClusterProfile>,
                             draws: seq<PersonaDraw>, ps: seq<Persona>)
    requires |labels| == |rows| && HasRestaurants(rows)
    requires forall j :: 0 <= j < |rows| ==> 0.3 <= rows[j].mobility.memberRatio <= 0.95
    requires |profiles| == ClusterCount && |draws| == ClusterCount && |ps| == ClusterCount
    requires forall k :: 0 <= k < ClusterCount ==> profiles[k] == ProfileOf(rows, labels, k)
    requires forall k :: 0 <= k < ClusterCount ==> PersonaOf(k, profiles[k], draws[k]) == Ok(ps[k])
    ensures Mean(Effectiveness(ps)) <= EffectivenessCap
    ensures (forall k :: 0 <= k < ClusterCount ==> ValidPersonaDraw(draws[k])) ==> 0.6 <= Mean(Effectiveness(ps))
  {
    forall k | 0 <= k < ClusterCount ensures ps[k].targetingEffectiveness <= EffectivenessCap {
      assert PersonaOf(k, profiles[k], draws[k]).Ok?;
    }
    AverageEffectivenessBounds(ps, 0.6, EffectivenessCap);
    if forall k :: 0 <= k < ClusterCount ==> ValidPersonaDraw(draws[k]) {
      forall k | 0 <= k < ClusterCount ensures 0.6 <= ps[k].targetingEffectiveness {
        assert PersonaOf(k, profiles[k], draws[k]).Ok?;
        ClusterRatioBounds(rows, labels, k, 0.3, 0.95);
      }
    }
  }

  /** Under in-range draws the total addressable market of a run lies between
      15 and 35 per head of the total population. */
  lemma PersonaMarket(profiles: seq<ClusterProfile>, draws: seq<PersonaDraw>, ps: seq<Persona>)
    requires |profiles| == ClusterCount && |draws| == ClusterCount && |ps| == ClusterCount
    requires forall k :: 0 <= k < ClusterCount ==> PersonaOf(k, profiles[k], draws[k]) == Ok(ps[k])
    requires forall k :: 0 <= k < ClusterCount ==> ValidPersonaDraw(draws[k])
    ensures 15 * TotalPopulation(ps) <= TotalMarketValue(ps) <= 35 * TotalPopulation(ps)
  {
    forall k | 0 <= k < ClusterCount
      ensures 15 * ps[k].estimatedPopulation <= ps[k].marketValue <= 35 * ps[k].estimatedPopulation
    {
      assert PersonaOf(k, profiles[k], draws[k]).Ok?;
    }
    TotalMarketBounds(ps);
  }
}
