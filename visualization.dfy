/** The dashboard projection of an analysis: parallel lists over the
    personas and over the opportunities, and the seasonal trends keyed by
    persona name. Nothing here computes a new number. */
module Visualization {
  import opened Numeric
  import opened Personas
  import opened Opportunities
  import opened Intelligence

  datatype MarketAnalysis = MarketAnalysis(
    personaNames: seq<string>,
    marketValues: seq<int>,
    populations: seq<int>,
    effectiveness: seq<real>)

  datatype OpportunityAnalysis = OpportunityAnalysis(
    opportunityTypes: seq<string>,
    marketSizes: seq<int>,
    roiRanges: seq<string>,
    investmentLevels: seq<string>)

  datatype Visualizations = Visualizations(
    marketAnalysis: MarketAnalysis,
    opportunityAnalysis: OpportunityAnalysis,
    seasonalTrends: map<string, SeasonalTrends>)

  /** One entry per persona in every list, in persona order. */
  function MarketAnalysisOf(ps: seq<Persona>): (m: MarketAnalysis)
    ensures |m.personaNames| == |m.marketValues| == |m.populations| == |m.effectiveness| == |ps|
    ensures forall i :: 0 <= i < |ps| ==>
      && m.personaNames[i] == ps[i].name
      && m.marketValues[i] == ps[i].marketValue
      && m.populations[i] == ps[i].estimatedPopulation
      && m.effectiveness[i] == ps[i].targetingEffectiveness
  {
    MarketAnalysis(
      seq(|ps|, i requires 0 <= i < |ps| => ps[i].name),
      seq(|ps|, i requires 0 <= i < |ps| => ps[i].marketValue),
      seq(|ps|, i requires 0 <= i < |ps| => ps[i].estimatedPopulation),
      Effectiveness(ps))
  }

  /** One entry per opportunity in every list, in catalogue order. */
  function OpportunityAnalysisOf(opps: seq<Opportunity>): (a: OpportunityAnalysis)
    ensures |a.opportunityTypes| == |a.marketSizes| == |a.roiRanges| == |a.investmentLevels| == |opps|
    ensures forall i :: 0 <= i < |opps| ==>
      && a.opportunityTypes[i] == opps[i].opportunityType
      && a.marketSizes[i] == opps[i].estimatedMarketSize
      && a.roiRanges[i] == opps[i].expectedRoi
      && a.investmentLevels[i] == opps[i].investmentLevel
  {
    OpportunityAnalysis(
      seq(|opps|, i requires 0 <= i < |opps| => opps[i].opportunityType),
      seq(|opps|, i requires 0 <= i < |opps| => opps[i].estimatedMarketSize),
      seq(|opps|, i requires 0 <= i < |opps| => opps[i].expectedRoi),
      seq(|opps|, i requires 0 <= i < |opps| => opps[i].investmentLevel))
  }

  /** No persona after position j shares ps[j]'s name. */
  predicate LastWithName(ps: seq<Persona>, j: nat, n: nat)
    requires j < n <= |ps|
  {
    forall l :: j < l < n ==> ps[l].name != ps[j].name
  }

  /** The seasonal trends keyed by persona name, as the dictionary holds
      them after the personas have been stored in order. */
  function SeasonalIndex(ps: seq<Persona>): (m: map<string, SeasonalTrends>)
    ensures |ps| > 0 ==> ps[|ps| - 1].name in m && m[ps[|ps| - 1].name] == ps[|ps| - 1].seasonalTrends
  {
    if |ps| == 0 then map[]
    else SeasonalIndex(ps[..|ps| - 1])[ps[|ps| - 1].name := ps[|ps| - 1].seasonalTrends]
  }

  /** Every persona name, and nothing else, is a key. */
  lemma {:induction false} SeasonalIndexKeys(ps: seq<Persona>)
    ensures SeasonalIndex(ps).Keys == set j | 0 <= j < |ps| :: ps[j].name
  {
    if |ps| > 0 {
      var ps' := ps[..|ps| - 1];
      SeasonalIndexKeys(ps');
      var names := set j | 0 <= j < |ps| :: ps[j].name;
      var names' := set j | 0 <= j < |ps'| :: ps'[j].name;
      assert names == names' + {ps[|ps| - 1].name} by {
        forall n | n in names ensures n in names' + {ps[|ps| - 1].name} {
          var j :| 0 <= j < |ps| && ps[j].name == n;
          if j < |ps'| {
            assert ps'[j].name == n;
          }
        }
        forall n | n in names' ensures n in names {
          var j :| 0 <= j < |ps'| && ps'[j].name == n;
          assert ps[j].name == n;
        }
      }
    }
  }

  /** The last persona with a given name supplies that name's entry. */
  lemma {:induction false} SeasonalIndexLast(ps: seq<Persona>, j: nat)
    requires j < |ps| && LastWithName(ps, j, |ps|)
    ensures ps[j].name in SeasonalIndex(ps) && SeasonalIndex(ps)[ps[j].name] == ps[j].seasonalTrends
  {
    if j < |ps| - 1 {
      var ps' := ps[..|ps| - 1];
      assert ps[|ps| - 1].name != ps[j].name;
      assert LastWithName(ps', j, |ps'|) by {
        forall l | j < l < |ps'| ensures ps'[l].name != ps'[j].name {
          assert ps[l].name != ps[j].name;
        }
      }
      SeasonalIndexLast(ps', j);
    }
  }

  /** Every entry is the trends of the last persona carrying its name. */
  lemma {:induction false} SeasonalIndexValue(ps: seq<Persona>, name: string)
    requires name in SeasonalIndex(ps)
    ensures exists j ::
      && 0 <= j < |ps| && ps[j].name == name && LastWithName(ps, j, |ps|)
      && SeasonalIndex(ps)[name] == ps[j].seasonalTrends
  {
    var n := |ps| - 1;
    if ps[n].name == name {
      assert LastWithName(ps, n, |ps|);
    } else {
      var ps' := ps[..n];
      assert name in SeasonalIndex(ps') && SeasonalIndex(ps)[name] == SeasonalIndex(ps')[name];
      SeasonalIndexValue(ps', name);
      var j :| 0 <= j < |ps'| && ps'[j].name == name && LastWithName(ps', j, |ps'|)
        && SeasonalIndex(ps')[name] == ps'[j].seasonalTrends;
      assert LastWithName(ps, j, |ps|) by {
        forall l | j < l < |ps| ensures ps[l].name != ps[j].name {
          if l < n {
            assert ps'[l].name != ps'[j].name;
          }
        }
      }
    }
  }

  /** The seasonal map built by storing each persona's trends under its name. */
  method SeasonalMap(ps: seq<Persona>) returns (m: map<string, SeasonalTrends>)
    ensures m == SeasonalIndex(ps)
  {
    m := map[];
    var i := 0;
    while i < |ps|
      invariant 0 <= i <= |ps|
      invariant m == SeasonalIndex(ps[..i])
    {
      assert ps[..i + 1][..i] == ps[..i];
      m := m[ps[i].name := ps[i].seasonalTrends];
      i := i + 1;
    }
    assert ps[..|ps|] == ps;
  }

  /** The whole projection. */
  method CreateVisualizations(ps: seq<Persona>, opps: seq<Opportunity>) returns (v: Visualizations)
    ensures v.marketAnalysis == MarketAnalysisOf(ps)
    ensures v.opportunityAnalysis == OpportunityAnalysisOf(opps)
    ensures v.seasonalTrends == SeasonalIndex(ps)
  {
    var seasonal := SeasonalMap(ps);
    v := Visualizations(MarketAnalysisOf(ps), OpportunityAnalysisOf(opps), seasonal);
  }

  /** The market-value and population lists add up to the overview's totals. */
  lemma {:induction false} MarketListsMatchTotals(ps: seq<Persona>)
    ensures SumInt(MarketAnalysisOf(ps).marketValues) == TotalMarketValue(ps)
    ensures SumInt(MarketAnalysisOf(ps).populations) == TotalPopulation(ps)
  {
    if |ps| > 0 {
      var ps' := ps[..|ps| - 1];
      MarketListsMatchTotals(ps');
      assert MarketAnalysisOf(ps).marketValues[..|ps| - 1] == MarketAnalysisOf(ps').marketValues;
      assert MarketAnalysisOf(ps).populations[..|ps| - 1] == MarketAnalysisOf(ps').populations;
    }
  }

  /** The market-size list adds up to the overview's opportunity value. */
  lemma {:induction false} OpportunityListMatchesTotal(opps: seq<Opportunity>)
    ensures SumInt(OpportunityAnalysisOf(opps).marketSizes) == TotalMarketSize(opps)
  {
    if |opps| > 0 {
      var opps' := opps[..|opps| - 1];
      OpportunityListMatchesTotal(opps');
      assert OpportunityAnalysisOf(opps).marketSizes[..|opps| - 1] == OpportunityAnalysisOf(opps').marketSizes;
    }
  }
}
