/** Market intelligence: the headline figures aggregated over the personas
    and the opportunity catalogue. */
module Intelligence {
  import opened Numeric
  import opened Records
  import opened Personas
  import opened Opportunities

  /** The numeric part of the market overview. */
  datatype MarketOverview = MarketOverview(
    totalAddressableMarket: int,
    totalPopulation: int,
    averageTargetingEffectiveness: real,
    numberOfSegments: nat,
    totalOpportunityValue: int)

  /** The overview plus the two figures quoted in the key insights: the
      largest persona market value and a fifth of the opportunity value. */
  datatype MarketIntelligence = MarketIntelligence(
    overview: MarketOverview,
    topSegmentValue: int,
    premiumCapture: real)

  /** Sum of the persona market values. */
  function TotalMarketValue(ps: seq<Persona>): int
  {
    if |ps| == 0 then 0 else TotalMarketValue(ps[..|ps| - 1]) + ps[|ps| - 1].marketValue
  }

  /** Sum of the persona population estimates. */
  function TotalPopulation(ps: seq<Persona>): int
  {
    if |ps| == 0 then 0 else TotalPopulation(ps[..|ps| - 1]) + ps[|ps| - 1].estimatedPopulation
  }

  /** The targeting effectiveness of each persona, in persona order. */
  function Effectiveness(ps: seq<Persona>): (e: seq<real>)
    ensures |e| == |ps| && forall i :: 0 <= i < |ps| ==> e[i] == ps[i].targetingEffectiveness
  {
    seq(|ps|, i requires 0 <= i < |ps| => ps[i].targetingEffectiveness)
  }

  /** The largest market value among the personas. */
  function TopMarketValue(ps: seq<Persona>): (m: int)
    requires |ps| > 0
    ensures forall i :: 0 <= i < |ps| ==> ps[i].marketValue <= m
    ensures exists i :: 0 <= i < |ps| && ps[i].marketValue == m
  {
    if |ps| == 1 then ps[0].marketValue
    else
      var rest := TopMarketValue(ps[..|ps| - 1]);
      if ps[|ps| - 1].marketValue > rest then ps[|ps| - 1].marketValue else rest
  }

  /** The market intelligence of a persona set. With no personas the source's
      max() over the market values raises, so the run fails. */
  function GenerateMarketIntelligence(ps: seq<Persona>, opps: seq<Opportunity>): (r: Result<MarketIntelligence>)
    ensures r.Ok? <==> |ps| > 0
    ensures r.Err? ==> r.error == NoPersonas
    ensures r.Ok? ==>
      var o := r.value.overview;
      && o.totalAddressableMarket == TotalMarketValue(ps)
      && o.totalPopulation == TotalPopulation(ps)
      && o.numberOfSegments == |ps|
      && o.totalOpportunityValue == TotalMarketSize(opps)
      && o.averageTargetingEffectiveness == Mean(Effectiveness(ps))
      && o.averageTargetingEffectiveness * (|ps| as real) == Sum(Effectiveness(ps))
      && (forall i :: 0 <= i < |ps| ==> ps[i].marketValue <= r.value.topSegmentValue)
      && (exists i :: 0 <= i < |ps| && ps[i].marketValue == r.value.topSegmentValue)
      && r.value.premiumCapture * 5.0 == o.totalOpportunityValue as real
  {
    if |ps| == 0 then Err(NoPersonas)
    else
      var total := TotalMarketSize(opps);
      Ok(MarketIntelligence(
        MarketOverview(TotalMarketValue(ps), TotalPopulation(ps), Mean(Effectiveness(ps)), |ps|, total),
        TopMarketValue(ps),
        total as real / 5.0))
  }

  /** When every persona's market value lies between 15 and 35 per head, so
      does the total addressable market. */
  lemma {:induction false} TotalMarketBounds(ps: seq<Persona>)
    requires forall i :: 0 <= i < |ps| ==>
      15 * ps[i].estimatedPopulation <= ps[i].marketValue <= 35 * ps[i].estimatedPopulation
    ensures 15 * TotalPopulation(ps) <= TotalMarketValue(ps) <= 35 * TotalPopulation(ps)
  {
    if |ps| > 0 {
      TotalMarketBounds(ps[..|ps| - 1]);
    }
  }

  /** The average effectiveness keeps any upper or lower bound that every
      persona's effectiveness keeps. */
  lemma AverageEffectivenessBounds(ps: seq<Persona>, lo: real, hi: real)
    requires |ps| > 0
    ensures (forall i :: 0 <= i < |ps| ==> ps[i].targetingEffectiveness <= hi) ==> Mean(Effectiveness(ps)) <= hi
    ensures (forall i :: 0 <= i < |ps| ==> lo <= ps[i].targetingEffectiveness) ==> lo <= Mean(Effectiveness(ps))
  {
    var e := Effectiveness(ps);
    if forall i :: 0 <= i < |ps| ==> ps[i].targetingEffectiveness <= hi {
      MeanAtMost(e, hi);
    }
    if forall i :: 0 <= i < |ps| ==> lo <= ps[i].targetingEffectiveness {
      MeanAtLeast(e, lo);
    }
  }

  /** With nonnegative market values, no single segment exceeds the total. */
  lemma {:induction false} TopWithinTotal(ps: seq<Persona>)
    requires |ps| > 0
    requires forall i :: 0 <= i < |ps| ==> ps[i].marketValue >= 0
    ensures TopMarketValue(ps) <= TotalMarketValue(ps)
  {
    if |ps| > 1 {
      TopWithinTotal(ps[..|ps| - 1]);
      NonnegativeTotal(ps[..|ps| - 1]);
    }
  }

  lemma {:induction false} NonnegativeTotal(ps: seq<Persona>)
    requires forall i :: 0 <= i < |ps| ==> ps[i].marketValue >= 0
    ensures TotalMarketValue(ps) >= 0
  {
    if |ps| > 0 {
      NonnegativeTotal(ps[..|ps| - 1]);
    }
  }
}
