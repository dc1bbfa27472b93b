/** The business-opportunity catalogue: a fixed list of five opportunities,
    each aimed at one or more persona archetypes. */
module Opportunities {
  import opened Personas

  datatype Opportunity = Opportunity(
    opportunityType: string,
    description: string,
    targetSegments: seq<string>,
    estimatedMarketSize: int,
    investmentLevel: string,
    expectedRoi: string,
    implementationTimeline: string,
    keyMetrics: seq<string>)

  const Catalogue: seq<Opportunity> := [
    Opportunity(
      "Premium Commuter Services",
      "Develop premium service tier for high-frequency commuters with guaranteed bike availability and priority access.",
      ["Urban Commuter Pro"], 350000, "Medium", "25-35%", "6-9 months",
      ["Customer lifetime value", "Premium conversion rate", "Churn reduction"]),
    Opportunity(
      "Weekend Recreation Packages",
      "Create weekend-focused packages with scenic routes, fitness tracking, and group coordination features.",
      ["Weekend Explorer"], 180000, "Low", "15-25%", "3-6 months",
      ["Weekend usage growth", "Package adoption rate", "User engagement"]),
    Opportunity(
      "Smart Technology Integration",
      "Advanced IoT features, predictive analytics, and smart city integration for tech-savvy users.",
      ["Tech Innovator"], 220000, "High", "30-45%", "9-12 months",
      ["Feature adoption", "API usage", "Tech partnership value"]),
    Opportunity(
      "Value-Focused Membership",
      "Affordable membership tiers with transparent pricing and value-added benefits for budget-conscious users.",
      ["Budget Conscious"], 280000, "Low", "20-30%", "4-8 months",
      ["Price sensitivity analysis", "Conversion rate", "Customer acquisition cost"]),
    Opportunity(
      "Corporate Partnership Program",
      "B2B partnerships with employers for employee transportation benefits and corporate sustainability programs.",
      ["Urban Commuter Pro", "Tech Innovator"], 450000, "Medium", "35-50%", "6-12 months",
      ["Corporate contracts", "Employee adoption", "B2B revenue growth"])
  ]

  /** The sum of the estimated market sizes, as sum(...) over the list. */
  function TotalMarketSize(opps: seq<Opportunity>): int
  {
    if |opps| == 0 then 0
    else TotalMarketSize(opps[..|opps| - 1]) + opps[|opps| - 1].estimatedMarketSize
  }

  /** Some persona template carries this name. */
  predicate IsTemplateName(name: string)
  {
    exists t :: 0 <= t < |Templates| && Templates[t].name == name
  }

  /** The opportunities for a persona set. The catalogue does not depend on
      the personas: the same five entries come back for every input. */
  function IdentifyOpportunities(personas: seq<Persona>): (r: seq<Opportunity>)
    ensures |r| == 5
    ensures TotalMarketSize(r) == 1480000
    ensures forall i, j :: 0 <= i < j < |r| ==> r[i].opportunityType != r[j].opportunityType
    ensures forall i, j :: 0 <= i < |r| && 0 <= j < |r[i].targetSegments| ==> IsTemplateName(r[i].targetSegments[j])
    ensures forall i :: 0 <= i < |r| ==> r[i].estimatedMarketSize > 0
  {
    CatalogueTotal();
    CatalogueTargetsTemplates();
    Catalogue
  }

  /** The five sizes add up to 1,480,000. */
  lemma CatalogueTotal()
    ensures TotalMarketSize(Catalogue) == 1480000
  {
    var c := Catalogue;
    assert TotalMarketSize(c[..1]) == 350000 by { assert c[..1][..0] == []; }
    assert TotalMarketSize(c[..2]) == 530000 by { assert c[..2][..1] == c[..1]; }
    assert TotalMarketSize(c[..3]) == 750000 by { assert c[..3][..2] == c[..2]; }
    assert TotalMarketSize(c[..4]) == 1030000 by { assert c[..4][..3] == c[..3]; }
    assert c[..|c| - 1] == c[..4];
  }

  /** Every target segment names a persona template. */
  lemma CatalogueTargetsTemplates()
    ensures forall i, j :: 0 <= i < |Catalogue| && 0 <= j < |Catalogue[i].targetSegments| ==>
      IsTemplateName(Catalogue[i].targetSegments[j])
  {
    assert Templates[0].name == "Urban Commuter Pro";
    assert Templates[1].name == "Weekend Explorer";
    assert Templates[2].name == "Tech Innovator";
    assert Templates[3].name == "Budget Conscious";
  }

  /** Every template is the target of at least one opportunity. */
  lemma EveryTemplateTargeted(t: nat)
    requires t < |Templates|
    ensures exists i, j ::
      0 <= i < |Catalogue| && 0 <= j < |Catalogue[i].targetSegments| && Catalogue[i].targetSegments[j] == Templates[t].name
  {
    assert Catalogue[t].targetSegments[0] == Templates[t].name;
  }
}
