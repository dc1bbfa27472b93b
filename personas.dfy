/** Persona synthesis: each cluster profile, in cluster order, is bound to a
    persona template (cycling through the four templates) and given market
    figures, a targeting effectiveness and seasonal multipliers. */
module Personas {
  import opened Numeric
  import opened Records
  import opened Segmentation

  /** A persona archetype; its narrative fields are copied verbatim. */
  datatype PersonaTemplate = PersonaTemplate(
    name: string,
    personaType: string,
    description: string,
    motivations: seq<string>,
    painPoints: seq<string>,
    channels: seq<string>,
    strategies: seq<string>)

  const Templates: seq<PersonaTemplate> := [
    PersonaTemplate(
      "Urban Commuter Pro", "Urban Commuter",
      "Highly structured professionals who rely on bike-sharing for daily commuting to work and efficient city navigation.",
      ["Reliable transportation", "Time efficiency", "Cost savings", "Environmental consciousness"],
      ["Rush hour bike availability", "Weather dependency", "Station capacity", "Route planning"],
      ["Mobile app", "Email newsletters", "LinkedIn", "Transit partnerships"],
      ["Corporate partnerships", "Commuter packages", "Priority access", "Weather alerts"]),
    PersonaTemplate(
      "Weekend Explorer", "Leisure Cyclist",
      "Recreation-focused users who enjoy cycling for leisure, fitness, and exploration on weekends and holidays.",
      ["Recreation", "Fitness goals", "City exploration", "Social activities"],
      ["Limited weekend availability", "Route discovery", "Group coordination", "Seasonal limitations"],
      ["Social media", "Fitness apps", "Community events", "Tourism partnerships"],
      ["Weekend promotions", "Fitness challenges", "Scenic route guides", "Group discounts"]),
    PersonaTemplate(
      "Tech Innovator", "Tech Savvy",
      "Early adopters who embrace technology and seek innovative, connected transportation solutions.",
      ["Innovation", "Convenience", "Smart city integration", "Data insights"],
      ["App limitations", "Feature requests", "Integration gaps", "Tech support"],
      ["Tech blogs", "Beta programs", "Developer communities", "Smart city initiatives"],
      ["Beta testing", "API access", "Smart features", "Tech partnerships"]),
    PersonaTemplate(
      "Budget Conscious", "Value Seeker",
      "Price-sensitive users who prioritize affordability and value in their transportation choices.",
      ["Cost savings", "Value for money", "Budget management", "Alternative transport"],
      ["Pricing complexity", "Hidden fees", "Payment options", "Service value"],
      ["Price comparison sites", "Budget apps", "Community forums", "Local partnerships"],
      ["Value packages", "Student discounts", "Loyalty rewards", "Transparent pricing"])
  ]

  /** The four templates carry four different names. */
  lemma TemplateNamesDistinct()
    ensures |Templates| == 4
    ensures forall i, j :: 0 <= i < j < |Templates| ==> Templates[i].name != Templates[j].name
  {
  }

  /** Scale-up from a cluster's county count to people. */
  const PopulationPerCounty: nat := 50000

  /** The upper clip of the targeting effectiveness. */
  const EffectivenessCap: real := 0.95

  /** The six uniform deviates (each in [0, 1)) one persona draws, in
      sampling order: market multiplier, effectiveness bonus, then the
      spring, summer, fall and winter perturbations. */
  datatype PersonaDraw = PersonaDraw(
    marketU: real, effectivenessU: real,
    springU: real, summerU: real, fallU: real, winterU: real)

  predicate ValidPersonaDraw(d: PersonaDraw)
  {
    && 0.0 <= d.marketU <= 1.0 && 0.0 <= d.effectivenessU <= 1.0
    && 0.0 <= d.springU <= 1.0 && 0.0 <= d.summerU <= 1.0
    && 0.0 <= d.fallU <= 1.0 && 0.0 <= d.winterU <= 1.0
  }

  /** numpy draws uniform(low, high) as low + (high - low) * u. */
  function Uniform(low: real, high: real, u: real): real
  {
    low + (high - low) * u
  }

  datatype SeasonalTrends = SeasonalTrends(spring: real, summer: real, fall: real, winter: real)

  function SeasonalOf(d: PersonaDraw): (s: SeasonalTrends)
    ensures ValidPersonaDraw(d) ==>
      && 0.9 <= s.spring <= 1.2 && 1.1 <= s.summer <= 1.5
      && 0.8 <= s.fall <= 1.1 && 0.5 <= s.winter <= 0.8
  {
    SeasonalTrends(
      1.0 + Uniform(-0.1, 0.2, d.springU),
      1.2 + Uniform(-0.1, 0.3, d.summerU),
      0.9 + Uniform(-0.1, 0.2, d.fallU),
      0.7 + Uniform(-0.2, 0.1, d.winterU))
  }

  datatype MobilityProfile = MobilityProfile(avgTrips: int, memberRatio: real, avgDuration: real, usageIntensity: Level)

  datatype SpendingProfile = SpendingProfile(restaurantSpending: int, spendingLevel: Level)

  /** One entry of the persona mapping; `id` is i in the key persona_i. */
  datatype Persona = Persona(
    id: nat,
    name: string,
    personaType: string,
    clusterIds: seq<nat>,
    estimatedPopulation: int,
    marketValue: int,
    targetingEffectiveness: real,
    description: string,
    motivations: seq<string>,
    painPoints: seq<string>,
    channels: seq<string>,
    strategies: seq<string>,
    seasonalTrends: SeasonalTrends,
    mobilityProfile: MobilityProfile,
    spendingProfile: SpendingProfile)

  lemma ScaledFraction(p: real, u: real)
    requires 0.0 <= p && 0.0 <= u <= 1.0
    ensures 0.0 <= p * u <= p
  {
    assert p * (1.0 - u) >= 0.0;
  }

  lemma ProductForm(p: real, u: real)
    ensures p * Uniform(15.0, 35.0, u) == 15.0 * p + 20.0 * (p * u)
  {
  }

  /** A multiplier drawn from [15, 35] scales p into [15p, 35p]. */
  lemma MultiplierBounds(p: real, u: real)
    requires 0.0 <= p && 0.0 <= u <= 1.0
    ensures 15.0 * p <= p * Uniform(15.0, 35.0, u) <= 35.0 * p
  {
    ScaledFraction(p, u);
    ProductForm(p, u);
  }

  lemma TruncPerHead(population: nat, x: real)
    requires 15.0 * population as real <= x <= 35.0 * population as real
    ensures 15 * population <= Trunc(x) <= 35 * population
  {
    TruncBetween(x, 15 * population, 35 * population);
  }

  /** The market value is the truncated product of the population and a
      multiplier drawn from [15, 35]. */
  lemma MarketValueBounds(population: nat, u: real)
    ensures 0.0 <= u <= 1.0 ==>
      15 * population <= Trunc(population as real * Uniform(15.0, 35.0, u)) <= 35 * population
  {
    if 0.0 <= u <= 1.0 {
      MultiplierBounds(population as real, u);
      TruncPerHead(population, population as real * Uniform(15.0, 35.0, u));
    }
  }

  /** The persona of the i-th profile. The source converts the cluster's
      means with int(), which raises on the NaN means of an empty cluster. */
  function PersonaOf(i: nat, profile: ClusterProfile, d: PersonaDraw): (r: Result<Persona>)
    ensures r.Err? <==> profile.means.None?
    ensures r.Err? ==> r.error == UndefinedMean(profile.clusterId)
    ensures r.Ok? ==>
      var t := Templates[i % |Templates|];
      var p := r.value;
      && p.id == i
      && p.name == t.name && p.personaType == t.personaType && p.description == t.description
      && p.motivations == t.motivations && p.painPoints == t.painPoints
      && p.channels == t.channels && p.strategies == t.strategies
      && p.clusterIds == [profile.clusterId]
      && p.estimatedPopulation == profile.size * PopulationPerCounty
      && p.targetingEffectiveness <= EffectivenessCap
      && (ValidPersonaDraw(d) && profile.means.value.memberRatio >= 0.0 ==> p.targetingEffectiveness >= 0.6)
      && (ValidPersonaDraw(d) ==> 15 * p.estimatedPopulation <= p.marketValue <= 35 * p.estimatedPopulation)
      && p.seasonalTrends == SeasonalOf(d)
      && var m := profile.means.value;
      && p.targetingEffectiveness == AtMost(EffectivenessCap, 0.6 + m.memberRatio * 0.3 + Uniform(0.0, 0.1, d.effectivenessU))
      && p.mobilityProfile == MobilityProfile(Trunc(m.trips), m.memberRatio, m.duration, profile.characteristics.mobilityLevel)
      && p.spendingProfile == SpendingProfile(Trunc(m.restaurants), profile.characteristics.diningPreference)
  {
    match profile.means
    case None => Err(UndefinedMean(profile.clusterId))
    case Some(m) =>
      var t := Templates[i % |Templates|];
      var population := profile.size * PopulationPerCounty;
      var marketValue := population as real * Uniform(15.0, 35.0, d.marketU);
      var effectiveness := 0.6 + m.memberRatio * 0.3 + Uniform(0.0, 0.1, d.effectivenessU);
      MarketValueBounds(population, d.marketU);
      Ok(Persona(
        i, t.name, t.personaType, [profile.clusterId],
        population, Trunc(marketValue), AtMost(EffectivenessCap, effectiveness),
        t.description, t.motivations, t.painPoints, t.channels, t.strategies,
        SeasonalOf(d),
        MobilityProfile(Trunc(m.trips), m.memberRatio, m.duration, profile.characteristics.mobilityLevel),
        SpendingProfile(Trunc(m.restaurants), profile.characteristics.diningPreference)))
  }

  /** The personas of the profiles, in profile order; the first empty
      cluster ends the run. */
  method GeneratePersonas(profiles: seq<ClusterProfile>, draws: seq<PersonaDraw>) returns (r: Result<seq<Persona>>)
    requires |draws| == |profiles|
    ensures r.Ok? <==> forall i :: 0 <= i < |profiles| ==> profiles[i].means.Some?
    ensures r.Err? ==>
      exists i :: 0 <= i < |profiles| && profiles[i].means.None?
        && r.error == UndefinedMean(profiles[i].clusterId)
        && forall j :: 0 <= j < i ==> profiles[j].means.Some?
    ensures r.Ok? ==>
      && |r.value| == |profiles|
      && forall i :: 0 <= i < |profiles| ==> PersonaOf(i, profiles[i], draws[i]) == Ok(r.value[i])
  {
    var personas: seq<Persona> := [];
    var i := 0;
    while i < |profiles|
      invariant 0 <= i <= |profiles|
      invariant |personas| == i
      invariant forall j :: 0 <= j < i ==> profiles[j].means.Some? && PersonaOf(j, profiles[j], draws[j]) == Ok(personas[j])
    {
      var persona := PersonaOf(i, profiles[i], draws[i]);
      if persona.Err? {
        return Err(persona.error);
      }
      personas := personas + [persona.value];
      i := i + 1;
    }
    return Ok(personas);
  }
}
