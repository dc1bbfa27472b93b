/** The synthetic data generators: per-county mobility records and per-county
    spending rows. Every random draw is a parameter holding the standard deviate
    numpy would produce; the model applies the location, scale, clamping and
    flooring the generators apply. */
module Generators {
  import opened Numeric
  import opened Records

  // ---------------------------------------------------------------- mobility

  /** A normal distribution; numpy draws N(mean, sd) as mean + sd * z. */
  datatype Normal = Normal(mean: real, sd: real)

  function Sample(n: Normal, z: real): real
  {
    n.mean + n.sd * z
  }

  /** Distributions of trips, trip duration and member ratio for one county. */
  datatype MobilityParams = MobilityParams(trips: Normal, duration: Normal, memberRatio: Normal)

  /** Manhattan, Chicago and Los Angeles have their own distributions; every
      other county shares the last set. */
  function MobilityParamsFor(county: Fips): (p: MobilityParams)
    ensures 0.0 < p.trips.sd && 0.0 < p.duration.sd && 0.0 < p.memberRatio.sd
    ensures 8000.0 <= p.trips.mean <= 25000.0 && 12.0 <= p.duration.mean <= 20.0
    ensures 0.65 <= p.memberRatio.mean <= 0.85
  {
    if county == "36061" then
      MobilityParams(Normal(25000.0, 3000.0), Normal(12.0, 2.0), Normal(0.85, 0.05))
    else if county == "17031" then
      MobilityParams(Normal(18000.0, 2500.0), Normal(15.0, 3.0), Normal(0.75, 0.08))
    else if county == "06037" then
      MobilityParams(Normal(12000.0, 2000.0), Normal(20.0, 4.0), Normal(0.65, 0.1))
    else
      MobilityParams(Normal(8000.0, 1500.0), Normal(16.0, 3.0), Normal(0.7, 0.1))
  }

  /** The draws behind one mobility record, in sampling order: three standard
      normal deviates, beta(2,3), beta(1.5,3) and beta(1,4) values, a standard
      gamma deviate of shape 2, a standard exponential deviate and a beta(1,9)
      value. */
  datatype MobilityDraw = MobilityDraw(
    tripsZ: real, durationZ: real, ratioZ: real,
    peakBeta: real, weekendBeta: real, nightBeta: real,
    distanceGamma: real, densityExp: real, interBeta: real)

  /** What the distributions guarantee of their draws. */
  predicate ValidMobilityDraw(d: MobilityDraw)
  {
    && 0.0 <= d.peakBeta <= 1.0
    && 0.0 <= d.weekendBeta <= 1.0
    && 0.0 <= d.nightBeta <= 1.0
    && 0.0 <= d.distanceGamma
    && 0.0 <= d.densityExp
    && 0.0 <= d.interBeta <= 1.0
  }

  /** Member and casual trips are truncations of the two shares of the
      clamped trip count, so together they never exceed the truncated total. */
  lemma TripSplit(base: real, ratio: real)
    requires base >= 1000.0 && 0.3 <= ratio <= 0.95
    ensures 0 <= Trunc(base * ratio) && 0 <= Trunc(base * (1.0 - ratio))
    ensures Trunc(base * ratio) + Trunc(base * (1.0 - ratio)) <= Trunc(base)
  {
    var m := base * ratio;
    var c := base * (1.0 - ratio);
    assert m >= base * 0.3 >= 0.0;
    assert c >= base * 0.05 >= 0.0;
    assert m + c == base;
  }

  /** One county's mobility record: sample, clamp to the plausible bounds,
      derive the member and casual trip counts, then the six ratio fields. */
  function MobilityRecord(county: Fips, d: MobilityDraw): (row: MobilityRow)
    requires county in CountyNames
    ensures row.county == county && row.countyName == CountyNames[county]
    ensures row.totalTrips >= 1000
    ensures 5.0 <= row.avgTripDuration <= 30.0
    ensures 0.3 <= row.memberRatio <= 0.95
    ensures 0 <= row.memberTrips && 0 <= row.casualTrips
    ensures row.memberTrips + row.casualTrips <= row.totalTrips
    ensures ValidMobilityDraw(d) ==>
      && 0.15 <= row.peakHourRatio <= 0.55
      && 0.15 <= row.weekendRatio <= 0.55
      && 0.0 <= row.nightTripsRatio <= 0.15
      && 1.0 <= row.avgTripDistanceKm
      && 0.1 <= row.stationDensity
      && 0.0 <= row.interCountyRatio <= 0.2
  {
    var p := MobilityParamsFor(county);
    var baseTrips := AtLeast(1000.0, Sample(p.trips, d.tripsZ));
    var avgDuration := Clamp(5.0, 30.0, Sample(p.duration, d.durationZ));
    var memberRatio := Clamp(0.3, 0.95, Sample(p.memberRatio, d.ratioZ));
    TripSplit(baseTrips, memberRatio);
    MobilityRow(
      county, CountyNames[county],
      Trunc(baseTrips), avgDuration,
      Trunc(baseTrips * memberRatio), Trunc(baseTrips * (1.0 - memberRatio)),
      memberRatio,
      d.peakBeta * 0.4 + 0.15,
      d.weekendBeta * 0.4 + 0.15,
      d.nightBeta * 0.15,
      1.5 * d.distanceGamma + 1.0,
      0.5 * d.densityExp + 0.1,
      d.interBeta * 0.2)
  }

  /** The table the mobility generator produces from its draws. */
  function MobilityTable(draws: seq<MobilityDraw>): (rows: seq<MobilityRow>)
    requires |draws| == |Counties|
    ensures |rows| == |Counties|
    ensures MobilityCounties(rows) == Counties
  {
    CountiesWellFormed();
    seq(|Counties|, i requires 0 <= i < |Counties| => MobilityRecord(Counties[i], draws[i]))
  }

  /** The mobility table: one record per county, in county order. */
  method GenerateMobility(draws: seq<MobilityDraw>) returns (data: seq<MobilityRow>)
    requires |draws| == |Counties|
    ensures data == MobilityTable(draws)
    ensures |data| == |Counties|
    ensures forall i :: 0 <= i < |data| ==> data[i] == MobilityRecord(Counties[i], draws[i])
    ensures MobilityCounties(data) == Counties
    ensures forall i :: 0 <= i < |data| ==>
      && data[i].totalTrips >= 1000
      && 5.0 <= data[i].avgTripDuration <= 30.0
      && 0.3 <= data[i].memberRatio <= 0.95
      && 0 <= data[i].memberTrips && 0 <= data[i].casualTrips
      && data[i].memberTrips + data[i].casualTrips <= data[i].totalTrips
  {
    CountiesWellFormed();
    data := [];
    var i := 0;
    while i < |Counties|
      invariant 0 <= i <= |Counties|
      invariant |data| == i
      invariant forall j :: 0 <= j < i ==> data[j] == MobilityRecord(Counties[j], draws[j])
    {
      data := data + [MobilityRecord(Counties[i], draws[i])];
      i := i + 1;
    }
  }

  // ---------------------------------------------------------------- spending

  /** A gamma distribution; numpy draws gamma(shape, scale) as scale * g for a
      standard gamma deviate g of that shape. */
  datatype Gamma = Gamma(shape: real, scale: real)

  /** The county's economic multiplier on every category amount. */
  function SpendingMultiplier(county: Fips): (m: real)
    ensures 1.0 <= m <= 1.8
    ensures m > 1.0 <==> county in {"36061", "53033", "25025", "06037", "17031"}
  {
    if county == "36061" then 1.8
    else if county == "53033" then 1.6
    else if county == "25025" then 1.5
    else if county == "06037" then 1.4
    else if county == "17031" then 1.2
    else 1.0
  }

  /** The distribution of a category's base amount; entertainment in Los
      Angeles has its own shape. */
  function CategoryGamma(county: Fips, category: Category): (g: Gamma)
    ensures 2.0 <= g.shape && 30000.0 <= g.scale
    ensures g.shape * g.scale >= 60000.0
  {
    if category == Restaurants then Gamma(3.0, 50000.0)
    else if category == Retail then Gamma(2.5, 60000.0)
    else if category == Entertainment && county == "06037" then Gamma(4.0, 40000.0)
    else if category == Transportation then Gamma(2.0, 30000.0)
    else Gamma(2.0, 40000.0)
  }

  const SpendingFloor: real := 10000.0

  /** A category amount: the scaled draw times the county multiplier, raised
      to the floor when it falls short. */
  function CategoryAmount(county: Fips, category: Category, g: real): (a: real)
    ensures a >= SpendingFloor
    ensures a >= CategoryGamma(county, category).scale * g * SpendingMultiplier(county)
    ensures a == SpendingFloor || a == CategoryGamma(county, category).scale * g * SpendingMultiplier(county)
  {
    AtLeast(SpendingFloor, CategoryGamma(county, category).scale * g * SpendingMultiplier(county))
  }

  /** The floored amounts of the six categories, in category order. */
  function CategoryAmounts(county: Fips, gs: seq<real>): (a: seq<real>)
    requires |gs| == |SpendingCategories|
    ensures |a| == |SpendingCategories|
    ensures forall j :: 0 <= j < |a| ==> a[j] == CategoryAmount(county, SpendingCategories[j], gs[j])
  {
    seq(|SpendingCategories|, j requires 0 <= j < |SpendingCategories| =>
      CategoryAmount(county, SpendingCategories[j], gs[j]))
  }

  lemma TotalIsPositive(county: Fips, gs: seq<real>)
    requires |gs| == |SpendingCategories|
    ensures Sum(CategoryAmounts(county, gs)) >= 60000.0
  {
    SumLowerBound(CategoryAmounts(county, gs), SpendingFloor);
  }

  /** The seven rows one county contributes: its six categories, each with its
      share of the county total, then the synthesized total row. */
  function CountyRows(county: Fips, gs: seq<real>): (rows: seq<SpendingRow>)
    requires |gs| == |SpendingCategories|
    ensures |rows| == |SpendingCategories| + 1
    ensures forall j :: 0 <= j < |rows| ==> rows[j].county == county
    ensures rows[|SpendingCategories|].category == Total && rows[|SpendingCategories|].proportion == 1.0
  {
    var a := CategoryAmounts(county, gs);
    var total := Sum(a);
    TotalIsPositive(county, gs);
    seq(|SpendingCategories|, j requires 0 <= j < |SpendingCategories| =>
      SpendingRow(county, SpendingCategories[j], a[j], a[j] / total))
    + [SpendingRow(county, Total, total, 1.0)]
  }

  function Amounts(rows: seq<SpendingRow>): seq<real>
  {
    seq(|rows|, i requires 0 <= i < |rows| => rows[i].amount)
  }

  function Proportions(rows: seq<SpendingRow>): seq<real>
  {
    seq(|rows|, i requires 0 <= i < |rows| => rows[i].proportion)
  }

  /** Each county emits its six categories in order, each at least the floor,
      followed by one total row whose amount is the sum of the floored
      amounts and whose proportion is 1.0. */
  lemma CountyRowsShape(county: Fips, gs: seq<real>)
    requires |gs| == |SpendingCategories|
    ensures var rows := CountyRows(county, gs);
      && (forall j :: 0 <= j < |rows| ==> rows[j].county == county)
      && (forall j :: 0 <= j < |SpendingCategories| ==>
            && rows[j].category == SpendingCategories[j]
            && rows[j].amount == CategoryAmount(county, SpendingCategories[j], gs[j])
            && rows[j].amount >= SpendingFloor)
      && rows[|SpendingCategories|].category == Total
      && rows[|SpendingCategories|].amount == Sum(Amounts(rows[..|SpendingCategories|]))
      && rows[|SpendingCategories|].proportion == 1.0
  {
    var rows := CountyRows(county, gs);
    assert Amounts(rows[..|SpendingCategories|]) == CategoryAmounts(county, gs);
  }

  /** The category proportions of a county sum to exactly 1. */
  lemma ProportionsSumToOne(county: Fips, gs: seq<real>)
    requires |gs| == |SpendingCategories|
    ensures Sum(Proportions(CountyRows(county, gs)[..|SpendingCategories|])) == 1.0
  {
    var a := CategoryAmounts(county, gs);
    var rows := CountyRows(county, gs);
    TotalIsPositive(county, gs);
    var props := Proportions(rows[..|SpendingCategories|]);
    SumDivided(a, props, Sum(a));
  }

  predicate WellShapedDraws(ds: seq<seq<real>>)
  {
    forall i :: 0 <= i < |ds| ==> |ds[i]| == |SpendingCategories|
  }

  /** The spending table: each county's seven rows, in county order. */
  function SpendingTable(cs: seq<Fips>, ds: seq<seq<real>>): (rows: seq<SpendingRow>)
    requires |ds| == |cs| && WellShapedDraws(ds)
    ensures |rows| == (|SpendingCategories| + 1) * |cs|
    decreases |cs|
  {
    if |cs| == 0 then []
    else SpendingTable(cs[..|cs| - 1], ds[..|ds| - 1]) + CountyRows(cs[|cs| - 1], ds[|ds| - 1])
  }

  /** Row p of the table is row p % 7 of county p / 7. */
  lemma {:induction false} SpendingTableAt(cs: seq<Fips>, ds: seq<seq<real>>, p: nat)
    requires |ds| == |cs| && WellShapedDraws(ds)
    requires p < (|SpendingCategories| + 1) * |cs|
    ensures p / 7 < |cs| && SpendingTable(cs, ds)[p] == CountyRows(cs[p / 7], ds[p / 7])[p % 7]
    decreases |cs|
  {
    var n := |cs| - 1;
    if p < 7 * n {
      SpendingTableAt(cs[..n], ds[..n], p);
    } else {
      assert p / 7 == n;
    }
  }

  /** Every category row of the table is at least the floor, and every total
      row has proportion 1.0 and is the sum of the six rows before it, its
      county's categories. */
  lemma SpendingTableFloor(cs: seq<Fips>, ds: seq<seq<real>>, p: nat)
    requires |ds| == |cs| && WellShapedDraws(ds)
    requires p < (|SpendingCategories| + 1) * |cs|
    ensures var row := SpendingTable(cs, ds)[p];
      && row.county == cs[p / 7]
      && (p % 7 < 6 ==> row.category == SpendingCategories[p % 7] && row.amount >= SpendingFloor)
      && (p % 7 == 6 ==> && row.category == Total && row.proportion == 1.0
                         && row.amount == Sum(Amounts(SpendingTable(cs, ds)[p - 6 .. p])))
  {
    SpendingTableAt(cs, ds, p);
    var cr := CountyRows(cs[p / 7], ds[p / 7]);
    CountyRowsShape(cs[p / 7], ds[p / 7]);
    if p % 7 == 6 {
      var rows := SpendingTable(cs, ds);
      forall q | p - 6 <= q < p ensures rows[q] == cr[q - (p - 6)] {
        SpendingTableAt(cs, ds, q);
        assert q / 7 == p / 7 && q % 7 == q - (p - 6);
      }
      assert rows[p - 6 .. p] == cr[..|SpendingCategories|];
    }
  }

  /** One county's rows, built as the source builds them: accumulate the
      floored amounts and the running total, then emit the rows. */
  method CountySpending(county: Fips, gs: seq<real>) returns (rows: seq<SpendingRow>)
    requires |gs| == |SpendingCategories|
    ensures rows == CountyRows(county, gs)
  {
    CategoriesDistinct();
    ghost var a := CategoryAmounts(county, gs);
    var totalSpending := 0.0;
    var categorySpending: map<Category, real> := map[];
    var j := 0;
    while j < |SpendingCategories|
      invariant 0 <= j <= |SpendingCategories|
      invariant totalSpending == Sum(a[..j])
      invariant forall k :: 0 <= k < j ==>
        SpendingCategories[k] in categorySpending && categorySpending[SpendingCategories[k]] == a[k]
    {
      var category := SpendingCategories[j];
      categorySpending := categorySpending[category := CategoryAmount(county, category, gs[j])];
      totalSpending := totalSpending + categorySpending[category];
      assert a[..j + 1][..j] == a[..j];
      j := j + 1;
    }
    assert a[..j] == a;
    TotalIsPositive(county, gs);
    rows := [];
    j := 0;
    while j < |SpendingCategories|
      invariant 0 <= j <= |SpendingCategories|
      invariant |rows| == j
      invariant forall k :: 0 <= k < j ==> rows[k] == CountyRows(county, gs)[k]
    {
      var category := SpendingCategories[j];
      rows := rows + [SpendingRow(county, category, categorySpending[category],
                                  categorySpending[category] / totalSpending)];
      j := j + 1;
    }
    rows := rows + [SpendingRow(county, Total, totalSpending, 1.0)];
  }

  /** The spending table for the fixed county list. */
  method GenerateSpending(draws: seq<seq<real>>) returns (data: seq<SpendingRow>)
    requires |draws| == |Counties| && WellShapedDraws(draws)
    ensures data == SpendingTable(Counties, draws)
  {
    data := [];
    var i := 0;
    while i < |Counties|
      invariant 0 <= i <= |Counties|
      invariant data == SpendingTable(Counties[..i], draws[..i])
    {
      var rows := CountySpending(Counties[i], draws[i]);
      assert Counties[..i + 1][..i] == Counties[..i];
      assert draws[..i + 1][..i] == draws[..i];
      data := data + rows;
      i := i + 1;
    }
    assert Counties[..i] == Counties;
    assert draws[..i] == draws;
  }
}
