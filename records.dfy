/** The tables the pipeline passes from stage to stage, the fixed county list,
    and the failures a run can end in. */
module Records {

  datatype Option<T> = None | Some(value: T)

  /** Every way a run of the pipeline can fail, each named by the library call
      that raises it in the source. */
  datatype AnalysisError =
    | DuplicateEntries                           // DataFrame.pivot: an (index, column) pair occurs twice
    | MissingColumns(missing: set<Category>)     // combined_data[features]: KeyError
    | TooFewRegions(count: nat)                  // StandardScaler / KMeans: fewer samples than clusters
    | LabelCountMismatch(labels: nat, rows: nat) // assigning the label column: length mismatch
    | UndefinedMean(clusterId: nat)              // int() of the NaN mean of an empty cluster
    | NoPersonas                                 // max() over an empty persona set

  datatype Result<T> = Ok(value: T) | Err(error: AnalysisError)

  /** A county FIPS code, such as "36061". */
  type Fips = string

  /** The six spending categories and the synthesized per-county total. */
  datatype Category =
    | Restaurants | Retail | Grocery | Entertainment | Transportation | Healthcare
    | Total

  /** The categories in the order the spending generator visits them. */
  const SpendingCategories: seq<Category> :=
    [Restaurants, Retail, Grocery, Entertainment, Transportation, Healthcare]

  /** Position of a category in SpendingCategories; the total row comes last. */
  function CategoryIndex(c: Category): (k: nat)
    ensures k <= |SpendingCategories|
    ensures k < |SpendingCategories| <==> c != Total
  {
    match c
    case Restaurants => 0
    case Retail => 1
    case Grocery => 2
    case Entertainment => 3
    case Transportation => 4
    case Healthcare => 5
    case Total => 6
  }

  lemma CategoryIndexInverse(k: nat)
    requires k < |SpendingCategories|
    ensures CategoryIndex(SpendingCategories[k]) == k
  {
    if k == 0 {} else if k == 1 {} else if k == 2 {} else if k == 3 {} else if k == 4 {} else {}
  }

  /** No category occurs twice in SpendingCategories, and Total never occurs. */
  lemma CategoriesDistinct()
    ensures forall j, k :: 0 <= j < k < |SpendingCategories| ==> SpendingCategories[j] != SpendingCategories[k]
    ensures forall j :: 0 <= j < |SpendingCategories| ==> SpendingCategories[j] != Total
  {
    forall j, k | 0 <= j < k < |SpendingCategories|
      ensures SpendingCategories[j] != SpendingCategories[k]
    {
      CategoryIndexInverse(j);
      CategoryIndexInverse(k);
    }
    forall j | 0 <= j < |SpendingCategories| ensures SpendingCategories[j] != Total {
      CategoryIndexInverse(j);
    }
  }

  /** The counties every generator visits, in order. */
  const Counties: seq<Fips> := ["17031", "36061", "06037", "48201", "04013", "53033", "25025"]

  const CountyNames: map<Fips, string> := map[
    "17031" := "Cook County, IL (Chicago)",
    "36061" := "New York County, NY (Manhattan)",
    "06037" := "Los Angeles County, CA",
    "48201" := "Harris County, TX (Houston)",
    "04013" := "Maricopa County, AZ (Phoenix)",
    "53033" := "King County, WA (Seattle)",
    "25025" := "Suffolk County, MA (Boston)"
  ]

  /** The county list has no repeats and every county has a display name. */
  lemma CountiesWellFormed()
    ensures forall i, j :: 0 <= i < j < |Counties| ==> Counties[i] != Counties[j]
    ensures forall i :: 0 <= i < |Counties| ==> Counties[i] in CountyNames
  {
  }

  /** One row of the mobility table. */
  datatype MobilityRow = MobilityRow(
    county: Fips,
    countyName: string,
    totalTrips: int,
    avgTripDuration: real,
    memberTrips: int,
    casualTrips: int,
    memberRatio: real,
    peakHourRatio: real,
    weekendRatio: real,
    nightTripsRatio: real,
    avgTripDistanceKm: real,
    stationDensity: real,
    interCountyRatio: real)

  /** One row of the spending table (long format: one row per county and category). */
  datatype SpendingRow = SpendingRow(county: Fips, category: Category, amount: real, proportion: real)

  function MobilityCounties(rows: seq<MobilityRow>): (cs: seq<Fips>)
    ensures |cs| == |rows| && forall i :: 0 <= i < |rows| ==> cs[i] == rows[i].county
  {
    seq(|rows|, i requires 0 <= i < |rows| => rows[i].county)
  }
}
