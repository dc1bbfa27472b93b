/** Feature assembly: pivot the spending table wide by category, inner-join it
    with the mobility table on the county code, fill missing categories with
    0, and extract the six clustering features. */
module Features {
  import opened Numeric
  import opened Records

  // ---------------------------------------------------------------- pivot

  /** The spending table pivoted wide: per county, the amount of every
      category that county has a row for; `columns` holds every category that
      occurs anywhere in the table. */
  datatype PivotTable = PivotTable(cells: map<Fips, map<Category, real>>, columns: set<Category>)

  predicate SamePair(a: SpendingRow, b: SpendingRow)
  {
    a.county == b.county && a.category == b.category
  }

  /** The pivot refuses a table in which an (index, column) pair occurs twice. */
  predicate NoDuplicatePairs(rows: seq<SpendingRow>)
  {
    forall i, j :: 0 <= i < j < |rows| ==> !SamePair(rows[i], rows[j])
  }

  function CellsOf(t: PivotTable, county: Fips): map<Category, real>
  {
    if county in t.cells then t.cells[county] else map[]
  }

  function PivotInsert(t: PivotTable, row: SpendingRow): Result<PivotTable>
  {
    var entry := CellsOf(t, row.county);
    if row.category in entry then Err(DuplicateEntries)
    else Ok(PivotTable(t.cells[row.county := entry[row.category := row.amount]], t.columns + {row.category}))
  }

  /** DataFrame.pivot(index = county, columns = category, values = amount). */
  function Pivot(rows: seq<SpendingRow>): (r: Result<PivotTable>)
    ensures r.Err? ==> r.error == DuplicateEntries
    decreases |rows|
  {
    if |rows| == 0 then Ok(PivotTable(map[], {}))
    else match Pivot(rows[..|rows| - 1])
      case Err(e) => Err(e)
      case Ok(t) => PivotInsert(t, rows[|rows| - 1])
  }

  function RowCounties(rows: seq<SpendingRow>): set<Fips>
  {
    set i | 0 <= i < |rows| :: rows[i].county
  }

  function RowCategories(rows: seq<SpendingRow>): set<Category>
  {
    set i | 0 <= i < |rows| :: rows[i].category
  }

  /** What a pivot table holds for its rows. */
  ghost predicate Pivots(t: PivotTable, rows: seq<SpendingRow>)
  {
    && t.cells.Keys == RowCounties(rows)
    && t.columns == RowCategories(rows)
    && (forall i :: 0 <= i < |rows| ==>
          rows[i].category in t.cells[rows[i].county]
          && t.cells[rows[i].county][rows[i].category] == rows[i].amount)
    && (forall c, k :: c in t.cells && k in t.cells[c] ==>
          exists i :: 0 <= i < |rows| && rows[i].county == c && rows[i].category == k)
  }

  lemma RowCountiesSnoc(init: seq<SpendingRow>, row: SpendingRow)
    ensures RowCounties(init + [row]) == RowCounties(init) + {row.county}
    ensures RowCategories(init + [row]) == RowCategories(init) + {row.category}
  {
    var rows := init + [row];
    var n := |init|;
    assert rows[n] == row;
    forall c | c in RowCounties(rows) ensures c in RowCounties(init) + {row.county} {
      var i :| 0 <= i < |rows| && rows[i].county == c;
      if i < n { assert init[i].county == c; }
    }
    forall c | c in RowCounties(init) ensures c in RowCounties(rows) {
      var i :| 0 <= i < n && init[i].county == c;
      assert rows[i].county == c;
    }
    forall k | k in RowCategories(rows) ensures k in RowCategories(init) + {row.category} {
      var i :| 0 <= i < |rows| && rows[i].category == k;
      if i < n { assert init[i].category == k; }
    }
    forall k | k in RowCategories(init) ensures k in RowCategories(rows) {
      var i :| 0 <= i < n && init[i].category == k;
      assert rows[i].category == k;
    }
  }

  /** Inserting a row whose pair is new keeps the rows free of duplicates. */
  lemma PivotInsertNoDuplicate(t: PivotTable, init: seq<SpendingRow>, row: SpendingRow)
    requires Pivots(t, init) && NoDuplicatePairs(init)
    requires row.category !in CellsOf(t, row.county)
    ensures NoDuplicatePairs(init + [row])
  {
    var rows := init + [row];
    var n := |init|;
    forall i, j | 0 <= i < j < |rows| ensures !SamePair(rows[i], rows[j]) {
      if j < n {
        assert !SamePair(init[i], init[j]);
      } else {
        assert init[i].category in t.cells[init[i].county];
      }
    }
  }

  /** After a fresh insert every row, old and new, finds its amount. */
  lemma PivotInsertCells(t: PivotTable, init: seq<SpendingRow>, row: SpendingRow)
    requires Pivots(t, init) && NoDuplicatePairs(init + [row])
    requires row.category !in CellsOf(t, row.county)
    ensures var rows := init + [row];
      var t' := PivotInsert(t, row).value;
      forall i :: 0 <= i < |rows| ==>
        rows[i].category in t'.cells[rows[i].county]
        && t'.cells[rows[i].county][rows[i].category] == rows[i].amount
  {
    var rows := init + [row];
    var n := |init|;
    var t' := PivotInsert(t, row).value;
    assert t' == PivotTable(t.cells[row.county := CellsOf(t, row.county)[row.category := row.amount]],
                            t.columns + {row.category});
    assert rows[n] == row;
    forall i | 0 <= i < |rows|
      ensures rows[i].category in t'.cells[rows[i].county]
      ensures t'.cells[rows[i].county][rows[i].category] == rows[i].amount
    {
      if i < n {
        assert rows[i] == init[i];
        assert init[i].category in t.cells[init[i].county];
        assert !SamePair(rows[i], rows[n]);
      }
    }
  }

  /** After a fresh insert every cell still comes from some row. */
  lemma PivotInsertWitness(t: PivotTable, init: seq<SpendingRow>, row: SpendingRow)
    requires Pivots(t, init)
    requires row.category !in CellsOf(t, row.county)
    ensures var rows := init + [row];
      var t' := PivotInsert(t, row).value;
      forall c, k :: c in t'.cells && k in t'.cells[c] ==>
        exists i :: 0 <= i < |rows| && rows[i].county == c && rows[i].category == k
  {
    var rows := init + [row];
    var n := |init|;
    var t' := PivotInsert(t, row).value;
    assert t' == PivotTable(t.cells[row.county := CellsOf(t, row.county)[row.category := row.amount]],
                            t.columns + {row.category});
    forall c, k | c in t'.cells && k in t'.cells[c]
      ensures exists i :: 0 <= i < |rows| && rows[i].county == c && rows[i].category == k
    {
      if c == row.county && k == row.category {
        assert rows[n].county == c && rows[n].category == k;
      } else {
        assert c in t.cells && k in t.cells[c];
        var i :| 0 <= i < n && init[i].county == c && init[i].category == k;
        assert rows[i].county == c && rows[i].category == k;
      }
    }
  }

  /** Inserting a row whose pair is new keeps the pivot faithful. */
  lemma PivotInsertFresh(t: PivotTable, init: seq<SpendingRow>, row: SpendingRow)
    requires Pivots(t, init) && NoDuplicatePairs(init)
    requires row.category !in CellsOf(t, row.county)
    ensures PivotInsert(t, row).Ok?
    ensures NoDuplicatePairs(init + [row])
    ensures Pivots(PivotInsert(t, row).value, init + [row])
  {
    PivotInsertNoDuplicate(t, init, row);
    RowCountiesSnoc(init, row);
    PivotInsertCells(t, init, row);
    PivotInsertWitness(t, init, row);
  }

  /** Inserting a row whose pair is already present is a duplicate. */
  lemma PivotInsertRepeat(t: PivotTable, init: seq<SpendingRow>, row: SpendingRow)
    requires Pivots(t, init)
    requires row.category in CellsOf(t, row.county)
    ensures !NoDuplicatePairs(init + [row])
  {
    var rows := init + [row];
    var i :| 0 <= i < |init| && init[i].county == row.county && init[i].category == row.category;
    assert SamePair(rows[i], rows[|init|]);
  }

  /** The pivot succeeds exactly when no (county, category) pair repeats, and
      then it has one entry per county, one column per category, and every
      cell is the amount of the one row with that county and category. */
  lemma {:induction false} PivotSpec(rows: seq<SpendingRow>)
    ensures Pivot(rows).Ok? <==> NoDuplicatePairs(rows)
    ensures Pivot(rows).Ok? ==> Pivots(Pivot(rows).value, rows)
    decreases |rows|
  {
    if |rows| > 0 {
      var n := |rows| - 1;
      var init := rows[..n];
      var row := rows[n];
      assert rows == init + [row];
      PivotSpec(init);
      match Pivot(init)
      case Err(_) =>
        var i, j :| 0 <= i < j < n && SamePair(init[i], init[j]);
        assert SamePair(rows[i], rows[j]);
      case Ok(t) =>
        if row.category in CellsOf(t, row.county) {
          PivotInsertRepeat(t, init, row);
        } else {
          PivotInsertFresh(t, init, row);
        }
    }
  }

  /** The pivot's entries are exactly the counties of its rows. */
  lemma PivotKeys(rows: seq<SpendingRow>)
    requires Pivot(rows).Ok?
    ensures Pivot(rows).value.cells.Keys == RowCounties(rows)
    ensures Pivot(rows).value.columns == RowCategories(rows)
  {
    PivotSpec(rows);
  }

  // ---------------------------------------------------------------- merge

  /** A mobility row joined with its county's pivoted spending: one entry per
      pivot column, 0 where the county has no row for that category. */
  datatype CombinedRow = CombinedRow(mobility: MobilityRow, spending: map<Category, real>)

  datatype CombinedTable = CombinedTable(columns: set<Category>, rows: seq<CombinedRow>)

  /** fillna(0) on the pivoted table. */
  function FilledCell(t: PivotTable, county: Fips, k: Category): (v: real)
    requires county in t.cells
    ensures k in t.cells[county] ==> v == t.cells[county][k]
    ensures k !in t.cells[county] ==> v == 0.0
  {
    if k in t.cells[county] then t.cells[county][k] else 0.0
  }

  /** The county's filled row of the pivot: one entry per pivot column. */
  function SpendingColumns(t: PivotTable, county: Fips): (row: map<Category, real>)
    requires county in t.cells
    ensures row.Keys == t.columns
    ensures forall k :: k in t.columns ==> row[k] == FilledCell(t, county, k)
  {
    map k | k in t.columns :: FilledCell(t, county, k)
  }

  /** The inner join on the county code, in mobility order. */
  function MergeRows(mob: seq<MobilityRow>, t: PivotTable): (r: seq<CombinedRow>)
    ensures |r| <= |mob|
    ensures forall i :: 0 <= i < |r| ==>
      r[i].mobility.county in t.cells && r[i].spending == SpendingColumns(t, r[i].mobility.county)
    decreases |mob|
  {
    if |mob| == 0 then []
    else
      var head := MergeRows(mob[..|mob| - 1], t);
      var m := mob[|mob| - 1];
      if m.county in t.cells then head + [CombinedRow(m, SpendingColumns(t, m.county))] else head
  }

  /** The joined table; its columns are the pivot's. */
  function Merge(mob: seq<MobilityRow>, t: PivotTable): (c: CombinedTable)
    ensures c.columns == t.columns && |c.rows| <= |mob|
    ensures forall i :: 0 <= i < |c.rows| ==> c.rows[i].spending.Keys == c.columns
  {
    CombinedTable(t.columns, MergeRows(mob, t))
  }

  /** Every joined row is a mobility row whose county has spending data,
      carrying that county's filled spending columns. */
  lemma {:induction false} MergeSound(mob: seq<MobilityRow>, t: PivotTable)
    ensures var r := MergeRows(mob, t);
      && |r| <= |mob|
      && forall i :: 0 <= i < |r| ==>
           && r[i].mobility in mob
           && r[i].mobility.county in t.cells
           && r[i].spending == SpendingColumns(t, r[i].mobility.county)
    decreases |mob|
  {
    if |mob| > 0 {
      var n := |mob| - 1;
      MergeSound(mob[..n], t);
      assert forall m :: m in mob[..n] ==> m in mob;
    }
  }

  /** Every mobility row whose county has spending data is joined. */
  lemma {:induction false} MergeComplete(mob: seq<MobilityRow>, t: PivotTable, j: nat)
    requires j < |mob| && mob[j].county in t.cells
    ensures exists i :: 0 <= i < |MergeRows(mob, t)| && MergeRows(mob, t)[i].mobility == mob[j]
    decreases |mob|
  {
    var n := |mob| - 1;
    var head := MergeRows(mob[..n], t);
    var r := MergeRows(mob, t);
    assert forall i :: 0 <= i < |head| ==> r[i] == head[i];
    if j < n {
      MergeComplete(mob[..n], t, j);
      var i :| 0 <= i < |head| && head[i].mobility == mob[..n][j];
      assert r[i].mobility == mob[j];
    } else {
      assert r[|r| - 1].mobility == mob[j];
    }
  }

  /** When every county has spending data the join keeps every row, in order. */
  lemma {:induction false} MergeKeepsAll(mob: seq<MobilityRow>, t: PivotTable)
    requires forall j :: 0 <= j < |mob| ==> mob[j].county in t.cells
    ensures |MergeRows(mob, t)| == |mob|
    ensures forall i :: 0 <= i < |mob| ==> MergeRows(mob, t)[i].mobility == mob[i]
    decreases |mob|
  {
    if |mob| > 0 {
      var n := |mob| - 1;
      MergeKeepsAll(mob[..n], t);
    }
  }

  /** Every merged row carries exactly the pivot's columns. */
  ghost predicate WellFormedTable(c: CombinedTable)
  {
    forall i :: 0 <= i < |c.rows| ==> c.rows[i].spending.Keys == c.columns
  }

  lemma MergeWellFormed(mob: seq<MobilityRow>, t: PivotTable)
    ensures WellFormedTable(Merge(mob, t))
  {
    MergeSound(mob, t);
  }

  function CombinedCounties(rows: seq<CombinedRow>): set<Fips>
  {
    set i | 0 <= i < |rows| :: rows[i].mobility.county
  }

  /** Inner-join semantics: a county reaches the combined table exactly when
      it has a mobility row and at least one spending row. */
  lemma JoinMembership(mob: seq<MobilityRow>, spending: seq<SpendingRow>, c: Fips)
    requires Pivot(spending).Ok?
    ensures c in CombinedCounties(MergeRows(mob, Pivot(spending).value)) <==>
      (exists j :: 0 <= j < |mob| && mob[j].county == c) && c in RowCounties(spending)
  {
    var t := Pivot(spending).value;
    var r := MergeRows(mob, t);
    PivotKeys(spending);
    MergeSound(mob, t);
    if c in CombinedCounties(r) {
      var i :| 0 <= i < |r| && r[i].mobility.county == c;
      var j :| 0 <= j < |mob| && mob[j] == r[i].mobility;
    }
    if (exists j :: 0 <= j < |mob| && mob[j].county == c) && c in RowCounties(spending) {
      var j :| 0 <= j < |mob| && mob[j].county == c;
      MergeComplete(mob, t, j);
      var i :| 0 <= i < |r| && r[i].mobility == mob[j];
      assert r[i].mobility.county == c;
    }
  }

  /** A county that lacks a category some other county has keeps its place in
      the combined table, with 0 for that category. */
  lemma MissingCategoryIsZero(mob: seq<MobilityRow>, spending: seq<SpendingRow>, i: nat, k: Category)
    requires Pivot(spending).Ok?
    requires i < |MergeRows(mob, Pivot(spending).value)|
    requires k in RowCategories(spending)
    requires forall j :: 0 <= j < |spending| && spending[j].county == MergeRows(mob, Pivot(spending).value)[i].mobility.county
               ==> spending[j].category != k
    ensures k in MergeRows(mob, Pivot(spending).value)[i].spending
    ensures MergeRows(mob, Pivot(spending).value)[i].spending[k] == 0.0
  {
    var t := Pivot(spending).value;
    PivotSpec(spending);
    MergeSound(mob, t);
    var c := MergeRows(mob, t)[i].mobility.county;
    assert k !in t.cells[c];
  }

  // ---------------------------------------------------------------- features

  /** The spending columns among the six clustering features. */
  const FeatureCategories: set<Category> := {Restaurants, Retail, Entertainment}

  /** total_trips, member_ratio, avg_trip_duration_minutes, restaurants,
      retail, entertainment, in that order. */
  function FeatureVector(r: CombinedRow): seq<real>
    requires FeatureCategories <= r.spending.Keys
  {
    [r.mobility.totalTrips as real, r.mobility.memberRatio, r.mobility.avgTripDuration,
     r.spending[Restaurants], r.spending[Retail], r.spending[Entertainment]]
  }

  /** Selecting the feature columns fails, naming the absent ones, when a
      feature category occurs nowhere in the spending table; otherwise every
      combined row contributes exactly one feature vector. */
  function FeatureMatrix(c: CombinedTable): (r: Result<seq<seq<real>>>)
    requires WellFormedTable(c)
    ensures r.Err? <==> !(FeatureCategories <= c.columns)
    ensures r.Err? ==> r.error == MissingColumns(FeatureCategories - c.columns)
    ensures r.Ok? ==> |r.value| == |c.rows|
    ensures r.Ok? ==> forall i :: 0 <= i < |c.rows| ==>
      var row := c.rows[i];
      r.value[i] == [row.mobility.totalTrips as real, row.mobility.memberRatio, row.mobility.avgTripDuration,
                     row.spending[Restaurants], row.spending[Retail], row.spending[Entertainment]]
  {
    if FeatureCategories <= c.columns then
      Ok(seq(|c.rows|, i requires 0 <= i < |c.rows| => FeatureVector(c.rows[i])))
    else
      Err(MissingColumns(FeatureCategories - c.columns))
  }

  /** Pivot, then join, as the segmentation step assembles its input. */
  function AssembleFeatures(mob: seq<MobilityRow>, spending: seq<SpendingRow>): (r: Result<CombinedTable>)
    ensures r.Ok? <==> NoDuplicatePairs(spending)
    ensures r.Err? ==> r.error == DuplicateEntries
    ensures r.Ok? ==> Pivot(spending).Ok? && r.value == Merge(mob, Pivot(spending).value)
    ensures r.Ok? ==> WellFormedTable(r.value) && r.value.columns == RowCategories(spending)
  {
    PivotSpec(spending);
    match Pivot(spending)
    case Err(e) => Err(e)
    case Ok(t) => MergeWellFormed(mob, t); Ok(Merge(mob, t))
  }
}
