/** The single-point variant of the feature pipeline: a pandas table with
    one row per time step, read from a point forecast (tools.py). */
module FeatureFrame {
  import opened Grids
  import opened Features

  const ForecastPeriodColumn: string := "forecast_period"

  /** Every column has one entry per row. */
  predicate Rectangular(columns: map<string, seq<Cell>>, rows: nat) {
    forall name | name in columns :: |columns[name]| == rows
  }

  /** The rows 1 to i of col as one pass of the decumulation leaves them,
      the other rows as they were. */
  function PartialPass(col: seq<Cell>, orig: seq<Cell>, fp: seq<Cell>, i: nat): (r: seq<Cell>)
    requires |col| == |orig| == |fp|
    ensures |r| == |col|
    ensures forall j | 0 <= j < |col| :: r[j] == if 1 <= j <= i then FrameRow(col, orig, fp, j) else col[j]
  {
    seq(|col|, j requires 0 <= j < |col| => if 1 <= j <= i then FrameRow(col, orig, fp, j) else col[j])
  }

  /** The columns after a pass over each of names in turn; every pass reads
      the previous values from orig, the copy taken before the first. */
  function FramePasses(columns: map<string, seq<Cell>>, orig: map<string, seq<Cell>>, names: seq<string>, rows: nat)
    : (r: map<string, seq<Cell>>)
    requires Rectangular(columns, rows) && Rectangular(orig, rows) && ForecastPeriodColumn in columns
    requires forall i | 0 <= i < |names| :: names[i] in columns && names[i] in orig && names[i] != ForecastPeriodColumn
    ensures r.Keys == columns.Keys && Rectangular(r, rows)
    ensures r[ForecastPeriodColumn] == columns[ForecastPeriodColumn]
  {
    if names == [] then columns
    else
      var n := |names| - 1;
      var prev := FramePasses(columns, orig, names[..n], rows);
      prev[names[n] := FramePass(prev[names[n]], orig[names[n]], prev[ForecastPeriodColumn])]
  }

  /** With no name repeated, each named column is one pass over its own
      original values, whose row 0 is kept; every other column, the forecast
      period among them, is unchanged. */
  lemma {:induction false} FramePassesMeaning(columns: map<string, seq<Cell>>, names: seq<string>, rows: nat)
    requires Rectangular(columns, rows) && ForecastPeriodColumn in columns
    requires forall i | 0 <= i < |names| :: names[i] in columns && names[i] != ForecastPeriodColumn
    requires forall i, j | 0 <= i < j < |names| :: names[i] != names[j]
    ensures forall name | name in columns ::
      FramePasses(columns, columns, names, rows)[name]
      == if name in names
         then FramePass(columns[name], columns[name], columns[ForecastPeriodColumn])
         else columns[name]
    ensures forall name | name in columns && rows > 0 ::
      FramePasses(columns, columns, names, rows)[name][0] == columns[name][0]
  {
    if names != [] {
      var n := |names| - 1;
      FramePassesMeaning(columns, names[..n], rows);
      var after := FramePasses(columns, columns, names, rows);
      forall name | name in columns
        ensures after[name]
             == if name in names
                then FramePass(columns[name], columns[name], columns[ForecastPeriodColumn])
                else columns[name]
      {
        if name == names[n] {
          assert name !in names[..n];
        } else {
          assert name in names <==> name in names[..n];
        }
      }
    }
  }

  class DataFrame {
    var time: seq<int>
    var columns: map<string, seq<Cell>>

    predicate Valid()
      reads this
    {
      Rectangular(columns, |time|)
    }

    constructor (time: seq<int>, columns: map<string, seq<Cell>>)
      requires Rectangular(columns, |time|)
      ensures Valid() && this.time == time && this.columns == columns
    {
      this.time := time;
      this.columns := columns;
    }

    /** `calculate_forecast_period_dataframe`: a new column holding the
        hours, with their fraction, from the first row's time to each row's. */
    method CalculateForecastPeriodDataframe()
      requires Valid() && ForecastPeriodColumn !in columns
      modifies this`columns
      ensures Valid()
      ensures columns.Keys == old(columns).Keys + {ForecastPeriodColumn}
      ensures forall name | name in old(columns) :: columns[name] == old(columns)[name]
      ensures forall i | 0 <= i < |time| :: columns[ForecastPeriodColumn][i] == Val((time[i] - time[0]) as real / 60.0)
    {
      var forecastPeriod := ForecastPeriodsDataframe(time);
      columns := columns[ForecastPeriodColumn := Vals(forecastPeriod)];
    }

    /** `calculate_hourly_values_dataframe`: each named column in turn,
        rows 1 onwards, becomes the decumulation of its values against the
        values copied before the first column was touched. */
    method CalculateHourlyValuesDataframe(params: seq<string>)
      requires Valid() && ForecastPeriodColumn in columns
      requires forall i | 0 <= i < |params| :: params[i] in columns && params[i] != ForecastPeriodColumn
      modifies this`columns
      ensures Valid()
      ensures columns == FramePasses(old(columns), old(columns), params, |time|)
    {
      var copy := columns;
      var p := 0;
      while p < |params|
        invariant 0 <= p <= |params| && Valid()
        invariant columns == FramePasses(copy, copy, params[..p], |time|)
      {
        assert params[..p + 1][..p] == params[..p];
        DecumulateColumn(params[p], copy);
        p := p + 1;
      }
      assert params[..|params|] == params;
    }

    /** One pass of the inner loop: rows 1 onwards of column param. */
    method DecumulateColumn(param: string, copy: map<string, seq<Cell>>)
      requires Valid() && param in columns && ForecastPeriodColumn in columns && param != ForecastPeriodColumn
      requires param in copy && |copy[param]| == |time|
      modifies this`columns
      ensures Valid()
      ensures columns == old(columns)[param := FramePass(old(columns)[param], copy[param], old(columns)[ForecastPeriodColumn])]
    {
      var paramData := columns[param];
      var fp := columns[ForecastPeriodColumn];
      var orig := copy[param];
      var i := 0;
      assert PartialPass(paramData, orig, fp, 0) == paramData;
      while i < |fp| - 1
        invariant 0 <= i && (i == 0 || i <= |fp| - 1)
        invariant columns == old(columns)[param := PartialPass(paramData, orig, fp, i)]
      {
        var increment := IncrementOf(fp[i]);
        if i <= 0 {
          columns := columns[param := columns[param][i + 1 := FirstRate(paramData[i + 1])]];
          assert columns[param] == PartialPass(paramData, orig, fp, i + 1);
          i := i + 1;
          continue;
        }
        columns := columns[param := columns[param][i + 1 := Rate(paramData[i + 1], orig[i], increment)]];
        assert columns[param] == PartialPass(paramData, orig, fp, i + 1);
        i := i + 1;
      }
      assert PartialPass(paramData, orig, fp, i) == FramePass(paramData, orig, fp);
    }
  }

  /** `select_only_forecast_from_df`: the table without its first row, the
      analysis time; row i of the result is row i + 1 of df. */
  method SelectOnlyForecastFromDf(df: DataFrame) returns (r: DataFrame)
    requires df.Valid()
    ensures fresh(r) && r.Valid()
    ensures r.time == DropFirst(df.time)
    ensures r.columns.Keys == df.columns.Keys
    ensures forall name | name in df.columns :: r.columns[name] == DropFirst(df.columns[name])
  {
    var columns := map name | name in df.columns :: DropFirst(df.columns[name]);
    r := new DataFrame(DropFirst(df.time), columns);
  }
}
