/** The gridded feature set of the rail-temperature forecast: an xarray
    dataset whose variables all have dimensions (time, x, y), built from the
    read GRIB fields and extended feature by feature (tools.py). */
module FeatureDataset {
  import opened Results
  import opened Grids
  import opened Gregorian
  import opened Features
  import GribReader

  const ForecastPeriodName: string := "forecast_period"
  const MonthName: string := "month"
  const DomainName: string := "T2"

  /** Every variable and coordinate has dimensions (time, x, y): one grid
      per time step, each of nx rows of ny cells. */
  class Dataset {
    var time: seq<int>
    /** The sizes of the dimensions x and y. */
    var nx: nat
    var ny: nat
    var lat: Stack
    var lon: Stack
    var vars: map<string, Stack>

    predicate Valid()
      reads this
    {
      && |lat| == |time| && |lon| == |time|
      && StackShape(lat, nx, ny) && StackShape(lon, nx, ny)
      && forall name | name in vars :: |vars[name]| == |time| && StackShape(vars[name], nx, ny)
    }

    /** `create_dataset`: the analysis step of the read field is dropped, so
        variable and time step i hold the read grid and time i + 1; the
        coordinates are the first message's grids at every step but the
        last, which holds zeros. */
    constructor (dataObject: GribReader.ReadData, paramName: string)
      requires dataObject.latitudes.Some? && dataObject.longitudes.Some?
      requires var la := dataObject.latitudes.value;
        |la| > 0 && GridShape(la, |la|, |la[0]|) && GridShape(dataObject.longitudes.value, |la|, |la[0]|)
      requires |dataObject.data| == |dataObject.dtime|
      requires var la := dataObject.latitudes.value; StackShape(DropFirst(dataObject.data), |la|, |la[0]|)
      ensures Valid()
      ensures nx == |dataObject.latitudes.value| && ny == |dataObject.latitudes.value[0]|
      ensures time == DropFirst(dataObject.dtime)
      ensures vars == map[paramName := DropFirst(dataObject.data)]
      ensures var la, lo := dataObject.latitudes.value, dataObject.longitudes.value;
        forall i | 0 <= i < |time| ::
          && lat[i] == (if i + 1 < |time| then la else Fill(|la|, |la[0]|, Val(0.0)))
          && lon[i] == (if i + 1 < |time| then lo else Fill(|la|, |la[0]|, Val(0.0)))
    {
      var la, lo := dataObject.latitudes.value, dataObject.longitudes.value;
      var newLat, newLon := ExpandArrayWithTimeDimension(|dataObject.dtime|, la, lo);
      time := DropFirst(dataObject.dtime);
      nx, ny := |la|, |la[0]|;
      lat := DropFirst(newLat);
      lon := DropFirst(newLon);
      vars := map[paramName := DropFirst(dataObject.data)];
    }

    /** `add_data_to_dataset`: the read field without its analysis step
        becomes variable paramName; nothing else changes. */
    method AddDataToDataset(dataObject: GribReader.ReadData, paramName: string)
      requires Valid() && |DropFirst(dataObject.data)| == |time| && StackShape(DropFirst(dataObject.data), nx, ny)
      modifies this`vars
      ensures Valid()
      ensures vars == old(vars)[paramName := DropFirst(dataObject.data)]
      ensures forall i | 0 <= i < |time| :: vars[paramName][i] == dataObject.data[i + 1]
    {
      vars := vars[paramName := DropFirst(dataObject.data)];
    }

    /** `calculate_forecast_period_dataset`: the whole hours from times[0]
        to times[i + 1], spread over the grid of the domain variable, at
        every step i before the last time; later steps stay zero. */
    method CalculateForecastPeriodDataset(times: seq<int>)
      requires Valid() && DomainName in vars
      requires |times| <= |vars[DomainName]| + 1
      modifies this`vars
      ensures Valid()
      ensures ForecastPeriodName in vars
      ensures forall name | name in old(vars) && name != ForecastPeriodName :: name in vars && vars[name] == old(vars)[name]
      ensures forall name | name in vars && name != ForecastPeriodName :: name in old(vars)
      ensures var domain := old(vars)[DomainName];
        && |vars[ForecastPeriodName]| == |domain|
        && StackShape(vars[ForecastPeriodName], Rows(domain), Cols(domain))
        && forall i | 0 <= i < |domain| ::
             vars[ForecastPeriodName][i]
             == Fill(Rows(domain), Cols(domain),
                     if i + 1 < |times| then Val(Trunc(PeriodHours(times[i + 1] - times[0])) as real) else Val(0.0))
    {
      var fp := ForecastPeriodsDataset(times);
      var hours := seq(|fp|, i requires 0 <= i < |fp| => fp[i] as real);
      var domain := vars[DomainName];
      var expanded := ExpandArrayWithDomain(hours, |domain|, Rows(domain), Cols(domain));
      vars := vars[ForecastPeriodName := expanded];
    }

    /** `calculate_angle_time_dataset`, its month feature: the calendar
        month of times[i + 1], spread over the grid of the domain variable,
        at every step i before the last time; later steps stay zero. */
    method CalculateMonthDataset(times: seq<int>)
      requires Valid() && DomainName in vars
      requires |times| <= |vars[DomainName]| + 1
      requires forall i | 0 <= i < |times| :: 0 <= times[i] < EndOfTime
      modifies this`vars
      ensures Valid()
      ensures MonthName in vars
      ensures forall name | name in old(vars) && name != MonthName :: name in vars && vars[name] == old(vars)[name]
      ensures forall name | name in vars && name != MonthName :: name in old(vars)
      ensures var domain := old(vars)[DomainName];
        && |vars[MonthName]| == |domain|
        && forall i | 0 <= i < |domain| ::
             vars[MonthName][i]
             == Fill(Rows(domain), Cols(domain),
                     if i + 1 < |times| then Val(FromMinutes(times[i + 1]).month as real) else Val(0.0))
    {
      var months := seq(|times|, i requires 0 <= i < |times| => FromMinutes(times[i]).month as real);
      var domain := vars[DomainName];
      var expanded := ExpandArrayWithDomain(months, |domain|, Rows(domain), Cols(domain));
      vars := vars[MonthName := expanded];
    }

    /** `calculate_hourly_values_dataset`: variable name becomes the
        decumulation of the accumulated stack data, whose grid k + 1 is
        paired with the forecast period held at step k. */
    method CalculateHourlyValuesDataset(data: Stack, name: string)
      requires Valid() && ForecastPeriodName in vars && StackShape(data, nx, ny)
      requires |data| == |vars[ForecastPeriodName]| + 1
      requires forall k | 0 <= k < |vars[ForecastPeriodName]| ::
        |vars[ForecastPeriodName][k]| > 0 && |vars[ForecastPeriodName][k][0]| > 0
        && vars[ForecastPeriodName][k][0][0].Val?
      modifies this`vars
      ensures Valid()
      ensures var fp := old(vars)[ForecastPeriodName];
        vars == old(vars)[name := seq(|fp|, k requires 0 <= k < |fp| => DatasetRate(data, PeriodsOf(fp), k))]
    {
      var period := PeriodList(vars[ForecastPeriodName]);
      var paramNew := Zeros(|data|, Rows(data), Cols(data));
      var i := 0;
      while i < |period|
        invariant 0 <= i <= |period| && |paramNew| == |data|
        invariant period == PeriodsOf(vars[ForecastPeriodName])
        invariant forall k | 0 <= k < i :: paramNew[k + 1] == DatasetRate(data, period, k)
      {
        var increment := Increment(period[i] as real);
        if i <= 0 {
          paramNew := paramNew[i + 1 := GridFirstRate(data[i + 1])];
          i := i + 1;
          continue;
        }
        paramNew := paramNew[i + 1 := GridRate(data[i + 1], data[i], increment)];
        i := i + 1;
      }
      ghost var fp := vars[ForecastPeriodName];
      assert paramNew[1..] == seq(|fp|, k requires 0 <= k < |fp| => DatasetRate(data, PeriodsOf(fp), k));
      vars := vars[name := paramNew[1..]];
    }

    /** `convert_percentage_to_zero_one`: every named variable divided by
        100, once per time it is named. */
    method ConvertPercentageToZeroOne(paramNames: seq<string>)
      requires Valid() && forall i | 0 <= i < |paramNames| :: paramNames[i] in vars
      modifies this`vars
      ensures Valid()
      ensures vars == ScaledByName(old(vars), paramNames)
    {
      var i := 0;
      while i < |paramNames|
        invariant 0 <= i <= |paramNames| && Valid()
        invariant vars == ScaledByName(old(vars), paramNames[..i])
      {
        assert paramNames[..i + 1][..i] == paramNames[..i];
        vars := vars[paramNames[i] := ScaleStack(vars[paramNames[i]], 1.0 / 100.0)];
        i := i + 1;
      }
      assert paramNames[..|paramNames|] == paramNames;
    }
  }

  /** The columns the forecast model is fed, in the order it expects them. */
  const DomainColumns: seq<string> := ["forecast_period", "T2", "D2", "SKT", "T_925", "WS", "LCC", "MCC",
                                        "sinhour", "coshour", "sinmonth", "cosmonth", "SRR1h", "STR1h", "month"]

  /** A table of named columns, in order, as the model receives it. */
  type Table = seq<(string, seq<Cell>)>

  /** Step i of every model column is present, and the flattened grids
      are of one length (pandas refuses columns of different lengths). */
  predicate Selectable(vars: map<string, Stack>, i: nat) {
    && (forall j | 0 <= j < |DomainColumns| :: DomainColumns[j] in vars && i < |vars[DomainColumns[j]]|)
    && forall j | 0 <= j < |DomainColumns| ::
         |Flatten(vars[DomainColumns[j]][i])| == |Flatten(vars[DomainColumns[0]][i])|
  }

  /** `select_domain_data_from_ds`: step i of each model column, flattened,
      under the column's name and in the model's order. */
  function SelectDomainData(vars: map<string, Stack>, i: nat): (df: Table)
    requires Selectable(vars, i)
    ensures |df| == |DomainColumns|
    ensures forall j | 0 <= j < |df| :: df[j].0 == DomainColumns[j]
  {
    seq(|DomainColumns|, j requires 0 <= j < |DomainColumns| =>
      (DomainColumns[j], Flatten(vars[DomainColumns[j]][i])))
  }

  /** Row r * ny + c of the table is grid cell (r, c) of step i, in every
      column. */
  lemma SelectedCell(vars: map<string, Stack>, i: nat, j: nat, r: nat, c: nat)
    requires Selectable(vars, i) && j < |DomainColumns|
    requires Uniform(vars[DomainColumns[j]])
    requires r < Rows(vars[DomainColumns[j]]) && c < Cols(vars[DomainColumns[j]])
    ensures var g := vars[DomainColumns[j]];
      && r * Cols(g) + c < |SelectDomainData(vars, i)[j].1|
      && SelectDomainData(vars, i)[j].1[r * Cols(g) + c] == g[i][r][c]
  {
    var g := vars[DomainColumns[j]];
    FlattenAt(g[i], Rows(g), Cols(g), r, c);
  }

  /** Each model column of a valid dataset is present at every time step
      with grids of the dataset's shape, so each step can be selected: the
      flattened grids all have nx * ny cells. */
  lemma ValidSelectable(ds: Dataset)
    requires ds.Valid()
    requires forall j | 0 <= j < |DomainColumns| :: DomainColumns[j] in ds.vars
    ensures forall i | 0 <= i < |ds.time| :: Selectable(ds.vars, i)
    ensures forall i, j | 0 <= i < |ds.time| && 0 <= j < |DomainColumns| ::
      |Flatten(ds.vars[DomainColumns[j]][i])| == ds.nx * ds.ny
  {
    forall i, j | 0 <= i < |ds.time| && 0 <= j < |DomainColumns|
      ensures |Flatten(ds.vars[DomainColumns[j]][i])| == ds.nx * ds.ny
    {
      FlattenLength(ds.vars[DomainColumns[j]][i], ds.nx, ds.ny);
    }
  }

  /** Why the forecast for the domain fails: the model's output for a step
      does not fill a grid of the field's shape (numpy refuses the
      reshape). */
  datatype DomainError = PredictionSize(step: nat, size: nat)

  /** `generate_ML_forecast_domain`: for every time step of the dataset the
      model's prediction, reshaped to the grid of data; the remaining grids
      of data's shape stay zero.  The model is a parameter. */
  method GenerateMLForecastDomain(ds: Dataset, predict: Table -> seq<real>, data: Stack)
      returns (r: Result<Stack, DomainError>)
    requires ds.Valid() && Uniform(data) && |ds.time| <= |data|
    requires forall j | 0 <= j < |DomainColumns| :: DomainColumns[j] in ds.vars
    ensures forall i | 0 <= i < |ds.time| :: Selectable(ds.vars, i)
    ensures r.Success? <==> forall i | 0 <= i < |ds.time| :: |predict(SelectDomainData(ds.vars, i))| == Rows(data) * Cols(data)
    ensures r.Success? ==>
      && |r.value| == |data| && StackShape(r.value, Rows(data), Cols(data))
      && forall i | 0 <= i < |data| ::
           r.value[i] == if i < |ds.time|
             then Reshape(Vals(predict(SelectDomainData(ds.vars, i))), Rows(data), Cols(data))
             else Fill(Rows(data), Cols(data), Val(0.0))
    ensures r.Failure? ==>
      && r.error.step < |ds.time|
      && |predict(SelectDomainData(ds.vars, r.error.step))| != Rows(data) * Cols(data)
      && r.error.size == |predict(SelectDomainData(ds.vars, r.error.step))|
      && forall i | 0 <= i < r.error.step :: |predict(SelectDomainData(ds.vars, i))| == Rows(data) * Cols(data)
  {
    ValidSelectable(ds);
    var rows, cols := Rows(data), Cols(data);
    var railTempFcst := Zeros(|data|, rows, cols);
    var i := 0;
    while i < |ds.time|
      invariant 0 <= i <= |ds.time| && |railTempFcst| == |data| && StackShape(railTempFcst, rows, cols)
      invariant forall k | 0 <= k < i :: |predict(SelectDomainData(ds.vars, k))| == rows * cols
      invariant forall k | 0 <= k < |data| ::
        railTempFcst[k] == if k < i
          then Reshape(Vals(predict(SelectDomainData(ds.vars, k))), rows, cols)
          else Fill(rows, cols, Val(0.0))
    {
      var df := SelectDomainData(ds.vars, i);
      var tempFcst := predict(df);
      if |tempFcst| != rows * cols {
        return Failure(PredictionSize(i, |tempFcst|));
      }
      railTempFcst := railTempFcst[i := Reshape(Vals(tempFcst), rows, cols)];
      i := i + 1;
    }
    return Success(railTempFcst);
  }

  /** The forecast period held at each step, in whole hours: `int` of the
      first cell. */
  function PeriodsOf(fp: Stack): (period: seq<int>)
    requires forall k | 0 <= k < |fp| :: |fp[k]| > 0 && |fp[k][0]| > 0 && fp[k][0][0].Val?
    ensures |period| == |fp|
  {
    seq(|fp|, k requires 0 <= k < |fp| => Trunc(fp[k][0][0].v))
  }

  /** `list(df['forecast_period'].values[:, 0, 0])`, read into whole hours. */
  method PeriodList(fp: Stack) returns (period: seq<int>)
    requires forall k | 0 <= k < |fp| :: |fp[k]| > 0 && |fp[k][0]| > 0 && fp[k][0][0].Val?
    ensures period == PeriodsOf(fp)
  {
    period := [];
    var k := 0;
    while k < |fp|
      invariant 0 <= k <= |fp| && period == PeriodsOf(fp)[..k]
    {
      period := period + [Trunc(fp[k][0][0].v)];
      k := k + 1;
    }
  }

  /** The variables after dividing each named one by 100, in order. */
  function ScaledByName(vars: map<string, Stack>, names: seq<string>): (r: map<string, Stack>)
    requires forall i | 0 <= i < |names| :: names[i] in vars
    ensures r.Keys == vars.Keys
  {
    if names == [] then vars
    else
      var n := |names| - 1;
      var prev := ScaledByName(vars, names[..n]);
      prev[names[n] := ScaleStack(prev[names[n]], 1.0 / 100.0)]
  }

  /** Dividing by 100 keeps the number of steps, and with no name repeated
      each named variable is divided once and every other is unchanged. */
  lemma {:induction false} ScaledByNameMeaning(vars: map<string, Stack>, names: seq<string>)
    requires forall i | 0 <= i < |names| :: names[i] in vars
    requires forall i, j | 0 <= i < j < |names| :: names[i] != names[j]
    ensures forall name | name in vars ::
      && |ScaledByName(vars, names)[name]| == |vars[name]|
      && ScaledByName(vars, names)[name] == (if name in names then ScaleStack(vars[name], 1.0 / 100.0) else vars[name])
  {
    if names != [] {
      var n := |names| - 1;
      ScaledByNameMeaning(vars, names[..n]);
      forall name | name in vars
        ensures ScaledByName(vars, names)[name]
             == (if name in names then ScaleStack(vars[name], 1.0 / 100.0) else vars[name])
      {
        if name == names[n] {
          assert name !in names[..n];
        } else {
          assert name in names <==> name in names[..n];
        }
      }
    }
  }
}
