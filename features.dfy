/** The grid arithmetic of tools.py shared by the gridded and the
    single-point pipelines: forecast periods in hours, the accumulation
    cadence, the decumulation of accumulated fields into rates, the 9999
    missing-value sentinel, the percentage scaling and the two broadcasting
    helpers. */
module Features {
  import opened Grids
  import opened Sorting
  import GribReader

  /** The value the input files use for "no data". */
  const MissingValue: real := 9999.0

  const SecondsPerHour: real := 3600.0

  /** `int(x)`: x truncated toward zero. */
  function Trunc(x: real): (n: int)
    ensures x >= 0.0 ==> n as real <= x < n as real + 1.0
    ensures x < 0.0 ==> n as real - 1.0 < x <= n as real
  {
    if x >= 0.0 then x.Floor else -((-x).Floor)
  }

  /** `diff.days * 24 + diff.seconds / 3600` for a time difference of the
      given number of minutes; Python normalises a `timedelta` to a floored
      number of days and a non-negative remainder of seconds. */
  function PeriodHours(minutes: int): (h: real)
    ensures h == minutes as real / 60.0
  {
    var days := minutes / 1440;
    var seconds := minutes % 1440 * 60;
    assert minutes == days * 1440 + seconds / 60;
    days as real * 24.0 + seconds as real / 3600.0
  }

  /** Forecast periods from sorted times are whole hours that never
      decrease, starting at zero. */
  lemma {:induction false} PeriodHoursMonotone(a: int, b: int)
    requires 0 <= a <= b
    ensures 0 <= Trunc(PeriodHours(a)) <= Trunc(PeriodHours(b))
    ensures 0.0 <= PeriodHours(a) <= PeriodHours(b)
    ensures Trunc(PeriodHours(a)) == a / 60
  {
    var h := Trunc(PeriodHours(a));
    assert h as real * 60.0 <= a as real < h as real * 60.0 + 60.0;
    assert h * 60 <= a < h * 60 + 60;
  }

  /** `int(diff.days * 24 + diff.seconds / 3600)` for each time against the
      first: the dataset's forecast periods. */
  method ForecastPeriodsDataset(times: seq<int>) returns (fp: seq<int>)
    ensures |fp| == |times|
    ensures forall i | 0 <= i < |times| :: fp[i] == Trunc(PeriodHours(times[i] - times[0]))
  {
    fp := [];
    var i := 0;
    while i < |times|
      invariant 0 <= i <= |times| && |fp| == i
      invariant forall j | 0 <= j < i :: fp[j] == Trunc(PeriodHours(times[j] - times[0]))
    {
      fp := fp + [Trunc(PeriodHours(times[i] - times[0]))];
      i := i + 1;
    }
  }

  /** `diff.days * 24 + diff.seconds / 3600` for each time against the
      first, kept as a fraction of hours: the dataframe's forecast periods. */
  method ForecastPeriodsDataframe(times: seq<int>) returns (fp: seq<real>)
    ensures |fp| == |times|
    ensures forall i | 0 <= i < |times| :: fp[i] == (times[i] - times[0]) as real / 60.0
  {
    fp := [];
    var i := 0;
    while i < |times|
      invariant 0 <= i <= |times| && |fp| == i
      invariant forall j | 0 <= j < i :: fp[j] == (times[j] - times[0]) as real / 60.0
    {
      fp := fp + [PeriodHours(times[i] - times[0])];
      i := i + 1;
    }
  }

  /** For times in non-decreasing order the dataset's forecast periods are
      the whole hours elapsed since the first time: zero first, never
      negative, never decreasing. */
  lemma ForecastPeriodsSorted(times: seq<int>)
    requires NonDecreasing(times)
    ensures forall i | 0 <= i < |times| :: Trunc(PeriodHours(times[i] - times[0])) == (times[i] - times[0]) / 60 >= 0
    ensures |times| > 0 ==> Trunc(PeriodHours(times[0] - times[0])) == 0
    ensures forall i, j | 0 <= i <= j < |times| ::
      Trunc(PeriodHours(times[i] - times[0])) <= Trunc(PeriodHours(times[j] - times[0]))
  {
    forall i, j | 0 <= i <= j < |times|
      ensures 0 <= Trunc(PeriodHours(times[i] - times[0])) <= Trunc(PeriodHours(times[j] - times[0]))
      ensures Trunc(PeriodHours(times[i] - times[0])) == (times[i] - times[0]) / 60
    {
      PeriodHoursMonotone(times[i] - times[0], times[j] - times[0]);
    }
  }

  /** The accumulation window, in hours, of a field at forecast period p:
      hourly below 90 hours, three-hourly below 144 hours, six-hourly after. */
  function Increment(p: real): (inc: int)
    ensures inc == 1 || inc == 3 || inc == 6
    ensures inc == 1 <==> p < 90.0
    ensures inc == 6 <==> p >= 144.0
  {
    if 90.0 <= p < 144.0 then 3 else if p >= 144.0 then 6 else 1
  }

  /** A longer forecast period never has a shorter window. */
  lemma IncrementMonotone(p: real, q: real)
    requires p <= q
    ensures Increment(p) <= Increment(q)
  {
  }

  /** The window of a period held in a cell, compared as floats compare: a
      missing period fails both comparisons and keeps the hourly window. */
  function IncrementOf(c: Cell): (inc: int)
    ensures inc == 1 || inc == 3 || inc == 6
    ensures c.Missing? ==> inc == 1
  {
    match c
    case Val(p) => Increment(p)
    case Missing => 1
  }

  /** `cur / 3600`: the rate of the first step, whose value has accumulated
      since the analysis time. */
  function FirstRate(cur: Cell): (r: Cell)
    ensures r.Val? <==> cur.Val?
    ensures r.Val? ==> r.v * SecondsPerHour == cur.v
  {
    match cur
    case Val(a) => Val(a / SecondsPerHour)
    case Missing => Missing
  }

  /** `(cur - prev) / (inc * 3600)`: the mean rate over a window of inc
      hours; missing when either value is. */
  function Rate(cur: Cell, prev: Cell, inc: int): (r: Cell)
    requires inc > 0
    ensures r.Val? <==> cur.Val? && prev.Val?
    ensures r.Val? ==> r.v * (inc as real * SecondsPerHour) == cur.v - prev.v
  {
    if cur.Val? && prev.Val? then Val((cur.v - prev.v) / (inc as real * SecondsPerHour)) else Missing
  }

  /** FirstRate on every cell of a grid. */
  function GridFirstRate(cur: Grid): (g: Grid)
    ensures |g| == |cur|
    ensures forall r | 0 <= r < |g| :: |g[r]| == |cur[r]|
    ensures forall r, c | 0 <= r < |g| && 0 <= c < |g[r]| :: g[r][c] == FirstRate(cur[r][c])
  {
    seq(|cur|, r requires 0 <= r < |cur| => seq(|cur[r]|, c requires 0 <= c < |cur[r]| => FirstRate(cur[r][c])))
  }

  /** Rate on every cell of two grids of the same shape. */
  function GridRate(cur: Grid, prev: Grid, inc: int): (g: Grid)
    requires inc > 0 && |prev| == |cur| && forall r | 0 <= r < |cur| :: |prev[r]| == |cur[r]|
    ensures |g| == |cur|
    ensures forall r | 0 <= r < |g| :: |g[r]| == |cur[r]|
    ensures forall r, c | 0 <= r < |g| && 0 <= c < |g[r]| :: g[r][c] == Rate(cur[r][c], prev[r][c], inc)
  {
    seq(|cur|, r requires 0 <= r < |cur| =>
      seq(|cur[r]|, c requires 0 <= c < |cur[r]| => Rate(cur[r][c], prev[r][c], inc)))
  }

  /** What a rate amounts to over a window of inc hours. */
  function Amount(rate: real, inc: int): real {
    rate * (inc as real * SecondsPerHour)
  }

  /** The sum of rate times window over the first steps of one cell: what
      the rates add up to again. */
  function Reaccumulate(rates: seq<real>, incs: seq<int>): real
    requires |rates| == |incs|
  {
    if rates == [] then 0.0
    else
      var n := |rates| - 1;
      Reaccumulate(rates[..n], incs[..n]) + Amount(rates[n], incs[n])
  }

  /** Decumulation is undone by re-accumulation: when the first rate is the
      first value over an hour and each later rate is the difference of
      consecutive values over its window, the rates times their windows add
      up to the last value. */
  lemma {:induction false} ReaccumulateTelescopes(acc: seq<real>, rates: seq<real>, incs: seq<int>)
    requires |rates| == |incs| == |acc| > 0 && incs[0] == 1
    requires Amount(rates[0], 1) == acc[0]
    requires forall j | 1 <= j < |rates| :: Amount(rates[j], incs[j]) == acc[j] - acc[j - 1]
    ensures Reaccumulate(rates, incs) == acc[|acc| - 1]
  {
    var n := |rates| - 1;
    if n == 0 {
      assert rates[..0] == [];
    } else {
      ReaccumulateTelescopes(acc[..n], rates[..n], incs[..n]);
    }
  }

  /** `s[1:]`: everything after the analysis step. */
  function DropFirst<T>(s: seq<T>): (r: seq<T>)
    ensures |r| == if s == [] then 0 else |s| - 1
    ensures forall i | 0 <= i < |r| :: r[i] == s[i + 1]
  {
    if s == [] then [] else s[1..]
  }

  /** The grid shape of a stack, read off its first grid. */
  function Rows(s: Stack): nat {
    if s == [] then 0 else |s[0]|
  }

  function Cols(s: Stack): nat {
    if s == [] || s[0] == [] then 0 else |s[0][0]|
  }

  /** Every grid of s has the shape of the first: s is a numpy array. */
  predicate Uniform(s: Stack) {
    StackShape(s, Rows(s), Cols(s))
  }

  /** The number held in a cell, zero for a missing one. */
  function Value(c: Cell): real {
    if c.Val? then c.v else 0.0
  }

  /** The window, in hours, of dataset step k: an hour for the first step,
      otherwise the cadence at the step's own forecast period, which is the
      window's end. */
  function DatasetWindow(period: seq<int>, k: nat): (inc: int)
    requires k < |period|
    ensures inc == 1 || inc == 3 || inc == 6
  {
    if k == 0 then 1 else Increment(period[k] as real)
  }

  /** Step k of the dataset decumulation of the accumulated stack data, whose
      grid k + 1 belongs to forecast period period[k]. */
  function DatasetRate(data: Stack, period: seq<int>, k: nat): (g: Grid)
    requires Uniform(data) && |data| == |period| + 1 && k < |period|
    ensures GridShape(g, Rows(data), Cols(data))
    ensures forall r, c | 0 <= r < Rows(data) && 0 <= c < Cols(data) ::
      && (g[r][c].Val? <==> data[k + 1][r][c].Val? && (k == 0 || data[k][r][c].Val?))
      && (g[r][c].Val? && k == 0 ==> g[r][c].v * SecondsPerHour == data[1][r][c].v)
      && (g[r][c].Val? && k > 0 ==>
            g[r][c].v * (DatasetWindow(period, k) as real * SecondsPerHour) == data[k + 1][r][c].v - data[k][r][c].v)
  {
    if k == 0 then GridFirstRate(data[1])
    else GridRate(data[k + 1], data[k], Increment(period[k] as real))
  }

  /** The rates of cell (r, c) over the first n dataset steps, and their
      windows. */
  function DatasetCellRates(data: Stack, period: seq<int>, r: nat, c: nat, n: nat): (rates: seq<real>)
    requires Uniform(data) && |data| == |period| + 1 && n <= |period| && r < Rows(data) && c < Cols(data)
    ensures |rates| == n
  {
    seq(n, k requires 0 <= k < n => Value(DatasetRate(data, period, k)[r][c]))
  }

  function DatasetWindows(period: seq<int>, n: nat): (incs: seq<int>)
    requires n <= |period|
    ensures |incs| == n
  {
    seq(n, k requires 0 <= k < n => DatasetWindow(period, k))
  }

  /** What dataset step j makes of cell (r, c), as a sum over its window. */
  lemma DatasetStep(data: Stack, period: seq<int>, r: nat, c: nat, j: nat)
    requires Uniform(data) && |data| == |period| + 1 && j < |period| && r < Rows(data) && c < Cols(data)
    requires data[j + 1][r][c].Val? && (j > 0 ==> data[j][r][c].Val?)
    ensures Amount(Value(DatasetRate(data, period, j)[r][c]), DatasetWindow(period, j))
         == data[j + 1][r][c].v - (if j == 0 then 0.0 else data[j][r][c].v)
  {
  }

  /** The dataset decumulation loses nothing: where a cell has a value at
      every step up to k + 1, its first k + 1 rates times their windows add
      up to the accumulated value at step k + 1. */
  lemma DatasetReaccumulates(data: Stack, period: seq<int>, r: nat, c: nat, k: nat)
    requires Uniform(data) && |data| == |period| + 1 && k < |period| && r < Rows(data) && c < Cols(data)
    requires forall j | 1 <= j <= k + 1 :: data[j][r][c].Val?
    ensures Reaccumulate(DatasetCellRates(data, period, r, c, k + 1), DatasetWindows(period, k + 1))
         == data[k + 1][r][c].v
  {
    var rates := DatasetCellRates(data, period, r, c, k + 1);
    var incs := DatasetWindows(period, k + 1);
    var acc := seq(k + 1, j requires 0 <= j <= k => data[j + 1][r][c].v);
    DatasetStep(data, period, r, c, 0);
    assert Amount(rates[0], 1) == acc[0];
    forall j | 1 <= j < k + 1
      ensures Amount(rates[j], incs[j]) == acc[j] - acc[j - 1]
    {
      assert rates[j] == Value(DatasetRate(data, period, j)[r][c]) && incs[j] == DatasetWindow(period, j);
      assert acc[j] == data[j + 1][r][c].v && acc[j - 1] == data[j][r][c].v;
      DatasetStep(data, period, r, c, j);
    }
    ReaccumulateTelescopes(acc, rates, incs);
  }

  /** Row i of a dataframe column after one pass of the decumulation: row 0
      is kept, row 1 is a first rate, and row i > 1 is the rate from the
      original row i - 1 over the cadence at forecast period fp[i - 1], the
      window's start. */
  function FrameRow(col: seq<Cell>, orig: seq<Cell>, fp: seq<Cell>, i: nat): Cell
    requires |col| == |orig| == |fp| && i < |col|
  {
    if i == 0 then col[0]
    else if i == 1 then FirstRate(col[1])
    else Rate(col[i], orig[i - 1], IncrementOf(fp[i - 1]))
  }

  /** The column after one pass. */
  function FramePass(col: seq<Cell>, orig: seq<Cell>, fp: seq<Cell>): (r: seq<Cell>)
    requires |col| == |orig| == |fp|
    ensures |r| == |col| && forall i | 0 <= i < |col| :: r[i] == FrameRow(col, orig, fp, i)
  {
    seq(|col|, i requires 0 <= i < |col| => FrameRow(col, orig, fp, i))
  }

  /** The window, in hours, of dataframe row i > 0. */
  function FrameWindow(fp: seq<Cell>, i: nat): (inc: int)
    requires 0 < i < |fp|
    ensures inc == 1 || inc == 3 || inc == 6
  {
    if i == 1 then 1 else IncrementOf(fp[i - 1])
  }

  /** What one pass makes of row i > 1, as a sum over its window. */
  lemma FrameStep(col: seq<Cell>, fp: seq<Cell>, i: nat)
    requires |col| == |fp| && 1 < i < |col| && col[i].Val? && col[i - 1].Val?
    ensures Amount(Value(FramePass(col, col, fp)[i]), FrameWindow(fp, i)) == col[i].v - col[i - 1].v
  {
  }

  /** The dataframe decumulation loses nothing either: where a column has
      values in rows 1 to k, the rates of those rows times their windows add
      up to the accumulated value in row k. */
  lemma FrameReaccumulates(col: seq<Cell>, fp: seq<Cell>, k: nat)
    requires |col| == |fp| && 0 < k < |col|
    requires forall j | 1 <= j <= k :: col[j].Val?
    ensures var after := FramePass(col, col, fp);
      Reaccumulate(seq(k, j requires 0 <= j < k => Value(after[j + 1])),
                   seq(k, j requires 0 <= j < k => FrameWindow(fp, j + 1)))
      == col[k].v
  {
    var after := FramePass(col, col, fp);
    var rates := seq(k, j requires 0 <= j < k => Value(after[j + 1]));
    var incs := seq(k, j requires 0 <= j < k => FrameWindow(fp, j + 1));
    var acc := seq(k, j requires 0 <= j < k => col[j + 1].v);
    assert rates[0] == Value(FirstRate(col[1])) && incs[0] == 1;
    assert Amount(rates[0], 1) == acc[0];
    forall j | 1 <= j < k
      ensures Amount(rates[j], incs[j]) == acc[j] - acc[j - 1]
    {
      assert rates[j] == Value(after[j + 1]) && incs[j] == FrameWindow(fp, j + 1);
      assert acc[j] == col[j + 1].v && acc[j - 1] == col[j].v;
      FrameStep(col, fp, j + 1);
    }
    ReaccumulateTelescopes(acc, rates, incs);
  }

  /** The cadence thresholds are whole hours, so truncating a non-negative
      period to whole hours does not change its window. */
  lemma IncrementWholeHours(h: real)
    requires h >= 0.0
    ensures Increment(Trunc(h) as real) == Increment(h)
  {
  }

  /** The dataset picks a step's window at the step's end and the dataframe
      at its start, so for times in order the dataframe's window is never the
      longer one; at a cadence change the two differ. */
  lemma WindowVariants(times: seq<int>, k: nat)
    requires NonDecreasing(times) && 0 < k && k + 1 < |times|
    ensures Increment(PeriodHours(times[k] - times[0]))
         <= Increment(Trunc(PeriodHours(times[k + 1] - times[0])) as real)
  {
    PeriodHoursMonotone(times[k] - times[0], times[k + 1] - times[0]);
    IncrementWholeHours(PeriodHours(times[k + 1] - times[0]));
    IncrementMonotone(PeriodHours(times[k] - times[0]), PeriodHours(times[k + 1] - times[0]));
  }

  /** Hourly times at 89 and 90 hours: the step ending at 90 hours is a
      three-hour window for the dataset and a one-hour window for the
      dataframe. */
  lemma WindowVariantsDiffer()
    ensures var times := [0, 89 * 60, 90 * 60];
      && Increment(Trunc(PeriodHours(times[2] - times[0])) as real) == 3
      && Increment(PeriodHours(times[1] - times[0])) == 1
  {
  }

  /** The sentinel rule of `mask_missing_data`: 9999 becomes missing. */
  function MaskCell(c: Cell): Cell {
    if c == Val(MissingValue) then Missing else c
  }

  /** MaskCell on every cell of every grid. */
  function MaskStack(s: Stack): (m: Stack)
    ensures |m| == |s|
    ensures forall t | 0 <= t < |s| :: |m[t]| == |s[t]| && forall r | 0 <= r < |s[t]| :: |m[t][r]| == |s[t][r]|
    ensures forall t, r, c | 0 <= t < |s| && 0 <= r < |s[t]| && 0 <= c < |s[t][r]| :: m[t][r][c] == MaskCell(s[t][r][c])
  {
    seq(|s|, t requires 0 <= t < |s| =>
      seq(|s[t]|, r requires 0 <= r < |s[t]| =>
        seq(|s[t][r]|, c requires 0 <= c < |s[t][r]| => MaskCell(s[t][r][c]))))
  }

  /** After masking no cell holds the sentinel, the sentinel cells are
      missing and every other cell is unchanged; masking again changes
      nothing. */
  lemma MaskMeaning(s: Stack)
    ensures forall t, r, c | 0 <= t < |s| && 0 <= r < |s[t]| && 0 <= c < |s[t][r]| ::
      && MaskStack(s)[t][r][c] != Val(MissingValue)
      && (s[t][r][c] == Val(MissingValue) ==> MaskStack(s)[t][r][c] == Missing)
      && (s[t][r][c] != Val(MissingValue) ==> MaskStack(s)[t][r][c] == s[t][r][c])
    ensures MaskStack(MaskStack(s)) == MaskStack(s)
  {
    var m := MaskStack(s);
    var mm := MaskStack(m);
    forall t | 0 <= t < |s|
      ensures mm[t] == m[t]
    {
      forall r | 0 <= r < |s[t]|
        ensures mm[t][r] == m[t][r]
      {
      }
    }
  }

  /** `mask_missing_data`: masks the sentinel in the read data in place. */
  method MaskMissingData(dataObject: GribReader.ReadData)
    modifies dataObject`data
    ensures dataObject.data == MaskStack(old(dataObject.data))
  {
    dataObject.data := MaskStack(dataObject.data);
  }

  function ScaleCell(c: Cell, k: real): Cell {
    match c
    case Val(v) => Val(v * k)
    case Missing => Missing
  }

  /** Every value of every grid multiplied by k. */
  function ScaleStack(s: Stack, k: real): (m: Stack)
    ensures |m| == |s|
    ensures forall t | 0 <= t < |s| :: |m[t]| == |s[t]| && forall r | 0 <= r < |s[t]| :: |m[t][r]| == |s[t][r]|
    ensures forall t, r, c | 0 <= t < |s| && 0 <= r < |s[t]| && 0 <= c < |s[t][r]| ::
      m[t][r][c] == ScaleCell(s[t][r][c], k)
  {
    seq(|s|, t requires 0 <= t < |s| =>
      seq(|s[t]|, r requires 0 <= r < |s[t]| =>
        seq(|s[t][r]|, c requires 0 <= c < |s[t][r]| => ScaleCell(s[t][r][c], k))))
  }

  /** Scaling percentages to fractions is undone by scaling back. */
  lemma ScaleBack(s: Stack)
    ensures ScaleStack(ScaleStack(s, 1.0 / 100.0), 100.0) == s
  {
    var m := ScaleStack(ScaleStack(s, 1.0 / 100.0), 100.0);
    forall t | 0 <= t < |s|
      ensures m[t] == s[t]
    {
      forall r | 0 <= r < |s[t]|
        ensures m[t][r] == s[t][r]
      {
      }
    }
  }

  /** `expand_array_with_domain`: a stack shaped like the origin whose grid
      i holds data[i + 1] in every cell, for every i before the last datum;
      the other grids stay zero. */
  method ExpandArrayWithDomain(data: seq<real>, nt: nat, nx: nat, ny: nat) returns (newData: Stack)
    requires |data| <= nt + 1
    ensures |newData| == nt && StackShape(newData, nx, ny)
    ensures forall i | 0 <= i < nt ::
      newData[i] == Fill(nx, ny, if i < |data| - 1 then Val(data[i + 1]) else Val(0.0))
  {
    newData := Zeros(nt, nx, ny);
    var i := 0;
    while i < |data| - 1
      invariant 0 <= i <= nt && (i == 0 || i < |data|)
      invariant |newData| == nt
      invariant forall j | 0 <= j < nt ::
        newData[j] == Fill(nx, ny, if j < i then Val(data[j + 1]) else Val(0.0))
    {
      newData := newData[i := Fill(nx, ny, Val(data[i + 1]))];
      i := i + 1;
    }
  }

  /** `expand_array_with_time_dimension`: the latitude grid and the
      longitude grid repeated at every time step but the last, which stays
      zero. */
  method ExpandArrayWithTimeDimension(timeLen: nat, lat: Grid, lon: Grid) returns (newLat: Stack, newLon: Stack)
    requires |lat| > 0 && GridShape(lat, |lat|, |lat[0]|) && GridShape(lon, |lat|, |lat[0]|)
    ensures |newLat| == timeLen && |newLon| == timeLen
    ensures forall i | 0 <= i < timeLen ::
      && newLat[i] == (if i < timeLen - 1 then lat else Fill(|lat|, |lat[0]|, Val(0.0)))
      && newLon[i] == (if i < timeLen - 1 then lon else Fill(|lat|, |lat[0]|, Val(0.0)))
  {
    var nx, ny := |lat|, |lat[0]|;
    newLat := Zeros(timeLen, nx, ny);
    newLon := Zeros(timeLen, nx, ny);
    var i := 0;
    while i < timeLen - 1
      invariant 0 <= i <= timeLen && (timeLen > 0 ==> i <= timeLen - 1)
      invariant |newLat| == timeLen && |newLon| == timeLen
      invariant forall j | 0 <= j < timeLen ::
        && newLat[j] == (if j < i then lat else Fill(nx, ny, Val(0.0)))
        && newLon[j] == (if j < i then lon else Fill(nx, ny, Val(0.0)))
    {
      newLat := newLat[i := lat];
      newLon := newLon[i := lon];
      i := i + 1;
    }
  }
}
