# Rail-track temperature forecast: GRIB input and output, and feature arithmetic

This project models the core of a forecasting program for rail-track
temperature. The program has three parts:

- It reads gridded weather forecasts from GRIB edition 2 files (`ReadData`).
  Each message becomes a grid of values and a forecast time. The forecast
  time is the analysis date and time plus the lead time, shifted by
  `added_hours`. The stack is then sorted by forecast time. The grid
  coordinates and a template message may be kept as well.
- It derives the predictor features of a forecast model (tools.py). These
  are forecast periods in hours, rates decumulated from accumulated
  radiation fields on a 1, 3 or 6 hour cadence, masking of the 9999 "no
  data" value, and percentages scaled to fractions. There are two variants:
  a gridded one (an xarray dataset) and a single-point one (a pandas table).
- It writes the forecast back as GRIB messages stamped from a template
  (`WriteData.write_grib_message`).

Modelling choices:

- A time instant is a whole number of minutes since 0001-01-01 00:00 in the
  proleptic Gregorian calendar. `strptime` and `strftime` on the integer
  `dataDate`/`dataTime` fields are modelled and proved to round-trip.
- A GRIB message is a map from eccodes keys to integers, plus its values and
  coordinates. The file is the sequence of its messages.
- A grid cell is a real number or `Missing`, which stands for NaN.
- Python exceptions and `sys.exit` become error values (`Result`, `Outcome`).
  Crashes of the tools.py helpers in numpy, pandas or xarray become
  preconditions: an index out of range, a missing column, and a variable
  whose time, x or y size conflicts with the dataset's (`xr.Dataset` and
  the variable assignments refuse it). The dataset keeps its x and y sizes,
  and every variable and coordinate has that shape. In the reader,
  `np.asarray` refusing grids of different shapes is the `ShapeMismatch`
  error value instead.
- The process-wide `GRIB_MESSAGE_STEP` is passed into the reader and handed
  back.
- The forecast model is a function parameter.

Files:

| file | module | part of the program |
|---|---|---|
| results.dfy | Results | result types |
| grids.dfy | Grids | cells, grids, reshape and flatten |
| gregorian.dfy | Gregorian | calendar, parsing and formatting of times |
| grib_message.dfy | GribMessage | messages and keys |
| sorting.dfy | Sorting | `generate_sorter`, `sort_array_by_time_series` |
| grib_reader.dfy | GribReader | `ReadData` |
| grib_writer.dfy | GribWriter | `WriteData.write_grib_message` |
| features.dfy | Features | the arithmetic of tools.py shared by both variants |
| dataset.dfy | FeatureDataset | the gridded dataset functions of tools.py |
| frame.dfy | FeatureFrame | the single-point dataframe functions of tools.py |

## Model

| member | source | states |
|---|---|---|
| GribMessage.GetLong | file_utils.py:46-47 | a key's value is returned exactly when the message has the key |
| GribReader.GetKey | file_utils.py:69-72 | a missing key is a `MissingKey` error naming the key; otherwise its value |
| GribReader.ReadLeadtime | file_utils.py:45-52 | the lead time is `forecastTime` hours (60·ft minutes) for unit indicator 1 and ft minutes for 0; any other indicator is an `UnknownTimeUnit` error, and a missing key is an error |
| GribReader.DecodeMessage | file_utils.py:69-89 | a decoded message had all the keys it reads; its analysis time parses from dataDate/dataTime; its forecast time is analysis plus lead; its grid is nj×ni and flattens back to the message's values (the coordinates likewise when read); it is not all missing unless `missing_data` is set; conversely every well-formed message decodes, and unparseable date fields are an `InvalidDate` error |
| GribReader.MissingDataSwitch | file_utils.py:87-89 | `missing_data` changes only one thing: a message whose `numberOfMissing` equals ni·nj is rejected without it and accepted with it |
| GribReader.ReadCount | file_utils.py:64-98 | the loop reads at most `time_steps`+1 messages, exactly one for `time_steps` = 0 on a non-empty file, and it stops early only after more than `time_steps` times were appended |
| GribReader.DecodesAt | file_utils.py:64-65 | outcome j of the stream is the decoding of message j |
| GribReader.FirstFailure | file_utils.py:64-89 | the first failure among the messages read comes after successes only |
| GribReader.FirstFailureAt | file_utils.py:64-89 | a failure after only successes is the one that ends the read |
| GribReader.Successes | file_utils.py:76-81 | the decoded messages behind the successful outcomes, in file order |
| GribReader.StepSetOnce | file_utils.py:83-86 | `GRIB_MESSAGE_STEP` is assigned at most once: a set step is kept, and an unset one becomes the first strictly positive lead time, or stays unset when there is none |
| GribReader.LoopStep | file_utils.py:76-86 | one more message appends its grid and forecast time, its coordinates when asked for, and becomes the template when asked for |
| GribReader.CollectMeaning | file_utils.py:64-98 | appending message by message collects, in file order, the grids, forecast times and coordinates of all messages read, the last one as template, and the message step |
| GribReader.ReadLoopFails | file_utils.py:64-89 | the first message that fails to decode ends the read with its error |
| GribReader.ReadMessages | file_utils.py:63-98 | the `while True` loop ends with what the message-by-message specification collects, or with the first decoding error |
| GribReader.ReadLoopFields | file_utils.py:76-105 | a successful loop holds the grids and forecast times in file order, the first message's coordinates only when asked for, the last message as template when asked for, and the message step |
| GribReader.NextMessage | file_utils.py:65-73 | the message handed over at pass j is message j of the file, decoded |
| GribReader.MixedShapesFail | file_utils.py:100 | a grid read with a shape other than the first one's ends the read with a `ShapeMismatch` error |
| GribReader.ShiftTimes | file_utils.py:108-109 | every time is shifted by `added_hours`, and the shift fails exactly when a shifted time leaves the range of `datetime` |
| GribReader.ShiftValids | file_utils.py:109 | shifting the collected forecast times shifts the forecast time of every message |
| GribReader.Zip | file_utils.py:30-32 | pairs each forecast time with its grid |
| GribReader.ReadData.constructor | file_utils.py:15-32 | the read ends as `read` ends; after a good read `dtime` is non-decreasing, `data` is sorted by the same sorter, the (time, grid) pairs are those read, as a multiset, and every grid has the first message's shape; the coordinates, template and message step are as read, and the analysis and forecast times are the last message's |
| GribReader.ReadData.Read | file_utils.py:34-39 | a file not named `.grib2` is an `UnsupportedFileType` error; otherwise it is `read_grib` |
| GribReader.ReadData.ReadGrib | file_utils.py:41-109 | the read ends with the first decoding error, a `ShapeMismatch` when the grids differ in shape, or a `DateOverflow`; otherwise the fields hold the grids, all of the first message's shape, the shifted forecast times, the first message's coordinates of that shape, the template, the last analysis and forecast times and the message step |
| GribReader.ReadData.StoreResults | file_utils.py:100-109 | grids of different shapes are a `ShapeMismatch` error (`np.asarray`) and an out-of-range shift a `DateOverflow` error; otherwise the stack, all of one shape, the first grid of the coordinates, of that shape, and the shifted times are stored |
| GribReader.ReadData.SortByTime | file_utils.py:30-32 | times come out non-decreasing, and times and grids are permuted together, so every grid keeps its time and the stack keeps its shape |
| Sorting.InsertPos | tools.py:214-215 | the insertion point is after every smaller time and before the first time that is not smaller |
| Sorting.Insert | tools.py:214-215 | inserting an index into a sorted index list keeps it sorted by time and adds one entry |
| Sorting.InsertSorted | tools.py:214-215 | the list with the new index at its insertion point is sorted by time |
| Sorting.SorterUpTo | tools.py:214-215 | the sorter of the first n times indexes them and sorts them |
| Sorting.InsertAdds | tools.py:214-215 | insertion adds the index and loses none |
| Sorting.SorterUpToRange | tools.py:214-215 | the sorter of the first n times lists each index below n exactly once |
| Sorting.GenerateSorter | tools.py:214-215 | `argsort` gives one valid index per time, in time order |
| Sorting.SorterIsPermutation | tools.py:214-215 | `argsort` is a permutation of the indices |
| Sorting.SortArrayByTimeSeries | tools.py:218-220 | fancy indexing gives one element per sorter entry, entry i being the datum at sorter index i |
| Sorting.SortedTimes | file_utils.py:30-31 | the times sorted by their own sorter are non-decreasing |
| Sorting.ApplyInsert | tools.py:218-220 | indexing with an inserted index inserts that element at the same place |
| Sorting.PermuteInsert | tools.py:218-220 | indexing with a list that has one more index adds that element to the result |
| Sorting.PrefixSnoc | tools.py:218-220 | a prefix one longer holds one more element |
| Sorting.PermuteStep | tools.py:218-220 | the data picked by the sorter of one more time holds that time's datum in addition |
| Sorting.PermuteUpTo | tools.py:218-220 | the data picked by the sorter of the first n times is a permutation of the first n data |
| Sorting.SorterPermutes | file_utils.py:30-32 | applying the sorter to data of the same length permutes it: nothing is lost or duplicated |
| Gregorian.SplitYear | file_utils.py:74 | a day count splits into a year and a day of that year |
| Gregorian.MonthOfDay | file_utils.py:74 | the month found holds the day of the year |
| Gregorian.MonthUnique | file_utils.py:74 | a day of the year lies in one month only |
| Gregorian.YearSplitUnique | file_utils.py:74 | a year and a day of the year name one day only |
| Gregorian.DaysBeforeYearStep | file_utils.py:74 | each year adds its own length |
| Gregorian.DaysBeforeYearMonotone | file_utils.py:74 | later years start at least 365 days per year later |
| Gregorian.ToMinutes | file_utils.py:74 | a valid calendar instant is a minute count within the range of `datetime` |
| Gregorian.FromMinutes | file_utils.py:151-152 | each minute count in range is a valid calendar instant that counts back to it |
| Gregorian.FromToMinutes | file_utils.py:74-75 | a valid calendar instant survives the round trip through its minute count |
| Gregorian.AddMinutes | file_utils.py:108-109 | adding a time difference succeeds exactly when the sum stays within years 1 to 9999, and gives the sum |
| Gregorian.ParseDateTime | file_utils.py:74 | a parsed date and time is an instant within range |
| Gregorian.FormatThenParse | file_utils.py:149-152 | formatting an instant of a four-digit year as `%Y%m%d` and `%H%M` and parsing it back gives the instant |
| Gregorian.ParseThenFormat | file_utils.py:149-152 | parsing accepted fields and formatting them again gives the fields back |
| Gregorian.ParsedYear | file_utils.py:149-151 | a parsed instant has a four-digit year, so it formats back into eight digits |
| Gregorian.DigitsSplit | file_utils.py:151-152 | the digit groups of YYYYMMDD and HHMM read back as their parts |
| GribWriter.GetKey | file_utils.py:147-160 | a missing key is a `MissingKey` error; otherwise its value |
| GribWriter.ShiftedAnalysis | file_utils.py:147-150 | the template's analysis time, parsed from dataDate/dataTime and moved by `t_diff` hours, whenever the fields parse and the result stays in range; a missing key is a `MissingKey` error, unparseable fields an `InvalidDate` error, and a result out of range a `DateOverflow` error |
| GribWriter.Header | file_utils.py:151-158 | the header carries the shifted analysis date and time, 24 bits per value, process 202, centre 86, a bitmap, the time-range unit 0 (minute) and step units 1 |
| GribWriter.HeaderKeeps | file_utils.py:151-158 | every key that is not one of those eight is as the template had it |
| GribWriter.HeaderDateRoundTrip | file_utils.py:149-152 | the stamped date and time parse back to the shifted analysis time |
| GribWriter.LeadTime | file_utils.py:159-166 | the lead time of step i is 15·i minutes, or the series' time i minus its time 0, less 15 minutes for template 8; it fails exactly when a given time series has no entry for the step |
| GribWriter.LeadTimeSpacing | file_utils.py:159-166 | without a series the lead times are 15 minutes apart; with one they keep the series' spacing; either way step 0 is at 0, or at −15 minutes for template 8 |
| GribWriter.IntervalEnd | file_utils.py:168-173 | for template 8 the range (unit 1, length 1) or (unit 0, length 60) gives the end `lengthOfTimeRange` hours after the analysis time, a `DateOverflow` error when that is out of range; any other range is an `UnsupportedTimeRange` error and a missing key a `MissingKey` error |
| GribWriter.IntervalEndInHours | file_utils.py:172-173 | the end is read in hours whatever the unit, so the sixty-minute range ends sixty hours after the analysis time |
| GribWriter.SetEnd | file_utils.py:176-181 | all six end-of-interval keys are set, seconds to zero |
| GribWriter.SetEndNames | file_utils.py:176-181 | the end-of-interval fields are a valid calendar instant naming the interval end |
| GribWriter.SetEndKeeps | file_utils.py:176-181 | setting the interval end changes no other key |
| GribWriter.IntervalEndReads | file_utils.py:168-173 | the interval end depends on the two time-range keys only |
| GribWriter.SetEndOverwrites | file_utils.py:172-183 | the next step's interval end and lead time overwrite the previous step's |
| GribWriter.Restamp | file_utils.py:161-183 | re-stamping the template that the previous step left behind gives the same message as stamping the header |
| GribWriter.StepFails | file_utils.py:161-171 | a step fails exactly when the series has no entry for it or the template-8 range is unsupported, with that error |
| GribWriter.StepContents | file_utils.py:172-184 | a written message holds grid i flattened row by row, the lead time as `forecastTime`, the template's coordinates and, for template 8, the interval end |
| GribWriter.StepKeeps | file_utils.py:161-185 | every other key is written as the header has it |
| GribWriter.EmittedMeaning | file_utils.py:161-185 | one message per step in step order up to the first failure; the write passes exactly when all steps were written, and otherwise reports the failing step's error; the template is the last message written |
| GribWriter.FailureEnds | file_utils.py:171 | a failure ends the writer |
| GribWriter.StepReadBack | file_utils.py:149-183 | the reader recovers the analysis time and the lead time from every written message |
| GribWriter.ReadBack | file_utils.py:146-185 | every message written reads back with the shifted analysis time and its step's lead time |
| GribWriter.WriteData.constructor | file_utils.py:113-125 | the writer writes the file at once: its template, output and outcome are what `write_grib_message` produces from the input template |
| GribWriter.WriteData.WriteGribMessage | file_utils.py:146-185 | the header is stamped before the first message, then messages are appended per step as specified |
| GribWriter.WriteData.WriteSteps | file_utils.py:161-185 | the `for` loop appends the messages of the specification, in step order, stopping at the first failure |
| GribWriter.WriteData.WriteStep | file_utils.py:162-185 | one pass stamps the template with the step's message and appends it, or fails leaving the output as it was |
| Features.Trunc | tools.py:144 | `int` truncates toward zero: within one of x, on the side of zero |
| Features.PeriodHours | tools.py:143-144 | `days*24 + seconds/3600` of a time difference is its length in hours |
| Features.PeriodHoursMonotone | tools.py:144 | whole hours of a non-negative difference are its minutes divided by 60, non-negative and non-decreasing |
| Features.ForecastPeriodsDataset | tools.py:139-144 | entry i is the whole hours from the first time to time i |
| Features.ForecastPeriodsDataframe | tools.py:268-273 | entry i is the hours, with fraction, from the first time to time i |
| Features.ForecastPeriodsSorted | tools.py:139-144 | for sorted times the periods start at 0, are never negative and never decrease |
| Features.Increment | tools.py:154-158 | the window is 1 hour below 90 hours, 3 hours from 90 below 144, and 6 hours from 144 on |
| Features.IncrementMonotone | tools.py:154-158 | a later period never has a shorter window |
| Features.IncrementOf | tools.py:283-287 | a missing period fails both comparisons and keeps the hourly window |
| Features.FirstRate | tools.py:159-160 | the first rate times an hour is the first value; missing in, missing out |
| Features.Rate | tools.py:162 | the rate times its window is the difference of the two values; missing when either is |
| Features.GridFirstRate | tools.py:160 | the first rate, cell by cell |
| Features.GridRate | tools.py:162 | the rate, cell by cell |
| Features.ReaccumulateTelescopes | tools.py:150-164 | rates that each cover one window add up, over their windows, to the last accumulated value |
| Features.DropFirst | tools.py:127-129 | dropping the analysis step moves element i+1 to position i |
| Features.DatasetWindow | tools.py:154-162 | a dataset step's window is 1, 3 or 6 hours |
| Features.DatasetRate | tools.py:153-162 | step 0 is the first value over an hour, and step k the difference of grids k+1 and k over the window at period k, cell by cell; missing when an input cell is |
| Features.DatasetStep | tools.py:159-162 | a cell's rate at a step times its window is the value it accumulated over that step |
| Features.DatasetReaccumulates | tools.py:150-164 | the dataset's rates of a cell, times their windows, add up to its accumulated value: decumulation loses nothing |
| Features.FramePass | tools.py:282-291 | row 0 is kept, row 1 is a first rate, row i>1 the rate from original row i−1 over the window at period i−1 |
| Features.FrameStep | tools.py:288-291 | a row's rate times its window is the value accumulated since the previous row |
| Features.FrameReaccumulates | tools.py:278-292 | the dataframe's rates of a column, times their windows, add up to its accumulated value |
| Features.IncrementWholeHours | tools.py:155-157 | truncating a period to whole hours does not change its window |
| Features.WindowVariants | tools.py:150-292 | the dataset picks a window at the step's end, the dataframe at its start, so for sorted times the dataframe window is never longer |
| Features.WindowVariantsDiffer | tools.py:150-292 | at 89 and 90 hours the same step has a 3-hour window in the dataset and a 1-hour window in the dataframe |
| Features.MaskStack | tools.py:134 | the mask rule applies to every cell and keeps the shape |
| Features.MaskMeaning | tools.py:134 | after masking no cell is 9999, the 9999 cells are missing, every other cell is unchanged, and masking twice is masking once |
| Features.MaskMissingData | tools.py:132-135 | the read data is masked in place |
| Features.ScaleStack | tools.py:169 | every value is multiplied, missing cells stay missing, and the shape is kept |
| Features.ScaleBack | tools.py:169 | dividing by 100 is undone by multiplying by 100 |
| Features.ExpandArrayWithDomain | tools.py:200-204 | the origin's shape; slot i holds datum i+1 in every cell for i before the last datum, and all other slots are zero |
| Features.ExpandArrayWithTimeDimension | tools.py:95-101 | latitude and longitude grids at every time slot but the last, which stays zero |
| FeatureDataset.Dataset.constructor | tools.py:104-114 | the dataset's x and y sizes are those of the first message's coordinates, which the read grids must share; variable and time step i hold read grid and time i+1; the coordinates are the first message's at every step but the last, which holds zeros |
| FeatureDataset.Dataset.AddDataToDataset | tools.py:117-119 | a field on the dataset's grid becomes a variable holding read grid i+1 at step i; nothing else changes, so all variables keep one shape |
| FeatureDataset.Dataset.CalculateForecastPeriodDataset | tools.py:138-147 | `forecast_period` at step i is the whole hours to time i+1 in every cell, zero after the last time; other variables are unchanged |
| FeatureDataset.Dataset.CalculateMonthDataset | tools.py:184-197 | `month` at step i is the month of time i+1 in every cell, zero after the last time; other variables are unchanged |
| FeatureDataset.Dataset.CalculateHourlyValuesDataset | tools.py:150-164 | an accumulated field on the dataset's grid, with one step more than the forecast periods, becomes a variable of the dataset decumulation, one step per forecast period |
| FeatureDataset.Dataset.ConvertPercentageToZeroOne | tools.py:167-170 | each named variable is divided by 100, once per time it is named |
| FeatureDataset.PeriodsOf | tools.py:152 | the whole hours of the first cell of each step |
| FeatureDataset.PeriodList | tools.py:152 | the list of periods is read from the first cell of each step |
| FeatureDataset.ScaledByName | tools.py:168-169 | the scaled variables are those there were |
| FeatureDataset.ScaledByNameMeaning | tools.py:167-170 | with no name repeated, each named variable is divided once and every other is unchanged |
| FeatureDataset.SelectDomainData | tools.py:52-57 | the model's fifteen columns, in its order, under their names |
| FeatureDataset.SelectedCell | tools.py:55 | row r·ny+c of the table is grid cell (r, c) of the step, in every column |
| FeatureDataset.ValidSelectable | tools.py:52-57 | in a dataset holding the fifteen model columns every step can be selected: each column's flattened grid has nx·ny cells, so pandas accepts the table |
| FeatureDataset.GenerateMLForecastDomain | tools.py:43-49 | every dataset step can be selected; one reshaped prediction per dataset step, zeros after; a prediction that does not fill a grid is an error naming the first such step |
| FeatureFrame.PartialPass | tools.py:282-291 | rows 1 to i are decumulated and the others are as they were |
| FeatureFrame.FramePasses | tools.py:280-291 | the column names and lengths are kept and the forecast period is not touched |
| FeatureFrame.FramePassesMeaning | tools.py:278-292 | with no name repeated, each named column is decumulated against its original values with row 0 kept, and every other column is unchanged |
| FeatureFrame.DataFrame.constructor | tools.py:239-240 | a table of equal-length columns |
| FeatureFrame.DataFrame.CalculateForecastPeriodDataframe | tools.py:267-275 | a new `forecast_period` column of hours from the first row's time; other columns unchanged |
| FeatureFrame.DataFrame.CalculateHourlyValuesDataframe | tools.py:278-292 | the named columns in turn are decumulated against the copy taken before the loop |
| FeatureFrame.DataFrame.DecumulateColumn | tools.py:281-291 | one pass rewrites rows 1 onwards of one column and nothing else |
| FeatureFrame.SelectOnlyForecastFromDf | tools.py:127-129 | row i of the result is row i+1 of the table, in every column |

## Left out

- Reading and writing files, S3 access, and the endpoint fallback. The
  input file is the sequence of its messages; the output file is the
  sequence of messages written.
- eccodes itself: handles, cloning, releasing, packing values at 24 bits.
  The precision of packed values is not modelled.
- Loading the model with `joblib`. The model's `predict` is a parameter of
  `GenerateMLForecastDomain`.
- `generate_ML_forecast_points` and `select_df_data_from_ds`: a transpose
  and a subtraction of 273.15 around the predictor.
- Floating-point numerics: the trigonometric hour and month encodings with
  `np.round`, the wind speed, and the Kelvin conversion. Reals are exact.
  Of `calculate_angle_time_dataset` only the `month` feature is modelled.
- CSV reading, column renaming, column selection and column order of the
  pandas glue. `CalculateForecastPeriodDataframe` does not model the
  column position at which `forecast_period` is inserted.
- FeatureFrame.DataFrame.CalculateForecastPeriodDataframe: requires that
  no `forecast_period` column exists. The source's `insert` allows a
  duplicate column, which later lookups would not handle.
- FeatureFrame.DataFrame.CalculateHourlyValuesDataframe: requires that
  `forecast_period` is not among the decumulated columns. The source
  would read that column while rewriting it.
- `mask_missing_data` at tools.py:133 reads `data_object.mask_nodata`.
  `ReadData` never sets that attribute; file_utils.py:107 assigns only a
  local variable. As written, line 133 raises `AttributeError`, line 134 is
  never reached, and the gridded pipeline stops at its first call
  (generate_ML_temperature_rail_fcst.py:20). `Features.MaskMissingData`
  models line 134, the rule the function evidently means to apply.
- Sort order among equal times. `argsort` uses numpy's default sort,
  which is not stable. The model fixes one sorter and promises only sorted
  order and a permutation.
- Timing, `print`, `gc` and the messages of the process exits. The exits
  are error values.
- Python `datetime` keeps seconds and microseconds. The model keeps
  minutes, which is all that GRIB date, time and lead-time fields carry.
- Gregorian.ParseDateTime: accepts only eight-digit dates. `strptime`
  with `%Y` would also split some shorter digit strings in other ways.
- GribWriter.Header: eccodes refuses to set a key that the message's
  templates do not define. The model adds the key instead.
- The value the writer stores in `forecastTime` is `total_seconds()/60`, a
  float. It is modelled as the whole number of minutes, which it always is
  here.
- The writer's data is modelled as reals without missing values.
  `codes_set_values` of a NaN is eccodes' business.
- GribWriter.IntervalEnd: modelled as written. The end of the overall time
  interval is `lengthOfTimeRange` hours after the analysis time, even
  when the unit is minutes (length 60 gives sixty hours).
- GribWriter.Header: `stepUnits` is set to 1 as written. The source's
  comment calls this a minute; code table 4.4 makes 1 an hour.
- FeatureDataset.Dataset.constructor: the last time step has zero
  latitudes and longitudes, as the source computes them.
