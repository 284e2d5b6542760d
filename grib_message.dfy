/** A GRIB edition 2 message as the reader and the writer see it through
    eccodes: the integer keys they get and set, and the data values with the
    coordinates of the grid points. */
module GribMessage {
  import opened Results

  /** The eccodes keys the program reads or writes, by their eccodes names;
      every other key of a message is `Other`. */
  datatype Key =
    | Ni | Nj
    | DataDate | DataTime
    | IndicatorOfUnitOfTimeRange | ForecastTime
    | NumberOfMissing
    | BitsPerValue | GeneratingProcessIdentifier | Centre | BitmapPresent | StepUnits
    | ProductDefinitionTemplateNumber
    | IndicatorOfUnitForTimeRange | LengthOfTimeRange
    | YearOfEndOfOverallTimeInterval | MonthOfEndOfOverallTimeInterval
    | DayOfEndOfOverallTimeInterval | HourOfEndOfOverallTimeInterval
    | MinuteOfEndOfOverallTimeInterval | SecondOfEndOfOverallTimeInterval
    | Other(name: string)

  datatype Message = Message(
    keys: map<Key, int>,
    values: seq<real>,
    latitudes: seq<real>,
    longitudes: seq<real>)

  /** Code Table 4.4, indicator of unit of time range. */
  const UnitMinute: int := 0
  const UnitHour: int := 1

  /** `codes_get_long`: the value of a key, or None when the message has no
      such key (eccodes raises `KeyValueNotFoundError`). */
  function GetLong(m: Message, key: Key): (r: Option<int>)
    ensures r.Some? <==> key in m.keys
    ensures r.Some? ==> r.value == m.keys[key]
  {
    if key in m.keys then Some(m.keys[key]) else None
  }
}
