/** `WriteData.write_grib_message` of file_utils.py: stamps a template
    message with the analysis time, fixed header fields and, step by step,
    the lead time and the values of each grid, and writes one message per
    time step.

    The template handle the source mutates with `codes_set_long` is the
    `template` field of `WriteData`; the output file is the sequence `out`. */
module GribWriter {
  import opened Results
  import opened Grids
  import opened Gregorian
  import opened GribMessage
  import GribReader

  /** The conditions on which the writer raises. */
  datatype WriteError =
    | MissingKey(key: Key)
    | InvalidDate(date: int, time: int)
    | DateOverflow
    | MissingTimeStep(index: nat)
    | UnsupportedTimeRange(indicator: int, length: int)

  /** The cadence of the lead times when no time series is given, in minutes. */
  const BaseLeadMinutes: int := 15

  /** The product definition template for statistics over a time interval. */
  const IntervalTemplate: int := 8

  /** `codes_get_long` as the writer uses it: a missing key raises. */
  function GetKey(keys: map<Key, int>, key: Key): (r: Result<int, WriteError>)
    ensures r.Success? <==> key in keys
    ensures r.Success? ==> r.value == keys[key]
    ensures r.Failure? ==> r.error == MissingKey(key)
  {
    match GetLong(Message(keys, [], [], []), key)
    case None => Failure(MissingKey(key))
    case Some(v) => Success(v)
  }

  /** The template's analysis time moved by tDiff hours, in minutes. */
  function ShiftedAnalysis(keys: map<Key, int>, tDiff: int): (r: Result<int, WriteError>)
    ensures r.Success? ==>
      && DataDate in keys && DataTime in keys
      && ParseDateTime(keys[DataDate], keys[DataTime]).Some?
      && r.value == ParseDateTime(keys[DataDate], keys[DataTime]).value + tDiff * MinutesPerHour
      && 0 <= r.value < EndOfTime
    ensures DataDate in keys && DataTime in keys && ParseDateTime(keys[DataDate], keys[DataTime]).None? ==>
      r == Failure(InvalidDate(keys[DataDate], keys[DataTime]))
    ensures DataDate !in keys ==> r == Failure(MissingKey(DataDate))
    ensures DataDate in keys && DataTime !in keys ==> r == Failure(MissingKey(DataTime))
    ensures DataDate in keys && DataTime in keys && ParseDateTime(keys[DataDate], keys[DataTime]).Some? ==>
      var t := ParseDateTime(keys[DataDate], keys[DataTime]).value + tDiff * MinutesPerHour;
      r == if 0 <= t < EndOfTime then Success(t) else Failure(DateOverflow)
  {
    var date :- GetKey(keys, DataDate);
    var time :- GetKey(keys, DataTime);
    match ParseDateTime(date, time)
    case None => Failure(InvalidDate(date, time))
    case Some(t) =>
      match AddMinutes(t, tDiff * MinutesPerHour)
      case None => Failure(DateOverflow)
      case Some(a) => Success(a)
  }

  /** The keys the header stamping sets. */
  predicate HeaderKey(k: Key) {
    || k.DataDate? || k.DataTime? || k.BitsPerValue? || k.GeneratingProcessIdentifier?
    || k.Centre? || k.BitmapPresent? || k.IndicatorOfUnitOfTimeRange? || k.StepUnits?
  }

  /** The header fields set before the first message: the analysis time,
      24-bit packing, the producer (process 202 of centre 86), a bitmap, and
      the time-range unit (minute) and step unit (code 1). */
  function Header(keys: map<Key, int>, analysis: int): (h: map<Key, int>)
    requires 0 <= analysis < EndOfTime
    ensures DataDate in h && h[DataDate] == FormatDate(analysis)
    ensures DataTime in h && h[DataTime] == FormatTime(analysis)
    ensures BitsPerValue in h && h[BitsPerValue] == 24
    ensures GeneratingProcessIdentifier in h && h[GeneratingProcessIdentifier] == 202
    ensures Centre in h && h[Centre] == 86
    ensures BitmapPresent in h && h[BitmapPresent] == 1
    ensures IndicatorOfUnitOfTimeRange in h && h[IndicatorOfUnitOfTimeRange] == UnitMinute
    ensures StepUnits in h && h[StepUnits] == 1
  {
    keys[DataDate := FormatDate(analysis)][DataTime := FormatTime(analysis)]
        [BitsPerValue := 24][GeneratingProcessIdentifier := 202][Centre := 86]
        [BitmapPresent := 1][IndicatorOfUnitOfTimeRange := UnitMinute][StepUnits := 1]
  }

  /** The header stamping leaves every other key as it was. */
  lemma HeaderKeeps(keys: map<Key, int>, analysis: int, k: Key)
    requires 0 <= analysis < EndOfTime && !HeaderKey(k)
    ensures k in Header(keys, analysis) <==> k in keys
    ensures k in keys ==> Header(keys, analysis)[k] == keys[k]
  {
  }

  /** The stamped date and time parse back to the analysis time: the writer
      writes what the reader reads. */
  lemma HeaderDateRoundTrip(keys: map<Key, int>, analysis: int)
    requires 0 <= analysis < EndOfTime && FromMinutes(analysis).year >= 1000
    ensures ParseDateTime(Header(keys, analysis)[DataDate], Header(keys, analysis)[DataTime]) == Some(analysis)
  {
    FormatThenParse(analysis);
  }

  /** The lead time of step i in minutes: 15 minutes per step, or the
      distance from the first time of the series; an interval product is
      stamped 15 minutes earlier.  A series shorter than the data raises. */
  function LeadTime(i: nat, timeSeries: Option<seq<int>>, pdtn: int): (r: Result<int, WriteError>)
    ensures r.Failure? <==> timeSeries.Some? && i >= |timeSeries.value|
    ensures r.Failure? ==> r.error == MissingTimeStep(i)
    ensures r.Success? ==>
      r.value == (if timeSeries.None? then BaseLeadMinutes * i else timeSeries.value[i] - timeSeries.value[0])
                 - (if pdtn == IntervalTemplate then BaseLeadMinutes else 0)
  {
    var lt :-
      match timeSeries
      case None => Success(BaseLeadMinutes * i)
      case Some(ts) => if i < |ts| then Success(ts[i] - ts[0]) else Failure(MissingTimeStep(i));
    Success(if pdtn == IntervalTemplate then lt - BaseLeadMinutes else lt)
  }

  /** Without a time series, consecutive steps are 15 minutes apart and the
      first one is at the analysis time (15 minutes before it for an
      interval product); with one, the lead times keep the series' spacing. */
  lemma LeadTimeSpacing(i: nat, timeSeries: Option<seq<int>>, pdtn: int)
    ensures timeSeries.None? ==>
      && LeadTime(i + 1, timeSeries, pdtn).value == LeadTime(i, timeSeries, pdtn).value + BaseLeadMinutes
      && LeadTime(0, timeSeries, pdtn).value == (if pdtn == IntervalTemplate then -BaseLeadMinutes else 0)
    ensures timeSeries.Some? && i + 1 < |timeSeries.value| ==>
      var ts := timeSeries.value;
      LeadTime(i + 1, timeSeries, pdtn).value - LeadTime(i, timeSeries, pdtn).value == ts[i + 1] - ts[i]
    ensures timeSeries.Some? && |timeSeries.value| > 0 ==>
      LeadTime(0, timeSeries, pdtn).value == (if pdtn == IntervalTemplate then -BaseLeadMinutes else 0)
  {
  }

  /** The end-of-overall-interval keys. */
  predicate EndKey(k: Key) {
    || k.YearOfEndOfOverallTimeInterval? || k.MonthOfEndOfOverallTimeInterval?
    || k.DayOfEndOfOverallTimeInterval? || k.HourOfEndOfOverallTimeInterval?
    || k.MinuteOfEndOfOverallTimeInterval? || k.SecondOfEndOfOverallTimeInterval?
  }

  /** The end of the overall time interval of an interval product, in
      minutes: the analysis time plus `lengthOfTimeRange` hours, after
      checking that the range is one hour or sixty minutes. */
  function IntervalEnd(keys: map<Key, int>, analysis: int): (r: Result<int, WriteError>)
    requires 0 <= analysis < EndOfTime
    ensures r.Success? ==>
      && IndicatorOfUnitForTimeRange in keys && LengthOfTimeRange in keys
      && var tr, trlen := keys[IndicatorOfUnitForTimeRange], keys[LengthOfTimeRange];
      && ((tr == UnitHour && trlen == 1) || (tr == UnitMinute && trlen == 60))
      && r.value == analysis + trlen * MinutesPerHour
      && 0 <= r.value < EndOfTime
    ensures IndicatorOfUnitForTimeRange in keys && LengthOfTimeRange in keys ==>
      var tr, trlen := keys[IndicatorOfUnitForTimeRange], keys[LengthOfTimeRange];
      !((tr == UnitHour && trlen == 1) || (tr == UnitMinute && trlen == 60)) ==>
        r == Failure(UnsupportedTimeRange(tr, trlen))
    ensures IndicatorOfUnitForTimeRange in keys && LengthOfTimeRange in keys ==>
      var tr, trlen := keys[IndicatorOfUnitForTimeRange], keys[LengthOfTimeRange];
      (tr == UnitHour && trlen == 1) || (tr == UnitMinute && trlen == 60) ==>
        r == if analysis + trlen * MinutesPerHour < EndOfTime then Success(analysis + trlen * MinutesPerHour)
             else Failure(DateOverflow)
    ensures IndicatorOfUnitForTimeRange !in keys ==> r == Failure(MissingKey(IndicatorOfUnitForTimeRange))
    ensures IndicatorOfUnitForTimeRange in keys && LengthOfTimeRange !in keys ==> r == Failure(MissingKey(LengthOfTimeRange))
  {
    var tr :- GetKey(keys, IndicatorOfUnitForTimeRange);
    var trlen :- GetKey(keys, LengthOfTimeRange);
    if !((tr == UnitHour && trlen == 1) || (tr == UnitMinute && trlen == 60)) then
      Failure(UnsupportedTimeRange(tr, trlen))
    else
      match AddMinutes(analysis, trlen * MinutesPerHour)
      case None => Failure(DateOverflow)
      case Some(t) => Success(t)
  }

  /** The interval end is read in hours whatever the unit: a one-hour range
      ends an hour after the analysis time, and a sixty-minute range sixty
      hours after it, not one. */
  lemma IntervalEndInHours(keys: map<Key, int>, analysis: int)
    requires 0 <= analysis < EndOfTime
    requires IntervalEnd(keys, analysis).Success?
    ensures keys[IndicatorOfUnitForTimeRange] == UnitHour ==> IntervalEnd(keys, analysis).value == analysis + 60
    ensures keys[IndicatorOfUnitForTimeRange] == UnitMinute ==> IntervalEnd(keys, analysis).value == analysis + 60 * 60
  {
  }

  /** The end-of-interval keys set to the calendar fields of instant t,
      seconds zero. */
  function SetEnd(keys: map<Key, int>, t: int): (r: map<Key, int>)
    requires 0 <= t < EndOfTime
    ensures && YearOfEndOfOverallTimeInterval in r && MonthOfEndOfOverallTimeInterval in r
            && DayOfEndOfOverallTimeInterval in r && HourOfEndOfOverallTimeInterval in r
            && MinuteOfEndOfOverallTimeInterval in r && SecondOfEndOfOverallTimeInterval in r
    ensures r[SecondOfEndOfOverallTimeInterval] == 0
  {
    var e := FromMinutes(t);
    keys[YearOfEndOfOverallTimeInterval := e.year][MonthOfEndOfOverallTimeInterval := e.month]
        [DayOfEndOfOverallTimeInterval := e.day][HourOfEndOfOverallTimeInterval := e.hour]
        [MinuteOfEndOfOverallTimeInterval := e.minute][SecondOfEndOfOverallTimeInterval := 0]
  }

  /** The end-of-interval fields name the instant t again. */
  lemma SetEndNames(keys: map<Key, int>, t: int)
    requires 0 <= t < EndOfTime
    ensures var r := SetEnd(keys, t);
      var e := DateTime(r[YearOfEndOfOverallTimeInterval], r[MonthOfEndOfOverallTimeInterval],
                        r[DayOfEndOfOverallTimeInterval], r[HourOfEndOfOverallTimeInterval],
                        r[MinuteOfEndOfOverallTimeInterval]);
      ValidDateTime(e) && ToMinutes(e) == t
  {
  }

  /** Setting the interval end leaves every other key as it was. */
  lemma SetEndKeeps(keys: map<Key, int>, t: int, k: Key)
    requires 0 <= t < EndOfTime && !EndKey(k)
    ensures k in SetEnd(keys, t) <==> k in keys
    ensures k in keys ==> SetEnd(keys, t)[k] == keys[k]
  {
  }

  /** The keys every message carries before its lead time is set: the
      header, with the interval end for an interval product. */
  function Stamp(keys: map<Key, int>, analysis: int, pdtn: int): (r: Result<map<Key, int>, WriteError>)
    requires 0 <= analysis < EndOfTime
  {
    if pdtn == IntervalTemplate then
      var t :- IntervalEnd(keys, analysis);
      Success(SetEnd(keys, t))
    else Success(keys)
  }

  /** The message written at step i: the header (and, for an interval
      product, the interval end) stamped with the lead time of step i and
      the values of grid i, row after row. */
  function Step(header: Message, analysis: int, pdtn: int, data: seq<seq<seq<real>>>,
                timeSeries: Option<seq<int>>, i: nat): (r: Result<Message, WriteError>)
    requires i < |data| && 0 <= analysis < EndOfTime
  {
    var lt :- LeadTime(i, timeSeries, pdtn);
    var keys :- Stamp(header.keys, analysis, pdtn);
    Success(Message(keys[ForecastTime := lt], Flatten(data[i]), header.latitudes, header.longitudes))
  }

  /** The interval end depends on the time-range keys only. */
  lemma IntervalEndReads(keys: map<Key, int>, other: map<Key, int>, analysis: int)
    requires 0 <= analysis < EndOfTime
    requires IndicatorOfUnitForTimeRange in keys <==> IndicatorOfUnitForTimeRange in other
    requires LengthOfTimeRange in keys <==> LengthOfTimeRange in other
    requires IndicatorOfUnitForTimeRange in keys ==>
      keys[IndicatorOfUnitForTimeRange] == other[IndicatorOfUnitForTimeRange]
    requires LengthOfTimeRange in keys ==> keys[LengthOfTimeRange] == other[LengthOfTimeRange]
    ensures IntervalEnd(keys, analysis) == IntervalEnd(other, analysis)
  {
  }

  /** Setting the interval end and the lead time again overwrites what the
      previous step set. */
  lemma SetEndOverwrites(keys: map<Key, int>, t: int, prevLead: int, lt: int)
    requires 0 <= t < EndOfTime
    ensures SetEnd(SetEnd(keys, t)[ForecastTime := prevLead], t)[ForecastTime := lt]
         == SetEnd(keys, t)[ForecastTime := lt]
  {
  }

  /** Stamping the template again, after an earlier step set its lead time,
      fails or succeeds as stamping the header does, and once the new lead
      time is set it gives the same keys: what an earlier step left in the
      template is overwritten. */
  lemma Restamp(header: map<Key, int>, analysis: int, pdtn: int, prev: map<Key, int>, prevLead: Option<int>, lt: int)
    requires 0 <= analysis < EndOfTime
    requires prevLead.None? ==> prev == header
    requires prevLead.Some? ==>
      Stamp(header, analysis, pdtn).Success? && prev == Stamp(header, analysis, pdtn).value[ForecastTime := prevLead.value]
    ensures Stamp(prev, analysis, pdtn).Failure? ==> Stamp(prev, analysis, pdtn) == Stamp(header, analysis, pdtn)
    ensures Stamp(prev, analysis, pdtn).Success? ==>
      && Stamp(header, analysis, pdtn).Success?
      && Stamp(prev, analysis, pdtn).value[ForecastTime := lt] == Stamp(header, analysis, pdtn).value[ForecastTime := lt]
  {
    if prevLead.Some? && pdtn == IntervalTemplate {
      var t := IntervalEnd(header, analysis).value;
      SetEndKeeps(header, t, IndicatorOfUnitForTimeRange);
      SetEndKeeps(header, t, LengthOfTimeRange);
      IntervalEndReads(prev, header, analysis);
      SetEndOverwrites(header, t, prevLead.value, lt);
    }
  }

  /** A step fails exactly when the time series has no entry for it or an
      interval product's time range is not one the writer accepts; neither
      depends on the data, so an interval product with an unsupported range
      fails at the first step. */
  lemma StepFails(header: Message, analysis: int, pdtn: int, data: seq<seq<seq<real>>>,
                  timeSeries: Option<seq<int>>, i: nat)
    requires i < |data| && 0 <= analysis < EndOfTime
    ensures Step(header, analysis, pdtn, data, timeSeries, i).Failure? <==>
      || (timeSeries.Some? && i >= |timeSeries.value|)
      || (pdtn == IntervalTemplate && IntervalEnd(header.keys, analysis).Failure?)
    ensures timeSeries.Some? && i >= |timeSeries.value| ==>
      Step(header, analysis, pdtn, data, timeSeries, i) == Failure(MissingTimeStep(i))
    ensures ((timeSeries.None? || i < |timeSeries.value|) && pdtn == IntervalTemplate
             && IntervalEnd(header.keys, analysis).Failure?) ==>
      Step(header, analysis, pdtn, data, timeSeries, i) == Failure(IntervalEnd(header.keys, analysis).error)
  {
  }

  /** What a written message holds: the grid's values row after row, the
      lead time as `forecastTime`, every other key of the header (the
      interval end keys replaced for an interval product), and the
      template's coordinates. */
  lemma StepContents(header: Message, analysis: int, pdtn: int, data: seq<seq<seq<real>>>,
                     timeSeries: Option<seq<int>>, i: nat)
    requires i < |data| && 0 <= analysis < EndOfTime
    requires Step(header, analysis, pdtn, data, timeSeries, i).Success?
    ensures var m := Step(header, analysis, pdtn, data, timeSeries, i).value;
      && LeadTime(i, timeSeries, pdtn).Success?
      && m.values == Flatten(data[i])
      && ForecastTime in m.keys && m.keys[ForecastTime] == LeadTime(i, timeSeries, pdtn).value
      && m.latitudes == header.latitudes && m.longitudes == header.longitudes
      && (pdtn == IntervalTemplate ==>
            && IntervalEnd(header.keys, analysis).Success?
            && YearOfEndOfOverallTimeInterval in m.keys && MonthOfEndOfOverallTimeInterval in m.keys
            && DayOfEndOfOverallTimeInterval in m.keys && HourOfEndOfOverallTimeInterval in m.keys
            && MinuteOfEndOfOverallTimeInterval in m.keys && SecondOfEndOfOverallTimeInterval in m.keys
            && var e := DateTime(m.keys[YearOfEndOfOverallTimeInterval], m.keys[MonthOfEndOfOverallTimeInterval],
                                 m.keys[DayOfEndOfOverallTimeInterval], m.keys[HourOfEndOfOverallTimeInterval],
                                 m.keys[MinuteOfEndOfOverallTimeInterval]);
            && ValidDateTime(e) && ToMinutes(e) == IntervalEnd(header.keys, analysis).value
            && m.keys[SecondOfEndOfOverallTimeInterval] == 0)
  {
    if pdtn == IntervalTemplate {
      SetEndNames(header.keys, IntervalEnd(header.keys, analysis).value);
    }
  }

  /** Every key other than the lead time (and the interval end of an
      interval product) is written as the header has it. */
  lemma StepKeeps(header: Message, analysis: int, pdtn: int, data: seq<seq<seq<real>>>,
                  timeSeries: Option<seq<int>>, i: nat, k: Key)
    requires i < |data| && 0 <= analysis < EndOfTime
    requires Step(header, analysis, pdtn, data, timeSeries, i).Success?
    requires k != ForecastTime && !EndKey(k)
    ensures k in Step(header, analysis, pdtn, data, timeSeries, i).value.keys <==> k in header.keys
    ensures k in header.keys ==> Step(header, analysis, pdtn, data, timeSeries, i).value.keys[k] == header.keys[k]
  {
    if pdtn == IntervalTemplate {
      SetEndKeeps(header.keys, IntervalEnd(header.keys, analysis).value, k);
    }
  }

  /** The template, the messages written and the outcome of the writer. */
  datatype Written = Written(template: Message, out: seq<Message>, status: Outcome<WriteError>)

  /** The writer's loop after the first n steps, the steps after a failure
      being skipped because the failure ends the writer. */
  function Emitted(header: Message, analysis: int, pdtn: int, data: seq<seq<seq<real>>>,
                   timeSeries: Option<seq<int>>, n: nat): Written
    requires n <= |data| && 0 <= analysis < EndOfTime
  {
    if n == 0 then Written(header, [], Pass)
    else
      var w := Emitted(header, analysis, pdtn, data, timeSeries, n - 1);
      if w.status.Fail? then w
      else
        match Step(header, analysis, pdtn, data, timeSeries, n - 1)
        case Failure(e) => Written(w.template, w.out, Fail(e))
        case Success(m) => Written(m, w.out + [m], Pass)
  }

  /** After n steps the writer has written the messages of the steps before
      the first failing one, in step order; it passes exactly when none of
      the n steps failed, and otherwise reports the first failure.  The
      template holds the last message written. */
  lemma {:induction false} EmittedMeaning(header: Message, analysis: int, pdtn: int,
                                          data: seq<seq<seq<real>>>, timeSeries: Option<seq<int>>, n: nat)
    requires n <= |data| && 0 <= analysis < EndOfTime
    ensures var w := Emitted(header, analysis, pdtn, data, timeSeries, n);
      && |w.out| <= n
      && (forall j | 0 <= j < |w.out| :: Step(header, analysis, pdtn, data, timeSeries, j) == Success(w.out[j]))
      && (w.status.Pass? <==> |w.out| == n)
      && (w.status.Fail? ==> Step(header, analysis, pdtn, data, timeSeries, |w.out|) == Failure(w.status.error))
      && w.template == (if |w.out| == 0 then header else w.out[|w.out| - 1])
    decreases n
  {
    if n > 0 {
      EmittedMeaning(header, analysis, pdtn, data, timeSeries, n - 1);
    }
  }

  /** A failure ends the writer: later steps change nothing. */
  lemma {:induction false} FailureEnds(header: Message, analysis: int, pdtn: int,
                                       data: seq<seq<seq<real>>>, timeSeries: Option<seq<int>>, i: nat, n: nat)
    requires i <= n <= |data| && 0 <= analysis < EndOfTime
    requires Emitted(header, analysis, pdtn, data, timeSeries, i).status.Fail?
    ensures Emitted(header, analysis, pdtn, data, timeSeries, n) == Emitted(header, analysis, pdtn, data, timeSeries, i)
    decreases n - i
  {
    if i < n {
      FailureEnds(header, analysis, pdtn, data, timeSeries, i, n - 1);
    }
  }

  /** The whole of `write_grib_message` over the template t. */
  function Write(t: Message, data: seq<seq<seq<real>>>, tDiff: int, timeSeries: Option<seq<int>>): Written {
    match ShiftedAnalysis(t.keys, tDiff)
    case Failure(e) => Written(t, [], Fail(e))
    case Success(analysis) =>
      var header := t.(keys := Header(t.keys, analysis));
      match GetKey(header.keys, ProductDefinitionTemplateNumber)
      case Failure(e) => Written(header, [], Fail(e))
      case Success(pdtn) => Emitted(header, analysis, pdtn, data, timeSeries, |data|)
  }

  /** Reading back the message of a step gives the analysis time and the
      lead time of the step. */
  lemma StepReadBack(t: Message, analysis: int, pdtn: int, data: seq<seq<seq<real>>>,
                     timeSeries: Option<seq<int>>, j: nat)
    requires j < |data| && 0 <= analysis < EndOfTime && FromMinutes(analysis).year >= 1000
    requires Step(t.(keys := Header(t.keys, analysis)), analysis, pdtn, data, timeSeries, j).Success?
    ensures var m := Step(t.(keys := Header(t.keys, analysis)), analysis, pdtn, data, timeSeries, j).value;
      && DataDate in m.keys && DataTime in m.keys
      && ParseDateTime(m.keys[DataDate], m.keys[DataTime]) == Some(analysis)
      && LeadTime(j, timeSeries, pdtn).Success?
      && GribReader.ReadLeadtime(m) == Success(LeadTime(j, timeSeries, pdtn).value)
  {
    var header := t.(keys := Header(t.keys, analysis));
    StepContents(header, analysis, pdtn, data, timeSeries, j);
    StepKeeps(header, analysis, pdtn, data, timeSeries, j, DataDate);
    StepKeeps(header, analysis, pdtn, data, timeSeries, j, DataTime);
    StepKeeps(header, analysis, pdtn, data, timeSeries, j, IndicatorOfUnitOfTimeRange);
    HeaderDateRoundTrip(t.keys, analysis);
  }

  /** Reading a written message back gives the shifted analysis time and
      the lead time of its step, so its forecast time is the analysis time
      plus tDiff hours plus the lead time. */
  lemma ReadBack(t: Message, data: seq<seq<seq<real>>>, tDiff: int, timeSeries: Option<seq<int>>, j: nat)
    requires ShiftedAnalysis(t.keys, tDiff).Success?
    requires FromMinutes(ShiftedAnalysis(t.keys, tDiff).value).year >= 1000
    requires j < |Write(t, data, tDiff, timeSeries).out|
    ensures var m := Write(t, data, tDiff, timeSeries).out[j];
      && DataDate in m.keys && DataTime in m.keys
      && ParseDateTime(m.keys[DataDate], m.keys[DataTime]) == Some(ShiftedAnalysis(t.keys, tDiff).value)
      && ProductDefinitionTemplateNumber in t.keys
      && LeadTime(j, timeSeries, t.keys[ProductDefinitionTemplateNumber]).Success?
      && GribReader.ReadLeadtime(m) == Success(LeadTime(j, timeSeries, t.keys[ProductDefinitionTemplateNumber]).value)
  {
    var analysis := ShiftedAnalysis(t.keys, tDiff).value;
    var header := t.(keys := Header(t.keys, analysis));
    HeaderKeeps(t.keys, analysis, ProductDefinitionTemplateNumber);
    assert ProductDefinitionTemplateNumber in header.keys;
    var pdtn := header.keys[ProductDefinitionTemplateNumber];
    var w := Emitted(header, analysis, pdtn, data, timeSeries, |data|);
    assert Write(t, data, tDiff, timeSeries) == w;
    EmittedMeaning(header, analysis, pdtn, data, timeSeries, |data|);
    StepReadBack(t, analysis, pdtn, data, timeSeries, j);
  }

  /** The writer's state: the template handle and the output file. */
  class WriteData {
    const data: seq<seq<seq<real>>>
    const tDiff: int
    const timeSeries: Option<seq<int>>
    var template: Message
    var out: seq<Message>
    var status: Outcome<WriteError>

    /** `WriteData(...)`, which writes the file at once. */
    constructor (interpolatedData: seq<seq<seq<real>>>, inputMeta: Message, tDiff: int,
                 timeSeries: Option<seq<int>>)
      ensures data == interpolatedData && this.tDiff == tDiff && this.timeSeries == timeSeries
      ensures Written(template, out, status) == Write(inputMeta, interpolatedData, tDiff, timeSeries)
    {
      data := interpolatedData;
      this.tDiff := tDiff;
      this.timeSeries := timeSeries;
      template := inputMeta;
      out := [];
      status := Pass;
      new;
      WriteGribMessage();
    }

    /** Stamps the header, then writes one message per grid. */
    method WriteGribMessage()
      modifies this
      ensures var w := Write(old(template), data, tDiff, timeSeries);
        template == w.template && out == old(out) + w.out && status == w.status
    {
      ghost var t0 := template;
      var shifted := ShiftedAnalysis(template.keys, tDiff);
      if shifted.Failure? {
        status := Fail(shifted.error);
        return;
      }
      var analysis := shifted.value;
      template := template.(keys := Header(template.keys, analysis));
      var pdtn := GetKey(template.keys, ProductDefinitionTemplateNumber);
      if pdtn.Failure? {
        status := Fail(pdtn.error);
        return;
      }
      assert Write(t0, data, tDiff, timeSeries) == Emitted(template, analysis, pdtn.value, data, timeSeries, |data|);
      status := Pass;
      WriteSteps(template, analysis, pdtn.value);
    }

    /** The `for` loop over the time steps, from the stamped header on. */
    method WriteSteps(ghost header: Message, analysis: int, pdtn: int)
      requires 0 <= analysis < EndOfTime && template == header && status == Pass
      modifies this`template, this`out, this`status
      ensures var w := Emitted(header, analysis, pdtn, data, timeSeries, |data|);
        template == w.template && out == old(out) + w.out && status == w.status
    {
      ghost var before := out;
      var i := 0;
      while i < |data|
        invariant i <= |data|
        invariant Emitted(header, analysis, pdtn, data, timeSeries, i).status == Pass
        invariant Emitted(header, analysis, pdtn, data, timeSeries, i).template == template
        invariant out == before + Emitted(header, analysis, pdtn, data, timeSeries, i).out
        invariant status == Pass
      {
        var ok := WriteStep(header, analysis, pdtn, i);
        if !ok {
          FailureEnds(header, analysis, pdtn, data, timeSeries, i + 1, |data|);
          return;
        }
        i := i + 1;
      }
    }

    /** One pass of the loop: the lead time of step i, the interval end for
        an interval product, the lead time and values stamped on the
        template, and the template written out. */
    method WriteStep(ghost header: Message, analysis: int, pdtn: int, i: nat) returns (ok: bool)
      requires i < |data| && 0 <= analysis < EndOfTime
      requires i == 0 ==> template == header
      requires i > 0 ==> (Step(header, analysis, pdtn, data, timeSeries, i - 1).Success?
                          && template == Step(header, analysis, pdtn, data, timeSeries, i - 1).value)
      modifies this`template, this`out, this`status
      ensures var r := Step(header, analysis, pdtn, data, timeSeries, i);
        && ok == r.Success?
        && (r.Failure? ==> template == old(template) && out == old(out) && status == Fail(r.error))
        && (r.Success? ==> template == r.value && out == old(out) + [r.value] && status == old(status))
    {
      var lt := LeadTime(i, timeSeries, pdtn);
      if lt.Failure? {
        status := Fail(lt.error);
        return false;
      }
      ghost var prevLead := if i == 0 then None else Some(LeadTime(i - 1, timeSeries, pdtn).value);
      Restamp(header.keys, analysis, pdtn, template.keys, prevLead, lt.value);
      if pdtn == IntervalTemplate {
        var ended := IntervalEnd(template.keys, analysis);
        if ended.Failure? {
          status := Fail(ended.error);
          return false;
        }
        template := template.(keys := SetEnd(template.keys, ended.value));
      }
      template := template.(keys := template.keys[ForecastTime := lt.value], values := Flatten(data[i]));
      out := out + [template];
      return true;
    }
  }
}
