/** `ReadData` of file_utils.py: reads the messages of a GRIB edition 2
    file into a stack of grids with their forecast times, optionally the
    coordinates of the grid and a template message, and sorts the stack by
    forecast time.

    The source's process-wide `GRIB_MESSAGE_STEP` is passed in and handed back. */
module GribReader {
  import opened Results
  import opened Grids
  import opened Gregorian
  import opened Sorting
  import opened GribMessage

  /** The conditions on which the source raises or exits. */
  datatype ReadError =
    | UnsupportedFileType(file: string)
    | MissingKey(key: Key)
    | UnknownTimeUnit(indicator: int)
    | InvalidDate(date: int, time: int)
    | DateOverflow
    | ShapeMismatch
    | OnlyMissingData(lead: int)

  /** `codes_get_long` as the reader uses it: a missing key ends the read. */
  function GetKey(m: Message, key: Key): (r: Result<int, ReadError>)
    ensures r.Success? <==> key in m.keys
    ensures r.Success? ==> r.value == m.keys[key]
    ensures r.Failure? ==> r.error == MissingKey(key)
  {
    match GetLong(m, key)
    case None => Failure(MissingKey(key))
    case Some(v) => Success(v)
  }

  /** `read_leadtime`: the lead time of a message, in minutes. */
  function ReadLeadtime(m: Message): (r: Result<int, ReadError>)
    ensures IndicatorOfUnitOfTimeRange !in m.keys ==> r == Failure(MissingKey(IndicatorOfUnitOfTimeRange))
    ensures IndicatorOfUnitOfTimeRange in m.keys && ForecastTime !in m.keys ==> r == Failure(MissingKey(ForecastTime))
    ensures IndicatorOfUnitOfTimeRange in m.keys && ForecastTime in m.keys ==>
      var tr, ft := m.keys[IndicatorOfUnitOfTimeRange], m.keys[ForecastTime];
      && (tr == UnitHour ==> r == Success(ft * 60))
      && (tr == UnitMinute ==> r == Success(ft))
      && (tr != UnitHour && tr != UnitMinute ==> r == Failure(UnknownTimeUnit(tr)))
  {
    var tr :- GetKey(m, IndicatorOfUnitOfTimeRange);
    var ft :- GetKey(m, ForecastTime);
    if tr == UnitHour then Success(ft * 60)
    else if tr == UnitMinute then Success(ft)
    else Failure(UnknownTimeUnit(tr))
  }

  /** What the read loop takes from one message. */
  datatype Decoded = Decoded(
    ni: nat, nj: nat,
    analysis: int, lead: int, valid: int,
    grid: Grid, lat: Grid, lon: Grid)

  /** A message the read loop takes without complaint: every key it reads is
      there, the time unit is known, the date and time parse and the
      forecast time stays in range, the values (and coordinates, when read)
      fill an nj by ni grid, and it is not entirely missing unless missing
      data is allowed. */
  predicate WellFormed(m: Message, readCoordinates: bool, missingData: bool) {
    && Ni in m.keys && Nj in m.keys && DataDate in m.keys && DataTime in m.keys && NumberOfMissing in m.keys
    && ReadLeadtime(m).Success?
    && ParseDateTime(m.keys[DataDate], m.keys[DataTime]).Some?
    && 0 <= ParseDateTime(m.keys[DataDate], m.keys[DataTime]).value + ReadLeadtime(m).value < EndOfTime
    && m.keys[Ni] >= 0 && m.keys[Nj] >= 0
    && |m.values| == m.keys[Nj] * m.keys[Ni]
    && (readCoordinates ==> |m.latitudes| == m.keys[Nj] * m.keys[Ni] && |m.longitudes| == m.keys[Nj] * m.keys[Ni])
    && (missingData || m.keys[NumberOfMissing] != m.keys[Ni] * m.keys[Nj])
  }

  /** One pass of the read loop over a message: the keys read, the analysis
      and forecast times, the reshaped values and coordinates, and the check
      that the message is not entirely missing, each failing as the source
      does. */
  function DecodeMessage(m: Message, readCoordinates: bool, missingData: bool): (r: Result<Decoded, ReadError>)
    ensures r.Success? ==>
      && Ni in m.keys && Nj in m.keys && DataDate in m.keys && DataTime in m.keys
      && NumberOfMissing in m.keys
      && r.value.ni == m.keys[Ni] >= 0 && r.value.nj == m.keys[Nj] >= 0
      && ReadLeadtime(m) == Success(r.value.lead)
      && ParseDateTime(m.keys[DataDate], m.keys[DataTime]) == Some(r.value.analysis)
      && r.value.valid == r.value.analysis + r.value.lead
      && GridShape(r.value.grid, r.value.nj, r.value.ni)
      && Flatten(r.value.grid) == Vals(m.values)
      && (readCoordinates ==>
            && GridShape(r.value.lat, r.value.nj, r.value.ni) && Flatten(r.value.lat) == Vals(m.latitudes)
            && GridShape(r.value.lon, r.value.nj, r.value.ni) && Flatten(r.value.lon) == Vals(m.longitudes))
      && (!missingData ==> m.keys[NumberOfMissing] != r.value.ni * r.value.nj)
    ensures r.Failure? && r.error.OnlyMissingData? ==> !missingData
    ensures WellFormed(m, readCoordinates, missingData) ==> r.Success?
    ensures Ni in m.keys && Nj in m.keys && DataDate in m.keys && DataTime in m.keys && ReadLeadtime(m).Success?
            && ParseDateTime(m.keys[DataDate], m.keys[DataTime]).None? ==>
      r == Failure(InvalidDate(m.keys[DataDate], m.keys[DataTime]))
  {
    var ni :- GetKey(m, Ni);
    var nj :- GetKey(m, Nj);
    var date :- GetKey(m, DataDate);
    var time :- GetKey(m, DataTime);
    var lead :- ReadLeadtime(m);
    match ParseDateTime(date, time)
    case None => Failure(InvalidDate(date, time))
    case Some(analysis) =>
      match AddMinutes(analysis, lead)
      case None => Failure(DateOverflow)
      case Some(valid) =>
        if ni < 0 || nj < 0 || |m.values| != nj * ni then Failure(ShapeMismatch)
        else if readCoordinates && (|m.latitudes| != nj * ni || |m.longitudes| != nj * ni) then
          Failure(ShapeMismatch)
        else
          var grid := Reshape(Vals(m.values), nj, ni);
          var lat := if readCoordinates then Reshape(Vals(m.latitudes), nj, ni) else [];
          var lon := if readCoordinates then Reshape(Vals(m.longitudes), nj, ni) else [];
          var missing :- GetKey(m, NumberOfMissing);
          if missing == ni * nj && !missingData then Failure(OnlyMissingData(lead))
          else
            FlattenReshape(Vals(m.values), nj, ni);
            if readCoordinates then
              FlattenReshape(Vals(m.latitudes), nj, ni);
              FlattenReshape(Vals(m.longitudes), nj, ni);
              Success(Decoded(ni, nj, analysis, lead, valid, grid, lat, lon))
            else
              Success(Decoded(ni, nj, analysis, lead, valid, grid, lat, lon))
  }

  /** An all-missing message stops the read unless missing data is allowed,
      and it is the only thing `missing_data` changes. */
  lemma MissingDataSwitch(m: Message, readCoordinates: bool)
    ensures DecodeMessage(m, readCoordinates, false).Success? ==>
      DecodeMessage(m, readCoordinates, true) == DecodeMessage(m, readCoordinates, false)
    ensures DecodeMessage(m, readCoordinates, true).Success? ==>
      var d := DecodeMessage(m, readCoordinates, true).value;
      DecodeMessage(m, readCoordinates, false) ==
        if m.keys[NumberOfMissing] == d.ni * d.nj then Failure(OnlyMissingData(d.lead))
        else Success(d)
  {
  }

  /** The number of messages the loop reads from a stream of n: it stops
      once more than timeSteps forecast times have been appended. */
  function ReadCount(n: nat, timeSteps: int): (k: nat)
    ensures k <= n
    ensures n > 0 ==> 1 <= k
    ensures k <= (if timeSteps < 0 then 0 else timeSteps) + 1
    ensures timeSteps == 0 && n > 0 ==> k == 1
    ensures k < n ==> k > timeSteps
  {
    var budget := if timeSteps < 0 then 1 else timeSteps + 1;
    if n < budget then n else budget
  }

  /** The outcome of decoding each message of the stream, in file order. */
  function Decodes(stream: seq<Message>, readCoordinates: bool, missingData: bool): (rs: seq<Result<Decoded, ReadError>>)
    ensures |rs| == |stream|
    decreases |stream|
  {
    if stream == [] then []
    else Decodes(stream[..|stream| - 1], readCoordinates, missingData)
         + [DecodeMessage(stream[|stream| - 1], readCoordinates, missingData)]
  }

  lemma {:induction false} DecodesAt(stream: seq<Message>, readCoordinates: bool, missingData: bool, j: nat)
    requires j < |stream|
    ensures Decodes(stream, readCoordinates, missingData)[j] == DecodeMessage(stream[j], readCoordinates, missingData)
    decreases |stream|
  {
    if j < |stream| - 1 {
      DecodesAt(stream[..|stream| - 1], readCoordinates, missingData, j);
    }
  }

  /** Each of the first k outcomes is a success. */
  predicate AllOk(rs: seq<Result<Decoded, ReadError>>, k: nat)
    requires k <= |rs|
  {
    forall j | 0 <= j < k :: rs[j].Success?
  }

  /** The first failure among the first k outcomes. */
  function FirstFailure(rs: seq<Result<Decoded, ReadError>>, k: nat): (j: nat)
    requires k <= |rs| && !AllOk(rs, k)
    ensures j < k && rs[j].Failure? && AllOk(rs, j)
    decreases k
  {
    if AllOk(rs, k - 1) then k - 1 else FirstFailure(rs, k - 1)
  }

  /** A failure after k successes is the first failure of any longer prefix. */
  lemma FirstFailureAt(rs: seq<Result<Decoded, ReadError>>, k: nat, j: nat)
    requires j < k <= |rs| && AllOk(rs, j) && rs[j].Failure?
    ensures !AllOk(rs, k) && FirstFailure(rs, k) == j
  {
  }

  /** The decoded messages behind the first k outcomes, all successes. */
  function Successes(rs: seq<Result<Decoded, ReadError>>, k: nat): (ds: seq<Decoded>)
    requires k <= |rs| && AllOk(rs, k)
    ensures |ds| == k && forall j | 0 <= j < k :: rs[j] == Success(ds[j])
  {
    seq(k, j requires 0 <= j < k => rs[j].value)
  }

  function GridsOf(ds: seq<Decoded>): (r: seq<Grid>)
    ensures |r| == |ds| && forall j | 0 <= j < |ds| :: r[j] == ds[j].grid
  {
    seq(|ds|, j requires 0 <= j < |ds| => ds[j].grid)
  }

  /** The forecast times of the decoded messages, shifted by delta minutes. */
  function ValidsOf(ds: seq<Decoded>, delta: int): (r: seq<int>)
    ensures |r| == |ds| && forall j | 0 <= j < |ds| :: r[j] == ds[j].valid + delta
  {
    seq(|ds|, j requires 0 <= j < |ds| => ds[j].valid + delta)
  }

  function LatsOf(ds: seq<Decoded>): (r: seq<Grid>)
    ensures |r| == |ds| && forall j | 0 <= j < |ds| :: r[j] == ds[j].lat
  {
    seq(|ds|, j requires 0 <= j < |ds| => ds[j].lat)
  }

  function LonsOf(ds: seq<Decoded>): (r: seq<Grid>)
    ensures |r| == |ds| && forall j | 0 <= j < |ds| :: r[j] == ds[j].lon
  {
    seq(|ds|, j requires 0 <= j < |ds| => ds[j].lon)
  }

  /** The (nj, ni) shape of each decoded message. */
  function ShapesOf(ds: seq<Decoded>): (r: seq<(nat, nat)>)
    ensures |r| == |ds| && forall j | 0 <= j < |ds| :: r[j] == (ds[j].nj, ds[j].ni)
  {
    seq(|ds|, j requires 0 <= j < |ds| => (ds[j].nj, ds[j].ni))
  }

  /** All shapes are the first one: `np.asarray` of the list of grids gives
      one three-dimensional array only then. */
  predicate SameShapes(shapes: seq<(nat, nat)>) {
    forall j | 0 <= j < |shapes| :: shapes[j] == shapes[0]
  }

  /** The lead times of the decoded messages. */
  function Leads(ds: seq<Decoded>): (leads: seq<int>)
    ensures |leads| == |ds| && forall j | 0 <= j < |ds| :: leads[j] == ds[j].lead
  {
    seq(|ds|, j requires 0 <= j < |ds| => ds[j].lead)
  }

  /** `GRIB_MESSAGE_STEP` after messages with the given lead times were read
      as templates: set to a strictly positive lead time while still unset. */
  function StepAfter(step: Option<int>, leads: seq<int>): Option<int>
  {
    if leads == [] then step
    else
      var before := StepAfter(step, leads[..|leads| - 1]);
      if before.None? && leads[|leads| - 1] > 0 then Some(leads[|leads| - 1]) else before
  }

  /** The message step is assigned at most once: a step already set is kept,
      and an unset one becomes the first strictly positive lead time. */
  lemma {:induction false} StepSetOnce(step: Option<int>, leads: seq<int>)
    ensures step.Some? ==> StepAfter(step, leads) == step
    ensures step.None? ==>
      var r := StepAfter(step, leads);
      && (r.None? <==> forall j | 0 <= j < |leads| :: leads[j] <= 0)
      && (r.Some? ==> exists j | 0 <= j < |leads| ::
            leads[j] == r.value > 0 && forall i | 0 <= i < j :: leads[i] <= 0)
  {
    if leads != [] {
      var init := leads[..|leads| - 1];
      StepSetOnce(step, init);
      var before := StepAfter(step, init);
      if step.None? && before.Some? {
        var j :| 0 <= j < |init| && init[j] == before.value > 0 && forall i | 0 <= i < j :: init[i] <= 0;
        assert leads[j] == init[j];
      }
    }
  }

  /** What the read loop has collected: the grids and forecast times in
      message order, the coordinates of every message when asked for, the
      last message as template when asked for, the analysis and forecast
      time of the last message, and the message step. */
  datatype LoopState = LoopState(
    data: Stack,
    dtime: seq<int>,
    shapes: seq<(nat, nat)>,
    latitudes: seq<Grid>,
    longitudes: seq<Grid>,
    template: Option<Message>,
    analysisTime: Option<int>,
    forecastTime: Option<int>,
    step: Option<int>)

  /** The loop's state after the first |ds| messages of the stream decoded as ds. */
  function LoopAfter(stream: seq<Message>, ds: seq<Decoded>, readCoordinates: bool,
                     useAsTemplate: bool, step: Option<int>): (s: LoopState)
    requires |ds| <= |stream|
  {
    var k := |ds|;
    LoopState(
      GridsOf(ds),
      ValidsOf(ds, 0),
      ShapesOf(ds),
      if readCoordinates then LatsOf(ds) else [],
      if readCoordinates then LonsOf(ds) else [],
      if useAsTemplate && k > 0 then Some(stream[k - 1]) else None,
      if k > 0 then Some(ds[k - 1].analysis) else None,
      if k > 0 then Some(ds[k - 1].valid) else None,
      if useAsTemplate then StepAfter(step, Leads(ds)) else step)
  }

  /** The appends of one pass of the loop body over message m, decoded as d:
      its grid and forecast time, its coordinates when asked for, the message
      as template when asked for, and the message step while it is unset. */
  function Append(s: LoopState, m: Message, d: Decoded, readCoordinates: bool, useAsTemplate: bool): LoopState
  {
    LoopState(
      s.data + [d.grid],
      s.dtime + [d.valid],
      s.shapes + [(d.nj, d.ni)],
      if readCoordinates then s.latitudes + [d.lat] else s.latitudes,
      if readCoordinates then s.longitudes + [d.lon] else s.longitudes,
      if useAsTemplate then Some(m) else s.template,
      Some(d.analysis),
      Some(d.valid),
      if useAsTemplate && s.step.None? && d.lead > 0 then Some(d.lead) else s.step)
  }

  /** One more message read: its grid and forecast time are appended, its
      coordinates too when asked for, and it becomes the template when asked
      for. */
  lemma LoopStep(stream: seq<Message>, rs: seq<Result<Decoded, ReadError>>, j: nat,
                 readCoordinates: bool, useAsTemplate: bool, step: Option<int>)
    requires j < |rs| == |stream| && AllOk(rs, j) && rs[j].Success?
    ensures AllOk(rs, j + 1)
    ensures LoopAfter(stream, Successes(rs, j + 1), readCoordinates, useAsTemplate, step)
         == Append(LoopAfter(stream, Successes(rs, j), readCoordinates, useAsTemplate, step),
                   stream[j], rs[j].value, readCoordinates, useAsTemplate)
  {
    var ds := Successes(rs, j);
    var d := rs[j].value;
    var ds' := ds + [d];
    assert Successes(rs, j + 1) == ds';
    assert GridsOf(ds') == GridsOf(ds) + [d.grid];
    assert ValidsOf(ds', 0) == ValidsOf(ds, 0) + [d.valid];
    assert ShapesOf(ds') == ShapesOf(ds) + [(d.nj, d.ni)];
    assert LatsOf(ds') == LatsOf(ds) + [d.lat];
    assert LonsOf(ds') == LonsOf(ds) + [d.lon];
    assert Leads(ds')[..j] == Leads(ds);
  }

  /** The loop's state after the first j messages, appended one by one. */
  function Collect(stream: seq<Message>, rs: seq<Result<Decoded, ReadError>>, j: nat,
                   readCoordinates: bool, useAsTemplate: bool, step: Option<int>): LoopState
    requires j <= |rs| == |stream| && AllOk(rs, j)
    decreases j
  {
    if j == 0 then LoopState([], [], [], [], [], None, None, None, step)
    else Append(Collect(stream, rs, j - 1, readCoordinates, useAsTemplate, step),
                stream[j - 1], rs[j - 1].value, readCoordinates, useAsTemplate)
  }

  /** Appending message after message collects, for each list, the
      corresponding part of every decoded message, in message order. */
  lemma {:induction false} CollectMeaning(stream: seq<Message>, rs: seq<Result<Decoded, ReadError>>, j: nat,
                                          readCoordinates: bool, useAsTemplate: bool, step: Option<int>)
    requires j <= |rs| == |stream| && AllOk(rs, j)
    ensures Collect(stream, rs, j, readCoordinates, useAsTemplate, step)
         == LoopAfter(stream, Successes(rs, j), readCoordinates, useAsTemplate, step)
    decreases j
  {
    if j > 0 {
      CollectMeaning(stream, rs, j - 1, readCoordinates, useAsTemplate, step);
      LoopStep(stream, rs, j - 1, readCoordinates, useAsTemplate, step);
    }
  }

  /** What the read loop ends with: the state after the messages it reads,
      or the error of the first of them that fails to decode. */
  function ReadLoop(stream: seq<Message>, readCoordinates: bool, useAsTemplate: bool,
                    timeSteps: int, missingData: bool, step: Option<int>): Result<LoopState, ReadError>
  {
    var rs := Decodes(stream, readCoordinates, missingData);
    var k := ReadCount(|stream|, timeSteps);
    if AllOk(rs, k) then Success(Collect(stream, rs, k, readCoordinates, useAsTemplate, step))
    else Failure(rs[FirstFailure(rs, k)].error)
  }

  lemma ReadLoopFails(stream: seq<Message>, readCoordinates: bool, useAsTemplate: bool,
                      timeSteps: int, missingData: bool, step: Option<int>, j: nat)
    requires j < ReadCount(|stream|, timeSteps)
    requires AllOk(Decodes(stream, readCoordinates, missingData), j)
    requires Decodes(stream, readCoordinates, missingData)[j].Failure?
    ensures ReadLoop(stream, readCoordinates, useAsTemplate, timeSteps, missingData, step)
         == Failure(Decodes(stream, readCoordinates, missingData)[j].error)
  {
    FirstFailureAt(Decodes(stream, readCoordinates, missingData), ReadCount(|stream|, timeSteps), j);
  }

  lemma ReadLoopSucceeds(stream: seq<Message>, readCoordinates: bool, useAsTemplate: bool,
                         timeSteps: int, missingData: bool, step: Option<int>, s: LoopState)
    requires AllOk(Decodes(stream, readCoordinates, missingData), ReadCount(|stream|, timeSteps))
    requires s == Collect(stream, Decodes(stream, readCoordinates, missingData), ReadCount(|stream|, timeSteps),
                          readCoordinates, useAsTemplate, step)
    ensures ReadLoop(stream, readCoordinates, useAsTemplate, timeSteps, missingData, step) == Success(s)
  {
  }

  /** One pass of the read loop extends the collected state by one message. */
  lemma CollectNext(stream: seq<Message>, rs: seq<Result<Decoded, ReadError>>, j: nat,
                    readCoordinates: bool, useAsTemplate: bool, step: Option<int>, s: LoopState)
    requires j < |rs| == |stream| && AllOk(rs, j) && rs[j].Success?
    requires s == Collect(stream, rs, j, readCoordinates, useAsTemplate, step)
    ensures AllOk(rs, j + 1)
    ensures Append(s, stream[j], rs[j].value, readCoordinates, useAsTemplate)
         == Collect(stream, rs, j + 1, readCoordinates, useAsTemplate, step)
  {
  }

  /** The `while True` loop of `read_grib`: one message after the other until
      the stream ends or more than timeSteps forecast times were appended;
      the first message that fails to decode ends the read. */
  method ReadMessages(stream: seq<Message>, readCoordinates: bool, useAsTemplate: bool,
                      timeSteps: int, missingData: bool, step: Option<int>)
    returns (r: Result<LoopState, ReadError>)
    ensures r == ReadLoop(stream, readCoordinates, useAsTemplate, timeSteps, missingData, step)
  {
    ghost var rs := Decodes(stream, readCoordinates, missingData);
    ghost var k := ReadCount(|stream|, timeSteps);
    var s := LoopState([], [], [], [], [], None, None, None, step);
    var j := 0;
    while j < |stream|
      invariant j <= k && (j < |stream| ==> j < k)
      invariant AllOk(rs, j)
      invariant s == Collect(stream, rs, j, readCoordinates, useAsTemplate, step)
      invariant |s.dtime| == j
    {
      var decoded := NextMessage(stream, j, readCoordinates, missingData);
      if decoded.Failure? {
        ReadLoopFails(stream, readCoordinates, useAsTemplate, timeSteps, missingData, step, j);
        return Failure(decoded.error);
      }
      CollectNext(stream, rs, j, readCoordinates, useAsTemplate, step, s);
      s := Append(s, stream[j], decoded.value, readCoordinates, useAsTemplate);
      j := j + 1;
      if |s.dtime| > timeSteps {
        break;
      }
    }
    assert j == k by {
      if j < |stream| {
        assert |s.dtime| == j > timeSteps;
      }
    }
    ReadLoopSucceeds(stream, readCoordinates, useAsTemplate, timeSteps, missingData, step, s);
    return Success(s);
  }

  /** What a successful read loop collects, field by field. */
  lemma ReadLoopFields(stream: seq<Message>, readCoordinates: bool, useAsTemplate: bool,
                       timeSteps: int, missingData: bool, step: Option<int>)
    ensures ReadLoop(stream, readCoordinates, useAsTemplate, timeSteps, missingData, step).Success? ==>
      var rs := Decodes(stream, readCoordinates, missingData);
      var k := ReadCount(|stream|, timeSteps);
      && AllOk(rs, k)
      && var ds := Successes(rs, k);
      && var s := ReadLoop(stream, readCoordinates, useAsTemplate, timeSteps, missingData, step).value;
      && s.data == GridsOf(ds)
      && s.dtime == ValidsOf(ds, 0)
      && s.shapes == ShapesOf(ds)
      && |s.latitudes| == |s.longitudes|
      && (|s.latitudes| > 0 <==> readCoordinates && k > 0)
      && (|s.latitudes| > 0 ==> |s.longitudes| > 0 && s.latitudes[0] == ds[0].lat && s.longitudes[0] == ds[0].lon)
      && s.template == (if useAsTemplate && k > 0 then Some(stream[k - 1]) else None)
      && s.analysisTime == (if k > 0 then Some(ds[k - 1].analysis) else None)
      && s.forecastTime == (if k > 0 then Some(ds[k - 1].valid) else None)
      && s.step == if useAsTemplate then StepAfter(step, Leads(ds)) else step
  {
    var rs := Decodes(stream, readCoordinates, missingData);
    var k := ReadCount(|stream|, timeSteps);
    if AllOk(rs, k) {
      CollectMeaning(stream, rs, k, readCoordinates, useAsTemplate, step);
    }
  }

  /** One pass of the loop body up to the appends: `codes_grib_new_from_file`
      hands over message j, which is then decoded. */
  method NextMessage(stream: seq<Message>, j: nat, readCoordinates: bool, missingData: bool)
    returns (r: Result<Decoded, ReadError>)
    requires j < |stream|
    ensures r == Decodes(stream, readCoordinates, missingData)[j]
  {
    r := DecodeMessage(stream[j], readCoordinates, missingData);
    DecodesAt(stream, readCoordinates, missingData, j);
  }

  /** Every decoded grid, and its coordinates when they are read, has the
      shape of its own message. */
  lemma DecodedShapes(stream: seq<Message>, readCoordinates: bool, missingData: bool, k: nat)
    requires k <= |stream| && AllOk(Decodes(stream, readCoordinates, missingData), k)
    ensures var ds := Successes(Decodes(stream, readCoordinates, missingData), k);
      forall j | 0 <= j < k ::
        && GridShape(ds[j].grid, ds[j].nj, ds[j].ni)
        && (readCoordinates ==> GridShape(ds[j].lat, ds[j].nj, ds[j].ni) && GridShape(ds[j].lon, ds[j].nj, ds[j].ni))
  {
    forall j | 0 <= j < k {
      DecodesAt(stream, readCoordinates, missingData, j);
    }
  }

  /** The grids collected have the shapes recorded for them, and so do the
      first coordinates. */
  predicate Shaped(s: LoopState) {
    && |s.shapes| == |s.data|
    && (forall j | 0 <= j < |s.data| :: GridShape(s.data[j], s.shapes[j].0, s.shapes[j].1))
    && |s.latitudes| == |s.longitudes|
    && (|s.latitudes| > 0 ==>
          && |s.shapes| > 0
          && GridShape(s.latitudes[0], s.shapes[0].0, s.shapes[0].1)
          && GridShape(s.longitudes[0], s.shapes[0].0, s.shapes[0].1))
  }

  /** `[t + timedelta(hours=added_hours) for t in dtime_ls]`, failing when a
      shifted time leaves the range of `datetime`. */
  function ShiftTimes(ts: seq<int>, delta: int): (r: Option<seq<int>>)
    ensures r.Some? <==> forall i | 0 <= i < |ts| :: 0 <= ts[i] + delta < EndOfTime
    ensures r.Some? ==> |r.value| == |ts| && forall i | 0 <= i < |ts| :: r.value[i] == ts[i] + delta
  {
    if forall i | 0 <= i < |ts| :: AddMinutes(ts[i], delta).Some? then
      Some(seq(|ts|, i requires 0 <= i < |ts| => ts[i] + delta))
    else None
  }

  /** Shifting the forecast times of the loop shifts each decoded one. */
  lemma ShiftValids(ds: seq<Decoded>, delta: int)
    requires ShiftTimes(ValidsOf(ds, 0), delta).Some?
    ensures ShiftTimes(ValidsOf(ds, 0), delta).value == ValidsOf(ds, delta)
  {
    var shifted := ShiftTimes(ValidsOf(ds, 0), delta).value;
    assert forall i | 0 <= i < |ds| :: shifted[i] == ValidsOf(ds, delta)[i];
  }

  predicate EndsWith(s: string, suffix: string) {
    |s| >= |suffix| && s[|s| - |suffix|..] == suffix
  }

  function Zip<A, B>(xs: seq<A>, ys: seq<B>): (r: seq<(A, B)>)
    requires |xs| == |ys|
    ensures |r| == |xs| && forall i | 0 <= i < |r| :: r[i] == (xs[i], ys[i])
  {
    seq(|xs|, i requires 0 <= i < |xs| => (xs[i], ys[i]))
  }

  /** How `read_grib` ends: with the error of the first message the loop
      reaches that fails to decode, with a shape mismatch when the grids read
      do not all have the first one's shape, with an overflow when the shift by
      `added_hours` takes a forecast time out of range, or successfully. */
  function GribStatus(stream: seq<Message>, addedHours: int, timeSteps: int,
                      readCoordinates: bool, missingData: bool): Outcome<ReadError>
  {
    var rs := Decodes(stream, readCoordinates, missingData);
    var k := ReadCount(|stream|, timeSteps);
    if !AllOk(rs, k) then Fail(rs[FirstFailure(rs, k)].error)
    else if !SameShapes(ShapesOf(Successes(rs, k))) then Fail(ShapeMismatch)
    else if ShiftTimes(ValidsOf(Successes(rs, k), 0), addedHours * 60).None? then Fail(DateOverflow)
    else Pass
  }

  /** A grid read with another shape than the first one ends the read with a
      shape mismatch, whatever else the messages hold. */
  lemma MixedShapesFail(stream: seq<Message>, addedHours: int, timeSteps: int,
                        readCoordinates: bool, missingData: bool, j: nat)
    requires j < ReadCount(|stream|, timeSteps)
    requires AllOk(Decodes(stream, readCoordinates, missingData), ReadCount(|stream|, timeSteps))
    requires var ds := Successes(Decodes(stream, readCoordinates, missingData), ReadCount(|stream|, timeSteps));
      ds[j].nj != ds[0].nj || ds[j].ni != ds[0].ni
    ensures GribStatus(stream, addedHours, timeSteps, readCoordinates, missingData) == Fail(ShapeMismatch)
  {
  }

  /** How `read` ends: an unsupported file type, or as `read_grib` ends. */
  function ReadStatus(dataFile: string, stream: seq<Message>, addedHours: int, timeSteps: int,
                      readCoordinates: bool, missingData: bool): Outcome<ReadError>
  {
    if !EndsWith(dataFile, ".grib2") then Fail(UnsupportedFileType(dataFile))
    else GribStatus(stream, addedHours, timeSteps, readCoordinates, missingData)
  }

  /** A read GRIB file: the grids and their forecast times sorted by time,
      the first message's coordinates and the template message. */
  class ReadData {
    const dataFile: string
    var data: Stack
    var latitudes: Option<Grid>
    var longitudes: Option<Grid>
    var template: Option<Message>
    var dtime: seq<int>
    var forecastTime: Option<int>
    var analysisTime: Option<int>
    /** How the read ended; the source ends the process on a failure, so
        the other fields mean nothing once this is a `Fail`. */
    var status: Outcome<ReadError>
    /** `GRIB_MESSAGE_STEP` after the read. */
    var messageStep: Option<int>

    /** `__init__`: read the file, then sort the stack by forecast time.  The
        stream stands for the messages of the file, in file order. */
    constructor (dataFile: string, stream: seq<Message>, addedHours: int, timeSteps: int,
                 readCoordinates: bool, useAsTemplate: bool, missingData: bool, step: Option<int>)
      ensures this.dataFile == dataFile
      ensures status == ReadStatus(dataFile, stream, addedHours, timeSteps, readCoordinates, missingData)
      ensures status.Pass? ==>
        var rs := Decodes(stream, readCoordinates, missingData);
        var k := ReadCount(|stream|, timeSteps);
        && AllOk(rs, k)
        && var ds := Successes(rs, k);
        && var times := ValidsOf(ds, addedHours * 60);
        && dtime == SortArrayByTimeSeries(times, GenerateSorter(times))
        && data == SortArrayByTimeSeries(GridsOf(ds), GenerateSorter(times))
        && NonDecreasing(dtime)
        && multiset(Zip(dtime, data)) == multiset(Zip(times, GridsOf(ds)))
        && latitudes == (if readCoordinates && k > 0 then Some(ds[0].lat) else None)
        && longitudes == (if readCoordinates && k > 0 then Some(ds[0].lon) else None)
        && template == (if useAsTemplate && k > 0 then Some(stream[k - 1]) else None)
        && analysisTime == (if k > 0 then Some(ds[k - 1].analysis) else None)
        && forecastTime == (if k > 0 then Some(ds[k - 1].valid) else None)
        && (k > 0 ==>
              && StackShape(data, ds[0].nj, ds[0].ni)
              && (latitudes.Some? ==> GridShape(latitudes.value, ds[0].nj, ds[0].ni))
              && (longitudes.Some? ==> GridShape(longitudes.value, ds[0].nj, ds[0].ni)))
        && messageStep == if useAsTemplate then StepAfter(step, Leads(ds)) else step
    {
      this.dataFile := dataFile;
      data, dtime := [], [];
      latitudes, longitudes, template := None, None, None;
      forecastTime, analysisTime := None, None;
      status, messageStep := Pass, step;
      new;
      Read(stream, addedHours, readCoordinates, useAsTemplate, timeSteps, missingData, step);
      if status.Pass? {
        ghost var ds := Successes(Decodes(stream, readCoordinates, missingData), ReadCount(|stream|, timeSteps));
        ghost var times := ValidsOf(ds, addedHours * 60);
        assert dtime == times && data == GridsOf(ds);
        ghost var fields := (latitudes, longitudes, template, analysisTime, forecastTime, messageStep);
        SortByTime();
        assert (latitudes, longitudes, template, analysisTime, forecastTime, messageStep) == fields;
        assert dtime == SortArrayByTimeSeries(times, GenerateSorter(times));
        assert data == SortArrayByTimeSeries(GridsOf(ds), GenerateSorter(times));
      }
    }

    /** `read`: only files named `.grib2` are read. */
    method Read(stream: seq<Message>, addedHours: int, readCoordinates: bool, useAsTemplate: bool,
                timeSteps: int, missingData: bool, step: Option<int>)
      modifies this
      ensures status == ReadStatus(dataFile, stream, addedHours, timeSteps, readCoordinates, missingData)
      ensures status.Pass? ==>
        var rs := Decodes(stream, readCoordinates, missingData);
        var k := ReadCount(|stream|, timeSteps);
        && AllOk(rs, k)
        && var ds := Successes(rs, k);
        && data == GridsOf(ds)
        && dtime == ValidsOf(ds, addedHours * 60)
        && latitudes == (if readCoordinates && k > 0 then Some(ds[0].lat) else None)
        && longitudes == (if readCoordinates && k > 0 then Some(ds[0].lon) else None)
        && template == (if useAsTemplate && k > 0 then Some(stream[k - 1]) else None)
        && analysisTime == (if k > 0 then Some(ds[k - 1].analysis) else None)
        && forecastTime == (if k > 0 then Some(ds[k - 1].valid) else None)
        && (k > 0 ==>
              && StackShape(data, ds[0].nj, ds[0].ni)
              && (latitudes.Some? ==> GridShape(latitudes.value, ds[0].nj, ds[0].ni))
              && (longitudes.Some? ==> GridShape(longitudes.value, ds[0].nj, ds[0].ni)))
        && messageStep == if useAsTemplate then StepAfter(step, Leads(ds)) else step
    {
      if !EndsWith(dataFile, ".grib2") {
        status := Fail(UnsupportedFileType(dataFile));
        return;
      }
      ReadGrib(stream, addedHours, readCoordinates, useAsTemplate, timeSteps, missingData, step);
    }

    /** `read_grib`: the read loop, the coordinates of the first message and
        the shift of every forecast time by `added_hours`. */
    method ReadGrib(stream: seq<Message>, addedHours: int, readCoordinates: bool, useAsTemplate: bool,
                    timeSteps: int, missingData: bool, step: Option<int>)
      modifies this
      ensures status == GribStatus(stream, addedHours, timeSteps, readCoordinates, missingData)
      ensures status.Pass? ==>
        var rs := Decodes(stream, readCoordinates, missingData);
        var k := ReadCount(|stream|, timeSteps);
        && AllOk(rs, k)
        && var ds := Successes(rs, k);
        && data == GridsOf(ds)
        && dtime == ValidsOf(ds, addedHours * 60)
        && latitudes == (if readCoordinates && k > 0 then Some(ds[0].lat) else None)
        && longitudes == (if readCoordinates && k > 0 then Some(ds[0].lon) else None)
        && template == (if useAsTemplate && k > 0 then Some(stream[k - 1]) else None)
        && analysisTime == (if k > 0 then Some(ds[k - 1].analysis) else None)
        && forecastTime == (if k > 0 then Some(ds[k - 1].valid) else None)
        && (k > 0 ==>
              && StackShape(data, ds[0].nj, ds[0].ni)
              && (latitudes.Some? ==> GridShape(latitudes.value, ds[0].nj, ds[0].ni))
              && (longitudes.Some? ==> GridShape(longitudes.value, ds[0].nj, ds[0].ni)))
        && messageStep == if useAsTemplate then StepAfter(step, Leads(ds)) else step
    {
      var r := ReadMessages(stream, readCoordinates, useAsTemplate, timeSteps, missingData, step);
      ReadLoopFields(stream, readCoordinates, useAsTemplate, timeSteps, missingData, step);
      if r.Failure? {
        status := Fail(r.error);
        return;
      }
      ghost var ds := Successes(Decodes(stream, readCoordinates, missingData), ReadCount(|stream|, timeSteps));
      DecodedShapes(stream, readCoordinates, missingData, ReadCount(|stream|, timeSteps));
      StoreResults(r.value, addedHours);
      if status.Pass? {
        ShiftValids(ds, addedHours * 60);
      }
    }

    /** The end of `read_grib`: the stack of grids, the coordinates of the
        first message, and the forecast times shifted by `added_hours`. */
    method StoreResults(s: LoopState, addedHours: int)
      requires Shaped(s)
      modifies this
      ensures status ==
        if !SameShapes(s.shapes) then Fail(ShapeMismatch)
        else if ShiftTimes(s.dtime, addedHours * 60).None? then Fail(DateOverflow)
        else Pass
      ensures status.Pass? && |s.shapes| > 0 ==>
        var (rows, cols) := s.shapes[0];
        && StackShape(data, rows, cols)
        && (latitudes.Some? ==> GridShape(latitudes.value, rows, cols))
        && (longitudes.Some? ==> GridShape(longitudes.value, rows, cols))
      ensures status.Pass? ==>
        && data == s.data
        && dtime == ShiftTimes(s.dtime, addedHours * 60).value
        && latitudes == (if |s.latitudes| > 0 then Some(s.latitudes[0]) else None)
        && longitudes == (if |s.longitudes| > 0 then Some(s.longitudes[0]) else None)
        && template == s.template
        && analysisTime == s.analysisTime
        && forecastTime == s.forecastTime
        && messageStep == s.step
    {
      template, analysisTime, forecastTime, messageStep := s.template, s.analysisTime, s.forecastTime, s.step;
      if !SameShapes(s.shapes) {
        status := Fail(ShapeMismatch);
        return;
      }
      data := s.data;
      if |s.latitudes| > 0 {
        latitudes, longitudes := Some(s.latitudes[0]), Some(s.longitudes[0]);
      } else {
        latitudes, longitudes := None, None;
      }
      var shifted := ShiftTimes(s.dtime, addedHours * 60);
      if shifted.None? {
        status := Fail(DateOverflow);
        return;
      }
      dtime := shifted.value;
      status := Pass;
    }

    /** The sort step of `__init__`: `generate_sorter` on the forecast times,
        then `sort_array_by_time_series` of both the times and the grids. */
    method SortByTime()
      requires |data| == |dtime|
      modifies this`data, this`dtime
      ensures dtime == SortArrayByTimeSeries(old(dtime), GenerateSorter(old(dtime)))
      ensures data == SortArrayByTimeSeries(old(data), GenerateSorter(old(dtime)))
      ensures NonDecreasing(dtime)
      ensures multiset(Zip(dtime, data)) == multiset(Zip(old(dtime), old(data)))
      ensures forall rows: nat, cols: nat :: StackShape(old(data), rows, cols) ==> StackShape(data, rows, cols)
    {
      var sorter := GenerateSorter(dtime);
      SortedTimes(dtime);
      SorterPermutes(Zip(dtime, data), dtime);
      assert Zip(SortArrayByTimeSeries(dtime, sorter), SortArrayByTimeSeries(data, sorter))
          == SortArrayByTimeSeries(Zip(dtime, data), sorter);
      dtime := SortArrayByTimeSeries(dtime, sorter);
      data := SortArrayByTimeSeries(data, sorter);
    }
  }
}
