/** `StravaClient.activities_to_df`: raw activity records to the table of
    rows the dashboard consumes.  The DataFrame becomes a sequence of rows,
    one per record and in record order; a cell that pandas would hold as
    NaN, None or NaT is `None`.  A column exists in the DataFrame when at
    least one record carries its key, which is what `pd.json_normalize`
    does for flat records.  Date-string parsing is a foreign library call
    and is passed in as `parse`. */
module Normalise {
  import opened Wrappers
  import opened Json

  /** A parsed local start time. */
  datatype Timestamp = Timestamp(year: int, month: int, day: int, hour: int, minute: int, second: int)

  /** A calendar day. */
  datatype Date = Date(year: int, month: int, day: int)

  /** The source key to column name table of strava_client.py:94-112, in
      the order of the source's dictionary. */
  const Renames: seq<(string, string)> := [
    ("id", "activity_id"),
    ("name", "name"),
    ("type", "sport"),
    ("sport_type", "sport_type"),
    ("distance", "distance_m"),
    ("moving_time", "moving_time_s"),
    ("elapsed_time", "elapsed_time_s"),
    ("total_elevation_gain", "elev_gain_m"),
    ("start_date_local", "start_date_local"),
    ("average_speed", "avg_speed_mps"),
    ("max_speed", "max_speed_mps"),
    ("average_heartrate", "avg_hr"),
    ("max_heartrate", "max_hr"),
    ("average_cadence", "avg_cadence"),
    ("kilojoules", "kilo_joules"),
    ("has_heartrate", "has_hr"),
    ("suffer_score", "suffer_score")
  ]

  /** The source keys whose columns the conversion reads directly, so
      that a table without them raises `KeyError`. */
  const RequiredKeys: seq<string> := ["start_date_local", "distance", "moving_time", "total_elevation_gain"]

  /** One row of the cleaned table.  The renamed columns keep the record's
      value; `sport`, `elev_gain_m` and `start_date_local` are rewritten;
      the remaining fields are the derived columns. */
  datatype Row = Row(
    activityId: Option<Value>,
    name: Option<Value>,
    sport: Option<Value>,
    sportType: Option<Value>,
    distanceM: Option<Value>,
    movingTimeS: Option<Value>,
    elapsedTimeS: Option<Value>,
    elevGainM: Value,
    startDateLocal: Option<Timestamp>,
    avgSpeedMps: Option<Value>,
    maxSpeedMps: Option<Value>,
    avgHr: Option<Value>,
    maxHr: Option<Value>,
    avgCadence: Option<Value>,
    kiloJoules: Option<Value>,
    hasHr: Option<Value>,
    sufferScore: Option<Value>,
    date: Option<Date>,
    year: Option<int>,
    month: Option<Date>,
    distanceKm: Option<real>,
    movingTimeH: Option<real>,
    paceMinPerKm: Option<real>)

  /** The cleaned table: the renamed columns that exist, and the rows. */
  datatype Table = Table(columns: seq<string>, rows: seq<Row>)

  /** The exceptions the conversion raises. */
  datatype NormaliseError =
    | KeyError(column: string)      // a column read by name does not exist
    | FillValueMissing              // `fillna(None)`: sport_type exists but sport does not
    | DateParseError(text: string)  // the date parser rejected a string
    | TypeError(column: string)     // a text value in a column that is divided

  /** The cell of `key` in a record's row: absent keys and JSON nulls are
      both missing. */
  function Lookup(rec: Record, key: string): Option<Value>
  {
    if key in rec && rec[key] != Null then Some(rec[key]) else None
  }

  /** Whether the DataFrame has a column for `key`. */
  predicate HasColumn(recs: seq<Record>, key: string)
  {
    exists i :: 0 <= i < |recs| && key in recs[i]
  }

  /** Whether every value of `key` can be divided by a float: numbers,
      booleans (as 0 and 1) and missing cells, but not strings. */
  predicate NumericColumn(recs: seq<Record>, key: string)
  {
    forall i :: 0 <= i < |recs| && key in recs[i] ==> !recs[i][key].Str?
  }

  /** A cell as a number, as Python's `/` sees it. */
  function Numeric(v: Option<Value>): Option<real>
  {
    match v
    case Some(Num(x)) => Some(x)
    case Some(Bool(b)) => Some(if b then 1.0 else 0.0)
    case _ => None
  }

  /** The renamed columns that exist (strava_client.py:114-115).  The
      recursion keeps them in the order of `table`; the contract says
      which columns they are. */
  function Kept(recs: seq<Record>, table: seq<(string, string)>): (cols: seq<string>)
    ensures forall c :: c in cols <==> exists p :: p in table && p.1 == c && HasColumn(recs, p.0)
  {
    if table == [] then []
    else
      var rest := Kept(recs, table[1..]);
      assert forall p :: p in table <==> p == table[0] || p in table[1..];
      if HasColumn(recs, table[0].0) then [table[0].1] + rest else rest
  }

  /** The parsed local start time: only strings are parsed, anything else
      becomes NaT (strava_client.py:122-124). */
  function StartTime(rec: Record, parse: string -> Option<Timestamp>): Option<Timestamp>
  {
    if "start_date_local" in rec && rec["start_date_local"].Str?
    then parse(rec["start_date_local"].s)
    else None
  }

  /** Whether the parser accepts the record's start date, when it is a string. */
  predicate DateParses(rec: Record, parse: string -> Option<Timestamp>)
  {
    "start_date_local" in rec && rec["start_date_local"].Str?
    ==> parse(rec["start_date_local"].s).Some?
  }

  /** The first start-date string, in record order, that the parser rejects. */
  function FirstUnparseable(recs: seq<Record>, parse: string -> Option<Timestamp>): (bad: Option<string>)
    ensures bad.None? <==> forall i :: 0 <= i < |recs| ==> DateParses(recs[i], parse)
    ensures bad.Some? ==> parse(bad.value).None?
    ensures bad.Some? ==>
      exists i :: 0 <= i < |recs| && "start_date_local" in recs[i] && recs[i]["start_date_local"] == Str(bad.value)
        && !DateParses(recs[i], parse) && forall j :: 0 <= j < i ==> DateParses(recs[j], parse)
  {
    if recs == [] then None
    else if !DateParses(recs[0], parse) then Some(recs[0]["start_date_local"].s)
    else
      var rest := FirstUnparseable(recs[1..], parse);
      assert forall i :: 1 <= i < |recs| ==> recs[i] == recs[1..][i - 1];
      if rest.Some? then
        var i' :| 0 <= i' < |recs| - 1 && "start_date_local" in recs[1..][i'] && recs[1..][i']["start_date_local"] == Str(rest.value)
          && !DateParses(recs[1..][i'], parse) && forall j :: 0 <= j < i' ==> DateParses(recs[1..][j], parse);
        assert forall j :: 0 <= j < i' + 1 ==> DateParses(recs[j], parse) by {
          forall j | 0 <= j < i' + 1 ensures DateParses(recs[j], parse) {
            if j > 0 { assert recs[j] == recs[1..][j - 1]; }
          }
        }
        assert recs[i' + 1] == recs[1..][i'];
        rest
      else rest
  }

  /** The row of one record (strava_client.py:115-142). */
  function ToRow(rec: Record, parse: string -> Option<Timestamp>): (row: Row)
    ensures row.sport == if Lookup(rec, "sport_type").Some? then Lookup(rec, "sport_type") else Lookup(rec, "type")
    ensures Lookup(rec, "total_elevation_gain").None? ==> row.elevGainM == Num(0.0)
    ensures Lookup(rec, "total_elevation_gain").Some? ==> row.elevGainM == rec["total_elevation_gain"]
    ensures row.distanceKm.Some? <==> Numeric(Lookup(rec, "distance")).Some?
    ensures row.distanceKm.Some? ==> row.distanceKm.value * 1000.0 == Numeric(Lookup(rec, "distance")).value
    ensures row.movingTimeH.Some? <==> Numeric(Lookup(rec, "moving_time")).Some?
    ensures row.movingTimeH.Some? ==> row.movingTimeH.value * 3600.0 == Numeric(Lookup(rec, "moving_time")).value
    ensures row.paceMinPerKm.Some? <==> row.distanceKm.Some? && row.distanceKm.value > 0.0 && row.movingTimeH.Some?
    ensures row.paceMinPerKm.Some? ==> row.paceMinPerKm.value * row.distanceKm.value == 60.0 * row.movingTimeH.value
    ensures row.startDateLocal == StartTime(rec, parse)
    ensures row.startDateLocal.None? ==> row.date.None? && row.year.None? && row.month.None?
    ensures row.startDateLocal.Some? ==>
      var t := row.startDateLocal.value;
      row.date == Some(Date(t.year, t.month, t.day)) && row.year == Some(t.year)
      && row.month == Some(Date(t.year, t.month, 1))
  {
    var start := StartTime(rec, parse);
    var distanceM := Numeric(Lookup(rec, "distance"));
    var movingS := Numeric(Lookup(rec, "moving_time"));
    var distanceKm := if distanceM.Some? then Some(distanceM.value / 1000.0) else None;
    var movingH := if movingS.Some? then Some(movingS.value / 3600.0) else None;
    var pace :=
      if distanceKm.Some? && distanceKm.value > 0.0 && movingS.Some?
      then Some(movingS.value / 60.0 / distanceKm.value)
      else None;
    Row(
      activityId := Lookup(rec, "id"),
      name := Lookup(rec, "name"),
      sport := if Lookup(rec, "sport_type").Some? then Lookup(rec, "sport_type") else Lookup(rec, "type"),
      sportType := Lookup(rec, "sport_type"),
      distanceM := Lookup(rec, "distance"),
      movingTimeS := Lookup(rec, "moving_time"),
      elapsedTimeS := Lookup(rec, "elapsed_time"),
      elevGainM := if Lookup(rec, "total_elevation_gain").Some? then rec["total_elevation_gain"] else Num(0.0),
      startDateLocal := start,
      avgSpeedMps := Lookup(rec, "average_speed"),
      maxSpeedMps := Lookup(rec, "max_speed"),
      avgHr := Lookup(rec, "average_heartrate"),
      maxHr := Lookup(rec, "max_heartrate"),
      avgCadence := Lookup(rec, "average_cadence"),
      kiloJoules := Lookup(rec, "kilojoules"),
      hasHr := Lookup(rec, "has_heartrate"),
      sufferScore := Lookup(rec, "suffer_score"),
      date := if start.Some? then Some(Date(start.value.year, start.value.month, start.value.day)) else None,
      year := if start.Some? then Some(start.value.year) else None,
      month := if start.Some? then Some(Date(start.value.year, start.value.month, 1)) else None,
      distanceKm := distanceKm,
      movingTimeH := movingH,
      paceMinPerKm := pace)
  }

  /** Some record has `sport_type` but none has `type`, so line 119 calls
      `fillna(None)`. */
  predicate SportWithoutType(recs: seq<Record>)
  {
    HasColumn(recs, "sport_type") && !HasColumn(recs, "type")
  }

  /** The conversion gets past line 119 and finds the `start_date_local`
      column at line 122. */
  predicate DatesRead(recs: seq<Record>)
  {
    |recs| > 0 && !SportWithoutType(recs) && HasColumn(recs, "start_date_local")
  }

  /** ... and every start-date string parses (lines 122-124). */
  predicate DatesParsed(recs: seq<Record>, parse: string -> Option<Timestamp>)
  {
    DatesRead(recs) && forall i :: 0 <= i < |recs| ==> DateParses(recs[i], parse)
  }

  /** ... and the distance column exists and divides (line 133). */
  predicate DistanceDivided(recs: seq<Record>, parse: string -> Option<Timestamp>)
  {
    DatesParsed(recs, parse) && HasColumn(recs, "distance") && NumericColumn(recs, "distance")
  }

  /** `activities_to_df` (strava_client.py:86-144): an empty table for no
      records, otherwise one row per record in record order, or the first
      exception the conversion raises. */
  function ActivitiesToTable(recs: seq<Record>, parse: string -> Option<Timestamp>): (r: Result<Table, NormaliseError>)
    ensures |recs| == 0 ==> r == Ok(Table([], []))
    ensures r.Ok? && |recs| > 0 ==> forall key :: key in RequiredKeys ==> HasColumn(recs, key)
    ensures r.Ok? && |recs| > 0 ==> (HasColumn(recs, "sport_type") ==> HasColumn(recs, "type"))
    ensures r.Ok? && |recs| > 0 ==> NumericColumn(recs, "distance") && NumericColumn(recs, "moving_time")
    ensures r.Ok? ==> forall i :: 0 <= i < |recs| ==> DateParses(recs[i], parse)
    ensures r.Ok? ==> |r.value.rows| == |recs|
    ensures |recs| > 0 && SportWithoutType(recs) ==> r == Err(FillValueMissing)
    ensures |recs| > 0 && !SportWithoutType(recs) && !HasColumn(recs, "start_date_local") ==>
      r == Err(KeyError("start_date_local"))
    ensures DatesRead(recs) && FirstUnparseable(recs, parse).Some? ==>
      r == Err(DateParseError(FirstUnparseable(recs, parse).value))
    ensures DatesParsed(recs, parse) && !HasColumn(recs, "distance") ==> r == Err(KeyError("distance_m"))
    ensures DatesParsed(recs, parse) && HasColumn(recs, "distance") && !NumericColumn(recs, "distance") ==>
      r == Err(TypeError("distance_m"))
    ensures DistanceDivided(recs, parse) && !HasColumn(recs, "moving_time") ==> r == Err(KeyError("moving_time_s"))
    ensures DistanceDivided(recs, parse) && HasColumn(recs, "moving_time") && !NumericColumn(recs, "moving_time") ==>
      r == Err(TypeError("moving_time_s"))
    ensures
      DistanceDivided(recs, parse) && HasColumn(recs, "moving_time") && NumericColumn(recs, "moving_time")
      && !HasColumn(recs, "total_elevation_gain")
      ==> r == Err(KeyError("elev_gain_m"))
    ensures r.Ok? ==> forall i :: 0 <= i < |recs| ==> r.value.rows[i] == ToRow(recs[i], parse)
    ensures r.Ok? && |recs| > 0 ==> r.value.columns == Kept(recs, Renames)
  {
    if |recs| == 0 then Ok(Table([], []))
    else if HasColumn(recs, "sport_type") && !HasColumn(recs, "type") then Err(FillValueMissing)
    else if !HasColumn(recs, "start_date_local") then Err(KeyError("start_date_local"))
    else if FirstUnparseable(recs, parse).Some? then Err(DateParseError(FirstUnparseable(recs, parse).value))
    else if !HasColumn(recs, "distance") then Err(KeyError("distance_m"))
    else if !NumericColumn(recs, "distance") then Err(TypeError("distance_m"))
    else if !HasColumn(recs, "moving_time") then Err(KeyError("moving_time_s"))
    else if !NumericColumn(recs, "moving_time") then Err(TypeError("moving_time_s"))
    else if !HasColumn(recs, "total_elevation_gain") then Err(KeyError("elev_gain_m"))
    else Ok(Table(Kept(recs, Renames), seq(|recs|, i requires 0 <= i < |recs| => ToRow(recs[i], parse))))
  }

  /** The converse of the failure cases: a non-empty input in which the
      sport fallback column exists when `sport_type` does, the four read
      columns exist, every date string parses and the divided columns hold
      no text converts without error. */
  lemma ConversionSucceeds(recs: seq<Record>, parse: string -> Option<Timestamp>)
    requires |recs| > 0
    requires HasColumn(recs, "sport_type") ==> HasColumn(recs, "type")
    requires forall key :: key in RequiredKeys ==> HasColumn(recs, key)
    requires forall i :: 0 <= i < |recs| ==> DateParses(recs[i], parse)
    requires NumericColumn(recs, "distance") && NumericColumn(recs, "moving_time")
    ensures ActivitiesToTable(recs, parse).Ok?
  {
  }

  /** The cell of a passed-through column, by its new name. */
  function Column(row: Row, name: string): Option<Value>
  {
    match name
    case "activity_id" => row.activityId
    case "name" => row.name
    case "sport_type" => row.sportType
    case "distance_m" => row.distanceM
    case "moving_time_s" => row.movingTimeS
    case "elapsed_time_s" => row.elapsedTimeS
    case "avg_speed_mps" => row.avgSpeedMps
    case "max_speed_mps" => row.maxSpeedMps
    case "avg_hr" => row.avgHr
    case "max_hr" => row.maxHr
    case "avg_cadence" => row.avgCadence
    case "kilo_joules" => row.kiloJoules
    case "has_hr" => row.hasHr
    case "suffer_score" => row.sufferScore
    case _ => None
  }

  /** Every column of the rename table other than the three the conversion
      rewrites holds, under its new name, the record's value for the old
      key. */
  lemma RenamedColumns(rec: Record, parse: string -> Option<Timestamp>, p: (string, string))
    requires p in Renames
    requires p.1 !in ["sport", "elev_gain_m", "start_date_local"]
    ensures Column(ToRow(rec, parse), p.1) == Lookup(rec, p.0)
  {
  }

  /** A record with both `sport_type` and `type` takes `sport_type`; one
      without `sport_type` falls back to `type`. */
  lemma SportFallback(parse: string -> Option<Timestamp>)
    ensures ToRow(map["sport_type" := Str("TrailRun"), "type" := Str("Run")], parse).sport == Some(Str("TrailRun"))
    ensures ToRow(map["type" := Str("Ride")], parse).sport == Some(Str("Ride"))
    ensures ToRow(map["sport_type" := Null, "type" := Str("Ride")], parse).sport == Some(Str("Ride"))
  {
  }

  /** A 5 km run in 1500 s with a null elevation gain. */
  function ScenarioRecord(): Record
  {
    map[
      "id" := Num(1.0),
      "type" := Str("Run"),
      "distance" := Num(5000.0),
      "moving_time" := Num(1500.0),
      "total_elevation_gain" := Null,
      "start_date_local" := Str("2024-05-01T07:00:00Z")]
  }

  /** The run above converts to 5 km in 5/12 h at 5 min/km, with elevation
      gain 0 and its start time parsed. */
  lemma ScenarioRow(parse: string -> Option<Timestamp>)
    requires parse("2024-05-01T07:00:00Z") == Some(Timestamp(2024, 5, 1, 7, 0, 0))
    ensures ActivitiesToTable([ScenarioRecord()], parse).Ok?
    ensures
      var row := ActivitiesToTable([ScenarioRecord()], parse).value.rows[0];
      row.activityId == Some(Num(1.0)) && row.sport == Some(Str("Run"))
      && row.distanceKm == Some(5.0) && row.movingTimeH == Some(5.0 / 12.0)
      && row.elevGainM == Num(0.0) && row.paceMinPerKm == Some(5.0)
      && row.year == Some(2024) && row.month == Some(Date(2024, 5, 1))
  {
    var rec := ScenarioRecord();
    var recs := [rec];
    assert rec["start_date_local"] == Str("2024-05-01T07:00:00Z");
    assert DateParses(rec, parse);
    assert FirstUnparseable(recs, parse).None?;
    assert HasColumn(recs, "start_date_local") && HasColumn(recs, "type");
    assert HasColumn(recs, "distance") && HasColumn(recs, "moving_time");
    assert HasColumn(recs, "total_elevation_gain");
    assert NumericColumn(recs, "distance") && NumericColumn(recs, "moving_time");
    var row := ToRow(rec, parse);
    assert Numeric(Lookup(rec, "distance")) == Some(5000.0);
    assert Numeric(Lookup(rec, "moving_time")) == Some(1500.0);
    assert row.distanceKm == Some(5.0);
    assert row.movingTimeH == Some(5.0 / 12.0);
    assert row.paceMinPerKm == Some(5.0);
  }
}
