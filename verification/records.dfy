/**
 * The record mapper (parseRecord): one data line of the legacy CSV format,
 * already split into at least 16 fields, becomes one time-series point.
 */
module Records {
  import opened Wrappers
  import GoStrconv

  /** A float64, as its IEEE-754 bit pattern; the model does no arithmetic on it. */
  datatype Float64 = Float64(bits: bv64)

  /** An instant, in nanoseconds since the Unix epoch. */
  datatype Instant = Instant(unixNanos: int)

  datatype FieldValue = FloatValue(f: Float64) | IntValue(i: int) | StringValue(s: string)

  /** A point of the batch: measurement name, tags, fields and timestamp. */
  datatype Point = Point(
    measurement: string,
    tags: map<string, string>,
    fields: map<string, FieldValue>,
    time: Instant)

  /**
   * The library code the mapper calls and this model does not look inside:
   * strconv.ParseFloat(s, 64), time.ParseInLocation with the layout
   * "2006-01-02 15:04:05" in UTC, and the checks influx.NewPoint makes
   * before it accepts a point. Each is a partial function, None meaning
   * that the call returned an error.
   */
  datatype Externals = Externals(
    parseFloat: string -> Option<Float64>,
    parseTime: string -> Option<Instant>,
    acceptsPoint: Point -> bool)

  datatype RecordError =
    | BadColumn(column: nat, text: string)  // the column whose parse failed, and its text
    | PointRejected                         // influx.NewPoint returned an error

  /** The number of columns of the legacy CSV format. */
  const ColumnCount: nat := 16

  const DateColumn: nat := 15
  const SoftwareColumn: nat := 14
  const WindDirectionNameColumn: nat := 4
  const HumidityColumn: nat := 8

  /** The columns parsed as float64, with the field each one feeds. */
  const FloatColumns: seq<(nat, string)> := [
    (1, "temperature"), (2, "dewpoint"), (3, "pressure"), (5, "wind_direction"),
    (6, "wind_speed"), (7, "wind_speed_gust"), (9, "hourly_precipitation"), (13, "solar_radiation")]

  /** The field names of every point. */
  const FieldNames: set<string> := {
    "temperature", "dewpoint", "pressure", "wind_direction_name", "wind_direction",
    "wind_speed", "wind_speed_gust", "humidity", "hourly_precipitation", "solar_radiation"}

  /** The columns the mapper parses, in the order it tries them; the first failure ends the record. */
  const ParseOrder: seq<nat> := [15, 1, 2, 3, 5, 6, 7, 8, 9, 13]

  function TimeColumn(ext: Externals, records: seq<string>): Result<Instant, RecordError>
    requires |records| >= ColumnCount
  {
    match ext.parseTime(records[DateColumn])
    case Some(t) => Ok(t)
    case None => Err(BadColumn(DateColumn, records[DateColumn]))
  }

  function FloatColumn(ext: Externals, records: seq<string>, c: nat): Result<Float64, RecordError>
    requires c < |records|
  {
    match ext.parseFloat(records[c])
    case Some(v) => Ok(v)
    case None => Err(BadColumn(c, records[c]))
  }

  function HumidityValue(records: seq<string>): Result<int, RecordError>
    requires |records| >= ColumnCount
  {
    match GoStrconv.ParseInt(records[HumidityColumn])
    case Some(v) => Ok(v)
    case None => Err(BadColumn(HumidityColumn, records[HumidityColumn]))
  }

  /** influx.NewPoint: the point, unless the client library rejects it. */
  function NewPoint(ext: Externals, p: Point): Result<Point, RecordError> {
    if ext.acceptsPoint(p) then Ok(p) else Err(PointRejected)
  }

  /**
   * parseRecord: the timestamp first, then the software tag, then the fields
   * column by column; the first column that does not parse ends the record
   * with no point. `tags` is the caller's tag map, to which the software tag
   * is added.
   */
  function ParseRecord(ext: Externals, records: seq<string>, measurement: string, tags: map<string, string>)
    : (r: Result<Point, RecordError>)
    requires |records| >= ColumnCount
    ensures r.Ok? ==> && r.value.measurement == measurement
                      && r.value.tags == tags["software" := records[SoftwareColumn]]
                      && r.value.fields.Keys == FieldNames
                      && ext.acceptsPoint(r.value)
    ensures r.Err? && r.error.BadColumn? ==>
              r.error.column in ParseOrder && r.error.text == records[r.error.column]
  {
    var time :- TimeColumn(ext, records);
    var tags := tags["software" := records[SoftwareColumn]];
    var temperature :- FloatColumn(ext, records, 1);
    var dewpoint :- FloatColumn(ext, records, 2);
    var pressure :- FloatColumn(ext, records, 3);
    var windDirection :- FloatColumn(ext, records, 5);
    var windSpeed :- FloatColumn(ext, records, 6);
    var windSpeedGust :- FloatColumn(ext, records, 7);
    var humidity :- HumidityValue(records);
    var hourlyPrecipitation :- FloatColumn(ext, records, 9);
    var solarRadiation :- FloatColumn(ext, records, 13);
    var fields := map[
      "temperature" := FloatValue(temperature),
      "dewpoint" := FloatValue(dewpoint),
      "pressure" := FloatValue(pressure),
      "wind_direction_name" := StringValue(records[WindDirectionNameColumn]),
      "wind_direction" := FloatValue(windDirection),
      "wind_speed" := FloatValue(windSpeed),
      "wind_speed_gust" := FloatValue(windSpeedGust),
      "humidity" := IntValue(humidity),
      "hourly_precipitation" := FloatValue(hourlyPrecipitation),
      "solar_radiation" := FloatValue(solarRadiation)];
    NewPoint(ext, Point(measurement, tags, fields, time))
  }

  /** Whether column `c` of a record parses the way the mapper parses that column. */
  predicate ColumnParses(ext: Externals, records: seq<string>, c: nat)
    requires |records| >= ColumnCount && c < ColumnCount
  {
    if c == DateColumn then ext.parseTime(records[c]).Some?
    else if c == HumidityColumn then GoStrconv.ParseInt(records[c]).Some?
    else ext.parseFloat(records[c]).Some?
  }

  /** The position in ParseOrder, from `k` on, of the first column that does not parse. */
  function FirstBadColumn(ext: Externals, records: seq<string>, k: nat): (r: Option<nat>)
    requires |records| >= ColumnCount && k <= |ParseOrder|
    ensures r.Some? ==> && k <= r.value < |ParseOrder|
                        && !ColumnParses(ext, records, ParseOrder[r.value])
                        && forall j :: k <= j < r.value ==> ColumnParses(ext, records, ParseOrder[j])
    ensures r.None? ==> forall j :: k <= j < |ParseOrder| ==> ColumnParses(ext, records, ParseOrder[j])
    decreases |ParseOrder| - k
  {
    if k == |ParseOrder| then None
    else if !ColumnParses(ext, records, ParseOrder[k]) then Some(k)
    else FirstBadColumn(ext, records, k + 1)
  }

  /**
   * Short circuit: the record fails on the first column of ParseOrder that
   * does not parse, naming that column and its text; when every column
   * parses, the only failure left is the client library's.
   */
  lemma ParseRecordFailsFirst(ext: Externals, records: seq<string>, measurement: string, tags: map<string, string>)
    requires |records| >= ColumnCount
    ensures match FirstBadColumn(ext, records, 0)
      case Some(j) => ParseRecord(ext, records, measurement, tags)
                        == Err(BadColumn(ParseOrder[j], records[ParseOrder[j]]))
      case None => ParseRecord(ext, records, measurement, tags).Ok?
                   || ParseRecord(ext, records, measurement, tags) == Err(PointRejected)
  {
    match FirstBadColumn(ext, records, 0)
    case Some(j) =>
      assert ColumnParses(ext, records, ParseOrder[0]) || j == 0;
    case None =>
  }

  /**
   * With a client library that accepts every point, a record maps to a point
   * exactly when every column the mapper parses does parse.
   */
  lemma ParseRecordSucceeds(ext: Externals, records: seq<string>, measurement: string, tags: map<string, string>)
    requires |records| >= ColumnCount
    requires forall p :: ext.acceptsPoint(p)
    ensures ParseRecord(ext, records, measurement, tags).Ok? <==> FirstBadColumn(ext, records, 0).None?
  {
    ParseRecordFailsFirst(ext, records, measurement, tags);
  }

  /**
   * The column layout: which column feeds which field, the verbatim wind
   * direction name, the integer humidity, the timestamp and the tags.
   */
  lemma ParseRecordLayout(ext: Externals, records: seq<string>, measurement: string, tags: map<string, string>)
    requires |records| >= ColumnCount
    requires ParseRecord(ext, records, measurement, tags).Ok?
    ensures var p := ParseRecord(ext, records, measurement, tags).value;
      && (forall j :: 0 <= j < |FloatColumns| ==>
            FloatColumns[j].0 < ColumnCount
            && ext.parseFloat(records[FloatColumns[j].0]).Some?
            && p.fields[FloatColumns[j].1] == FloatValue(ext.parseFloat(records[FloatColumns[j].0]).value))
      && p.fields["wind_direction_name"] == StringValue(records[WindDirectionNameColumn])
      && GoStrconv.ParseInt(records[HumidityColumn]).Some?
      && p.fields["humidity"] == IntValue(GoStrconv.ParseInt(records[HumidityColumn]).value)
      && ext.parseTime(records[DateColumn]).Some?
      && p.time == ext.parseTime(records[DateColumn]).value
  {
  }

  /** Columns 0, 10, 11 and 12, and every column after the sixteenth, are never read. */
  lemma UnreadColumnsIgnored(ext: Externals, r1: seq<string>, r2: seq<string>, measurement: string, tags: map<string, string>)
    requires |r1| >= ColumnCount && |r2| >= ColumnCount
    requires forall c :: 1 <= c <= 9 || 13 <= c <= 15 ==> r1[c] == r2[c]
    ensures ParseRecord(ext, r1, measurement, tags) == ParseRecord(ext, r2, measurement, tags)
  {
    assert TimeColumn(ext, r1) == TimeColumn(ext, r2) && HumidityValue(r1) == HumidityValue(r2);
    assert r1[SoftwareColumn] == r2[SoftwareColumn] && r1[WindDirectionNameColumn] == r2[WindDirectionNameColumn];
    forall c | c in {1, 2, 3, 5, 6, 7, 9, 13}
      ensures FloatColumn(ext, r1, c) == FloatColumn(ext, r2, c)
    {
      assert r1[c] == r2[c];
    }
  }

  /** A record with more than 16 fields maps as its first 16 do. */
  lemma ExtraColumnsIgnored(ext: Externals, records: seq<string>, measurement: string, tags: map<string, string>)
    requires |records| >= ColumnCount
    ensures ParseRecord(ext, records, measurement, tags) == ParseRecord(ext, records[..ColumnCount], measurement, tags)
  {
    UnreadColumnsIgnored(ext, records, records[..ColumnCount], measurement, tags);
  }
}
