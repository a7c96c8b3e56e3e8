/**
 * The body of one day's response in the legacy CSV format (the scanning loop
 * of getPoints): skip blank and line-break lines, check the header, map every
 * later line to a point, and give up on the whole day at the first problem.
 */
module DayBody {
  import opened Wrappers
  import opened GoStrings
  import opened Records

  /** The fixed header line of the legacy CSV format, field by field. */
  const RecordNames: seq<string> := [
    "Time", "TemperatureC", "DewpointC", "PressurehPa", "WindDirection", "WindDirectionDegrees",
    "WindSpeedKMH", "WindSpeedGustKMH", "Humidity", "HourlyPrecipMM", "Conditions", "Clouds",
    "dailyrainMM", "SolarRadiationWatts/m^2", "SoftwareType", "DateUTC"]

  /** The HTML line break the service puts at the end of lines. */
  const LineBreak: string := "<br>"

  const Provider: string := "wunderground"

  /** What the importer is run with: the library it calls, the station and the measurement name. */
  datatype Config = Config(ext: Externals, station: string, measurement: string)

  datatype DayError =
    | RequestFailed                               // the GET itself returned an error
    | BadStatus(status: int)                      // a status code other than 200
    | HeaderMismatch(got: seq<string>)            // the first record is not RecordNames
    | TooFewFields(record: nat, count: nat)       // record number `record` has `count` < 16 fields
    | BadRecord(record: nat, cause: RecordError)  // record number `record` did not map to a point

  /** The fresh tag map built for every record. */
  function BaseTags(station: string): map<string, string> {
    map["station" := station, "provider" := Provider]
  }

  /** A line that trims to nothing or to a lone line break. */
  predicate Skipped(line: string) {
    var t := TrimSpace(line);
    t == "" || t == LineBreak
  }

  /** The fields of a line: trimmed, one trailing line break dropped, split on commas. */
  function LineFields(line: string): seq<string> {
    Split(TrimSuffix(TrimSpace(line), LineBreak), ',')
  }

  /** The record a line contributes: none if it is skipped, else its fields. */
  function RowOf(line: string): seq<seq<string>> {
    if Skipped(line) then [] else [LineFields(line)]
  }

  /** What `f` gives for every element of `xs`, concatenated in order. */
  function FlatMap<A, B>(f: A -> seq<B>, xs: seq<A>): seq<B> {
    if xs == [] then [] else f(xs[0]) + FlatMap(f, xs[1..])
  }

  /** The records of a body: the fields of every line not skipped, in order. */
  function Rows(lines: seq<string>): seq<seq<string>> {
    FlatMap(RowOf, lines)
  }

  /**
   * Record number `k` of the body after the header: it needs at least 16
   * fields (more are ignored), and it must map to a point.
   */
  function CheckRow(cfg: Config, row: seq<string>, k: nat): Result<Point, DayError> {
    if |row| < ColumnCount then Err(TooFewFields(k, |row|))
    else match ParseRecord(cfg.ext, row, cfg.measurement, BaseTags(cfg.station))
      case Err(e) => Err(BadRecord(k, e))
      case Ok(p) => Ok(p)
  }

  /** A data record with enough fields that maps to a point. */
  predicate RowOk(cfg: Config, row: seq<string>) {
    |row| >= ColumnCount && ParseRecord(cfg.ext, row, cfg.measurement, BaseTags(cfg.station)).Ok?
  }

  /** The error of a record that fails names that record and says why it failed. */
  lemma CheckRowErr(cfg: Config, row: seq<string>, k: nat)
    requires CheckRow(cfg, row, k).Err?
    ensures var e := CheckRow(cfg, row, k).error;
      && (e.TooFewFields? || e.BadRecord?) && e.record == k
      && (e.TooFewFields? ==> e.count == |row| < ColumnCount)
      && (e.BadRecord? ==>
            |row| >= ColumnCount
            && ParseRecord(cfg.ext, row, cfg.measurement, BaseTags(cfg.station)) == Err(e.cause))
  {
  }

  function RowChecker(cfg: Config): (seq<string>, nat) -> Result<Point, DayError> {
    (row: seq<string>, k: nat) => CheckRow(cfg, row, k)
  }

  /** Checks the rows in order, numbering them from `k`: every result, or the first error. */
  function AllOrNothing<X, E>(check: (seq<string>, nat) -> Result<X, E>, rows: seq<seq<string>>, k: nat)
    : Result<seq<X>, E>
  {
    if rows == [] then Ok([])
    else match check(rows[0], k)
      case Err(e) => Err(e)
      case Ok(x) =>
        match AllOrNothing(check, rows[1..], k + 1)
        case Err(e) => Err(e)
        case Ok(xs) => Ok([x] + xs)
  }

  /**
   * What one day's body yields: nothing for an empty body, an error unless the
   * first record is the header, and otherwise the data records mapped all or
   * nothing, numbered from 1.
   */
  function ParseBody(cfg: Config, lines: seq<string>): Result<seq<Point>, DayError> {
    ParseRecords(cfg, Rows(lines))
  }

  /** The records of a body, the header first, mapped all or nothing. */
  function ParseRecords(cfg: Config, rows: seq<seq<string>>): Result<seq<Point>, DayError> {
    if rows == [] then Ok([])
    else if rows[0] != RecordNames then Err(HeaderMismatch(rows[0]))
    else AllOrNothing(RowChecker(cfg), rows[1..], 1)
  }

  /** On success AllOrNothing holds one result per row, each the row's own. */
  lemma {:induction false} AllOrNothingOk<X, E>(check: (seq<string>, nat) -> Result<X, E>, rows: seq<seq<string>>, k: nat)
    ensures var r := AllOrNothing(check, rows, k);
      && (r.Ok? <==> forall j :: 0 <= j < |rows| ==> check(rows[j], k + j).Ok?)
      && (r.Ok? ==> |r.value| == |rows| && forall j :: 0 <= j < |rows| ==> check(rows[j], k + j) == Ok(r.value[j]))
  {
    if rows != [] {
      AllOrNothingOk(check, rows[1..], k + 1);
      assert forall j :: 1 <= j < |rows| ==> rows[1..][j - 1] == rows[j] && k + 1 + (j - 1) == k + j;
    }
  }

  /** The position of the row whose error AllOrNothing reports: the first row that fails. */
  function FirstFailure<X, E>(check: (seq<string>, nat) -> Result<X, E>, rows: seq<seq<string>>, k: nat)
    : (j: nat)
    requires AllOrNothing(check, rows, k).Err?
    ensures j < |rows| && check(rows[j], k + j) == Err(AllOrNothing(check, rows, k).error)
    ensures forall i :: 0 <= i < j ==> check(rows[i], k + i).Ok?
  {
    if check(rows[0], k).Err? then 0
    else
      var j := FirstFailure(check, rows[1..], k + 1);
      assert forall i :: 1 <= i <= j + 1 ==> rows[1..][i - 1] == rows[i] && k + 1 + (i - 1) == k + i;
      j + 1
  }

  lemma {:induction false} FlatMapAppend<A, B>(f: A -> seq<B>, a: seq<A>, b: seq<A>)
    ensures FlatMap(f, a + b) == FlatMap(f, a) + FlatMap(f, b)
  {
    if a != [] {
      calc {
        FlatMap(f, a + b);
        f((a + b)[0]) + FlatMap(f, (a + b)[1..]);
        { assert (a + b)[0] == a[0]; assert (a + b)[1..] == a[1..] + b; }
        f(a[0]) + FlatMap(f, a[1..] + b);
        { FlatMapAppend(f, a[1..], b); }
        f(a[0]) + (FlatMap(f, a[1..]) + FlatMap(f, b));
        FlatMap(f, a) + FlatMap(f, b);
      }
    } else {
      assert a + b == b;
    }
  }

  /** The records of two stretches of lines are the records of each, one after the other. */
  lemma RowsAppend(a: seq<string>, b: seq<string>)
    ensures Rows(a + b) == Rows(a) + Rows(b)
  {
    FlatMapAppend(RowOf, a, b);
  }

  lemma {:induction false} AllOrNothingAppend<X, E>(check: (seq<string>, nat) -> Result<X, E>,
                                                   a: seq<seq<string>>, b: seq<seq<string>>, k: nat)
    ensures AllOrNothing(check, a + b, k) ==
      match AllOrNothing(check, a, k)
      case Err(e) => Err(e)
      case Ok(xs) =>
        match AllOrNothing(check, b, k + |a|)
        case Err(e) => Err(e)
        case Ok(ys) => Ok(xs + ys)
  {
    if a != [] {
      assert (a + b)[0] == a[0];
      assert (a + b)[1..] == a[1..] + b;
      match check(a[0], k)
      case Err(e) =>
      case Ok(x) =>
        AllOrNothingAppend(check, a[1..], b, k + 1);
        assert k + 1 + |a[1..]| == k + |a|;
        match AllOrNothing(check, a[1..], k + 1)
        case Err(e) =>
        case Ok(xs) =>
          match AllOrNothing(check, b, k + |a|)
          case Err(e) =>
          case Ok(ys) => assert [x] + (xs + ys) == ([x] + xs) + ys;
    } else {
      assert a + b == b;
      match AllOrNothing(check, b, k)
      case Ok(ys) => assert [] + ys == ys;
      case Err(_) =>
    }
  }

  lemma RowsSingle(line: string)
    ensures Rows([line]) == RowOf(line)
  {
    assert [line][1..] == [];
    assert FlatMap(RowOf, [line]) == RowOf(line) + FlatMap(RowOf, []);
  }

  lemma RowsSkip(before: seq<string>, line: string, after: seq<string>)
    requires Skipped(line)
    ensures Rows(before + [line] + after) == Rows(before + after)
  {
    RowsAppend(before + [line], after);
    RowsAppend(before, [line]);
    RowsAppend(before, after);
    RowsSingle(line);
  }

  lemma RowsSnoc(lines: seq<string>, n: nat)
    requires n < |lines|
    ensures Rows(lines[..n + 1]) == Rows(lines[..n]) + RowOf(lines[n])
  {
    var x := lines[n];
    assert lines[..n + 1] == lines[..n] + [x];
    RowsAppend(lines[..n], [x]);
    RowsSingle(x);
  }

  lemma RowsSplit(lines: seq<string>, n: nat)
    requires n <= |lines|
    ensures Rows(lines) == Rows(lines[..n]) + Rows(lines[n..])
  {
    var front, back := lines[..n], lines[n..];
    assert front + back == lines;
    RowsAppend(front, back);
  }

  /** The loop's view of the records met so far: `i` of them, the header first, `points` for the rest. */
  ghost predicate Scanned(cfg: Config, rows: seq<seq<string>>, i: nat, points: seq<Point>) {
    && i == |rows|
    && (i == 0 ==> points == [])
    && (i > 0 ==> rows[0] == RecordNames && AllOrNothing(RowChecker(cfg), rows[1..], 1) == Ok(points))
  }

  /** A first record other than the header ends the day, whatever follows it. */
  lemma HeaderFails(cfg: Config, row: seq<string>, rest: seq<seq<string>>)
    requires row != RecordNames
    ensures ParseRecords(cfg, [row] + rest) == Err(HeaderMismatch(row))
  {
  }

  /** Once a row fails, AllOrNothing fails with its error, whatever follows it. */
  lemma AllOrNothingStops<X, E>(check: (seq<string>, nat) -> Result<X, E>, rows: seq<seq<string>>, k: nat,
                                xs: seq<X>, row: seq<string>, rest: seq<seq<string>>)
    requires AllOrNothing(check, rows, k) == Ok(xs)
    requires check(row, k + |rows|).Err?
    ensures AllOrNothing(check, rows + ([row] + rest), k) == Err(check(row, k + |rows|).error)
  {
    AllOrNothingAppend(check, rows, [row] + rest, k);
    assert ([row] + rest)[0] == row;
  }

  /** A row that passes adds its result at the end. */
  lemma AllOrNothingSnoc<X, E>(check: (seq<string>, nat) -> Result<X, E>, rows: seq<seq<string>>, k: nat,
                               xs: seq<X>, row: seq<string>)
    requires AllOrNothing(check, rows, k) == Ok(xs)
    requires check(row, k + |rows|).Ok?
    ensures AllOrNothing(check, rows + [row], k) == Ok(xs + [check(row, k + |rows|).value])
  {
    AllOrNothingAppend(check, rows, [row], k);
    var x := check(row, k + |rows|).value;
    assert AllOrNothing(check, [row][1..], k + |rows| + 1) == Ok([]);
    assert [x] + [] == [x];
  }

  /** A data record that fails ends the day with its error, whatever follows it. */
  lemma DataRecordFails(cfg: Config, done: seq<seq<string>>, i: nat, points: seq<Point>,
                        row: seq<string>, rest: seq<seq<string>>)
    requires Scanned(cfg, done, i, points) && i > 0
    requires CheckRow(cfg, row, i).Err?
    ensures ParseRecords(cfg, done + [row] + rest) == Err(CheckRow(cfg, row, i).error)
  {
    assert (done + [row] + rest)[0] == done[0];
    assert (done + [row] + rest)[1..] == done[1..] + ([row] + rest);
    AllOrNothingStops(RowChecker(cfg), done[1..], 1, points, row, rest);
  }

  /** A data record that maps to a point adds that point and advances the record count. */
  lemma DataRecordAdds(cfg: Config, done: seq<seq<string>>, i: nat, points: seq<Point>, row: seq<string>)
    requires Scanned(cfg, done, i, points) && i > 0
    requires CheckRow(cfg, row, i).Ok?
    ensures Scanned(cfg, done + [row], i + 1, points + [CheckRow(cfg, row, i).value])
  {
    assert (done + [row])[0] == done[0];
    assert (done + [row])[1..] == done[1..] + [row];
    AllOrNothingSnoc(RowChecker(cfg), done[1..], 1, points, row);
  }

  /**
   * All or nothing, in order: a day yields points exactly when its records are
   * empty or are the header followed by data records that all map, and then
   * one point per data record, in order, each tagged with the station, the
   * provider and the record's software column.
   */
  lemma BodyOk(cfg: Config, lines: seq<string>)
    ensures var rows, r := Rows(lines), ParseBody(cfg, lines);
      && (r.Ok? <==> rows == [] || (rows[0] == RecordNames && forall j :: 1 <= j < |rows| ==> RowOk(cfg, rows[j])))
      && (r.Ok? ==>
            && |r.value| == (if rows == [] then 0 else |rows| - 1)
            && forall j :: 0 <= j < |r.value| ==>
                 && |rows[j + 1]| >= ColumnCount
                 && ParseRecord(cfg.ext, rows[j + 1], cfg.measurement, BaseTags(cfg.station)) == Ok(r.value[j])
                 && r.value[j].measurement == cfg.measurement
                 && r.value[j].tags == map["station" := cfg.station, "provider" := Provider,
                                           "software" := rows[j + 1][SoftwareColumn]])
  {
    var rows := Rows(lines);
    if rows != [] && rows[0] == RecordNames {
      var data := rows[1..];
      AllOrNothingOk(RowChecker(cfg), data, 1);
      forall j | 0 <= j < |data|
        ensures RowChecker(cfg)(data[j], 1 + j).Ok? <==> RowOk(cfg, rows[j + 1])
        ensures RowChecker(cfg)(data[j], 1 + j).Ok? ==>
                  ParseRecord(cfg.ext, rows[j + 1], cfg.measurement, BaseTags(cfg.station))
                    == Ok(RowChecker(cfg)(data[j], 1 + j).value)
      {
        assert data[j] == rows[j + 1];
      }
      assert forall j :: 1 <= j < |rows| ==> rows[j] == data[j - 1];
    }
  }

  /**
   * The first problem ends the day: a first record other than the header, or
   * else the first data record that is too short or does not map. Records are
   * numbered by their place among the lines not skipped, the header being 0.
   */
  lemma BodyError(cfg: Config, lines: seq<string>)
    requires ParseBody(cfg, lines).Err?
    ensures var rows, e := Rows(lines), ParseBody(cfg, lines).error;
      && rows != []
      && (e.HeaderMismatch? <==> rows[0] != RecordNames)
      && (e.HeaderMismatch? ==> e.got == rows[0])
      && (!e.HeaderMismatch? ==>
            && (e.TooFewFields? || e.BadRecord?)
            && 1 <= e.record < |rows|
            && (forall j :: 1 <= j < e.record ==> RowOk(cfg, rows[j]))
            && (e.TooFewFields? ==> e.count == |rows[e.record]| < ColumnCount)
            && (e.BadRecord? ==>
                  && |rows[e.record]| >= ColumnCount
                  && ParseRecord(cfg.ext, rows[e.record], cfg.measurement, BaseTags(cfg.station)) == Err(e.cause)))
  {
    var rows := Rows(lines);
    if rows[0] == RecordNames {
      var data := rows[1..];
      var j := FirstFailure(RowChecker(cfg), data, 1);
      assert data[j] == rows[j + 1];
      CheckRowErr(cfg, rows[j + 1], j + 1);
      forall i | 1 <= i < j + 1
        ensures RowOk(cfg, rows[i])
      {
        assert data[i - 1] == rows[i];
        assert RowChecker(cfg)(data[i - 1], 1 + (i - 1)).Ok?;
      }
    }
  }

  /** An empty body, or one with the header alone, yields no points and no error. */
  lemma NoDataNoPoints(cfg: Config, lines: seq<string>)
    requires Rows(lines) == [] || Rows(lines) == [RecordNames]
    ensures ParseBody(cfg, lines) == Ok([])
  {
  }

  /** A skipped line changes nothing: not the points, not the error, not the record numbers. */
  lemma SkippedLineIgnored(cfg: Config, before: seq<string>, line: string, after: seq<string>)
    requires Skipped(line)
    ensures ParseBody(cfg, before + [line] + after) == ParseBody(cfg, before + after)
  {
    RowsSkip(before, line, after);
  }

  /** A trailing line break is dropped before the line is split: `t<br>` has the fields of `t`. */
  lemma TrailingBreakStripped(t: string)
    requires t != [] && !IsSpace(t[0])
    ensures !Skipped(t + LineBreak)
    ensures LineFields(t + LineBreak) == Split(t, ',')
  {
    var s := t + LineBreak;
    assert s[0] == t[0] && s[|s| - 1] == '>';
    assert TrimLeft(s) == s;
    assert TrimRight(s) == s;
    assert s[..|s| - |LineBreak|] == t;
  }

  lemma TrailingBreakExample()
    ensures LineFields("a,b<br>") == ["a", "b"]
  {
    TrailingBreakStripped("a,b");
    assert "a,b<br>" == "a,b" + LineBreak;
    assert Join(["a", "b"], ',') == "a,b";
    SplitJoin(["a", "b"], ',');
  }

  /**
   * The scanning loop of getPoints over the lines the scanner yields. `i`
   * counts the records met so far (the header is record 0).
   */
  method ScanBody(cfg: Config, lines: seq<string>) returns (r: Result<seq<Point>, DayError>)
    ensures r == ParseBody(cfg, lines)
  {
    var points: seq<Point> := [];
    var i: nat := 0;
    for n := 0 to |lines|
      invariant Scanned(cfg, Rows(lines[..n]), i, points)
    {
      ghost var done := Rows(lines[..n]);
      RowsSnoc(lines, n);
      RowsSplit(lines, n + 1);
      ghost var rest := Rows(lines[n + 1..]);
      var line := TrimSpace(lines[n]);
      if line == "" || line == LineBreak {
        assert RowOf(lines[n]) == [];
        assert done + [] == done;
        continue;
      }
      line := TrimSuffix(line, LineBreak);
      var records := Split(line, ',');
      assert RowOf(lines[n]) == [records];
      if i == 0 {
        if records != RecordNames {
          HeaderFails(cfg, records, rest);
          return Err(HeaderMismatch(records));
        }
        assert Rows(lines[..n + 1]) == [records] && [records][1..] == [];
        i := i + 1;
        continue;
      }
      if |records| < ColumnCount {
        DataRecordFails(cfg, done, i, points, records, rest);
        return Err(TooFewFields(i, |records|));
      }
      var p := ParseRecord(cfg.ext, records, cfg.measurement, BaseTags(cfg.station));
      if p.Err? {
        DataRecordFails(cfg, done, i, points, records, rest);
        return Err(BadRecord(i, p.error));
      }
      DataRecordAdds(cfg, done, i, points, records);
      points := points + [p.value];
      i := i + 1;
    }
    assert lines[..|lines|] == lines;
    return Ok(points);
  }
}
