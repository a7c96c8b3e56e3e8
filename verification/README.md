# wunderground-import, legacy CSV path

A model of the importer in `cmd/wunderground-import/main.go`. The importer fetches a
personal weather station's daily history from Weather Underground, one day at a time,
turns every observation line into an InfluxDB point, and gathers all the points in one
batch. The model covers the three pieces of that program that do more than glue:

- **Record mapper** (`parseRecord`, module `Records`, `records.dfy`). It maps one
  observation line of the legacy CSV format, split into at least 16 fields, to a point:
  - the timestamp comes from column 15;
  - the `software` tag comes from column 14;
  - float fields come from columns 1, 2, 3, 5, 6, 7, 9 and 13;
  - the wind direction name is copied verbatim from column 4;
  - humidity is a base-10 integer in column 8.

  The first column that does not parse ends the record, with no point.
- **Day body** (the scanning loop of `getPoints`, module `DayBody`, `daybody.dfy`).
  - Each line is trimmed. Lines that are blank or a lone `<br>` are skipped.
  - A trailing `<br>` is dropped, and the line is split on commas.
  - The first record must be the fixed 16-name header.
  - Every later record needs at least 16 fields and must map to a point.
  - Any problem ends the day with an error and no points. `ScanBody` is the loop, with
    the counter `i` and the growing `points`. `ParseBody` is the specification it
    meets: drop the skipped lines, then check the header and map the data records all or
    nothing.
- **Date-range driver** (the `currentDate` loop of `main`, module `Importer`,
  `importer.dfy`).
  - `getPoints` is called once per day from the start date to the end date inclusive.
  - Each day's points are appended to the batch.
  - A failed day is reported and adds nothing.

  `GetPoints` adds the GET outcome and the status check in front of `ScanBody`.

The Go library calls the core relies on are modelled in two modules:

- `GoStrings` (`gostrings.dfy`): `strings.TrimSpace` with Go's `unicode.IsSpace`,
  `strings.TrimSuffix`, and `strings.Split` on a one-character separator.
- `GoStrconv` (`gostrconv.dfy`): `strconv.ParseInt(s, 10, 64)`.

`strconv.ParseFloat`, `time.ParseInLocation` and the checks made by `influx.NewPoint`
are parameters: the partial functions of an `Externals` value.

Two behaviours of `getPoints` are easy to misread, and the model follows the code:

- The header is not compared as a raw line. The first line that is not skipped is
  trimmed, loses one trailing `<br>` and is split on commas. The resulting fields must
  equal the 16 names (`main.go:162-167`).
- A data record that fails is not skipped on its own. It fails the whole day, and the
  points of that day's earlier records are dropped too (`main.go:175-186`).

## Model

| member | source | states |
|---|---|---|
| GoStrings.TrimSpaceSpec | cmd/wunderground-import/main.go:157 | a trimmed line is the part of the line left once its leading and trailing white space is removed; it neither starts nor ends with white space, and everything cut off is white space |
| GoStrings.TrimSpaceEmpty | cmd/wunderground-import/main.go:157-158 | a line trims to the empty string exactly when it is all white space |
| GoStrings.TrimSpaceIdempotent | cmd/wunderground-import/main.go:157 | trimming a trimmed line changes nothing |
| GoStrings.SplitSpec | cmd/wunderground-import/main.go:164 | splitting on a comma gives at least one field, no field contains a comma, and the fields joined with commas give back the line |
| GoStrings.SplitJoin | cmd/wunderground-import/main.go:164 | comma-free fields joined with commas split back into exactly those fields |
| GoStrconv.ParseInt | cmd/wunderground-import/main.go:237-240 | an accepted humidity text is an optional sign followed by one or more decimal digits, its value lies in the int64 range, and only a leading minus gives a negative value |
| GoStrconv.ParseIntReadsDigits | cmd/wunderground-import/main.go:237-240 | an optional `+` or `-` followed by decimal digits, leading zeros allowed, is read as the value of the digits, negated after a minus, when that value fits in int64, and is rejected otherwise |
| GoStrconv.ParseIntFormat | cmd/wunderground-import/main.go:237-240 | every int64 written in decimal is read back as itself |
| Records.ParseRecord | cmd/wunderground-import/main.go:195-253 | a point has the given measurement, the caller's tags plus `software` from column 14, and exactly the ten field names, and the client library accepts it; a column error names a column the mapper parses and that column's text |
| Records.FirstBadColumn | cmd/wunderground-import/main.go:196-250 | finds the first column, in the mapper's order, that does not parse: every column before it parses; when none is found, all of them parse |
| Records.ParseRecordFailsFirst | cmd/wunderground-import/main.go:196-250 | the record fails on the first column, in the order date, 1, 2, 3, 5, 6, 7, 8, 9, 13, that does not parse, with that column and its text; when all parse, the only possible failure is the library rejecting the point |
| Records.ParseRecordSucceeds | cmd/wunderground-import/main.go:196-252 | with a client library that accepts every point, a record maps to a point exactly when every column the mapper parses does parse |
| Records.ParseRecordLayout | cmd/wunderground-import/main.go:196-252 | in a point, columns 1, 2, 3, 5, 6, 7, 9 and 13 feed temperature, dewpoint, pressure, wind_direction, wind_speed, wind_speed_gust, hourly_precipitation and solar_radiation; column 4 is wind_direction_name verbatim; column 8 is the integer humidity; column 15 is the timestamp |
| Records.UnreadColumnsIgnored | cmd/wunderground-import/main.go:195-253 | two records that agree on columns 1-9 and 13-15 map to the same result, so columns 0, 10, 11 and 12 are never read |
| Records.ExtraColumnsIgnored | cmd/wunderground-import/main.go:175-179 | a record with more than 16 fields maps exactly as its first 16 fields do |
| DayBody.AllOrNothingOk | cmd/wunderground-import/main.go:179-189 | the records after the header succeed exactly when every one of them is mapped, and then the result holds one point per record, in order, each that record's own |
| DayBody.FirstFailure | cmd/wunderground-import/main.go:175-186 | the error reported for the records after the header is that of the first record that fails; every record before it succeeds |
| DayBody.ScanBody | cmd/wunderground-import/main.go:151-192 | the scanning loop returns exactly what the day's lines specify: the error of the first problem, or the points of all data records |
| DayBody.BodyOk | cmd/wunderground-import/main.go:166-192 | a day yields points exactly when its records are none, or are the header followed only by records of at least 16 fields that map; it then yields one point per data record, in order, each with that record's mapping, the measurement, and the tags station, provider "wunderground" and software |
| DayBody.BodyError | cmd/wunderground-import/main.go:166-186 | a failing day has records; it fails on the header exactly when the first record is not the 16 names, and otherwise on the first data record that has fewer than 16 fields (with their count) or does not map (with its cause), numbered from 1 after the header, every earlier record being fine |
| DayBody.NoDataNoPoints | cmd/wunderground-import/main.go:151-192 | an empty body, or one with only the header, yields no points and no error |
| DayBody.SkippedLineIgnored | cmd/wunderground-import/main.go:157-160 | inserting a line that trims to nothing or to a lone `<br>` changes neither the points, nor the error, nor the record numbers |
| DayBody.TrailingBreakStripped | cmd/wunderground-import/main.go:157-164 | a line `t<br>`, where `t` starts with no white space, is not skipped and has the fields of `t` |
| DayBody.TrailingBreakExample | cmd/wunderground-import/main.go:162-164 | the line `a,b<br>` has the fields `a` and `b` |
| Importer.ImportRange | cmd/wunderground-import/main.go:77-88 | the loop calls getPoints for exactly the days of the range, in order; the batch is those days' points appended in order; the error log is those days' failures |
| Importer.DaysAscending | cmd/wunderground-import/main.go:77-88 | the range holds end - start + 1 days, start, start + 1, and so on up to end, and no day when the start is after the end |
| Importer.DayIsolation | cmd/wunderground-import/main.go:80-87 | each day adds its own points and nothing else, so a failed day adds nothing and leaves the days before and after it as they would be without it |
| Importer.FailureLogFailedDays | cmd/wunderground-import/main.go:80-83 | every logged entry is a fetched day together with the error that day gave, every fetched day that failed is logged with its error, there are no more entries than fetches, and the log is empty exactly when every day succeeds |
| Importer.FailureLogAscending | cmd/wunderground-import/main.go:79-83 | over ascending days, as the loop fetches them, the failures are logged in ascending order of their days |

## Left out

- HTTP: the URL and query string (`main.go:127-139`) are not built, and the client and response body are not modelled. The GET for a day is a parameter `get` from day to outcome. The outcome is the client's error, or a status code with the lines of the body.
- `bufio.Scanner`: the model's input is the lines the scanner yields. Its 64 KiB line limit and read errors are not modelled. The program never checks `r.Err()` after the loop, so such an error ends the day early without an error.
- `strconv.ParseFloat`, `time.ParseInLocation` with the layout `2006-01-02 15:04:05`, and the checks of `influx.NewPoint`: these are the functions of `Externals`, not their internals. Floats are bit patterns with no arithmetic, and instants are nanoseconds since the epoch.
- Dates in the driver loop are day indices. `AddDate(0, 0, 1)` is `+ 1`, and comparing `Unix()` values is comparing indices.
- Flags, the defaults from `time.Now`, and start-up errors (`main.go:25-58`): command-line plumbing and the wall clock.
- The InfluxDB batch set-up, upload and printing (`main.go:63-69`, `90-123`): a foreign client. The batch is the sequence of points appended to it.
- `cmd/wunderground-import/api.go`: declarations only, with no behaviour.
- Go strings are bytes and `TrimSpace` decodes UTF-8. Here a string is a sequence of code points, so invalid UTF-8 is not modelled.
- Error messages: errors are structured values (`DayError`, `RecordError`). The formatted text, including the URL, is not modelled.
- GoStrconv.ParseInt: one `None` stands for both the syntax error and the range error of `strconv.ParseInt`. The mapper treats both alike.
