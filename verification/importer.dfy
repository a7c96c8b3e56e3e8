/**
 * The importer's run over a date range: one getPoints per day, from the start
 * date to the end date inclusive, every day's points added to one batch, a
 * failed day reported and skipped.
 */
module Importer {
  import opened Wrappers
  import opened Records
  import opened DayBody

  /**
   * What the GET for one day gave back: an error from the HTTP client, or a
   * response with its status code and the lines of its body. The request for
   * a day is a function of the day (the URL names the station and the date).
   */
  datatype HttpOutcome = Unreachable | Response(status: int, lines: seq<string>)

  const StatusOK: int := 200

  /** What getPoints returns for `day`. */
  function DayResult(cfg: Config, get: int -> HttpOutcome, day: int): Result<seq<Point>, DayError> {
    match get(day)
    case Unreachable => Err(RequestFailed)
    case Response(status, lines) =>
      if status != StatusOK then Err(BadStatus(status)) else ParseBody(cfg, lines)
  }

  /** getPoints for one day: the GET, the status check, then the body. */
  method GetPoints(cfg: Config, get: int -> HttpOutcome, day: int) returns (r: Result<seq<Point>, DayError>)
    ensures r == DayResult(cfg, get, day)
  {
    var res := get(day);
    if res.Unreachable? {
      return Err(RequestFailed);
    }
    if res.status != StatusOK {
      return Err(BadStatus(res.status));
    }
    r := ScanBody(cfg, res.lines);
  }

  /** The points a day adds to the batch: its points, or none when it failed. */
  function Added(r: Result<seq<Point>, DayError>): seq<Point> {
    if r.Ok? then r.value else []
  }

  /** The days from `start` to `end` inclusive, in ascending order. */
  function Days(start: int, end: int): seq<int>
    decreases end - start + 1
  {
    if end < start then [] else Days(start, end - 1) + [end]
  }

  /** getPoints as a function of the day, for a given configuration and network. */
  function Fetcher(cfg: Config, get: int -> HttpOutcome): int -> Result<seq<Point>, DayError> {
    (day: int) => DayResult(cfg, get, day)
  }

  /** The batch after fetching `days` in order. */
  function Batch(fetch: int -> Result<seq<Point>, DayError>, days: seq<int>): seq<Point> {
    if days == [] then []
    else Batch(fetch, days[..|days| - 1]) + Added(fetch(days[|days| - 1]))
  }

  /** The failures reported on standard error after fetching `days` in order. */
  function FailureLog(fetch: int -> Result<seq<Point>, DayError>, days: seq<int>): seq<(int, DayError)> {
    if days == [] then []
    else
      var day := days[|days| - 1];
      FailureLog(fetch, days[..|days| - 1]) + (if fetch(day).Err? then [(day, fetch(day).error)] else [])
  }

  /**
   * The loop of main over the date range. `calls` lists the days getPoints was
   * called for, in order; `log` lists the failed days with their errors.
   */
  method ImportRange(cfg: Config, get: int -> HttpOutcome, start: int, end: int)
    returns (batch: seq<Point>, calls: seq<int>, log: seq<(int, DayError)>)
    ensures calls == Days(start, end)
    ensures batch == Batch(Fetcher(cfg, get), calls)
    ensures log == FailureLog(Fetcher(cfg, get), calls)
  {
    batch, calls, log := [], [], [];
    var current := start;
    while current <= end
      invariant current == start || start < current <= end + 1
      invariant calls == Days(start, current - 1)
      invariant batch == Batch(Fetcher(cfg, get), calls)
      invariant log == FailureLog(Fetcher(cfg, get), calls)
      decreases end - current
    {
      var pts := GetPoints(cfg, get, current);
      assert Fetcher(cfg, get)(current) == pts;
      BatchSnoc(Fetcher(cfg, get), calls, current);
      calls := calls + [current];
      if pts.Err? {
        log := log + [(current, pts.error)];
      }
      batch := batch + Added(pts);
      current := current + 1;
    }
  }

  lemma BatchSnoc(fetch: int -> Result<seq<Point>, DayError>, days: seq<int>, day: int)
    ensures Batch(fetch, days + [day]) == Batch(fetch, days) + Added(fetch(day))
    ensures FailureLog(fetch, days + [day])
            == FailureLog(fetch, days) + (if fetch(day).Err? then [(day, fetch(day).error)] else [])
  {
    assert (days + [day])[..|days|] == days;
  }

  /** One call per day of the range, in ascending order; none when the start is after the end. */
  lemma {:induction false} DaysAscending(start: int, end: int)
    ensures |Days(start, end)| == if start <= end then end - start + 1 else 0
    ensures forall k :: 0 <= k < |Days(start, end)| ==> Days(start, end)[k] == start + k
    decreases end - start + 1
  {
    if start <= end {
      DaysAscending(start, end - 1);
    }
  }

  lemma {:induction false} BatchAppend(fetch: int -> Result<seq<Point>, DayError>, a: seq<int>, b: seq<int>)
    ensures Batch(fetch, a + b) == Batch(fetch, a) + Batch(fetch, b)
    decreases |b|
  {
    if b == [] {
      assert a + b == a;
    } else {
      var last := b[|b| - 1];
      assert (a + b)[..|a + b| - 1] == a + b[..|b| - 1];
      BatchAppend(fetch, a, b[..|b| - 1]);
    }
  }

  /**
   * Days are independent: each day adds its own points and nothing else, so a
   * failed day adds nothing and leaves the days before and after it as they were.
   */
  lemma DayIsolation(fetch: int -> Result<seq<Point>, DayError>, before: seq<int>, day: int, after: seq<int>)
    ensures Batch(fetch, before + [day] + after)
            == Batch(fetch, before) + Added(fetch(day)) + Batch(fetch, after)
    ensures fetch(day).Err? ==>
              Batch(fetch, before + [day] + after) == Batch(fetch, before + after)
  {
    BatchAppend(fetch, before + [day], after);
    BatchSnoc(fetch, before, day);
    BatchAppend(fetch, before, after);
  }

  /**
   * The log names exactly the failed days, each with its error: every entry is
   * a fetched day that failed, every fetched day that failed has its entry,
   * and there is at most one entry per fetch.
   */
  lemma {:induction false} FailureLogFailedDays(fetch: int -> Result<seq<Point>, DayError>, days: seq<int>)
    ensures forall k :: 0 <= k < |FailureLog(fetch, days)| ==>
              var (day, e) := FailureLog(fetch, days)[k];
              day in days && fetch(day) == Err(e)
    ensures forall day :: day in days && fetch(day).Err? ==> (day, fetch(day).error) in FailureLog(fetch, days)
    ensures |FailureLog(fetch, days)| <= |days|
    ensures (forall day :: day in days ==> fetch(day).Ok?) <==> FailureLog(fetch, days) == []
  {
    if days != [] {
      var front, last := days[..|days| - 1], days[|days| - 1];
      FailureLogFailedDays(fetch, front);
      assert days == front + [last];
      forall day | day in days && fetch(day).Err?
        ensures (day, fetch(day).error) in FailureLog(fetch, days)
      {
        if day != last {
          assert day in front;
        }
      }
    }
  }

  /** Over ascending days, as the loop fetches them, the failures are logged in ascending order. */
  lemma {:induction false} FailureLogAscending(fetch: int -> Result<seq<Point>, DayError>, days: seq<int>)
    requires forall i, j :: 0 <= i < j < |days| ==> days[i] < days[j]
    ensures var log := FailureLog(fetch, days);
      forall k, l :: 0 <= k < l < |log| ==> log[k].0 < log[l].0
  {
    if days != [] {
      var front, last := days[..|days| - 1], days[|days| - 1];
      FailureLogAscending(fetch, front);
      FailureLogFailedDays(fetch, front);
      var log := FailureLog(fetch, front);
      forall k | 0 <= k < |log|
        ensures log[k].0 < last
      {
        var i :| 0 <= i < |front| && front[i] == log[k].0;
        assert days[i] == front[i];
      }
    }
  }
}
