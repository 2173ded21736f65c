/**
  The two log sinks, and a controller serving a run of requests. The run is
  served one request at a time against an unchanging status, a modelling
  choice: concurrent requests could interleave their lines in any order.
  Every call of the handler appends its lines to the sinks.
 */
module Server {
  import Public

  /** The lines the error log and the load-time log hold. */
  datatype Sinks = Sinks(errorLog: seq<string>, loadTimeLog: seq<string>)

  /** One request together with the answers the outside world gives it. */
  datatype Call = Call(urlPath: string, env: Public.Env)

  /** Every call may be handled: a non-empty URL path is needed whenever the status lets requests through. */
  predicate Servable(status: int, calls: seq<Call>) {
    Public.Proceeds(status) ==> forall i :: 0 <= i < |calls| ==> |calls[i].urlPath| > 0
  }

  /** The handler's `Write` calls: a response's lines go to the end of their sinks. */
  function Write(sinks: Sinks, r: Public.Response): Sinks {
    Sinks(sinks.errorLog + r.errorLines, sinks.loadTimeLog + r.loadTimeLines)
  }

  /** The error lines the handler writes for `calls`, in order. */
  function ErrorLinesOf(con: Public.Controller, calls: seq<Call>): seq<string>
    requires Servable(con.status, calls)
    decreases |calls|
  {
    if |calls| == 0 then []
    else Public.ServeHTTP(con, calls[0].urlPath, calls[0].env).errorLines + ErrorLinesOf(con, calls[1..])
  }

  /** The load-time lines the handler writes for `calls`, in order. */
  function LoadTimeLinesOf(con: Public.Controller, calls: seq<Call>): seq<string>
    requires Servable(con.status, calls)
    decreases |calls|
  {
    if |calls| == 0 then []
    else Public.ServeHTTP(con, calls[0].urlPath, calls[0].env).loadTimeLines + LoadTimeLinesOf(con, calls[1..])
  }

  /**
    Serves `calls` in order, writing each response's lines before the next
    request is handled. Each sink ends up holding what it held before followed
    by exactly the lines written for the calls, in order, and exactly one line
    is written per request the status lets through (none at all while the
    server is rejecting).
   */
  function ServeAll(con: Public.Controller, sinks: Sinks, calls: seq<Call>): (s: Sinks)
    requires Servable(con.status, calls)
    ensures s.errorLog == sinks.errorLog + ErrorLinesOf(con, calls)
    ensures s.loadTimeLog == sinks.loadTimeLog + LoadTimeLinesOf(con, calls)
    ensures |s.errorLog| + |s.loadTimeLog| == |sinks.errorLog| + |sinks.loadTimeLog| + (if Public.Proceeds(con.status) then |calls| else 0)
    decreases |calls|
  {
    if |calls| == 0 then sinks
    else
      var r := Public.ServeHTTP(con, calls[0].urlPath, calls[0].env);
      var s := ServeAll(con, Write(sinks, r), calls[1..]);
      assert sinks.errorLog + r.errorLines + ErrorLinesOf(con, calls[1..]) == sinks.errorLog + ErrorLinesOf(con, calls);
      assert sinks.loadTimeLog + r.loadTimeLines + LoadTimeLinesOf(con, calls[1..]) == sinks.loadTimeLog + LoadTimeLinesOf(con, calls);
      s
  }

  /** The sinks are append-only: serving never drops or rewrites a line already written. */
  lemma SinksOnlyGrow(con: Public.Controller, sinks: Sinks, calls: seq<Call>)
    requires Servable(con.status, calls)
    ensures sinks.errorLog <= ServeAll(con, sinks, calls).errorLog
    ensures sinks.loadTimeLog <= ServeAll(con, sinks, calls).loadTimeLog
  {
  }
}
