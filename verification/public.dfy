/**
  The public static-file server: its controller record, the constructor `New`,
  and the request handler `ServeHTTP` as a pure decision function over the
  administrative status, the document root, the URL path and the outcomes of
  the three I/O steps (open the file, resolve its content type, copy it out).
 */
module Public {
  import opened Wrappers
  import LogLine

  /** HTTP status codes the handler produces (RFC 9110, sections 15.3.1, 15.5.5, 15.5.16, 15.6.1, 15.6.4). */
  const StatusOK := 200
  const StatusNotFound := 404
  const StatusUnsupportedMediaType := 415
  const StatusInternalServerError := 500
  const StatusServiceUnavailable := 503

  /** One second as a Go `time.Duration`, in nanoseconds. */
  const Second := 1_000_000_000

  const DownMessage := "The server is currently down and not serving requests."
  const MaintenanceMessage := "The server is currently maintenance mode and not serving requests."
  const RestartingMessage := "The server is currently restarting."

  const IndexFile := "index.html"

  /**
    The controller's configuration. Its two log handlers are not modelled;
    what they have written is the separate, append-only state `Server.Sinks`.
    `gracefulShutdownTimeout` is a duration in nanoseconds.
   */
  datatype Controller = Controller(
    documentRoot: string,
    port: int,
    gracefulShutdownTimeout: int,
    status: int)

  /**
    What the outside world answers for one request, as functions of the path
    asked about: opening the file, the content-type resolver, copying the open
    file to the response, and the formatted elapsed time of a served request.
   */
  datatype Env = Env(
    open: string -> Outcome<string>,
    contentType: string -> Result<string, string>,
    copy: string -> Outcome<string>,
    elapsed: string)

  /**
    What one call of the handler does: the status code, the message of a 503,
    the path handed to each I/O step it reached, the Content-Type header it
    added, and the lines it appended to the error and load-time sinks.
   */
  datatype Response = Response(
    code: int,
    message: Option<string>,
    openedPath: Option<string>,
    resolvedPath: Option<string>,
    copied: bool,
    contentType: Option<string>,
    errorLines: seq<string>,
    loadTimeLines: seq<string>)

  /** The controller `New(dir, port)` builds: stopped, serving `dir + "public/"`. */
  function New(dir: string, port: int): (c: Controller)
    ensures c.documentRoot == dir + "public/"
    ensures |c.documentRoot| == |dir| + 7 && c.documentRoot[..|dir|] == dir
    ensures c.port == port
    ensures c.status == 0
    ensures c.gracefulShutdownTimeout == 5 * Second
  {
    Controller(dir + "public/", port, 5 * Second, 0)
  }

  /**
    The status switch: `Some(message)` rejects the request with a 503, `None`
    lets it through. The switch has no default case, so every status other
    than 0, 2 and 3 is served like status 1.
   */
  function Gate(status: int): (r: Option<string>)
    ensures r.Some? <==> status == 0 || status == 2 || status == 3
    ensures status == 0 ==> r == Some(DownMessage)
    ensures status == 2 ==> r == Some(MaintenanceMessage)
    ensures status == 3 ==> r == Some(RestartingMessage)
  {
    if status == 0 then Some(DownMessage)
    else if status == 2 then Some(MaintenanceMessage)
    else if status == 3 then Some(RestartingMessage)
    else None
  }

  predicate Proceeds(status: int) {
    Gate(status).None?
  }

  /** Each rejecting status has its own message, so the message identifies the status. */
  lemma GateMessagesDistinct(a: int, b: int)
    requires !Proceeds(a) && !Proceeds(b)
    ensures Gate(a) == Gate(b) <==> a == b
  {
  }

  /**
    The file a URL path names: its first character is dropped, an empty
    remainder names the index file, and any other remainder is appended to the
    document root verbatim. The slice needs a non-empty URL path.
   */
  function MapPath(root: string, urlPath: string): (r: string)
    requires |urlPath| > 0
    ensures |r| > |root| && r[..|root|] == root
    ensures |urlPath| > 1 ==> r[|root|..] == urlPath[1..]
    ensures |urlPath| == 1 ==> r[|root|..] == IndexFile
  {
    var rest := urlPath[1..];
    if |rest| == 0 then root + IndexFile else root + rest
  }

  /** Two URL paths reach the same file exactly when their remainders agree or they are "/" and "/index.html". */
  lemma MapPathSameFile(root: string, a: string, b: string)
    requires |a| > 0 && |b| > 0
    ensures MapPath(root, a) == MapPath(root, b) <==>
      a[1..] == b[1..] || (a[1..] in {"", IndexFile} && b[1..] in {"", IndexFile})
  {
  }

  /** No normalisation: a remainder such as "../x" keeps its ".." and still lands after the root. */
  lemma MapPathKeepsTraversal(root: string, rel: string)
    requires |rel| > 0
    ensures MapPath(root, "/" + rel) == root + rel
    ensures MapPath(root, "/../" + rel) == root + "../" + rel
  {
  }

  function Rejected(message: string): Response {
    Response(StatusServiceUnavailable, Some(message), None, None, false, None, [], [])
  }

  /**
    `Controller.ServeHTTP`: the status gate, the path mapping, then open,
    resolve and copy in that order; the first failing step picks 404, 415 or
    500 and logs one error line, and success logs one load-time line.
   */
  function ServeHTTP(con: Controller, urlPath: string, env: Env): (r: Response)
    requires Proceeds(con.status) ==> |urlPath| > 0
    ensures r.code in {StatusOK, StatusNotFound, StatusUnsupportedMediaType, StatusInternalServerError, StatusServiceUnavailable}
    // status gate
    ensures r.code == StatusServiceUnavailable <==> !Proceeds(con.status)
    ensures r.code == StatusServiceUnavailable ==>
      && r.message == Gate(con.status)
      && r.openedPath.None? && r.resolvedPath.None? && !r.copied && r.contentType.None?
      && r.errorLines == [] && r.loadTimeLines == []
    ensures r.code != StatusServiceUnavailable ==> r.message.None? && r.openedPath == Some(MapPath(con.documentRoot, urlPath))
    // the steps run in order, each on the mapped path
    ensures r.copied ==> r.resolvedPath.Some?
    ensures r.resolvedPath.Some? ==> r.resolvedPath == r.openedPath
    // the first failing step picks the code
    ensures r.openedPath.Some? ==> (r.code == StatusNotFound <==> env.open(r.openedPath.value).Fail?)
    ensures r.openedPath.Some? ==> (r.resolvedPath.Some? <==> env.open(r.openedPath.value).Pass?)
    ensures r.resolvedPath.Some? ==> (r.code == StatusUnsupportedMediaType <==> env.contentType(r.resolvedPath.value).Failure?)
    ensures r.resolvedPath.Some? ==> (r.copied <==> env.contentType(r.resolvedPath.value).Success?)
    ensures r.copied ==> (r.code == StatusInternalServerError <==> env.copy(r.openedPath.value).Fail?)
    ensures r.copied ==> (r.code == StatusOK <==> env.copy(r.openedPath.value).Pass?)
    // the header is added before the copy, so a failed copy keeps it
    ensures r.contentType.Some? <==> r.copied
    ensures r.copied ==> r.contentType == Some(env.contentType(r.openedPath.value).value)
    // one log line per request that passes the gate, in the sink its outcome picks
    ensures |r.errorLines| + |r.loadTimeLines| == (if Proceeds(con.status) then 1 else 0)
    ensures |r.errorLines| == 1 <==> r.code in {StatusNotFound, StatusUnsupportedMediaType, StatusInternalServerError}
    ensures |r.loadTimeLines| == 1 <==> r.code == StatusOK
  {
    match Gate(con.status)
    case Some(message) => Rejected(message)
    case None =>
      var path := MapPath(con.documentRoot, urlPath);
      match env.open(path)
      case Fail(err) =>
        Response(StatusNotFound, None, Some(path), None, false, None,
                 [LogLine.ErrorLine(path, StatusNotFound, err)], [])
      case Pass =>
        match env.contentType(path)
        case Failure(err) =>
          Response(StatusUnsupportedMediaType, None, Some(path), Some(path), false, None,
                   [LogLine.ErrorLine(path, StatusUnsupportedMediaType, err)], [])
        case Success(ct) =>
          match env.copy(path)
          case Fail(err) =>
            Response(StatusInternalServerError, None, Some(path), Some(path), true, Some(ct),
                     [LogLine.ErrorLine(path, StatusInternalServerError, err)], [])
          case Pass =>
            Response(StatusOK, None, Some(path), Some(path), true, Some(ct),
                     [], [LogLine.LoadTimeLine(path, env.elapsed)])
  }

  /** The error text of the step that failed, for a request that was answered 404, 415 or 500. */
  function FailureText(env: Env, path: string, code: int): string {
    if code == StatusNotFound then
      match env.open(path) case Fail(err) => err case Pass => ""
    else if code == StatusUnsupportedMediaType then
      match env.contentType(path) case Failure(err) => err case Success(_) => ""
    else
      match env.copy(path) case Fail(err) => err case Pass => ""
  }

  /**
    The error line of a failed request reads back as the mapped path, the code
    the handler answers with (`r.code`), and the error text of the step that
    failed; a served request's load-time line reads back as the elapsed time.
   */
  lemma LoggedLinesMatchResponse(con: Controller, urlPath: string, env: Env)
    requires Proceeds(con.status) ==> |urlPath| > 0
    ensures var r := ServeHTTP(con, urlPath, env);
      |r.errorLines| == 1 ==>
        LogLine.ParseErrorLine(r.openedPath.value, r.errorLines[0]) == Some((r.code, FailureText(env, r.openedPath.value, r.code)))
    ensures var r := ServeHTTP(con, urlPath, env);
      |r.loadTimeLines| == 1 ==>
        LogLine.ParseLoadTimeLine(r.openedPath.value, r.loadTimeLines[0]) == Some(env.elapsed)
  {
    var r := ServeHTTP(con, urlPath, env);
    if |r.errorLines| == 1 {
      LogLine.ErrorLineRoundTrip(r.openedPath.value, r.errorLines[0], r.code, FailureText(env, r.openedPath.value, r.code));
    }
    if |r.loadTimeLines| == 1 {
      LogLine.LoadTimeLineRoundTrip(r.openedPath.value, r.loadTimeLines[0], env.elapsed);
    }
  }

  /** A freshly built controller is stopped: every request gets the "down" 503 and touches nothing. */
  lemma NewControllerRejects(dir: string, port: int, urlPath: string, env: Env)
    ensures ServeHTTP(New(dir, port), urlPath, env) == Rejected(DownMessage)
  {
  }

  /** Once enabled, a controller built on `dir` only ever opens files whose path starts with `dir + "public/"`. */
  lemma ServedPathsUnderPublic(dir: string, port: int, status: int, urlPath: string, env: Env)
    requires Proceeds(status) && |urlPath| > 0
    ensures var r := ServeHTTP(New(dir, port).(status := status), urlPath, env);
      r.openedPath.Some? && |r.openedPath.value| > |dir| + 7 && r.openedPath.value[..|dir| + 7] == dir + "public/"
  {
  }
}
