# Public static-file handler of gPanel, modelled in Dafny

gPanel's public web server is a single request handler, `Controller.ServeHTTP`,
plus the constructor `New` that sets up its controller. The handler:

1. checks the administrative status (0 down, 1 normal, 2 maintenance, 3 restarting),
   answering 503 with a fixed message for 0, 2 and 3;
2. maps the URL path to a file: it drops the first character and appends the rest to the
   document root verbatim, or appends `index.html` when nothing is left;
3. opens the file, resolves its content type, adds the `Content-Type` header and copies the
   file to the response. The first step that fails picks 404 Not Found (section 15.5.5 of
   RFC 9110), 415 Unsupported Media Type (section 15.5.16) or 500 Internal Server Error
   (section 15.6.1) and appends one line `path::code::err` to the error log. A request that
   succeeds appends one line `path rendered in secs seconds` to the load-time log.

The model is purely functional. `Public.ServeHTTP` takes the controller, the URL path and an
`Env` of I/O answers: open, content type and copy, each a function of the mapped path, plus
the formatted elapsed time. It returns a `Response` record. The record holds the status code,
the 503 message, the path handed to each I/O step the handler reached, the header it added,
and the lines it appended to each sink. The controller holds only configuration: the log
handlers are not modelled, nothing in the handler changes them, and what they have written is
separate state, `Server.Sinks`. Each
sink is an append-only sequence of lines. `Server.ServeAll` serves a sequence of requests one at a
time against one controller with an unchanging status, and writes each response's lines to
the sinks.

Modules and files:

- `wrappers.dfy` (`Wrappers`): `Option`, `Result`, `Outcome`.
- `decimal.dfy` (`Decimal`): the decimal text `strconv.Itoa` writes for the status codes in log
  lines, and a strict parser that is its exact inverse.
- `logline.dfy` (`LogLine`): the error-line and load-time-line formats, and parsers that read
  them back.
- `public.dfy` (`Public`): the controller, `New`, the status gate, the path mapping and
  `ServeHTTP`.
- `server.dfy` (`Server`): the two log sinks, and one controller serving many requests.

Modelling choices:

- Go strings are byte strings. The model uses `string` (a sequence of `char`) with one
  `char` per byte, so `Path[1:]` drops exactly one element.
- `req.URL.Path[1:]` panics on an empty path. `ServeHTTP` therefore requires a non-empty URL
  path, but only when the status lets the request through. The 503 branches never slice the
  path. Any client can reach the excluded case: a `CONNECT host:port` request in authority
  form arrives with an empty `URL.Path`. With a status that lets requests through, the handler
  then panics, net/http recovers and drops the connection, and nothing is written to either
  sink.
- The handler adds the `Content-Type` header before it calls `io.Copy`. So on the 500 path the
  recorded `contentType` is the resolver's value. What the client finally receives on that
  path depends on `routing.HttpThrowStatus`, which is not part of this model.
- The Go `switch` has no `default` case. Any status outside {0, 1, 2, 3} is served like
  status 1.
- The model assumes both log files opened in `New` and that every `Write` appends exactly its
  argument as one line. The sinks are the lines held, starting from whatever the caller
  supplies.

## Model

| member | source | states |
|---|---|---|
| Public.New | pkg/public/public.go:40-47 | the controller serves `dir + "public/"`, keeps the given port, and starts with status 0 and a 5-second graceful-shutdown timeout |
| Public.Gate | pkg/public/public.go:65-77 | a request is rejected exactly when the status is 0, 2 or 3: status 0 gets the "down" message, 2 the maintenance message and 3 the restarting message; every other status, including values outside 0..3, lets the request through |
| Public.GateMessagesDistinct | pkg/public/public.go:65-77 | two rejecting statuses give the same message only if they are the same status |
| Public.MapPath | pkg/public/public.go:79-84 | the mapped path always starts with the document root and has something after it; after the root comes the URL path minus its first character, or `index.html` when that remainder is empty |
| Public.MapPathSameFile | pkg/public/public.go:79-84 | two URL paths map to the same file if and only if their remainders are equal, or both remainders are "" or "index.html" |
| Public.MapPathKeepsTraversal | pkg/public/public.go:81-83 | the remainder is not normalised: "/../x" maps to root + "../x" |
| Public.ServeHTTP | pkg/public/public.go:62-113 | 503 exactly when the gate rejects, and then no I/O step runs and nothing is logged; otherwise the mapped path is opened; the content type is resolved only after a successful open, and the copy runs only after a successful resolution; the first failure gives 404, 415 or 500; the header is the resolver's value and is present exactly when the copy was attempted; exactly one line is logged per request that passes the gate: an error line on 404, 415 or 500, a load-time line on 200 |
| Public.LoggedLinesMatchResponse | pkg/public/public.go:86-112 | the error line of a failed request reads back as the code the handler answers with (`r.code`) together with the failing step's error text; the load-time line of a served request reads back as the elapsed-time text |
| Public.NewControllerRejects | pkg/public/public.go:40-68 | a freshly constructed controller (status 0) answers every request with the "down" 503 and touches no file |
| Public.ServedPathsUnderPublic | pkg/public/public.go:41-83 | once a controller built on `dir` is serving, every file it opens has the prefix `dir + "public/"` |
| LogLine.ErrorLineRoundTrip | pkg/public/public.go:89 | `ParseErrorLine(path, line)` gives `(code, err)` if and only if `line` is `path + "::" + Itoa(code) + "::" + err`, for every integer code and every error text |
| LogLine.LoadTimeLineRoundTrip | pkg/public/public.go:112 | `ParseLoadTimeLine(path, line)` gives `secs` if and only if `line` is `path + " rendered in " + secs + " seconds"` |
| Decimal.IntToString | pkg/public/public.go:89 | the decimal text starts with a minus sign exactly for negative values; every later character, and the first one of a non-negative value, is a digit |
| Decimal.NatToString | pkg/public/public.go:89 | the text of a natural number is one or more digits, and it starts with '0' only for zero itself |
| Decimal.StringToIntInverse | pkg/public/public.go:89 | the strict parser accepts a string as `i` if and only if `IntToString(i)` is that string |
| Decimal.StatusCodeTexts | pkg/public/public.go:89-106 | codes 404, 415 and 500 are written as "404", "415" and "500" in error lines |
| Server.ServeAll | pkg/public/public.go:86-112 | after a sequence of requests served one at a time, each sink holds its earlier lines followed by exactly the lines the handler writes for the requests, in order; the total number of lines grows by one per request the status lets through, and by nothing while the server rejects |
| Server.SinksOnlyGrow | pkg/public/public.go:86-112 | serving never drops or rewrites a line already in either sink |

## Left out

- The actual I/O (`os.Open`, `io.Copy`, `http.Error`, writing headers and body): each step is
  an answer in `Env`, and the response body bytes are not modelled.
- `routing.GetContentType` and `routing.HttpThrowStatus` belong to a package that is not part of
  this model. Content-type resolution is an opaque `Result`, and the error response body and
  headers that `HttpThrowStatus` and `http.Error` write are not modelled.
- The wire status when `io.Copy` fails after writing part of the body. By then net/http has
  already sent 200, so the later 500 cannot reach the client. The model reports the 500 the
  handler asks for.
- Wall-clock timing and `strconv.FormatFloat`: floating-point formatting of the elapsed time.
  The elapsed-seconds text is an opaque string in `Env`.
- The `http.Server` value built in `New` (address, 30-second read and write timeouts): this is
  server plumbing outside the handler.
- Opening the two log files in `New` (`file.Open`, in a package that is not part of this
  model): the model assumes both opened. What a failed open leaves in `PublicLogger` or
  `LoadTimeLogger`, and what a later `Write` to it does, is not modelled. The `fmt.Errorf`
  values built on failure are discarded.
- The unsynchronised read of `Status` while another goroutine changes it: this is concurrency.
  The model reads the status once per request.
- Concurrent requests: net/http runs each connection on its own goroutine. Overlapping requests
  can therefore append their lines to the sinks in any interleaving, and whether a concurrent
  `Write` keeps each line whole depends on `file.Handler`, which is not part of this model.
  `Server.ServeAll` is a modelling choice: requests are served one at a time against a status
  that does not change during the run.
- The opened file is never closed: `f` from `os.Open` (pkg/public/public.go:86) has no `Close`
  call or `defer` anywhere in the handler, so on the 415, 500 and 200 paths the descriptor
  stays open until the garbage collector finalises it. Descriptor lifetime is not modelled. A
  later `os.Open` that fails because descriptors ran out is just a failing `open` in `Env`.
- The package-level `controller` variable: `New` fills that one global and returns a pointer
  to it. So a later `New` overwrites the root, the port, the status (back to 0) and the log
  handlers for every holder of an earlier pointer. The model's `New` returns an independent
  value. Statements about "a controller built on `dir`", such as `Public.ServedPathsUnderPublic`,
  hold only until `New` is called again.
