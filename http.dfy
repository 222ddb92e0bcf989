/**
 * The slice of `net/http` (and of the session manager's request context)
 * that the middlewares, helpers and routes rely on.
 *
 * A response is the value `Response`: the header map as it is sent, the
 * status once one is written, and the body written so far. A header set
 * after the status has been written does not reach the client, so
 * `SetHeader` leaves a written response unchanged.
 *
 * A handler is a function from a request and the exchange state (response,
 * session data attached to the request context, session store) to an
 * `Outcome`: it either returns or panics, and in both cases leaves a state.
 */
module Http {
  import opened Wrappers

  const MethodGet := "GET"
  const MethodHead := "HEAD"
  const MethodPost := "POST"
  const MethodOptions := "OPTIONS"
  const MethodTrace := "TRACE"

  // ---------------------------------------------------------------------
  // Status codes
  // ---------------------------------------------------------------------

  const StatusOK := 200
  const StatusSeeOther := 303
  const StatusBadRequest := 400
  const StatusNotFound := 404
  const StatusMethodNotAllowed := 405
  const StatusInternalServerError := 500

  /** The codes `WriteHeader` accepts; any other code makes it panic. */
  predicate ValidCode(code: int) {
    100 <= code <= 999
  }

  /** `http.StatusText`: the reason phrase of a registered code, "" for any other. */
  function StatusText(code: int): string {
    match code
    case 100 => "Continue"
    case 101 => "Switching Protocols"
    case 102 => "Processing"
    case 103 => "Early Hints"
    case 200 => "OK"
    case 201 => "Created"
    case 202 => "Accepted"
    case 203 => "Non-Authoritative Information"
    case 204 => "No Content"
    case 205 => "Reset Content"
    case 206 => "Partial Content"
    case 207 => "Multi-Status"
    case 208 => "Already Reported"
    case 226 => "IM Used"
    case 300 => "Multiple Choices"
    case 301 => "Moved Permanently"
    case 302 => "Found"
    case 303 => "See Other"
    case 304 => "Not Modified"
    case 305 => "Use Proxy"
    case 307 => "Temporary Redirect"
    case 308 => "Permanent Redirect"
    case 400 => "Bad Request"
    case 401 => "Unauthorized"
    case 402 => "Payment Required"
    case 403 => "Forbidden"
    case 404 => "Not Found"
    case 405 => "Method Not Allowed"
    case 406 => "Not Acceptable"
    case 407 => "Proxy Authentication Required"
    case 408 => "Request Timeout"
    case 409 => "Conflict"
    case 410 => "Gone"
    case 411 => "Length Required"
    case 412 => "Precondition Failed"
    case 413 => "Request Entity Too Large"
    case 414 => "Request URI Too Long"
    case 415 => "Unsupported Media Type"
    case 416 => "Requested Range Not Satisfiable"
    case 417 => "Expectation Failed"
    case 418 => "I'm a teapot"
    case 421 => "Misdirected Request"
    case 422 => "Unprocessable Entity"
    case 423 => "Locked"
    case 424 => "Failed Dependency"
    case 425 => "Too Early"
    case 426 => "Upgrade Required"
    case 428 => "Precondition Required"
    case 429 => "Too Many Requests"
    case 431 => "Request Header Fields Too Large"
    case 451 => "Unavailable For Legal Reasons"
    case 500 => "Internal Server Error"
    case 501 => "Not Implemented"
    case 502 => "Bad Gateway"
    case 503 => "Service Unavailable"
    case 504 => "Gateway Timeout"
    case 505 => "HTTP Version Not Supported"
    case 506 => "Variant Also Negotiates"
    case 507 => "Insufficient Storage"
    case 508 => "Loop Detected"
    case 510 => "Not Extended"
    case 511 => "Network Authentication Required"
    case _ => ""
  }

  // ---------------------------------------------------------------------
  // Requests
  // ---------------------------------------------------------------------

  /** What the request context holds under the "is authenticated" key. */
  datatype CtxValue = Unset | BoolValue(b: bool) | OtherValue

  /**
   * A request: its method, its URL path, the context value under the
   * "is authenticated" key, and whether it carries a CSRF token the CSRF
   * guard accepts.
   */
  datatype Request = Request(verb: string, path: string, auth: CtxValue, csrfTokenOk: bool)

  // ---------------------------------------------------------------------
  // Responses
  // ---------------------------------------------------------------------

  datatype Response = Response(header: map<string, string>, status: Option<int>, body: string)

  /** A response nothing has been written to yet. */
  const Fresh: Response := Response(map[], None, "")

  /** `w.Header().Set(name, value)`, as far as it reaches the client. */
  function SetHeader(w: Response, name: string, value: string): Response {
    if w.status.None? then w.(header := w.header[name := value]) else w
  }

  /** `w.WriteHeader(code)`: only the first call takes effect. */
  function WriteHeader(w: Response, code: int): Response
    requires ValidCode(code)
  {
    if w.status.None? then w.(status := Some(code)) else w
  }

  /** `w.Write(data)`: writes the status 200 first when none was written. */
  function Write(w: Response, data: string): Response {
    var w' := WriteHeader(w, StatusOK);
    w'.(body := w'.body + data)
  }

  /** `http.Error(w, msg, code)`: a plain-text error response. */
  function Error(w: Response, msg: string, code: int): Response
    requires ValidCode(code)
  {
    var w1 := SetHeader(w, "Content-Type", "text/plain; charset=utf-8");
    var w2 := SetHeader(w1, "X-Content-Type-Options", "nosniff");
    Write(WriteHeader(w2, code), msg + "\n")
  }

  /**
   * `http.Redirect(w, r, url, code)` for an absolute path `url`: sets
   * Location; when no Content-Type was set and the method is GET or HEAD it
   * sets an HTML Content-Type, and for GET it writes a short link body.
   */
  function Redirect(w: Response, r: Request, url: string, code: int): Response
    requires ValidCode(code)
  {
    var hadContentType := "Content-Type" in w.header;
    var w1 := SetHeader(w, "Location", url);
    var w2 :=
      if !hadContentType && (r.verb == MethodGet || r.verb == MethodHead)
      then SetHeader(w1, "Content-Type", "text/html; charset=utf-8")
      else w1;
    var w3 := WriteHeader(w2, code);
    if !hadContentType && r.verb == MethodGet
    then Write(w3, "<a href=\"" + url + "\">" + StatusText(code) + "</a>.\n" + "\n")
    else w3
  }

  /** The written status, or the 200 a server sends for a handler that wrote nothing. */
  function SentStatus(w: Response): int {
    w.status.GetOr(StatusOK)
  }

  // ---------------------------------------------------------------------
  // Properties of the writer
  // ---------------------------------------------------------------------

  /** Only the first status written counts; a later `WriteHeader` changes nothing. */
  lemma WriteHeaderFirstWins(w: Response, first: int, second: int)
    requires ValidCode(first) && ValidCode(second)
    ensures w.status.None? ==> WriteHeader(w, first).status == Some(first)
    ensures WriteHeader(WriteHeader(w, first), second) == WriteHeader(w, first)
  {
  }

  /** A header set after the status is written is not sent. */
  lemma HeaderAfterStatusIgnored(w: Response, code: int, name: string, value: string)
    requires ValidCode(code)
    ensures SetHeader(WriteHeader(w, code), name, value) == WriteHeader(w, code)
  {
  }

  /**
   * `http.Error` on a fresh response writes `code`, the message and a
   * newline, and marks the body as plain text that must not be sniffed;
   * every other header is kept. On a response whose status is already
   * written, the status stays and the message is appended.
   */
  lemma ErrorResponse(w: Response, msg: string, code: int)
    requires ValidCode(code)
    ensures var e := Error(w, msg, code);
      && e.body == w.body + msg + "\n"
      && (w.status.None? ==>
            && e.status == Some(code)
            && e.header.Keys == w.header.Keys + {"Content-Type", "X-Content-Type-Options"}
            && e.header["Content-Type"] == "text/plain; charset=utf-8"
            && e.header["X-Content-Type-Options"] == "nosniff"
            && forall k :: k in w.header && k != "Content-Type" && k != "X-Content-Type-Options" ==>
                 e.header[k] == w.header[k])
      && (w.status.Some? ==> e.status == w.status && e.header == w.header)
  {
  }

  /**
   * A redirect on a fresh response writes `code` and points Location at
   * `url`; a POST redirect has an empty body.
   */
  lemma RedirectResponse(w: Response, r: Request, url: string, code: int)
    requires ValidCode(code) && w.status.None?
    ensures var d := Redirect(w, r, url, code);
      && d.status == Some(code)
      && d.header.Keys >= w.header.Keys + {"Location"}
      && d.header["Location"] == url
      && (r.verb == MethodPost ==> d.body == w.body && d.header == w.header["Location" := url])
  {
  }

  // ---------------------------------------------------------------------
  // Session data and handlers
  // ---------------------------------------------------------------------

  datatype SessionValue = IntValue(i: int) | StringValue(s: string)

  type Session = map<string, SessionValue>

  /** `GetInt`: the integer stored under `key`, or 0 when there is none. */
  function GetInt(sess: Session, key: string): int {
    if key in sess && sess[key].IntValue? then sess[key].i else 0
  }

  /**
   * The state one request works on: the response, the session data the
   * session middleware attached to the request context (`None` outside of
   * it), and the client's session as stored between requests.
   */
  datatype State = State(w: Response, session: Option<Session>, store: Session)

  /** How a handler ends: by returning, or by panicking. */
  datatype Outcome = Returned(st: State) | Panicked(st: State) {
    function Final(): State {
      match this
      case Returned(st) => st
      case Panicked(st) => st
    }
  }

  type Handler = (Request, State) -> Outcome

  /**
   * `Put(ctx, key, val)`: stores into the session data of the request
   * context; without session data in the context the session manager panics.
   */
  function Put(st: State, key: string, val: SessionValue): Outcome {
    match st.session
    case None => Panicked(st)
    case Some(sess) => Returned(st.(session := Some(sess[key := val])))
  }

  /** A handler that only writes to the response. */
  function Responding(f: Response -> Response): Handler {
    (r: Request, st: State) => Returned(st.(w := f(st.w)))
  }
}
