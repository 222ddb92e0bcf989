/**
 * The middlewares: each takes the next handler and returns the handler that
 * decides, for one request, whether and how to call it.
 *
 * The session manager's `LoadAndSave` and the CSRF guard are library code;
 * they appear here only as the steps the chains rely on: `LoadAndSave`
 * attaches the stored session to the request and stores it back when the
 * handler returns, and the CSRF guard passes a request with a safe method or
 * an accepted token and answers any other with 400.
 */
module Middlewares {
  import opened Wrappers
  import opened Http
  import Helpers

  /** The session key of the logged-in user's id. */
  const UserIdKey := "authenticatedUserID"
  /** The session key of the one-shot flash message. */
  const FlashKey := "flash"

  const LoginPath := "/user/login/"
  const LoginFirstMessage := "Please login first"

  /** The user repository's `Exists(id)`: whether the user exists, or a failure. */
  datatype ExistsResult = Found(userExists: bool) | Failed

  type UserRepo = int -> ExistsResult

  // ---------------------------------------------------------------------
  // The middlewares
  // ---------------------------------------------------------------------

  /** `logRequest`: logs the request line, then calls `next` with the same request. */
  function LogRequest(next: Handler): Handler {
    (r: Request, st: State) => next(r, st)
  }

  /**
   * `recoverFromPanic`: when `next` panics, the panic is caught, the
   * connection is marked to be closed and a server error is written.
   */
  function RecoverFromPanic(next: Handler): Handler {
    (r: Request, st: State) =>
      match next(r, st)
      case Returned(st1) => Returned(st1)
      case Panicked(st1) => Returned(st1.(w := Helpers.ServerError(SetHeader(st1.w, "Connection", "close"))))
  }

  const ContentSecurityPolicy :=
    "default-src 'self'; style-src 'self' fonts.googleapis.com; font-src fonts.gstatic.com; frame-ancestors 'none'"

  /** The five header names `secureHeaders` sets. */
  const SecurityHeaderNames: set<string> :=
    {"Content-Security-Policy", "Referrer-Policy", "X-Content-Type-Options", "X-Frame-Options", "X-XSS-Protection"}

  function WithSecurityHeaders(w: Response): Response {
    var w1 := SetHeader(w, "Content-Security-Policy", ContentSecurityPolicy);
    var w2 := SetHeader(w1, "Referrer-Policy", "strict-origin-when-cross-origin");
    var w3 := SetHeader(w2, "X-Content-Type-Options", "nosniff");
    var w4 := SetHeader(w3, "X-Frame-Options", "DENY");
    SetHeader(w4, "X-XSS-Protection", "0")
  }

  /** The header values `secureHeaders` sets, each under its name. */
  predicate HasSecurityHeaders(w: Response) {
    && SecurityHeaderNames <= w.header.Keys
    && w.header["Content-Security-Policy"] == ContentSecurityPolicy
    && w.header["Referrer-Policy"] == "strict-origin-when-cross-origin"
    && w.header["X-Content-Type-Options"] == "nosniff"
    && w.header["X-Frame-Options"] == "DENY"
    && w.header["X-XSS-Protection"] == "0"
  }

  /** `secureHeaders`: sets the five security headers, then calls `next`. */
  function SecureHeaders(next: Handler): Handler {
    (r: Request, st: State) => next(r, st.(w := WithSecurityHeaders(st.w)))
  }

  /**
   * `requireAuthentication`: an anonymous request gets a flash message and
   * a 303 redirect to the login page; an authenticated one is marked as not
   * cacheable and passed on.
   */
  function RequireAuthentication(next: Handler): Handler {
    (r: Request, st: State) =>
      if !Helpers.IsAuthenticated(r) then
        match Put(st, FlashKey, StringValue(LoginFirstMessage))
        case Panicked(st1) => Panicked(st1)
        case Returned(st1) => Returned(st1.(w := Redirect(st1.w, r, LoginPath, StatusSeeOther)))
      else
        next(r, st.(w := SetHeader(st.w, "Cache-Control", "no-store")))
  }

  /** The methods the CSRF guard lets through without a token. */
  predicate SafeMethod(verb: string) {
    verb == MethodGet || verb == MethodHead || verb == MethodOptions || verb == MethodTrace
  }

  /** The CSRF guard: a safe method or an accepted token passes; anything else is a 400. */
  function CSRFPrevent(next: Handler): Handler {
    (r: Request, st: State) =>
      if SafeMethod(r.verb) || r.csrfTokenOk then next(r, st)
      else Returned(st.(w := Error(st.w, StatusText(StatusBadRequest), StatusBadRequest)))
  }

  /**
   * `authenticate`: reads the user id from the session (0 when there is
   * none); a non-zero id is looked up, a failed lookup is a server error,
   * and an existing user marks the request as authenticated.
   * Reading the session outside of `LoadAndSave` panics.
   */
  function Authenticate(users: UserRepo, next: Handler): Handler {
    (r: Request, st: State) =>
      match st.session
      case None => Panicked(st)
      case Some(sess) =>
        var id := GetInt(sess, UserIdKey);
        if id == 0 then next(r, st)
        else
          match users(id)
          case Failed => Returned(st.(w := Helpers.ServerError(st.w)))
          case Found(known) =>
            if known then next(r.(auth := BoolValue(true)), st) else next(r, st)
  }

  /**
   * The session manager's `LoadAndSave`: attaches the stored session to
   * the request, and stores the session back when `next` returns. A panic
   * passes through and nothing is stored.
   */
  function LoadAndSave(next: Handler): Handler {
    (r: Request, st: State) =>
      match next(r, st.(session := Some(st.store)))
      case Returned(st1) => Returned(st1.(session := st.session, store := st1.session.GetOr(st.store)))
      case Panicked(st1) => Panicked(st1.(session := st.session))
  }

  /** The repository the handler tests use: only user 1 exists. */
  function StubUsers(id: int): (e: ExistsResult)
    ensures e == Found(true) <==> id == 1
    ensures e != Failed
  {
    if id == 1 then Found(true) else Found(false)
  }

  // ---------------------------------------------------------------------
  // Properties
  // ---------------------------------------------------------------------

  /** `logRequest` forwards the very same request and state to `next`, and ends as it ends. */
  lemma LogRequestForwards(next: Handler, r: Request, st: State)
    ensures LogRequest(next)(r, st) == next(r, st)
  {
  }

  /**
   * `recoverFromPanic` always returns normally. When `next` returns, its
   * result is unchanged; when `next` panics before writing a status, the
   * response is a 500 with `Connection: close`, and the session state at
   * the panic is kept.
   */
  lemma RecoverFromPanicResult(next: Handler, r: Request, st: State)
    ensures RecoverFromPanic(next)(r, st).Returned?
    ensures next(r, st).Returned? ==> RecoverFromPanic(next)(r, st) == next(r, st)
    ensures var o := next(r, st);
      o.Panicked? && o.st.w.status.None? ==>
        var out := RecoverFromPanic(next)(r, st).st;
        && out.w.status == Some(500)
        && out.w.header["Connection"] == "close"
        && out.w.body == o.st.w.body + "Internal Server Error\n"
        && out.session == o.st.session && out.store == o.st.store
  {
    var o := next(r, st);
    if o.Panicked? && o.st.w.status.None? {
      var w1 := SetHeader(o.st.w, "Connection", "close");
      ErrorResponse(w1, StatusText(StatusInternalServerError), StatusInternalServerError);
    }
  }

  /**
   * On a fresh response, the headers `secureHeaders` passes to `next` are
   * the earlier ones plus exactly the five security headers with their
   * values; status and body are untouched, and the outcome is `next`'s.
   */
  lemma SecureHeadersSetsFive(next: Handler, r: Request, st: State)
    requires st.w.status.None?
    ensures var w := WithSecurityHeaders(st.w);
      && SecureHeaders(next)(r, st) == next(r, st.(w := w))
      && HasSecurityHeaders(w)
      && w.header.Keys == st.w.header.Keys + SecurityHeaderNames
      && (forall k :: k in st.w.header && k !in SecurityHeaderNames ==> w.header[k] == st.w.header[k])
      && w.status == st.w.status && w.body == st.w.body
  {
  }

  /** Headers already on a response stay there when more headers are set. */
  lemma SecurityHeadersStay(w: Response, name: string, value: string)
    requires HasSecurityHeaders(w) && name !in SecurityHeaderNames
    ensures HasSecurityHeaders(SetHeader(w, name, value))
  {
  }

  /** An error response keeps the security headers of the response it is written on. */
  lemma ErrorKeepsSecurityHeaders(w: Response, msg: string, code: int)
    requires ValidCode(code) && HasSecurityHeaders(w)
    ensures HasSecurityHeaders(Error(w, msg, code))
  {
    ErrorResponse(w, msg, code);
  }

  /** A redirect keeps the security headers of the response it is written on. */
  lemma RedirectKeepsSecurityHeaders(w: Response, r: Request, url: string, code: int)
    requires ValidCode(code) && HasSecurityHeaders(w)
    ensures HasSecurityHeaders(Redirect(w, r, url, code))
  {
    SecurityHeadersStay(w, "Location", url);
    SecurityHeadersStay(SetHeader(w, "Location", url), "Content-Type", "text/html; charset=utf-8");
  }

  /**
   * A `next` that writes "OK", wrapped by `secureHeaders` and run on a fresh
   * response, answers 200 "OK" with the five security headers.
   */
  lemma SecureHeadersOnOK(r: Request, st: State)
    requires st.w == Fresh
    ensures var out := SecureHeaders(Responding((w: Response) => Write(w, "OK")))(r, st);
      && out.Returned?
      && out.st.w.status == Some(200) && out.st.w.body == "OK"
      && HasSecurityHeaders(out.st.w)
  {
    SecureHeadersSetsFive(Responding((w: Response) => Write(w, "OK")), r, st);
  }

  /** `authenticate` panics when no session is attached to the request. */
  lemma AuthenticateNeedsSession(users: UserRepo, next: Handler, r: Request, st: State)
    requires st.session.None?
    ensures Authenticate(users, next)(r, st).Panicked?
  {
  }

  /**
   * With no user id in the session, `authenticate` calls `next` with the
   * request unchanged, whatever the repository would answer: it never
   * consults it.
   */
  lemma AuthenticateAnonymous(users1: UserRepo, users2: UserRepo, next: Handler, r: Request, st: State)
    requires st.session.Some? && GetInt(st.session.value, UserIdKey) == 0
    ensures Authenticate(users1, next)(r, st) == next(r, st)
    ensures Authenticate(users1, next)(r, st) == Authenticate(users2, next)(r, st)
  {
  }

  /**
   * When the repository fails, `authenticate` answers with a server error
   * and never calls `next`: the outcome is the same for any `next`.
   */
  lemma AuthenticateRepoFailure(users: UserRepo, next1: Handler, next2: Handler, r: Request, st: State)
    requires st.session.Some?
    requires var id := GetInt(st.session.value, UserIdKey); id != 0 && users(id) == Failed
    ensures Authenticate(users, next1)(r, st) == Returned(st.(w := Helpers.ServerError(st.w)))
    ensures Authenticate(users, next1)(r, st) == Authenticate(users, next2)(r, st)
    ensures st.w.status.None? ==> Authenticate(users, next1)(r, st).st.w.status == Some(500)
  {
    if st.w.status.None? {
      Helpers.ServerErrorIs500(st.w);
    }
  }

  /**
   * When the repository answers, `authenticate` calls `next` with a
   * request that is marked authenticated if and only if the user exists,
   * and is otherwise the request it was given.
   */
  lemma AuthenticateMarks(users: UserRepo, next: Handler, r: Request, st: State)
    requires st.session.Some?
    requires var id := GetInt(st.session.value, UserIdKey); id != 0 && users(id).Found?
    ensures var known := users(GetInt(st.session.value, UserIdKey)).userExists;
      var r' := if known then r.(auth := BoolValue(true)) else r;
      && Authenticate(users, next)(r, st) == next(r', st)
      && r'.verb == r.verb && r'.path == r.path && r'.csrfTokenOk == r.csrfTokenOk
      && (known ==> Helpers.IsAuthenticated(r'))
      && (!known ==> r' == r)
  {
  }

  /**
   * With the test repository, a session naming user 1 makes the request
   * authenticated, and any other id passes the request on unchanged.
   */
  lemma AuthenticateWithStubUsers(next: Handler, r: Request, st: State)
    requires st.session.Some?
    ensures var id := GetInt(st.session.value, UserIdKey);
      Authenticate(StubUsers, next)(r, st) == (if id == 1 then next(r.(auth := BoolValue(true)), st) else next(r, st))
  {
    var id := GetInt(st.session.value, UserIdKey);
    if id != 0 {
      assert StubUsers(id) == Found(id == 1);
    }
  }

  /**
   * An anonymous request inside a session gets the flash message "Please
   * login first" and a 303 redirect to "/user/login/"; `next` is never
   * called, so the outcome is the same for any `next`.
   */
  lemma RequireAuthenticationRedirects(next1: Handler, next2: Handler, r: Request, st: State)
    requires !Helpers.IsAuthenticated(r) && st.session.Some? && st.w.status.None?
    ensures var out := RequireAuthentication(next1)(r, st);
      && out == RequireAuthentication(next2)(r, st)
      && out.Returned?
      && out.st.w.status == Some(303)
      && "Location" in out.st.w.header && out.st.w.header["Location"] == "/user/login/"
      && out.st.session == Some(st.session.value[FlashKey := StringValue("Please login first")])
      && out.st.store == st.store
  {
    var st1 := st.(session := Some(st.session.value[FlashKey := StringValue(LoginFirstMessage)]));
    assert Put(st, FlashKey, StringValue(LoginFirstMessage)) == Returned(st1);
    var out := Returned(st1.(w := Redirect(st1.w, r, LoginPath, StatusSeeOther)));
    assert RequireAuthentication(next1)(r, st) == out;
    assert RequireAuthentication(next2)(r, st) == out;
    RedirectResponse(st1.w, r, LoginPath, StatusSeeOther);
  }

  /**
   * An authenticated request is marked `Cache-Control: no-store` and passed
   * to `next` unchanged.
   */
  lemma RequireAuthenticationForwards(next: Handler, r: Request, st: State)
    requires Helpers.IsAuthenticated(r)
    ensures RequireAuthentication(next)(r, st) == next(r, st.(w := SetHeader(st.w, "Cache-Control", "no-store")))
    ensures st.w.status.None? ==> SetHeader(st.w, "Cache-Control", "no-store").header["Cache-Control"] == "no-store"
  {
  }

  /**
   * The CSRF guard passes a request to `next` exactly when its method is
   * safe or its token is accepted; otherwise it answers 400 "Bad Request"
   * without calling `next`.
   */
  lemma CSRFPreventDecides(next1: Handler, next2: Handler, r: Request, st: State)
    ensures SafeMethod(r.verb) || r.csrfTokenOk ==> CSRFPrevent(next1)(r, st) == next1(r, st)
    ensures !(SafeMethod(r.verb) || r.csrfTokenOk) ==>
      && CSRFPrevent(next1)(r, st) == CSRFPrevent(next2)(r, st)
      && CSRFPrevent(next1)(r, st).Returned?
      && (st.w.status.None? ==> CSRFPrevent(next1)(r, st).st.w.status == Some(400)
                                && CSRFPrevent(next1)(r, st).st.w.body == st.w.body + "Bad Request\n")
  {
    if !(SafeMethod(r.verb) || r.csrfTokenOk) {
      ErrorResponse(st.w, StatusText(StatusBadRequest), StatusBadRequest);
    }
  }

  /**
   * `LoadAndSave` runs `next` with the stored session attached; when `next`
   * returns, the session as `next` left it is stored; when `next` panics,
   * the store is untouched.
   */
  lemma LoadAndSaveCommits(next: Handler, r: Request, st: State)
    ensures var o := next(r, st.(session := Some(st.store)));
      var out := LoadAndSave(next)(r, st);
      && out.Returned? == o.Returned?
      && out.st.w == o.st.w
      && out.st.session == st.session
      && (o.Returned? && o.st.session.Some? ==> out.st.store == o.st.session.value)
      && (o.Panicked? ==> out.st.store == o.st.store)
  {
  }
}
