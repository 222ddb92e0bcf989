/**
 * The application's routing: middleware chains as ordered lists of layers
 * composed outermost-first, the route table, the router that dispatches a
 * request to the first matching route, and the standard chain around it all.
 */
module Routes {
  import opened Wrappers
  import opened Http
  import Helpers
  import M = Middlewares

  // ---------------------------------------------------------------------
  // Chains
  // ---------------------------------------------------------------------

  /** One middleware of a chain. */
  datatype Layer =
    | LoadAndSave
    | CSRFPrevent
    | Authenticate
    | RequireAuthentication
    | RecoverFromPanic
    | LogRequest
    | SecureHeaders

  /** The handler `m` makes of `next`. */
  function Wrap(m: Layer, users: M.UserRepo, next: Handler): Handler {
    match m
    case LoadAndSave => M.LoadAndSave(next)
    case CSRFPrevent => M.CSRFPrevent(next)
    case Authenticate => M.Authenticate(users, next)
    case RequireAuthentication => M.RequireAuthentication(next)
    case RecoverFromPanic => M.RecoverFromPanic(next)
    case LogRequest => M.LogRequest(next)
    case SecureHeaders => M.SecureHeaders(next)
  }

  /** A chain's `Then(h)`: the first layer is the outermost, `h` the innermost. */
  function Then(chain: seq<Layer>, users: M.UserRepo, h: Handler): Handler
    decreases |chain|
  {
    if chain == [] then h else Wrap(chain[0], users, Then(chain[1..], users, h))
  }

  /** The chain of every page that uses the session. */
  const StatefulChain: seq<Layer> := [LoadAndSave, CSRFPrevent, Authenticate]

  /** The chain of the pages for logged-in users only: the stateful chain with `requireAuthentication` appended. */
  const ProtectedChain: seq<Layer> := StatefulChain + [RequireAuthentication]

  /** The chain around the whole router. */
  const StandardChain: seq<Layer> := [RecoverFromPanic, LogRequest, SecureHeaders]

  // ---------------------------------------------------------------------
  // The route table
  // ---------------------------------------------------------------------

  /** The handlers at the end of the chains; their own behaviour is not modelled. */
  datatype Target =
    | FileServer
    | Ping
    | Home
    | SnippetView
    | UserSignupForm
    | UserSignup
    | UserLoginForm
    | UserLogin
    | SnippetCreateForm
    | SnippetCreate
    | UserLogout

  datatype Route = Route(verb: string, pattern: string, chain: seq<Layer>, target: Target)

  /** The routes the application registers, in order. */
  function RouteTable(): seq<Route> {
    [ Route(MethodGet, "/static/*filepath", [], FileServer),
      Route(MethodGet, "/ping", [], Ping),
      Route(MethodGet, "/", StatefulChain, Home),
      Route(MethodGet, "/snippet/view/:id", StatefulChain, SnippetView),
      Route(MethodGet, "/user/signup", StatefulChain, UserSignupForm),
      Route(MethodPost, "/user/signup", StatefulChain, UserSignup),
      Route(MethodGet, "/user/login", StatefulChain, UserLoginForm),
      Route(MethodPost, "/user/login", StatefulChain, UserLogin),
      Route(MethodGet, "/snippet/create", ProtectedChain, SnippetCreateForm),
      Route(MethodPost, "/snippet/create", ProtectedChain, SnippetCreate),
      Route(MethodPost, "/user/logout", ProtectedChain, UserLogout) ]
  }

  /** The length of the first path segment of `s`: up to the first '/' or the end. */
  function SegmentLength(s: string): (n: nat)
    ensures n <= |s|
    ensures n < |s| ==> s[n] == '/'
    ensures forall j :: 0 <= j < n ==> s[j] != '/'
  {
    if s == [] || s[0] == '/' then 0 else 1 + SegmentLength(s[1..])
  }

  /**
   * Whether a route pattern matches a URL path: ":name" matches one
   * non-empty segment, "*name" matches all the rest of the path, and every
   * other character matches itself.
   */
  predicate PathMatches(pattern: string, path: string)
    decreases |pattern| + |path|
  {
    if pattern == [] then path == []
    else if pattern[0] == '*' then true
    else if pattern[0] == ':' then
      var n := SegmentLength(path);
      n > 0 && PathMatches(pattern[SegmentLength(pattern)..], path[n..])
    else path != [] && path[0] == pattern[0] && PathMatches(pattern[1..], path[1..])
  }

  /** The first route of `table` for this method whose pattern matches the path. */
  function Lookup(table: seq<Route>, verb: string, path: string): (found: Option<Route>)
    ensures found.Some? ==> found.value in table && found.value.verb == verb && PathMatches(found.value.pattern, path)
    ensures found.None? ==> forall i :: 0 <= i < |table| ==> !(table[i].verb == verb && PathMatches(table[i].pattern, path))
  {
    if table == [] then None
    else if table[0].verb == verb && PathMatches(table[0].pattern, path) then Some(table[0])
    else Lookup(table[1..], verb, path)
  }

  /** Whether some route of `table`, for any method, matches the path. */
  predicate PathRegistered(table: seq<Route>, path: string) {
    exists i :: 0 <= i < |table| && PathMatches(table[i].pattern, path)
  }

  /**
   * The router: a matching route runs its chain around its target; a path
   * registered only for other methods gets 405 (an OPTIONS request gets an
   * empty answer); anything else goes to the not-found handler, or gets the
   * plain "404 page not found" when there is none.
   */
  function Dispatch(table: seq<Route>, notFound: Option<Handler>, users: M.UserRepo, targets: Target -> Handler): Handler {
    (r: Request, st: State) =>
      match Lookup(table, r.verb, r.path)
      case Some(route) => Then(route.chain, users, targets(route.target))(r, st)
      case None =>
        if PathRegistered(table, r.path) then
          if r.verb == MethodOptions then Returned(st)
          else Returned(st.(w := Error(st.w, StatusText(StatusMethodNotAllowed), StatusMethodNotAllowed)))
        else
          match notFound
          case Some(h) => h(r, st)
          case None => Returned(st.(w := Error(st.w, "404 page not found", StatusNotFound)))
  }

  /** The application's not-found handler. */
  function NotFoundHandler(): Handler {
    Responding(Helpers.NotFound)
  }

  /** The handler `routes()` returns: the standard chain around the router. */
  function App(users: M.UserRepo, targets: Target -> Handler): Handler {
    Then(StandardChain, users, Dispatch(RouteTable(), Some(NotFoundHandler()), users, targets))
  }

  // ---------------------------------------------------------------------
  // The router object and routes()
  // ---------------------------------------------------------------------

  /** The method and pattern of every route in `table`. */
  function Keys(table: seq<Route>): set<(string, string)> {
    if table == [] then {}
    else
      var last := table[|table| - 1];
      Keys(table[..|table| - 1]) + {(last.verb, last.pattern)}
  }

  /** Whether `table` already holds a route for this method and pattern. */
  predicate Registered(table: seq<Route>, verb: string, pattern: string) {
    (verb, pattern) in Keys(table)
  }

  /** A method and pattern are registered exactly when some route of the table has both. */
  lemma {:induction false} RegisteredIff(table: seq<Route>, verb: string, pattern: string)
    ensures Registered(table, verb, pattern) <==>
      exists i :: 0 <= i < |table| && table[i].verb == verb && table[i].pattern == pattern
  {
    if table != [] {
      var n := |table| - 1;
      RegisteredIff(table[..n], verb, pattern);
      if Registered(table[..n], verb, pattern) {
        var i :| 0 <= i < n && table[..n][i].verb == verb && table[..n][i].pattern == pattern;
        assert table[i] == table[..n][i];
      }
    }
  }

  /** Registering a route adds exactly its method and pattern to the keys. */
  lemma KeysAppend(table: seq<Route>, route: Route)
    ensures Keys(table + [route]) == Keys(table) + {(route.verb, route.pattern)}
  {
    assert (table + [route])[..|table|] == table;
  }

  class Router {
    var routes: seq<Route>
    var notFound: Option<Handler>

    constructor ()
      ensures routes == [] && notFound == None
    {
      routes := [];
      notFound := None;
    }

    /**
     * Registers a route; the router refuses (by panicking) a pattern that
     * does not start with '/' or one already registered for the method.
     */
    method Handle(verb: string, pattern: string, chain: seq<Layer>, target: Target)
      requires |pattern| > 0 && pattern[0] == '/'
      requires !Registered(routes, verb, pattern)
      modifies this
      ensures routes == old(routes) + [Route(verb, pattern, chain, target)]
      ensures Keys(routes) == Keys(old(routes)) + {(verb, pattern)}
      ensures notFound == old(notFound)
    {
      KeysAppend(routes, Route(verb, pattern, chain, target));
      routes := routes + [Route(verb, pattern, chain, target)];
    }

    method SetNotFound(h: Handler)
      modifies this
      ensures routes == old(routes)
      ensures notFound == Some(h)
    {
      notFound := Some(h);
    }
  }

  /**
   * `routes()`: registers every route with its chain, installs the
   * not-found handler, and wraps the router in the standard chain.
   */
  method MakeRoutes(users: M.UserRepo, targets: Target -> Handler) returns (router: Router, app: Handler)
    ensures fresh(router)
    ensures router.routes == RouteTable()
    ensures router.notFound == Some(NotFoundHandler())
    ensures forall r, st :: app(r, st) == App(users, targets)(r, st)
  {
    router := new Router();
    router.Handle(MethodGet, "/static/*filepath", [], FileServer);
    router.Handle(MethodGet, "/ping", [], Ping);

    var stateful := [LoadAndSave, CSRFPrevent, Authenticate];
    router.Handle(MethodGet, "/", stateful, Home);
    router.Handle(MethodGet, "/snippet/view/:id", stateful, SnippetView);
    router.Handle(MethodGet, "/user/signup", stateful, UserSignupForm);
    router.Handle(MethodPost, "/user/signup", stateful, UserSignup);
    router.Handle(MethodGet, "/user/login", stateful, UserLoginForm);
    router.Handle(MethodPost, "/user/login", stateful, UserLogin);

    var protected := stateful + [RequireAuthentication];
    router.Handle(MethodGet, "/snippet/create", protected, SnippetCreateForm);
    router.Handle(MethodPost, "/snippet/create", protected, SnippetCreate);
    router.Handle(MethodPost, "/user/logout", protected, UserLogout);

    var standard := [RecoverFromPanic, LogRequest, SecureHeaders];
    router.SetNotFound(NotFoundHandler());
    app := Then(standard, users, Dispatch(router.routes, router.notFound, users, targets));
  }

  // ---------------------------------------------------------------------
  // Properties of chains
  // ---------------------------------------------------------------------

  /** Appending layers to a chain nests their handler inside the chain's: `Append` then `Then` is `Then` of `Then`. */
  lemma {:induction false} ThenAppend(a: seq<Layer>, b: seq<Layer>, users: M.UserRepo, h: Handler)
    ensures Then(a + b, users, h) == Then(a, users, Then(b, users, h))
    decreases |a|
  {
    if a == [] {
      assert a + b == b;
    } else {
      assert (a + b)[0] == a[0];
      assert (a + b)[1..] == a[1..] + b;
      ThenAppend(a[1..], b, users, h);
    }
  }

  lemma StandardChainUnfolds(users: M.UserRepo, h: Handler)
    ensures Then(StandardChain, users, h) == M.RecoverFromPanic(M.LogRequest(M.SecureHeaders(h)))
  {
    assert StandardChain[1..] == [LogRequest, SecureHeaders];
    assert StandardChain[1..][1..] == [SecureHeaders];
    assert StandardChain[1..][1..][1..] == [];
  }

  lemma StatefulChainUnfolds(users: M.UserRepo, h: Handler)
    ensures Then(StatefulChain, users, h) == M.LoadAndSave(M.CSRFPrevent(M.Authenticate(users, h)))
  {
    assert StatefulChain[1..] == [CSRFPrevent, Authenticate];
    assert StatefulChain[1..][1..] == [Authenticate];
    assert StatefulChain[1..][1..][1..] == [];
  }

  /** The protected chain runs the whole stateful chain, then `requireAuthentication`, then the handler. */
  lemma ProtectedChainUnfolds(users: M.UserRepo, h: Handler)
    ensures Then(ProtectedChain, users, h) == Then(StatefulChain, users, M.RequireAuthentication(h))
    ensures Then(ProtectedChain, users, h) == M.LoadAndSave(M.CSRFPrevent(M.Authenticate(users, M.RequireAuthentication(h))))
  {
    ThenAppend(StatefulChain, [RequireAuthentication], users, h);
    assert [RequireAuthentication][1..] == [];
    StatefulChainUnfolds(users, M.RequireAuthentication(h));
  }

  /** In `chain`, every occurrence of `later` comes after some occurrence of `earlier`. */
  predicate Precedes(chain: seq<Layer>, earlier: Layer, later: Layer) {
    forall i :: 0 <= i < |chain| && chain[i] == later ==> exists j :: 0 <= j < i && chain[j] == earlier
  }

  /**
   * In every registered chain, the session is loaded before anything reads
   * it, `authenticate` runs before `requireAuthentication`, and the CSRF
   * guard runs before `authenticate`.
   */
  lemma ChainOrder()
    ensures forall route :: route in RouteTable() ==>
      && Precedes(route.chain, LoadAndSave, Authenticate)
      && Precedes(route.chain, LoadAndSave, RequireAuthentication)
      && Precedes(route.chain, Authenticate, RequireAuthentication)
      && Precedes(route.chain, CSRFPrevent, Authenticate)
  {
    forall route | route in RouteTable()
      ensures && Precedes(route.chain, LoadAndSave, Authenticate)
              && Precedes(route.chain, LoadAndSave, RequireAuthentication)
              && Precedes(route.chain, Authenticate, RequireAuthentication)
              && Precedes(route.chain, CSRFPrevent, Authenticate)
    {
      assert route.chain == [] || route.chain == StatefulChain || route.chain == ProtectedChain;
      if route.chain == StatefulChain {
        var c := StatefulChain;
        assert c[0] == LoadAndSave && c[1] == CSRFPrevent && c[2] == Authenticate;
      } else if route.chain == ProtectedChain {
        var c := ProtectedChain;
        assert c[0] == LoadAndSave && c[1] == CSRFPrevent && c[2] == Authenticate && c[3] == RequireAuthentication;
      }
    }
  }

  /** Every registered chain is empty, the stateful chain or the protected chain. */
  lemma RouteChains()
    ensures forall route :: route in RouteTable() ==>
      route.chain == [] || route.chain == StatefulChain || route.chain == ProtectedChain
  {
  }

  /** Panic recovery is the outermost layer of the standard chain, and the security headers are set inside it. */
  lemma StandardChainOrder()
    ensures StandardChain[0] == RecoverFromPanic
    ensures Precedes(StandardChain, RecoverFromPanic, SecureHeaders)
    ensures Precedes(StandardChain, RecoverFromPanic, LogRequest)
  {
  }

  /** Exactly GET and POST /snippet/create and POST /user/logout are protected, by the protected chain. */
  lemma ProtectedRoutesExactly()
    ensures forall route :: route in RouteTable() ==>
      (RequireAuthentication in route.chain <==>
         (route.verb, route.pattern) in {(MethodGet, "/snippet/create"), (MethodPost, "/snippet/create"), (MethodPost, "/user/logout")})
    ensures forall route :: route in RouteTable() && RequireAuthentication in route.chain ==> route.chain == ProtectedChain
  {
    assert RequireAuthentication in ProtectedChain;
    assert RequireAuthentication !in StatefulChain;
  }

  /** The pages that use the session but need no login are exactly /, /snippet/view/:id, and GET and POST of /user/signup and /user/login. */
  lemma StatefulRoutesExactly()
    ensures forall route :: route in RouteTable() ==>
      (route.chain == StatefulChain <==>
         (route.verb, route.pattern) in {(MethodGet, "/"), (MethodGet, "/snippet/view/:id"),
                                         (MethodGet, "/user/signup"), (MethodPost, "/user/signup"),
                                         (MethodGet, "/user/login"), (MethodPost, "/user/login")})
  {
    assert StatefulChain != ProtectedChain by {
      assert |StatefulChain| != |ProtectedChain|;
    }
  }

  /** Only the static files and /ping are registered without session, CSRF or authentication layers. */
  lemma BareRoutesExactly()
    ensures forall route :: route in RouteTable() ==>
      (route.chain == [] <==> (route.verb, route.pattern) in {(MethodGet, "/static/*filepath"), (MethodGet, "/ping")})
    ensures forall route :: route in RouteTable() && route.chain != [] ==> route.chain[..3] == StatefulChain
  {
  }

  /** Every pattern starts with '/', and no method and pattern is registered twice. */
  lemma RouteTableWellFormed()
    ensures forall i :: 0 <= i < |RouteTable()| ==> |RouteTable()[i].pattern| > 0 && RouteTable()[i].pattern[0] == '/'
    ensures forall i, j :: 0 <= i < j < |RouteTable()| ==>
      !(RouteTable()[i].verb == RouteTable()[j].verb && RouteTable()[i].pattern == RouteTable()[j].pattern)
  {
  }

  // ---------------------------------------------------------------------
  // Properties of the router and the application
  // ---------------------------------------------------------------------

  /** A path no pattern matches is found under no method. */
  lemma {:induction false} UnregisteredNotFound(table: seq<Route>, verb: string, path: string)
    requires !PathRegistered(table, path)
    ensures Lookup(table, verb, path) == None
    decreases |table|
  {
    if table != [] {
      assert !PathMatches(table[0].pattern, path);
      assert !PathRegistered(table[1..], path) by {
        forall i | 0 <= i < |table[1..]| ensures !PathMatches(table[1..][i].pattern, path) {
          assert table[1..][i] == table[i + 1];
        }
      }
      UnregisteredNotFound(table[1..], verb, path);
    }
  }

  /** Panic recovery is the outermost layer, so the application as a whole never panics. */
  lemma AppNeverPanics(users: M.UserRepo, targets: Target -> Handler, r: Request, st: State)
    ensures App(users, targets)(r, st).Returned?
  {
    var d := Dispatch(RouteTable(), Some(NotFoundHandler()), users, targets);
    StandardChainUnfolds(users, d);
    M.RecoverFromPanicResult(M.LogRequest(M.SecureHeaders(d)), r, st);
  }

  /**
   * Under the standard chain, a handler that panics before any status is
   * written, whatever it did to the headers and the session before, is
   * answered with a 500 and `Connection: close`. The security headers were
   * set before the handler ran, so the answer carries them unless the
   * handler itself overwrote one. The session state at the panic is kept.
   */
  lemma StandardChainRecovers(users: M.UserRepo, h: Handler, r: Request, st: State)
    requires st.w.status.None?
    requires var o := h(r, st.(w := M.WithSecurityHeaders(st.w)));
      o.Panicked? && o.st.w.status.None? && M.HasSecurityHeaders(o.st.w)
    ensures var o := h(r, st.(w := M.WithSecurityHeaders(st.w)));
      var out := Then(StandardChain, users, h)(r, st);
      && out.Returned?
      && out.st.w.status == Some(500)
      && "Connection" in out.st.w.header && out.st.w.header["Connection"] == "close"
      && M.HasSecurityHeaders(out.st.w)
      && out.st.w.body == o.st.w.body + "Internal Server Error\n"
      && out.st.session == o.st.session && out.st.store == o.st.store
  {
    StandardChainUnfolds(users, h);
    var w1 := M.WithSecurityHeaders(st.w);
    var o := h(r, st.(w := w1));
    M.SecureHeadersSetsFive(h, r, st);
    assert M.LogRequest(M.SecureHeaders(h))(r, st) == o;
    var w2 := SetHeader(o.st.w, "Connection", "close");
    assert w2.status.None? && "Connection" in w2.header && w2.header["Connection"] == "close";
    assert Then(StandardChain, users, h)(r, st) == Returned(o.st.(w := Helpers.ServerError(w2)));
    M.SecurityHeadersStay(o.st.w, "Connection", "close");
    ErrorResponse(w2, StatusText(StatusInternalServerError), StatusInternalServerError);
    M.ErrorKeepsSecurityHeaders(w2, StatusText(StatusInternalServerError), StatusInternalServerError);
  }

  /**
   * In particular, a handler that sets a header outside the security
   * headers and puts a value into the session before it panics is answered
   * with a 500 carrying the security headers, and the session value it put
   * is kept.
   */
  lemma StandardChainRecoversLatePanic(users: M.UserRepo, r: Request, st: State, name: string, key: string)
    requires st.w.status.None? && st.session.Some? && name !in M.SecurityHeaderNames
    ensures var h := (r': Request, st': State) =>
        match Put(st'.(w := SetHeader(st'.w, name, "x")), key, IntValue(1))
        case Returned(st1) => Panicked(st1)
        case Panicked(st1) => Panicked(st1);
      var out := Then(StandardChain, users, h)(r, st);
      && out.Returned?
      && out.st.w.status == Some(500)
      && M.HasSecurityHeaders(out.st.w)
      && out.st.session == Some(st.session.value[key := IntValue(1)])
  {
    var h := (r': Request, st': State) =>
        match Put(st'.(w := SetHeader(st'.w, name, "x")), key, IntValue(1))
        case Returned(st1) => Panicked(st1)
        case Panicked(st1) => Panicked(st1);
    var w1 := M.WithSecurityHeaders(st.w);
    M.SecureHeadersSetsFive(h, r, st);
    M.SecurityHeadersStay(w1, name, "x");
    StandardChainRecovers(users, h, r, st);
  }

  /**
   * A request whose path no route matches, under any method, is answered by
   * the not-found handler: 404 "Not Found", with the five security headers
   * because the standard chain wraps the router; the session is untouched.
   */
  lemma UnmatchedIs404(users: M.UserRepo, targets: Target -> Handler, r: Request, st: State)
    requires !PathRegistered(RouteTable(), r.path) && st.w.status.None?
    ensures var out := App(users, targets)(r, st);
      && out.Returned?
      && out.st.w.status == Some(404)
      && out.st.w.body == st.w.body + "Not Found\n"
      && M.HasSecurityHeaders(out.st.w)
      && out.st.session == st.session && out.st.store == st.store
  {
    var d := Dispatch(RouteTable(), Some(NotFoundHandler()), users, targets);
    StandardChainUnfolds(users, d);
    var st1 := st.(w := M.WithSecurityHeaders(st.w));
    M.SecureHeadersSetsFive(d, r, st);
    UnregisteredNotFound(RouteTable(), r.verb, r.path);
    assert d(r, st1) == Returned(st1.(w := Helpers.NotFound(st1.w)));
    Helpers.NotFoundIs404(st1.w);
    M.ErrorKeepsSecurityHeaders(st1.w, StatusText(StatusNotFound), StatusNotFound);
  }

  /** The client's stored session names no user, or a user the repository does not know. */
  predicate Anonymous(users: M.UserRepo, store: Session) {
    var id := GetInt(store, M.UserIdKey);
    id == 0 || users(id) == M.Found(false)
  }

  /**
   * The protected chain answers an anonymous request that passes the CSRF
   * guard with the flash message and a 303 redirect to the login page,
   * and stores the flash; the handler at its end is never called.
   */
  lemma ProtectedChainRedirectsAnonymous(users: M.UserRepo, h1: Handler, h2: Handler, r: Request, st: State)
    requires !Helpers.IsAuthenticated(r) && Anonymous(users, st.store)
    requires M.SafeMethod(r.verb) || r.csrfTokenOk
    requires st.session.None? && st.w.status.None?
    ensures var out := Then(ProtectedChain, users, h1)(r, st);
      && out == Then(ProtectedChain, users, h2)(r, st)
      && out.Returned?
      && out.st.w == Redirect(st.w, r, M.LoginPath, StatusSeeOther)
      && out.st.store == st.store[M.FlashKey := StringValue(M.LoginFirstMessage)]
      && out.st.session == None
  {
    ProtectedChainUnfolds(users, h1);
    ProtectedChainUnfolds(users, h2);
    var st1 := st.(session := Some(st.store));
    var st2 := st1.(session := Some(st.store[M.FlashKey := StringValue(M.LoginFirstMessage)]));
    var done := Returned(st2.(w := Redirect(st.w, r, M.LoginPath, StatusSeeOther)));
    assert Put(st1, M.FlashKey, StringValue(M.LoginFirstMessage)) == Returned(st2);
    assert M.RequireAuthentication(h1)(r, st1) == done;
    assert M.RequireAuthentication(h2)(r, st1) == done;
    assert M.Authenticate(users, M.RequireAuthentication(h1))(r, st1) == done;
    assert M.Authenticate(users, M.RequireAuthentication(h2))(r, st1) == done;
    assert M.CSRFPrevent(M.Authenticate(users, M.RequireAuthentication(h1)))(r, st1) == done;
    assert M.CSRFPrevent(M.Authenticate(users, M.RequireAuthentication(h2)))(r, st1) == done;
    var saved := Returned(done.st.(session := None, store := st2.session.value));
    assert Then(ProtectedChain, users, h1)(r, st) == saved;
    assert Then(ProtectedChain, users, h2)(r, st) == saved;
  }

  /**
   * Every protected page answers an anonymous request that passes the CSRF
   * guard with a 303 redirect to "/user/login/" carrying the security
   * headers, and stores the flash "Please login first"; the page handler is
   * never called, so the answer is the same whatever the handlers are.
   */
  lemma ProtectedPageRedirectsAnonymous(users: M.UserRepo, targets1: Target -> Handler, targets2: Target -> Handler, r: Request, st: State)
    requires Lookup(RouteTable(), r.verb, r.path).Some?
    requires Lookup(RouteTable(), r.verb, r.path).value.chain == ProtectedChain
    requires !Helpers.IsAuthenticated(r) && Anonymous(users, st.store)
    requires M.SafeMethod(r.verb) || r.csrfTokenOk
    requires st.session.None? && st.w.status.None?
    ensures var out := App(users, targets1)(r, st);
      && out == App(users, targets2)(r, st)
      && out.Returned?
      && out.st.w.status == Some(303)
      && "Location" in out.st.w.header && out.st.w.header["Location"] == "/user/login/"
      && M.HasSecurityHeaders(out.st.w)
      && out.st.store == st.store[M.FlashKey := StringValue("Please login first")]
  {
    var route := Lookup(RouteTable(), r.verb, r.path).value;
    var d1 := Dispatch(RouteTable(), Some(NotFoundHandler()), users, targets1);
    var d2 := Dispatch(RouteTable(), Some(NotFoundHandler()), users, targets2);
    StandardChainUnfolds(users, d1);
    StandardChainUnfolds(users, d2);
    var st1 := st.(w := M.WithSecurityHeaders(st.w));
    M.SecureHeadersSetsFive(d1, r, st);
    M.SecureHeadersSetsFive(d2, r, st);
    ProtectedChainRedirectsAnonymous(users, targets1(route.target), targets2(route.target), r, st1);
    assert d1(r, st1) == d2(r, st1);
    RedirectResponse(st1.w, r, M.LoginPath, StatusSeeOther);
    M.RedirectKeepsSecurityHeaders(st1.w, r, M.LoginPath, StatusSeeOther);
  }

  /**
   * The stateful and the protected chain answer a request with an unsafe
   * method and no accepted CSRF token with 400 "Bad Request", without
   * calling the handler at their end, and leave the stored session as it was.
   */
  lemma SessionChainRejectsForged(chain: seq<Layer>, users: M.UserRepo, h1: Handler, h2: Handler, r: Request, st: State)
    requires chain == StatefulChain || chain == ProtectedChain
    requires !M.SafeMethod(r.verb) && !r.csrfTokenOk
    requires st.session.None?
    ensures var out := Then(chain, users, h1)(r, st);
      && out == Then(chain, users, h2)(r, st)
      && out == Returned(st.(w := Error(st.w, StatusText(StatusBadRequest), StatusBadRequest)))
  {
    var inner1, inner2;
    if chain == StatefulChain {
      StatefulChainUnfolds(users, h1);
      StatefulChainUnfolds(users, h2);
      inner1, inner2 := M.Authenticate(users, h1), M.Authenticate(users, h2);
    } else {
      ProtectedChainUnfolds(users, h1);
      ProtectedChainUnfolds(users, h2);
      inner1, inner2 := M.Authenticate(users, M.RequireAuthentication(h1)), M.Authenticate(users, M.RequireAuthentication(h2));
    }
    assert Then(chain, users, h1) == M.LoadAndSave(M.CSRFPrevent(inner1));
    assert Then(chain, users, h2) == M.LoadAndSave(M.CSRFPrevent(inner2));
    var st1 := st.(session := Some(st.store));
    var rejected := Returned(st1.(w := Error(st.w, StatusText(StatusBadRequest), StatusBadRequest)));
    assert M.CSRFPrevent(inner1)(r, st1) == rejected;
    assert M.CSRFPrevent(inner2)(r, st1) == rejected;
  }

  lemma BadRequestLine()
    ensures StatusText(StatusBadRequest) + "\n" == "Bad Request\n"
  {
  }

  /**
   * On every page that uses the session, a request with an unsafe method
   * and no accepted CSRF token is answered 400 "Bad Request" with the
   * security headers; the page handler is never called and the stored
   * session is unchanged.
   */
  lemma ForgedRequestRejected(users: M.UserRepo, targets1: Target -> Handler, targets2: Target -> Handler, r: Request, st: State)
    requires Lookup(RouteTable(), r.verb, r.path).Some?
    requires Lookup(RouteTable(), r.verb, r.path).value.chain != []
    requires !M.SafeMethod(r.verb) && !r.csrfTokenOk
    requires st.session.None? && st.w.status.None?
    ensures var out := App(users, targets1)(r, st);
      && out == App(users, targets2)(r, st)
      && out.Returned?
      && out.st.w.status == Some(400)
      && out.st.w.body == st.w.body + "Bad Request\n"
      && M.HasSecurityHeaders(out.st.w)
      && out.st.store == st.store
  {
    var route := Lookup(RouteTable(), r.verb, r.path).value;
    RouteChains();
    var d1 := Dispatch(RouteTable(), Some(NotFoundHandler()), users, targets1);
    var d2 := Dispatch(RouteTable(), Some(NotFoundHandler()), users, targets2);
    StandardChainUnfolds(users, d1);
    StandardChainUnfolds(users, d2);
    var st1 := st.(w := M.WithSecurityHeaders(st.w));
    M.SecureHeadersSetsFive(d1, r, st);
    M.SecureHeadersSetsFive(d2, r, st);
    SessionChainRejectsForged(route.chain, users, targets1(route.target), targets2(route.target), r, st1);
    assert d1(r, st1) == d2(r, st1);
    ErrorResponse(st1.w, StatusText(StatusBadRequest), StatusBadRequest);
    BadRequestLine();
    var msg := StatusText(StatusBadRequest);
    assert st1.w.body + msg + "\n" == st.w.body + (msg + "\n");
    M.ErrorKeepsSecurityHeaders(st1.w, StatusText(StatusBadRequest), StatusBadRequest);
  }

  /**
   * The session layers always find the session in the registered chains:
   * when the page handler does not panic inside a session, neither does the
   * stateful nor the protected chain around it.
   */
  lemma SessionChainsNeverPanic(users: M.UserRepo, h: Handler, r: Request, st: State)
    requires forall r': Request, st': State :: st'.session.Some? ==> h(r', st').Returned?
    ensures Then(StatefulChain, users, h)(r, st).Returned?
    ensures Then(ProtectedChain, users, h)(r, st).Returned?
  {
    StatefulChainUnfolds(users, h);
    ProtectedChainUnfolds(users, h);
    var st1 := st.(session := Some(st.store));
    var g := M.RequireAuthentication(h);
    forall r': Request, st': State | st'.session.Some? ensures g(r', st').Returned? {
      if Helpers.IsAuthenticated(r') {
        assert g(r', st') == h(r', st'.(w := SetHeader(st'.w, "Cache-Control", "no-store")));
      } else {
        assert Put(st', M.FlashKey, StringValue(M.LoginFirstMessage)).Returned?;
      }
    }
    SessionLayersReturn(users, h, r, st1);
    SessionLayersReturn(users, g, r, st1);
  }

  /** Inside a session, the CSRF guard and `authenticate` return whenever the handler they wrap does. */
  lemma SessionLayersReturn(users: M.UserRepo, h: Handler, r: Request, st: State)
    requires forall r': Request, st': State :: st'.session.Some? ==> h(r', st').Returned?
    requires st.session.Some?
    ensures M.CSRFPrevent(M.Authenticate(users, h))(r, st).Returned?
    ensures M.LoadAndSave(M.CSRFPrevent(M.Authenticate(users, h)))(r, st).Returned?
  {
    var st1 := st.(session := Some(st.store));
    assert M.Authenticate(users, h)(r, st).Returned?;
    assert M.Authenticate(users, h)(r, st1).Returned?;
    assert M.CSRFPrevent(M.Authenticate(users, h))(r, st1).Returned?;
  }

  /**
   * The order of the stateful chain matters: with the session loaded after
   * `authenticate` instead of before it, every safe request panics.
   */
  lemma SessionLoadedTooLatePanics(users: M.UserRepo, h: Handler, r: Request, st: State)
    requires M.SafeMethod(r.verb) && st.session.None?
    ensures Then([CSRFPrevent, Authenticate, LoadAndSave], users, h)(r, st).Panicked?
  {
    var c := [CSRFPrevent, Authenticate, LoadAndSave];
    assert c[1..] == [Authenticate, LoadAndSave];
    assert c[1..][1..] == [LoadAndSave];
    assert c[1..][1..][1..] == [];
  }

  /** A plain pattern and a path that part after their common leading '/' do not match. */
  lemma SecondCharMismatch(pattern: string, path: string)
    requires |pattern| >= 2 && |path| >= 2 && pattern[0] == '/' == path[0]
    requires pattern[1] != path[1] && pattern[1] != '*' && pattern[1] != ':'
    ensures !PathMatches(pattern, path)
  {
    assert PathMatches(pattern, path) == PathMatches(pattern[1..], path[1..]);
  }

  lemma MissingUnregistered()
    ensures !PathRegistered(RouteTable(), "/missing")
  {
    var t := RouteTable();
    forall i | 0 <= i < |t| ensures !PathMatches(t[i].pattern, "/missing") {
      if t[i].pattern == "/" {
        assert PathMatches("/", "/missing") == PathMatches("", "missing");
      } else {
        SecondCharMismatch(t[i].pattern, "/missing");
      }
    }
  }

  /** For instance, any request for /missing is answered 404 with the security headers. */
  lemma MissingPageIs404(users: M.UserRepo, targets: Target -> Handler, r: Request, st: State)
    requires r.path == "/missing" && st.w == Fresh
    ensures App(users, targets)(r, st).st.w.status == Some(404)
    ensures M.HasSecurityHeaders(App(users, targets)(r, st).st.w)
  {
    MissingUnregistered();
    UnmatchedIs404(users, targets, r, st);
  }
}
