# snippetbox: the form validator and the request-gating pipeline

A Dafny model of two parts of the snippetbox web application, with proofs about them.

**The form validator** (`internal/validator`). `Validator` is an accumulator
that a handler fills while it checks a submitted form. It holds:
- a cursor: the field name and value selected by `CheckField`;
- a map from field name to that field's first error message;
- an ordered list of errors that belong to no field.

The chained checks record at most one message each, and only under the
selected field. `ToInt` reports a bad number only through that map.

**The request-gating pipeline** (`cmd/snippetbox`). It has three layers:
- the middlewares: panic recovery, request logging, security headers,
  session load and save, the CSRF guard, `authenticate` and
  `requireAuthentication`;
- the response helpers: `serverError`, `clientError`, `notFound`, `render`
  and `isAuthenticated`;
- `routes()`: it builds the stateful, protected and standard chains,
  registers every page with its chain, and wraps the router.

## Layout

| file | module | what it holds |
|---|---|---|
| `wrappers.dfy` | `Wrappers` | `Option` |
| `strconv.dfy` | `Strconv` | Go's `strconv.Atoi` on a 64-bit platform, used by `ToInt` |
| `strings.dfy` | `Strings` | `unicode.IsSpace` and `strings.TrimSpace`, used by `NotBlank` |
| `validator.dfy` | `Validator` | the `Validator` class, the value-level `Step`/`Replay` of its calls, and `EmailRX` |
| `http.dfy` | `Http` | requests, responses, `http.Error`, `http.Redirect`, session data, handlers and outcomes |
| `writer.dfy` | `Writer` | a response writer as a mutable object |
| `helpers.dfy` | `Helpers`, `Application` | the helpers as functions, then as methods of the application object |
| `middlewares.dfy` | `Middlewares` | the middlewares as functions from the next handler to a handler |
| `routes.dfy` | `Routes` | chains, the route table, the router object, `routes()` and the end-to-end properties |

How the model is built:
- **The validator** is a class with the four fields of the Go struct. A nil
  map is the empty map. Each method is proved to make exactly one `Step`
  of `ValidatorState`. So the lemmas about `Replay` hold for any sequence of
  calls on the object.
- **A handler** is a function from a request and a `State` to an `Outcome`:
  either `Returned` or `Panicked`, each carrying the state it left. The
  `State` holds three things:
  - the response: its header map, its status once one is written, and its body;
  - the session data attached to the request context;
  - the client's session as stored between requests.
- **The response** follows `net/http`. Only the first status that is written
  counts. A header set after the status is written does not reach the
  client. `Write` writes 200 first when no status has been written.
- **A middleware** is a function from the next handler to a handler.
  `Then` composes a list of middleware labels with the first label
  outermost, as `alice` does.
- **The router** is a class whose route list `Handle` extends step by step.
  `MakeRoutes` performs the registrations of `routes()` in the source's
  order. It is proved to build exactly `RouteTable()` and to return `App`,
  the standard chain around `Dispatch`.
- **The user repository** (`Exists`) is a function from an id to
  `Found(bool)` or `Failed`. `StubUsers` is the test double.

`routes.go` calls the CSRF middleware `CSRFPrevent`, while `middlewares.go`
defines it as `CQRFPrevent`. The model follows each function as written.

`requireAuthentication` stores only the flash message and redirects to
`/user/login/`. It does not remember the page that was requested.

The CSRF guard lets through exactly the methods that `nosurf` treats as
safe: GET, HEAD, OPTIONS and TRACE.

## Model

| member | source | states |
|---|---|---|
| Validator.Validator.constructor | internal/validator/validator.go:12-17 | a new validator is the zero value: empty cursor, no field errors, no non-field errors |
| Validator.Validator.Value | internal/validator/validator.go:113-115 | definition: the selected value; `CheckField` ensures that it returns the value just selected |
| Validator.Validator.IsValid | internal/validator/validator.go:19-21 | valid if and only if the field-error map and the non-field list are both empty |
| Validator.Validator.CheckField | internal/validator/validator.go:23-27 | sets the cursor to (name, value); `Value()` then returns that value; both error collections are unchanged |
| Validator.Validator.AddFieldError | internal/validator/validator.go:29-38 | afterwards the field is present; an existing message is kept; otherwise the new message is added under that field only; cursor and non-field errors unchanged |
| Validator.Validator.AddNonFieldError | internal/validator/validator.go:40-42 | appends the message at the end of the non-field list; the field errors and the cursor are unchanged |
| Validator.Validator.RecordFieldError | internal/validator/validator.go:109-111 | records the message under the selected field by the first-error-wins rule |
| Validator.Validator.ToInt | internal/validator/validator.go:44-50 | returns the value `strconv.Atoi` gives for the selected value; records an error for the selected field exactly when Atoi reports one; always returns normally |
| Validator.Validator.NotBlank | internal/validator/validator.go:52-59 | records an error exactly when the trimmed value is empty |
| Validator.Validator.LE | internal/validator/validator.go:61-67 | records an error exactly when the value has more than n runes |
| Validator.Validator.In | internal/validator/validator.go:69-78 | the loop records an error exactly when the value equals none of the permitted strings |
| Validator.Validator.GE | internal/validator/validator.go:80-86 | records an error exactly when the value has fewer than n runes |
| Validator.Validator.Matches | internal/validator/validator.go:88-95 | records an error exactly when the pattern rejects the value |
| Validator.Validator.IsEmail | internal/validator/validator.go:97-99 | `Matches` with `EmailRX` |
| Validator.Validator.Equal | internal/validator/validator.go:101-107 | records an error exactly when the value differs from the argument |
| Validator.EmailRX | internal/validator/validator.go:10 | definition: a non-empty local part of the permitted characters, an '@', then dot-separated labels of 1 to 63 letters, digits or hyphens that start and end with a letter or digit; its meaning is stated in `EmailRXSplit` |
| Validator.AddFirstSticky | internal/validator/validator.go:29-38 | first error wins: the field is present afterwards, an existing message is never replaced, and every other key is unchanged |
| Validator.CheckTouchesOnlySelectedField | internal/validator/validator.go:52-111 | a check adds at most one key, namely the selected field; it keeps every existing message, the cursor and the non-field errors |
| Validator.NotBlankFailsIff | internal/validator/validator.go:52-59 | `NotBlank` fails if and only if every character is white space, the empty value included |
| Validator.InEmptyAlwaysFails | internal/validator/validator.go:69-78 | `In` with no permitted strings fails on every value |
| Validator.ToIntRecordsIff | internal/validator/validator.go:44-50 | an error is recorded if and only if the value is not an optionally signed decimal in the int64 range; on success nothing changes and the result is the number the string denotes |
| Validator.ReplayKeepsFirstError | internal/validator/validator.go:29-38 | once a field has a message, no sequence of later calls changes or removes it |
| Validator.ReplayKeepsNonFieldErrs | internal/validator/validator.go:40-42 | over any sequence of calls, the earlier non-field errors remain a prefix, in order |
| Validator.ReplayStaysInvalid | internal/validator/validator.go:19-21 | a validator that holds an error stays invalid after any sequence of calls |
| Validator.ReplayErrorFields | internal/validator/validator.go:23-111 | errors appear only under fields named by `AddFieldError` or selected as the cursor |
| Validator.EmailRXSplit | internal/validator/validator.go:10 | an address with a valid local part matches if and only if the part after its '@' is a domain of labels |
| Validator.DomainOfTwoLabels | internal/validator/validator.go:10 | two dot-free labels joined by a dot form a domain |
| Validator.EmailRXAccepts | cmd/snippetbox/handlers_test.go:102-109 | "abc@gmail.com", the address of the valid signup case, matches |
| Validator.EmailRXRejectsTrailingDot | cmd/snippetbox/handlers_test.go:126-134 | "bob@email.", the address of the invalid-email case, does not match |
| Strconv.AtoiSpec | internal/validator/validator.go:45 | reference definition of `strconv.Atoi` on a 64-bit platform: an optional sign, then the digits as `ParseUint` reads them, clamped to the int64 range; its meaning is stated in `AtoiAccepts` and `ItoaRoundTrip` |
| Strconv.Atoi | internal/validator/validator.go:45 | the fast path for 1 to 18 characters and the slow path both give `AtoiSpec` |
| Strconv.ParseInt | internal/validator/validator.go:45 | sign handling and int64 range clamping give `AtoiSpec` |
| Strconv.ParseUint | internal/validator/validator.go:45 | the digit loop, with its overflow checks, gives `ParseUintSpec` |
| Strconv.AtoiAccepts | internal/validator/validator.go:45 | Atoi succeeds if and only if the string is a signed decimal in range, and then returns its value; a syntax error returns 0; a range error returns the bound on the sign's side |
| Strconv.OutOfRangeIsRangeError | internal/validator/validator.go:45 | a decimal string outside int64 gives a range error and the clamped bound, never a syntax error |
| Strconv.ItoaRoundTrip | internal/validator/validator.go:45 | parsing the decimal form of any int64 gives it back, without error |
| Strconv.ShortDigitsFit | internal/validator/validator.go:45 | 18 digits always fit in int64, so the fast path cannot overflow |
| Strconv.ShortAccepted | internal/validator/validator.go:45 | the fast path accepts every short decimal, as ParseInt does |
| Strconv.ShortSyntaxError | internal/validator/validator.go:45 | on a short string, the fast path reports a syntax error at the first non-digit, as ParseInt does |
| Strings.IsSpace | internal/validator/validator.go:53 | definition: the characters `unicode.IsSpace` accepts (ASCII tab, newline, vertical tab, form feed, carriage return, space, and U+0085, U+00A0, U+1680, U+2000-U+200A, U+2028, U+2029, U+202F, U+205F, U+3000) |
| Strings.TrimSpace | internal/validator/validator.go:53 | definition: `TrimRight` of `TrimLeft`; `TrimSpaceEmptyIff` states when it is empty |
| Strings.TrimLeft | internal/validator/validator.go:53 | the result is a suffix; the dropped prefix is all white space; the result does not start with white space |
| Strings.TrimRight | internal/validator/validator.go:53 | the result is a prefix; the dropped suffix is all white space; the result does not end with white space |
| Strings.TrimSpaceEmptyIff | internal/validator/validator.go:53 | trimming gives "" if and only if the value is all white space |
| Http.StatusText | cmd/snippetbox/helpers.go:19 | definition: Go's reason phrase of each registered code, "" for any other |
| Http.SetHeader | cmd/snippetbox/middlewares.go:34-38 | definition: sets the header while no status is written; afterwards the response is unchanged (`HeaderAfterStatusIgnored`) |
| Http.WriteHeader | cmd/snippetbox/helpers.go:45 | definition: writes the status only when none is written (`WriteHeaderFirstWins`) |
| Http.Write | cmd/snippetbox/helpers.go:46 | definition: writes 200 first when no status is written, then appends the data |
| Http.Error | cmd/snippetbox/helpers.go:19 | definition: `http.Error`; its effect is stated in `ErrorResponse` |
| Http.Redirect | cmd/snippetbox/middlewares.go:48 | definition: `http.Redirect` for a path URL; its effect is stated in `RedirectResponse` |
| Http.GetInt | cmd/snippetbox/middlewares.go:70 | definition: the integer stored under the key, 0 when the key is missing or holds no integer |
| Http.Put | cmd/snippetbox/middlewares.go:47 | definition: stores into the session data of the request; panics when no session data is attached |
| Http.WriteHeaderFirstWins | cmd/snippetbox/helpers.go:45 | the first status written is kept; a second `WriteHeader` changes nothing |
| Http.HeaderAfterStatusIgnored | cmd/snippetbox/middlewares.go:23 | a header set after the status is written does not change the response |
| Http.ErrorResponse | cmd/snippetbox/helpers.go:19 | `http.Error` on a fresh response writes the code and the message plus a newline; it sets a plain-text Content-Type and `nosniff` and keeps every other header; on a written response only the body grows |
| Http.RedirectResponse | cmd/snippetbox/middlewares.go:48 | a redirect on a fresh response writes the code and sets Location to the URL; a POST redirect adds only Location |
| Writer.ResponseRecorder.constructor | cmd/snippetbox/middlewares_test.go:13 | a new recorder holds the fresh response |
| Writer.ResponseRecorder.SetHeader | cmd/snippetbox/middlewares.go:34-38 | the recorded response becomes `Http.SetHeader` of the old one |
| Writer.ResponseRecorder.WriteHeader | cmd/snippetbox/helpers.go:45 | the recorded response becomes `Http.WriteHeader` of the old one |
| Writer.ResponseRecorder.Write | cmd/snippetbox/helpers.go:46 | the recorded response becomes `Http.Write` of the old one |
| Writer.ResponseRecorder.Error | cmd/snippetbox/helpers.go:19 | header, status and body writes in `http.Error`'s order give `Http.Error` of the old response |
| Helpers.IsAuthenticated | cmd/snippetbox/helpers.go:73-80 | false when the context holds no bool under the key; otherwise exactly the stored bool |
| Helpers.ServerError | cmd/snippetbox/helpers.go:15-20 | definition: `http.Error` with 500 and its text; stated in `ServerErrorIs500` |
| Helpers.ClientError | cmd/snippetbox/helpers.go:22-24 | definition: `http.Error` with the status and its text; stated in `ClientErrorWritesStatus` |
| Helpers.NotFound | cmd/snippetbox/helpers.go:26-28 | definition: `ClientError` with 404; stated in `NotFoundIs404` |
| Helpers.Render | cmd/snippetbox/helpers.go:30-47 | definition: a server error for an unknown page or a failed execution, else the status, then the rendered text; stated in `RenderStatus` |
| Helpers.ServerErrorIs500 | cmd/snippetbox/helpers.go:15-20 | on a fresh response: status 500, body "Internal Server Error\n", plain-text Content-Type, whatever the error |
| Helpers.ClientErrorWritesStatus | cmd/snippetbox/helpers.go:22-24 | on a fresh response: the given status and its standard text |
| Helpers.NotFoundIs404 | cmd/snippetbox/helpers.go:26-28 | `notFound` is `clientError(404)`: status 404, body "Not Found\n" |
| Helpers.RenderStatus | cmd/snippetbox/helpers.go:30-47 | requested status and rendered body if and only if the page exists and executes; otherwise 500, never the requested status (unless that is 500) |
| Application.Application.constructor | cmd/snippetbox/helpers.go:31 | the application holds the given template cache |
| Application.Application.ServerError | cmd/snippetbox/helpers.go:15-20 | writes to the writer exactly `Helpers.ServerError` |
| Application.Application.ClientError | cmd/snippetbox/helpers.go:22-24 | writes to the writer exactly `Helpers.ClientError` |
| Application.Application.NotFound | cmd/snippetbox/helpers.go:26-28 | writes to the writer exactly `Helpers.NotFound` |
| Application.Application.Render | cmd/snippetbox/helpers.go:30-47 | cache lookup, buffered execution, `WriteHeader` and copying the buffer leave the writer as `Helpers.Render` |
| Middlewares.LogRequest | cmd/snippetbox/middlewares.go:11-17 | definition: the handler that calls `next`; stated in `LogRequestForwards` |
| Middlewares.RecoverFromPanic | cmd/snippetbox/middlewares.go:19-30 | definition: passes a return through, and turns a panic into `Connection: close` plus a server error; stated in `RecoverFromPanicResult` |
| Middlewares.SecureHeaders | cmd/snippetbox/middlewares.go:32-42 | definition: sets the five headers, then calls `next`; stated in `SecureHeadersSetsFive` |
| Middlewares.RequireAuthentication | cmd/snippetbox/middlewares.go:44-55 | definition: flash and 303 to login for an anonymous request, else `Cache-Control: no-store` and `next`; stated in `RequireAuthenticationRedirects` and `RequireAuthenticationForwards` |
| Middlewares.CSRFPrevent | cmd/snippetbox/middlewares.go:57-66 | definition: pass or 400; stated in `CSRFPreventDecides` |
| Middlewares.Authenticate | cmd/snippetbox/middlewares.go:68-89 | definition: reads the user id, consults the repository for a non-zero id, and marks the request or answers 500; stated in the `Authenticate*` lemmas |
| Middlewares.LoadAndSave | cmd/snippetbox/routes.go:19 | definition: the session manager's load-and-save step; stated in `LoadAndSaveCommits` |
| Middlewares.StubUsers | internal/mock/users.go:26-33 | the stub repository finds user 1 and only user 1, and never fails |
| Middlewares.LogRequestForwards | cmd/snippetbox/middlewares.go:11-17 | calls `next` with the same request and state, and ends as `next` ends |
| Middlewares.RecoverFromPanicResult | cmd/snippetbox/middlewares.go:19-30 | always returns; a returning `next` is passed through unchanged; a panic before any status gives 500 with `Connection: close` and keeps the session state |
| Middlewares.SecureHeadersSetsFive | cmd/snippetbox/middlewares.go:32-42 | `next` runs on the response with exactly the five security headers added; other headers, status and body are untouched; the outcome is `next`'s |
| Middlewares.SecurityHeadersStay | cmd/snippetbox/middlewares.go:34-38 | setting any other header keeps the five security headers |
| Middlewares.ErrorKeepsSecurityHeaders | cmd/snippetbox/routes.go:33-36 | an error response written inside `secureHeaders` keeps the security headers |
| Middlewares.RedirectKeepsSecurityHeaders | cmd/snippetbox/middlewares.go:48 | a redirect written inside `secureHeaders` keeps the security headers |
| Middlewares.SecureHeadersOnOK | cmd/snippetbox/middlewares_test.go:12-47 | a handler writing "OK", inside `secureHeaders` on a fresh response, answers 200 "OK" with the five headers |
| Middlewares.AuthenticateNeedsSession | cmd/snippetbox/middlewares.go:70 | without session data in the request, `authenticate` panics |
| Middlewares.AuthenticateAnonymous | cmd/snippetbox/middlewares.go:70-74 | user id 0: `next` gets the unchanged request, whatever the repository would answer |
| Middlewares.AuthenticateRepoFailure | cmd/snippetbox/middlewares.go:76-80 | a failed lookup is a server error (500 on a fresh response); `next` is not called |
| Middlewares.AuthenticateMarks | cmd/snippetbox/middlewares.go:82-87 | the request reaching `next` is marked authenticated if the user exists; otherwise it is the unchanged request |
| Middlewares.AuthenticateWithStubUsers | internal/mock/users.go:26-33 | with the stub repository, user 1 is marked authenticated and any other id passes through unchanged |
| Middlewares.RequireAuthenticationRedirects | cmd/snippetbox/middlewares.go:46-50 | an anonymous request gets the flash "Please login first" and a 303 to "/user/login/"; `next` is not called |
| Middlewares.RequireAuthenticationForwards | cmd/snippetbox/middlewares.go:52-53 | an authenticated request gets `Cache-Control: no-store` and goes to `next` unchanged |
| Middlewares.CSRFPreventDecides | cmd/snippetbox/middlewares.go:57-66 | `next` runs if and only if the method is safe or the token is accepted; otherwise the answer is 400 "Bad Request" and `next` is not called |
| Middlewares.LoadAndSaveCommits | cmd/snippetbox/routes.go:19 | `next` runs with the stored session attached; on return that session is stored; on a panic the store is untouched |
| Routes.Then | cmd/snippetbox/routes.go:19-38 | definition: composes a chain with the first layer outermost; stated in `ThenAppend` and the `*ChainUnfolds` lemmas |
| Routes.RouteTable | cmd/snippetbox/routes.go:15-31 | definition: the eleven routes with their methods, patterns and chains, in registration order; stated in `RouteChains`, the `*RoutesExactly` lemmas and `RouteTableWellFormed` |
| Routes.PathMatches | cmd/snippetbox/routes.go:15-31 | definition: `:name` matches one non-empty segment, `*name` the rest of the path, and every other character itself |
| Routes.Dispatch | cmd/snippetbox/routes.go:12 | definition: the matching route's chain around its handler; 405 (or an empty answer to OPTIONS) for a path registered under another method; otherwise the not-found handler; stated in `UnregisteredNotFound` and `UnmatchedIs404` |
| Routes.NotFoundHandler | cmd/snippetbox/routes.go:34-36 | definition: the handler that writes `notFound` |
| Routes.App | cmd/snippetbox/routes.go:38 | definition: the standard chain around the router; `MakeRoutes` ensures that `routes()` returns it |
| Routes.Lookup | cmd/snippetbox/routes.go:15-31 | a found route is in the table and matches the method and path; when none is found, no route matches both |
| Routes.RegisteredIff | cmd/snippetbox/routes.go:15-31 | a method and pattern count as registered if and only if some route in the table has both |
| Routes.KeysAppend | cmd/snippetbox/routes.go:15-31 | registering a route adds exactly its method and pattern to the registered keys |
| Routes.Router.constructor | cmd/snippetbox/routes.go:12 | a new router has no routes and no not-found handler |
| Routes.Router.Handle | cmd/snippetbox/routes.go:15 | appends the route; the pattern must start with '/' and its method and pattern must not be registered yet |
| Routes.Router.SetNotFound | cmd/snippetbox/routes.go:34-36 | installs the not-found handler and keeps the routes |
| Routes.MakeRoutes | cmd/snippetbox/routes.go:11-39 | registration never hits a duplicate; the router ends with exactly `RouteTable()` and `notFound`; the handler returned behaves as `App` on every request |
| Routes.ThenAppend | cmd/snippetbox/routes.go:28 | a chain extended by `Append` runs the original chain around the appended layers |
| Routes.StandardChainUnfolds | cmd/snippetbox/routes.go:33 | the standard chain is recoverFromPanic(logRequest(secureHeaders(h))) |
| Routes.StatefulChainUnfolds | cmd/snippetbox/routes.go:19 | the stateful chain is LoadAndSave(CSRF guard(authenticate(h))) |
| Routes.ProtectedChainUnfolds | cmd/snippetbox/routes.go:28 | the protected chain is the stateful chain around requireAuthentication(h) |
| Routes.ChainOrder | cmd/snippetbox/routes.go:19-31 | in every registered chain, the session is loaded before `authenticate` and `requireAuthentication`; the CSRF guard runs before `authenticate`, and `authenticate` before `requireAuthentication` |
| Routes.RouteChains | cmd/snippetbox/routes.go:15-31 | every route uses no chain, the stateful chain or the protected chain |
| Routes.StandardChainOrder | cmd/snippetbox/routes.go:33 | panic recovery is outermost, before logging and the security headers |
| Routes.ProtectedRoutesExactly | cmd/snippetbox/routes.go:28-31 | exactly GET and POST /snippet/create and POST /user/logout use `requireAuthentication`, always via the protected chain |
| Routes.StatefulRoutesExactly | cmd/snippetbox/routes.go:19-26 | exactly /, /snippet/view/:id and GET and POST of /user/signup and /user/login use only the stateful chain |
| Routes.BareRoutesExactly | cmd/snippetbox/routes.go:15-17 | exactly /static/*filepath and /ping have no layers; every other chain starts with the stateful chain |
| Routes.RouteTableWellFormed | cmd/snippetbox/routes.go:15-31 | every pattern starts with '/', and no method and pattern appear twice |
| Routes.UnregisteredNotFound | cmd/snippetbox/routes.go:34-36 | a path that no pattern matches is found under no method |
| Routes.AppNeverPanics | cmd/snippetbox/routes.go:33-38 | the application never panics, for any request and any page handlers |
| Routes.StandardChainRecovers | cmd/snippetbox/routes.go:33-38 | a handler that panics before writing a status, after any header or session changes that keep the security headers, is answered 500 with `Connection: close` and the five security headers; the session at the panic is kept |
| Routes.StandardChainRecoversLatePanic | cmd/snippetbox/routes.go:33-38 | for instance, a handler that sets another header and puts a session value before it panics gets a 500 with the security headers, and the session value is kept |
| Routes.UnmatchedIs404 | cmd/snippetbox/routes.go:33-38 | an unmatched path gets 404 "Not Found" from `notFound`, with the security headers; the session is untouched |
| Routes.ProtectedChainRedirectsAnonymous | cmd/snippetbox/routes.go:28 | an anonymous request through the protected chain is redirected 303 to login and the flash is stored; the handler is not called |
| Routes.ProtectedPageRedirectsAnonymous | cmd/snippetbox/routes.go:28-31 | every protected page answers an anonymous request with 303 to "/user/login/" and the security headers, and stores the flash; page handlers are not called |
| Routes.SessionChainRejectsForged | cmd/snippetbox/routes.go:19 | the stateful and protected chains answer an unsafe request without an accepted token with 400; the handler is not called |
| Routes.ForgedRequestRejected | cmd/snippetbox/routes.go:19-31 | every session page answers a forged request 400 "Bad Request" with the security headers, stores nothing and calls no page handler |
| Routes.SessionChainsNeverPanic | cmd/snippetbox/routes.go:19 | when the page handler does not panic inside a session, neither chain panics |
| Routes.SessionLayersReturn | cmd/snippetbox/routes.go:19 | inside a session, the CSRF guard and `authenticate` return whenever their handler does |
| Routes.SessionLoadedTooLatePanics | cmd/snippetbox/routes.go:19 | with `LoadAndSave` placed after `authenticate`, every safe request panics: the chain order is needed |
| Routes.MissingPageIs404 | cmd/snippetbox/routes.go:34-36 | any request for /missing is answered 404 with the security headers |

## Left out

- Flag parsing, the database, TLS, `ListenAndServe` and startup (`main.go`, `cmd/snippetbox/main.go`) are I/O; they are not part of this model.
- Logging is left out: the request log line in `logRequest`, the error text, and the stack trace in `serverError`. Only the responses are modelled.
- Concurrency between requests is not modelled, so neither is a race between two requests on one session. One client's stored session is part of the state.
- The page handlers, templates and repositories are not part of this model: `handlers.go`, `controller.go`, `templates.go` and `internal/models`. A route's target is an abstract handler. A template is a function from page data to the rendered text or a failure.
- `newDefaultTemplateData` and `decodePostForm` (`cmd/snippetbox/helpers.go:49-71`) are not modelled. They read the clock, the CSRF library and the form decoder, which are not part of this model.
- The session keys `userIDKey` and `flashMessKey` are defined in a file that is not part of this model. Their string values here are placeholders, and no property depends on them.
- The `scs` session manager is reduced to three behaviours:
  - `LoadAndSave` attaches the stored session and stores it back when the handler returns;
  - `Put` panics without session data;
  - `GetInt` gives 0 for a missing key.

  Left out of it: cookies, tokens, expiry, renewal, the `Vary: Cookie` header, commit errors, and the buffering of the response.
- The `nosurf` CSRF guard is modelled as a pass-or-reject step. A request carries whether its token is accepted. A safe method always passes, and a rejection is `http.Error` with 400 "Bad Request". Left out: token generation and comparison, the cookie set by `SetBaseCookie`, the Referer check for HTTPS and the `Vary` header.
- `httprouter` is modelled in part:
  - first-match lookup with `:name` and `*name` parameters;
  - 405 for a path registered under another method;
  - an empty answer to OPTIONS;
  - the not-found handler.

  httprouter does not depend on registration order: it picks the one route
  whose pattern fits. `Lookup` takes the first matching route instead. The two
  agree here because no two patterns of the same method in `RouteTable()`
  match a common path. That fact is not proved.

  Not modelled: the trailing-slash and cleaned-path redirects (so "/user/login/" is answered 404 here, where the router would redirect to "/user/login"), the `Allow` header, path parameters in the context, and the wildcard-conflict panics of registration beyond the duplicate check.
- `net/http` details that no property depends on are left out: header-name canonicalisation, multi-valued headers, content sniffing, `Content-Length`, 1xx statuses, and the URL cleaning and escaping inside `http.Redirect`. An invalid status code makes Go panic; here `ValidCode` is a precondition instead.
- The `*Validator` that the checks return for chaining is not modelled. The methods act on the object itself, which is the same thing.
- Validator.Validator.Matches: Go's regular-expression engine is not modelled. `Matches` takes the pattern as a predicate on strings, and `EmailRX` is written out as a predicate for the single expression at `internal/validator/validator.go:10`.
- Rune counts are `|s|`. A Dafny string is a sequence of Unicode scalar values, so invalid UTF-8 in a form value is not modelled.
- The handlers are functions on response and session values. The response writer exists as a mutable object only in `Writer` and `Application`. The middlewares' in-place header updates and the rebinding of `r` in `authenticate` are modelled by value.
- Helpers.Render and Application.Application.Render require `ValidCode(status)` even when the page is missing. Go never reaches `WriteHeader(status)` in that case and would not panic. Every caller passes a constant valid status.
