/**
 * The response helpers of the web application, as functions on a response:
 * the authentication flag lookup, the error responses and the status logic
 * of page rendering.
 */
module Helpers {
  import opened Wrappers
  import opened Http

  /**
   * `isAuthenticated`: the boolean stored in the request context under the
   * "is authenticated" key, false when the context holds no boolean there.
   */
  function IsAuthenticated(r: Request): (b: bool)
    ensures !r.auth.BoolValue? ==> !b
    ensures r.auth.BoolValue? ==> b == r.auth.b
  {
    match r.auth
    case BoolValue(v) => v
    case _ => false
  }

  /** `serverError`: a 500 with its standard text; the error itself is only logged. */
  function ServerError(w: Response): Response {
    Error(w, StatusText(StatusInternalServerError), StatusInternalServerError)
  }

  /** `clientError`: `status` with its standard text. */
  function ClientError(w: Response, status: int): Response
    requires ValidCode(status)
  {
    Error(w, StatusText(status), status)
  }

  /** `notFound`. */
  function NotFound(w: Response): Response {
    ClientError(w, StatusNotFound)
  }

  /**
   * A parsed page template: executing it on the page data either yields
   * the rendered text or fails.
   */
  type Template<-D> = D -> Option<string>

  /**
   * `render`: an unknown page or a failed execution is a server error;
   * otherwise the requested status, then the rendered text.
   */
  function Render<D>(w: Response, status: int, page: string, cache: map<string, Template<D>>, data: D): Response
    requires ValidCode(status)
  {
    if page !in cache then ServerError(w)
    else
      match cache[page](data)
      case None => ServerError(w)
      case Some(text) => Write(WriteHeader(w, status), text)
  }

  // ---------------------------------------------------------------------
  // Properties
  // ---------------------------------------------------------------------

  /** A server error on a fresh response is a 500 whose body is the standard text. */
  lemma ServerErrorIs500(w: Response)
    requires w.status.None?
    ensures ServerError(w).status == Some(500)
    ensures ServerError(w).body == w.body + "Internal Server Error\n"
    ensures ServerError(w).header["Content-Type"] == "text/plain; charset=utf-8"
  {
    ErrorResponse(w, StatusText(StatusInternalServerError), StatusInternalServerError);
  }

  /** A client error on a fresh response writes `status` and its standard text. */
  lemma ClientErrorWritesStatus(w: Response, status: int)
    requires ValidCode(status) && w.status.None?
    ensures ClientError(w, status).status == Some(status)
    ensures ClientError(w, status).body == w.body + StatusText(status) + "\n"
  {
    ErrorResponse(w, StatusText(status), status);
  }

  /** `notFound` is the client error 404, "Not Found". */
  lemma NotFoundIs404(w: Response)
    requires w.status.None?
    ensures NotFound(w) == ClientError(w, 404)
    ensures NotFound(w).status == Some(404)
    ensures NotFound(w).body == w.body + "Not Found\n"
  {
    ClientErrorWritesStatus(w, 404);
  }

  /**
   * Rendering on a fresh response writes the requested status and the
   * rendered text exactly when the page exists and executes; otherwise it
   * writes 500 and never the requested status (unless that is 500 itself).
   */
  lemma RenderStatus<D>(w: Response, status: int, page: string, cache: map<string, Template<D>>, data: D)
    requires ValidCode(status) && w.status.None?
    ensures var out := Render(w, status, page, cache, data);
      var ok := page in cache && cache[page](data).Some?;
      && (ok ==> out.status == Some(status) && out.body == w.body + cache[page](data).value
                 && out.header == w.header)
      && (!ok ==> out.status == Some(500) && (status != 500 ==> out.status != Some(status)))
  {
    if page !in cache || cache[page](data).None? {
      ServerErrorIs500(w);
    }
  }
}

/**
 * The helpers as methods of the application object, which holds the template
 * cache and writes to a response writer step by step; each is proved to
 * leave the writer as the matching function of `Helpers` describes.
 */
module Application {
  import opened Wrappers
  import Http
  import Helpers
  import opened Writer

  class Application<D> {
    var templateCache: map<string, Helpers.Template<D>>

    constructor (cache: map<string, Helpers.Template<D>>)
      ensures templateCache == cache
    {
      templateCache := cache;
    }

    method ServerError(w: ResponseRecorder)
      modifies w
      ensures w.Value() == Helpers.ServerError(old(w.Value()))
    {
      w.Error(Http.StatusText(Http.StatusInternalServerError), Http.StatusInternalServerError);
    }

    method ClientError(w: ResponseRecorder, status: int)
      requires Http.ValidCode(status)
      modifies w
      ensures w.Value() == Helpers.ClientError(old(w.Value()), status)
    {
      w.Error(Http.StatusText(status), status);
    }

    method NotFound(w: ResponseRecorder)
      modifies w
      ensures w.Value() == Helpers.NotFound(old(w.Value()))
    {
      ClientError(w, Http.StatusNotFound);
    }

    /** Executes the page into a buffer first, so a failed execution writes nothing but the 500. */
    method Render(w: ResponseRecorder, status: int, page: string, data: D)
      requires Http.ValidCode(status)
      modifies w
      ensures w.Value() == Helpers.Render(old(w.Value()), status, page, templateCache, data)
    {
      if page !in templateCache {
        ServerError(w);
        return;
      }
      var t := templateCache[page];
      var buf := t(data);
      if buf.None? {
        ServerError(w);
        return;
      }
      w.WriteHeader(status);
      if |buf.value| > 0 {
        w.Write(buf.value);
      }
    }
  }
}
