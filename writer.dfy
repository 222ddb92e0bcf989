/**
 * The response writer as a mutable object: the helpers that answer a
 * request write to it step by step, and each of its operations is proved to
 * act on its contents exactly as the corresponding function of `Http`.
 */
module Writer {
  import opened Wrappers
  import Http

  /** A `http.ResponseWriter` that records what is sent. */
  class ResponseRecorder {
    var header: map<string, string>
    var status: Option<int>
    var body: string

    function Value(): Http.Response
      reads this
    {
      Http.Response(header, status, body)
    }

    constructor ()
      ensures Value() == Http.Fresh
    {
      header := map[];
      status := None;
      body := "";
    }

    method SetHeader(name: string, value: string)
      modifies this
      ensures Value() == Http.SetHeader(old(Value()), name, value)
    {
      if status.None? {
        header := header[name := value];
      }
    }

    method WriteHeader(code: int)
      requires Http.ValidCode(code)
      modifies this
      ensures Value() == Http.WriteHeader(old(Value()), code)
    {
      if status.None? {
        status := Some(code);
      }
    }

    method Write(data: string)
      modifies this
      ensures Value() == Http.Write(old(Value()), data)
    {
      WriteHeader(Http.StatusOK);
      body := body + data;
    }

    /** `http.Error(w, msg, code)` on this writer. */
    method Error(msg: string, code: int)
      requires Http.ValidCode(code)
      modifies this
      ensures Value() == Http.Error(old(Value()), msg, code)
    {
      SetHeader("Content-Type", "text/plain; charset=utf-8");
      SetHeader("X-Content-Type-Options", "nosniff");
      WriteHeader(code);
      Write(msg + "\n");
    }
  }

}
