/** The error classifier of client.go (`DefaultErrorHandler.Handle`) and the
    polymorphic error-handler slot of the client. */
module ErrorHandling {
  import opened Wrappers
  import opened Http

  /** The remote API's error envelope (`errors.Error` of up-sdk-go). */
  datatype ApiError = ApiError(status: int, title: string, detail: Option<string>)

  /** The client's `ResponseErrorHandler`: the default classifier, or a
      caller-supplied one that decides from the status code alone. */
  datatype ErrorHandler =
    | DefaultErrorHandler
    | StatusErrorHandler(classify: int -> Option<ApiError>)

  predicate IsSuccess(status: int)
  {
    200 <= status < 300
  }

  /** Whether the body parses as an envelope the classifier returns as it is. */
  predicate IsServerEnvelope(body: Result<Bytes, string>, parseEnvelope: Bytes -> Option<ApiError>)
  {
    body.Success? && parseEnvelope(body.value).Some? && parseEnvelope(body.value).value.status != 0
  }

  /** `DefaultErrorHandler.Handle`, given what reading the body yields and
      the JSON decoder into `errors.Error` (None when `json.Unmarshal` fails).
      No error for a 2xx status; otherwise the server's own envelope when it
      sent one with a non-zero status, else an error built from the status,
      its reason phrase and the body text. */
  function Handle(status: int, body: Result<Bytes, string>, parseEnvelope: Bytes -> Option<ApiError>): (r: Option<ApiError>)
    ensures r.None? <==> IsSuccess(status)
    ensures r.Some? ==> (IsServerEnvelope(body, parseEnvelope) && r == parseEnvelope(body.value))
                        || (r.value.status == status && r.value.title == StatusText(status))
  {
    if 200 <= status < 300 then None
    else match body
      case Failure(_) => Some(ApiError(status, StatusText(status), None))
      case Success(b) =>
        var parsed := parseEnvelope(b);
        if parsed.Some? && parsed.value.status != 0 then parsed
        else
          var text := BytesToString(b);
          Some(ApiError(status, StatusText(status), if text != "" then Some(text) else None))
  }

  /** On a 2xx status the body plays no part: `Handle` does not read it. */
  lemma HandleIgnoresBodyOnSuccess(status: int, b1: Result<Bytes, string>, b2: Result<Bytes, string>,
                                   parseEnvelope: Bytes -> Option<ApiError>)
    requires IsSuccess(status)
    ensures Handle(status, b1, parseEnvelope) == Handle(status, b2, parseEnvelope) == None
  {
  }

  /** A non-2xx response carrying an envelope with a non-zero status yields
      that envelope verbatim. */
  lemma HandleReturnsEnvelope(status: int, b: Bytes, parseEnvelope: Bytes -> Option<ApiError>, e: ApiError)
    requires !IsSuccess(status)
    requires parseEnvelope(b) == Some(e) && e.status != 0
    ensures Handle(status, Success(b), parseEnvelope) == Some(e)
  {
  }

  /** Otherwise the fallback error: the response's status, its reason phrase,
      and the body text as detail exactly when the body was read and is not
      empty. An envelope whose status is 0 falls through to here. */
  lemma HandleFallback(status: int, body: Result<Bytes, string>, parseEnvelope: Bytes -> Option<ApiError>)
    requires !IsSuccess(status)
    requires !IsServerEnvelope(body, parseEnvelope)
    ensures var r := Handle(status, body, parseEnvelope);
            && r.Some? && r.value.status == status && r.value.title == StatusText(status)
            && (r.value.detail.Some? <==> body.Success? && body.value != [])
            && (r.value.detail.Some? ==> r.value.detail.value == BytesToString(body.value))
  {
  }

  /** An unreadable or empty body costs only the detail. */
  lemma HandleWithoutBody(status: int, body: Result<Bytes, string>, parseEnvelope: Bytes -> Option<ApiError>)
    requires !IsSuccess(status)
    requires body.Failure? || (body.value == [] && !IsServerEnvelope(body, parseEnvelope))
    ensures Handle(status, body, parseEnvelope) == Some(ApiError(status, StatusText(status), None))
  {
  }

  /** A 404 whose body is the envelope {status 404, title "Not Found", detail "x"}. */
  lemma HandleNotFoundEnvelope(b: Bytes, parseEnvelope: Bytes -> Option<ApiError>)
    requires parseEnvelope(b) == Some(ApiError(404, "Not Found", Some("x")))
    ensures Handle(404, Success(b), parseEnvelope) == Some(ApiError(404, "Not Found", Some("x")))
  {
  }

  /** A 503 with an empty body that is no envelope. */
  lemma HandleServiceUnavailableEmpty(parseEnvelope: Bytes -> Option<ApiError>)
    requires parseEnvelope([]).None?
    ensures Handle(503, Success([]), parseEnvelope) == Some(ApiError(503, "Service Unavailable", None))
  {
  }

  /** A 400 whose body is the plain text "plain text oops". */
  lemma HandleBadRequestPlainText(parseEnvelope: Bytes -> Option<ApiError>)
    requires parseEnvelope(Latin1Bytes("plain text oops")).None?
    ensures Handle(400, Success(Latin1Bytes("plain text oops")), parseEnvelope)
            == Some(ApiError(400, "Bad Request", Some("plain text oops")))
  {
    Latin1BytesRoundTrip("plain text oops");
  }

  /** The verdict of handler `h` on a response, given what reading its body yields. */
  function Classify(h: ErrorHandler, status: int, body: Result<Bytes, string>,
                    parseEnvelope: Bytes -> Option<ApiError>): (verdict: Option<ApiError>)
    ensures h.DefaultErrorHandler? ==> (verdict.None? <==> IsSuccess(status))
    ensures h.StatusErrorHandler? ==> verdict == h.classify(status)
  {
    match h
    case DefaultErrorHandler => Handle(status, body, parseEnvelope)
    case StatusErrorHandler(classify) => classify(status)
  }

  /** Whether handler `h` reads the body of a response with this status. */
  predicate ReadsBody(h: ErrorHandler, status: int)
  {
    h.DefaultErrorHandler? && !IsSuccess(status)
  }

  /** `c.ErrorHandler.Handle(res)`: the default handler reads the body only
      for a non-2xx status; no handler closes it (the caller does). */
  method HandleResponse(h: ErrorHandler, res: Response, parseEnvelope: Bytes -> Option<ApiError>)
    returns (verdict: Option<ApiError>)
    modifies res
    ensures verdict == Classify(h, res.status, ReadOutcome(old(res.consumed), old(res.closed), res.content), parseEnvelope)
    ensures res.consumed == (old(res.consumed) || ReadsBody(h, res.status))
    ensures res.closed == old(res.closed)
  {
    match h
    case DefaultErrorHandler =>
      if 200 <= res.status < 300 {
        return None;
      }
      var b := res.ReadAll();
      verdict := Handle(res.status, b, parseEnvelope);
    case StatusErrorHandler(classify) =>
      verdict := classify(res.status);
  }
}
