/** The request client of client.go: configuration (`NewClient`, `With`),
    request construction (`NewRequest`) and dispatch (`Do`). Library code the
    client calls but that is not modelled (path joining, URL resolution, JSON
    encoding and decoding, `http.NewRequestWithContext`'s own checks) is
    passed in as a `Library` of functions. */
module Up {
  import opened Wrappers
  import opened Http
  import opened Transport
  import opened ErrorHandling
  import Modifiers

  const DefaultBaseURL := "https://api.upbound.io"
  const DefaultUserAgent := "up-sdk-go"
  const Second := 1_000_000_000
  /** `defaultHTTPTimeout`, in nanoseconds as Go's `time.Duration`. */
  const DefaultHTTPTimeout := 10 * Second

  const UserAgentHeader := "User-Agent"
  const ContentTypeHeader := "Content-Type"
  const JsonContentType := "application/json"

  /** A Go value sent or received as a JSON document. */
  type Value(==)

  datatype Library = Library(
    /** `path.Join`. */
    joinPath: (string, string) -> string,
    /** `(*url.URL).Parse`: a reference resolved against a base URL. */
    resolve: (Url, string) -> Result<Url, string>,
    /** `json.Encoder.Encode`; the flag is `SetEscapeHTML`'s setting. */
    encode: (Value, bool) -> Result<Bytes, string>,
    /** The checks of `http.NewRequestWithContext` on method and URL: an
        error message when it rejects them. */
    checkRequest: (string, Url) -> Option<string>,
    /** `json.Unmarshal` into the caller's result container as it is at this
        call: the value the container holds afterwards, or the decode error. */
    decode: Bytes -> Result<Value, string>,
    /** `json.Unmarshal` into an `errors.Error`; None when it fails. */
    parseEnvelope: Bytes -> Option<ApiError>)

  /** The errors `NewRequest` and `Do` return. */
  datatype Error =
    | Remote(apiError: ApiError)
    | UrlError(message: string)
    | EncodeError(message: string)
    | RequestError(message: string)
    | Wrapped(message: string, cause: string)
    | ReadError(message: string)
    | DecodeError(message: string)

  /** The four fields of an `HTTPClient`, as a value. */
  datatype ClientFields = ClientFields(
    baseURL: Url,
    errorHandler: ErrorHandler,
    http: HttpClient,
    userAgent: string)

  /** A `ClientModifierFn`: a rewrite of the client's fields. */
  type ClientModifierFn = ClientFields -> ClientFields

  /** The struct literal of `NewClient`, around the decorator `t`. */
  function DefaultFields(t: ContextTransport): ClientFields
  {
    ClientFields(Url(DefaultBaseURL), DefaultErrorHandler,
                 HttpClient(DefaultHTTPTimeout, Contextual(t)), DefaultUserAgent)
  }

  /** The user agent of a client is decided by the last modifier that sets
      it; modifiers that leave it alone do not undo that write. */
  lemma LastUserAgentWriteWins(f: ClientFields, modifiers: seq<ClientModifierFn>, i: nat, ua: string)
    requires i < |modifiers|
    requires forall g :: modifiers[i](g).userAgent == ua
    requires forall j, g :: i < j < |modifiers| ==> modifiers[j](g).userAgent == g.userAgent
    ensures Modifiers.ApplyAll(f, modifiers).userAgent == ua
  {
    Modifiers.LastWriteWins(f, modifiers, i, (g: ClientFields) => g.userAgent == ua);
  }

  /** The same for the base URL. */
  lemma LastBaseURLWriteWins(f: ClientFields, modifiers: seq<ClientModifierFn>, i: nat, u: Url)
    requires i < |modifiers|
    requires forall g :: modifiers[i](g).baseURL == u
    requires forall j, g :: i < j < |modifiers| ==> modifiers[j](g).baseURL == g.baseURL
    ensures Modifiers.ApplyAll(f, modifiers).baseURL == u
  {
    Modifiers.LastWriteWins(f, modifiers, i, (g: ClientFields) => g.baseURL == u);
  }

  /** The result container `obj` that `Do` decodes into. */
  class ResultContainer {
    var value: Option<Value>
  }

  /** The text `Do` wraps a transport error with. */
  function TransportErrorMessage(contextID: string): (m: string)
    ensures |m| >= |contextID| && m[|m| - |contextID|..] == contextID
  {
    "failed to perform request with ID: " + contextID
  }

  /** The request `NewRequest` builds, or the error it stops at: first the
      URL, then the body's encoding, then the request's own checks. */
  function BuildRequest(baseURL: Url, userAgent: string, contextID: string, verb: string,
                        prefix: string, urlPath: string, body: Option<Value>, lib: Library)
    : (r: Result<RequestData, Error>)
    ensures var u := lib.resolve(baseURL, lib.joinPath(prefix, urlPath));
            && (u.Failure? ==> r == Failure(UrlError(u.error)))
            && (u.Success? && body.Some? && lib.encode(body.value, false).Failure? ==>
                 r == Failure(EncodeError(lib.encode(body.value, false).error)))
            && (u.Success? && (body.Some? ==> lib.encode(body.value, false).Success?)
                && lib.checkRequest(verb, u.value).Some? ==>
                 r == Failure(RequestError(lib.checkRequest(verb, u.value).value)))
            && (r.Success? <==> u.Success? && (body.Some? ==> lib.encode(body.value, false).Success?)
                                && lib.checkRequest(verb, u.value).None?)
            && (r.Success? ==> r.value.url == u.value && r.value.contextID == contextID
                               && r.value.verb == (if verb == "" then "GET" else verb))
    ensures r.Success? ==> HeaderValues(r.value.header, UserAgentHeader) == [userAgent]
    ensures r.Success? ==> (ContentTypeHeader in r.value.header <==> body.Some?)
    ensures r.Success? ==> r.value.header.Keys <= {UserAgentHeader, ContentTypeHeader}
    ensures r.Success? && body.Some? ==>
              && HeaderValues(r.value.header, ContentTypeHeader) == [JsonContentType]
              && r.value.body == Some(lib.encode(body.value, false).value)
    ensures r.Success? && body.None? ==> r.value.body == None
  {
    match lib.resolve(baseURL, lib.joinPath(prefix, urlPath))
    case Failure(e) => Failure(UrlError(e))
    case Success(u) =>
      var encoded := if body.Some? then lib.encode(body.value, false) else Success([]);
      if encoded.Failure? then Failure(EncodeError(encoded.error))
      else match lib.checkRequest(verb, u)
        case Some(e) => Failure(RequestError(e))
        case None =>
          var h := SetHeader(map[], UserAgentHeader, userAgent);
          var h := if body.Some? then SetHeader(h, ContentTypeHeader, JsonContentType) else h;
          Success(RequestData(if verb == "" then "GET" else verb, u, h,
                              if body.Some? then Some(encoded.value) else None, contextID))
  }

  /** What `Do` reports, given the transport's answer: checked in the order
      transport error, classifier verdict, missing container, read, decode. */
  function DoOutcome(h: ErrorHandler, sent: Result<ResponseData, string>, contextID: string,
                     hasContainer: bool, lib: Library): (r: Result<Option<Value>, Error>)
    ensures r.Success? ==> (r.value.Some? <==> hasContainer)
  {
    match sent
    case Failure(e) => Failure(Wrapped(TransportErrorMessage(contextID), e))
    case Success(res) =>
      var verdict := Classify(h, res.status, res.body, lib.parseEnvelope);
      if verdict.Some? then Failure(Remote(verdict.value))
      else if !hasContainer then Success(None)
      else match res.body
        case Failure(e) => Failure(ReadError(e))
        case Success(b) =>
          match lib.decode(b)
          case Failure(e) => Failure(DecodeError(e))
          case Success(v) => Success(Some(v))
  }

  function ErrorOf(r: Result<Option<Value>, Error>): Option<Error>
  {
    if r.Failure? then Some(r.error) else None
  }

  /** With the default classifier, `Do` succeeds exactly when the round trip
      succeeded with a 2xx status and, if there is a container, the body
      was read and decoded. */
  lemma DoSucceedsIff(sent: Result<ResponseData, string>, contextID: string, hasContainer: bool, lib: Library)
    ensures DoOutcome(DefaultErrorHandler, sent, contextID, hasContainer, lib).Success?
            <==> && sent.Success? && IsSuccess(sent.value.status)
                 && (hasContainer ==> sent.value.body.Success? && lib.decode(sent.value.body.value).Success?)
  {
  }

  /** A transport error comes back wrapped, naming the context's request ID. */
  lemma DoTransportError(h: ErrorHandler, e: string, contextID: string, hasContainer: bool, lib: Library)
    ensures var r := DoOutcome(h, Failure(e), contextID, hasContainer, lib);
            && r.Failure? && r.error.Wrapped? && r.error.cause == e
            && var m := r.error.message; m[|m| - |contextID|..] == contextID
  {
  }

  /** A non-2xx response yields the classifier's error and nothing is decoded. */
  lemma DoRemoteError(res: ResponseData, contextID: string, hasContainer: bool, lib: Library)
    requires !IsSuccess(res.status)
    ensures DoOutcome(DefaultErrorHandler, Success(res), contextID, hasContainer, lib)
            == Failure(Remote(Handle(res.status, res.body, lib.parseEnvelope).value))
  {
  }

  /** Without a container a 2xx response ends the call with no error,
      whatever its body holds. */
  lemma DoWithoutContainer(res: ResponseData, contextID: string, lib: Library)
    requires IsSuccess(res.status)
    ensures DoOutcome(DefaultErrorHandler, Success(res), contextID, false, lib) == Success(None)
  {
  }

  /** With a container, a 2xx response yields the decoded body or the read or
      decode error, as it is. */
  lemma DoDecodes(res: ResponseData, contextID: string, lib: Library)
    requires IsSuccess(res.status)
    ensures var r := DoOutcome(DefaultErrorHandler, Success(res), contextID, true, lib);
            && (res.body.Failure? ==> r == Failure(ReadError(res.body.error)))
            && (res.body.Success? ==> r == match lib.decode(res.body.value)
                                          case Success(v) => Success(Some(v))
                                          case Failure(e) => Failure(DecodeError(e)))
  {
  }

  class HTTPClient {
    var baseURL: Url
    var errorHandler: ErrorHandler
    var http: HttpClient
    var userAgent: string

    function Fields(): ClientFields
      reads this
    {
      ClientFields(baseURL, errorHandler, http, userAgent)
    }

    /** The struct literal `&HTTPClient{...}`. */
    constructor (f: ClientFields)
      ensures Fields() == f
    {
      baseURL := f.baseURL;
      errorHandler := f.errorHandler;
      http := f.http;
      userAgent := f.userAgent;
    }

    /** `m(c)` for a modifier `m`. */
    method Modify(m: ClientModifierFn)
      modifies this
      ensures Fields() == m(old(Fields()))
    {
      var f := m(Fields());
      baseURL, errorHandler, http, userAgent := f.baseURL, f.errorHandler, f.http, f.userAgent;
    }

    /** `With(modifiers...)`: a new client from a field-wise copy of this one,
        the modifiers applied in order; this client is left as it was. */
    method With(modifiers: seq<ClientModifierFn>) returns (nc: HTTPClient)
      ensures fresh(nc)
      ensures nc.Fields() == Modifiers.ApplyAll(Fields(), modifiers)
      ensures Fields() == old(Fields())
    {
      nc := new HTTPClient(Fields());
      for i := 0 to |modifiers|
        invariant nc.Fields() == Modifiers.ApplyAll(Fields(), modifiers[..i])
      {
        nc.Modify(modifiers[i]);
        Modifiers.ApplyAllSnoc(Fields(), modifiers[..i], modifiers[i]);
        assert modifiers[..i + 1] == modifiers[..i] + [modifiers[i]];
      }
      assert modifiers[..|modifiers|] == modifiers;
    }

    /** `NewRequest(ctx, method, prefix, urlPath, body)`, where `contextID` is
        the request ID `ctx` carries ("" for none) and `body` is None for nil. */
    method NewRequest(contextID: string, verb: string, prefix: string, urlPath: string,
                      body: Option<Value>, lib: Library)
      returns (req: Request?, err: Option<Error>)
      ensures var r := BuildRequest(baseURL, userAgent, contextID, verb, prefix, urlPath, body, lib);
              && (r.Success? ==> req != null && fresh(req) && req.Snapshot() == r.value && err == None)
              && (r.Failure? ==> req == null && err == Some(r.error))
    {
      var u := lib.resolve(baseURL, lib.joinPath(prefix, urlPath));
      if u.Failure? {
        return null, Some(UrlError(u.error));
      }
      var buf: Option<Bytes> := None;
      if body.Some? {
        var encoded := lib.encode(body.value, false);
        if encoded.Failure? {
          return null, Some(EncodeError(encoded.error));
        }
        buf := Some(encoded.value);
      }
      var rejected := lib.checkRequest(verb, u.value);
      if rejected.Some? {
        return null, Some(RequestError(rejected.value));
      }
      req := new Request(if verb == "" then "GET" else verb, u.value, buf, contextID);
      req.Set(UserAgentHeader, userAgent);
      if body.Some? {
        req.Set(ContentTypeHeader, JsonContentType);
      }
      err := None;
    }

    /** `Do(req, obj)`. `newIDs` stands for the identifiers `request.NewID`
        would generate in each decorator, and `chain` lists the decorators
        the client's transport leads through; `res` exposes the response
        object so that its final state can be stated. Every path that
        acquired a response closes it. */
    method Do(req: Request, obj: ResultContainer?, net: Network, newIDs: IDSource, lib: Library,
              ghost chain: seq<ContextTransport>)
      returns (err: Option<Error>, res: Response?)
      requires IsChain(http.transport, chain)
      modifies req, obj
      ensures req.Snapshot() == Delivered(http.transport, old(req.Snapshot()), newIDs, 0, chain)
      ensures var sent := Dispatch(http, old(req.Snapshot()), net, newIDs, chain);
              var outcome := DoOutcome(errorHandler, sent, req.contextID, obj != null, lib);
              && err == ErrorOf(outcome)
              && (res == null <==> sent.Failure?)
              && (res != null ==>
                    && fresh(res) && res.closed
                    && ResponseData(res.status, res.content) == sent.value
                    && res.consumed == (ReadsBody(errorHandler, res.status)
                                        || (obj != null && Classify(errorHandler, res.status, res.content, lib.parseEnvelope).None?)))
              && (obj != null ==> obj.value == if outcome.Success? then outcome.value else old(obj.value))
    {
      var sent := Send(http, req, net, newIDs, chain);
      if sent.Failure? {
        return Some(Wrapped(TransportErrorMessage(req.contextID), sent.error)), null;
      }
      res := new Response(sent.value);
      err := Complete(res, obj, req.contextID, lib);
    }

    /** The part of `Do` after the round trip: classify, then read and decode
        into the container if there is one; the deferred `Close` runs on
        every return. */
    method Complete(res: Response, obj: ResultContainer?, contextID: string, lib: Library) returns (err: Option<Error>)
      requires !res.consumed && !res.closed
      modifies res, obj
      ensures var outcome := DoOutcome(errorHandler, Success(ResponseData(res.status, res.content)), contextID, obj != null, lib);
              && err == ErrorOf(outcome)
              && res.closed
              && res.consumed == (ReadsBody(errorHandler, res.status)
                                  || (obj != null && Classify(errorHandler, res.status, res.content, lib.parseEnvelope).None?))
              && (obj != null ==> obj.value == if outcome.Success? then outcome.value else old(obj.value))
    {
      var verdict := HandleResponse(errorHandler, res, lib.parseEnvelope);
      if verdict.Some? {
        res.Close();
        return Some(Remote(verdict.value));
      }
      if obj != null {
        var b := res.ReadAll();
        if b.Failure? {
          res.Close();
          return Some(ReadError(b.error));
        }
        var decoded := lib.decode(b.value);
        if decoded.Failure? {
          res.Close();
          return Some(DecodeError(decoded.error));
        }
        obj.value := Some(decoded.value);
        res.Close();
        return None;
      }
      res.Close();
      return None;
    }
  }

  /** `NewClient(modifiers...)`: the defaults (base URL, user agent, default
      classifier, an `http.Client` with the default timeout around a fresh
      decorator over the platform transport), then the modifiers in order. */
  method NewClient(modifiers: seq<ClientModifierFn>) returns (c: HTTPClient, ghost t: ContextTransport)
    ensures fresh(c) && fresh(t) && t.transport == DefaultTransport
    ensures IsChain(DefaultFields(t).http.transport, [t])
    ensures c.Fields() == Modifiers.ApplyAll(DefaultFields(t), modifiers)
  {
    var ct := NewContextTransport([]);
    assert ct.transport == DefaultTransport;
    c := new HTTPClient(DefaultFields(ct));
    for i := 0 to |modifiers|
      invariant ct.transport == DefaultTransport
      invariant c.Fields() == Modifiers.ApplyAll(DefaultFields(ct), modifiers[..i])
    {
      c.Modify(modifiers[i]);
      Modifiers.ApplyAllSnoc(DefaultFields(ct), modifiers[..i], modifiers[i]);
      assert modifiers[..i + 1] == modifiers[..i] + [modifiers[i]];
    }
    assert modifiers[..|modifiers|] == modifiers;
    t := ct;
    assert [t][1..] == [];
  }
}
