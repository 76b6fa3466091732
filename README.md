# up-sdk-go request pipeline, modelled in Dafny

This project models the HTTP client core of up-sdk-go (`client.go`). It covers four parts:

- **Configuration.** `HTTPClient` has four fields: base URL, error handler, `http.Client` and user agent. `NewClient` starts from the defaults (`https://api.upbound.io`, `up-sdk-go`, the default error handler, and a 10-second `http.Client` around a fresh `ContextTransport`). `With` starts from a field-wise copy of the receiver. Both then apply the modifier functions in list order. `NewContextTransport` does the same for the decorator's wrapped transport, starting from `http.DefaultTransport`.
- **Request construction.** `NewRequest` resolves the URL and then encodes the body, with HTML escaping turned off. It then sets `User-Agent`, and sets `Content-Type: application/json` only when there is a body.
- **Dispatch.** `Do` sends the request and checks the outcome in a fixed order: transport error, then classifier verdict, then missing result container, then body read, then decode. It closes the response body on every path after the round trip. `ContextTransport.RoundTrip` appends one correlation-identifier value to the request's headers and hands the same request to the wrapped transport. When that transport is itself a `ContextTransport`, its `RoundTrip` stamps once more, so a request leaves with one value per decorator on its way.
- **Error classification.** `DefaultErrorHandler.Handle` returns no error for a 2xx status, and then it does not read the body. For any other status it returns the server's error envelope verbatim when the body parses as one with a non-zero status. Otherwise it builds a fallback error from the status, Go's reason phrase for it and, as detail, the body text when that was read and is not empty.

Modules: `Wrappers` (Option, Result), `Modifiers` (applying a list of functional options), `Http` (bytes, reason phrases, header maps, request and response objects), `Transport` (the decorator and the send step), `ErrorHandling` (the classifier), `Up` (the client).

The network is an oracle, `Network.exchange`. It maps the transport that receives a request, and the request as that transport sees it, to a response or a transport error. The library code the client calls is a `Library` value of functions: `path.Join`, URL resolution, JSON encoding and decoding, and the checks of `http.NewRequestWithContext`. The identifiers `request.NewID` would generate are a parameter (`newIDs`), one per decorator the request passes through. The request ID carried by the context is a field of the request (`contextID`, empty when there is none). Go modifiers mutate a struct through a pointer. Here they are functions from the old field values to the new ones, and the class methods write the result back into the object's fields.

The message of a wrapped transport error names the context's request ID, `request.IDFromContext` (client.go:120). When the context carries no ID, `RoundTrip` sends a freshly generated one in the header, but the message names the empty string, not that fresh ID. `Up.DoTransportError` and `Up.HTTPClient.Do` state the behaviour as the code has it. So the message carries the correlation identifier that was sent only when the caller put that identifier in the context.

## Model

| member | source | states |
|---|---|---|
| `Modifiers.ApplyAllSnoc` | client.go:63-65 | applying one more modifier after a list is applying it to the list's result (list order) |
| `Modifiers.ApplyAll` | client.go:63-65 | definition: the `for _, m := range` loop over modifiers, applied in list order; its step and last-write-wins promises are stated by `Modifiers.ApplyAllSnoc`, `Modifiers.ApplyAllAppend` and `Modifiers.LastWriteWins`, and the loops of `Up.HTTPClient.With`, `Up.NewClient` and `Transport.NewContextTransport` are proved equal to it |
| `Modifiers.ApplyAllAppend` | client.go:149-151 | applying two modifier lists in turn is applying their concatenation |
| `Modifiers.LastWriteWins` | client.go:149-151 | a property set by modifier i and kept by every later modifier holds of the final value, whatever the earlier ones wrote |
| `Up.LastUserAgentWriteWins` | client.go:63-65 | the last modifier that writes the user agent decides it |
| `Up.LastBaseURLWriteWins` | client.go:149-151 | the last modifier that writes the base URL decides it |
| `Up.HTTPClient.constructor` | client.go:143-148 | the struct literal holds exactly the given four fields |
| `Up.HTTPClient.Modify` | client.go:149-151 | `m(c)` replaces the fields by `m` of the old fields |
| `Up.HTTPClient.With` | client.go:142-153 | new object whose fields are the receiver's copied and then rewritten by the modifiers in order; the receiver's fields are unchanged; with no modifiers the copy equals the receiver |
| `Up.DefaultFields` | client.go:54-62 | the struct literal of `NewClient`: base URL `https://api.upbound.io`, the default classifier, an `http.Client` with a 10-second timeout around the given decorator, user agent `up-sdk-go` |
| `Up.NewClient` | client.go:52-67 | new client whose fields are the modifiers applied in order to the defaults, around a fresh decorator over `http.DefaultTransport`, which forms a one-element decorator chain |
| `Transport.ContextTransport.constructor` | client.go:208-210 | a new decorator wraps `http.DefaultTransport` |
| `Transport.ContextTransport.ApplyOption` | client.go:212-214 | `o(c)` replaces the wrapped transport by `o` of the old one |
| `Transport.NewContextTransport` | client.go:207-216 | the wrapped transport is the options applied in order to `http.DefaultTransport` |
| `Transport.WithTransportOverrides` | client.go:200-204 | `WithTransport(t)` sets the wrapped transport to `t` whatever it was |
| `Transport.LastWithTransportWins` | client.go:212-214 | after any options, a final `WithTransport(t)` leaves `t` wrapped |
| `Transport.RequestIDFor` | client.go:223-226 | definition: the context's ID when non-empty, else the fresh one; what is sent is stated by `Transport.WithRequestID` and `Transport.ContextTransport.RoundTrip` |
| `Transport.WithTransport` | client.go:200-204 | the option replacing the wrapped transport by `t` (its effect stated by `WithTransportOverrides`) |
| `Transport.WithRequestID` | client.go:228 | one decorator's stamp: exactly one value appended under the request-ID header, the context's ID or the fresh one; every other header, the method, URL, body and context unchanged |
| `Transport.DeliveredStampsEachLayer` | client.go:221-231 | followed through every decorator down to a non-decorator transport, each layer appends exactly one request-ID value (the context's ID, else that layer's fresh one) after the existing values; no other header and no other part of the request changes |
| `Transport.Delivered` | client.go:221-231 | definition: the request after every decorator's `RoundTrip` along the chain; what it contains is stated by `Transport.DeliveredStampsEachLayer` |
| `Transport.SingleDecoratorStampsOnce` | client.go:207-231 | a decorator over the platform transport adds exactly one value |
| `Transport.NestedDecoratorsStampTwice` | client.go:228-230 | a decorator over a decorator adds two values; with ID `c` in the context the header holds `[c, c]` |
| `Transport.StampedIDs` | client.go:223-226 | definition: the values `n` decorators add, one `RequestIDFor` per layer with that layer's fresh ID; that these are what a chain adds is stated by `Transport.DeliveredStampsEachLayer` |
| `Transport.IsChain` | client.go:230 | the list of decorators met when following wrapped transports down to the first non-decorator |
| `Transport.Receiver` | client.go:230 | the transport that finally receives a request: each decorator passes it to the transport it wraps |
| `Transport.Dispatch` | client.go:118 | the answer to a request sent through an `http.Client` is the final receiver's answer to the request stamped by every decorator on the way |
| `Transport.ContextTransport.RoundTrip` | client.go:221-231 | the request is stamped in place by this decorator and, when it wraps another decorator, by that one's `RoundTrip` in turn; the answer is the final receiving transport's answer to that same stamped request |
| `Transport.Send` | client.go:118 | `c.HTTP.Do(req)`: the request is left as every decorator on the way stamped it, and the answer is `Dispatch`'s |
| `Http.StatusText` | client.go:184 | a non-empty reason phrase belongs to a code in 100..599; unknown codes give the empty phrase |
| `Http.SetHeader` | client.go:109-112 | `Header.Set` leaves exactly one value under the name and the other names untouched |
| `Http.AddHeader` | client.go:228 | `Header.Add` appends one value after the existing ones and leaves the other names untouched |
| `Http.BytesToString` | client.go:177 | definition: `string(b)`, one character per byte; that it loses nothing is stated by `Http.BytesToStringRoundTrip` |
| `Http.BytesToStringRoundTrip` | client.go:177 | `string(b)` loses no information: the bytes are recovered from it |
| `Http.Latin1BytesRoundTrip` | client.go:177 | a one-byte-per-character string survives the trip through its bytes |
| `Http.Request.constructor` | client.go:105 | a new request has the given method, URL, body and context, and no headers |
| `Http.Request.Set` | client.go:109 | `req.Header.Set` in place |
| `Http.Request.Add` | client.go:228 | `req.Header.Add` in place |
| `Http.Response.ReadAll` | client.go:127 | a read yields the body content once; a later read yields nothing more after a successful read and the same error again after a failed one; any read after `Close` fails; it marks the body consumed and does not close it |
| `Http.Response.Close` | client.go:122 | `Close` marks the body closed and does not read it |
| `Http.ReadOutcome` | client.go:127 | definition: what `io.ReadAll(res.Body)` yields in each state of the body; `Http.Response.ReadAll` is stated through it |
| `Http.Response.constructor` | client.go:118 | the response the transport hands back has its status and body content, and its body is neither read nor closed |
| `ErrorHandling.Handle` | client.go:161-187 | no error exactly for a 2xx status; any error is either the server's envelope with non-zero status or carries the response's status and its reason phrase |
| `ErrorHandling.HandleIgnoresBodyOnSuccess` | client.go:162-165 | on a 2xx status the result is no error whatever the body holds |
| `ErrorHandling.HandleReturnsEnvelope` | client.go:172-174 | a non-2xx response whose body parses as an envelope with non-zero status yields that envelope unchanged |
| `ErrorHandling.HandleFallback` | client.go:176-186 | otherwise, including an envelope with status 0: status and reason phrase of the response, detail present exactly when the body was read and is non-empty, equal to its text |
| `ErrorHandling.HandleWithoutBody` | client.go:167-186 | a read error or an empty non-envelope body gives status, phrase and no detail |
| `ErrorHandling.HandleNotFoundEnvelope` | client.go:173-174 | 404 with the envelope {404, "Not Found", "x"} returns exactly that envelope |
| `ErrorHandling.HandleServiceUnavailableEmpty` | client.go:177-186 | 503 with an empty unparsable body gives {503, "Service Unavailable", no detail} |
| `ErrorHandling.HandleBadRequestPlainText` | client.go:177-186 | 400 with body `plain text oops` gives {400, "Bad Request", "plain text oops"} |
| `ErrorHandling.Classify` | client.go:138 | `c.ErrorHandler.Handle(res)` dispatched on the handler: the default one gives no error exactly for 2xx; a status-based one gives its own verdict on the status |
| `ErrorHandling.HandleResponse` | client.go:137-139 | the handler's verdict on the body as read; the default handler reads the body only for non-2xx; no handler closes it |
| `Up.BuildRequest` | client.go:91-114 | a URL failure, then an encoding failure, then a request-check failure stop construction with `UrlError`, `EncodeError` or `RequestError` carrying that failure's message; construction succeeds exactly when none occurs; a built request has the resolved URL, exactly one User-Agent value equal to the client's, Content-Type `application/json` exactly when there is a body, no other header, and the body encoded without HTML escaping |
| `Up.HTTPClient.NewRequest` | client.go:91-114 | a fresh request equal to `BuildRequest`'s value, or no request and its error |
| `Up.TransportErrorMessage` | client.go:120 | the wrapping message ends with the context's request ID |
| `Up.DoOutcome` | client.go:117-134 | a successful call returns a decoded value exactly when a container was supplied |
| `Up.DoSucceedsIff` | client.go:117-134 | with the default classifier `Do` succeeds exactly when the round trip succeeded with a 2xx status and, given a container, the body was read and decoded |
| `Up.DoTransportError` | client.go:118-121 | a transport error is returned wrapped, with its cause, in a message ending with the context's request ID |
| `Up.DoRemoteError` | client.go:123-125 | a non-2xx response returns `Handle`'s error and nothing is decoded |
| `Up.DoWithoutContainer` | client.go:126-133 | with no container a 2xx response returns no error whatever its body |
| `Up.DoDecodes` | client.go:126-132 | with a container a 2xx response returns the read error, the decode error or the decoded value |
| `Up.HTTPClient.Complete` | client.go:122-133 | after the round trip: the error is `DoOutcome` of the response, the body is closed on every return, read exactly when the classifier reads it or a container is decoded into, and the container receives the decoded value and is otherwise untouched |
| `Up.HTTPClient.Do` | client.go:117-134 | the request is left as stamped by every decorator on the way; the error is `DoOutcome` of the transport's answer; a response object exists exactly when the round trip succeeded, and it is then closed on return; its body was read exactly when the classifier reads it or a container was decoded into; the container receives the decoded value and is otherwise untouched |

## Left out

- Network I/O, the 10-second timeout, context cancellation and deadlines, and `http.Client`'s redirect handling are not modelled. The network is an arbitrary function from (receiving transport, request) to a response or an error. The timeout is only recorded as a field value.
- Concurrency is not modelled. Each call runs on its own objects, and `With` does not modify its receiver.
- JSON encoding and decoding are not modelled (`encoding/json`, the `SetEscapeHTML(false)` flag, the trailing newline `Encode` writes). They are opaque functions of the `Library`. The escaping flag is passed as `false`. The round trip of a request body through the wire therefore cannot be stated.
- URL resolution (`(*url.URL).Parse`, section 5.2 of RFC 3986), `path.Join` and the checks of `http.NewRequestWithContext` are standard-library code that is not shown, so they are opaque functions too. `http.NewRequestWithContext` turning an empty method into `GET` is modelled. `Up.BuildRequest` gives the request the resolved URL itself, whereas Go passes `u.String()` to `http.NewRequestWithContext`, which parses it again and so drops an empty port (`https://host:/x` becomes `https://host/x`); that re-parse is not modelled.
- `request.NewID` and `request.IDFromContext` are not part of this model. The generated ID is an arbitrary string parameter. The context's ID is a field of the request.
- The response header map, and every other field of `http.Response`, are not modelled. Only the status and the body are.
- `headers.RequestIDHeader` is not part of this model. Its spelling `X-Request-Id` is assumed, and no proof depends on it beyond its differing from `User-Agent` and `Content-Type`.
- Header key canonicalisation (`textproto.CanonicalMIMEHeaderKey`) is not modelled, because every key the core uses is already canonical.
- `ErrorHandling.ErrorHandler`: a caller-supplied `ResponseErrorHandler` is modelled only as a classifier that decides from the status code and does not read the body.
- `ErrorHandling.ApiError` models only the status, title and detail fields of `errors.Error`. The errors package is not part of this model.
- `Transport.ContextTransport.RoundTrip`, `Transport.Send`, `Up.HTTPClient.Do`: these require a finite decorator chain (`IsChain`). A decorator that wraps itself, directly or through others, makes Go's `RoundTrip` recurse without end; the model does not describe that non-terminating case.
- `Http.BytesToString`: the fallback detail spells each body byte as the character with the same code, that is Latin-1. An envelope's `detail` from the JSON decoder is Unicode text. So for a non-ASCII body the fallback detail differs from the same text decoded inside an envelope, and from Go's string, which holds the UTF-8 bytes themselves.
- The text of `errors.Wrap` is not modelled beyond the prefix message and the cause. That is, the `": "` join and `Error()` are left out.
- `Up.HTTPClient.With`: the `*url.URL` and `*http.Client` pointers are shared between a client and the clients derived from it. A modifier that writes through such a pointer (say, `c.HTTP.Timeout = …`) would change the parent too. The model holds both as values, so it does not capture this aliasing.
- `Up.HTTPClient.Do`: when decoding fails, the model leaves the container untouched. Go's `json.Unmarshal` may already have filled part of it.
- `Up.Library.decode`: stands for `json.Unmarshal` of the body into the container as it is at the call, and is chosen per call. So it covers Go merging into existing struct fields and map entries, a JSON `null` leaving the container as it was, and a container that is not a pointer, or is a typed nil, passing the `obj != nil` test without being filled. The model itself only records that the container holds whatever `decode` returns.
- `Transport.ContextTransport.RoundTrip`, `Transport.Send`, `Up.HTTPClient.Do`: a `CustomTransport` is taken as a final receiver that neither changes the request nor passes it to a `ContextTransport`. In Go a caller transport can be middleware that wraps a decorator, such as a retry wrapper around `NewContextTransport()`; each call it passes on would make the inner decorator add one more request-ID value to the caller's header map. The model cannot express such a transport, so those stamps are not in `Delivered`.
- `Transport.Send`, `Up.HTTPClient.Do`: `http.Client`'s own request rewriting and error wrapping are not modelled. For a URL with user info (`https://u:p@host`), `http.Client` adds an `Authorization: Basic` header to a cloned header map, so the decorators stamp that clone and the caller's request keeps no `X-Request-Id`; the model's `Delivered` request carries neither that header nor the clone. `http.Client.Do` also wraps every transport error in a `*url.Error`, so the `cause` of the wrapped error at client.go:120 is that `*url.Error`, not the receiver's raw error that `Up.DoTransportError` names.
- The error `res.Body.Close()` may return is ignored by the source (`nolint:errcheck`) and is not modelled.
- These other files are not part of this model: `apis/spaces/v1beta1/zz_generated.deepcopy.go` (generated deep copies, the identity under value semantics), `apis/observability/v1alpha1/telemetry_types.go` (schema declarations; its condition constructors read the wall clock) and `apis/common/json.go` (wrappers over Kubernetes JSON and field-path libraries that are not shown).
