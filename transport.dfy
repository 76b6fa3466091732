/** The transport decorator of client.go (`ContextTransport`) and the
    sending step of `http.Client.Do`. The network is an oracle: given the
    transport a request is handed to and the request as that transport sees
    it, it answers with a response or a transport error. */
module Transport {
  import opened Wrappers
  import opened Http
  import Modifiers

  /** Name of the correlation-identifier header (`headers.RequestIDHeader`). */
  const RequestIDHeader := "X-Request-Id"

  /** An `http.RoundTripper`: the platform's `http.DefaultTransport`, the
      decorator of this file, or a transport supplied by the caller. */
  datatype RoundTripper =
    | DefaultTransport
    | Contextual(decorator: ContextTransport)
    | CustomTransport(name: string)

  /** What the network does with a request handed to a given transport. */
  datatype Network = Network(exchange: (RoundTripper, RequestData) -> Result<ResponseData, string>)

  /** A `ContextTransportOption`: a rewrite of the decorator's wrapped transport. */
  type ContextTransportOption = RoundTripper -> RoundTripper

  /** `WithTransport(t)`: the option that makes `t` the wrapped transport,
      whatever was there before. */
  function WithTransport(t: RoundTripper): ContextTransportOption
  {
    _ => t
  }

  lemma WithTransportOverrides(t: RoundTripper, before: RoundTripper)
    ensures WithTransport(t)(before) == t
  {
  }

  /** The identifier `RoundTrip` sends: the context's, or the fresh one when
      the context carries none. */
  function RequestIDFor(contextID: string, freshID: string): string
  {
    if contextID != "" then contextID else freshID
  }

  /** What `request.NewID` returns in the `k`-th decorator a request passes
      through (each decorator calls it afresh). */
  type IDSource = nat -> string

  /** The request as one decorator passes it on: exactly one more value under
      the request-ID header, after those already present; every other header
      and every other part of the request as it was. */
  function WithRequestID(r: RequestData, freshID: string): (s: RequestData)
    ensures HeaderValues(s.header, RequestIDHeader)
            == HeaderValues(r.header, RequestIDHeader) + [RequestIDFor(r.contextID, freshID)]
    ensures s.header.Keys == r.header.Keys + {RequestIDHeader}
    ensures forall name :: name != RequestIDHeader ==> HeaderValues(s.header, name) == HeaderValues(r.header, name)
    ensures s.verb == r.verb && s.url == r.url && s.body == r.body && s.contextID == r.contextID
  {
    r.(header := AddHeader(r.header, RequestIDHeader, RequestIDFor(r.contextID, freshID)))
  }

  class ContextTransport {
    var transport: RoundTripper

    /** The struct literal of `NewContextTransport`. */
    constructor ()
      ensures transport == DefaultTransport
    {
      transport := DefaultTransport;
    }

    /** `o(c)` for an option `o`. */
    method ApplyOption(o: ContextTransportOption)
      modifies this
      ensures transport == o(old(transport))
    {
      transport := o(transport);
    }

    /** `RoundTrip`: stamp the correlation identifier on the request in place,
        then hand that same request to the wrapped transport and return its
        answer unchanged. When the wrapped transport is itself a decorator,
        that is its own `RoundTrip`, which stamps once more. `chain` lists the
        decorators below this one; that such a finite list exists rules out a
        decorator that wraps itself, on which Go recurses without end. */
    method RoundTrip(req: Request, net: Network, newIDs: IDSource, k: nat, ghost chain: seq<ContextTransport>)
      returns (r: Result<ResponseData, string>)
      requires IsChain(transport, chain)
      modifies req
      ensures req.Snapshot() == Delivered(transport, WithRequestID(old(req.Snapshot()), newIDs(k)), newIDs, k + 1, chain)
      ensures r == net.exchange(Receiver(transport, chain), req.Snapshot())
      decreases |chain|
    {
      var id := req.contextID;
      if id == "" {
        id := newIDs(k);
      }
      req.Add(RequestIDHeader, id);
      if transport.Contextual? {
        r := transport.decorator.RoundTrip(req, net, newIDs, k + 1, chain[1..]);
      } else {
        r := net.exchange(transport, req.Snapshot());
      }
    }
  }

  /** `NewContextTransport(opts...)`: start from the platform transport, then
      apply the options in order. */
  method NewContextTransport(opts: seq<ContextTransportOption>) returns (c: ContextTransport)
    ensures fresh(c)
    ensures c.transport == Modifiers.ApplyAll(DefaultTransport, opts)
  {
    c := new ContextTransport();
    for i := 0 to |opts|
      invariant c.transport == Modifiers.ApplyAll(DefaultTransport, opts[..i])
    {
      c.ApplyOption(opts[i]);
      Modifiers.ApplyAllSnoc(DefaultTransport, opts[..i], opts[i]);
      assert opts[..i + 1] == opts[..i] + [opts[i]];
    }
    assert opts[..|opts|] == opts;
  }

  /** Of several `WithTransport` options the last one decides the wrapped
      transport. */
  lemma {:induction false} LastWithTransportWins(opts: seq<ContextTransportOption>, t: RoundTripper)
    ensures Modifiers.ApplyAll(DefaultTransport, opts + [WithTransport(t)]) == t
  {
    Modifiers.ApplyAllSnoc(DefaultTransport, opts, WithTransport(t));
  }

  /** Go's `http.Client`: the timeout (in nanoseconds) and the transport. */
  datatype HttpClient = HttpClient(timeout: int, transport: RoundTripper)

  /** `chain` is the list of decorators met when following `t` through the
      transports each one wraps, down to the first transport that is not a
      decorator. */
  ghost predicate IsChain(t: RoundTripper, chain: seq<ContextTransport>)
    reads chain
    decreases |chain|
  {
    if t.Contextual? then |chain| > 0 && chain[0] == t.decorator && IsChain(chain[0].transport, chain[1..])
    else chain == []
  }

  /** The transport that finally receives a request sent through `t`: each
      decorator passes it to the transport it wraps. */
  ghost function Receiver(t: RoundTripper, chain: seq<ContextTransport>): RoundTripper
    requires IsChain(t, chain)
    reads chain
    decreases |chain|
  {
    if t.Contextual? then Receiver(chain[0].transport, chain[1..]) else t
  }

  /** The request as `Receiver(t, chain)` gets it: stamped once by every
      decorator on the way, the `k`-th one drawing on `newIDs(k)`. */
  ghost function Delivered(t: RoundTripper, r: RequestData, newIDs: IDSource, k: nat,
                           chain: seq<ContextTransport>): RequestData
    requires IsChain(t, chain)
    reads chain
    decreases |chain|
  {
    if t.Contextual? then Delivered(chain[0].transport, WithRequestID(r, newIDs(k)), newIDs, k + 1, chain[1..])
    else r
  }

  /** The identifiers `n` decorators add, starting at the `k`-th. */
  function StampedIDs(contextID: string, newIDs: IDSource, k: nat, n: nat): seq<string>
  {
    seq(n, i requires 0 <= i < n => RequestIDFor(contextID, newIDs(k + i)))
  }

  /** Every decorator on the way adds exactly one request-ID value, after the
      values already present; when the context carries an ID, every value
      added is that ID. No other header and no other part of the request
      changes. */
  lemma {:induction false} DeliveredStampsEachLayer(t: RoundTripper, r: RequestData, newIDs: IDSource, k: nat,
                                                     chain: seq<ContextTransport>, name: string)
    requires IsChain(t, chain)
    ensures var s := Delivered(t, r, newIDs, k, chain);
            && HeaderValues(s.header, RequestIDHeader)
               == HeaderValues(r.header, RequestIDHeader) + StampedIDs(r.contextID, newIDs, k, |chain|)
            && (name != RequestIDHeader ==> HeaderValues(s.header, name) == HeaderValues(r.header, name))
            && s.verb == r.verb && s.url == r.url && s.body == r.body && s.contextID == r.contextID
    decreases |chain|
  {
    if t.Contextual? {
      var r' := WithRequestID(r, newIDs(k));
      DeliveredStampsEachLayer(chain[0].transport, r', newIDs, k + 1, chain[1..], name);
      var ids := StampedIDs(r.contextID, newIDs, k, |chain|);
      assert ids == [RequestIDFor(r.contextID, newIDs(k))] + StampedIDs(r.contextID, newIDs, k + 1, |chain| - 1);
      assert HeaderValues(r'.header, name) == HeaderValues(r.header, name) || name == RequestIDHeader;
    }
  }

  /** A client's default decorator, over the platform transport, forms a
      chain of one and stamps one value. */
  lemma SingleDecoratorStampsOnce(ct: ContextTransport, r: RequestData, newIDs: IDSource)
    requires ct.transport == DefaultTransport
    ensures IsChain(Contextual(ct), [ct])
    ensures HeaderValues(Delivered(Contextual(ct), r, newIDs, 0, [ct]).header, RequestIDHeader)
            == HeaderValues(r.header, RequestIDHeader) + [RequestIDFor(r.contextID, newIDs(0))]
  {
    assert [ct][1..] == [];
  }

  /** A decorator over a decorator stamps twice: with an ID `c` in the
      context the request leaves with `c` twice under the request-ID header. */
  lemma NestedDecoratorsStampTwice(outer: ContextTransport, inner: ContextTransport, r: RequestData, newIDs: IDSource)
    requires outer.transport == Contextual(inner) && inner.transport == DefaultTransport
    requires r.contextID != "" && RequestIDHeader !in r.header
    ensures IsChain(Contextual(outer), [outer, inner])
    ensures HeaderValues(Delivered(Contextual(outer), r, newIDs, 0, [outer, inner]).header, RequestIDHeader)
            == [r.contextID, r.contextID]
  {
    assert [outer, inner][1..] == [inner];
    assert [inner][1..] == [];
    DeliveredStampsEachLayer(Contextual(outer), r, newIDs, 0, [outer, inner], RequestIDHeader);
  }

  /** The transport's answer to a request sent through `hc`. */
  ghost function Dispatch(hc: HttpClient, r: RequestData, net: Network, newIDs: IDSource,
                          chain: seq<ContextTransport>): Result<ResponseData, string>
    requires IsChain(hc.transport, chain)
    reads chain
  {
    net.exchange(Receiver(hc.transport, chain), Delivered(hc.transport, r, newIDs, 0, chain))
  }

  /** `hc.Do(req)` reduced to one round trip through `hc`'s transport. */
  method Send(hc: HttpClient, req: Request, net: Network, newIDs: IDSource, ghost chain: seq<ContextTransport>)
    returns (r: Result<ResponseData, string>)
    requires IsChain(hc.transport, chain)
    modifies req
    ensures req.Snapshot() == Delivered(hc.transport, old(req.Snapshot()), newIDs, 0, chain)
    ensures r == Dispatch(hc, old(req.Snapshot()), net, newIDs, chain)
  {
    if hc.transport.Contextual? {
      r := hc.transport.decorator.RoundTrip(req, net, newIDs, 0, chain[1..]);
    } else {
      r := net.exchange(hc.transport, req.Snapshot());
    }
  }
}
