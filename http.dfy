/** The parts of Go's net/http that the client relies on: byte strings, the
    reason-phrase table, header maps, and the request and response objects. */
module Http {
  import opened Wrappers

  newtype byte = x: int | 0 <= x < 256

  type Bytes = seq<byte>

  /** Go's `string(b)`: a Go string is the byte sequence itself; here each byte
      is spelled as the character with the same code. */
  function BytesToString(b: Bytes): string
  {
    seq(|b|, i requires 0 <= i < |b| => b[i] as char)
  }

  /** The bytes of a string whose characters all fit in one byte. */
  function Latin1Bytes(s: string): Bytes
    requires forall i :: 0 <= i < |s| ==> s[i] as int < 256
  {
    seq(|s|, i requires 0 <= i < |s| => s[i] as int as byte)
  }

  /** `BytesToString` loses nothing: it is undone by `Latin1Bytes`. */
  lemma BytesToStringRoundTrip(b: Bytes)
    ensures Latin1Bytes(BytesToString(b)) == b
  {
  }

  lemma Latin1BytesRoundTrip(s: string)
    requires forall i :: 0 <= i < |s| ==> s[i] as int < 256
    ensures BytesToString(Latin1Bytes(s)) == s
  {
  }

  /** Go's `http.StatusText`: the reason phrase of section 15 of RFC 9110 (and
      of the few registered extensions Go lists) for a status code, or the
      empty string for a code it does not know. Go keeps the older phrases for
      413, 414, 416 and 422. */
  function StatusText(code: int): (phrase: string)
    ensures phrase != "" ==> 100 <= code < 600
  {
    match code
    case 100 => "Continue"
    case 101 => "Switching Protocols"
    case 102 => "Processing"
    case 103 => "Early Hints"
    case 200 => "OK"
    case 201 => "Created"
    case 202 => "Accepted"
    case 203 => "Non-Authoritative Information"
    case 204 => "No Content"
    case 205 => "Reset Content"
    case 206 => "Partial Content"
    case 207 => "Multi-Status"
    case 208 => "Already Reported"
    case 226 => "IM Used"
    case 300 => "Multiple Choices"
    case 301 => "Moved Permanently"
    case 302 => "Found"
    case 303 => "See Other"
    case 304 => "Not Modified"
    case 305 => "Use Proxy"
    case 307 => "Temporary Redirect"
    case 308 => "Permanent Redirect"
    case 400 => "Bad Request"
    case 401 => "Unauthorized"
    case 402 => "Payment Required"
    case 403 => "Forbidden"
    case 404 => "Not Found"
    case 405 => "Method Not Allowed"
    case 406 => "Not Acceptable"
    case 407 => "Proxy Authentication Required"
    case 408 => "Request Timeout"
    case 409 => "Conflict"
    case 410 => "Gone"
    case 411 => "Length Required"
    case 412 => "Precondition Failed"
    case 413 => "Request Entity Too Large"
    case 414 => "Request URI Too Long"
    case 415 => "Unsupported Media Type"
    case 416 => "Requested Range Not Satisfiable"
    case 417 => "Expectation Failed"
    case 418 => "I'm a teapot"
    case 421 => "Misdirected Request"
    case 422 => "Unprocessable Entity"
    case 423 => "Locked"
    case 424 => "Failed Dependency"
    case 425 => "Too Early"
    case 426 => "Upgrade Required"
    case 428 => "Precondition Required"
    case 429 => "Too Many Requests"
    case 431 => "Request Header Fields Too Large"
    case 451 => "Unavailable For Legal Reasons"
    case 500 => "Internal Server Error"
    case 501 => "Not Implemented"
    case 502 => "Bad Gateway"
    case 503 => "Service Unavailable"
    case 504 => "Gateway Timeout"
    case 505 => "HTTP Version Not Supported"
    case 506 => "Variant Also Negotiates"
    case 507 => "Insufficient Storage"
    case 508 => "Loop Detected"
    case 510 => "Not Extended"
    case 511 => "Network Authentication Required"
    case _ => ""
  }

  /** A header map: each name holds the list of its values, in order. Names
      are used already in canonical form, so Go's key canonicalisation is the
      identity here. */
  type Header = map<string, seq<string>>

  /** Go's `Header.Values`: the values held for `name`, none if absent. */
  function HeaderValues(h: Header, name: string): seq<string>
  {
    if name in h then h[name] else []
  }

  /** Go's `Header.Set`: `name` now holds exactly `value`; nothing else changes. */
  function SetHeader(h: Header, name: string, value: string): (r: Header)
    ensures HeaderValues(r, name) == [value]
    ensures r.Keys == h.Keys + {name}
    ensures forall k :: k in h && k != name ==> r[k] == h[k]
  {
    h[name := [value]]
  }

  /** Go's `Header.Add`: one more value at the end of `name`'s list; the other
      names keep their values. */
  function AddHeader(h: Header, name: string, value: string): (r: Header)
    ensures HeaderValues(r, name) == HeaderValues(h, name) + [value]
    ensures r.Keys == h.Keys + {name}
    ensures forall k :: k in h && k != name ==> r[k] == h[k]
  {
    h[name := HeaderValues(h, name) + [value]]
  }

  /** A parsed absolute URL; its structure is not modelled. */
  datatype Url = Url(text: string)

  /** What a transport sees of a request: method, URL, headers, the encoded
      body if any, and the correlation identifier carried in the request's
      context ("" when the context carries none). */
  datatype RequestData = RequestData(
    verb: string,
    url: Url,
    header: Header,
    body: Option<Bytes>,
    contextID: string)

  /** Go's `*http.Request`: everything but the header is fixed once built. */
  class Request {
    const verb: string
    const url: Url
    const body: Option<Bytes>
    const contextID: string
    var header: Header

    function Snapshot(): (d: RequestData)
      reads this
    {
      RequestData(verb, url, header, body, contextID)
    }

    /** `http.NewRequestWithContext` after its checks: an empty header map. */
    constructor (verb: string, url: Url, body: Option<Bytes>, contextID: string)
      ensures Snapshot() == RequestData(verb, url, map[], body, contextID)
    {
      this.verb := verb;
      this.url := url;
      this.body := body;
      this.contextID := contextID;
      header := map[];
    }

    method Set(name: string, value: string)
      modifies this
      ensures header == SetHeader(old(header), name, value)
    {
      header := SetHeader(header, name, value);
    }

    method Add(name: string, value: string)
      modifies this
      ensures header == AddHeader(old(header), name, value)
    {
      header := AddHeader(header, name, value);
    }
  }

  /** What a transport hands back: the status code and what reading the whole
      body yields (its bytes, or the I/O error it fails with). */
  datatype ResponseData = ResponseData(status: int, body: Result<Bytes, string>)

  /** The error a client response body from `net/http` reports for a read
      after `Close`. */
  const BodyReadAfterClose := "http: read on closed response body"

  /** What `io.ReadAll(res.Body)` yields given the body's state: the error on
      a closed body; once it has been read, the same error again if that read
      failed (the body keeps its first read error) and nothing more if it
      succeeded; and otherwise its content. */
  function ReadOutcome(consumed: bool, closed: bool, content: Result<Bytes, string>): Result<Bytes, string>
  {
    if closed then Failure(BodyReadAfterClose)
    else if consumed && content.Success? then Success([])
    else content
  }

  /** Go's `*http.Response` with its body stream: one full read consumes it,
      and `Close` releases it. */
  class Response {
    const status: int
    const content: Result<Bytes, string>
    var consumed: bool
    var closed: bool

    constructor (d: ResponseData)
      ensures status == d.status && content == d.body
      ensures !consumed && !closed
    {
      status := d.status;
      content := d.body;
      consumed := false;
      closed := false;
    }

    /** `io.ReadAll(res.Body)`. */
    method ReadAll() returns (r: Result<Bytes, string>)
      modifies this
      ensures r == ReadOutcome(old(consumed), old(closed), content)
      ensures consumed && closed == old(closed)
    {
      r := ReadOutcome(consumed, closed, content);
      consumed := true;
    }

    /** `res.Body.Close()`. */
    method Close()
      modifies this
      ensures closed && consumed == old(consumed)
    {
      closed := true;
    }
  }
}
