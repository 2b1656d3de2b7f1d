/** HTTP requests as the client builds them, and the JSON-body attachment it applies in place. */
module Requests {
  import opened Common
  import opened Queries

  /** Go's `http.Header`: every header name maps to a list of values. */
  type Header = map<string, seq<string>>

  const ContentType: string := "Content-Type"
  const ApplicationJson: string := "application/json"

  /** A snapshot of a request: HTTP method (verb), scoped path, query parameters (None for nil), headers and body. */
  datatype RequestValue = RequestValue(verb: string, path: string, params: Option<Params>, header: Header, body: Option<Bytes>)

  /** The values held under `key`, none when the header is absent. */
  function HeaderValues(h: Header, key: string): seq<string> {
    if key in h then h[key] else []
  }

  /** `http.Header.Add`: one more value under `key`, every other header as it was. */
  function AddHeader(h: Header, key: string, value: string): (h': Header)
    ensures h'.Keys == h.Keys + {key}
    ensures HeaderValues(h', key) == HeaderValues(h, key) + [value]
    ensures forall k :: k in h && k != key ==> h'[k] == h[k]
  {
    h[key := HeaderValues(h, key) + [value]]
  }

  /** The request after its JSON body is attached: one more Content-Type entry, the new body, nothing else changed. */
  function WithJSONBody(r: RequestValue, body: Bytes): (r': RequestValue)
    ensures r'.verb == r.verb && r'.path == r.path && r'.params == r.params
    ensures r'.header.Keys == r.header.Keys + {ContentType}
    ensures HeaderValues(r'.header, ContentType) == HeaderValues(r.header, ContentType) + [ApplicationJson]
    ensures forall k :: k in r.header && k != ContentType ==> r'.header[k] == r.header[k]
    ensures r'.body == Some(body)
  {
    r.(header := AddHeader(r.header, ContentType, ApplicationJson), body := Some(body))
  }

  /** True of an ASCII string: its UTF-8 encoding, which is what a Go string holds, is one byte per character. */
  predicate IsAscii(s: string) {
    forall i :: 0 <= i < |s| ==> s[i] as int < 128
  }

  /** The UTF-8 bytes of an ASCII string: each character's code, in order. */
  function AsBytes(s: string): (b: Bytes)
    requires IsAscii(s)
    ensures |b| == |s| && forall i :: 0 <= i < |s| ==> b[i] == s[i] as int
  {
    seq(|s|, i requires 0 <= i < |s| => s[i] as int)
  }

  /** Reads ASCII bytes back as text: the partner of AsBytes. */
  function AsText(b: Bytes): string
    requires forall i :: 0 <= i < |b| ==> b[i] < 128
  {
    seq(|b|, i requires 0 <= i < |b| => b[i] as char)
  }

  /** No character of an ASCII string is lost or altered by taking its bytes. */
  lemma AsBytesRoundTrip(s: string)
    requires IsAscii(s)
    ensures AsText(AsBytes(s)) == s
  {
  }

  /** An `*http.Request` whose header and body the client changes in place. */
  class Request {
    var verb: string
    var path: string
    var params: Option<Params>
    var header: Header
    var body: Option<Bytes>

    constructor (verb: string, path: string, params: Option<Params>, header: Header, body: Option<Bytes>)
      ensures Value() == RequestValue(verb, path, params, header, body)
    {
      this.verb := verb;
      this.path := path;
      this.params := params;
      this.header := header;
      this.body := body;
    }

    /** The request as it stands now. */
    function Value(): RequestValue
      reads this
    {
      RequestValue(verb, path, params, header, body)
    }
  }

  /** The snapshot of a created request, or the error its creation reported. */
  function Snapshot(r: Result<Request>): Result<RequestValue>
    reads if r.Ok? then {r.value} else {}
  {
    match r
    case Ok(request) => Ok(request.Value())
    case Err(e) => Err(e)
  }
}
