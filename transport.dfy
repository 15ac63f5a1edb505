/**
 * The authenticating transport wrapped around every request after login, and
 * the process-wide token it reads.
 */
module Transport {
  import opened Http

  const XAuthToken := "X-Auth-Token"
  const AcceptKey := "Accept"
  const ContentTypeKey := "Content-Type"
  const AcceptValue := "application/json;version=8.1;charset=UTF-8"
  const ContentTypeValue := "application/json; charset=UTF-8"

  /** The program's global state that outlives one call: the session token, "" until login. */
  class Process {
    var token: string

    constructor ()
      ensures token == ""
    {
      token := "";
    }
  }

  /**
   * The headers after the transport's three Adds: each of the three names gets
   * one more value at the end of its list, and no other header changes.
   */
  function WithAuthHeaders(h: Header, token: string): (r: Header)
    ensures Values(r, XAuthToken) == Values(h, XAuthToken) + [token]
    ensures Values(r, AcceptKey) == Values(h, AcceptKey) + [AcceptValue]
    ensures Values(r, ContentTypeKey) == Values(h, ContentTypeKey) + [ContentTypeValue]
    ensures forall k :: k != XAuthToken && k != AcceptKey && k != ContentTypeKey ==> Values(r, k) == Values(h, k)
  {
    Add(Add(Add(h, XAuthToken, token), AcceptKey, AcceptValue), ContentTypeKey, ContentTypeValue)
  }

  /** The request as the transport hands it on: the same request with the three headers appended. */
  function Authorized(req: Sent, token: string): (r: Sent)
    ensures r.verb == req.verb && r.endpoint == req.endpoint && r.body == req.body
    ensures r.header == WithAuthHeaders(req.header, token)
  {
    req.(header := WithAuthHeaders(req.header, token))
  }

  /** What RoundTrip does with a request: refuse it, or pass it on to the inner transport. */
  datatype RoundTripOutcome = TokenEmpty | Forwarded(request: Sent)

  /** The outcome of RoundTrip on a request in the state req while the token is token. */
  function RoundTripSpec(req: Sent, token: string): (r: RoundTripOutcome)
    ensures r.TokenEmpty? <==> token == ""
    ensures r.Forwarded? ==>
              && r.request.verb == req.verb && r.request.endpoint == req.endpoint && r.request.body == req.body
              && Values(r.request.header, XAuthToken) == Values(req.header, XAuthToken) + [token]
              && Values(r.request.header, AcceptKey) == Values(req.header, AcceptKey) + [AcceptValue]
              && Values(r.request.header, ContentTypeKey) == Values(req.header, ContentTypeKey) + [ContentTypeValue]
  {
    if token == "" then TokenEmpty else Forwarded(Authorized(req, token))
  }

  /** CustomTransport: adds the session headers, then delegates to the plain transport. */
  class CustomTransport {
    const process: Process

    constructor (process: Process)
      ensures this.process == process
    {
      this.process := process;
    }

    /**
     * With no token the request is refused, untouched, before the inner
     * transport is reached; otherwise the three headers are appended to the
     * request's own map and the request is handed on.
     */
    method RoundTrip(req: Request) returns (out: RoundTripOutcome)
      modifies req
      ensures out == RoundTripSpec(old(req.Snapshot()), process.token)
      ensures process.token == "" ==> req.header == old(req.header)
      ensures process.token != "" ==>
                req.header == WithAuthHeaders(old(req.header), process.token) && out == Forwarded(req.Snapshot())
    {
      if process.token == "" {
        return TokenEmpty;
      }
      req.AddHeader(XAuthToken, process.token);
      req.AddHeader(AcceptKey, AcceptValue);
      req.AddHeader(ContentTypeKey, ContentTypeValue);
      out := Forwarded(req.Snapshot());
    }
  }
}
