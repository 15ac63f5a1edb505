/**
 * The part of Go's net/http that the client touches: header multimaps
 * (http.Header) and the requests it builds, reduced to method, endpoint,
 * headers and body.
 */
module Http {
  import opened Records

  /** http.Header: header name to the list of its values, in the order added. */
  type Header = map<string, seq<string>>

  /** Header.Values: every value stored under the key, in the order added. */
  function Values(h: Header, key: string): seq<string>
  {
    if key in h then h[key] else []
  }

  /** Header.Get: the first value stored under the key, or "" when there is none. */
  function Get(h: Header, key: string): (r: string)
    ensures |Values(h, key)| > 0 ==> r == Values(h, key)[0]
    ensures |Values(h, key)| == 0 ==> r == ""
  {
    var vs := Values(h, key);
    if |vs| == 0 then "" else vs[0]
  }

  /** Header.Add: appends one value to the key's list and leaves every other key alone. */
  function Add(h: Header, key: string, value: string): (r: Header)
    ensures Values(r, key) == Values(h, key) + [value]
    ensures forall k :: k != key ==> Values(r, k) == Values(h, k)
  {
    h[key := Values(h, key) + [value]]
  }

  /** Header.Set: replaces the key's list by the one value and leaves every other key alone. */
  function Set(h: Header, key: string, value: string): (r: Header)
    ensures Values(r, key) == [value]
    ensures forall k :: k != key ==> Values(r, k) == Values(h, k)
  {
    h[key := [value]]
  }

  /** Get after Add: the added value is seen only when the key had none before; other keys read as before. */
  lemma GetAfterAdd(h: Header, key: string, value: string)
    ensures Get(Add(h, key, value), key) == (if Values(h, key) == [] then value else Get(h, key))
    ensures forall k :: k != key ==> Get(Add(h, key, value), k) == Get(h, k)
  {
  }

  /** Get after Set: the key reads as the value set; other keys read as before. */
  lemma GetAfterSet(h: Header, key: string, value: string)
    ensures Get(Set(h, key, value), key) == value
    ensures forall k :: k != key ==> Get(Set(h, key, value), k) == Get(h, k)
  {
  }

  datatype Verb = GET | POST

  /** The three endpoints the client calls, below the base URL given on the command line. */
  datatype Endpoint =
    | Session                                  // {url}/session
    | HostsPage(limit: nat, offset: nat)       // {url}/service/sites/1/hosts?limit=..&offset=..
    | RealtimeData                             // {url}/service/sites/1/monitors/realtimedata

  /** A request body: none, or the metric query that is sent as a JSON array. */
  datatype Body = NoBody | MonitorPayload(entries: seq<MonitorElement>)

  /** A request as the network sees it when it is handed over. */
  datatype Sent = Sent(verb: Verb, endpoint: Endpoint, header: Header, body: Body)

  /** http.Request: its header map is changed in place by whoever holds the pointer. */
  class Request {
    var header: Header
    const verb: Verb
    const endpoint: Endpoint
    const body: Body

    /** http.NewRequest: an empty header map. */
    constructor (verb: Verb, endpoint: Endpoint, body: Body)
      ensures header == map[]
      ensures this.verb == verb && this.endpoint == endpoint && this.body == body
    {
      this.verb := verb;
      this.endpoint := endpoint;
      this.body := body;
      header := map[];
    }

    function Snapshot(): (s: Sent)
      reads this
      ensures s.header == header && s.verb == verb && s.endpoint == endpoint && s.body == body
    {
      Sent(verb, endpoint, header, body)
    }

    /** req.Header.Add on the request's own map. */
    method AddHeader(key: string, value: string)
      modifies this
      ensures header == Add(old(header), key, value)
    {
      header := Add(header, key, value);
    }

    /** req.Header.Set on the request's own map. */
    method SetHeader(key: string, value: string)
      modifies this
      ensures header == Set(old(header), key, value)
    {
      header := Set(header, key, value);
    }
  }
}
