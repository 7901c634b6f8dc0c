/**
 * The slice of Go's `net/http` request that the gateway touches: the header
 * map with its `Get` and `Set`, and the request object whose fields the
 * gateway rewrites in place.
 */
module Http {

  /** http.Header: a header key maps to its list of values. Keys are taken to be canonical already. */
  type HeaderMap = map<string, seq<string>>

  /** Header.Get: the first value stored under `key`, or "" when there is none. */
  function HeaderGet(h: HeaderMap, key: string): (v: string)
    ensures key in h && h[key] != [] ==> v == h[key][0]
    ensures key !in h || h[key] == [] ==> v == ""
  {
    if key in h && h[key] != [] then h[key][0] else ""
  }

  /** Header.Set: `key` now holds exactly the one value `value`; every other key is untouched. */
  function HeaderSet(h: HeaderMap, key: string, value: string): (r: HeaderMap)
    ensures r.Keys == h.Keys + {key}
    ensures r[key] == [value]
    ensures forall k :: k in h && k != key ==> r[k] == h[k]
  {
    h[key := [value]]
  }

  /** Reading back what was just set gives the value set. */
  lemma GetAfterSet(h: HeaderMap, key: string, value: string)
    ensures HeaderGet(HeaderSet(h, key, value), key) == value
  {
  }

  /** A snapshot of the request fields the model tracks. */
  datatype RequestView = RequestView(
    httpMethod: string,
    url: string,
    proto: string,
    protoMajor: int,
    protoMinor: int,
    header: HeaderMap,
    body: seq<bv8>)

  /**
   * http.Request: an object shared by reference. The gateway and the wrapped
   * server both hold the same pointer, so a change made by one is seen by the other.
   */
  class Request {
    var httpMethod: string
    var url: string
    var proto: string       // e.g. "HTTP/1.1"
    var protoMajor: int
    var protoMinor: int
    var header: HeaderMap
    var body: seq<bv8>

    /** The current state of the request as a value. */
    function View(): RequestView
      reads this
    {
      RequestView(httpMethod, url, proto, protoMajor, protoMinor, header, body)
    }
  }
}
