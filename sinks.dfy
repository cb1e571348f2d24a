/**
 * What the Loki and Teams sinks share: Go's http.Header operations, the
 * request a sink hands to the HTTP client, the client itself (as
 * functions supplied by the caller), and the error a Send returns.
 */
module Sinks {
  import opened Wrappers
  import opened Kube

  /** http.Header: each key maps to its list of values. */
  type Header = map<string, seq<string>>

  /** Header.Add: append a value to the key's list. */
  function HeaderAdd(h: Header, key: string, value: string): Header {
    h[key := (if key in h then h[key] else []) + [value]]
  }

  /** Header.Set: replace the key's list by the single value. */
  function HeaderSet(h: Header, key: string, value: string): Header {
    h[key := [value]]
  }

  /**
   * The header after `Add(k, entries[k])` for every key of `entries`, each
   * once.  Because the keys are distinct the result does not depend on the
   * order in which Go's map iteration visits them.
   */
  function AddAll(h: Header, entries: map<string, string>): (r: Header)
    ensures r.Keys == h.Keys + entries.Keys
    ensures forall k :: k in entries ==> r[k] == (if k in h then h[k] else []) + [entries[k]]
    ensures forall k :: k in h && k !in entries ==> r[k] == h[k]
  {
    map k | k in h.Keys + entries.Keys ::
      if k in entries then (if k in h then h[k] else []) + [entries[k]] else h[k]
  }

  /**
   * A key's values while the keys of `entries` are being added one at a
   * time: the keys still in `remaining` have not been added yet.
   */
  function PartlyAdded(h: Header, entries: map<string, string>, remaining: set<string>, k: string): seq<string>
    requires k in h || (k in entries && k !in remaining)
  {
    if k in entries && k !in remaining then (if k in h then h[k] else []) + [entries[k]] else h[k]
  }

  /** serializeEventWithLayout with the sink's configured layout bound in. */
  type Serializer = EnhancedEvent -> Result<string, string>

  /** Basic-auth credentials as given to SetBasicAuth. */
  datatype Credentials = Credentials(username: string, password: string)

  /** An *http.Request as built by a sink; `body` is the payload before JSON encoding. */
  datatype Request<B> = Request(
    verb: string,
    url: string,
    header: Header,
    basicAuth: Option<Credentials>,
    body: B)

  /** A response: its status code and the outcome of reading its body. */
  datatype Response = Response(statusCode: int, body: Result<string, string>)

  /**
   * The HTTP side of a Send: whether http.NewRequest accepts the URL, and
   * what client.Do does with a request (a response or a transport error).
   */
  datatype Client<!B> = Client(urlParses: string -> bool, roundTrip: Request<B> -> Result<Response, string>)

  /** The errors a sink's Send returns. */
  datatype SendError =
    | Serialization(message: string)
    | BadRequest(url: string)
    | Transport(message: string)
    | BodyRead(message: string)
    | NotSuccessful(body: string)
    | Not200(body: string)
    | RateLimited(body: string)

  /** What Send returns: nil, or an error. */
  datatype Outcome = Ok | Err(error: SendError)
}
