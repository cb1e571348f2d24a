/**
 * The Microsoft Teams sink: one webhook POST per event whose body has a
 * summary and a text, and an outcome rule of its own (transport errors are
 * not reported, only 200 counts, and a 429 notice inside a 200 body is an
 * error).
 */
module Teams {
  import opened Wrappers
  import opened Text
  import opened Kube
  import opened Sinks

  datatype TeamsConfig = TeamsConfig(endpoint: string, headers: map<string, string>)

  /**
   * The text of the card: the serialized event decoded as JSON and its
   * message, reason and metadata formatted into one string.
   */
  type Formatter = string -> string

  /** The notice Teams puts in a 200 response when it throttles the connector. */
  const RATE_LIMIT_MARKER := "Microsoft Teams endpoint returned HTTP error 429"

  /** The JSON object posted: exactly a fixed summary and the formatted text. */
  function RequestBody(output: string): (body: map<string, string>)
    ensures body.Keys == {"summary", "text"}
    ensures body["summary"] == "event" && body["text"] == output
  {
    map["summary" := "event", "text" := output]
  }

  /**
   * The outcome of the exchange: a transport error is swallowed (no error);
   * a body-read error is reported whatever the status; any status but 200
   * is an error; a 200 whose body holds the rate-limit notice is an error.
   */
  function CheckResponse(resp: Result<Response, string>): (r: Outcome)
    ensures resp.Failure? ==> r == Ok
    ensures resp.Success? && resp.value.body.Failure? ==> r == Err(BodyRead(resp.value.body.error))
    ensures resp.Success? && resp.value.body.Success? && resp.value.statusCode != 200 ==>
      r == Err(Not200(resp.value.body.value))
    ensures resp.Success? && resp.value.body.Success? && resp.value.statusCode == 200 ==>
      (r == Ok <==> !exists i :: OccursAt(resp.value.body.value, RATE_LIMIT_MARKER, i))
    ensures r != Ok ==> resp.Success?
  {
    match resp
    case Failure(_) => Ok
    case Success(response) =>
      match response.body
      case Failure(err) => Err(BodyRead(err))
      case Success(message) =>
        ContainsIff(message, RATE_LIMIT_MARKER);
        if response.statusCode != 200 then Err(Not200(message))
        else if Contains(message, RATE_LIMIT_MARKER) then Err(RateLimited(message))
        else Ok
  }

  /** A 2xx status other than 200 is an error here, unlike in the Loki sink. */
  lemma OtherSuccessStatusRejected(status: int, body: string)
    requires 200 < status < 300
    ensures CheckResponse(Success(Response(status, Success(body)))) == Err(Not200(body))
  {
  }

  /** A 200 whose body carries the rate-limit notice anywhere is an error. */
  lemma RateLimitNoticeRejected(before: string, after: string)
    ensures CheckResponse(Success(Response(200, Success(before + RATE_LIMIT_MARKER + after)))) ==
            Err(RateLimited(before + RATE_LIMIT_MARKER + after))
  {
    ContainsInside(before, RATE_LIMIT_MARKER, after);
  }

  /** The header loop of Send: every configured header is added as it is. */
  method AddConfiguredHeaders(header: Header, headers: map<string, string>) returns (h: Header)
    ensures h == AddAll(header, headers)
  {
    h := header;
    var remaining := headers.Keys;
    while remaining != {}
      invariant remaining <= headers.Keys
      invariant h.Keys == header.Keys + (headers.Keys - remaining)
      invariant forall k :: k in h ==> h[k] == PartlyAdded(header, headers, remaining, k)
      decreases remaining
    {
      var k :| k in remaining;
      h := HeaderAdd(h, k, headers[k]);
      remaining := remaining - {k};
    }
    assert forall k :: k in h ==> h[k] == AddAll(header, headers)[k];
  }

  /** The header every request starts from, before the configured ones are added. */
  const BASE_HEADER: Header := HeaderAdd(map[], "Content-Type", "application/json")

  class Teams {
    const cfg: TeamsConfig

    /** NewTeamsSink. */
    constructor (cfg: TeamsConfig)
      ensures this.cfg == cfg
    {
      this.cfg := cfg;
    }

    /** Close does nothing. */
    method Close()
      ensures unchanged(this)
    {
    }

    /**
     * Send: a serialization error returns before any request exists; a URL
     * that NewRequest rejects returns before the client is used; otherwise
     * exactly one POST carrying the two-key body is handed to the client,
     * and the response is judged by CheckResponse.
     */
    method Send(ev: EnhancedEvent, serialize: Serializer, format: Formatter, client: Client<map<string, string>>)
      returns (outcome: Outcome, sent: Option<Request<map<string, string>>>)
      ensures serialize(ev).Failure? ==> outcome == Err(Serialization(serialize(ev).error)) && sent == None
      ensures serialize(ev).Success? && !client.urlParses(cfg.endpoint) ==> outcome == Err(BadRequest(cfg.endpoint)) && sent == None
      ensures sent.Some? <==> serialize(ev).Success? && client.urlParses(cfg.endpoint)
      ensures sent.Some? ==>
        var req := sent.value;
        && req.verb == "POST" && req.url == cfg.endpoint && req.basicAuth == None
        && req.body == RequestBody(format(serialize(ev).value))
        && req.header == AddAll(BASE_HEADER, cfg.headers)
        && outcome == CheckResponse(client.roundTrip(req))
    {
      var event := serialize(ev);
      if event.Failure? {
        return Err(Serialization(event.error)), None;
      }
      var output := format(event.value);
      var reqBody := RequestBody(output);
      if !client.urlParses(cfg.endpoint) {
        return Err(BadRequest(cfg.endpoint)), None;
      }
      var header := BASE_HEADER;
      header := AddConfiguredHeaders(header, cfg.headers);
      var req := Request("POST", cfg.endpoint, header, None, reqBody);
      sent := Some(req);
      var resp := client.roundTrip(req);
      outcome := CheckResponse(resp);
    }
  }
}
