/**
 * The Loki sink: one push request per event, carrying the configured
 * stream labels (template values rendered) and a nanosecond timestamp.
 */
module Loki {
  import opened Wrappers
  import opened GoTime
  import opened Text
  import opened Kube
  import opened Sinks

  datatype LokiConfig = LokiConfig(
    streamLabels: map<string, string>,
    url: string,
    headers: map<string, string>,
    username: string,
    password: string)

  datatype PromtailStream = PromtailStream(stream: map<string, string>, values: seq<seq<string>>)

  datatype LokiMsg = LokiMsg(streams: seq<PromtailStream>)

  /** GetString: render a template string against an event. */
  type Renderer = (EnhancedEvent, string) -> Result<string, string>

  /** The push timestamp: Unix seconds followed by nine zeros. */
  function GenerateTimestamp(now: Time): string {
    FormatInt(UnixSeconds(now)) + "000000000"
  }

  /**
   * The timestamp string is the current time in Unix nanoseconds, truncated
   * to the second: decimal seconds followed by exactly nine '0' digits.
   */
  lemma TimestampIsUnixNanoseconds(now: Time)
    ensures var s := GenerateTimestamp(now);
      && |s| > 9
      && s[..|s| - 9] == FormatInt(UnixSeconds(now))
      && (forall i :: |s| - 9 <= i < |s| ==> s[i] == '0')
      && ParseInt(s) == Some(UnixSeconds(now) * SECOND)
  {
    NineZeros();
    FormatIntWithZeros(UnixSeconds(now));
  }

  lemma NineZeros()
    ensures "000000000" == Zeros(9)
    ensures Pow10(9) == SECOND
  {
    assert Pow10(3) == 1000;
    assert Pow10(6) == 1000 * Pow10(3) by {
      assert Pow10(6) == 10 * Pow10(5) == 100 * Pow10(4) == 1000 * Pow10(3);
    }
    assert Pow10(9) == 1000 * Pow10(6) by {
      assert Pow10(9) == 10 * Pow10(8) == 100 * Pow10(7) == 1000 * Pow10(6);
    }
  }

  lemma FormatIntWithZeros(n: int)
    ensures var s := FormatInt(n) + Zeros(9);
      && |s| > 9 && s[..|s| - 9] == FormatInt(n)
      && (forall i :: |s| - 9 <= i < |s| ==> s[i] == '0')
      && ParseInt(s) == Some(n * SECOND)
  {
    var m: nat := if n < 0 then -n else n;
    DigitsWithZeros(m);
    ZerosSuffix(FormatInt(n));
    var s := FormatInt(n) + Zeros(9);
    var body := NatToString(m) + Zeros(9);
    if n < 0 {
      assert s == "-" + body;
      assert s[1..] == body;
    } else {
      assert s == body;
      assert s[0] != '-' by { assert IsDigit(body[0]); }
    }
  }

  /** Appending nine zeros keeps the prefix and ends in nine '0' characters. */
  lemma ZerosSuffix(p: string)
    ensures var s := p + Zeros(9);
      && |s| == |p| + 9 && s[..|s| - 9] == p
      && (forall i :: |s| - 9 <= i < |s| ==> s[i] == '0')
  {
    var s := p + Zeros(9);
    assert s[..|s| - 9] == p;
    forall i | |s| - 9 <= i < |s|
      ensures s[i] == '0'
    {
      assert s[i] == Zeros(9)[i - |p|];
    }
  }

  /** A digit string followed by nine zeros denotes the number times 10^9. */
  lemma DigitsWithZeros(m: nat)
    ensures |NatToString(m)| > 0
    ensures AllDigits(NatToString(m) + Zeros(9))
    ensures DigitsValue(NatToString(m) + Zeros(9)) == m * SECOND
  {
    NineZeros();
    NatToStringCanonical(m);
    TrailingZeros(NatToString(m), 9);
  }

  /** containsTemplatePattern: both "{{" and "}}" occur. */
  function ContainsTemplatePattern(s: string): bool {
    Contains(s, "{{") && Contains(s, "}}")
  }

  /** The pattern test looks for each delimiter on its own, in any order. */
  lemma ContainsTemplatePatternIff(s: string)
    ensures ContainsTemplatePattern(s) <==> (exists i :: OccursAt(s, "{{", i)) && (exists j :: OccursAt(s, "}}", j))
  {
    ContainsIff(s, "{{");
    ContainsIff(s, "}}");
  }

  /** Even a closing delimiter before the opening one counts as a template. */
  lemma ReversedDelimitersCount(x: string)
    ensures ContainsTemplatePattern("}}" + x + "{{")
    ensures ContainsTemplatePattern("{{" + x + "}}")
  {
    ContainsInside([], "}}", x + "{{");
    ContainsInside("}}" + x, "{{", []);
    ContainsInside([], "{{", x + "}}");
    ContainsInside("{{" + x, "}}", []);
    assert "}}" + x + "{{" == [] + "}}" + (x + "{{") == ("}}" + x) + "{{" + [];
    assert "{{" + x + "}}" == [] + "{{" + (x + "}}") == ("{{" + x) + "}}" + [];
  }

  /**
   * The value a stream label gets: a template value is rendered, falling
   * back to the configured value when rendering fails; any other value is
   * used unchanged.
   */
  function StreamLabelValue(raw: string, ev: EnhancedEvent, getString: Renderer): (v: string)
    ensures !ContainsTemplatePattern(raw) ==> v == raw
    ensures ContainsTemplatePattern(raw) && getString(ev, raw).Success? ==> v == getString(ev, raw).value
    ensures ContainsTemplatePattern(raw) && getString(ev, raw).Failure? ==> v == raw
  {
    if ContainsTemplatePattern(raw) then
      match getString(ev, raw)
      case Success(processed) => processed
      case Failure(_) => raw
    else raw
  }

  /** The processed stream labels: the configured keys, each with its value processed. */
  function StreamLabels(labels: map<string, string>, ev: EnhancedEvent, getString: Renderer): (r: map<string, string>)
    ensures r.Keys == labels.Keys
    ensures forall k :: k in labels ==> r[k] == StreamLabelValue(labels[k], ev, getString)
  {
    map k | k in labels :: StreamLabelValue(labels[k], ev, getString)
  }

  /** When no configured value looks like a template, the labels pass through unchanged. */
  lemma PlainLabelsUnchanged(labels: map<string, string>, ev: EnhancedEvent, getString: Renderer)
    requires forall k :: k in labels ==> !ContainsTemplatePattern(labels[k])
    ensures StreamLabels(labels, ev, getString) == labels
  {
  }

  /** A header value: always rendered, falling back to the configured value on error. */
  function HeaderValue(raw: string, ev: EnhancedEvent, getString: Renderer): (v: string)
    ensures getString(ev, raw).Success? ==> v == getString(ev, raw).value
    ensures getString(ev, raw).Failure? ==> v == raw
  {
    match getString(ev, raw)
    case Success(realValue) => realValue
    case Failure(_) => raw
  }

  /**
   * Headers, unlike stream labels, are rendered whatever they contain: a
   * value without template syntax that renders to something else is sent
   * rendered as a header but unchanged as a stream label.
   */
  lemma HeadersIgnoreTemplateTest(raw: string, ev: EnhancedEvent, getString: Renderer)
    requires !ContainsTemplatePattern(raw) && getString(ev, raw).Success?
    ensures HeaderValue(raw, ev, getString) == getString(ev, raw).value
    ensures StreamLabelValue(raw, ev, getString) == raw
  {
  }

  function RenderedHeaders(headers: map<string, string>, ev: EnhancedEvent, getString: Renderer): map<string, string> {
    map k | k in headers :: HeaderValue(headers[k], ev, getString)
  }

  /** The header every push starts from, before the configured ones are added. */
  const BASE_HEADER: Header := HeaderSet(map[], "Content-Type", "application/json")

  /** Basic auth is used only when both the username and the password are set. */
  function BasicAuth(cfg: LokiConfig): (auth: Option<Credentials>)
    ensures auth.Some? <==> cfg.username != "" && cfg.password != ""
    ensures auth.Some? ==> auth.value == Credentials(cfg.username, cfg.password)
  {
    if cfg.username != "" && cfg.password != "" then Some(Credentials(cfg.username, cfg.password)) else None
  }

  /** The status check: only a 2xx status with a readable body is a success. */
  function CheckResponse(resp: Result<Response, string>): (r: Outcome)
    ensures r == Ok <==> resp.Success? && resp.value.body.Success? && 200 <= resp.value.statusCode < 300
    ensures resp.Failure? ==> r == Err(Transport(resp.error))
    ensures resp.Success? && resp.value.body.Failure? ==> r == Err(BodyRead(resp.value.body.error))
    ensures resp.Success? && resp.value.body.Success? && !(200 <= resp.value.statusCode < 300) ==>
      r == Err(NotSuccessful(resp.value.body.value))
  {
    match resp
    case Failure(err) => Err(Transport(err))
    case Success(response) =>
      match response.body
      case Failure(err) => Err(BodyRead(err))
      case Success(body) =>
        if !(response.statusCode >= 200 && response.statusCode < 300) then Err(NotSuccessful(body)) else Ok
  }

  /** The stream-label loop of Send. */
  method ProcessStreamLabels(labels: map<string, string>, ev: EnhancedEvent, getString: Renderer)
    returns (processedLabels: map<string, string>)
    ensures processedLabels == StreamLabels(labels, ev, getString)
  {
    processedLabels := map[];
    var remaining := labels.Keys;
    while remaining != {}
      invariant remaining <= labels.Keys
      invariant processedLabels.Keys == labels.Keys - remaining
      invariant forall k :: k in processedLabels ==> processedLabels[k] == StreamLabelValue(labels[k], ev, getString)
      decreases remaining
    {
      var k :| k in remaining;
      var v := labels[k];
      if ContainsTemplatePattern(v) {
        var processed := getString(ev, v);
        if processed.Failure? {
          processedLabels := processedLabels[k := v];
        } else {
          processedLabels := processedLabels[k := processed.value];
        }
      } else {
        processedLabels := processedLabels[k := v];
      }
      remaining := remaining - {k};
    }
  }

  /** The header loop of Send. */
  method AddConfiguredHeaders(header: Header, headers: map<string, string>, ev: EnhancedEvent, getString: Renderer)
    returns (h: Header)
    ensures h == AddAll(header, RenderedHeaders(headers, ev, getString))
  {
    ghost var rendered := RenderedHeaders(headers, ev, getString);
    h := header;
    var remaining := headers.Keys;
    while remaining != {}
      invariant remaining <= headers.Keys
      invariant h.Keys == header.Keys + (headers.Keys - remaining)
      invariant forall k :: k in h ==> h[k] == PartlyAdded(header, rendered, remaining, k)
      decreases remaining
    {
      var k :| k in remaining;
      var v := headers[k];
      var realValue := getString(ev, v);
      var value := if realValue.Failure? then v else realValue.value;
      assert value == rendered[k];
      h := HeaderAdd(h, k, value);
      remaining := remaining - {k};
    }
    assert forall k :: k in h ==> h[k] == AddAll(header, rendered)[k];
  }

  class Loki {
    const cfg: LokiConfig

    /** NewLoki, without the TLS transport. */
    constructor (cfg: LokiConfig)
      ensures this.cfg == cfg
    {
      this.cfg := cfg;
    }

    /**
     * Send: a serialization error returns before any request exists; a URL
     * that NewRequest rejects returns before the client is used; otherwise
     * exactly one POST is handed to the client, and its response decides.
     */
    method Send(ev: EnhancedEvent, now: Time, serialize: Serializer, getString: Renderer, client: Client<LokiMsg>)
      returns (outcome: Outcome, sent: Option<Request<LokiMsg>>)
      ensures serialize(ev).Failure? ==> outcome == Err(Serialization(serialize(ev).error)) && sent == None
      ensures serialize(ev).Success? && !client.urlParses(cfg.url) ==> outcome == Err(BadRequest(cfg.url)) && sent == None
      ensures sent.Some? <==> serialize(ev).Success? && client.urlParses(cfg.url)
      ensures sent.Some? ==>
        var req := sent.value;
        && req.verb == "POST" && req.url == cfg.url
        && req.body == LokiMsg([PromtailStream(StreamLabels(cfg.streamLabels, ev, getString),
                                               [[GenerateTimestamp(now), serialize(ev).value]])])
        && req.header == AddAll(BASE_HEADER, RenderedHeaders(cfg.headers, ev, getString))
        && req.basicAuth == BasicAuth(cfg)
        && outcome == CheckResponse(client.roundTrip(req))
    {
      var eventBody := serialize(ev);
      if eventBody.Failure? {
        return Err(Serialization(eventBody.error)), None;
      }
      var timestamp := GenerateTimestamp(now);
      var processedLabels := ProcessStreamLabels(cfg.streamLabels, ev, getString);
      var a := LokiMsg([PromtailStream(processedLabels, [[timestamp, eventBody.value]])]);
      if !client.urlParses(cfg.url) {
        return Err(BadRequest(cfg.url)), None;
      }
      var header := BASE_HEADER;
      var auth: Option<Credentials> := None;
      if cfg.username != "" && cfg.password != "" {
        auth := Some(Credentials(cfg.username, cfg.password));
      }
      header := AddConfiguredHeaders(header, cfg.headers, ev, getString);
      var req := Request("POST", cfg.url, header, auth, a);
      sent := Some(req);
      var resp := client.roundTrip(req);
      outcome := CheckResponse(resp);
    }
  }
}
