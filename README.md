# kubernetes-event-exporter core, modelled in Dafny

This project models the per-event logic of kubernetes-event-exporter and
proves properties of it. It covers three parts:

- **The event watcher** (`pkg/kube/watcher.go`). For each add or update
  notification, the watcher picks the event's most recent timestamp and
  applies the maximum-age filter. It counts processed and discarded events.
  For a kept event it copies the event without its managed fields, enriches
  the involved object through the metadata provider, and calls the handler.
- **The Loki sink** (`pkg/sinks/loki.go`). It checks for the template
  pattern, builds the nanosecond timestamp string, renders stream labels and
  headers, decides basic auth, and accepts a response only on a 2xx status.
- **The Teams sink** (`pkg/sinks/teams.go`). It builds the two-key webhook
  body and classifies the outcome of a send.

Files:

- `wrappers.dfy`: `Option` and `Result`.
- `gotime.dfy`: the parts of Go's `time` package used here. A `Time` counts
  nanoseconds from Go's zero instant (January 1 of year 1, UTC), so `IsZero`
  means `t == 0`, and `Since` of a zero time saturates as Go's `Sub` does.
  `Duration` is an int64 count of nanoseconds. The product
  `time.Second * time.Duration(seconds)` wraps around like int64 arithmetic.
- `text.dfy`: `strings.Contains` and base-10 `strconv.FormatInt`, with a
  parser as the round-trip partner of FormatInt.
- `kube.dfy`: the Event, ObjectReference, metadata and EnhancedEvent records.
- `watcher.dfy`: the age filter and enrichment as functions, plus
  `Step`/`Run`, a specification of what the watcher does to its counters,
  its handler log and its lookup log. The `EventWatcher` class has the
  counters, the start-up time, the maximum age and the omit-lookup flag as
  fields. Handler calls and metadata-provider calls are kept in ghost logs.
  Each notification method is proved to update the state exactly as `Step`
  says.
- `sinks.dfy`: what the sinks share. This covers `http.Header` Add/Set, the
  request, the response, the HTTP client as caller-supplied functions, and
  the send error.
- `loki.dfy`, `teams.dfy`: the two sinks. The Go `range` loops over the
  stream labels and the headers are `while` loops over a shrinking key set.

Inputs the Go code takes from its environment are parameters here:

- the clock reading `now`;
- the metadata provider, which returns metadata, NotFound or another error;
- `serializeEventWithLayout`, with its layout bound in;
- `GetString`;
- the Teams JSON-decode-and-format step;
- `http.NewRequest`'s URL check;
- `client.Do`, together with reading the response body.

The model follows the code. In particular:

- The fallback timestamp is `EventTime`. `FirstTimestamp` is never used.
- The discard counter only counts discarded events whose timestamp is after
  the start-up time. Backlog events are dropped without being counted.
- A lookup error other than NotFound leaves `Deleted` false. Only NotFound
  sets it.

## Model

| member | source | states |
|---|---|---|
| GoTime.Sub | pkg/kube/watcher.go:84 | the age is the exact difference when it fits in an int64 Duration, otherwise the saturated bound |
| GoTime.SecondsToDuration | pkg/kube/watcher.go:46 | the maximum age is the configured seconds times one second whenever that product fits in int64; in every case it is the int64 value congruent to that product modulo 2^64 (the wrapped product) |
| GoTime.HugeMaxAgeWrapsNegative | pkg/kube/watcher.go:46 | every maximum age from 9223372037 to 18446744073 seconds wraps to the product minus 2^64, a negative Duration |
| GoTime.SinceMonotonic | pkg/kube/watcher.go:84 | an event's age never decreases as the clock advances |
| Text.ContainsIff | pkg/sinks/loki.go:60 | Contains(s, sub) holds exactly when sub occurs at some position of s |
| Text.NatToStringCanonical | pkg/sinks/loki.go:55 | the decimal rendering of a natural number is non-empty, all digits, has no leading zero and denotes the number |
| Text.FormatIntRoundTrip | pkg/sinks/loki.go:55 | parsing FormatInt(n) gives back n, negative numbers included |
| Text.TrailingZeros | pkg/sinks/loki.go:55 | appending k zero digits multiplies a digit string's value by 10^k |
| Watcher.MostRecentTimestamp | pkg/kube/watcher.go:75-83 | the series' last observation wins when the series exists and that time is non-zero; otherwise a non-zero LastTimestamp; otherwise EventTime; the result is zero only when all three candidates are zero |
| Watcher.Judge | pkg/kube/watcher.go:84-98 | an event is discarded iff its age is strictly greater than the maximum; a discard is counted iff its timestamp is after the start-up time |
| Watcher.Enhance | pkg/kube/watcher.go:115-138 | the copy has ManagedFields cleared and every other event field kept; the reference is always the event's involved object; omitted lookup gives empty metadata and not deleted; a lookup error gives empty metadata and deleted iff NotFound; a successful lookup copies labels, annotations, owners and deleted |
| Watcher.StepEffect | pkg/kube/watcher.go:101-141 | a discarded event changes only the discard counter, by one iff counted; a kept event adds one to the processed counter, one handler call with its EnhancedEvent, and one provider call unless lookups are omitted |
| Watcher.RunAccounting | pkg/kube/watcher.go:101-141 | over a stream of notifications, the processed counter grows by the number of kept events and the discard counter by the number of counted discards; the handler receives exactly the kept events, each enhanced with the provider's answer at its own moment (the provider may answer differently from one event to the next), in order; the provider is asked once per kept event, and never when lookups are omitted |
| Watcher.RunCounters | pkg/kube/watcher.go:88-113 | the counter half of RunAccounting |
| Watcher.RunLogs | pkg/kube/watcher.go:113-141 | the handler-log and lookup-log half of RunAccounting, for a provider whose answers may change along the stream |
| Watcher.RunHandled | pkg/kube/watcher.go:115-141 | the handler receives exactly the kept events, each enhanced with the provider's answer at its own moment, in order |
| Watcher.RunLookups | pkg/kube/watcher.go:120-123 | the provider is asked about the involved object of each kept event, in order, and never when lookups are omitted |
| Watcher.CountersBoundedByStream | pkg/kube/watcher.go:94-113 | no event bumps both counters, so together they grow by at most the number of notifications |
| Watcher.AgeAtLimitKept | pkg/kube/watcher.go:85 | an age exactly equal to the maximum is kept |
| Watcher.BacklogDiscardsUncounted | pkg/kube/watcher.go:88-95 | an event whose timestamp is at or before the start-up time is never a counted discard |
| Watcher.TimelessEventDropped | pkg/kube/watcher.go:76-96 | an event with no timestamp set has a saturated age, so it is discarded and not counted |
| Watcher.NegativeMaxAgeDiscardsAll | pkg/kube/watcher.go:46-85 | with a configured maximum age in the wrapping range, every event whose timestamp is not in the future is discarded |
| Watcher.FirstTimestampIgnored | pkg/kube/watcher.go:75-83 | changing FirstTimestamp changes neither the chosen timestamp nor the verdict |
| Watcher.KeepMonotonic | pkg/kube/watcher.go:84-85 | an event kept at some clock reading is kept at any earlier reading and under any larger maximum age |
| Watcher.EventWatcher.constructor | pkg/kube/watcher.go:35-50 | the maximum age is the configured seconds converted to a Duration; the omit-lookup flag is stored; counters and logs start empty |
| Watcher.EventWatcher.OnWatchError | pkg/kube/watcher.go:54-56 | the watch-error counter goes up by one |
| Watcher.EventWatcher.IsEventDiscarded | pkg/kube/watcher.go:74-99 | returns the age filter's verdict and bumps the discard counter by one exactly for a counted discard |
| Watcher.EventWatcher.OnEvent | pkg/kube/watcher.go:101-142 | the counters, the handler log and the lookup log change exactly as Step says |
| Watcher.EventWatcher.OnAdd | pkg/kube/watcher.go:61-64 | processes the added event exactly as OnEvent does |
| Watcher.EventWatcher.OnUpdate | pkg/kube/watcher.go:66-71 | processes the new object exactly as OnEvent does; the old object plays no part |
| Watcher.EventWatcher.OnDelete | pkg/kube/watcher.go:144-146 | changes nothing |
| Watcher.EventWatcher.SetStartUpTime | pkg/kube/watcher.go:161-163 | the start-up time becomes the given time |
| Sinks.AddAll | pkg/sinks/teams.go:56-58 | adding each configured header once keeps the existing keys, appends exactly one value to each configured key, and leaves the other keys alone |
| Loki.TimestampIsUnixNanoseconds | pkg/sinks/loki.go:54-56 | the timestamp is the decimal Unix seconds followed by exactly nine '0' characters, and it parses to the Unix time in nanoseconds, truncated to the second |
| Loki.ContainsTemplatePatternIff | pkg/sinks/loki.go:58-61 | a value is a template iff "{{" occurs somewhere in it and "}}" occurs somewhere in it |
| Loki.ReversedDelimitersCount | pkg/sinks/loki.go:59-61 | the order of the delimiters does not matter: "}}x{{" counts as a template as well as "{{x}}" |
| Loki.StreamLabelValue | pkg/sinks/loki.go:73-86 | a non-template value is used unchanged; a template value becomes its rendering, or stays as configured when rendering fails |
| Loki.StreamLabels | pkg/sinks/loki.go:71-87 | the processed labels have exactly the configured keys, each with its processed value |
| Loki.PlainLabelsUnchanged | pkg/sinks/loki.go:83-86 | when no configured value is a template, the processed labels equal the configured ones |
| Loki.HeaderValue | pkg/sinks/loki.go:111-120 | a header value becomes its rendering, or stays as configured when rendering fails |
| Loki.HeadersIgnoreTemplateTest | pkg/sinks/loki.go:111-120 | a header value is rendered even without template syntax, while a stream label with the same value is left unchanged |
| Loki.BasicAuth | pkg/sinks/loki.go:106-109 | basic auth is used iff both username and password are non-empty, and then with exactly those credentials |
| Loki.CheckResponse | pkg/sinks/loki.go:122-139 | success iff the exchange succeeded, the body was read, and the status is in [200, 300); otherwise a transport, body-read or status error, in that order of precedence |
| Loki.ProcessStreamLabels | pkg/sinks/loki.go:70-87 | the label loop yields exactly the processed stream labels |
| Loki.AddConfiguredHeaders | pkg/sinks/loki.go:111-120 | the header loop adds exactly the rendered value of each configured header once |
| Loki.Loki.constructor | pkg/sinks/loki.go:43-52 | the sink keeps its configuration |
| Loki.Loki.Send | pkg/sinks/loki.go:63-140 | a serialization error is returned and no request is built; a rejected URL is an error and nothing is sent; otherwise exactly one POST to the configured URL is sent. That POST has the processed labels, one value pair (timestamp, serialized event), the Content-Type plus rendered headers, and basic auth as BasicAuth says. The outcome is CheckResponse of the exchange |
| Teams.RequestBody | pkg/sinks/teams.go:43-46 | the body has exactly the keys "summary" and "text", with "summary" = "event" and "text" = the formatted output |
| Teams.CheckResponse | pkg/sinks/teams.go:60-81 | a transport error yields no error; a body-read error is returned whatever the status; any status other than 200 is an error; a 200 is an error iff the body contains the 429 rate-limit notice; an error only ever comes from a completed exchange |
| Teams.OtherSuccessStatusRejected | pkg/sinks/teams.go:73-75 | a 2xx status other than 200 is an error |
| Teams.RateLimitNoticeRejected | pkg/sinks/teams.go:77-79 | a 200 whose body contains the rate-limit notice anywhere is a rate-limit error |
| Teams.AddConfiguredHeaders | pkg/sinks/teams.go:56-58 | the header loop adds each configured header's value unchanged, once |
| Teams.Teams.constructor | pkg/sinks/teams.go:21-23 | the sink keeps its configuration |
| Teams.Teams.Close | pkg/sinks/teams.go:29-31 | changes nothing |
| Teams.Teams.Send | pkg/sinks/teams.go:33-82 | a serialization error is returned and no request is built; a rejected URL is an error and nothing is sent; otherwise exactly one POST to the endpoint is sent, with the two-key body and the Content-Type plus configured headers. The outcome is CheckResponse of the exchange |

## Left out

- Informer, reflector, `Start`/`Stop`, the WaitGroup, the stopper channel and goroutines: concurrency and client-library plumbing.
- The metadata cache (`NewObjectMetadataProvider`, `GetObjectMetadata`): its code is not part of this model. It is a function that returns metadata, NotFound or another error. Caching and request coalescing are not modelled.
- `pkg/metrics/metrics.go`: Prometheus registration and the HTTP endpoint are I/O. The counters are `nat` fields of the watcher, starting at zero. The real counters live in a `metrics.Store` that several watchers can share.
- `pkg/exporter/router.go` and `pkg/exporter/receivers.go`: a delegation to a routing tree whose code is not part of this model, and a bare interface. Routing, the receiver registry and fan-out are not modelled.
- Watcher.EventWatcher.constructor: the namespace, cache size, clients and informer registration are not modelled.
- The start-up time is a package-level variable, so every watcher in a process shares it. Here it is a field of each watcher.
- Watcher.EventWatcher.OnAdd and OnUpdate take an `Event` directly. The type assertion `obj.(*corev1.Event)`, which panics on any other type, is not modelled.
- Deep copies and aliasing: events are values here. So "the incoming event is not modified" holds by construction. What is proved is that the copy has ManagedFields cleared and equals the event in every other field.
- Event, ObjectReference and other Kubernetes records keep only the fields the core reads or copies.
- Go's monotonic clock readings and time zones. A `Time` is a plain count of nanoseconds.
- All zerolog logging, including the warning emitted for a counted discard.
- The Loki TLS setup in `NewLoki` and `Loki.Close` (`CloseIdleConnections`): foreign transport code.
- `json.Marshal` of the Loki message and of the Teams body: both are maps and slices of strings, which Marshal always encodes. The payload is kept as a structured value, and the marshal error branch is not modelled.
- `http.NewRequest` is modelled only by whether it accepts the URL.
- Header keys are stored as configured. Go's canonicalisation of header keys (`CanonicalMIMEHeaderKey`) is not modelled, so differently-cased keys are not merged.
- Loki.Loki.Send: `SetBasicAuth` is modelled as a credentials field of the request, not as a base64-encoded `Authorization` header. A configured `Authorization` header is therefore not combined with it.
- Error values are constructors of `SendError`. The text of Go's messages (for example "not successfull (2xx) response: " + body) is not modelled beyond the body it carries.
- Teams: `json.Unmarshal` of the serialized event and the `Sprintf` of its message, reason and metadata are one caller-supplied function.
- `strings.Contains` works on bytes in Go and on characters here. For the ASCII delimiters and the rate-limit notice, the two agree on valid UTF-8 text.
- The model's `ParseInt`, the round-trip partner of FormatInt, has no int64 range check.
