# Metrics collector: store, handlers, agent and configuration

A Dafny model of the core of a small Go telemetry system. An agent samples runtime
statistics and pushes them, one HTTP request per metric, to a collector. The
collector keeps every metric in an in-memory store and serves it back.

The model covers:

- **Storage** (`storage.dfy`): the store, a map from metric name to a record
  holding one gauge and one counter. A gauge update replaces the value. A counter
  update adds to it, wrapping like Go's `int64`. A lookup of an absent name
  returns `ErrMetricNotFound`. A name created by one kind of update reads `0`,
  without error, as the other kind. The "all metrics" view omits zero values.
  Nothing is ever removed.
- **Utils** (`utils.dfy`): `sortedMetricKeys`, together with Go's byte-wise
  string order written out (`Less`) and proved a strict total order.
- **Strconv** (`strconv.dfy`): `strconv.ParseInt(s, 10, 64)` and
  `strconv.FormatInt(v, 10)`, which the handlers apply to counters, with the
  round trip proved in both directions.
- **Handlers** (`handlers.dfy`): the four update/read handlers and the listing
  order of the page handler. Each is a pure function from the decoded request and
  the store to the response and the next store. A few lines model what net/http's
  `ResponseWriter` does: the first `WriteHeader` wins, and a `Write` implies 200.
- **Agent** (`agent.dfy`): `New`, the `PollCount` part of `Update`, the 29
  records one `Send` composes, and its stop-at-first-failure loop.
- **AgentConfig / ServerConfig** (`agentconfig.dfy`, `serverconfig.dfy`): the
  "environment overrides flag when set" merge of `NewConfig`, and the
  seconds-to-`time.Duration` conversion, which wraps like any `int64` product.
- Helpers: `Models` (the shared JSON `Metrics` record), `Wrappers` (Option/Result), `GoTypes` (`int64` with two's-complement
  `Wrap`, and `Float64` kept as its bit pattern), `Collections` (distinctness).

Gauge values are IEEE 754 bit patterns. Only two things about them are modelled:
identity, and Go's `f != 0` test (+0 and -0 are zero; a NaN is not). Float parsing,
float formatting and JSON encoding of a reply are function parameters.
The runtime statistics, the random value, the map iteration order and each HTTP
exchange of the agent are inputs.

Behaviour of the code worth knowing:

- A name updated only as a counter reads gauge `0` with no error, and vice versa.
  There is no per-kind "not found".
- Counter accumulation wraps silently in `int64`.
- The store's maps are unordered. Sorting happens only when the listing page is built.
- The store has no lock, so the model is sequential.
- After a JSON decode error, the update handler writes 400 but does not return.
  It then goes on in one of three ways. A gauge or counter record that still holds
  its `Value`/`Delta` updates the store, and the answer is 400. One without it
  dereferences a nil pointer, which the model shows as the `Panicked` outcome.
  net/http recovers that panic by closing the connection, so the buffered 400 is
  never sent and the client gets no response at all. A
  record with any other type, including the empty type of a body that failed to
  decode, gets a second `http.Error` and the handler returns.

The collector's `main` wires only the path handlers and the listing. The JSON
handlers are modelled all the same. Neither `main` calls `NewConfig`.

## Model

| member | source | states |
|---|---|---|
| Storage.MetricCollection.UpdateGauge | internal/storage/storage.go:15-17 | the record's gauge becomes `v` and its counter is kept |
| Storage.MetricCollection.UpdateCounter | internal/storage/storage.go:19-21 | the record's counter becomes old + `v` modulo 2^64 (Go's int64 `+=`) and its gauge is kept |
| Storage.New | internal/storage/storage.go:35-38 | a new store holds no names |
| Storage.UpdateGauge | internal/storage/storage.go:40-51 | adds the name if absent; its gauge becomes `v`; its counter is kept, or 0 for a new name; every other record is unchanged |
| Storage.UpdateCounter | internal/storage/storage.go:53-64 | a new name starts with counter `d` and gauge +0; a present one gets counter = old + `d` wrapped to int64, gauge kept; other records unchanged |
| Storage.GetGauge | internal/storage/storage.go:68-75 | error iff the name is absent, then with value +0; otherwise the stored gauge, also for a counter-only name |
| Storage.GetCounter | internal/storage/storage.go:77-84 | error iff the name is absent, then with value 0; otherwise the stored counter, also for a gauge-only name |
| Storage.GetAllMetrics | internal/storage/storage.go:91-107 | a name is in the gauge map iff it is present with a non-zero gauge, mapped to that gauge; the same for counters |
| Storage.GaugeLastWriteWins | internal/storage/storage.go:40-51 | reading after an update returns the written gauge without error; a second update replaces the first |
| Storage.CounterAccumulates | internal/storage/storage.go:53-64 | on a fresh name, one update reads `d1`, and two updates read `d1 + d2` wrapped to int64 |
| Storage.CrossKindReadsZero | internal/storage/storage.go:40-84 | a name created by a gauge update reads counter 0 without error, and the reverse |
| Storage.UpdatesKeepOtherKind | internal/storage/storage.go:15-21 | a gauge update keeps the name's counter; a counter update keeps its gauge |
| Storage.DomainOnlyGrows | internal/storage/storage.go:40-64 | after any run of updates the names are exactly the old names plus the updated ones |
| Storage.PresentStaysFound | internal/storage/storage.go:68-84 | a name found once is found, as both kinds, after any further updates |
| Storage.ListingAgreesWithLookup | internal/storage/storage.go:91-107 | a listed gauge equals the lookup's value; a present name missing from the listing reads zero |
| Utils.LessIrreflexive | internal/handlers/utils.go:14 | no string sorts before itself |
| Utils.LessTransitive | internal/handlers/utils.go:14 | the string order is transitive |
| Utils.LessTotal | internal/handlers/utils.go:14 | any two distinct strings are ordered one way or the other |
| Utils.SortStrings | internal/handlers/utils.go:14 | sorting distinct strings yields an ascending sequence of the same length and the same elements |
| Utils.SortedMetricKeys | internal/handlers/utils.go:9-16 | the result ascends, has no duplicates, has as many entries as the map, and holds exactly its keys |
| Utils.AscendingUnique | internal/handlers/utils.go:11-14 | two ascending sequences with the same elements are equal, so the listing depends on the key set alone |
| Strconv.ParseInt | internal/handlers/handlers.go:34-38 | accepts iff the text is an optional sign then one or more digits whose value lies in [-2^63, 2^63-1], and yields that value |
| Strconv.FormatInt | internal/handlers/handlers.go:111 | the text is canonical (no `+`, no leading zero, no `-0`) and parses back to the value |
| Strconv.FormatOfParse | internal/handlers/handlers.go:34 | formatting what a canonical numeral parses to gives back the same numeral |
| Strconv.ParseIntRejectsMalformed | internal/handlers/handlers_test.go:58-78 | "Hello", "15.15", the empty string and a lone "-" are rejected; "5" parses to 5 |
| Strconv.ParseIntRange | internal/handlers/handlers_test.go:79-85 | 2^63 (written "9223372036854775808") is rejected; "+" then 2^63-1 is accepted; "-" then 2^63 is the smallest int64 |
| Handlers.MetricHandler | internal/handlers/handlers.go:15-49 | 200 with empty body iff the kind is gauge/counter and its value parses, applying the matching store update; otherwise 400 with the store unchanged |
| Handlers.JSONMetricHandler | internal/handlers/handlers.go:51-75 | a gauge record with a `value` or a counter record with a `delta` is applied to the store whether or not decoding failed, and answered 200 when it did not; an unknown kind is 400 with the store unchanged; a missing field panics with the store unchanged; a served request after a decode error is answered 400, while a panic sends no response |
| Handlers.GetMetricHandle | internal/handlers/handlers.go:77-115 | 404 iff gauge/counter is asked for an absent name; a gauge reads as its formatted text; a counter reads as `FormatInt` of the stored value, text that parses back to it; an unknown kind writes nothing (200, empty) |
| Handlers.ReplyRecord | internal/handlers/handlers.go:140-166 | the reply echoes the request's id and type, and sets `value` only for a gauge and `delta` only for a counter, holding the stored value |
| Handlers.JSONGetMetricHandle | internal/handlers/handlers.go:117-172 | an absent name is 404; a present one answers 200 with the encoded reply record, or 500 if it cannot be encoded; an unknown kind writes nothing; a decode error makes the status 400 |
| Handlers.ListingOrder | internal/handlers/handlers.go:174-186 | the page lists exactly the non-zero gauges and exactly the non-zero counters, each in ascending name order |
| Handlers.CounterPathRoundTrip | internal/handlers/handlers.go:33-111 | a counter updated through the path reads back, with 200, as text that parses to the previous count (0 for a new name) plus the delta, wrapped to int64; on a new name, to the value written |
| Handlers.JSONAgreesWithPath | internal/handlers/handlers.go:23-73 | the JSON update gives the same outcome, status and store as the path update whose text parses to the record's value |
| Handlers.DecodeFailureStillUpdates | internal/handlers/handlers.go:56-64 | after a decode error, a record that still holds a gauge is stored although the answer is 400 |
| Handlers.DecodeFailureStillAdds | internal/handlers/handlers.go:55-66 | after a decode error, a counter record that still holds a delta is added to the store although the answer is 400 |
| Handlers.ReadsAgreeOnNotFound | internal/handlers/handlers.go:84-155 | the path read and the JSON read answer 404 for the same names |
| Agent.New | internal/agent/agent.go:23-27 | a new agent has PollCount 0 |
| Agent.Update | internal/agent/agent.go:29-33 | PollCount grows by one, wrapping only past MaxInt64; the snapshot and random value are replaced |
| Agent.PollCountCountsTicks | internal/agent/agent.go:29-33 | after n updates from `New` (n ≤ MaxInt64), PollCount is n |
| Agent.GaugeMetrics | internal/agent/agent.go:37-65 | the metrics map has exactly the 27 fixed gauge names as keys |
| Agent.GaugeNamesDistinct | internal/agent/agent.go:39-65 | the 27 gauge names are pairwise distinct |
| Agent.Batch | internal/agent/agent.go:100-128 | 29 records: the 27 gauges in exactly the given iteration order with distinct names and their snapshot values, then PollCount as a counter carrying the current count, then RandomValue as a gauge |
| Agent.SendMetric | internal/agent/agent.go:67-98 | a send succeeds iff the exchange produced a 200 response |
| Agent.SendAll | internal/agent/agent.go:100-130 | the attempted records are a prefix of the batch; no error iff all were sent and all succeeded; otherwise the last attempted one failed and its error is returned, and every earlier one succeeded |
| Agent.Send | internal/agent/agent.go:35-131 | nil iff all 29 exchanges succeed; on failure between 1 and 29 records were attempted and the last one failed |
| Agent.FirstFailureStops | internal/agent/agent.go:104-128 | if exchange k is the first failure, exactly the first k+1 records are attempted and that failure is returned |
| Agent.FlushReportsTickCount | internal/agent/agent.go:111-115 | the PollCount record of a flush carries the number of samples taken since start |
| AgentConfig.SecondsToDuration | cmd/agent/config.go:45-46 | the duration is seconds × 10^9 ns, congruent modulo 2^64 and exact while it fits |
| AgentConfig.WrappedIntervalReadsAsUnset | cmd/agent/config.go:26-31 | 2^55 seconds wraps to a zero duration, which the merge treats as unset |
| AgentConfig.ToConfig | cmd/agent/config.go:43-47 | the address is copied and both intervals are converted from seconds |
| AgentConfig.Defaults | cmd/agent/config.go:37-39 | the defaults are localhost:8080, poll 2 s, report 10 s |
| AgentConfig.NewConfig | cmd/agent/config.go:16-34 | an env parse error gives the zero Config and that error; otherwise each field is the env value when set (non-empty or non-zero), else the flag value |
| AgentConfig.MergeExtremes | cmd/agent/config.go:23-31 | an env that sets nothing keeps the flags; an env that sets every field replaces them |
| AgentConfig.OverridesIndependent | cmd/agent/config.go:23-31 | changing one env field changes no other result field |
| ServerConfig.NewConfig | cmd/server/config.go:14-29 | an env parse error gives the zero Config and that error; otherwise a non-empty ADDRESS or LOG_LEVEL replaces the flag value |
| ServerConfig.MergeProperties | cmd/server/config.go:21-33 | defaults are localhost:8080 and info; an empty env keeps the flags; a full env replaces them; each field is overridden independently |

## Left out

- Float numerics: `ParseFloat`, `FormatFloat` and the `float64(uint64)` conversion of the runtime statistics. Gauges are opaque bit patterns; parse and format are parameters.
- JSON decoding, JSON encoding, gzip and HTTP transport are library calls. The handlers take the decoded record and a decode-failed flag; the agent's exchanges are an input sequence of outcomes.
- The request URL the agent builds (`"http://" + SrvAddr + "/update/"`) and all response headers (Content-Type, Content-Encoding) are not modelled.
- `GetMetricHandle` / `JSONGetMetricHandle`: the 400 branch for a lookup error other than `ErrMetricNotFound` is not modelled. The store returns no other error, so that branch cannot be reached.
- `Agent.Start`: its two goroutines, sleeps and error channel are about concurrency and timing.
- `runtime.ReadMemStats` and `rand.Float64` are foreign calls. Their results are inputs to `Update`.
- Template loading, template rendering and the HTML strings of the listing page are file I/O and formatting. Only the listing order is modelled.
- Logging (`internal/logger`, `internal/middleware`) and the `main` wiring are not modelled.
- `parseFlags` and `parseEnv` (the `flag` and `env` libraries) are not modelled. The merge starts from their results; `ToConfig` covers their seconds-to-duration step.
- Agent.Send: Go visits the metrics map in an unspecified order. The model takes that order as an input that lists each gauge name exactly once.
- internal/storage/models is not part of this model. The shape of the `Metrics` record in `models.dfy` (id, type, nil-able delta and value) is taken from how the handlers and the agent use it.
- Metric names, types and values are modelled as valid UTF-8 text (`seq<char>`). Go strings are arbitrary bytes, so a name that is not valid UTF-8 (a path segment `%FF`, say) has no counterpart here; for valid text, byte order and code-point order agree, so the listing order is unaffected.
