/** The collector's HTTP handlers (internal/handlers/handlers.go) as pure functions
    from the decoded request and the store to the response and the next store.
    Float parsing and formatting, and JSON encoding of a reply, are parameters. */
module Handlers {
  import opened Wrappers
  import opened GoTypes
  import opened Storage
  import opened Strconv
  import opened Models
  import Utils

  const StatusOK := 200
  const StatusBadRequest := 400
  const StatusNotFound := 404
  const StatusInternalServerError := 500


  /** What a handler has written through net/http's ResponseWriter: the status line,
      fixed by the first WriteHeader (or by the first Write, as 200), and the body. */
  datatype Writer = Writer(header: Option<int>, body: string) {

    /** The status the response carries once it is sent: 200 if the handler wrote
        nothing at all. */
    function Status(): int {
      header.GetOr(StatusOK)
    }
  }

  const Unwritten := Writer(None, "")

  /** Only the first call fixes the status; later ones are superfluous and ignored. */
  function WriteHeader(w: Writer, code: int): (r: Writer)
    ensures r.body == w.body
    ensures r.Status() == if w.header.Some? then w.Status() else code
  {
    if w.header.Some? then w else w.(header := Some(code))
  }

  /** Writing body bytes implies a 200 header if none was written yet. */
  function Write(w: Writer, bytes: string): (r: Writer)
    ensures r.header.Some? && r.Status() == w.Status()
    ensures r.body == w.body + bytes
  {
    Writer(Some(w.Status()), w.body + bytes)
  }

  /** `http.Error`: the status, then the message and a newline. */
  function Error(w: Writer, msg: string, code: int): Writer {
    Write(WriteHeader(w, code), msg + "\n")
  }

  /** `http.NotFound`. */
  function NotFound(w: Writer): Writer {
    Error(w, "404 page not found", StatusNotFound)
  }

  /** A handler run: it completes, or it dereferences a nil pointer and panics after
      having buffered `resp` and left the store as `store`. net/http recovers such a
      panic by dropping the connection, so a `Panicked` response never reaches the
      client: only a `Served` one is sent. */
  datatype Outcome = Served(resp: Writer, store: MemStorage) | Panicked(resp: Writer, store: MemStorage)

  // ---------------------------------------------------------------------------
  // Updates

  /** POST /update/{metricType}/{metricName}/{metricValue}. */
  function MetricHandler(store: MemStorage, metricType: string, metricName: string, metricValue: string,
                         parseFloat: string -> Option<Float64>): (o: Outcome)
    ensures o.Served?
    ensures o.resp.Status() == StatusOK || o.resp.Status() == StatusBadRequest
    ensures o.resp.Status() == StatusOK <==>
              || (metricType == "gauge" && parseFloat(metricValue).Some?)
              || (metricType == "counter" && ParseInt(metricValue).Some?)
    ensures o.resp.Status() == StatusOK ==> o.resp.body == ""
    ensures o.resp.Status() == StatusBadRequest ==> o.store == store
    ensures metricType == "gauge" && parseFloat(metricValue).Some? ==>
              o.store == UpdateGauge(store, metricName, parseFloat(metricValue).value)
    ensures metricType == "counter" && ParseInt(metricValue).Some? ==>
              o.store == UpdateCounter(store, metricName, ParseInt(metricValue).value)
  {
    var w := Unwritten;
    if metricType == "gauge" then
      match parseFloat(metricValue)
      case None => Served(Error(w, "Not correct Gauge value", StatusBadRequest), store)
      case Some(val) => Served(WriteHeader(w, StatusOK), UpdateGauge(store, metricName, val))
    else if metricType == "counter" then
      match ParseInt(metricValue)
      case None => Served(Error(w, "Not correct Counter value", StatusBadRequest), store)
      case Some(val) => Served(WriteHeader(w, StatusOK), UpdateCounter(store, metricName, val))
    else
      Served(Error(w, "Provided type doesn't exist", StatusBadRequest), store)
  }

  /** POST /update/ with a JSON record. `decodeFailed` says the JSON decoder reported an
      error; the handler then writes 400 but carries on with whatever `body` holds, so a
      missing `value`/`delta` is a nil dereference. */
  function JSONMetricHandler(store: MemStorage, body: Metrics, decodeFailed: bool): (o: Outcome)
    ensures body.mtype == "gauge" && body.value.Some? ==>
              o.Served? && o.store == UpdateGauge(store, body.id, body.value.value)
    ensures body.mtype == "counter" && body.delta.Some? ==>
              o.Served? && o.store == UpdateCounter(store, body.id, body.delta.value)
    ensures !decodeFailed && body.mtype == "gauge" && body.value.Some? ==>
              o.resp == Writer(Some(StatusOK), "")
    ensures !decodeFailed && body.mtype == "counter" && body.delta.Some? ==>
              o.resp == Writer(Some(StatusOK), "")
    ensures body.mtype != "gauge" && body.mtype != "counter" ==>
              o.Served? && o.resp.Status() == StatusBadRequest && o.store == store
    ensures o.Panicked? <==>
              (body.mtype == "gauge" && body.value.None?) || (body.mtype == "counter" && body.delta.None?)
    ensures o.Panicked? ==> o.store == store
    ensures decodeFailed && o.Served? ==> o.resp.Status() == StatusBadRequest
  {
    var w := if decodeFailed then Error(Unwritten, "Bad Request", StatusBadRequest) else Unwritten;
    if body.mtype == "gauge" then
      match body.value
      case None => Panicked(w, store)
      case Some(v) => Served(WriteHeader(w, StatusOK), UpdateGauge(store, body.id, v))
    else if body.mtype == "counter" then
      match body.delta
      case None => Panicked(w, store)
      case Some(d) => Served(WriteHeader(w, StatusOK), UpdateCounter(store, body.id, d))
    else
      Served(Error(w, "Provided type (" + body.mtype + ") doesn't exist", StatusBadRequest), store)
  }

  // ---------------------------------------------------------------------------
  // Reads

  /** GET /value/{metricType}/{metricName}. The store's only error is
      `ErrMetricNotFound`, so the handler's other (400) branch cannot be reached. */
  function GetMetricHandle(store: MemStorage, metricType: string, metricName: string,
                           formatFloat: Float64 -> string): (w: Writer)
    ensures w.Status() == StatusNotFound <==>
              (metricType == "gauge" || metricType == "counter") && metricName !in store.collection
    ensures w.Status() == StatusOK || w.Status() == StatusNotFound
    ensures metricType == "gauge" && metricName in store.collection ==>
              w.Status() == StatusOK && w.body == formatFloat(store.collection[metricName].gauge)
    ensures metricType == "counter" && metricName in store.collection ==>
              w.Status() == StatusOK && w.body == FormatInt(store.collection[metricName].counter) &&
              ParseInt(w.body) == Some(store.collection[metricName].counter)
    ensures metricType != "gauge" && metricType != "counter" ==> w == Unwritten
  {
    var w := Unwritten;
    if metricType == "gauge" then
      var r := GetGauge(store, metricName);
      match r.err
      case Some(ErrMetricNotFound) => NotFound(w)
      case None => Write(w, formatFloat(r.value))
    else if metricType == "counter" then
      var r := GetCounter(store, metricName);
      match r.err
      case Some(ErrMetricNotFound) => NotFound(w)
      case None =>
        assert w.body + FormatInt(r.value) == FormatInt(r.value);
        Write(w, FormatInt(r.value))
    else
      w
  }

  /** The record a JSON read answers with: the request's id and type, with the gauge
      in `value` or the counter in `delta`; none for an unknown type or an absent name. */
  function ReplyRecord(store: MemStorage, req: Metrics): (r: Option<Metrics>)
    ensures r.Some? <==> (req.mtype == "gauge" || req.mtype == "counter") && req.id in store.collection
    ensures r.Some? ==> r.value.id == req.id && r.value.mtype == req.mtype
    ensures r.Some? ==> (r.value.value.Some? <==> req.mtype == "gauge")
    ensures r.Some? ==> (r.value.delta.Some? <==> req.mtype == "counter")
    ensures r.Some? && req.mtype == "gauge" ==> r.value.value.value == store.collection[req.id].gauge
    ensures r.Some? && req.mtype == "counter" ==> r.value.delta.value == store.collection[req.id].counter
  {
    if req.mtype == "gauge" then
      var g := GetGauge(store, req.id);
      if g.err.Some? then None else Some(Metrics(req.id, req.mtype, None, Some(g.value)))
    else if req.mtype == "counter" then
      var c := GetCounter(store, req.id);
      if c.err.Some? then None else Some(Metrics(req.id, req.mtype, Some(c.value), None))
    else None
  }

  /** POST /value/ with a JSON `{id, type}`. `encode` is json.Encoder: the text written,
      or none when the record cannot be marshalled (a NaN or ±Inf gauge), which answers 500. */
  function JSONGetMetricHandle(store: MemStorage, body: Metrics, decodeFailed: bool,
                               encode: Metrics -> Option<string>): (w: Writer)
    ensures decodeFailed ==> w.Status() == StatusBadRequest
    ensures !decodeFailed && (body.mtype == "gauge" || body.mtype == "counter") && body.id !in store.collection ==>
              w == NotFound(Unwritten)
    ensures !decodeFailed && ReplyRecord(store, body).Some? ==>
              var rec := ReplyRecord(store, body).value;
              if encode(rec).Some? then w == Writer(Some(StatusOK), encode(rec).value)
              else w.Status() == StatusInternalServerError
    ensures !decodeFailed && body.mtype != "gauge" && body.mtype != "counter" ==> w == Unwritten
  {
    var w := if decodeFailed then Error(Unwritten, "Bad Request", StatusBadRequest) else Unwritten;
    if body.mtype == "gauge" || body.mtype == "counter" then
      var missing := if body.mtype == "gauge" then GetGauge(store, body.id).err else GetCounter(store, body.id).err;
      if missing.Some? then NotFound(w)
      else
        var rec := ReplyRecord(store, body).value;
        match encode(rec)
        case Some(text) => Write(w, text)
        case None => Error(w, "Internal Server Error", StatusInternalServerError)
    else
      w
  }

  // ---------------------------------------------------------------------------
  // Listing

  /** The order GET / lists metrics in: the non-zero gauges by ascending name, then the
      non-zero counters by ascending name. */
  method ListingOrder(store: MemStorage) returns (gauges: seq<string>, counters: seq<string>)
    ensures Utils.Ascending(gauges) && Utils.Ascending(counters)
    ensures forall n :: n in gauges <==> n in store.collection && !IsZero(store.collection[n].gauge)
    ensures forall n :: n in counters <==> n in store.collection && store.collection[n].counter != 0
  {
    var data := GetAllMetrics(store);
    gauges := Utils.SortedMetricKeys(data.gauge);
    counters := Utils.SortedMetricKeys(data.counter);
  }

  // ---------------------------------------------------------------------------
  // Properties across handlers

  /** A counter written through the update path reads back, through the read path, as
      decimal text that parses to the accumulated value: the previous count (0 for a
      new name) plus the parsed delta, wrapped to int64. */
  lemma CounterPathRoundTrip(store: MemStorage, name: string, text: string, formatFloat: Float64 -> string,
                             parseFloat: string -> Option<Float64>)
    requires ParseInt(text).Some?
    ensures var o := MetricHandler(store, "counter", name, text, parseFloat);
            var w := GetMetricHandle(o.store, "counter", name, formatFloat);
            && o.resp.Status() == StatusOK
            && w.Status() == StatusOK
            && ParseInt(w.body) == Some(Wrap(GetCounter(store, name).value as int + ParseInt(text).value as int))
            && (name !in store.collection ==> ParseInt(w.body) == ParseInt(text))
  {
  }

  /** The JSON update applies the same store operation, with the same status, as the path
      update whose value text parses to the record's value. */
  lemma JSONAgreesWithPath(store: MemStorage, name: string, text: string, parseFloat: string -> Option<Float64>)
    ensures parseFloat(text).Some? ==>
              var j := JSONMetricHandler(store, Metrics(name, "gauge", None, parseFloat(text)), false);
              var p := MetricHandler(store, "gauge", name, text, parseFloat);
              j == p
    ensures ParseInt(text).Some? ==>
              var j := JSONMetricHandler(store, Metrics(name, "counter", ParseInt(text), None), false);
              var p := MetricHandler(store, "counter", name, text, parseFloat);
              j == p
  {
  }

  /** A failed decode is answered 400 whatever follows, yet a record that still carries
      its value updates the store: the handler does not return after the error. */
  lemma DecodeFailureStillUpdates(store: MemStorage, body: Metrics)
    requires body.mtype == "gauge" && body.value.Some?
    ensures var o := JSONMetricHandler(store, body, true);
            o.resp.Status() == StatusBadRequest && o.store == UpdateGauge(store, body.id, body.value.value)
  {
  }

  /** The counter half: a failed decode that still left `delta` allocated (zero, say)
      adds it to the store while the client is told 400. */
  lemma DecodeFailureStillAdds(store: MemStorage, body: Metrics)
    requires body.mtype == "counter" && body.delta.Some?
    ensures var o := JSONMetricHandler(store, body, true);
            o.resp.Status() == StatusBadRequest && o.store == UpdateCounter(store, body.id, body.delta.value)
  {
  }

  /** The path read and the JSON read agree on which names are missing (404). */
  lemma ReadsAgreeOnNotFound(store: MemStorage, kind: string, name: string, formatFloat: Float64 -> string,
                             encode: Metrics -> Option<string>)
    requires kind == "gauge" || kind == "counter"
    ensures GetMetricHandle(store, kind, name, formatFloat).Status() == StatusNotFound
            <==> JSONGetMetricHandle(store, Metrics(name, kind, None, None), false, encode).Status() == StatusNotFound
  {
  }
}
