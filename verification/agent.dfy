/** The reporting agent (internal/agent/agent.go): its sample counter, the batch of
    29 updates one flush sends, and the flush's stop-at-first-failure rule. The
    runtime statistics and the random value are inputs; each HTTP exchange is an
    oracle outcome. */
module Agent {
  import opened Wrappers
  import opened GoTypes
  import opened Collections
  import opened Models
  import Utils

  /** The 27 runtime statistics a flush reports as gauges, already converted to float64. */
  datatype MemStats = MemStats(
    alloc: Float64, buckHashSys: Float64, frees: Float64, gcCPUFraction: Float64, gcSys: Float64,
    heapAlloc: Float64, heapIdle: Float64, heapInuse: Float64, heapObjects: Float64,
    heapReleased: Float64, heapSys: Float64, lastGC: Float64, lookups: Float64,
    mCacheInuse: Float64, mCacheSys: Float64, mSpanInuse: Float64, mSpanSys: Float64,
    mallocs: Float64, nextGC: Float64, numForcedGC: Float64, numGC: Float64, otherSys: Float64,
    pauseTotalNs: Float64, stackInuse: Float64, stackSys: Float64, sys: Float64, totalAlloc: Float64)

  const ZeroStats := MemStats(
    PositiveZero, PositiveZero, PositiveZero, PositiveZero, PositiveZero, PositiveZero, PositiveZero,
    PositiveZero, PositiveZero, PositiveZero, PositiveZero, PositiveZero, PositiveZero, PositiveZero,
    PositiveZero, PositiveZero, PositiveZero, PositiveZero, PositiveZero, PositiveZero, PositiveZero,
    PositiveZero, PositiveZero, PositiveZero, PositiveZero, PositiveZero, PositiveZero)

  datatype Agent = Agent(memStats: MemStats, srvAddr: string, pollCount: int64, randomValue: Float64)

  /** The gauge names of one flush, in source order. */
  const GaugeNameList: seq<string> := [
    "Alloc", "BuckHashSys", "Frees", "GCCPUFraction", "GCSys", "HeapAlloc", "HeapIdle",
    "HeapInuse", "HeapObjects", "HeapReleased", "HeapSys", "LastGC", "Lookups",
    "MCacheInuse", "MCacheSys", "MSpanInuse", "MSpanSys", "Mallocs", "NextGC",
    "NumForcedGC", "NumGC", "OtherSys", "PauseTotalNs", "StackInuse", "StackSys",
    "Sys", "TotalAlloc"]

  const GaugeCount := 27
  const BatchSize := GaugeCount + 2

  function New(): (a: Agent)
    ensures a.pollCount == 0
  {
    Agent(ZeroStats, "", 0, PositiveZero)
  }

  /** One sampling tick: a fresh snapshot, PollCount + 1 (wrapping like any int64
      addition), and a fresh random value. */
  function Update(a: Agent, stats: MemStats, random: Float64): (r: Agent)
    ensures r.pollCount == Wrap(a.pollCount as int + 1)
    ensures a.pollCount < MaxInt64 ==> r.pollCount == a.pollCount + 1
    ensures r.memStats == stats && r.randomValue == random && r.srvAddr == a.srvAddr
  {
    a.(memStats := stats, pollCount := AddWrap(a.pollCount, 1), randomValue := random)
  }

  /** Ticks `New` through a run of samples. */
  function Run(samples: seq<(MemStats, Float64)>): Agent
    decreases |samples|
  {
    if samples == [] then New()
    else
      var last := samples[|samples| - 1];
      Update(Run(samples[..|samples| - 1]), last.0, last.1)
  }

  /** PollCount counts the ticks since `New` (until it would pass MaxInt64). */
  lemma {:induction false} PollCountCountsTicks(samples: seq<(MemStats, Float64)>)
    requires |samples| <= MaxInt64 as int
    ensures Run(samples).pollCount as int == |samples|
    decreases |samples|
  {
    if samples != [] {
      PollCountCountsTicks(samples[..|samples| - 1]);
    }
  }

  /** The `metrics` map of `Send`: each statistic under its name. */
  function GaugeMetrics(ms: MemStats): (m: map<string, Float64>)
    ensures m.Keys == Elems(GaugeNameList)
  {
    map[
      "Alloc" := ms.alloc, "BuckHashSys" := ms.buckHashSys, "Frees" := ms.frees,
      "GCCPUFraction" := ms.gcCPUFraction, "GCSys" := ms.gcSys, "HeapAlloc" := ms.heapAlloc,
      "HeapIdle" := ms.heapIdle, "HeapInuse" := ms.heapInuse, "HeapObjects" := ms.heapObjects,
      "HeapReleased" := ms.heapReleased, "HeapSys" := ms.heapSys, "LastGC" := ms.lastGC,
      "Lookups" := ms.lookups, "MCacheInuse" := ms.mCacheInuse, "MCacheSys" := ms.mCacheSys,
      "MSpanInuse" := ms.mSpanInuse, "MSpanSys" := ms.mSpanSys, "Mallocs" := ms.mallocs,
      "NextGC" := ms.nextGC, "NumForcedGC" := ms.numForcedGC, "NumGC" := ms.numGC,
      "OtherSys" := ms.otherSys, "PauseTotalNs" := ms.pauseTotalNs, "StackInuse" := ms.stackInuse,
      "StackSys" := ms.stackSys, "Sys" := ms.sys, "TotalAlloc" := ms.totalAlloc]
  }

  /** Neighbouring gauge names are in byte order. */
  lemma NeighbourNamesOrdered0To4(i: nat)
    requires 0 <= i < 4
    ensures Utils.Less(GaugeNameList[i], GaugeNameList[i + 1])
  {
    if i == 0 {
      assert Utils.Less("Alloc", "BuckHashSys");
    } else if i == 1 {
      assert Utils.Less("BuckHashSys", "Frees");
    } else if i == 2 {
      assert Utils.Less("Frees", "GCCPUFraction");
    } else {
      assert Utils.Less("GCCPUFraction", "GCSys");
    }
  }

  lemma NeighbourNamesOrdered4To8(i: nat)
    requires 4 <= i < 8
    ensures Utils.Less(GaugeNameList[i], GaugeNameList[i + 1])
  {
    if i == 4 {
      assert Utils.Less("GCSys", "HeapAlloc");
    } else if i == 5 {
      assert Utils.Less("HeapAlloc", "HeapIdle");
    } else if i == 6 {
      assert Utils.Less("HeapIdle", "HeapInuse");
    } else {
      assert Utils.Less("HeapInuse", "HeapObjects");
    }
  }

  lemma NeighbourNamesOrdered8To12(i: nat)
    requires 8 <= i < 12
    ensures Utils.Less(GaugeNameList[i], GaugeNameList[i + 1])
  {
    if i == 8 {
      assert Utils.Less("HeapObjects", "HeapReleased");
    } else if i == 9 {
      assert Utils.Less("HeapReleased", "HeapSys");
    } else if i == 10 {
      assert Utils.Less("HeapSys", "LastGC");
    } else {
      assert Utils.Less("LastGC", "Lookups");
    }
  }

  lemma NeighbourNamesOrdered12To16(i: nat)
    requires 12 <= i < 16
    ensures Utils.Less(GaugeNameList[i], GaugeNameList[i + 1])
  {
    if i == 12 {
      assert Utils.Less("Lookups", "MCacheInuse");
    } else if i == 13 {
      assert Utils.Less("MCacheInuse", "MCacheSys");
    } else if i == 14 {
      assert Utils.Less("MCacheSys", "MSpanInuse");
    } else {
      assert Utils.Less("MSpanInuse", "MSpanSys");
    }
  }

  lemma NeighbourNamesOrdered16To20(i: nat)
    requires 16 <= i < 20
    ensures Utils.Less(GaugeNameList[i], GaugeNameList[i + 1])
  {
    if i == 16 {
      assert Utils.Less("MSpanSys", "Mallocs");
    } else if i == 17 {
      assert Utils.Less("Mallocs", "NextGC");
    } else if i == 18 {
      assert Utils.Less("NextGC", "NumForcedGC");
    } else {
      assert Utils.Less("NumForcedGC", "NumGC");
    }
  }

  lemma NeighbourNamesOrdered20To23(i: nat)
    requires 20 <= i < 23
    ensures Utils.Less(GaugeNameList[i], GaugeNameList[i + 1])
  {
    if i == 20 {
      assert Utils.Less("NumGC", "OtherSys");
    } else if i == 21 {
      assert Utils.Less("OtherSys", "PauseTotalNs");
    } else {
      assert Utils.Less("PauseTotalNs", "StackInuse");
    }
  }

  lemma NeighbourNamesOrdered23To26(i: nat)
    requires 23 <= i < 26
    ensures Utils.Less(GaugeNameList[i], GaugeNameList[i + 1])
  {
    if i == 23 {
      assert Utils.Less("StackInuse", "StackSys");
    } else if i == 24 {
      assert Utils.Less("StackSys", "Sys");
    } else {
      assert Utils.Less("Sys", "TotalAlloc");
    }
  }

  lemma NeighbourNamesOrdered(i: nat)
    requires i < GaugeCount - 1
    ensures Utils.Less(GaugeNameList[i], GaugeNameList[i + 1])
  {
    if i < 4 {
      NeighbourNamesOrdered0To4(i);
    } else if i < 8 {
      NeighbourNamesOrdered4To8(i);
    } else if i < 12 {
      NeighbourNamesOrdered8To12(i);
    } else if i < 16 {
      NeighbourNamesOrdered12To16(i);
    } else if i < 20 {
      NeighbourNamesOrdered16To20(i);
    } else if i < 23 {
      NeighbourNamesOrdered20To23(i);
    } else {
      NeighbourNamesOrdered23To26(i);
    }
  }

  /** The gauge names are 27 distinct strings. */
  lemma GaugeNamesDistinct()
    ensures Distinct(GaugeNameList)
    ensures |Elems(GaugeNameList)| == GaugeCount
  {
    forall i | 0 <= i < |GaugeNameList| - 1
      ensures Utils.Less(GaugeNameList[i], GaugeNameList[i + 1])
    {
      NeighbourNamesOrdered(i);
    }
    Utils.NeighboursAscending(GaugeNameList);
    Utils.AscendingIsDistinct(GaugeNameList);
    DistinctCardinality(GaugeNameList);
  }

  /** `order` is an iteration order of Go's `range` over the metrics map: every key
      exactly once. */
  predicate Enumerates(order: seq<string>, keys: set<string>) {
    Distinct(order) && Elems(order) == keys
  }

  /** An enumeration of the gauge names visits 27 of them. */
  lemma EnumerationLength(order: seq<string>)
    requires Enumerates(order, Elems(GaugeNameList))
    ensures |order| == GaugeCount
  {
    GaugeNamesDistinct();
    DistinctCardinality(order);
  }

  function GaugeRecord(name: string, v: Float64): Metrics {
    Metrics(name, "gauge", None, Some(v))
  }

  /** The records one flush sends, given the map's iteration order: each gauge, then
      PollCount as a counter carrying the cumulative count, then RandomValue. */
  function Batch(a: Agent, order: seq<string>): (b: seq<Metrics>)
    requires Enumerates(order, Elems(GaugeNameList))
    ensures |b| == BatchSize
    ensures forall i :: 0 <= i < GaugeCount ==>
              b[i].mtype == "gauge" && b[i].id in GaugeNameList && b[i].delta.None? &&
              b[i].value == Some(GaugeMetrics(a.memStats)[b[i].id])
    ensures |order| == GaugeCount && forall i :: 0 <= i < GaugeCount ==> b[i].id == order[i]
    ensures forall i, j :: 0 <= i < j < GaugeCount ==> b[i].id != b[j].id
    ensures b[GaugeCount] == Metrics("PollCount", "counter", Some(a.pollCount), None)
    ensures b[GaugeCount + 1] == Metrics("RandomValue", "gauge", None, Some(a.randomValue))
  {
    EnumerationLength(order);
    var metrics := GaugeMetrics(a.memStats);
    var gauges := seq(|order|, i requires 0 <= i < |order| => GaugeRecord(order[i], metrics[order[i]]));
    gauges + [Metrics("PollCount", "counter", Some(a.pollCount), None),
              GaugeRecord("RandomValue", a.randomValue)]
  }

  /** The HTTP exchange of one `sendMetric`, as the network decided it. */
  datatype Exchange =
    | EncodeFailed       // json.Encoder could not marshal the record
    | RequestFailed      // http.NewRequest failed
    | TransportFailed    // the client returned an error
    | CloseFailed        // closing the response body failed
    | Responded(code: int)

  datatype SendError = SendError(cause: Exchange)

  /** `sendMetric`: only a 200 response is success. */
  function SendMetric(ex: Exchange): (err: Option<SendError>)
    ensures err.None? <==> ex == Responded(200)
  {
    match ex
    case Responded(code) => if code != 200 then Some(SendError(ex)) else None
    case _ => Some(SendError(ex))
  }

  /** What a flush did: the records it attempted, in order, and what it returned. */
  datatype Flush = Flush(attempted: seq<Metrics>, err: Option<SendError>)

  /** Sends `batch` one record at a time; `net[i]` is the i-th exchange. The first
      failure is returned and nothing after it is attempted. */
  function SendAll(batch: seq<Metrics>, net: seq<Exchange>): (f: Flush)
    requires |net| >= |batch|
    ensures f.attempted <= batch
    ensures f.err.None? <==> f.attempted == batch && forall i :: 0 <= i < |batch| ==> SendMetric(net[i]).None?
    ensures f.err.Some? ==> |f.attempted| > 0 && f.err == SendMetric(net[|f.attempted| - 1])
    ensures forall i :: 0 <= i < |f.attempted| - 1 ==> SendMetric(net[i]).None?
    decreases |batch|
  {
    if batch == [] then Flush([], None)
    else
      var err := SendMetric(net[0]);
      if err.Some? then Flush([batch[0]], err)
      else
        var rest := SendAll(batch[1..], net[1..]);
        Flush([batch[0]] + rest.attempted, rest.err)
  }

  /** `Send`: one flush of the agent's current snapshot. The agent itself is not
      changed (in particular PollCount is not reset). */
  function Send(a: Agent, order: seq<string>, net: seq<Exchange>): (f: Flush)
    requires Enumerates(order, Elems(GaugeNameList))
    requires |net| >= BatchSize
    ensures f.err.None? <==> forall i :: 0 <= i < BatchSize ==> net[i] == Responded(200)
    ensures f.err.None? ==> |f.attempted| == BatchSize
    ensures f.err.Some? ==> 0 < |f.attempted| <= BatchSize && net[|f.attempted| - 1] != Responded(200)
    ensures f.attempted <= Batch(a, order)
  {
    SendAll(Batch(a, order), net)
  }

  /** Abort on first failure: if exchange k fails, records after k are never
      attempted and the flush returns that exchange's error. */
  lemma FirstFailureStops(a: Agent, order: seq<string>, net: seq<Exchange>, k: nat)
    requires Enumerates(order, Elems(GaugeNameList))
    requires |net| >= BatchSize
    requires k < BatchSize && net[k] != Responded(200)
    requires forall i :: 0 <= i < k ==> net[i] == Responded(200)
    ensures Send(a, order, net) == Flush(Batch(a, order)[..k + 1], Some(SendError(net[k])))
  {
    var f := Send(a, order, net);
    var b := Batch(a, order);
    assert |f.attempted| == k + 1;
    assert f.attempted == b[..k + 1];
  }

  /** The counter a flush reports is the number of samples taken since start. */
  lemma FlushReportsTickCount(samples: seq<(MemStats, Float64)>, order: seq<string>)
    requires |samples| <= MaxInt64 as int
    requires Enumerates(order, Elems(GaugeNameList))
    ensures Batch(Run(samples), order)[GaugeCount].delta == Some(|samples| as int64)
  {
    PollCountCountsTicks(samples);
  }
}
