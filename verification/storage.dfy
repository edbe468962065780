/** The collector's in-memory metric store (internal/storage/storage.go): a map from
    metric name to a record holding one gauge and one counter. Updates are pure
    functions returning the next store; nothing is ever removed. */
module Storage {
  import opened Wrappers
  import opened GoTypes

  /** Per-name record: a gauge (last write wins) and a counter (accumulates, wrapping). */
  datatype MetricCollection = MetricCollection(gauge: Float64, counter: int64) {

    function UpdateGauge(v: Float64): (c: MetricCollection)
      ensures c.gauge == v && c.counter == counter
    {
      this.(gauge := v)
    }

    function UpdateCounter(v: int64): (c: MetricCollection)
      ensures c.gauge == gauge
      ensures (c.counter as int - (counter as int + v as int)) % TwoTo64 == 0
    {
      this.(counter := AddWrap(counter, v))
    }
  }

  datatype MemStorage = MemStorage(collection: map<string, MetricCollection>)

  /** The only error the store reports. */
  datatype StoreError = ErrMetricNotFound

  /** Go's `(value, error)` result of a lookup: on error the value is the kind's zero. */
  datatype Reply<T> = Reply(value: T, err: Option<StoreError>)

  /** The two listing maps of `GetAllMetrics`. */
  datatype ResultMetric = ResultMetric(gauge: map<string, Float64>, counter: map<string, int64>)

  function New(): (m: MemStorage)
    ensures m.collection.Keys == {}
  {
    MemStorage(map[])
  }

  /** Sets `name`'s gauge to `v`, creating the record (counter 0) if absent. */
  function UpdateGauge(m: MemStorage, name: string, v: Float64): (r: MemStorage)
    ensures r.collection.Keys == m.collection.Keys + {name}
    ensures r.collection[name].gauge == v
    ensures r.collection[name].counter == if name in m.collection then m.collection[name].counter else 0
    ensures forall n :: n in m.collection && n != name ==> r.collection[n] == m.collection[n]
  {
    if name !in m.collection then
      MemStorage(m.collection[name := MetricCollection(gauge := v, counter := 0)])
    else
      var collection := m.collection[name];
      MemStorage(m.collection[name := collection.UpdateGauge(v)])
  }

  /** Adds `v` to `name`'s counter with int64 wrap-around; an absent name starts from `v`
      with gauge +0. */
  function UpdateCounter(m: MemStorage, name: string, v: int64): (r: MemStorage)
    ensures r.collection.Keys == m.collection.Keys + {name}
    ensures name !in m.collection ==> r.collection[name] == MetricCollection(PositiveZero, v)
    ensures name in m.collection ==>
              && r.collection[name].gauge == m.collection[name].gauge
              && r.collection[name].counter == Wrap(m.collection[name].counter as int + v as int)
    ensures forall n :: n in m.collection && n != name ==> r.collection[n] == m.collection[n]
  {
    if name !in m.collection then
      MemStorage(m.collection[name := MetricCollection(gauge := PositiveZero, counter := v)])
    else
      var collection := m.collection[name];
      MemStorage(m.collection[name := collection.UpdateCounter(v)])
  }

  /** The gauge of `name`; `ErrMetricNotFound` (with value +0) only when no record exists.
      A record created by a counter update reads gauge +0 without error. */
  function GetGauge(m: MemStorage, name: string): (r: Reply<Float64>)
    ensures r.err.Some? <==> name !in m.collection
    ensures r.err.Some? ==> r.value == PositiveZero
    ensures name in m.collection ==> r.value == m.collection[name].gauge
  {
    if name !in m.collection then Reply(PositiveZero, Some(ErrMetricNotFound))
    else Reply(m.collection[name].gauge, None)
  }

  /** The counter of `name`; `ErrMetricNotFound` (with value 0) only when no record exists.
      A record created by a gauge update reads counter 0 without error. */
  function GetCounter(m: MemStorage, name: string): (r: Reply<int64>)
    ensures r.err.Some? <==> name !in m.collection
    ensures r.err.Some? ==> r.value == 0
    ensures name in m.collection ==> r.value == m.collection[name].counter
  {
    if name !in m.collection then Reply(0, Some(ErrMetricNotFound))
    else Reply(m.collection[name].counter, None)
  }

  /** The "all metrics" view: every record's non-zero gauge and non-zero counter,
      collected by one pass over the map in arbitrary order. */
  method GetAllMetrics(m: MemStorage) returns (res: ResultMetric)
    ensures forall n :: n in res.gauge <==> n in m.collection && !IsZero(m.collection[n].gauge)
    ensures forall n :: n in res.gauge ==> res.gauge[n] == m.collection[n].gauge
    ensures forall n :: n in res.counter <==> n in m.collection && m.collection[n].counter != 0
    ensures forall n :: n in res.counter ==> res.counter[n] == m.collection[n].counter
  {
    res := ResultMetric(map[], map[]);
    var rest := m.collection.Keys;
    while rest != {}
      invariant rest <= m.collection.Keys
      invariant forall n :: n in res.gauge <==> n in m.collection && n !in rest && !IsZero(m.collection[n].gauge)
      invariant forall n :: n in res.gauge ==> res.gauge[n] == m.collection[n].gauge
      invariant forall n :: n in res.counter <==> n in m.collection && n !in rest && m.collection[n].counter != 0
      invariant forall n :: n in res.counter ==> res.counter[n] == m.collection[n].counter
      decreases rest
    {
      var name :| name in rest;
      var collection := m.collection[name];
      if !IsZero(collection.gauge) {
        res := res.(gauge := res.gauge[name := collection.gauge]);
      }
      if collection.counter != 0 {
        res := res.(counter := res.counter[name := collection.counter]);
      }
      rest := rest - {name};
    }
  }

  // ---------------------------------------------------------------------------
  // Properties relating several operations

  /** Reading a gauge right after writing it returns the written value without error,
      and a second write replaces the first. */
  lemma GaugeLastWriteWins(m: MemStorage, name: string, v1: Float64, v2: Float64)
    ensures GetGauge(UpdateGauge(m, name, v1), name) == Reply(v1, None)
    ensures GetGauge(UpdateGauge(UpdateGauge(m, name, v1), name, v2), name) == Reply(v2, None)
  {
  }

  /** Two counter updates on a fresh name accumulate to their int64 (wrapped) sum. */
  lemma CounterAccumulates(m: MemStorage, name: string, d1: int64, d2: int64)
    requires name !in m.collection
    ensures GetCounter(UpdateCounter(m, name, d1), name) == Reply(d1, None)
    ensures GetCounter(UpdateCounter(UpdateCounter(m, name, d1), name, d2), name)
            == Reply(Wrap(d1 as int + d2 as int), None)
  {
  }

  /** A name created by one kind of update reads zero, without error, as the other kind. */
  lemma CrossKindReadsZero(m: MemStorage, name: string, v: Float64, d: int64)
    requires name !in m.collection
    ensures GetCounter(UpdateGauge(m, name, v), name) == Reply(0, None)
    ensures GetGauge(UpdateCounter(m, name, d), name) == Reply(PositiveZero, None)
  {
  }

  /** A gauge update keeps the name's counter and a counter update keeps its gauge. */
  lemma UpdatesKeepOtherKind(m: MemStorage, name: string, v: Float64, d: int64)
    requires name in m.collection
    ensures GetCounter(UpdateGauge(m, name, v), name) == GetCounter(m, name)
    ensures GetGauge(UpdateCounter(m, name, d), name) == GetGauge(m, name)
  {
  }

  /** One store mutation, as issued by the handlers. */
  datatype Op = SetGauge(name: string, v: Float64) | AddCounter(name: string, d: int64)

  function Apply(m: MemStorage, op: Op): MemStorage {
    match op
    case SetGauge(n, v) => UpdateGauge(m, n, v)
    case AddCounter(n, d) => UpdateCounter(m, n, d)
  }

  function ApplyAll(m: MemStorage, ops: seq<Op>): MemStorage
    decreases |ops|
  {
    if ops == [] then m else ApplyAll(Apply(m, ops[0]), ops[1..])
  }

  /** The names touched by a run of mutations. */
  function Names(ops: seq<Op>): set<string> {
    set i | 0 <= i < |ops| :: ops[i].name
  }

  /** Nothing is ever removed: after any run of updates the store holds exactly the
      names it held before plus the names updated, and a name already present stays
      readable as both kinds. */
  lemma {:induction false} DomainOnlyGrows(m: MemStorage, ops: seq<Op>)
    ensures ApplyAll(m, ops).collection.Keys == m.collection.Keys + Names(ops)
    decreases |ops|
  {
    if ops != [] {
      var m' := Apply(m, ops[0]);
      DomainOnlyGrows(m', ops[1..]);
      assert Names(ops) == {ops[0].name} + Names(ops[1..]) by {
        forall n | n in Names(ops) ensures n in {ops[0].name} + Names(ops[1..]) {
          var i :| 0 <= i < |ops| && ops[i].name == n;
          if i > 0 { assert ops[1..][i - 1].name == n; }
        }
        forall n | n in Names(ops[1..]) ensures n in Names(ops) {
          var i :| 0 <= i < |ops[1..]| && ops[1..][i].name == n;
          assert ops[i + 1].name == n;
        }
      }
    }
  }

  /** A present name is never reported missing, whatever updates follow. */
  lemma PresentStaysFound(m: MemStorage, ops: seq<Op>, name: string)
    requires GetGauge(m, name).err.None?
    ensures GetGauge(ApplyAll(m, ops), name).err.None?
    ensures GetCounter(ApplyAll(m, ops), name).err.None?
  {
    DomainOnlyGrows(m, ops);
  }

  /** The listing view agrees with the lookups: a listed gauge is the one `GetGauge`
      returns, and a present name missing from the listing reads as zero. */
  lemma ListingAgreesWithLookup(m: MemStorage, res: ResultMetric, name: string)
    requires forall n :: n in res.gauge <==> n in m.collection && !IsZero(m.collection[n].gauge)
    requires forall n :: n in res.gauge ==> res.gauge[n] == m.collection[n].gauge
    requires name in m.collection
    ensures name in res.gauge ==> GetGauge(m, name) == Reply(res.gauge[name], None)
    ensures name !in res.gauge ==> GetGauge(m, name).err.None? && IsZero(GetGauge(m, name).value)
  {
  }
}
