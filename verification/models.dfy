/** The JSON record shared by the agent and the collector (models.Metrics). */
module Models {
  import opened Wrappers
  import opened GoTypes

  /** `delta` and `value` are nil-able pointers; `mtype` is the JSON `type` field. */
  datatype Metrics = Metrics(id: string, mtype: string, delta: Option<int64>, value: Option<Float64>)
}
