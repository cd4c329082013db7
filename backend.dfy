/** What the data hooks share: query keys, backend errors, and the `activities(count)` aggregate. */
module Backend {
  import opened Wrappers

  /** An error returned by a table query. */
  datatype BackendError = BackendError(code: string, message: string)

  /** An element of a query key. */
  datatype KeyPart = KStr(s: string) | KNum(n: int)

  type QueryKey = seq<KeyPart>

  /** The `activities(count)` aggregate of a row: absent, or a list of entries whose `count`
      may itself be absent. */
  type CountAggregate = Option<seq<Option<int>>>

  /** `activities?.[0]?.count ?? 0`. */
  function FirstCount(agg: CountAggregate): (c: int)
    ensures agg.None? || agg.value == [] || agg.value[0].None? ==> c == 0
    ensures agg.Some? && agg.value != [] && agg.value[0].Some? ==> c == agg.value[0].value
  {
    if agg.Some? && agg.value != [] && agg.value[0].Some? then agg.value[0].value else 0
  }

  /** The response of a table query: rows (possibly null) and an error (possibly null). */
  datatype QueryResponse<Row> = QueryResponse(data: Option<seq<Row>>, error: Option<BackendError>)
}
