/**
 * Which of four mutually exclusive screens the budget widget shows, chosen
 * from the state of the budget collection query.
 */
module BudgetView {
  import opened Wrappers
  import opened BudgetRecords

  /** The failure detail the query layer reports for a failed fetch. */
  datatype FetchError = FetchError(detail: string)

  /**
   * What the budget collection query exposes to the widget: whether the
   * fetch is pending, the error if it failed (`None` when there is none) and
   * the fetched records (`None` while there are none).
   */
  datatype QueryState = QueryState(
    isLoading: bool,
    error: Option<FetchError>,
    data: Option<seq<BudgetRecord>>
  )

  /** The four screens; the table carries the rows it is given. */
  datatype Screen =
    | Loader
    | ErrorScreen(error: FetchError)
    | NoContent
    | Table(rows: seq<BudgetRecord>)

  /** `data?.length`: the number of records, or `undefined` when there is no data. */
  function OptionalLength(data: Option<seq<BudgetRecord>>): Option<nat>
  {
    match data
    case None => None
    case Some(rows) => Some(|rows|)
  }

  /** JavaScript truthiness of an optional count: `undefined` and `0` are falsy. */
  predicate Truthy(n: Option<nat>)
  {
    n.Some? && n.value != 0
  }

  /**
   * The test `data?.length` read as a truth value; the contract says that
   * being falsy means exactly that the data is absent or empty.
   */
  predicate HasRows(data: Option<seq<BudgetRecord>>): (r: bool)
    ensures r <==> data.Some? && data.value != []
  {
    Truthy(OptionalLength(data))
  }

  /**
   * The priority chain: a pending fetch wins over everything, then an error,
   * then absent or empty data; only non-empty data reaches the table, and the
   * table's rows are the fetched records in their order.
   */
  function Render(q: QueryState): (r: Screen)
    ensures r == Loader <==> q.isLoading
    ensures r.ErrorScreen? <==> !q.isLoading && q.error.Some?
    ensures r.ErrorScreen? ==> r.error == q.error.value
    ensures r == NoContent <==> !q.isLoading && q.error.None? && !HasRows(q.data)
    ensures r.Table? <==> !q.isLoading && q.error.None? && HasRows(q.data)
    ensures r.Table? ==> r.rows == q.data.value && r.rows != []
  {
    if q.isLoading then Loader
    else if q.error.Some? then ErrorScreen(q.error.value)
    else if !HasRows(q.data) then NoContent
    else Table(q.data.value)
  }

  /** The identities the table gets from `getUniqueId`, in row order. */
  function RowIds(rows: seq<BudgetRecord>): (r: seq<RecordId>)
    ensures |r| == |rows|
    ensures forall i :: 0 <= i < |rows| ==> r[i] == rows[i].id
  {
    if rows == [] then [] else RowIds(rows[..|rows| - 1]) + [rows[|rows| - 1].id]
  }

  /**
   * Missing data and an empty result set both give the placeholder, so the
   * widget never shows an empty table.
   */
  lemma NoEmptyTable(isLoading: bool, error: Option<FetchError>)
    ensures !isLoading && error.None? ==> Render(QueryState(isLoading, error, None)) == NoContent
    ensures !isLoading && error.None? ==> Render(QueryState(isLoading, error, Some([]))) == NoContent
    ensures forall d :: !Render(QueryState(isLoading, error, d)).Table?
                        || |Render(QueryState(isLoading, error, d)).rows| > 0
  {
  }
}
