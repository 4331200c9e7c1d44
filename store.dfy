/** The hosted database seen from a page: the calls a page issues and the
    answers it can receive. The store itself is not modelled; each answer is a
    parameter of the operation that waits for it. */
module Store {
  import opened Wrappers

  /** The `{ error }` of a write: none, or an error with its code and message. */
  datatype Outcome = Ok | Failed(code: string, message: string)

  /** A request sent to a table whose rows are written as `R`. */
  datatype Call<R> = Select | Insert(row: R) | Update(id: string, row: R) | Delete(id: string)

  /** The `{ data, error }` of a `select`: an error, or rows that may be `null`. */
  datatype Fetch<R> = FetchFailed | Rows(data: Option<seq<R>>)

  /** The list a page keeps after a fetch: `setX(data || [])` on success, the old
      list on an error. */
  function AfterFetch<R>(old_: seq<R>, f: Fetch<R>): (r: seq<R>)
    ensures f.FetchFailed? ==> r == old_
    ensures f.Rows? && f.data.Some? ==> r == f.data.value
    ensures f.Rows? && f.data.None? ==> r == []
  {
    match f
    case FetchFailed => old_
    case Rows(data) => data.GetOr([])
  }
}
