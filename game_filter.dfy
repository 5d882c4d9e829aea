/** The room-list filter hook: its initial value and the query parameter it derives. */
module GameFilter {
  import opened Js
  import opened Types

  /** The filter a fresh hook (and a fresh room store) starts with. */
  const InitialFilter: StatusFilter := All

  /** The filter a query parameter stands for: no parameter means every room. */
  function FilterOf(param: Option<GameStatus>): StatusFilter {
    match param
    case None => All
    case Some(s) => Only(s)
  }

  /** `getQueryParam`: no parameter for `'all'`, otherwise the filter itself. */
  function QueryParam(filter: StatusFilter): (param: Option<GameStatus>)
    ensures param.None? <==> filter == All
    ensures filter.Only? ==> param == Some(filter.status)
    ensures FilterOf(param) == filter
  {
    if filter == All then None else Some(filter.status)
  }
}
