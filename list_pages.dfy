/**
 * The state every list page (users, partners, events) keeps: the rows on
 * display, the query parameters of the last successful fetch, and the
 * create/edit side panel.
 */
module ListPages {
  import opened Wrappers
  import opened Store
  import opened ListQuery

  datatype PanelKind = Create | Edit
  datatype PanelState = PanelState(isOpen: bool, kind: PanelKind)

  const InitialPanel := PanelState(false, Create)

  /**
   * `initQueryParams`: page size 20 at index 0, an empty search, no filter,
   * and a sort object without a column (which sorts nothing).
   */
  const InitQueryParams := QueryDataModel(Pagination(20, 0, 0), Some(""), Some(SortSpec("", Asc)), Some([]))

  /** A list response; `items` is `None` when the list is missing from it. */
  datatype ListResponse<T> = ListResponse(success: bool, totalCount: int, items: Option<seq<T>>)

  /**
   * `{ ...prev, ...params, pagination: { ...params.pagination, totalCount } }`:
   * the requested parameters, an absent optional key keeping the previous
   * value, with the total from the response.
   */
  function Merged(prev: QueryDataModel, params: QueryDataModel, totalCount: int): (r: QueryDataModel)
    ensures r.pagination.pageSize == params.pagination.pageSize && r.pagination.pageIndex == params.pagination.pageIndex
    ensures r.pagination.totalCount == totalCount
    ensures r.searchText == (if params.searchText.Some? then params.searchText else prev.searchText)
    ensures r.sort == (if params.sort.Some? then params.sort else prev.sort)
    ensures r.filter == (if params.filter.Some? then params.filter else prev.filter)
  {
    QueryDataModel(
      params.pagination.(totalCount := totalCount),
      if params.searchText.Some? then params.searchText else prev.searchText,
      if params.sort.Some? then params.sort else prev.sort,
      if params.filter.Some? then params.filter else prev.filter)
  }

  /** Parameters that carry every key replace the previous ones entirely; only the total comes from the response. */
  lemma MergedFullParams(prev: QueryDataModel, params: QueryDataModel, totalCount: int)
    requires params.searchText.Some? && params.sort.Some? && params.filter.Some?
    ensures Merged(prev, params, totalCount) == params.(pagination := params.pagination.(totalCount := totalCount))
  {
  }

  /** Receiving the same answer twice changes nothing more. */
  lemma MergedIdempotent(prev: QueryDataModel, params: QueryDataModel, totalCount: int)
    ensures Merged(Merged(prev, params, totalCount), params, totalCount) == Merged(prev, params, totalCount)
  {
  }

  /** The stored total never depends on the total the request carried. */
  lemma MergedIgnoresRequestedTotal(prev: QueryDataModel, params: QueryDataModel, t: int, totalCount: int)
    ensures Merged(prev, params.(pagination := params.pagination.(totalCount := t)), totalCount)
         == Merged(prev, params, totalCount)
  {
  }

  /** The "Số lượng" line of the user and event pages: shown, with the total, only when the total is positive (the partner page shows it always). */
  function CountLine(queryParams: QueryDataModel): (r: Option<int>)
    ensures r.Some? <==> queryParams.pagination.totalCount > 0
    ensures r.Some? ==> r.value == queryParams.pagination.totalCount
  {
    if queryParams.pagination.totalCount > 0 then Some(queryParams.pagination.totalCount) else None
  }

  /** After a successful list call the count line shows the response's total, and only when it is positive. */
  lemma CountShownAfterReceive(prev: QueryDataModel, params: QueryDataModel, totalCount: int)
    ensures CountLine(Merged(prev, params, totalCount)) == (if totalCount > 0 then Some(totalCount) else None)
  {
  }

  class ListPage<T> {
    var rows: seq<T>
    var queryParams: QueryDataModel
    var panel: PanelState

    constructor ()
      ensures rows == [] && queryParams == InitQueryParams && panel == InitialPanel
    {
      rows := [];
      queryParams := InitQueryParams;
      panel := InitialPanel;
    }

    /** `getXList` once the response is in: a failed response changes nothing. */
    method ReceiveList(params: QueryDataModel, response: ListResponse<T>)
      modifies this
      ensures response.success ==>
        rows == response.items.GetOr([]) && queryParams == Merged(old(queryParams), params, response.totalCount)
      ensures !response.success ==> rows == old(rows) && queryParams == old(queryParams)
      ensures panel == old(panel)
    {
      if response.success {
        rows := response.items.GetOr([]);
        queryParams := Merged(queryParams, params, response.totalCount);
      }
    }

    /** The create button: opens the panel for a new record. */
    method OpenCreate()
      modifies this
      ensures panel == PanelState(true, Create) && rows == old(rows) && queryParams == old(queryParams)
    {
      panel := PanelState(true, Create);
    }

    /** `onEditClick`'s panel update: opens the panel to edit a record. */
    method OpenEdit()
      modifies this
      ensures panel == PanelState(true, Edit) && rows == old(rows) && queryParams == old(queryParams)
    {
      panel := PanelState(true, Edit);
    }

    /**
     * `onCreateUpdate` of the user and partner pages: once the request has
     * returned without throwing, a toast for the panel's kind, a refetch with
     * the current parameters and a closed panel; a thrown request ends it.
     */
    method SubmitUnchecked(thrown: bool, created: string, updated: string)
      returns (toast: Option<string>, refetch: Option<QueryDataModel>)
      modifies this
      ensures thrown ==> toast == None && refetch == None && panel == old(panel)
      ensures !thrown ==>
        toast == Some(if old(panel).kind == Create then created else updated)
        && refetch == Some(old(queryParams)) && panel == old(panel).(isOpen := false)
      ensures rows == old(rows) && queryParams == old(queryParams)
    {
      toast, refetch := None, None;
      if !thrown {
        toast := Some(if panel.kind == Create then created else updated);
        refetch := Some(queryParams);
        panel := panel.(isOpen := false);
      }
    }

    /**
     * `onCreateUpdate` of the event page: the toast, the closed panel and the
     * refetch happen only when the response reports success.
     */
    method SubmitChecked(success: bool, created: string, updated: string)
      returns (toast: Option<string>, refetch: Option<QueryDataModel>)
      modifies this
      ensures !success ==> toast == None && refetch == None && panel == old(panel)
      ensures success ==>
        toast == Some(if old(panel).kind == Create then created else updated)
        && refetch == Some(old(queryParams)) && panel == old(panel).(isOpen := false)
      ensures rows == old(rows) && queryParams == old(queryParams)
    {
      toast, refetch := None, None;
      if success {
        toast := Some(if panel.kind == Create then created else updated);
        panel := panel.(isOpen := false);
        refetch := Some(queryParams);
      }
    }
  }
}
