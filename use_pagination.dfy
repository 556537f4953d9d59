/** `usePagination`: the query parameters requested when the table's page changes. */
module UsePagination {
  import opened ListQuery

  /** `newData`: the current parameters with the page index and size replaced, verbatim. */
  function WithPage(queryParams: QueryDataModel, pageIndex: int, pageSize: int): (r: QueryDataModel)
    ensures r.pagination.pageIndex == pageIndex && r.pagination.pageSize == pageSize
    ensures r.pagination.totalCount == queryParams.pagination.totalCount
    ensures r.searchText == queryParams.searchText && r.sort == queryParams.sort && r.filter == queryParams.filter
  {
    queryParams.(pagination := queryParams.pagination.(pageIndex := pageIndex, pageSize := pageSize))
  }

  /**
   * `onPaginationChange`: the parameters `fetchData` is called with, once.
   * The loading indicator around the call is not part of this model.
   */
  method OnPaginationChange(queryParams: QueryDataModel, pageIndex: int, pageSize: int)
    returns (fetched: seq<QueryDataModel>)
    ensures |fetched| == 1
    ensures fetched[0].pagination == Pagination(pageSize, pageIndex, queryParams.pagination.totalCount)
    ensures fetched[0] == queryParams.(pagination := fetched[0].pagination)
  {
    var newData := WithPage(queryParams, pageIndex, pageSize);
    fetched := [newData];
  }

  /** Two parameter sets that differ only in their page request differ only in `pagination`. */
  lemma OnlyPageDiffers(queryParams: QueryDataModel, pageIndex: int, pageSize: int)
    ensures WithPage(queryParams, pageIndex, pageSize) == queryParams
        <==> pageIndex == queryParams.pagination.pageIndex && pageSize == queryParams.pagination.pageSize
  {
  }

  /** Going back to the previous page request restores the parameters exactly. */
  lemma WithPageUndo(queryParams: QueryDataModel, pageIndex: int, pageSize: int)
    ensures WithPage(WithPage(queryParams, pageIndex, pageSize),
                     queryParams.pagination.pageIndex, queryParams.pagination.pageSize) == queryParams
  {
  }

  /** The later of two page requests wins. */
  lemma WithPageLastWins(queryParams: QueryDataModel, i: int, s: int, j: int, t: int)
    ensures WithPage(WithPage(queryParams, i, s), j, t) == WithPage(queryParams, j, t)
  {
  }
}
