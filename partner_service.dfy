/** `listPartners`: the shared list query over the partner table, searching name, description, address and sector. */
module PartnerService {
  import opened Wrappers
  import opened Store
  import opened ListQuery

  const PartnerSearchColumns: seq<string> := ["name", "description", "address", "sector"]
  const PartnerColumns: set<string> :=
    {"id", "name", "description", "address", "type", "sector", "otherTypeName", "otherSectorName",
     "rank", "otherRank", "tags", "isActive", "createdAt", "updatedAt"}

  /** The query's `include` is empty, so the rows are the stored partner rows and nothing is joined in. */
  method ListPartners(m: QueryDataModel, table: seq<Row>) returns (res: Result<ListPage, StoreError>)
    ensures res.Success? <==> Admissible(m, PartnerSearchColumns, PartnerColumns)
    ensures res.Success? ==>
      (PaginationValid(m)
       && res.value.totalCount == |Matching(m, PartnerSearchColumns, table)|
       && res.value.rows == Reference(m, PartnerSearchColumns, table))
    ensures res.Success? ==> forall r :: r in res.value.rows ==> r in table
  {
    res := RunList(m, PartnerSearchColumns, PartnerColumns, {}, table);
    if res.Success? {
      ProjectNothing(Reference(m, PartnerSearchColumns, table));
      PageRowsMatch(m, PartnerSearchColumns, table);
    }
  }
}
