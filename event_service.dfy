/** `listEvents`: the shared list query over the event table, searching title and description. */
module EventService {
  import opened Wrappers
  import opened Domain
  import opened Store
  import opened ListQuery

  const EventSearchColumns: seq<string> := ["title", "description"]
  const EventColumns: set<string> :=
    {"id", "title", "description", "startDate", "endDate", "status", "documents", "funding_amount",
     "funding_currency", "student_reach_planned", "student_reach_actual", "feedback", "rating",
     "userId", "createdAt", "updatedAt"}

  /** `requestUser` is accepted and never read. */
  method ListEvents(m: QueryDataModel, requestUser: PublicUser, table: seq<Row>) returns (res: Result<ListPage, StoreError>)
    ensures res.Success? <==> Admissible(m, EventSearchColumns, EventColumns)
    ensures res.Success? ==>
      (PaginationValid(m)
       && res.value.totalCount == |Matching(m, EventSearchColumns, table)|
       && res.value.rows == Reference(m, EventSearchColumns, table))
  {
    res := RunList(m, EventSearchColumns, EventColumns, {}, table);
    if res.Success? {
      ProjectNothing(Reference(m, EventSearchColumns, table));
    }
  }
}
