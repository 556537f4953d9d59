/** `listContacts`: the shared list query over the contact table, searching name, email and phone. */
module ContactService {
  import opened Wrappers
  import opened Store
  import opened ListQuery
  import Text

  const ContactSearchColumns: seq<string> := ["name", "email", "phone"]
  const ContactColumns: set<string> :=
    {"id", "name", "email", "phone", "description", "isActive", "createdAt", "updatedAt"}

  method ListContacts(m: QueryDataModel, table: seq<Row>) returns (res: Result<ListPage, StoreError>)
    ensures res.Success? <==> Admissible(m, ContactSearchColumns, ContactColumns)
    ensures res.Success? ==>
      (PaginationValid(m)
       && res.value.totalCount == |Matching(m, ContactSearchColumns, table)|
       && res.value.rows == Reference(m, ContactSearchColumns, table))
  {
    res := RunList(m, ContactSearchColumns, ContactColumns, {}, table);
    if res.Success? {
      ProjectNothing(Reference(m, ContactSearchColumns, table));
    }
  }

  /**
   * A search on any page: at most `pageSize` contacts, each with the search
   * text in its name, email or phone whatever the letter case, and a total
   * that counts every matching contact whatever the page.
   */
  lemma SearchPageOfContacts(m: QueryDataModel, table: seq<Row>)
    requires PaginationValid(m) && Searching(m)
    ensures m.pagination.pageSize > 0 ==> |Reference(m, ContactSearchColumns, table)| <= m.pagination.pageSize
    ensures forall r :: r in Reference(m, ContactSearchColumns, table) ==>
      r in table
      && exists k :: 0 <= k < 3 && Get(r, ContactSearchColumns[k]).VStr?
                     && Text.ContainsInsensitive(Get(r, ContactSearchColumns[k]).s, m.searchText.value)
    ensures forall p: Pagination {:trigger m.(pagination := p)} ::
      |Matching(m.(pagination := p), ContactSearchColumns, table)| == |Matching(m, ContactSearchColumns, table)|
  {
    PageRowsMatch(m, ContactSearchColumns, table);
    forall p: Pagination {:trigger m.(pagination := p)} ensures
      |Matching(m.(pagination := p), ContactSearchColumns, table)| == |Matching(m, ContactSearchColumns, table)| {
      TotalIgnoresPagination(m, p, ContactSearchColumns, table);
    }
  }
}
