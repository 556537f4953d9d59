/**
 * The query-building procedure shared by the list services for users,
 * contacts, partners and events, and the reference meaning of a
 * `QueryDataModel` (pagination, free-text search, sort, filters) that the
 * built query is proved to implement against the store.
 */
module ListQuery {
  import opened Wrappers
  import opened Store
  import Text
  import Seqs

  /** A filter value: a single value (equality) or an array (`in`). */
  datatype FilterValue = Scalar(value: Value) | AnyOf(values: seq<Value>)
  datatype FilterEntry = FilterEntry(column: string, value: FilterValue)
  datatype Pagination = Pagination(pageSize: int, pageIndex: int, totalCount: int)
  /** `sort`; an empty column name is JavaScript-falsy and means "no sort". */
  datatype SortSpec = SortSpec(column: string, dir: Direction)
  datatype QueryDataModel = QueryDataModel(
    pagination: Pagination,
    searchText: Option<string>,
    sort: Option<SortSpec>,
    filter: Option<seq<FilterEntry>>)

  /** What a list service answers: the total number of matches and one page of rows. */
  datatype ListPage = ListPage(totalCount: nat, rows: seq<Row>)

  // ---------------------------------------------------------------------
  // Reference meaning of a model.

  predicate EntryHolds(e: FilterEntry, r: Row) {
    match e.value
    case Scalar(v) => Get(r, e.column) == v
    case AnyOf(vs) => Get(r, e.column) in vs
  }

  /** A search text takes part only when it is truthy, that is non-empty. */
  predicate Searching(m: QueryDataModel) {
    m.searchText.Some? && m.searchText.value != ""
  }

  predicate SearchHit(r: Row, column: string, text: string) {
    Get(r, column).VStr? && Text.ContainsInsensitive(Get(r, column).s, text)
  }

  /** A row matches when it satisfies every filter and, when searching, contains the text in one of the search columns. */
  predicate Matches(m: QueryDataModel, columns: seq<string>, r: Row) {
    FiltersHold(m, r) && SearchHolds(m, columns, r)
  }

  predicate FiltersHold(m: QueryDataModel, r: Row) {
    m.filter.Some? ==> forall i :: 0 <= i < |m.filter.value| ==> EntryHolds(m.filter.value[i], r)
  }

  predicate SearchHolds(m: QueryDataModel, columns: seq<string>, r: Row) {
    Searching(m) ==> exists k :: 0 <= k < |columns| && SearchHit(r, columns[k], m.searchText.value)
  }

  function Matching(m: QueryDataModel, columns: seq<string>, table: seq<Row>): seq<Row> {
    Seqs.Filter(table, (r: Row) => Matches(m, columns, r))
  }

  function SortOf(m: QueryDataModel): (o: Option<OrderBy>)
    ensures o.Some? <==> m.sort.Some? && m.sort.value.column != ""
    ensures o.Some? ==> o.value == OrderBy(m.sort.value.column, m.sort.value.dir)
  {
    if m.sort.Some? && m.sort.value.column != "" then Some(OrderBy(m.sort.value.column, m.sort.value.dir))
    else None
  }

  function Arranged(m: QueryDataModel, rows: seq<Row>): (r: seq<Row>)
    ensures multiset(r) == multiset(rows)
  {
    if SortOf(m).Some? then Sort(rows, SortOf(m).value) else rows
  }

  /** A page size of 0 is falsy and means "everything"; otherwise the page and its index must not be negative. */
  predicate PaginationValid(m: QueryDataModel) {
    m.pagination.pageSize == 0 || (m.pagination.pageSize > 0 && m.pagination.pageIndex >= 0)
  }

  function Min(a: int, b: int): int { if a <= b then a else b }

  /** Page `pageIndex` of `rows`, counting from 0, `pageSize` rows long (the last page may be shorter). */
  function PageOf(m: QueryDataModel, rows: seq<Row>): (r: seq<Row>)
    requires PaginationValid(m)
    ensures m.pagination.pageSize == 0 ==> r == rows
    ensures m.pagination.pageSize > 0 ==> |r| <= m.pagination.pageSize
  {
    var size := m.pagination.pageSize;
    if size == 0 then rows
    else
      var from := Min(m.pagination.pageIndex * size, |rows|);
      rows[from..Min(from + size, |rows|)]
  }

  function Reference(m: QueryDataModel, columns: seq<string>, table: seq<Row>): seq<Row>
    requires PaginationValid(m)
  {
    PageOf(m, Arranged(m, Matching(m, columns, table)))
  }

  /** Every column the query would mention is known to the table. */
  predicate ColumnsKnown(m: QueryDataModel, columns: seq<string>, schema: set<string>) {
    (m.filter.Some? ==> forall i :: 0 <= i < |m.filter.value| ==> m.filter.value[i].column in schema)
    && (Searching(m) ==> forall k :: 0 <= k < |columns| ==> columns[k] in schema)
  }

  predicate Admissible(m: QueryDataModel, columns: seq<string>, schema: set<string>) {
    ColumnsKnown(m, columns, schema)
    && (SortOf(m).Some? ==> SortOf(m).value.column in schema)
    && PaginationValid(m)
  }

  // ---------------------------------------------------------------------
  // Building the query object.

  function ToCond(e: FilterEntry): (c: Cond)
    ensures c.column == e.column
    ensures forall r :: CondHolds(c, r) <==> EntryHolds(e, r)
  {
    match e.value
    case Scalar(v) => Equals(e.column, v)
    case AnyOf(vs) => In(e.column, vs)
  }

  /**
   * Starts from `{ where: {}, orderBy: {}, include: {}, omit }` and adds
   * `skip`/`take` when the page size is truthy, `AND` when the filter list is
   * non-empty, `OR` over the search columns when the search text is truthy,
   * and `orderBy` when the sort column is truthy.
   */
  method BuildQuery(m: QueryDataModel, columns: seq<string>, omit: set<string>) returns (q: Query)
    ensures q.skip == (if m.pagination.pageSize != 0 then Some(m.pagination.pageIndex * m.pagination.pageSize) else None)
    ensures q.take == (if m.pagination.pageSize != 0 then Some(m.pagination.pageSize) else None)
    ensures q.orderBy == SortOf(m)
    ensures q.omit == omit
    ensures forall r :: WhereHolds(q.where, r) <==> Matches(m, columns, r)
    ensures forall schema: set<string> {:trigger UnknownIn(q.where, schema)} ::
      UnknownIn(q.where, schema).None? <==> ColumnsKnown(m, columns, schema)
  {
    q := Query(Where(None, None), None, None, None, omit);
    var size := m.pagination.pageSize;
    if size != 0 {
      q := q.(skip := Some(m.pagination.pageIndex * size), take := Some(size));
    }
    if m.filter.Some? && |m.filter.value| > 0 {
      var conds := seq(|m.filter.value|, i requires 0 <= i < |m.filter.value| => ToCond(m.filter.value[i]));
      q := q.(where := q.where.(and := Some(conds)));
    }
    var text := m.searchText;
    if text.Some? && text.value != "" {
      var ors := seq(|columns|, k requires 0 <= k < |columns| => ContainsText(columns[k], text.value));
      q := q.(where := q.where.(or := Some(ors)));
    }
    if m.sort.Some? && m.sort.value.column != "" {
      q := q.(orderBy := Some(OrderBy(m.sort.value.column, m.sort.value.dir)));
    }
    forall r ensures WhereHolds(q.where, r) <==> Matches(m, columns, r) {
      AndMeaning(m, q.where.and, r);
      OrMeaning(m, columns, q.where.or, r);
    }
    forall schema: set<string> ensures UnknownIn(q.where, schema).None? <==> ColumnsKnown(m, columns, schema) {
      ColumnsMeaning(m, columns, q.where, schema);
    }
  }

  lemma ColumnsMeaning(m: QueryDataModel, columns: seq<string>, w: Where, schema: set<string>)
    requires w.and == (if m.filter.Some? && |m.filter.value| > 0
                       then Some(seq(|m.filter.value|, i requires 0 <= i < |m.filter.value| => ToCond(m.filter.value[i])))
                       else None)
    requires w.or == (if Searching(m)
                      then Some(seq(|columns|, k requires 0 <= k < |columns| => ContainsText(columns[k], m.searchText.value)))
                      else None)
    ensures UnknownIn(w, schema).None? <==> ColumnsKnown(m, columns, schema)
  {
    if w.and.Some? {
      assert forall i :: 0 <= i < |m.filter.value| ==> w.and.value[i].column == m.filter.value[i].column;
    }
    if w.or.Some? {
      assert forall k :: 0 <= k < |columns| ==> w.or.value[k].column == columns[k];
    }
  }

  /** The `AND` part the builder produces means: every filter entry holds. */
  lemma AndMeaning(m: QueryDataModel, and: Option<seq<Cond>>, r: Row)
    requires and == (if m.filter.Some? && |m.filter.value| > 0
                     then Some(seq(|m.filter.value|, i requires 0 <= i < |m.filter.value| => ToCond(m.filter.value[i])))
                     else None)
    ensures (and.Some? ==> forall i :: 0 <= i < |and.value| ==> CondHolds(and.value[i], r)) <==> FiltersHold(m, r)
  {
    if and.Some? {
      forall i | 0 <= i < |and.value| ensures CondHolds(and.value[i], r) <==> EntryHolds(m.filter.value[i], r) {
        assert and.value[i] == ToCond(m.filter.value[i]);
      }
    }
  }

  /** The `OR` part the builder produces means: some search column contains the text. */
  lemma OrMeaning(m: QueryDataModel, columns: seq<string>, or: Option<seq<TextCond>>, r: Row)
    requires or == (if Searching(m)
                    then Some(seq(|columns|, k requires 0 <= k < |columns| => ContainsText(columns[k], m.searchText.value)))
                    else None)
    ensures (or.Some? ==> exists i :: 0 <= i < |or.value| && TextHolds(or.value[i], r)) <==> SearchHolds(m, columns, r)
  {
    if or.Some? {
      if exists i :: 0 <= i < |or.value| && TextHolds(or.value[i], r) {
        var i :| 0 <= i < |or.value| && TextHolds(or.value[i], r);
        assert SearchHit(r, columns[i], m.searchText.value);
      }
      if SearchHolds(m, columns, r) {
        var k :| 0 <= k < |columns| && SearchHit(r, columns[k], m.searchText.value);
        assert TextHolds(or.value[k], r);
      }
    }
  }

  // ---------------------------------------------------------------------
  // The store's `skip`/`take` window is the reference page.

  lemma WindowIsPage(m: QueryDataModel, rows: seq<Row>)
    requires PaginationValid(m)
    ensures Window(rows,
                   if m.pagination.pageSize != 0 then Some(m.pagination.pageIndex * m.pagination.pageSize) else None,
                   if m.pagination.pageSize != 0 then Some(m.pagination.pageSize) else None)
            == PageOf(m, rows)
  {
    var size := m.pagination.pageSize;
    if size != 0 {
      var from := Min(m.pagination.pageIndex * size, |rows|);
      assert rows[from..][..Min(size, |rows| - from)] == rows[from..Min(from + size, |rows|)];
    }
  }

  lemma SelectIsMatching(m: QueryDataModel, columns: seq<string>, w: Where, table: seq<Row>)
    requires forall r :: WhereHolds(w, r) <==> Matches(m, columns, r)
    ensures Select(table, w) == Matching(m, columns, table)
  {
    Seqs.FilterExt(table, (r: Row) => WhereHolds(w, r), (r: Row) => Matches(m, columns, r));
  }

  /**
   * Runs `count({ where })` and `findMany(query)` on the built query. When
   * either is rejected the service rejects.
   */
  method RunList(m: QueryDataModel, columns: seq<string>, schema: set<string>, omit: set<string>, table: seq<Row>)
    returns (res: Result<ListPage, StoreError>)
    ensures res.Success? <==> Admissible(m, columns, schema)
    ensures res.Success? ==>
      (PaginationValid(m)
       && res.value.totalCount == |Matching(m, columns, table)|
       && res.value.rows == Project(Reference(m, columns, table), omit))
  {
    var q := BuildQuery(m, columns, omit);
    var total := Count(q.where, schema, table);
    var found := FindMany(q, schema, table);
    BuiltQueryAnswers(m, columns, schema, omit, table, q);
    if total.Failure? {
      return Failure(total.error);
    }
    if found.Failure? {
      return Failure(found.error);
    }
    res := Success(ListPage(total.value, found.value));
  }

  /** What the store answers to a query with the builder's guarantees, in terms of the reference meaning. */
  lemma BuiltQueryAnswers(m: QueryDataModel, columns: seq<string>, schema: set<string>, omit: set<string>, table: seq<Row>, q: Query)
    requires q.skip == (if m.pagination.pageSize != 0 then Some(m.pagination.pageIndex * m.pagination.pageSize) else None)
    requires q.take == (if m.pagination.pageSize != 0 then Some(m.pagination.pageSize) else None)
    requires q.orderBy == SortOf(m)
    requires q.omit == omit
    requires forall r :: WhereHolds(q.where, r) <==> Matches(m, columns, r)
    requires UnknownIn(q.where, schema).None? <==> ColumnsKnown(m, columns, schema)
    ensures Count(q.where, schema, table).Success? <==> ColumnsKnown(m, columns, schema)
    ensures Count(q.where, schema, table).Success? ==> Count(q.where, schema, table).value == |Matching(m, columns, table)|
    ensures FindMany(q, schema, table).Success? <==> Admissible(m, columns, schema)
    ensures FindMany(q, schema, table).Success? ==>
      (PaginationValid(m) && FindMany(q, schema, table).value == Project(Reference(m, columns, table), omit))
  {
    SelectIsMatching(m, columns, q.where, table);
    assert Valid(q, schema) <==> Admissible(m, columns, schema);
    if Valid(q, schema) {
      assert Ordered(q, table) == Arranged(m, Matching(m, columns, table));
      WindowIsPage(m, Arranged(m, Matching(m, columns, table)));
    }
  }

  // ---------------------------------------------------------------------
  // Properties of the reference meaning.

  /** The total count does not depend on which page is asked for. */
  lemma TotalIgnoresPagination(m: QueryDataModel, p: Pagination, columns: seq<string>, table: seq<Row>)
    ensures Matching(m.(pagination := p), columns, table) == Matching(m, columns, table)
  {
    var m' := m.(pagination := p);
    Seqs.FilterExt(table, (r: Row) => Matches(m', columns, r), (r: Row) => Matches(m, columns, r));
  }

  /** A page holds at most `pageSize` rows, each a stored row that matches. */
  lemma PageRowsMatch(m: QueryDataModel, columns: seq<string>, table: seq<Row>)
    requires PaginationValid(m)
    ensures m.pagination.pageSize > 0 ==> |Reference(m, columns, table)| <= m.pagination.pageSize
    ensures forall r :: r in Reference(m, columns, table) ==> r in table && Matches(m, columns, r)
  {
    var matching := Matching(m, columns, table);
    var arranged := Arranged(m, matching);
    forall r | r in Reference(m, columns, table) ensures r in table && Matches(m, columns, r) {
      assert r in arranged;
      assert r in multiset(arranged);
      assert r in matching;
    }
  }

  /** Page size 0 returns every match. */
  lemma ZeroPageSizeReturnsAll(m: QueryDataModel, columns: seq<string>, table: seq<Row>)
    requires m.pagination.pageSize == 0
    ensures multiset(Reference(m, columns, table)) == multiset(Matching(m, columns, table))
    ensures |Reference(m, columns, table)| == |Matching(m, columns, table)|
  {
    var arranged := Arranged(m, Matching(m, columns, table));
    assert |arranged| == |multiset(arranged)|;
  }

  /** With a sort column, the page comes out in that column's order. */
  lemma PageSorted(m: QueryDataModel, columns: seq<string>, table: seq<Row>)
    requires PaginationValid(m) && SortOf(m).Some?
    ensures SortedBy(Reference(m, columns, table), SortOf(m).value)
  {
    var o := SortOf(m).value;
    var matching := Matching(m, columns, table);
    SortSorted(matching, o);
    assert Arranged(m, matching) == Sort(matching, o);
    PageOfSorted(m, Sort(matching, o), o);
  }

  lemma PageOfSorted(m: QueryDataModel, rows: seq<Row>, o: OrderBy)
    requires PaginationValid(m) && SortedBy(rows, o)
    ensures SortedBy(PageOf(m, rows), o)
  {
    if m.pagination.pageSize > 0 {
      var from := Min(m.pagination.pageIndex * m.pagination.pageSize, |rows|);
      SliceSorted(rows, o, from, Min(from + m.pagination.pageSize, |rows|));
    }
  }

  lemma SliceSorted(xs: seq<Row>, o: OrderBy, a: int, b: int)
    requires SortedBy(xs, o) && 0 <= a <= b <= |xs|
    ensures SortedBy(xs[a..b], o)
  {
    var s := xs[a..b];
    forall i | 0 <= i < |s| - 1 ensures Before(s[i], s[i + 1], o) {
      assert s[i] == xs[a + i] && s[i + 1] == xs[a + i + 1];
    }
  }

  function AtPage(m: QueryDataModel, index: int): QueryDataModel {
    m.(pagination := m.pagination.(pageIndex := index))
  }

  /** Pages 0..k-1 laid end to end are the first k pages' worth of rows: no row is skipped or repeated. */
  lemma {:induction false} PagesTile(m: QueryDataModel, rows: seq<Row>, k: nat)
    requires m.pagination.pageSize > 0
    ensures PagesUpTo(m, rows, k) == rows[..Min(k * m.pagination.pageSize, |rows|)]
  {
    if k > 0 {
      PagesTile(m, rows, k - 1);
      var size := m.pagination.pageSize;
      var a := Min((k - 1) * size, |rows|);
      var b := Min(k * size, |rows|);
      assert PageOf(AtPage(m, k - 1), rows) == rows[a..b];
      assert rows[..a] + rows[a..b] == rows[..b];
    }
  }

  function PagesUpTo(m: QueryDataModel, rows: seq<Row>, k: nat): seq<Row>
    requires m.pagination.pageSize > 0
  {
    if k == 0 then [] else PagesUpTo(m, rows, k - 1) + PageOf(AtPage(m, k - 1), rows)
  }

  /** Filter entries are conjoined: splitting the list splits the condition. */
  lemma {:induction false} FiltersConjoin(m: QueryDataModel, f: seq<FilterEntry>, g: seq<FilterEntry>, columns: seq<string>, r: Row)
    ensures Matches(m.(filter := Some(f + g)), columns, r)
       <==> Matches(m.(filter := Some(f)), columns, r) && Matches(m.(filter := Some(g)), columns, r)
  {
    var fg := f + g;
    assert forall i :: 0 <= i < |f| ==> fg[i] == f[i];
    assert forall i :: 0 <= i < |g| ==> fg[|f| + i] == g[i];
    if (forall i :: 0 <= i < |f| ==> EntryHolds(f[i], r)) && (forall i :: 0 <= i < |g| ==> EntryHolds(g[i], r)) {
      forall i | 0 <= i < |fg| ensures EntryHolds(fg[i], r) {
        if i >= |f| {
          assert fg[i] == g[i - |f|];
        }
      }
    }
  }

  /** An absent, empty or missing search text constrains nothing; neither does an empty filter list. */
  lemma NoSearchNoFilterMatchesAll(m: QueryDataModel, columns: seq<string>, table: seq<Row>)
    requires !Searching(m)
    requires m.filter.None? || m.filter.value == []
    ensures Matching(m, columns, table) == table
  {
    NoConstraint(m, columns, table);
  }

  lemma {:induction false} NoConstraint(m: QueryDataModel, columns: seq<string>, table: seq<Row>)
    requires !Searching(m)
    requires m.filter.None? || m.filter.value == []
    ensures Matching(m, columns, table) == table
    decreases |table|
  {
    if |table| > 0 {
      NoConstraint(m, columns, table[1..]);
      assert table == [table[0]] + table[1..];
    }
  }

  /** The search ignores letter case: searching for the lower-cased text finds the same rows. */
  lemma SearchIgnoresCase(m: QueryDataModel, text: string, columns: seq<string>, r: Row)
    ensures Matches(m.(searchText := Some(Text.Lower(text))), columns, r) <==> Matches(m.(searchText := Some(text)), columns, r)
  {
    Text.LowerIdempotent(text);
    assert Text.Lower(text) == "" <==> text == "";
  }
}
