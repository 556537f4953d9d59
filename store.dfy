/**
 * The part of the Prisma client the list services rely on, modelled on
 * values: a table is a sequence of rows in storage order, and `Count` and
 * `FindMany` answer a query object the way the client does for the
 * operators the services use (equality, `in`, case-insensitive `contains`,
 * `AND`, `OR`, one-column `orderBy`, `skip`, `take`, `omit`).
 */
module Store {
  import opened Wrappers
  import Text
  import Seqs

  datatype Value = VNull | VBool(b: bool) | VInt(i: int) | VStr(s: string)

  /** A stored row: its primary key and its other columns. */
  datatype Row = Row(id: string, cols: map<string, Value>)

  /** Reading a column; a column the row does not carry reads as NULL. */
  function Get(r: Row, column: string): (v: Value)
    ensures column == "id" ==> v == VStr(r.id)
    ensures column != "id" && column !in r.cols ==> v == VNull
  {
    if column == "id" then VStr(r.id)
    else if column in r.cols then r.cols[column]
    else VNull
  }

  /** One element of an `AND` list: `{ column: value }` or `{ column: { in: values } }`. */
  datatype Cond = Equals(column: string, value: Value) | In(column: string, values: seq<Value>)

  /** One element of an `OR` list: `{ column: { contains: text, mode: 'insensitive' } }`. */
  datatype TextCond = ContainsText(column: string, text: string)

  /** A `where` object: absent keys are `None`. */
  datatype Where = Where(and: Option<seq<Cond>>, or: Option<seq<TextCond>>)

  datatype Direction = Asc | Desc
  datatype OrderBy = OrderBy(column: string, dir: Direction)

  datatype Query = Query(
    where: Where,
    orderBy: Option<OrderBy>,
    skip: Option<int>,
    take: Option<int>,
    omit: set<string>)

  /** Why the client rejects a query before touching the table. */
  datatype StoreError = UnknownColumn(column: string) | NegativeSkip | NegativeTake

  predicate CondHolds(c: Cond, r: Row) {
    match c
    case Equals(col, v) => Get(r, col) == v
    case In(col, vs) => Get(r, col) in vs
  }

  /** Case-insensitive `contains` applies to text; NULL and other values never match. */
  predicate TextHolds(t: TextCond, r: Row) {
    match Get(r, t.column)
    case VStr(s) => Text.ContainsInsensitive(s, t.text)
    case _ => false
  }

  predicate WhereHolds(w: Where, r: Row) {
    (w.and.Some? ==> forall i :: 0 <= i < |w.and.value| ==> CondHolds(w.and.value[i], r))
    && (w.or.Some? ==> exists i :: 0 <= i < |w.or.value| && TextHolds(w.or.value[i], r))
  }

  /** The first column of `w` that `schema` does not know, if any. */
  function UnknownIn(w: Where, schema: set<string>): (r: Option<string>)
    ensures r.None? <==>
      (w.and.Some? ==> forall i :: 0 <= i < |w.and.value| ==> w.and.value[i].column in schema)
      && (w.or.Some? ==> forall i :: 0 <= i < |w.or.value| ==> w.or.value[i].column in schema)
    ensures r.Some? ==> r.value !in schema
  {
    var a := if w.and.Some? then FirstUnknownCond(w.and.value, schema) else None;
    if a.Some? then a
    else if w.or.Some? then FirstUnknownText(w.or.value, schema)
    else None
  }

  function FirstUnknownCond(cs: seq<Cond>, schema: set<string>): (r: Option<string>)
    ensures r.None? <==> forall i :: 0 <= i < |cs| ==> cs[i].column in schema
    ensures r.Some? ==> r.value !in schema
  {
    if |cs| == 0 then None
    else if cs[0].column !in schema then Some(cs[0].column)
    else FirstUnknownCond(cs[1..], schema)
  }

  function FirstUnknownText(ts: seq<TextCond>, schema: set<string>): (r: Option<string>)
    ensures r.None? <==> forall i :: 0 <= i < |ts| ==> ts[i].column in schema
    ensures r.Some? ==> r.value !in schema
  {
    if |ts| == 0 then None
    else if ts[0].column !in schema then Some(ts[0].column)
    else FirstUnknownText(ts[1..], schema)
  }

  /** `count({ where })`. */
  function Count(w: Where, schema: set<string>, table: seq<Row>): (r: Result<nat, StoreError>)
    ensures r.Success? <==> UnknownIn(w, schema).None?
    ensures r.Success? ==> r.value == |Select(table, w)|
  {
    match UnknownIn(w, schema)
    case Some(c) => Failure(UnknownColumn(c))
    case None => Success(|Select(table, w)|)
  }

  function Select(table: seq<Row>, w: Where): seq<Row> {
    Seqs.Filter(table, (r: Row) => WhereHolds(w, r))
  }

  // ---------------------------------------------------------------------
  // Ordering. Ascending order puts NULL last; descending order is the exact
  // reverse, so NULL comes first. Values of different kinds are ranked by kind.

  function KindRank(v: Value): nat {
    match v
    case VBool(_) => 0
    case VInt(_) => 1
    case VStr(_) => 2
    case VNull => 3
  }

  /** Code-point lexicographic order on strings. */
  predicate StrLe(a: string, b: string) {
    |a| == 0 || (|b| > 0 && (a[0] < b[0] || (a[0] == b[0] && StrLe(a[1..], b[1..]))))
  }

  lemma {:induction false} StrLeTotal(a: string, b: string)
    ensures StrLe(a, b) || StrLe(b, a)
    decreases |a|
  {
    if |a| > 0 && |b| > 0 && a[0] == b[0] {
      StrLeTotal(a[1..], b[1..]);
    }
  }

  predicate ValueLe(x: Value, y: Value) {
    if KindRank(x) != KindRank(y) then KindRank(x) < KindRank(y)
    else match x
      case VBool(a) => !a || y.b
      case VInt(a) => a <= y.i
      case VStr(a) => StrLe(a, y.s)
      case VNull => true
  }

  lemma ValueLeTotal(x: Value, y: Value)
    ensures ValueLe(x, y) || ValueLe(y, x)
  {
    if x.VStr? && y.VStr? {
      StrLeTotal(x.s, y.s);
    }
  }

  /** `a` may stand before `b` under `o`. */
  predicate Before(a: Row, b: Row, o: OrderBy) {
    if o.dir == Asc then ValueLe(Get(a, o.column), Get(b, o.column))
    else ValueLe(Get(b, o.column), Get(a, o.column))
  }

  predicate SortedBy(xs: seq<Row>, o: OrderBy) {
    forall i :: 0 <= i < |xs| - 1 ==> Before(xs[i], xs[i + 1], o)
  }

  function Insert(x: Row, xs: seq<Row>, o: OrderBy): (r: seq<Row>)
    ensures multiset(r) == multiset(xs) + multiset{x}
    ensures |r| == |xs| + 1
    ensures |r| > 0 && (r[0] == x || (|xs| > 0 && r[0] == xs[0]))
  {
    if |xs| == 0 then [x]
    else if Before(x, xs[0], o) then [x] + xs
    else
      assert xs == [xs[0]] + xs[1..];
      [xs[0]] + Insert(x, xs[1..], o)
  }

  lemma {:induction false} InsertSorted(x: Row, xs: seq<Row>, o: OrderBy)
    requires SortedBy(xs, o)
    ensures SortedBy(Insert(x, xs, o), o)
    decreases |xs|
  {
    if |xs| > 0 && !Before(x, xs[0], o) {
      ValueLeTotal(Get(x, o.column), Get(xs[0], o.column));
      InsertSorted(x, xs[1..], o);
      var r := Insert(x, xs, o);
      assert r == [xs[0]] + Insert(x, xs[1..], o);
    }
  }

  /** A stable insertion sort: the order `findMany` returns for an `orderBy`. */
  function Sort(xs: seq<Row>, o: OrderBy): (r: seq<Row>)
    ensures multiset(r) == multiset(xs)
    ensures |r| == |xs|
  {
    if |xs| == 0 then []
    else
      assert xs == [xs[0]] + xs[1..];
      Insert(xs[0], Sort(xs[1..], o), o)
  }

  lemma {:induction false} SortSorted(xs: seq<Row>, o: OrderBy)
    ensures SortedBy(Sort(xs, o), o)
    decreases |xs|
  {
    if |xs| > 0 {
      SortSorted(xs[1..], o);
      InsertSorted(xs[0], Sort(xs[1..], o), o);
    }
  }

  // ---------------------------------------------------------------------

  /** `skip` then `take`, both already known not to be negative. */
  function Window(xs: seq<Row>, skip: Option<int>, take: Option<int>): (r: seq<Row>)
    requires skip.Some? ==> skip.value >= 0
    requires take.Some? ==> take.value >= 0
    ensures take.Some? ==> |r| <= take.value
    ensures skip.None? && take.None? ==> r == xs
    ensures forall i :: 0 <= i < |r| ==> r[i] in xs
  {
    var s := if skip.Some? && skip.value < |xs| then skip.value else if skip.Some? then |xs| else 0;
    var rest := xs[s..];
    if take.Some? && take.value < |rest| then rest[..take.value] else rest
  }

  /** `omit`: the listed columns are not part of the returned rows. */
  function Project(rows: seq<Row>, omit: set<string>): (r: seq<Row>)
    ensures |r| == |rows|
    ensures forall i :: 0 <= i < |r| ==>
      (r[i].id == rows[i].id
       && r[i].cols.Keys == rows[i].cols.Keys - omit
       && forall c :: c in r[i].cols ==> r[i].cols[c] == rows[i].cols[c])
  {
    seq(|rows|, i requires 0 <= i < |rows| => Row(rows[i].id, rows[i].cols - omit))
  }

  /** The rows of `table` that `findMany` returns for a valid query, before projection. */
  function Ordered(q: Query, table: seq<Row>): (r: seq<Row>)
    ensures multiset(r) == multiset(Select(table, q.where))
  {
    var selected := Select(table, q.where);
    if q.orderBy.Some? then Sort(selected, q.orderBy.value) else selected
  }

  predicate Valid(q: Query, schema: set<string>) {
    UnknownIn(q.where, schema).None?
    && (q.orderBy.Some? ==> q.orderBy.value.column in schema)
    && (q.skip.Some? ==> q.skip.value >= 0)
    && (q.take.Some? ==> q.take.value >= 0)
  }

  /** With nothing omitted the rows come back as stored. */
  lemma ProjectNothing(rows: seq<Row>)
    ensures Project(rows, {}) == rows
  {
    assert forall i :: 0 <= i < |rows| ==> Project(rows, {})[i] == rows[i] by {
      forall i | 0 <= i < |rows| ensures Project(rows, {})[i] == rows[i] {
        assert rows[i].cols - {} == rows[i].cols;
      }
    }
  }

  /** `findMany(query)`: rejected when the query names an unknown column or a negative bound. */
  function FindMany(q: Query, schema: set<string>, table: seq<Row>): (r: Result<seq<Row>, StoreError>)
    ensures r.Success? <==> Valid(q, schema)
    ensures r.Failure? && UnknownIn(q.where, schema).Some? ==> r.error.UnknownColumn?
    ensures r.Success? && q.take.Some? ==> |r.value| <= q.take.value
    ensures r.Success? ==> r.value == Project(Window(Ordered(q, table), q.skip, q.take), q.omit)
  {
    if UnknownIn(q.where, schema).Some? then Failure(UnknownColumn(UnknownIn(q.where, schema).value))
    else if q.orderBy.Some? && q.orderBy.value.column !in schema then Failure(UnknownColumn(q.orderBy.value.column))
    else if q.skip.Some? && q.skip.value < 0 then Failure(NegativeSkip)
    else if q.take.Some? && q.take.value < 0 then Failure(NegativeTake)
    else Success(Project(Window(Ordered(q, table), q.skip, q.take), q.omit))
  }

  /** Every returned row is a stored row that satisfies the `where` clause, with the omitted columns removed. */
  lemma FindManyRowsMatch(q: Query, schema: set<string>, table: seq<Row>, i: int)
    requires FindMany(q, schema, table).Success?
    requires 0 <= i < |FindMany(q, schema, table).value|
    ensures exists j :: (0 <= j < |table| && table[j].id == FindMany(q, schema, table).value[i].id
                         && WhereHolds(q.where, table[j])
                         && FindMany(q, schema, table).value[i].cols == table[j].cols - q.omit)
  {
    var ordered := Ordered(q, table);
    var page := Window(ordered, q.skip, q.take);
    assert page[i] in ordered;
    assert page[i] in multiset(ordered);
    var selected := Select(table, q.where);
    assert page[i] in selected;
    var k :| 0 <= k < |selected| && selected[k] == page[i];
    var j :| 0 <= j < |table| && table[j] == page[i];
  }

  /** Without `skip`, `take` and `omit`, `findMany` returns exactly the rows `count` counts. */
  lemma FindManyAgreesWithCount(q: Query, schema: set<string>, table: seq<Row>)
    requires FindMany(q, schema, table).Success?
    requires q.skip.None? && q.take.None? && q.omit == {}
    ensures Count(q.where, schema, table).Success?
    ensures multiset(FindMany(q, schema, table).value) == multiset(Select(table, q.where))
    ensures |FindMany(q, schema, table).value| == Count(q.where, schema, table).value
  {
    var ordered := Ordered(q, table);
    var r := Project(ordered, {});
    assert forall i :: 0 <= i < |r| ==> r[i] == ordered[i] by {
      forall i | 0 <= i < |r| ensures r[i] == ordered[i] {
        assert r[i].cols == ordered[i].cols;
      }
    }
    assert r == ordered;
    assert |ordered| == |multiset(ordered)|;
  }
}
