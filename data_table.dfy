/**
 * `DataTable`: the generic table component's row-selection sanitising, its
 * choice between controlled (parent-owned) and internal pagination and
 * selection state, and the optional selection column.
 */
module DataTable {
  import opened Wrappers

  /** `RowSelectionState`: selected row id to flag. */
  type Selection = map<string, bool>

  /** The table's pagination state; the internal one has no `totalCount`. */
  datatype PageState = PageState(pageIndex: int, pageSize: int, totalCount: Option<int>)

  /** The internal pagination's initial value. */
  const InitialPagination := PageState(0, 20, None)

  /** The props that decide who owns the state; a callback is modelled by whether it was supplied. */
  datatype Props = Props(
    manualPagination: bool,
    pagination: Option<PageState>,
    hasPaginationCallback: bool,
    selectedRows: Option<Selection>,
    hasSelectionCallback: bool)

  /** What the table library hands to `onPaginationChange`: an updater function or a plain value. */
  datatype PageUpdater = PageFn(f: Option<PageState> -> PageState) | PageValue(value: PageState)

  /** What it hands to `onRowSelectionChange`. */
  datatype SelectionUpdater = SelectionFn(f: Selection -> Selection) | SelectionValue(value: Selection)

  /** The ids of the rows on display; a row may have no id. */
  function Available(data: seq<Option<string>>): (r: set<string>)
    ensures forall k :: k in r <==> Some(k) in data
  {
    set i | 0 <= i < |data| && data[i].Some? :: data[i].value
  }

  /** The selected keys that name a displayed row. */
  function Kept(sel: Selection, data: seq<Option<string>>): (r: set<string>)
    ensures r <= sel.Keys
    ensures forall k :: k in r <==> k in sel && Some(k) in data
  {
    set k | k in sel.Keys && k in Available(data)
  }

  /** The selection reduced to displayed rows, every survivor selected. */
  function Sanitize(sel: Selection, data: seq<Option<string>>): (r: Selection)
    ensures forall k :: k in r <==> k in sel && Some(k) in data
    ensures forall k :: k in r ==> r[k]
  {
    map k | k in Kept(sel, data) :: true
  }

  /** `hasSelectionChanged`: the number of keys differs once the selection is sanitised. */
  predicate Changed(sel: Selection, data: seq<Option<string>>) {
    |Kept(sel, data)| != |sel.Keys|
  }

  lemma {:induction false} SubsetOfSameSize(x: set<string>, y: set<string>)
    requires x <= y && |x| == |y|
    ensures x == y
  {
    var d := y - x;
    assert y == x + d;
    assert x * d == {};
    assert |y| == |x| + |d|;
    assert d == {};
  }

  /**
   * The effect writes the selection back exactly when some selected key names
   * no displayed row; a selection whose keys are all displayed is left as it
   * is, even if some of its flags are false.
   */
  lemma ChangedExactly(sel: Selection, data: seq<Option<string>>)
    ensures Changed(sel, data) <==> exists k :: k in sel && Some(k) !in data
  {
    if !Changed(sel, data) {
      SubsetOfSameSize(Kept(sel, data), sel.Keys);
    } else {
      assert Kept(sel, data) != sel.Keys;
      var k :| k in sel.Keys && k !in Kept(sel, data);
      assert Some(k) !in data;
    }
  }

  /** Sanitising twice changes nothing more, and a sanitised selection is never written back. */
  lemma SanitizeIdempotent(sel: Selection, data: seq<Option<string>>)
    ensures Sanitize(Sanitize(sel, data), data) == Sanitize(sel, data)
    ensures !Changed(Sanitize(sel, data), data)
  {
    ChangedExactly(Sanitize(sel, data), data);
  }

  /** The selection-column description; the others are the caller's columns. */
  datatype Column = SelectColumn | DataColumn(id: string)

  /** `refinedColumns`: a selection column is put first exactly when the parent owns the selection. */
  function RefinedColumns(columns: seq<Column>, selectedRows: Option<Selection>): (r: seq<Column>)
    ensures |r| == |columns| + (if selectedRows.Some? then 1 else 0)
    ensures r[|r| - |columns|..] == columns
    ensures selectedRows.Some? ==> r[0] == SelectColumn
  {
    if selectedRows.Some? then [SelectColumn] + columns else columns
  }

  /** The table's own state, used when the parent does not control it. */
  class Table {
    var internalPagination: PageState
    var internalRowSelection: Selection

    constructor ()
      ensures internalPagination == InitialPagination && internalRowSelection == map[]
    {
      internalPagination := InitialPagination;
      internalRowSelection := map[];
    }

    /** `pagination`: the parent's under manual pagination, else the table's own. */
    function CurrentPagination(p: Props): (r: Option<PageState>)
      reads this
      ensures !p.manualPagination ==> r == Some(internalPagination)
      ensures p.manualPagination ==> r == p.pagination
    {
      if p.manualPagination then p.pagination else Some(internalPagination)
    }

    /** `rowSelection`: the parent's when supplied, else the table's own. */
    function CurrentSelection(p: Props): (r: Selection)
      reads this
      ensures p.selectedRows.Some? ==> r == p.selectedRows.value
      ensures p.selectedRows.None? ==> r == internalRowSelection
    {
      p.selectedRows.GetOr(internalRowSelection)
    }

    /** `setRowSelection`: to the parent's callback when there is one, else into the table's own state. */
    method SetRowSelection(p: Props, value: Selection) returns (sent: Option<Selection>)
      modifies this
      ensures p.hasSelectionCallback ==> sent == Some(value) && internalRowSelection == old(internalRowSelection)
      ensures !p.hasSelectionCallback ==> sent == None && internalRowSelection == value
      ensures internalPagination == old(internalPagination)
    {
      if p.hasSelectionCallback {
        sent := Some(value);
      } else {
        sent := None;
        internalRowSelection := value;
      }
    }

    /** The effect run after `data` changes. */
    method SyncSelection(p: Props, data: seq<Option<string>>) returns (sent: Option<Selection>)
      modifies this
      ensures var sel := old(CurrentSelection(p));
        if !Changed(sel, data) then
          sent == None && internalRowSelection == old(internalRowSelection)
        else if p.hasSelectionCallback then
          sent == Some(Sanitize(sel, data)) && internalRowSelection == old(internalRowSelection)
        else
          sent == None && internalRowSelection == Sanitize(sel, data)
      ensures internalPagination == old(internalPagination)
    {
      var rowSelection := CurrentSelection(p);
      var selectionState := Sanitize(rowSelection, data);
      sent := None;
      if |Kept(rowSelection, data)| != |rowSelection.Keys| {
        sent := SetRowSelection(p, selectionState);
      }
    }

    /** `onRowSelectionChange`: the updated selection, reduced to displayed rows, is always written. */
    method OnRowSelectionChange(p: Props, data: seq<Option<string>>, updater: SelectionUpdater)
      returns (sent: Option<Selection>)
      modifies this
      ensures var next := match updater
          case SelectionFn(f) => f(old(CurrentSelection(p)))
          case SelectionValue(v) => v;
        if p.hasSelectionCallback then
          sent == Some(Sanitize(next, data)) && internalRowSelection == old(internalRowSelection)
        else
          sent == None && internalRowSelection == Sanitize(next, data)
      ensures internalPagination == old(internalPagination)
    {
      var newSelection := match updater
        case SelectionFn(f) => f(CurrentSelection(p))
        case SelectionValue(v) => v;
      sent := SetRowSelection(p, Sanitize(newSelection, data));
    }

    /**
     * `onPaginationChange`: a plain value is ignored; an updater is applied to
     * the current pagination and the result goes to the parent's callback (if
     * any) under manual pagination, or into the table's own state otherwise.
     */
    method OnPaginationChange(p: Props, updater: PageUpdater) returns (sent: Option<PageState>)
      modifies this
      ensures updater.PageValue? ==> sent == None && internalPagination == old(internalPagination)
      ensures updater.PageFn? && p.manualPagination ==>
        internalPagination == old(internalPagination)
        && sent == (if p.hasPaginationCallback then Some(updater.f(p.pagination)) else None)
      ensures updater.PageFn? && !p.manualPagination ==>
        sent == None && internalPagination == updater.f(Some(old(internalPagination)))
      ensures internalRowSelection == old(internalRowSelection)
    {
      sent := None;
      if updater.PageValue? {
        return;
      }
      var nextState := updater.f(CurrentPagination(p));
      if p.manualPagination {
        if p.hasPaginationCallback {
          sent := Some(nextState);
        }
      } else {
        internalPagination := nextState;
      }
    }
  }

  /** After the effect, with no callback, every selected key names a displayed row and is selected. */
  lemma SyncedSelectionIsDisplayed(sel: Selection, data: seq<Option<string>>, k: string)
    requires k in Sanitize(sel, data)
    ensures Some(k) in data && k in sel && Sanitize(sel, data)[k]
  {
  }
}
