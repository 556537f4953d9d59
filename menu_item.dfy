/**
 * `CollapsibleMenuItem`: a sidebar entry with children; the keys of all its
 * descendants, the rule that opens it when one of them is active, and the
 * role filter on its children.
 */
module MenuItems {
  import opened Wrappers
  import opened Domain
  import Routes
  import Seqs

  datatype ItemType = Single | Collapsible

  /**
   * A menu entry. An absent `items` is the empty list here: every use in the
   * component treats the two alike (`if (i.items)` then pushes nothing more,
   * and `item.items ?? []`).
   */
  datatype MenuItem = MenuItem(
    itemType: ItemType, title: string, link: Option<string>,
    items: seq<MenuItem>, role: Option<seq<Role>>, level: int)

  /** The keys of a forest, in pre-order: each item's link ("" when none), then its descendants' keys. */
  function Keys(items: seq<MenuItem>): seq<string>
    decreases items
  {
    if items == [] then [] else ItemKeys(items[0]) + Keys(items[1..])
  }

  function ItemKeys(item: MenuItem): seq<string>
    decreases item
  {
    [item.link.GetOr("")] + Keys(item.items)
  }

  /** The number of items in a forest, counted independently of the keys. */
  function NodeCount(items: seq<MenuItem>): nat
    decreases items
  {
    if items == [] then 0
    else 1 + NodeCount(items[0].items) + NodeCount(items[1..])
  }

  lemma {:induction false} KeysAppend(xs: seq<MenuItem>, ys: seq<MenuItem>)
    ensures Keys(xs + ys) == Keys(xs) + Keys(ys)
    decreases |xs|
  {
    if xs != [] {
      assert (xs + ys)[0] == xs[0];
      assert (xs + ys)[1..] == xs[1..] + ys;
      KeysAppend(xs[1..], ys);
      assert Keys(xs + ys) == ItemKeys(xs[0]) + Keys(xs[1..] + ys);
    } else {
      assert xs + ys == ys;
    }
  }

  /** There is exactly one key per item of the forest. */
  lemma {:induction false} KeyCount(items: seq<MenuItem>)
    ensures |Keys(items)| == NodeCount(items)
    decreases items
  {
    if items != [] {
      KeyCount(items[0].items);
      KeyCount(items[1..]);
    }
  }

  /** Every item's own key appears in its forest's keys. */
  lemma {:induction false} LinkIsKey(items: seq<MenuItem>, i: int)
    requires 0 <= i < |items|
    ensures items[i].link.GetOr("") in Keys(items)
    decreases items
  {
    KeysAppend(items[..i], items[i..]);
    assert items == items[..i] + items[i..];
    assert Keys(items[i..]) == ItemKeys(items[i]) + Keys(items[i + 1..]) by {
      assert items[i..][0] == items[i] && items[i..][1..] == items[i + 1..];
    }
  }

  /** `getCollapsibleChildrenKeys`: pushes each item's link and then, recursively, its children's keys. */
  method CollapsibleChildrenKeys(items: seq<MenuItem>) returns (keys: seq<string>)
    ensures keys == Keys(items)
    decreases items
  {
    keys := [];
    var n := 0;
    while n < |items|
      invariant 0 <= n <= |items|
      invariant keys == Keys(items[..n])
    {
      var item := items[n];
      keys := keys + [item.link.GetOr("")];
      if item.items != [] {
        var sub := CollapsibleChildrenKeys(item.items);
        keys := keys + sub;
      }
      assert items[..n + 1] == items[..n] + [item];
      KeysAppend(items[..n], [item]);
      assert [item][1..] == [];
      n := n + 1;
    }
    assert items[..n] == items;
  }

  function AllowedFor(role: Option<Role>): MenuItem -> bool {
    (i: MenuItem) => Routes.RoleAllowed(i.role, role)
  }

  /** The children shown for the signed-in role (the same gate filters the sidebar's top-level menus). */
  function VisibleChildren(items: seq<MenuItem>, role: Option<Role>): (r: seq<MenuItem>)
    ensures |r| <= |items|
    ensures forall i :: 0 <= i < |r| ==> r[i] in items && Routes.RoleAllowed(r[i].role, role)
  {
    Seqs.Filter(items, AllowedFor(role))
  }

  /** A child is shown exactly when its role list admits the role; the shown ones keep their order. */
  lemma VisibleChildrenExactly(items: seq<MenuItem>, role: Option<Role>, x: MenuItem)
    ensures x in VisibleChildren(items, role) <==> x in items && Routes.RoleAllowed(x.role, role)
    ensures Seqs.Subsequence(VisibleChildren(items, role), items)
  {
    Seqs.FilterMembers(items, AllowedFor(role), x);
    Seqs.FilterIsSubsequence(items, AllowedFor(role));
  }

  /** Some descendant key is active for the path; how a key matches a path is the parameter `isActive`. */
  predicate AnyActive(items: seq<MenuItem>, pathname: string, isActive: (string, string) -> bool) {
    exists k :: k in Keys(items) && isActive(k, pathname)
  }

  /** The open/closed state of one collapsible entry. */
  class CollapsibleMenu {
    var isOpen: bool

    constructor ()
      ensures !isOpen
    {
      isOpen := false;
    }

    /** The effect run when the items or the path change: it only ever opens the entry. */
    method SyncOpen(items: seq<MenuItem>, pathname: string, isActive: (string, string) -> bool)
      modifies this
      ensures isOpen == (old(isOpen) || AnyActive(items, pathname, isActive))
    {
      var keys := CollapsibleChildrenKeys(items);
      if exists i :: 0 <= i < |keys| && isActive(keys[i], pathname) {
        isOpen := true;
      }
    }

    /** The trigger button flips the entry. */
    method Toggle()
      modifies this
      ensures isOpen == !old(isOpen)
    {
      isOpen := !isOpen;
    }

    /** `onOpenChange`. */
    method SetOpen(open: bool)
      modifies this
      ensures isOpen == open
    {
      isOpen := open;
    }
  }

  /** An entry whose own link is active for the path is opened by the effect. */
  method ActiveChildOpens(m: CollapsibleMenu, items: seq<MenuItem>, i: int, pathname: string, isActive: (string, string) -> bool)
    requires 0 <= i < |items| && isActive(items[i].link.GetOr(""), pathname)
    modifies m
    ensures m.isOpen
  {
    LinkIsKey(items, i);
    m.SyncOpen(items, pathname, isActive);
  }
}
