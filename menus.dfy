/**
 * The data the drill-down menu shows (js/modules/ui.js, lines 68-97,
 * 180-189 and 230-232): the parent link, the title, the notice of an empty
 * result, and the navigable children with their levels.
 */
module Menus {
  import opened JsValues
  import opened TaxonTree

  /** The child rows a menu offers: those with a truthy `id`, in order. A row
      without an id is a data-only summary with nowhere to go. */
  function Navigable(rows: seq<Node>): seq<Node> {
    if rows == [] then []
    else (if Truthy(rows[0].id) then [rows[0]] else []) + Navigable(rows[1..])
  }

  /** Filtering a concatenation filters each part, so the order of the rows
      is kept. */
  lemma {:induction false} NavigableAppend(a: seq<Node>, b: seq<Node>)
    ensures Navigable(a + b) == Navigable(a) + Navigable(b)
    decreases |a|
  {
    if a == [] {
      assert a + b == b;
    } else {
      var ab := a + b;
      var head := if Truthy(a[0].id) then [a[0]] else [];
      assert ab[0] == a[0];
      assert ab[1..] == a[1..] + b;
      NavigableAppend(a[1..], b);
      assert Navigable(ab) == head + (Navigable(a[1..]) + Navigable(b));
      assert Navigable(a) == head + Navigable(a[1..]);
    }
  }

  /** A row is offered exactly when it is one of the rows and its id is
      truthy; the menu never has more entries than rows. */
  lemma {:induction false} NavigableRows(rows: seq<Node>)
    ensures |Navigable(rows)| <= |rows|
    ensures forall n :: n in Navigable(rows) <==> n in rows && Truthy(n.id)
    decreases |rows|
  {
    if rows != [] {
      NavigableRows(rows[1..]);
      forall n ensures n in rows <==> n == rows[0] || n in rows[1..] {
        if n in rows {
          var i :| 0 <= i < |rows| && rows[i] == n;
          if i > 0 { assert rows[1..][i - 1] == n; }
        }
      }
    }
  }

  /** With every id truthy, every row is offered. */
  lemma {:induction false} NavigableAllTruthy(rows: seq<Node>)
    requires forall i :: 0 <= i < |rows| ==> Truthy(rows[i].id)
    ensures Navigable(rows) == rows
    decreases |rows|
  {
    if rows != [] {
      NavigableAllTruthy(rows[1..]);
    }
  }

  /** `parseInt(parentLevel) + 1`: a child sits one level below a parent
      whose level is a number (and, by ChildLevelOfDecimal, the decimal text
      of one). */
  function ChildLevel(parentLevel: JsValue): (level: JsValue)
    ensures level.Num? || level.NaN?
    ensures parentLevel.Num? ==> level == Num(parentLevel.n + 1)
  {
    if parentLevel.Num? then
      ParseIntValueOfNum(parentLevel.n);
      AddNumber(ParseIntValue(parentLevel), 1)
    else
      AddNumber(ParseIntValue(parentLevel), 1)
  }

  /** A level written as the decimal text of n, as the address gives it, has
      its children at level n + 1. */
  lemma ChildLevelOfDecimal(n: int)
    ensures ChildLevel(Str(IntToString(n))) == Num(n + 1)
  {
    ParseIntOfIntToString(n);
  }

  /** The menu item of one child row. */
  function ChildItem(row: Node, level: JsValue): LinkItem {
    LinkItem(row.name, row.id, level, row.count, None, None)
  }

  function ChildItems(rows: seq<Node>, level: JsValue): seq<LinkItem> {
    seq(|rows|, i requires 0 <= i < |rows| => ChildItem(rows[i], level))
  }

  lemma ChildItemsAppend(rows: seq<Node>, row: Node, level: JsValue)
    ensures ChildItems(rows + [row], level) == ChildItems(rows, level) + [ChildItem(row, level)]
  {
  }

  lemma NavigableItems(rows: seq<Node>, level: JsValue)
    ensures forall i :: 0 <= i < |ChildItems(Navigable(rows), level)| ==>
      Truthy(ChildItems(Navigable(rows), level)[i].id) && ChildItems(Navigable(rows), level)[i].level == level
  {
    var kept := Navigable(rows);
    NavigableRows(rows);
    forall i | 0 <= i < |kept| ensures Truthy(kept[i].id) {
      assert kept[i] in kept;
    }
  }

  /** The menu items of a row list: no more than the rows, each navigable and
      at the given level. */
  lemma MenuItemsBounded(rows: seq<Node>, level: JsValue)
    ensures |ChildItems(Navigable(rows), level)| <= |rows|
    ensures forall i :: 0 <= i < |ChildItems(Navigable(rows), level)| ==>
      Truthy(ChildItems(Navigable(rows), level)[i].id) && ChildItems(Navigable(rows), level)[i].level == level
  {
    NavigableRows(rows);
    NavigableItems(rows, level);
  }

  /** One more row adds its item exactly when its id is truthy. */
  lemma MenuChildrenStep(rows: seq<Node>, i: nat, level: JsValue)
    requires i < |rows|
    ensures ChildItems(Navigable(rows[..i + 1]), level)
      == ChildItems(Navigable(rows[..i]), level) + (if Truthy(rows[i].id) then [ChildItem(rows[i], level)] else [])
  {
    NavigableAppend(rows[..i], [rows[i]]);
    assert rows[..i + 1] == rows[..i] + [rows[i]];
    assert Navigable([rows[i]]) == if Truthy(rows[i].id) then [rows[i]] else [];
    if Truthy(rows[i].id) {
      ChildItemsAppend(Navigable(rows[..i]), rows[i], level);
    }
  }

  /** Lines 184-187: the loop over the child rows, at a level already
      computed. */
  method MenuItemsAt(childArray: seq<Node>, level: JsValue) returns (data: seq<LinkItem>)
    ensures data == ChildItems(Navigable(childArray), level)
  {
    data := [];
    var i := 0;
    while i < |childArray|
      invariant 0 <= i <= |childArray|
      invariant data == ChildItems(Navigable(childArray[..i]), level)
    {
      MenuChildrenStep(childArray, i, level);
      if Truthy(childArray[i].id) {
        data := data + [ChildItem(childArray[i], level)];
      }
      i := i + 1;
    }
    assert childArray[..i] == childArray;
  }

  /** Lines 180-189: `parseInt(parentLevel) + 1`, then the loop. */
  method MenuChildren(childArray: seq<Node>, parentLevel: JsValue) returns (data: seq<LinkItem>)
    ensures data == ChildItems(Navigable(childArray), ChildLevel(parentLevel))
    ensures |data| <= |childArray|
    ensures forall i :: 0 <= i < |data| ==> Truthy(data[i].id) && data[i].level == ChildLevel(parentLevel)
  {
    var level := ChildLevel(parentLevel);
    data := MenuItemsAt(childArray, level);
    MenuItemsBounded(childArray, level);
  }

  /** Line 231: the `↩` link to the parent, one level up (`level - 1`). */
  function ParentItem(parentId: JsValue, level: JsValue): LinkItem {
    LinkItem(Str("↩"), parentId, AddNumber(ToNumber(level), -1), Undefined, Some("parent links"), Some("Parent taxon"))
  }

  /** What `updateMenu` draws. */
  datatype Menu = Menu(
    parentLink: Option<LinkItem>,
    title: JsValue,
    notice: Option<string>,
    download: bool,
    sheetLink: bool,
    children: seq<LinkItem>)

  predicate TruthyText(s: Option<string>) {
    s.Some? && s.value != ""
  }

  /** The parent's first child, used as the title when there is no child. */
  predicate HasFirstChild(parent: Option<Node>) {
    parent.Some? && parent.value.children.Present? && parent.value.children.nodes != []
  }

  /** The rows `drawMenuChildren` is given (line 94): the child's `children`
      when it has them, none otherwise. */
  function ChildRows(child: Option<Node>): seq<Node> {
    if child.Some? && child.value.children.Present? then child.value.children.nodes else []
  }

  /** Lines 68-97, given what `taxon.getParent()` and `taxon.getChild()`
      return (the taxon module is not part of this model). None stands for the
      TypeError thrown when the parent link needs a missing parent, or when
      there is no child and the parent has no first child to take the title
      from. */
  function UpdateMenu(parent: Option<Node>, child: Option<Node>, level: JsValue, noresults: Option<string>): (r: Option<Menu>)
    ensures r.None? <==> (Truthy(level) && parent.None?) || (child.None? && !HasFirstChild(parent))
    ensures r.Some? ==> (r.value.parentLink.Some? <==> Truthy(level))
    ensures r.Some? && r.value.parentLink.Some? ==>
      r.value.parentLink.value.id == parent.value.id
      && r.value.parentLink.value.level == AddNumber(ToNumber(level), -1)
    ensures r.Some? && TruthyText(noresults) ==>
      r.value.notice == noresults && r.value.children == [] && !r.value.download && !r.value.sheetLink
    ensures r.Some? && !TruthyText(noresults) ==>
      && r.value.notice.None? && r.value.download
      && (r.value.sheetLink <==> child.Some?)
      && r.value.children == ChildItems(Navigable(ChildRows(child)), ChildLevel(level))
      && |r.value.children| <= |ChildRows(child)|
      && forall i :: 0 <= i < |r.value.children| ==>
           Truthy(r.value.children[i].id) && r.value.children[i].level == ChildLevel(level)
    ensures r.Some? && child.Some? ==> r.value.title == child.value.name
    ensures r.Some? && child.None? ==> HasFirstChild(parent) && r.value.title == parent.value.children.nodes[0].name
  {
    if Truthy(level) && parent.None? then None
    else if child.None? && !HasFirstChild(parent) then None
    else
      var parentLink := if Truthy(level) then Some(ParentItem(parent.value.id, level)) else None;
      var title := if child.Some? then child.value.name else parent.value.children.nodes[0].name;
      if TruthyText(noresults) then Some(Menu(parentLink, title, noresults, false, false, []))
      else
        var kids := ChildRows(child);
        NavigableRows(kids);
        NavigableItems(kids, ChildLevel(level));
        Some(Menu(parentLink, title, None, true, child.Some?, ChildItems(Navigable(kids), ChildLevel(level))))
  }
}
