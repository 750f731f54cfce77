/**
 * The nested taxon tree as the breadcrumb reads it, `flatten` (js/modules/ui.js,
 * lines 242-247) and the item list `drawBreadcrumb` builds (lines 249-266).
 */
module TaxonTree {
  import opened JsValues

  /** A node of `taxon.tree`. */
  datatype Node = Node(name: JsValue, id: JsValue, count: JsValue, children: Children)

  /** The `children` field: Absent when the node has none (not expanded); an
      expanded node holds an array, which may be empty. */
  datatype Children = Absent | Present(nodes: seq<Node>)

  /** One ancestry entry `{name, id}`. */
  datatype Crumb = Crumb(name: JsValue, id: JsValue)

  function CrumbOf(n: Node): Crumb {
    Crumb(n.name, n.id)
  }

  /** `flatten(children, newArray)`: pushes `{name, id}` for every node that
      has a `children` field and continues with `children[0]`. None stands for
      the TypeError thrown when an empty `children` array is met: its `[0]` is
      undefined and reading `children` from it throws. */
  function FlattenInto(t: Node, acc: seq<Crumb>): Option<seq<Crumb>>
    decreases t
  {
    match t.children
    case Absent => Some(acc)
    case Present(kids) =>
      if kids == [] then None else FlattenInto(kids[0], acc + [CrumbOf(t)])
  }

  /** `flatten(tree)`, called with no accumulator. */
  function Flatten(t: Node): Option<seq<Crumb>> {
    FlattenInto(t, [])
  }

  /** Reference for the active chain: the node reached from `t` by following
      `children[0]` k times; None when the chain stops earlier. */
  function Descend(t: Node, k: nat): Option<Node>
    decreases t
  {
    if k == 0 then Some(t)
    else match t.children
      case Absent => None
      case Present(kids) => if kids == [] then None else Descend(kids[0], k - 1)
  }

  /** The active chain never reaches an empty `children` array. */
  predicate ChainOk(t: Node)
    decreases t
  {
    match t.children
    case Absent => true
    case Present(kids) => kids != [] && ChainOk(kids[0])
  }

  lemma {:induction false} FlattenIntoChain(t: Node, acc: seq<Crumb>)
    ensures FlattenInto(t, acc).Some? <==> ChainOk(t)
    ensures FlattenInto(t, acc).Some? ==>
      var r := FlattenInto(t, acc).value;
      && |r| >= |acc| && r[..|acc|] == acc
      && (forall k :: 0 <= k < |r| - |acc| ==>
            Descend(t, k).Some? && Descend(t, k).value.children.Present? && r[|acc| + k] == CrumbOf(Descend(t, k).value))
      && Descend(t, |r| - |acc|).Some? && Descend(t, |r| - |acc|).value.children.Absent?
    decreases t
  {
    match t.children
    case Absent =>
    case Present(kids) =>
      if kids != [] {
        var acc' := acc + [CrumbOf(t)];
        FlattenIntoChain(kids[0], acc');
        if FlattenInto(t, acc).Some? {
          var r := FlattenInto(t, acc).value;
          assert r == FlattenInto(kids[0], acc').value;
          assert r[..|acc'|] == acc';
          assert r[..|acc|] == acc by { assert r[..|acc|] == r[..|acc'|][..|acc|]; }
          forall k | 0 <= k < |r| - |acc|
            ensures Descend(t, k).Some? && Descend(t, k).value.children.Present? && r[|acc| + k] == CrumbOf(Descend(t, k).value)
          {
            if k == 0 {
              assert r[|acc|] == r[..|acc'|][|acc|];
            } else {
              assert Descend(t, k) == Descend(kids[0], k - 1);
              assert r[|acc| + k] == r[|acc'| + (k - 1)];
            }
          }
          assert Descend(t, |r| - |acc|) == Descend(kids[0], |r| - |acc'|);
        }
      }
  }

  /** `flatten` returns, root first, one `{name, id}` per node of the active
      chain that has a `children` field, stopping at the first node without
      one; it fails exactly when the chain reaches an empty `children` array. */
  lemma FlattenFollowsChain(t: Node)
    ensures Flatten(t).Some? <==> ChainOk(t)
    ensures Flatten(t).Some? ==>
      var r := Flatten(t).value;
      && (forall k :: 0 <= k < |r| ==>
            Descend(t, k).Some? && Descend(t, k).value.children.Present? && r[k] == CrumbOf(Descend(t, k).value))
      && Descend(t, |r|).Some? && Descend(t, |r|).value.children.Absent?
  {
    FlattenIntoChain(t, []);
  }

  /** `flatten` throws exactly when the active chain reaches an empty
      `children` array. */
  lemma FlattenFailsOnEmptyChildren(t: Node)
    ensures Flatten(t).None? <==> !ChainOk(t)
  {
    FlattenIntoChain(t, []);
  }

  /** What a breadcrumb or menu link carries (`drawBreadcrumbItem`,
      `drawMenuItem`); a click on it selects `new taxon(id, level)`. */
  datatype LinkItem = LinkItem(
    name: JsValue,
    id: JsValue,
    level: JsValue,
    count: JsValue,
    className: Option<string>,
    tooltip: Option<string>)

  /** An element of the breadcrumb: a link, or the `...` placeholder. */
  datatype Entry = Link(item: LinkItem) | Dots

  /** The synthetic root of every breadcrumb. */
  const EukaryotaItem := LinkItem(Str("Eukaryota"), Str("Eukaryota"), Num(0), Undefined, Some("btn"), None)

  /** Ancestry entry k as drawn: level k, class `btn`. */
  function AncestorItem(c: Crumb, k: nat): LinkItem {
    LinkItem(c.name, c.id, Num(k), Undefined, Some("btn"), None)
  }

  /** The breadcrumb drawn from an ancestry: the Eukaryota link, the dots, then
      ancestry entries 1 onwards, entry k at level k; entry 0 is not drawn. */
  predicate IsBreadcrumbOf(html: seq<Entry>, ancestry: seq<Crumb>) {
    && |html| == (if |ancestry| == 0 then 2 else |ancestry| + 1)
    && html[0] == Link(EukaryotaItem)
    && html[1] == Dots
    && forall k :: 1 <= k < |ancestry| ==> html[k + 1] == Link(AncestorItem(ancestry[k], k))
  }

  /** Lines 251-266: the loop that fills `html`. */
  method BreadcrumbItems(ancestry: seq<Crumb>) returns (html: seq<Entry>)
    ensures IsBreadcrumbOf(html, ancestry)
  {
    html := [Link(EukaryotaItem), Dots];
    var k := 1;
    while k < |ancestry|
      invariant 1 <= k <= if |ancestry| == 0 then 1 else |ancestry|
      invariant |html| == k + 1
      invariant html[0] == Link(EukaryotaItem) && html[1] == Dots
      invariant forall j :: 1 <= j < k ==> html[j + 1] == Link(AncestorItem(ancestry[j], j))
    {
      html := html + [Link(AncestorItem(ancestry[k], k))];
      k := k + 1;
    }
  }

  /** Entry `e` is a link to node `n` at level `k`. */
  predicate LinksTo(e: Entry, n: Node, k: nat) {
    e.Link? && e.item.id == n.id && e.item.name == n.name && e.item.level == Num(k)
  }

  /** Every link of a breadcrumb drawn from `flatten(tree)` past the root leads
      to the node at that depth of the active chain, and carries that depth as
      its level: position k + 1 holds chain node k at level k. */
  lemma BreadcrumbLinksFollowChain(tree: Node, html: seq<Entry>)
    requires Flatten(tree).Some? && IsBreadcrumbOf(html, Flatten(tree).value)
    ensures forall k :: 1 <= k < |html| - 1 ==>
      Descend(tree, k).Some? && LinksTo(html[k + 1], Descend(tree, k).value, k)
  {
    FlattenFollowsChain(tree);
    var ancestry := Flatten(tree).value;
    forall k | 1 <= k < |html| - 1
      ensures Descend(tree, k).Some? && LinksTo(html[k + 1], Descend(tree, k).value, k)
    {
      assert html[k + 1] == Link(AncestorItem(ancestry[k], k));
      assert ancestry[k] == CrumbOf(Descend(tree, k).value);
    }
  }

  /** Lines 251-266 after the level update: the ancestry from `flatten(tree)`,
      then its items; None when `flatten` throws. */
  method Breadcrumb(tree: Node) returns (entries: Option<seq<Entry>>)
    ensures entries.Some? <==> ChainOk(tree)
    ensures entries.Some? ==> Flatten(tree).Some? && IsBreadcrumbOf(entries.value, Flatten(tree).value)
  {
    var ancestry := Flatten(tree);
    FlattenFailsOnEmptyChildren(tree);
    if ancestry.None? {
      entries := None;
    } else {
      var html := BreadcrumbItems(ancestry.value);
      entries := Some(html);
    }
  }

  /** A node fetch for Chordata, whose ancestry starts at the level-0 root
      Eukaryota, with its children expanded: the breadcrumb is the fixed
      Eukaryota item, the dots, then Animalia at level 1 and Chordata at
      level 2. Entry 0 of the ancestry, the root, is replaced by the fixed
      item rather than drawn. */
  lemma ChordataBreadcrumb(html: seq<Entry>)
    requires
      var mammalia := Node(Str("Mammalia"), Str("Mammalia"), Num(5), Absent);
      var chordata := Node(Str("Chordata"), Str("Chordata"), Undefined, Present([mammalia]));
      var animalia := Node(Str("Animalia"), Str("Animalia"), Undefined, Present([chordata]));
      var tree := Node(Str("Eukaryota"), Str("Eukaryota"), Undefined, Present([animalia]));
      Flatten(tree).Some? && IsBreadcrumbOf(html, Flatten(tree).value)
    ensures html == [Link(EukaryotaItem), Dots,
                     Link(LinkItem(Str("Animalia"), Str("Animalia"), Num(1), Undefined, Some("btn"), None)),
                     Link(LinkItem(Str("Chordata"), Str("Chordata"), Num(2), Undefined, Some("btn"), None))]
  {
    var mammalia := Node(Str("Mammalia"), Str("Mammalia"), Num(5), Absent);
    var chordata := Node(Str("Chordata"), Str("Chordata"), Undefined, Present([mammalia]));
    var animalia := Node(Str("Animalia"), Str("Animalia"), Undefined, Present([chordata]));
    var tree := Node(Str("Eukaryota"), Str("Eukaryota"), Undefined, Present([animalia]));
    var ancestry := [CrumbOf(tree), CrumbOf(animalia), CrumbOf(chordata)];
    assert FlattenInto(mammalia, ancestry) == Some(ancestry);
    assert [CrumbOf(tree), CrumbOf(animalia)] + [CrumbOf(chordata)] == ancestry;
    assert FlattenInto(chordata, [CrumbOf(tree), CrumbOf(animalia)]) == Some(ancestry);
    assert [CrumbOf(tree)] + [CrumbOf(animalia)] == [CrumbOf(tree), CrumbOf(animalia)];
    assert FlattenInto(animalia, [CrumbOf(tree)]) == Some(ancestry);
    assert [] + [CrumbOf(tree)] == [CrumbOf(tree)];
    assert Flatten(tree) == FlattenInto(animalia, [CrumbOf(tree)]);
    assert html[2] == Link(AncestorItem(ancestry[1], 1));
    assert html[3] == Link(AncestorItem(ancestry[2], 2));
  }
}
