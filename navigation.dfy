/**
 * The navigation controller of js/modules/ui.js: the module-level state
 * `currentTaxon`, `activeFilters` and `level` (lines 16-24), and the entry
 * points that change it: `setTaxon` (26-57), `updateUI` (59-66),
 * `updateMenus` (302-330), `drawBreadcrumb`'s reassignment of `level`
 * (250), the callbacks of the two requests, and `loadTaxoMap` (332-355).
 *
 * Requests are asynchronous: a method returns the effects it has at once,
 * among them a `Request` that records what its callback captured; the
 * callback is a separate method, to be called with the response whenever it
 * arrives, in any order.
 */
module Navigation {
  import opened JsValues
  import opened PageParams
  import opened TaxonTree
  import opened Queries

  /** A `taxon` object: the id and level it was made with, and the tree its
      `convertFromApi` last built (None before any response). */
  class Taxon {
    const id: JsValue
    const level: JsValue
    var tree: Option<Node>

    constructor (id: JsValue, level: JsValue)
      ensures this.id == id && this.level == level && tree == None
    {
      this.id := id;
      this.level := level;
      tree := None;
    }
  }

  /** What `updateMenu` is called with: the error branch of the node fetch
      (line 41) passes the module `taxon`, not the taxon being fetched. */
  datatype MenuTarget = TaxonModule | Instance(taxon: Taxon)

  /** What the callback of a request captured. */
  datatype Pending = AfterNode(taxon: Taxon, filters: Filters) | AfterChildren(taxon: Taxon)

  /** What an entry point does that is seen outside the three variables. */
  datatype Effect =
    | MapSql(sql: string)                               // map.setSql(query)
    | Request(url: string, pending: Pending)            // makeQuery(url, callback)
    | ShowBreadcrumb(entries: seq<Entry>)               // updateBreadcrumb
    | ShowMenu(target: MenuTarget, noresults: Option<string>)  // updateMenu
    | Thrown                                            // a TypeError escapes

  class Controller {
    const env: Env
    const settings: Settings
    var currentTaxon: Taxon?
    var activeFilters: Filters
    /** The module-level `level`: the page setting, until `drawBreadcrumb`
        replaces it by `parseInt` of itself. */
    var level: JsValue

    /** `level` always holds a value whose `parseInt` is a nonzero number. */
    ghost predicate Valid()
      reads this
    {
      Truthy(ParseIntValue(level))
    }

    /** Module load: the settings from the address, no taxon yet, an empty
        (but truthy) filter array. The module loads only when no address item
        has the key `hasOwnProperty`; otherwise line 15 throws and there is no
        controller (PageSettingsAsWritten). */
    constructor (env: Env, search: string)
      requires "hasOwnProperty" !in ParamTable(search)
      ensures Valid()
      ensures this.env == env && settings == PageSettings(ParamTable(search))
      ensures PageSettingsAsWritten(ParamTable(search)) == Some(settings)
      ensures level == settings.level && activeFilters == [] && currentTaxon == null
    {
      this.env := env;
      settings := PageSettings(ParamTable(search));
      level := PageSettings(ParamTable(search)).level;
      activeFilters := [];
      currentTaxon := null;
    }

    /** Lines 302-330, up to the request: a truthy `filters` replaces the
        active filters, otherwise the active ones are used; a missing taxon
        means the current one. */
    method UpdateMenus(taxon: Taxon?, filters: Option<Filters>) returns (effects: seq<Effect>)
      modifies this`activeFilters
      ensures activeFilters == if filters.Some? then filters.value else old(activeFilters)
      ensures var t := if taxon != null then taxon else currentTaxon;
        effects == if t == null then [Thrown]
                   else [Request(BuildQuery(env, t.id, t.level, true, Some(activeFilters)), AfterChildren(t))]
    {
      var t := taxon;
      if t == null {
        t := currentTaxon;
      }
      var f := activeFilters;
      if filters.Some? {
        f := filters.value;
        activeFilters := f;
      }
      if t == null {
        effects := [Thrown];
      } else {
        var query := BuildQuery(env, t.id, t.level, true, Some(f));
        effects := [Request(query, AfterChildren(t))];
      }
    }

    /** Lines 59-66: the map layer's SQL, then `updateMenus`. */
    method UpdateUI(taxon: Taxon?, filters: Filters) returns (effects: seq<Effect>)
      modifies this`activeFilters
      ensures taxon == null ==> effects == [Thrown] && activeFilters == old(activeFilters)
      ensures taxon != null ==>
        && activeFilters == filters
        && effects == [
             MapSql(env.sqlWhere(taxon.id, taxon.level, taxon.tree) + env.filtersSql(filters, MapSqlKinds)),
             Request(BuildQuery(env, taxon.id, taxon.level, true, Some(filters)), AfterChildren(taxon))]
    {
      if taxon == null {
        effects := [Thrown];
        return;
      }
      var query := env.sqlWhere(taxon.id, taxon.level, taxon.tree) + env.filtersSql(filters, MapSqlKinds);
      var more := UpdateMenus(taxon, Some(filters));
      effects := [MapSql(query)] + more;
    }

    /** Lines 26-57. With a new taxon: one node request, and `currentTaxon`
        becomes the new taxon at once, whatever the response will be. Without
        one: the current taxon is drawn again at once. `activeFilters` is not
        assigned here, only through `updateMenus`. */
    method SetTaxon(newTaxon: Taxon?, filters: Option<Filters>) returns (effects: seq<Effect>)
      modifies this`activeFilters, this`currentTaxon
      ensures currentTaxon == if newTaxon != null then newTaxon else old(currentTaxon)
      ensures newTaxon != null ==>
        && activeFilters == old(activeFilters)
        && effects == [Request(BuildQuery(env, newTaxon.id, newTaxon.level, false, None),
                               AfterNode(newTaxon, if filters.Some? then filters.value else old(activeFilters)))]
      ensures newTaxon == null && old(currentTaxon) == null ==>
        effects == [Thrown] && activeFilters == old(activeFilters)
      ensures newTaxon == null && old(currentTaxon) != null ==>
        && activeFilters == (if filters.Some? then filters.value else old(activeFilters))
        && effects == [
             MapSql(env.sqlWhere(currentTaxon.id, currentTaxon.level, currentTaxon.tree)
                    + env.filtersSql(activeFilters, MapSqlKinds)),
             Request(BuildQuery(env, currentTaxon.id, currentTaxon.level, true, Some(activeFilters)),
                     AfterChildren(currentTaxon))]
    {
      var f := if filters.Some? then filters.value else activeFilters;
      if newTaxon == null {
        effects := UpdateUI(currentTaxon, f);
      } else {
        var query := BuildQuery(env, newTaxon.id, newTaxon.level, false, None);
        effects := [Request(query, AfterNode(newTaxon, f))];
        currentTaxon := newTaxon;
      }
    }

    /** Lines 249-266: `level` becomes `parseInt(level)`, then the breadcrumb
        is drawn from `flatten(tree)`; None when flatten throws. */
    method DrawBreadcrumb(tree: Node) returns (entries: Option<seq<Entry>>)
      requires Valid()
      modifies this`level
      ensures Valid()
      ensures level == ParseIntValue(old(level)) && level.Num?
      ensures entries.Some? <==> ChainOk(tree)
      ensures entries.Some? ==> Flatten(tree).Some? && IsBreadcrumbOf(entries.value, Flatten(tree).value)
    {
      var parsed := ParseIntValue(level);
      ParseIntValueIdempotent(level);
      level := parsed;
      entries := Breadcrumb(tree);
    }

    /** Lines 45-47: the tree `convertFromApi` built is stored, then the
        breadcrumb and the rest of the view are redrawn. */
    method ShowNode(taxon: Taxon, filters: Filters, converted: Node) returns (effects: seq<Effect>)
      requires Valid()
      modifies this`activeFilters, this`level, taxon`tree
      ensures Valid()
      ensures taxon.tree == Some(converted) && level == ParseIntValue(old(level))
      ensures !ChainOk(converted) ==> effects == [Thrown] && activeFilters == old(activeFilters)
      ensures ChainOk(converted) ==>
        && activeFilters == filters
        && |effects| == 3 && effects[0].ShowBreadcrumb?
        && Flatten(converted).Some?
        && IsBreadcrumbOf(effects[0].entries, Flatten(converted).value)
        && effects[1..] == [
             MapSql(env.sqlWhere(taxon.id, taxon.level, taxon.tree) + env.filtersSql(filters, MapSqlKinds)),
             Request(BuildQuery(env, taxon.id, taxon.level, true, Some(filters)), AfterChildren(taxon))]
    {
      taxon.tree := Some(converted);
      var entries := DrawBreadcrumb(converted);
      if entries.None? {
        effects := [Thrown];
        return;
      }
      var more := UpdateUI(taxon, filters);
      effects := [ShowBreadcrumb(entries.value)] + more;
      assert effects[1..] == more;
    }

    /** The callback of the node request (lines 38-49). On an empty response
        or a failure, `updateMenu` is called with the taxon module and the
        relabelled message, and no state changes; data goes to ShowNode. */
    method OnNodeResponse(taxon: Taxon, filters: Filters, response: Response, converted: Node)
      returns (effects: seq<Effect>)
      requires Valid()
      modifies this`activeFilters, this`level, taxon`tree
      ensures Valid()
      ensures Relabel(Classify(response), NodeFetch).Error? ==>
        && effects == [ShowMenu(TaxonModule, Some(Relabel(Classify(response), NodeFetch).message))]
        && activeFilters == old(activeFilters) && level == old(level) && taxon.tree == old(taxon.tree)
      ensures Relabel(Classify(response), NodeFetch).Rows? ==>
        taxon.tree == Some(converted) && level == ParseIntValue(old(level))
      ensures Relabel(Classify(response), NodeFetch).Rows? && !ChainOk(converted) ==>
        effects == [Thrown] && activeFilters == old(activeFilters)
      ensures Relabel(Classify(response), NodeFetch).Rows? && ChainOk(converted) ==>
        && activeFilters == filters
        && |effects| == 3 && effects[0].ShowBreadcrumb?
        && Flatten(converted).Some?
        && IsBreadcrumbOf(effects[0].entries, Flatten(converted).value)
        && effects[1..] == [
             MapSql(env.sqlWhere(taxon.id, taxon.level, taxon.tree) + env.filtersSql(filters, MapSqlKinds)),
             Request(BuildQuery(env, taxon.id, taxon.level, true, Some(filters)), AfterChildren(taxon))]
    {
      var outcome := Relabel(Classify(response), NodeFetch);
      if outcome.Error? {
        effects := [ShowMenu(TaxonModule, Some(outcome.message))];
      } else {
        effects := ShowNode(taxon, filters, converted);
      }
    }

    /** The callback of the children request (lines 319-329). */
    method OnChildrenResponse(taxon: Taxon, response: Response, converted: Node)
      returns (effects: seq<Effect>)
      modifies taxon`tree
      ensures Relabel(Classify(response), ChildrenFetch).Error? ==>
        && effects == [ShowMenu(Instance(taxon), Some(Relabel(Classify(response), ChildrenFetch).message))]
        && taxon.tree == old(taxon.tree)
      ensures Relabel(Classify(response), ChildrenFetch).Rows? ==>
        taxon.tree == Some(converted) && effects == [ShowMenu(Instance(taxon), None)]
    {
      var outcome := Relabel(Classify(response), ChildrenFetch);
      if outcome.Error? {
        effects := [ShowMenu(Instance(taxon), Some(outcome.message))];
      } else {
        taxon.tree := Some(converted);
        effects := [ShowMenu(Instance(taxon), None)];
      }
    }

    /** Lines 333 and 392: `loadTaxoMap` selects the taxon, and the start-up
        stores it as the current one (map creation is not modelled). */
    method LoadTaxoMap(taxon: Taxon) returns (effects: seq<Effect>)
      modifies this`activeFilters, this`currentTaxon
      ensures currentTaxon == taxon && activeFilters == old(activeFilters)
      ensures effects == [Request(BuildQuery(env, taxon.id, taxon.level, false, None), AfterNode(taxon, old(activeFilters)))]
    {
      effects := SetTaxon(taxon, None);
      currentTaxon := taxon;
    }

    /** Lines 359-392 when the address names neither a taxon (line 362) nor a
        place (line 369) to search: the taxon of the `id` and `level`
        settings is loaded. */
    method StartWithDefaults() returns (taxon: Taxon, effects: seq<Effect>)
      requires !Truthy(settings.taxonSearch) && !Truthy(settings.placenameSearch)
      modifies this`activeFilters, this`currentTaxon
      ensures fresh(taxon) && taxon.id == settings.taxonId && taxon.level == settings.level
      ensures currentTaxon == taxon && activeFilters == old(activeFilters)
      ensures effects == [Request(BuildQuery(env, settings.taxonId, settings.level, false, None), AfterNode(taxon, old(activeFilters)))]
    {
      taxon := new Taxon(settings.taxonId, settings.level);
      effects := LoadTaxoMap(taxon);
    }
  }

  /** The node request for Animalia at level `'1'`. */
  lemma AnimaliaRequest(env: Env)
    ensures BuildQuery(env, Str("Animalia"), Str("1"), false, None) == env.api + "taxon/Animalia/1/?"
  {
    assert Endpoint(false) == "taxon/" && FilterFragment(env, None) == "";
    assert ToString(Str("Animalia")) == "Animalia" && ToString(Str("1")) == "1";
    assert "taxon/" + "Animalia" + "/" + "1" + "/?" + "" == "taxon/Animalia/1/?";
  }

  /** With an empty address the settings are `Animalia` and `'1'`, so the
      first node request of the start-up is for `taxon/Animalia/1/?`. */
  lemma DefaultFirstRequest(env: Env)
    ensures var s := PageSettings(ParamTable(""));
      BuildQuery(env, s.taxonId, s.level, false, None) == env.api + "taxon/Animalia/1/?"
  {
    EmptySearchDefaults();
    AnimaliaRequest(env);
  }
}
