# TaxoMap navigation core, in Dafny

TaxoMap (repository `mpericay/tm3`) lets a user drill through the taxonomic
hierarchy while a breadcrumb of ancestors, a menu of children and a map
layer's SQL stay in step. This project models the navigation bookkeeping of
`js/modules/ui.js`:

- the query string of the page address read into a parameter table, and the
  settings taken from it with their defaults;
- `flatten`, the walk down the active chain of a taxon tree, and the
  breadcrumb built from it;
- `buildQuery`, the REST path of a node or children request, with a parser
  that reads it back;
- `makeQuery`'s classification of a response, and the relabelling of
  `"empty"` at each call site;
- `drawMenuChildren` and `updateMenu`: the child rows a menu offers, their
  level, and the parent link;
- the controller state `currentTaxon`, `activeFilters` and the module-level
  `level`, with `setTaxon`, `updateUI`, `updateMenus`, `drawBreadcrumb`, the
  callbacks of both requests and `loadTaxoMap`.

Layout, one module per file:

- `js_values.dfy` (`JsValues`): the JavaScript values the code handles
  (`undefined`, strings, integers, `NaN`), truthiness, `parseInt` with no
  radix, the `Number` coercion of integer text, and decimal printing.
- `page_params.dfy` (`PageParams`): `String.split`, the parameter table, and
  the settings.
- `taxon_tree.dfy` (`TaxonTree`): the tree, `flatten`, and the breadcrumb.
- `menus.dfy` (`Menus`): the menu data.
- `queries.dfy` (`Queries`): request paths and response classification.
- `navigation.dfy` (`Navigation`): the `Taxon` and `Controller` classes.

The taxon module (`convertFromApi`, `getSqlWhere`, `getParent`, `getChild`),
`map.getApi()` and the filter serialisers `sheet.getFiltersREST` and
`sheet.getFiltersSQL` have no source in this model. They are opaque function
values in `Queries.Env`, or parameters: the tree `convertFromApi` builds is
an argument of the response callbacks, and `getParent`/`getChild` results
are arguments of `UpdateMenu`. Each controller entry point returns the list
of effects it has at once: SQL handed to the map, requests sent, breadcrumb
and menu redraws, and `Thrown` for a `TypeError` that escapes. A `Request`
records what its callback captured. The callback is a separate method,
called with the response whenever it arrives.

Some behaviours of the code worth knowing before reading the contracts:

- `buildQuery` prefixes the API base and always writes `/?` after the
  level, so without filters the path ends in `/?`; with filters the REST
  fragment follows it.
- `setTaxon` sets `currentTaxon` to the new taxon before its response
  arrives. A failed or empty node fetch therefore does not keep the previous
  selection.
- On a failed or empty node fetch, `updateMenu` is called with the taxon
  module itself and the relabelled message (line 41), not with the taxon
  that was requested (`MenuTarget.TaxonModule`). What that call draws, or
  whether `taxon.getParent()` on the module throws first, depends on the
  taxon module, which is not part of this model.
- The breadcrumb never draws entry 0 of the ancestry, the level-0 root; the
  fixed Eukaryota item takes its place, followed by the dots element and
  entries 1 onwards at their levels. For the chain Eukaryota, Animalia,
  Chordata it shows Eukaryota, the dots, Animalia at level 1 and Chordata at
  level 2 (`TaxonTree.ChordataBreadcrumb`).
- An empty children fetch still draws the menu title, the message and the
  parent link when the taxon's level is truthy (`Menus.UpdateMenu`).

## Model

| member | source | states |
|---|---|---|
| JsValues.NatToStringDigits | js/modules/ui.js:277 | the decimal text of a number is non-empty, all digits, has a leading `0` only for zero, and denotes the number |
| JsValues.ParseIntOfIntToString | js/modules/ui.js:250 | `parseInt` of the decimal text of any integer, negative ones included, gives that integer back |
| JsValues.StringToNumberOfIntToString | js/modules/ui.js:231 | the numeric coercion of `level - 1` reads the decimal text of any integer back as that integer |
| JsValues.ParseIntValueIdempotent | js/modules/ui.js:250 | `parseInt` of its own result changes nothing: a number stays itself, `NaN` stays `NaN` |
| JsValues.ParseIntValue | js/modules/ui.js:16 | `parseInt` yields a number or `NaN`, never a string or `undefined` |
| JsValues.TrimStart | js/modules/ui.js:16 | `parseInt` skips exactly the leading white space: the result is a suffix of the input that starts with non-space, and everything dropped is white space |
| JsValues.DigitPrefix | js/modules/ui.js:16 | `parseInt` reads the longest run of leading digits of the radix |
| PageParams.Split | js/modules/ui.js:9-10 | `split` yields at least one piece and no piece contains the separator |
| PageParams.JoinSplit | js/modules/ui.js:9-10 | joining the pieces of `split` with the separator gives back the string, so splitting loses nothing |
| PageParams.ReadParams | js/modules/ui.js:8-12 | the `forEach` fills exactly the table `ParamTable(search)`: every `&` item assigns `kv[1]` to key `kv[0]`, in order |
| PageParams.FoldLastWins | js/modules/ui.js:9-12 | from any starting table, a key ends up present iff it was present or some item carries it; it is untouched when no item carries it; otherwise it holds the value of the last item that carries it |
| PageParams.ParamTableLastWins | js/modules/ui.js:8-12 | a key other than `__proto__` is in the table iff some item carries it, and a later duplicate overwrites an earlier one |
| PageParams.LevelSetting | js/modules/ui.js:16 | the level setting is the raw `level` parameter when `parseInt` of it is truthy, and `'1'` otherwise; either way its `parseInt` is truthy |
| PageParams.PageSettings | js/modules/ui.js:15-21 | the settings, with key presence tested on the table, always carry a level whose `parseInt` is a nonzero number |
| PageParams.PageSettingsAsWritten | js/modules/ui.js:15-21 | the settings as written are computed iff no item has the key `hasOwnProperty`, and are then the corrected settings; otherwise the first `params.hasOwnProperty(…)` call throws |
| PageParams.HasOwnPropertyItemThrows | js/modules/ui.js:8-15 | every address with a `hasOwnProperty` item leaves the page without settings |
| PageParams.HasOwnPropertyExample | js/modules/ui.js:8-15 | the address `?hasOwnProperty=1` leaves the page without settings |
| PageParams.SettingsFromSearch | js/modules/ui.js:8-21 | for every address, `id`, `taxon`, `placename`, `zoom`, `lat` and `lon` each hold the value of the last item with that key, and `Animalia`, `''`, `''`, `'6'`, `'41'`, `'5'` when there is none |
| PageParams.LevelFromSearch | js/modules/ui.js:8-16 | for every address, the level is the value of the last `level` item when `parseInt` of it is truthy, and `'1'` when it is not or there is no such item |
| PageParams.EmptySearchDefaults | js/modules/ui.js:15-21 | with an empty address the settings are `Animalia`, `'1'`, `''`, `''`, `'6'`, `'41'`, `'5'` |
| TaxonTree.FlattenIntoChain | js/modules/ui.js:242-247 | `flatten` with an accumulator succeeds iff the active chain never meets an empty `children` array; it keeps the accumulator as a prefix and appends, root first, the `{name, id}` of chain node k for each k; it stops at the first chain node without `children` |
| TaxonTree.FlattenFollowsChain | js/modules/ui.js:242-247 | `flatten(tree)` is, root first, one `{name, id}` per chain node that has `children`, and its length is the depth of the first chain node without `children` |
| TaxonTree.FlattenFailsOnEmptyChildren | js/modules/ui.js:244-246 | `flatten` throws exactly when the active chain reaches an empty `children` array |
| TaxonTree.BreadcrumbItems | js/modules/ui.js:251-264 | the loop yields Eukaryota at level 0, the dots, then ancestry entries 1 onwards with level k and class `btn`; its length is 2 for an empty ancestry and `len + 1` otherwise |
| TaxonTree.Breadcrumb | js/modules/ui.js:251-266 | the breadcrumb is drawn iff `flatten` succeeds, and then it is the breadcrumb of `flatten(tree)` |
| TaxonTree.BreadcrumbLinksFollowChain | js/modules/ui.js:249-266 | past the root, breadcrumb position k + 1 links to chain node k (`LinksTo`), with its id, its name and level k |
| TaxonTree.ChordataBreadcrumb | js/modules/ui.js:249-266 | for the chain Eukaryota, Animalia, Chordata, the breadcrumb is exactly Eukaryota, the dots, Animalia at level 1 and Chordata at level 2 |
| Menus.NavigableAppend | js/modules/ui.js:184-187 | filtering a concatenation filters each part, so the rows keep their order |
| Menus.NavigableRows | js/modules/ui.js:184-187 | a row is offered iff it is one of the rows and its id is truthy; no more entries than rows |
| Menus.NavigableAllTruthy | js/modules/ui.js:184-187 | when every id is truthy, every row is offered |
| Menus.ChildLevel | js/modules/ui.js:181 | a child sits one level below a parent whose level is the number n: its level is n + 1; any other parent level gives a number or `NaN` |
| Menus.ChildLevelOfDecimal | js/modules/ui.js:181 | a parent level written as the decimal text of n, as the address gives it, puts the children at level n + 1 |
| Menus.MenuItemsAt | js/modules/ui.js:184-187 | the loop yields, at the given level, one item per row with a truthy id, in input order |
| Menus.MenuChildren | js/modules/ui.js:180-189 | the loop yields one item per row with a truthy id, in order, each at level `parseInt(parentLevel) + 1`; never more items than rows |
| Menus.UpdateMenu | js/modules/ui.js:68-97 | throws iff the level is truthy with no parent, or there is neither a child nor a parent's first child. The parent link is drawn iff the level is truthy, with the parent's id and `level - 1`. The title is the child's name, or else the name of the parent's first child. A notice shows no download, sheet link or children. Otherwise there is a download link, a sheet link iff there is a child, and the children are exactly the items of the child's rows with a truthy id, in order, one level down |
| Queries.BuildQuery | js/modules/ui.js:274-281 | the path starts with the API base, and ends in `/?` when there are no filters |
| Queries.ParseBuildQuery | js/modules/ui.js:274-281 | when neither id nor level contains `/`, the path reads back to the endpoint, the id text, the level text and the filter fragment |
| Queries.Classify | js/modules/ui.js:283-300 | data reaches the callback iff the response has results, unchanged; an empty response gives `"empty"`; a failure gives `"An error occured: "`, followed by `errorThrown` iff `textStatus` is truthy |
| Queries.Relabel | js/modules/ui.js:321-322 | relabelling keeps data as it is and any message other than `"empty"`; it never leaves `"empty"` |
| Queries.RelabelledOutcome | js/modules/ui.js:38-41 | after relabelling, a request yields data iff the response had results; its message is the site's label iff the response was empty; a failure keeps its transport message |
| Navigation.Taxon.constructor | js/modules/ui.js:224 | a new taxon has the id and level it was made with, and no tree yet |
| Navigation.Controller.constructor | js/modules/ui.js:15-24 | the module loads only when no address item has the key `hasOwnProperty`; then the settings are those of the address, as written and corrected alike, `level` is the level setting, there is no current taxon and no active filter; `parseInt(level)` is a nonzero number |
| Navigation.Controller.UpdateMenus | js/modules/ui.js:302-318 | `activeFilters` is replaced iff filters are given, even when the request then throws; the children request uses the given taxon, else the current one, and throws when there is neither |
| Navigation.Controller.UpdateUI | js/modules/ui.js:59-66 | the map gets the taxon's SQL followed by the filters' SQL; then the children request goes out with those filters, which become the active ones; a missing taxon throws before anything changes |
| Navigation.Controller.SetTaxon | js/modules/ui.js:26-57 | with a new taxon: one node request capturing the given or active filters, `currentTaxon` is the new taxon at once, `activeFilters` unchanged. Without one: the current taxon is redrawn, or the call throws with nothing changed |
| Navigation.Controller.DrawBreadcrumb | js/modules/ui.js:249-266 | `level` becomes `parseInt(level)`, a number, and stays usable; the breadcrumb of `flatten(tree)` is drawn iff `flatten` succeeds |
| Navigation.Controller.ShowNode | js/modules/ui.js:45-47 | the tree is stored and `level` re-parsed; the call throws with the filters unchanged iff `flatten` throws; otherwise the breadcrumb of `flatten(tree)`, the map SQL and the children request follow, and the captured filters become the active ones |
| Navigation.Controller.OnNodeResponse | js/modules/ui.js:38-49 | on an error, `updateMenu` is called with the taxon module and the relabelled message, and no state changes, `convertFromApi` included. On data, the tree is stored and `level` re-parsed; the call throws with the filters unchanged iff `flatten` throws; otherwise the breadcrumb of `flatten(tree)`, the map SQL and the children request follow, and the captured filters become the active ones |
| Navigation.Controller.OnChildrenResponse | js/modules/ui.js:319-329 | on an error, the taxon's menu shows the relabelled message and its tree is kept; on data, the tree is stored and the menu redrawn |
| Navigation.Controller.LoadTaxoMap | js/modules/ui.js:332-354 | loading a taxon sends its node request and makes it the current taxon; filters unchanged |
| Navigation.Controller.StartWithDefaults | js/modules/ui.js:357-392 | when the address names neither a taxon nor a place to search, a fresh taxon of the `id` and `level` settings is loaded and becomes the current one |
| Navigation.DefaultFirstRequest | js/modules/ui.js:360 | with an empty address, the settings give the node request `taxon/Animalia/1/?` under the API base |

## Left out

- DOM, jQuery and Bootstrap work: HTML strings, tooltips, popovers, the download pop-up, `makeBreadcrumbResponsive`, window resize, modals, language switching and typeahead. The model keeps the data the draw functions compute.
- The asynchronous start-up (`$.when`), the taxon name search and the OpenCage place lookup. Only the path with neither a `taxon` nor a `placename` search term is modelled (`StartWithDefaults`). Map creation and the filter widgets wired in `loadTaxoMap` are left out, since they are calls into code with no source here.
- Navigation.Controller.constructor: requires that no address item has the key `hasOwnProperty`. With such an item the source throws at line 15 and the module never loads (see Findings), so there is no controller to model.
- Navigation.Controller.StartWithDefaults: requires that the address names neither a taxon nor a place to search. With a `taxon` term the source loads the first search result instead (lines 362 and 392). With a `placename` term, `$.when` waits for the OpenCage request (lines 370-373): if it fails, nothing is loaded, and a body without `results` throws at line 380. Neither search is modelled.
- The contents of a filter: only the serialisers look inside one, so `Queries.Filter` is an abstract type.
- `$.getJSON` transport: a response is an argument of the callbacks.
- The ordering of overlapping requests. Callbacks can be called in any order, and nothing orders them.
- The taxon module, `map.getApi()`, `map.setSql`, and the filter serialisers. They are opaque (`Queries.Env`), and their results are otherwise unconstrained, but the model assumes the following about them:
  - `new taxon(id, level)` stores exactly `id` and `level`, which never change afterwards (the `const` fields of `Navigation.Taxon`);
  - `convertFromApi` changes only the taxon's tree, and the tree it builds is an argument of the callbacks;
  - `getSqlWhere` depends only on the taxon's id, level and tree;
  - none of these calls throws, and neither do `map.setSql` and the filter serialisers.
- `drawBreadcrumb` writes `level` and `className` onto the ancestry entries. These are fresh objects from `flatten`, so the model builds new items instead.
- Numbers are integers. Text with a fraction, an exponent or `Infinity` reads as `NaN` in `JsValues.StringToNumber`. `JsValues.IntToString` has no exponent notation for large magnitudes.
- JsValues.StringToNumber: only integer literals are modelled (decimal with a sign, `0x`, `0o`, `0b`), as noted above.
- Navigation.Controller.OnNodeResponse: branches on `Queries.Classify`, not on `data.error` (line 39), so a successful body that is an object with a truthy `error` member is handled as data. The source treats it as an error with that member as the message.
- Navigation.Controller.OnChildrenResponse: the same, for the `data.error` test at line 321.
- `index.php`, `legend.js`, `sheet.js` and `map.js` hold no navigation logic, so they are not part of this model.

## Findings

| source | as written | input that shows it | evidently intended | confidence | as-written member | corrected member |
|---|---|---|---|---|---|---|
| js/modules/ui.js:15-21 | `params.hasOwnProperty(key)` is called on the table the address filled, so an item with the key `hasOwnProperty` replaces the method by a string and the call throws a `TypeError` that stops the module | `?hasOwnProperty=1` | test key presence without a property the address can overwrite, so every address yields settings | high, not executed | PageParams.HasOwnPropertyExample | PageParams.PageSettings |
