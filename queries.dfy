/**
 * The REST path of a taxon request (`buildQuery`, js/modules/ui.js lines
 * 274-281), the classification of what comes back (`makeQuery`, lines
 * 283-300) and the per-call-site relabelling of "empty" (lines 38-41 and
 * 321-323).
 */
module Queries {
  import opened JsValues
  import opened PageParams
  import opened TaxonTree

  /** An active filter. Only the serialisers in `Env` look inside one, and
      neither they nor the filter widgets that build filters are part of this
      model, so its contents are left abstract. */
  type Filter(==)

  type Filters = seq<Filter>

  /** The collaborators whose source is not part of this model, as opaque
      functions: `map.getApi()`, `sheet.getFiltersREST`, `sheet.getFiltersSQL`
      and the taxon's `getSqlWhere()` (a function of its id, level and tree). */
  datatype Env = Env(
    api: string,
    filtersRest: (Filters, seq<string>) -> string,
    filtersSql: (Filters, seq<string>) -> string,
    sqlWhere: (JsValue, JsValue, Option<Node>) -> string)

  /** The filter kinds a REST path may carry (line 278). */
  const RestKinds := ["circle", "fieldvalue", "minmax"]

  /** The filter kinds the map layer's SQL receives (line 61). */
  const MapSqlKinds := ["fieldvalue", "minmax"]

  function Endpoint(children: bool): string {
    if children then "subtaxa/" else "taxon/"
  }

  /** The REST filter fragment, present only when `filters` is truthy. */
  function FilterFragment(env: Env, filters: Option<Filters>): string {
    if filters.Some? then env.filtersRest(filters.value, RestKinds) else ""
  }

  /** `buildQuery(taxon, children, filters)`. The `?` is always there; with
      no filters the path ends in `/?`. */
  function BuildQuery(env: Env, id: JsValue, level: JsValue, children: bool, filters: Option<Filters>): (q: string)
    ensures |q| >= |env.api| + 2 && q[..|env.api|] == env.api
    ensures filters.None? ==> q[|q| - 2..] == "/?"
  {
    env.api + Endpoint(children) + ToString(id) + "/" + ToString(level) + "/?" + FilterFragment(env, filters)
  }

  /** The parts a request path is made of. */
  datatype QueryParts = QueryParts(children: bool, id: string, level: string, fragment: string)

  predicate StartsWith(s: string, prefix: string) {
    |prefix| <= |s| && s[..|prefix|] == prefix
  }

  /** `{id}/{level}/?{fragment}`. */
  function ParseIdLevel(children: bool, rest: string): Option<QueryParts> {
    if '/' !in rest then None
    else
      var i := IndexOf(rest, '/');
      var afterId := rest[i + 1..];
      if '/' !in afterId then None
      else
        var j := IndexOf(afterId, '/');
        var tail := afterId[j + 1..];
        if tail == [] || tail[0] != '?' then None
        else Some(QueryParts(children, rest[..i], afterId[..j], tail[1..]))
  }

  /** `subtaxa/…` or `taxon/…`. */
  function ParsePath(path: string): Option<QueryParts> {
    if StartsWith(path, "subtaxa/") then ParseIdLevel(true, path[8..])
    else if StartsWith(path, "taxon/") then ParseIdLevel(false, path[6..])
    else None
  }

  /** Reads a request path back into its parts: the inverse of BuildQuery. */
  function ParseQuery(api: string, q: string): Option<QueryParts> {
    if StartsWith(q, api) then ParsePath(q[|api|..]) else None
  }

  /** The first `c` of `a + [c] + b`, when `a` has none, sits right after
      `a`, and splits the string back into `a` and `b`. */
  lemma IndexOfAfter(a: string, c: char, b: string)
    requires c !in a
    ensures var s := a + [c] + b;
      c in s && IndexOf(s, c) == |a| && s[..|a|] == a && s[|a| + 1..] == b
  {
    var s := a + [c] + b;
    assert s[|a|] == c;
    assert s[..|a|] == a;
    assert s[|a| + 1..] == b;
  }

  lemma ParseSubtaxa(rest: string)
    ensures ParsePath("subtaxa/" + rest) == ParseIdLevel(true, rest)
  {
    var path := "subtaxa/" + rest;
    assert path[..8] == "subtaxa/";
    assert path[8..] == rest;
  }

  lemma ParseTaxon(rest: string)
    ensures ParsePath("taxon/" + rest) == ParseIdLevel(false, rest)
  {
    var path := "taxon/" + rest;
    assert path[1] == 'a';
    assert !StartsWith(path, "subtaxa/");
    assert path[..6] == "taxon/";
    assert path[6..] == rest;
  }

  lemma ParseEndpoint(api: string, children: bool, rest: string)
    ensures ParseQuery(api, api + Endpoint(children) + rest) == ParseIdLevel(children, rest)
  {
    var path := Endpoint(children) + rest;
    var q := api + path;
    assert api + Endpoint(children) + rest == q;
    assert q[..|api|] == api;
    assert q[|api|..] == path;
    if children { ParseSubtaxa(rest); } else { ParseTaxon(rest); }
  }

  lemma ParseIdLevelOf(children: bool, idText: string, levelText: string, fragment: string)
    requires '/' !in idText && '/' !in levelText
    ensures ParseIdLevel(children, idText + "/" + levelText + "/?" + fragment)
      == Some(QueryParts(children, idText, levelText, fragment))
  {
    var tail := "?" + fragment;
    var afterId := levelText + ['/'] + tail;
    var rest := idText + ['/'] + afterId;
    assert idText + "/" + levelText + "/?" + fragment == rest;
    IndexOfAfter(idText, '/', afterId);
    IndexOfAfter(levelText, '/', tail);
    assert tail[0] == '?' && tail[1..] == fragment;
  }

  lemma Regroup(api: string, endpoint: string, idText: string, levelText: string, fragment: string)
    ensures api + endpoint + idText + "/" + levelText + "/?" + fragment
      == api + endpoint + (idText + "/" + levelText + "/?" + fragment)
  {
  }

  /** As long as neither the id nor the level contains a `/`, the path
      BuildQuery writes reads back to the endpoint, the id, the level and the
      filter fragment it was made from. */
  lemma ParseBuildQuery(env: Env, id: JsValue, level: JsValue, children: bool, filters: Option<Filters>)
    requires '/' !in ToString(id) && '/' !in ToString(level)
    ensures ParseQuery(env.api, BuildQuery(env, id, level, children, filters))
      == Some(QueryParts(children, ToString(id), ToString(level), FilterFragment(env, filters)))
  {
    var idText, levelText, fragment := ToString(id), ToString(level), FilterFragment(env, filters);
    var rest := idText + "/" + levelText + "/?" + fragment;
    Regroup(env.api, Endpoint(children), idText, levelText, fragment);
    ParseEndpoint(env.api, children, rest);
    ParseIdLevelOf(children, idText, levelText, fragment);
  }

  /** A decoded JSON response body. */
  datatype Json =
    | JNull
    | JBool(b: bool)
    | JNum(n: int)
    | JStr(s: string)
    | JArray(elements: seq<Json>)
    | JObject(members: seq<(string, Json)>)

  /** ToBoolean of a JSON value. */
  predicate JsonTruthy(v: Json) {
    match v
    case JNull => false
    case JBool(b) => b
    case JNum(n) => n != 0
    case JStr(s) => s != ""
    case JArray(_) => true
    case JObject(_) => true
  }

  /** The `length` member of an object (the last one, as JSON.parse keeps). */
  function LengthMember(members: seq<(string, Json)>): Option<Json> {
    if members == [] then None
    else if members[|members| - 1].0 == "length" then Some(members[|members| - 1].1)
    else LengthMember(members[..|members| - 1])
  }

  /** `data && data.length`. */
  predicate HasResults(data: Json) {
    match data
    case JNull => false
    case JBool(_) => false
    case JNum(_) => false
    case JStr(s) => |s| > 0
    case JArray(elements) => |elements| > 0
    case JObject(members) => LengthMember(members).Some? && JsonTruthy(LengthMember(members).value)
  }

  /** What `$.getJSON` delivers: a decoded body, or a failure with jQuery's
      `textStatus` and `errorThrown`. */
  datatype Response = Received(data: Json) | Failed(textStatus: JsValue, errorThrown: JsValue)

  /** What the callback of `makeQuery` receives: the data, or `{error: …}`. */
  datatype Outcome = Rows(data: Json) | Error(message: string)

  const TransportPrefix := "An error occured: "

  /** `makeQuery`'s two callbacks. */
  function Classify(response: Response): (r: Outcome)
    ensures r.Rows? <==> response.Received? && HasResults(response.data)
    ensures r.Rows? ==> r.data == response.data
    ensures response.Received? && !HasResults(response.data) ==> r == Error("empty")
    ensures response.Failed? ==> r.Error? && StartsWith(r.message, TransportPrefix)
    ensures response.Failed? && !Truthy(response.textStatus) ==> r == Error(TransportPrefix)
    ensures response.Failed? && Truthy(response.textStatus) ==>
      r == Error(TransportPrefix + ToString(response.errorThrown))
  {
    match response
    case Received(data) => if HasResults(data) then Rows(data) else Error("empty")
    case Failed(textStatus, errorThrown) =>
      var msg := TransportPrefix + (if Truthy(textStatus) then ToString(errorThrown) else "");
      assert msg[..|TransportPrefix|] == TransportPrefix;
      Error(msg)
  }

  /** The two call sites: the node fetch of `setTaxon` and the children fetch
      of `updateMenus`. */
  datatype Site = NodeFetch | ChildrenFetch

  function Label(site: Site): string {
    match site
    case NodeFetch => "Taxon does not exist"
    case ChildrenFetch => "No results"
  }

  /** `if (data.error == "empty") data.error = …`. */
  function Relabel(o: Outcome, site: Site): (r: Outcome)
    ensures r.Rows? <==> o.Rows?
    ensures o.Rows? ==> r == o
    ensures o.Error? && o.message != "empty" ==> r == o
    ensures r.Error? ==> r.message != "empty"
  {
    if o == Error("empty") then Error(Label(site)) else o
  }

  /** After relabelling, a request ends in data exactly when the response had
      results; its message is the site's label exactly when the response was
      empty; a transport failure keeps its message. */
  lemma RelabelledOutcome(response: Response, site: Site)
    ensures Relabel(Classify(response), site).Rows? <==> response.Received? && HasResults(response.data)
    ensures Relabel(Classify(response), site) == Error(Label(site)) <==>
      response.Received? && !HasResults(response.data)
    ensures response.Failed? ==> Relabel(Classify(response), site) == Classify(response)
  {
    var o := Classify(response);
    if response.Failed? {
      var m := o.message;
      assert m[0] == 'A';
      assert Label(site)[0] != 'A';
      assert m != Label(site);
    }
  }
}
