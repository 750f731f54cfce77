/**
 * Reading the page's query string (js/modules/ui.js, lines 8-21): the search
 * part of the URL is split into `key=value` items, each item overwrites the
 * table entry for its key, and the navigation settings take their defaults.
 */
module PageParams {
  import opened JsValues

  /** Index of the first occurrence of `c` in `s`. */
  function IndexOf(s: string, c: char): (i: nat)
    requires c in s
    ensures i < |s| && s[i] == c && c !in s[..i]
  {
    if s[0] == c then 0 else 1 + IndexOf(s[1..], c)
  }

  /** `s.split(sep)` for a one-character separator: the pieces between
      separators, in order; the empty string gives one empty piece. */
  function Split(s: string, sep: char): (pieces: seq<string>)
    ensures |pieces| >= 1
    ensures forall i :: 0 <= i < |pieces| ==> sep !in pieces[i]
    decreases |s|
  {
    if sep !in s then [s]
    else
      var i := IndexOf(s, sep);
      [s[..i]] + Split(s[i + 1..], sep)
  }

  /** `pieces.join(sep)`. */
  function Join(pieces: seq<string>, sep: char): string
    requires |pieces| >= 1
  {
    if |pieces| == 1 then pieces[0] else pieces[0] + [sep] + Join(pieces[1..], sep)
  }

  lemma JoinCons(piece: string, pieces: seq<string>, sep: char)
    requires |pieces| >= 1
    ensures Join([piece] + pieces, sep) == piece + [sep] + Join(pieces, sep)
  {
    var all := [piece] + pieces;
    assert all[0] == piece && all[1..] == pieces;
  }

  /** Splitting loses nothing: joining the pieces back gives the original. */
  lemma {:induction false} JoinSplit(s: string, sep: char)
    ensures Join(Split(s, sep), sep) == s
    decreases |s|
  {
    if sep in s {
      var i := IndexOf(s, sep);
      var rest := s[i + 1..];
      JoinSplit(rest, sep);
      JoinCons(s[..i], Split(rest, sep), sep);
      assert s == s[..i] + [sep] + rest;
    }
  }

  /** `location.search.substr(1)`: the first character (the `?`) is dropped. */
  function SearchBody(search: string): string {
    if search == [] then [] else search[1..]
  }

  /** The `&`-separated items of the query string. */
  function Items(search: string): (items: seq<string>)
    ensures |items| >= 1
  {
    Split(SearchBody(search), '&')
  }

  /** `kv[0]` of `item.split("=")`. */
  function Key(item: string): string {
    Split(item, '=')[0]
  }

  /** `kv[1]` of `item.split("=")`: undefined when the item has no `=`, and only
      the text up to a second `=` otherwise. */
  function Value(item: string): JsValue {
    var kv := Split(item, '=');
    if |kv| > 1 then Str(kv[1]) else Undefined
  }

  /** `params[kv[0]] = kv[1]` on a plain object: assigning a string or
      undefined to `__proto__` goes to the prototype setter, which ignores it. */
  function Assign(params: map<string, JsValue>, item: string): map<string, JsValue> {
    if Key(item) == "__proto__" then params else params[Key(item) := Value(item)]
  }

  /** The `forEach` over the items, from a given table. */
  function Fold(params: map<string, JsValue>, items: seq<string>): map<string, JsValue>
    decreases |items|
  {
    if items == [] then params else Fold(Assign(params, items[0]), items[1..])
  }

  /** The table `params` built from `location.search`. */
  function ParamTable(search: string): map<string, JsValue> {
    Fold(map[], Items(search))
  }

  /** Folding from item i is assigning item i, then folding from i + 1. */
  lemma FoldStep(params: map<string, JsValue>, items: seq<string>, i: nat)
    requires i < |items|
    ensures Fold(params, items[i..]) == Fold(Assign(params, items[i]), items[i + 1..])
  {
    assert items[i..][0] == items[i];
    assert items[i..][1..] == items[i + 1..];
  }

  /** Lines 8-12: fills the table item by item. */
  method ReadParams(search: string) returns (params: map<string, JsValue>)
    ensures params == ParamTable(search)
  {
    var body := if search == [] then [] else search[1..];
    var items := Split(body, '&');
    assert items == Items(search);
    params := map[];
    var i := 0;
    assert items[i..] == items;
    while i < |items|
      invariant 0 <= i <= |items|
      invariant Fold(params, items[i..]) == Fold(map[], items)
    {
      var kv := Split(items[i], '=');
      var value := if |kv| > 1 then Str(kv[1]) else Undefined;
      FoldStep(params, items, i);
      assert kv[0] == Key(items[i]) && value == Value(items[i]);
      ghost var before := params;
      if kv[0] != "__proto__" {
        params := params[kv[0] := value];
      }
      assert params == Assign(before, items[i]);
      i := i + 1;
    }
    assert items[i..] == [];
  }

  predicate HasKey(items: seq<string>, k: string) {
    exists i :: 0 <= i < |items| && Key(items[i]) == k
  }

  /** Item `i` is the last item whose key is `k`. */
  predicate IsLastWithKey(items: seq<string>, i: int, k: string) {
    && 0 <= i < |items|
    && Key(items[i]) == k
    && forall j :: i < j < |items| ==> Key(items[j]) != k
  }

  lemma {:induction false} FoldLastWins(params: map<string, JsValue>, items: seq<string>, k: string)
    requires k != "__proto__"
    ensures k in Fold(params, items) <==> k in params || HasKey(items, k)
    ensures !HasKey(items, k) && k in params ==> Fold(params, items)[k] == params[k]
    ensures forall i :: IsLastWithKey(items, i, k) ==> Fold(params, items)[k] == Value(items[i])
    decreases |items|
  {
    if items != [] {
      var rest := items[1..];
      var next := Assign(params, items[0]);
      FoldLastWins(next, rest, k);
      assert HasKey(items, k) <==> Key(items[0]) == k || HasKey(rest, k) by {
        if HasKey(rest, k) {
          var j :| 0 <= j < |rest| && Key(rest[j]) == k;
          assert Key(items[j + 1]) == k;
        }
        if HasKey(items, k) && Key(items[0]) != k {
          var j :| 0 <= j < |items| && Key(items[j]) == k;
          assert Key(rest[j - 1]) == k;
        }
      }
      forall i | IsLastWithKey(items, i, k)
        ensures Fold(params, items)[k] == Value(items[i])
      {
        if i == 0 {
          forall j | 0 <= j < |rest| ensures Key(rest[j]) != k {
            assert rest[j] == items[j + 1];
          }
        } else {
          assert IsLastWithKey(rest, i - 1, k) by {
            forall j | i - 1 < j < |rest| ensures Key(rest[j]) != k {
              assert rest[j] == items[j + 1];
            }
          }
        }
      }
    }
  }

  /** A key is in the table exactly when some item carries it (`__proto__`
      aside), and its value is the one of the LAST item that carries it: a
      later duplicate overwrites an earlier one. */
  lemma ParamTableLastWins(search: string, k: string)
    requires k != "__proto__"
    ensures k in ParamTable(search) <==> HasKey(Items(search), k)
    ensures forall i :: IsLastWithKey(Items(search), i, k) ==> ParamTable(search)[k] == Value(Items(search)[i])
  {
    FoldLastWins(map[], Items(search), k);
  }

  /** The settings read from the page address (lines 15-21). */
  datatype Settings = Settings(
    taxonId: JsValue,
    level: JsValue,
    taxonSearch: JsValue,
    placenameSearch: JsValue,
    zoom: JsValue,
    lat: JsValue,
    lon: JsValue)

  /** `params.hasOwnProperty(key) ? params[key] : default`. */
  function Param(params: map<string, JsValue>, key: string, default: string): JsValue {
    if key in params then params[key] else Str(default)
  }

  /** Line 16: the raw level is kept only when `parseInt` of it is truthy. */
  function LevelSetting(params: map<string, JsValue>): (level: JsValue)
    ensures Truthy(ParseIntValue(level))
    ensures level == Str("1") || ("level" in params && level == params["level"])
    ensures "level" in params && Truthy(ParseIntValue(params["level"])) ==> level == params["level"]
  {
    if "level" in params && Truthy(ParseIntValue(params["level"])) then params["level"]
    else
      ParseIntValueOfOne();
      Str("1")
  }

  /** Lines 15-21, with the table consulted by key presence. */
  function PageSettings(params: map<string, JsValue>): (r: Settings)
    ensures Truthy(ParseIntValue(r.level))
  {
    Settings(
      Param(params, "id", "Animalia"),
      LevelSetting(params),
      Param(params, "taxon", ""),
      Param(params, "placename", ""),
      Param(params, "zoom", "6"),
      Param(params, "lat", "41"),
      Param(params, "lon", "5"))
  }

  /** Lines 15-21 as written: `params.hasOwnProperty(…)` is looked up on the
      table itself, so an item with the key `hasOwnProperty` replaces the
      method by a string (or undefined) and the first call throws a TypeError,
      which aborts the module. None stands for that exception. */
  function PageSettingsAsWritten(params: map<string, JsValue>): (r: Option<Settings>)
    ensures r.Some? <==> "hasOwnProperty" !in params
    ensures r.Some? ==> r.value == PageSettings(params)
  {
    if "hasOwnProperty" in params then None else Some(PageSettings(params))
  }

  lemma KeyOfPair(k: string, v: string)
    requires '=' !in k
    ensures Key(k + "=" + v) == k
  {
    var item := k + "=" + v;
    assert item[|k|] == '=';
    assert item[..|k|] == k;
    var i := IndexOf(item, '=');
    assert i == |k| by {
      assert item[..i] == k[..i] || i >= |k|;
    }
  }

  /** Any address with a `hasOwnProperty` item leaves the page without settings. */
  lemma HasOwnPropertyItemThrows(search: string)
    requires HasKey(Items(search), "hasOwnProperty")
    ensures PageSettingsAsWritten(ParamTable(search)).None?
  {
    ParamTableLastWins(search, "hasOwnProperty");
  }

  lemma SplitWithoutSeparator(s: string, sep: char)
    requires sep !in s
    ensures Split(s, sep) == [s]
  {
  }

  /** The discrepancy on a concrete address: `?hasOwnProperty=1`. */
  lemma HasOwnPropertyExample()
    ensures PageSettingsAsWritten(ParamTable("?hasOwnProperty=1")).None?
  {
    var search := "?hasOwnProperty=1";
    var item := "hasOwnProperty" + "=" + "1";
    assert SearchBody(search) == item;
    assert '&' !in item;
    SplitWithoutSeparator(item, '&');
    assert '=' !in "hasOwnProperty";
    KeyOfPair("hasOwnProperty", "1");
    assert Items(search)[0] == item;
    HasOwnPropertyItemThrows(search);
  }

  /** A setting read from the address by key presence: the value of the
      last item that carries the key, and the default when no item does. */
  ghost predicate FromAddress(search: string, key: string, default: JsValue, v: JsValue) {
    && (!HasKey(Items(search), key) ==> v == default)
    && forall i :: IsLastWithKey(Items(search), i, key) ==> v == Value(Items(search)[i])
  }

  /** Every setting but the level follows the last item with its key, and
      takes its default when the address has none. */
  lemma SettingsFromSearch(search: string)
    ensures var s := PageSettings(ParamTable(search));
      && FromAddress(search, "id", Str("Animalia"), s.taxonId)
      && FromAddress(search, "taxon", Str(""), s.taxonSearch)
      && FromAddress(search, "placename", Str(""), s.placenameSearch)
      && FromAddress(search, "zoom", Str("6"), s.zoom)
      && FromAddress(search, "lat", Str("41"), s.lat)
      && FromAddress(search, "lon", Str("5"), s.lon)
  {
    ParamTableLastWins(search, "id");
    ParamTableLastWins(search, "taxon");
    ParamTableLastWins(search, "placename");
    ParamTableLastWins(search, "zoom");
    ParamTableLastWins(search, "lat");
    ParamTableLastWins(search, "lon");
  }

  /** The level follows the last `level` item when `parseInt` of its value
      is truthy, and is `'1'` otherwise, or when the address has none. */
  lemma LevelFromSearch(search: string)
    ensures !HasKey(Items(search), "level") ==> PageSettings(ParamTable(search)).level == Str("1")
    ensures forall i :: IsLastWithKey(Items(search), i, "level") ==>
      PageSettings(ParamTable(search)).level ==
        if Truthy(ParseIntValue(Value(Items(search)[i]))) then Value(Items(search)[i]) else Str("1")
  {
    ParamTableLastWins(search, "level");
  }

  /** With an empty address every setting takes its default. */
  lemma EmptySearchDefaults()
    ensures PageSettings(ParamTable("")) ==
      Settings(Str("Animalia"), Str("1"), Str(""), Str(""), Str("6"), Str("41"), Str("5"))
  {
    var items := Items("");
    assert items == [""];
    assert Key("") == "";
    assert ParamTable("") == map["" := Undefined];
  }
}
