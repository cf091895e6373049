/**
 * The dashboard grid-layout store: the widget arrangement of one dashboard
 * is kept in the browser's string key-value storage under a key built from
 * the organization and dashboard ids, and placeholder ids of widgets created
 * before their first save are relabelled with the ids the server assigned.
 *
 * The storage is a `map<string, string>` field of `LayoutStore`; JSON is an
 * abstract pair of functions (`Json`) whose `parse` may throw.
 */
module GridLayout {
  import opened Wrappers
  import opened Strings

  /** One widget's cell on the grid: its id `i`, its position and its size. */
  datatype LayoutItem = LayoutItem(i: string, x: int, y: int, w: int, h: int)

  type Layout = seq<LayoutItem>

  /** A dashboard widget as the server returns it after a save. */
  datatype Widget = Widget(id: string)

  /** What `JSON.parse` gives: a layout, or the SyntaxError it throws. */
  datatype Parsed = Parsed(layout: Layout) | SyntaxError

  /** `JSON.stringify` and `JSON.parse`, restricted to layouts. */
  datatype Json = Json(stringify: Layout -> string, parse: string -> Parsed)

  /**
   * The assumption under which layouts survive storage: parsing what was
   * stringified gives the layout back, and the text is never the empty
   * string (which the loader would treat as "nothing stored").
   */
  ghost predicate RoundTrips(json: Json)
  {
    forall l :: json.stringify(l) != "" && json.parse(json.stringify(l)) == Parsed(l)
  }

  const KeyPrefix: string := "grid-layout-"

  /** The storage key of one dashboard's layout. */
  function StorageKey(organizationId: string, dashboardId: string): (key: string)
    ensures StartsWith(key, KeyPrefix)
    ensures key[|KeyPrefix|..] == organizationId + "-" + dashboardId
  {
    KeyPrefix + organizationId + "-" + dashboardId
  }

  /** Two dashboards share a key exactly when their ids joined by '-' agree. */
  lemma StorageKeyCollides(o1: string, d1: string, o2: string, d2: string)
    ensures StorageKey(o1, d1) == StorageKey(o2, d2) <==> o1 + "-" + d1 == o2 + "-" + d2
  {
    var k1, k2 := StorageKey(o1, d1), StorageKey(o2, d2);
    if k1 == k2 {
      assert k1[|KeyPrefix|..] == k2[|KeyPrefix|..];
    }
    if o1 + "-" + d1 == o2 + "-" + d2 {
      assert k1 == KeyPrefix + (o1 + "-" + d1);
      assert k2 == KeyPrefix + (o2 + "-" + d2);
    }
  }

  /** The key is not injective: ("a-b", "c") and ("a", "b-c") share one. */
  lemma StorageKeyNotInjective()
    ensures exists o1, d1, o2, d2 :: (o1, d1) != (o2, d2) && StorageKey(o1, d1) == StorageKey(o2, d2)
  {
    StorageKeyCollides("a-b", "c", "a", "b-c");
    assert "a-b" + "-" + "c" == "a" + "-" + "b-c";
  }

  /** When neither organization id contains '-', distinct dashboards get distinct keys. */
  lemma StorageKeyInjective(o1: string, d1: string, o2: string, d2: string)
    requires '-' !in o1 && '-' !in o2
    requires StorageKey(o1, d1) == StorageKey(o2, d2)
    ensures o1 == o2 && d1 == d2
  {
    StorageKeyCollides(o1, d1, o2, d2);
    SplitFirstJoin(o1, '-', d1);
    SplitFirstJoin(o2, '-', d2);
    assert o1 + "-" + d1 == o1 + ['-'] + d1;
    assert o2 + "-" + d2 == o2 + ['-'] + d2;
  }

  /**
   * `getDashboardLayout` on storage `items`: nothing or the empty string
   * stored gives the empty layout; anything else is handed to `JSON.parse`,
   * whose SyntaxError is not caught.
   */
  function Load(items: map<string, string>, json: Json, organizationId: string, dashboardId: string): (r: Parsed)
    ensures var key := StorageKey(organizationId, dashboardId);
            && (key !in items || items[key] == "" ==> r == Parsed([]))
            && (key in items && items[key] != "" ==> r == json.parse(items[key]))
  {
    var key := StorageKey(organizationId, dashboardId);
    if key in items && items[key] != "" then json.parse(items[key]) else Parsed([])
  }

  /** `saveDashboardLayout` on storage `items`. */
  function Save(items: map<string, string>, json: Json, organizationId: string, dashboardId: string,
                layout: Layout): (r: map<string, string>)
    ensures var key := StorageKey(organizationId, dashboardId);
            && r.Keys == items.Keys + {key}
            && r[key] == json.stringify(layout)
            && forall k :: k in items && k != key ==> r[k] == items[k]
  {
    items[StorageKey(organizationId, dashboardId) := json.stringify(layout)]
  }

  lemma LoadMissIsEmpty(items: map<string, string>, json: Json, organizationId: string, dashboardId: string)
    requires StorageKey(organizationId, dashboardId) !in items || items[StorageKey(organizationId, dashboardId)] == ""
    ensures Load(items, json, organizationId, dashboardId) == Parsed([])
  {
  }

  /** Stored text that `JSON.parse` rejects makes the loader throw, not return []. */
  lemma LoadCorruptThrows(items: map<string, string>, json: Json, organizationId: string, dashboardId: string)
    requires StorageKey(organizationId, dashboardId) in items
    requires items[StorageKey(organizationId, dashboardId)] != ""
    requires json.parse(items[StorageKey(organizationId, dashboardId)]) == SyntaxError
    ensures Load(items, json, organizationId, dashboardId) == SyntaxError
  {
  }

  /** A saved layout loads back unchanged. */
  lemma SaveThenLoad(items: map<string, string>, json: Json, organizationId: string, dashboardId: string,
                     layout: Layout)
    requires RoundTrips(json)
    ensures Load(Save(items, json, organizationId, dashboardId, layout), json, organizationId, dashboardId)
            == Parsed(layout)
  {
    assert json.stringify(layout) != "" && json.parse(json.stringify(layout)) == Parsed(layout);
  }

  /** Save writes one key, and every other key keeps its value. */
  lemma SaveWritesOnlyItsKey(items: map<string, string>, json: Json, organizationId: string, dashboardId: string,
                             layout: Layout, key: string)
    requires key != StorageKey(organizationId, dashboardId)
    ensures key in Save(items, json, organizationId, dashboardId, layout) <==> key in items
    ensures key in items ==> Save(items, json, organizationId, dashboardId, layout)[key] == items[key]
  {
  }

  /** Saving another dashboard (with a different key) does not change what this one loads. */
  lemma SaveIsolation(items: map<string, string>, json: Json, o1: string, d1: string,
                      o2: string, d2: string, layout: Layout)
    requires StorageKey(o1, d1) != StorageKey(o2, d2)
    ensures Load(Save(items, json, o2, d2, layout), json, o1, d1) == Load(items, json, o1, d1)
  {
  }

  /** Last writer wins: a second save to the same dashboard erases the first. */
  lemma SaveOverwrites(items: map<string, string>, json: Json, organizationId: string, dashboardId: string,
                       first: Layout, second: Layout)
    ensures Save(Save(items, json, organizationId, dashboardId, first), json, organizationId, dashboardId, second)
            == Save(items, json, organizationId, dashboardId, second)
  {
  }

  /** The browser's `localStorage`, with `JSON` as the store's codec. */
  class LayoutStore {
    var items: map<string, string>
    const json: Json

    constructor (items: map<string, string>, json: Json)
      ensures this.items == items && this.json == json
    {
      this.items := items;
      this.json := json;
    }

    method GetDashboardLayout(organizationId: string, dashboardId: string) returns (r: Parsed)
      ensures r == Load(items, json, organizationId, dashboardId)
    {
      var saved: string := "";
      var key := StorageKey(organizationId, dashboardId);
      if key in items {
        saved := items[key];
      }
      if saved != "" {
        r := json.parse(saved);
      } else {
        r := Parsed([]);
      }
    }

    method SaveDashboardLayout(organizationId: string, dashboardId: string, layout: Layout)
      modifies this
      ensures items == Save(old(items), json, organizationId, dashboardId, layout)
    {
      items := items[StorageKey(organizationId, dashboardId) := json.stringify(layout)];
    }
  }

  // ---------------------------------------------------------------------
  // Relabelling placeholder ids after a save

  const PlaceholderPrefix: string := "index"

  predicate IsPlaceholder(id: string)
  {
    StartsWith(id, PlaceholderPrefix)
  }

  /** Ids the server assigns are decimal row ids. */
  predicate IsDurableId(id: string)
  {
    AllDigits(id)
  }

  /**
   * `reassignLayoutId`: a placeholder id is prefixed with the id of the widget
   * saved at the same position, every other field kept; any other item is
   * returned as it is. Only the relabelling reads `savedWidgets[i]`.
   */
  function ReassignLayoutId(savedWidgets: seq<Widget>, item: LayoutItem, i: int): (r: LayoutItem)
    requires IsPlaceholder(item.i) ==> 0 <= i < |savedWidgets|
    ensures !IsPlaceholder(item.i) ==> r == item
    ensures IsPlaceholder(item.i) ==> r == item.(i := savedWidgets[i].id + "-" + item.i)
  {
    if IsPlaceholder(item.i) then item.(i := savedWidgets[i].id + "-" + item.i) else item
  }

  /** A relabelled id splits back into the saved widget's id and the placeholder. */
  lemma ReassignedIdDecodes(savedWidgets: seq<Widget>, item: LayoutItem, i: int)
    requires IsPlaceholder(item.i) && 0 <= i < |savedWidgets|
    requires IsDurableId(savedWidgets[i].id)
    ensures SplitFirst(ReassignLayoutId(savedWidgets, item, i).i, '-') == Some((savedWidgets[i].id, item.i))
  {
    var wid := savedWidgets[i].id;
    assert '-' !in wid;
    assert wid + "-" + item.i == wid + ['-'] + item.i;
    SplitFirstJoin(wid, '-', item.i);
  }

  /** Placeholders at different positions, saved as different widgets, get different ids. */
  lemma ReassignedIdsDistinct(savedWidgets: seq<Widget>, a: LayoutItem, j: int, b: LayoutItem, k: int)
    requires IsPlaceholder(a.i) && 0 <= j < |savedWidgets|
    requires IsPlaceholder(b.i) && 0 <= k < |savedWidgets|
    requires IsDurableId(savedWidgets[j].id) && IsDurableId(savedWidgets[k].id)
    requires savedWidgets[j].id != savedWidgets[k].id || a.i != b.i
    ensures ReassignLayoutId(savedWidgets, a, j).i != ReassignLayoutId(savedWidgets, b, k).i
  {
    ReassignedIdDecodes(savedWidgets, a, j);
    ReassignedIdDecodes(savedWidgets, b, k);
  }

  /** Relabelling settles: a relabelled item is no longer a placeholder, so a second pass keeps it. */
  lemma ReassignSettles(savedWidgets: seq<Widget>, item: LayoutItem, i: int, others: seq<Widget>, j: int)
    requires IsPlaceholder(item.i) ==> 0 <= i < |savedWidgets| && IsDurableId(savedWidgets[i].id)
    ensures !IsPlaceholder(ReassignLayoutId(savedWidgets, item, i).i)
    ensures ReassignLayoutId(others, ReassignLayoutId(savedWidgets, item, i), j)
            == ReassignLayoutId(savedWidgets, item, i)
  {
    if IsPlaceholder(item.i) {
      var r := ReassignLayoutId(savedWidgets, item, i);
      var wid := savedWidgets[i].id;
      assert r.i[0] == (if wid == "" then '-' else wid[0]);
      assert r.i[0] != 'i';
    }
  }
}
