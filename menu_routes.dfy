/** The menu routes of routes/menuRoutes.js over the menu item collection, keyed by _id:
    the grouped listing and the by-id routes. */
module MenuRoutes {
  import opened Results
  import opened Sorting
  import opened MenuItemModel

  /** The query GET / builds: always `active: true`, and the category only when given
      non-empty. */
  datatype MenuQuery = MenuQuery(active: bool, category: Option<string>)

  function BuildMenuQuery(category: Option<string>): (q: MenuQuery)
    ensures q.active
    ensures q.category.Some? <==> category.Some? && category.value != ""
  {
    MenuQuery(true, if category.Some? && category.value != "" then category else None)
  }

  /** Whether the store's find selects m for query q. */
  predicate SelectedBy(q: MenuQuery, m: MenuItem)
  {
    m.active == q.active && (q.category.Some? ==> m.category == q.category.value)
  }

  /** What GET / lists, in the request's terms: active items only, and only those of the
      requested category when one is given. */
  lemma ListingFilter(category: Option<string>, m: MenuItem)
    ensures SelectedBy(BuildMenuQuery(category), m) <==>
      m.active && (category.Some? && category.value != "" ==> m.category == category.value)
  {
  }

  /** `sort({ category: 1, name: 1 })`. */
  predicate CategoryThenName(a: MenuItem, b: MenuItem)
  {
    if a.category != b.category then StrLe(a.category, b.category) else StrLe(a.name, b.name)
  }

  predicate ByName(a: MenuItem, b: MenuItem)
  {
    StrLe(a.name, b.name)
  }

  lemma CategoryThenNameIsTotalPreorder()
    ensures TotalPreorder(CategoryThenName)
  {
    forall a, b ensures CategoryThenName(a, b) || CategoryThenName(b, a) {
      StrLeTotal(a.category, b.category);
      StrLeTotal(a.name, b.name);
    }
    forall a, b, c | CategoryThenName(a, b) && CategoryThenName(b, c)
      ensures CategoryThenName(a, c)
    {
      if a.category == b.category && b.category == c.category {
        StrLeTransitive(a.name, b.name, c.name);
      } else if a.category != b.category && b.category != c.category {
        StrLeTransitive(a.category, b.category, c.category);
        if a.category == c.category {
          StrLeAntisymmetric(a.category, b.category);
        }
      }
    }
  }

  /** `menuItems.filter(item => item.category === c)`. */
  function InCategory(items: seq<MenuItem>, c: string): (r: seq<MenuItem>)
    ensures forall k :: 0 <= k < |r| ==> r[k].category == c
    ensures forall m :: multiset(r)[m] == if m.category == c then multiset(items)[m] else 0
  {
    if items == [] then []
    else
      assert items == [items[0]] + items[1..];
      (if items[0].category == c then [items[0]] else []) + InCategory(items[1..], c)
  }

  /** What bounds every item from below bounds every item the filter keeps. */
  lemma {:induction false} InCategoryBounded(items: seq<MenuItem>, c: string, le: (MenuItem, MenuItem) -> bool, x: MenuItem)
    requires forall k :: 0 <= k < |items| ==> le(x, items[k])
    ensures forall k :: 0 <= k < |InCategory(items, c)| ==> le(x, InCategory(items, c)[k])
  {
    if items != [] {
      assert forall k :: 0 <= k < |items[1..]| ==> items[1..][k] == items[k + 1];
      InCategoryBounded(items[1..], c, le, x);
    }
  }

  /** The filter keeps the order of what it keeps. */
  lemma {:induction false} InCategorySorted(items: seq<MenuItem>, c: string, le: (MenuItem, MenuItem) -> bool)
    requires SortedBy(items, le)
    ensures SortedBy(InCategory(items, c), le)
  {
    if items != [] {
      var tail := items[1..];
      assert forall k :: 0 <= k < |tail| ==> tail[k] == items[k + 1];
      InCategorySorted(tail, c, le);
      var rest := InCategory(tail, c);
      if items[0].category == c {
        InCategoryBounded(tail, c, le, items[0]);
        var r := [items[0]] + rest;
        forall i, j | 0 <= i < j < |r| ensures le(r[i], r[j]) {
          if i > 0 {
            assert r[i] == rest[i - 1] && r[j] == rest[j - 1];
          }
        }
      }
    }
  }

  /** Within one category the (category, name) order is the name order. */
  lemma OneCategorySortedByName(items: seq<MenuItem>, c: string)
    requires SortedBy(items, CategoryThenName)
    requires forall k :: 0 <= k < |items| ==> items[k].category == c
    ensures SortedBy(items, ByName)
  {
    forall i, j | 0 <= i < j < |items| ensures ByName(items[i], items[j]) {
      assert CategoryThenName(items[i], items[j]);
    }
  }

  /** The response body of GET /. */
  datatype GroupedMenu = GroupedMenu(smokedMeats: seq<MenuItem>, sides: seq<MenuItem>, sandwiches: seq<MenuItem>)

  function GroupMenu(items: seq<MenuItem>): (g: GroupedMenu)
    ensures forall k :: 0 <= k < |g.smokedMeats| ==> g.smokedMeats[k].category == "smokedMeats"
    ensures forall k :: 0 <= k < |g.sides| ==> g.sides[k].category == "sides"
    ensures forall k :: 0 <= k < |g.sandwiches| ==> g.sandwiches[k].category == "sandwiches"
  {
    GroupedMenu(InCategory(items, "smokedMeats"), InCategory(items, "sides"), InCategory(items, "sandwiches"))
  }

  /** The items the query selects from the catalog. */
  ghost function Listed(catalog: map<string, MenuItem>, category: Option<string>): set<MenuItem>
  {
    set m | m in catalog.Values && SelectedBy(BuildMenuQuery(category), m)
  }

  /** The listed items of one category. */
  ghost function Bucket(catalog: map<string, MenuItem>, category: Option<string>, c: string): set<MenuItem>
  {
    set m | m in Listed(catalog, category) && m.category == c
  }

  /** Grouping a sorted listing: each bucket holds exactly the listed items of its category,
      each once, ordered by name. */
  lemma GroupedBucket(sorted: seq<MenuItem>, listed: set<MenuItem>, c: string)
    requires SortedBy(sorted, CategoryThenName) && multiset(sorted) == multiset(listed)
    ensures multiset(InCategory(sorted, c)) == multiset(set m | m in listed && m.category == c)
    ensures SortedBy(InCategory(sorted, c), ByName)
  {
    var bucket := set m | m in listed && m.category == c;
    assert forall m :: multiset(InCategory(sorted, c))[m] == multiset(bucket)[m];
    InCategorySorted(sorted, c, CategoryThenName);
    OneCategorySortedByName(InCategory(sorted, c), c);
  }

  /** GET /: the selected items sorted by (category, name), then split into the three buckets. */
  method ListMenu(catalog: map<string, MenuItem>, category: Option<string>) returns (menu: GroupedMenu)
    requires forall k :: k in catalog ==> catalog[k].id == k
    ensures multiset(menu.smokedMeats) == multiset(Bucket(catalog, category, "smokedMeats"))
    ensures multiset(menu.sides) == multiset(Bucket(catalog, category, "sides"))
    ensures multiset(menu.sandwiches) == multiset(Bucket(catalog, category, "sandwiches"))
    ensures SortedBy(menu.smokedMeats, ByName) && SortedBy(menu.sides, ByName) && SortedBy(menu.sandwiches, ByName)
  {
    var query := BuildMenuQuery(category);
    var selected := set m | m in catalog.Values && SelectedBy(query, m);
    CategoryThenNameIsTotalPreorder();
    var menuItems := SortSet(selected, CategoryThenName);
    menu := GroupMenu(menuItems);
    GroupedBucket(menuItems, selected, "smokedMeats");
    GroupedBucket(menuItems, selected, "sides");
    GroupedBucket(menuItems, selected, "sandwiches");
  }

  /** GET /:id: no `active` filter here. */
  function GetMenuItem(catalog: map<string, MenuItem>, id: string): (r: Outcome<MenuItem>)
    ensures r.Ok? <==> id in catalog
    ensures r.Ok? ==> r.value == catalog[id]
    ensures !r.Ok? ==> r == NotFound("Menu item not found", None)
  {
    if id in catalog then Ok(catalog[id]) else NotFound("Menu item not found", None)
  }

  /** POST /: `new MenuItem(body)` and save; `id` is the _id the store assigns. */
  function CreateMenuItem(catalog: map<string, MenuItem>, id: string, body: MenuItemFields, now: int)
    : (r: (Outcome<MenuItem>, map<string, MenuItem>))
    requires id !in catalog
    ensures r.0.Ok? <==> HasRequiredFields(body) && FieldsPassValidators(body)
    ensures r.0.Ok? ==> NewMenuItem(id, body, now) == Some(r.0.value)
    ensures r.0.Ok? ==> ValidMenuItem(r.0.value) && r.1 == catalog[id := r.0.value]
    ensures !r.0.Ok? ==> r.0 == InvalidArgument("Failed to create menu item") && r.1 == catalog
  {
    match NewMenuItem(id, body, now)
    case Some(m) => (Ok(m), catalog[id := m])
    case None => (InvalidArgument("Failed to create menu item"), catalog)
  }

  /** PUT /:id with update validators: the body's fields are validated first, then the id is
      looked up, then the fields are written. */
  function UpdateMenuItem(catalog: map<string, MenuItem>, id: string, body: MenuItemFields)
    : (r: (Outcome<MenuItem>, map<string, MenuItem>))
    ensures !FieldsPassValidators(body) ==>
      r == (InvalidArgument("Failed to update menu item"), catalog)
    ensures FieldsPassValidators(body) && id !in catalog ==>
      r == (NotFound("Menu item not found", None), catalog)
    ensures FieldsPassValidators(body) && id in catalog ==>
      r.0 == Ok(ApplyFields(catalog[id], body)) && r.1 == catalog[id := r.0.value]
      && (ValidMenuItem(catalog[id]) ==> ValidMenuItem(r.0.value))
  {
    if !FieldsPassValidators(body) then (InvalidArgument("Failed to update menu item"), catalog)
    else if id !in catalog then (NotFound("Menu item not found", None), catalog)
    else
      var m := ApplyFields(catalog[id], body);
      assert ValidMenuItem(catalog[id]) ==> ValidMenuItem(m) by {
        if ValidMenuItem(catalog[id]) {
          ApplyFieldsKeepsValid(catalog[id], body);
        }
      }
      (Ok(m), catalog[id := m])
  }

  /** DELETE /:id. */
  function DeleteMenuItem(catalog: map<string, MenuItem>, id: string)
    : (r: (Outcome<string>, map<string, MenuItem>))
    ensures id !in catalog ==> r == (NotFound("Menu item not found", None), catalog)
    ensures id in catalog ==>
      r.0 == Ok("Menu item deleted successfully") && r.1.Keys == catalog.Keys - {id}
      && forall k :: k in r.1 ==> r.1[k] == catalog[k]
  {
    if id !in catalog then (NotFound("Menu item not found", None), catalog)
    else (Ok("Menu item deleted successfully"), catalog - {id})
  }
}
