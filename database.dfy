/**
 * The SQLite catalog: a `categories(id, name)` table seeded from the
 * category choices and a `resources(id, url, category_id)` table.
 *
 * Both tables use `id integer PRIMARY KEY`, SQLite's rowid alias: an insert
 * gets the largest rowid plus one, or 1 in an empty table. Nothing ever
 * deletes a row, so the row at index `i` has id `i + 1`. A query without
 * ORDER BY scans in rowid order, so `fetchone()` returns the first matching
 * row of the sequence.
 */
module Database {
  import opened Wrappers
  import opened Classes

  datatype CategoryRow = CategoryRow(id: int, name: string)
  datatype ResourceRow = ResourceRow(id: int, url: string, categoryId: int)

  type CategoryTable = seq<CategoryRow>
  type ResourceTable = seq<ResourceRow>

  /** The message of the `ValueError` that `create_resource` raises on a duplicate. */
  const DuplicateMessage: string := "Resource already exist."

  /** Python truthiness of an `int | None` id: `None` and `0` are both falsy. */
  predicate Truthy(id: Option<int>)
  {
    id.Some? && id.value != 0
  }

  /** The index of the first element satisfying `p`, or `|s|` when none does. */
  function FirstIndex<T>(s: seq<T>, p: T -> bool): (k: nat)
    ensures k <= |s|
    ensures k < |s| ==> p(s[k])
    ensures forall j :: 0 <= j < k ==> !p(s[j])
  {
    if s == [] then 0
    else if p(s[0]) then 0
    else 1 + FirstIndex(s[1..], p)
  }

  /** `SELECT id FROM categories WHERE name=?`, first row. */
  function FetchCategoryId(categories: CategoryTable, name: string): (r: Option<int>)
    ensures r.None? <==> forall i :: 0 <= i < |categories| ==> categories[i].name != name
    ensures r.Some? ==>
      exists i :: 0 <= i < |categories| && categories[i] == CategoryRow(r.value, name) &&
        forall j :: 0 <= j < i ==> categories[j].name != name
  {
    var k := FirstIndex(categories, (row: CategoryRow) => row.name == name);
    if k < |categories| then Some(categories[k].id) else None
  }

  /** `SELECT name FROM categories WHERE id=?`, first row. */
  function FetchCategory(categories: CategoryTable, categoryId: int): (r: Option<string>)
    ensures r.None? <==> forall i :: 0 <= i < |categories| ==> categories[i].id != categoryId
    ensures r.Some? ==>
      exists i :: 0 <= i < |categories| && categories[i] == CategoryRow(categoryId, r.value) &&
        forall j :: 0 <= j < i ==> categories[j].id != categoryId
  {
    var k := FirstIndex(categories, (row: CategoryRow) => row.id == categoryId);
    if k < |categories| then Some(categories[k].name) else None
  }

  /**
   * `SELECT url FROM resources WHERE category_id=?`: the urls of the rows
   * filed under `categoryId`, in row order.
   */
  function UrlsIn(resources: ResourceTable, categoryId: int): (urls: seq<string>)
    ensures |urls| <= |resources|
  {
    if resources == [] then []
    else
      var row := resources[|resources| - 1];
      UrlsIn(resources[..|resources| - 1], categoryId) + (if row.categoryId == categoryId then [row.url] else [])
  }

  /** A url is listed under a category exactly when some row files it there. */
  lemma {:induction false} UrlsInMembers(resources: ResourceTable, categoryId: int)
    ensures forall u :: u in UrlsIn(resources, categoryId) <==>
      exists i :: 0 <= i < |resources| && resources[i].categoryId == categoryId && resources[i].url == u
  {
    if resources != [] {
      var n := |resources| - 1;
      var init := resources[..n];
      UrlsInMembers(init, categoryId);
      assert forall i :: 0 <= i < n ==> init[i] == resources[i];
    }
  }

  /** The category-id column, without repeats, in order of first appearance. */
  function CategoryKeys(resources: ResourceTable): (keys: seq<int>)
    ensures forall i, j :: 0 <= i < j < |keys| ==> keys[i] != keys[j]
    ensures |keys| <= |resources|
  {
    if resources == [] then []
    else
      var c := resources[|resources| - 1].categoryId;
      var keys := CategoryKeys(resources[..|resources| - 1]);
      if c in keys then keys else keys + [c]
  }

  /** The keys are exactly the category ids that occur in the table. */
  lemma {:induction false} CategoryKeysMembers(resources: ResourceTable)
    ensures forall c :: c in CategoryKeys(resources) <==>
      exists i :: 0 <= i < |resources| && resources[i].categoryId == c
  {
    if resources != [] {
      var n := |resources| - 1;
      var init := resources[..n];
      CategoryKeysMembers(init);
      assert forall i :: 0 <= i < n ==> init[i] == resources[i];
    }
  }

  /** `fetch_resources(name)`: the urls of the named category, `[]` when the name is unknown. */
  function FetchResources(categories: CategoryTable, resources: ResourceTable, name: string): (urls: seq<string>)
    ensures !Truthy(FetchCategoryId(categories, name)) ==> urls == []
    ensures forall u :: u in urls <==>
      Truthy(FetchCategoryId(categories, name)) &&
      exists i :: 0 <= i < |resources| && resources[i].url == u &&
        Some(resources[i].categoryId) == FetchCategoryId(categories, name)
    ensures Truthy(FetchCategoryId(categories, name)) ==> urls == UrlsIn(resources, FetchCategoryId(categories, name).value)
  {
    var categoryId := FetchCategoryId(categories, name);
    if !Truthy(categoryId) then []
    else
      UrlsInMembers(resources, categoryId.value);
      UrlsIn(resources, categoryId.value)
  }

  /** `fetch_resource(url, name)`: the first row with that url under the named category. */
  function FetchResource(categories: CategoryTable, resources: ResourceTable, url: string, name: string)
    : (r: Option<ResourceRow>)
    ensures r.Some? <==>
      Truthy(FetchCategoryId(categories, name)) &&
      exists i :: 0 <= i < |resources| && resources[i].url == url &&
        Some(resources[i].categoryId) == FetchCategoryId(categories, name)
    ensures r.Some? ==>
      r.value in resources && r.value.url == url && Some(r.value.categoryId) == FetchCategoryId(categories, name)
    ensures r.Some? ==>
      exists i :: 0 <= i < |resources| && resources[i] == r.value &&
        forall j :: 0 <= j < i ==> !(resources[j].url == url && Some(resources[j].categoryId) == FetchCategoryId(categories, name))
  {
    var categoryId := FetchCategoryId(categories, name);
    if !Truthy(categoryId) then None
    else
      var k := FirstIndex(resources, (row: ResourceRow) => row.url == url && row.categoryId == categoryId.value);
      if k < |resources| then Some(resources[k]) else None
  }

  /** What `create_resource` hands back: a new id, `None`, or the duplicate `ValueError`. */
  datatype CreateResult =
    | Created(id: int)
    | NotCreated
    | DuplicateError(message: string)

  /** Row `i` of a table has rowid `i + 1`. */
  ghost predicate CategoryIdsArePositions(categories: CategoryTable)
  {
    forall i :: 0 <= i < |categories| ==> categories[i].id == i + 1
  }

  ghost predicate ResourceIdsArePositions(resources: ResourceTable)
  {
    forall i :: 0 <= i < |resources| ==> resources[i].id == i + 1
  }

  /** No two resource rows share both the url and the category id. */
  ghost predicate NoDuplicatePairs(resources: ResourceTable)
  {
    forall i, j :: 0 <= i < j < |resources| ==>
      resources[i].url != resources[j].url || resources[i].categoryId != resources[j].categoryId
  }

  /** An entry of the dict `fetch_all_resources` builds: a category id and its urls. */
  datatype LinkEntry = LinkEntry(categoryId: int, urls: seq<string>)

  function TotalLength(links: seq<LinkEntry>): nat
  {
    if links == [] then 0 else TotalLength(links[..|links| - 1]) + |links[|links| - 1].urls|
  }

  /** Replacing one entry changes the total by the change in that entry's length. */
  lemma {:induction false} TotalLengthUpdate(links: seq<LinkEntry>, k: nat, entry: LinkEntry)
    requires k < |links|
    ensures TotalLength(links[k := entry]) == TotalLength(links) - |links[k].urls| + |entry.urls|
    decreases |links|
  {
    var n := |links| - 1;
    var updated := links[k := entry];
    if k < n {
      assert updated[..n] == links[..n][k := entry];
      TotalLengthUpdate(links[..n], k, entry);
    } else {
      assert updated[..n] == links[..n];
    }
  }

  lemma UrlsInSnoc(rows: ResourceTable, row: ResourceRow, categoryId: int)
    ensures UrlsIn(rows + [row], categoryId) ==
      UrlsIn(rows, categoryId) + (if row.categoryId == categoryId then [row.url] else [])
  {
    assert (rows + [row])[..|rows|] == rows;
  }

  lemma CategoryKeysSnoc(rows: ResourceTable, row: ResourceRow)
    ensures var keys := CategoryKeys(rows);
      CategoryKeys(rows + [row]) == if row.categoryId in keys then keys else keys + [row.categoryId]
  {
    assert (rows + [row])[..|rows|] == rows;
  }

  /** The row order of a listing: the urls of a concatenation are the urls of each part, in turn. */
  lemma {:induction false} UrlsInConcat(a: ResourceTable, b: ResourceTable, categoryId: int)
    ensures UrlsIn(a + b, categoryId) == UrlsIn(a, categoryId) + UrlsIn(b, categoryId)
    decreases |b|
  {
    if b != [] {
      var n := |b| - 1;
      assert (a + b)[..|a + b| - 1] == a + b[..n];
      UrlsInConcat(a, b[..n], categoryId);
    } else {
      assert a + b == a;
    }
  }

  /** A category has a non-empty url list exactly when some row is filed under it. */
  lemma {:induction false} UrlsInEmpty(resources: ResourceTable, categoryId: int)
    ensures UrlsIn(resources, categoryId) == [] <==> categoryId !in CategoryKeys(resources)
  {
    if resources != [] {
      UrlsInEmpty(resources[..|resources| - 1], categoryId);
    }
  }

  /** Under rowid numbering, `fetch_category(id)` is the name of row `id - 1`. */
  lemma FetchCategoryByPosition(categories: CategoryTable, categoryId: int)
    requires CategoryIdsArePositions(categories)
    ensures FetchCategory(categories, categoryId) ==
      if 1 <= categoryId <= |categories| then Some(categories[categoryId - 1].name) else None
  {
    if 1 <= categoryId <= |categories| {
      assert categories[categoryId - 1].id == categoryId;
    }
  }

  /** Rows appended later never change which row a name resolves to once it resolves. */
  lemma FetchCategoryIdStable(categories: CategoryTable, more: CategoryTable, name: string)
    requires FetchCategoryId(categories, name).Some?
    ensures FetchCategoryId(categories + more, name) == FetchCategoryId(categories, name)
  {
    var all := categories + more;
    var i :| 0 <= i < |categories| && categories[i] == CategoryRow(FetchCategoryId(categories, name).value, name) &&
      forall j :: 0 <= j < i ==> categories[j].name != name;
    assert all[i] == categories[i];
    var k :| 0 <= k < |all| && all[k] == CategoryRow(FetchCategoryId(all, name).value, name) &&
      forall j :: 0 <= j < k ==> all[j].name != name;
  }

  /** Two different names with rows resolve to two different ids when ids are rowids. */
  lemma FetchCategoryIdDistinct(categories: CategoryTable, name1: string, name2: string)
    requires CategoryIdsArePositions(categories)
    requires name1 != name2
    requires FetchCategoryId(categories, name1).Some? && FetchCategoryId(categories, name2).Some?
    ensures FetchCategoryId(categories, name1) != FetchCategoryId(categories, name2)
  {
  }

  /** `links` is the dict built from `rows`: keys in first-appearance order, each with its urls. */
  ghost predicate Grouped(rows: ResourceTable, links: seq<LinkEntry>)
  {
    && |links| == |CategoryKeys(rows)|
    && (forall j :: 0 <= j < |links| ==> links[j].categoryId == CategoryKeys(rows)[j])
    && (forall j :: 0 <= j < |links| ==> links[j].urls == UrlsIn(rows, links[j].categoryId))
  }

  /** A row under a category not seen before opens a new entry holding its url. */
  lemma GroupedNewKey(rows: ResourceTable, row: ResourceRow, links: seq<LinkEntry>)
    requires Grouped(rows, links)
    requires forall j :: 0 <= j < |links| ==> links[j].categoryId != row.categoryId
    ensures Grouped(rows + [row], links + [LinkEntry(row.categoryId, [row.url])])
  {
    var c := row.categoryId;
    var links' := links + [LinkEntry(c, [row.url])];
    var keys := CategoryKeys(rows);
    assert c !in keys by {
      forall j | 0 <= j < |keys| ensures keys[j] != c {
        assert links[j].categoryId == keys[j];
      }
    }
    CategoryKeysSnoc(rows, row);
    assert UrlsIn(rows + [row], c) == [row.url] by {
      UrlsInEmpty(rows, c);
      UrlsInSnoc(rows, row, c);
    }
    forall j | 0 <= j < |links|
      ensures links'[j].urls == UrlsIn(rows + [row], links'[j].categoryId)
    {
      UrlsInSnoc(rows, row, links[j].categoryId);
    }
  }

  /** A row under a category already seen is appended to that category's entry. */
  lemma GroupedKnownKey(rows: ResourceTable, row: ResourceRow, links: seq<LinkEntry>, k: nat)
    requires Grouped(rows, links)
    requires k < |links| && links[k].categoryId == row.categoryId
    ensures Grouped(rows + [row], links[k := LinkEntry(row.categoryId, links[k].urls + [row.url])])
  {
    var links' := links[k := LinkEntry(row.categoryId, links[k].urls + [row.url])];
    CategoryKeysSnoc(rows, row);
    forall j | 0 <= j < |links'|
      ensures links'[j].urls == UrlsIn(rows + [row], links'[j].categoryId)
    {
      UrlsInSnoc(rows, row, links[j].categoryId);
    }
  }

  /** One iteration of the `fetch_all_resources` loop: the dict stays grouped and counts one more row. */
  lemma GroupedStep(rows: ResourceTable, row: ResourceRow, links: seq<LinkEntry>, k: nat, links': seq<LinkEntry>)
    requires Grouped(rows, links)
    requires k <= |links|
    requires k < |links| ==> links[k].categoryId == row.categoryId
    requires forall j :: 0 <= j < k ==> links[j].categoryId != row.categoryId
    requires k == |links| ==> links' == (links + [LinkEntry(row.categoryId, [])])[k := LinkEntry(row.categoryId, [] + [row.url])]
    requires k < |links| ==> links' == links[k := LinkEntry(row.categoryId, links[k].urls + [row.url])]
    ensures Grouped(rows + [row], links')
    ensures TotalLength(links') == TotalLength(links) + 1
  {
    if k == |links| {
      assert [] + [row.url] == [row.url];
      assert links' == links + [LinkEntry(row.categoryId, [row.url])];
      GroupedNewKey(rows, row, links);
      assert links'[..|links|] == links;
    } else {
      GroupedKnownKey(rows, row, links, k);
      TotalLengthUpdate(links, k, LinkEntry(row.categoryId, links[k].urls + [row.url]));
    }
  }

  /** Once every row is grouped, each entry is non-empty. */
  lemma GroupedComplete(rows: ResourceTable, links: seq<LinkEntry>)
    requires Grouped(rows, links)
    ensures forall j :: 0 <= j < |links| ==> links[j].urls != []
  {
    forall j | 0 <= j < |links| ensures links[j].urls != [] {
      UrlsInEmpty(rows, links[j].categoryId);
    }
  }

  /** After a seeding at `offset`, every category choice resolves to a truthy id. */
  lemma SeededChoicesResolve(categories: CategoryTable, offset: nat)
    requires CategoryIdsArePositions(categories)
    requires offset + |CategoryChoices| <= |categories|
    requires forall k :: 0 <= k < |CategoryChoices| ==> categories[offset + k].name == CategoryChoices[k].value
    ensures forall k :: 0 <= k < |CategoryChoices| ==> Truthy(FetchCategoryId(categories, CategoryChoices[k].value))
  {
    forall k | 0 <= k < |CategoryChoices|
      ensures Truthy(FetchCategoryId(categories, CategoryChoices[k].value))
    {
      assert categories[offset + k].name == CategoryChoices[k].value;
    }
  }

  /** The catalog database behind one connection. */
  class Store {
    var categories: CategoryTable
    var resources: ResourceTable
    /** The rowid the next insert into each table receives. */
    var nextCategoryId: int
    var nextResourceId: int

    ghost predicate Valid()
      reads this
    {
      && CategoryIdsArePositions(categories)
      && ResourceIdsArePositions(resources)
      && nextCategoryId == |categories| + 1
      && nextResourceId == |resources| + 1
      // every resource points at an existing category row
      && (forall i :: 0 <= i < |resources| ==> 1 <= resources[i].categoryId <= |categories|)
      && NoDuplicatePairs(resources)
    }

    /** A connection to a new database file, with both tables created and empty. */
    constructor ()
      ensures Valid()
      ensures categories == [] && resources == []
    {
      categories, resources := [], [];
      nextCategoryId, nextResourceId := 1, 1;
    }

    /**
     * `create_categories`: one multi-row INSERT with a row per category
     * choice, in list order. No guard: every call appends the rows again.
     */
    method CreateCategories()
      requires Valid()
      modifies this
      ensures Valid()
      ensures resources == old(resources) && nextResourceId == old(nextResourceId)
      ensures |categories| == |old(categories)| + |CategoryChoices|
      ensures categories[..|old(categories)|] == old(categories)
      ensures forall k :: 0 <= k < |CategoryChoices| ==>
        categories[|old(categories)| + k] == CategoryRow(old(nextCategoryId) + k, CategoryChoices[k].value)
    {
      // the VALUES list of the query, one entry per choice
      var values: seq<string> := [];
      for idx := 0 to |CategoryChoices|
        invariant |values| == idx
        invariant forall k :: 0 <= k < idx ==> values[k] == CategoryChoices[k].value
      {
        values := values + [CategoryChoices[idx].value];
      }
      var first := nextCategoryId;
      var rows := seq(|values|, k requires 0 <= k < |values| => CategoryRow(first + k, values[k]));
      categories := categories + rows;
      nextCategoryId := nextCategoryId + |rows|;
    }

    /**
     * `create_tables`: both `CREATE TABLE IF NOT EXISTS` leave existing
     * tables as they are; then the categories are inserted again.
     */
    method CreateTables()
      requires Valid()
      modifies this
      ensures Valid()
      ensures resources == old(resources) && nextResourceId == old(nextResourceId)
      ensures |categories| == |old(categories)| + |CategoryChoices|
      ensures categories[..|old(categories)|] == old(categories)
      ensures forall k :: 0 <= k < |CategoryChoices| ==>
        categories[|old(categories)| + k] == CategoryRow(old(nextCategoryId) + k, CategoryChoices[k].value)
    {
      CreateCategories();
    }

    /**
     * `create_resource(url, category)`: the duplicate pre-check, then the
     * category lookup, then the insert of `Resource(url, category_id)`.
     */
    method CreateResource(url: string, category: string) returns (r: CreateResult)
      requires Valid()
      modifies this
      ensures Valid()
      ensures categories == old(categories) && nextCategoryId == old(nextCategoryId)
      ensures r.DuplicateError? <==> FetchResource(categories, old(resources), url, category).Some?
      ensures r.DuplicateError? ==> r.message == DuplicateMessage
      ensures r.NotCreated? <==> !Truthy(FetchCategoryId(categories, category))
      ensures !r.Created? ==> resources == old(resources) && nextResourceId == old(nextResourceId)
      ensures r.Created? ==>
        && FetchCategoryId(categories, category).Some?
        && var categoryId := FetchCategoryId(categories, category).value;
        && resources == old(resources) + [ResourceRow(r.id, url, categoryId)]
        && r.id > 0
        && (forall i :: 0 <= i < |old(resources)| ==> old(resources)[i].id != r.id)
        && (forall i :: 0 <= i < |old(resources)| ==>
              old(resources)[i].url != url || old(resources)[i].categoryId != categoryId)
    {
      if FetchResource(categories, resources, url, category).Some? {
        return DuplicateError(DuplicateMessage);
      }
      r := NotCreated;
      var categoryId := FetchCategoryId(categories, category);
      if Truthy(categoryId) {
        var resource := Resource(url, categoryId.value);
        var (u, c) := AsTuple(resource);
        r := Created(nextResourceId);
        resources := resources + [ResourceRow(nextResourceId, u, c)];
        nextResourceId := nextResourceId + 1;
      }
    }

    /**
     * `fetch_all_resources`: one pass over the rows, appending each url to
     * its category's list and adding the category key on first sight.
     */
    method FetchAllResources() returns (links: seq<LinkEntry>)
      ensures |links| == |CategoryKeys(resources)|
      ensures forall j :: 0 <= j < |links| ==> links[j].categoryId == CategoryKeys(resources)[j]
      ensures forall j :: 0 <= j < |links| ==> links[j].urls == UrlsIn(resources, links[j].categoryId)
      ensures forall j :: 0 <= j < |links| ==> links[j].urls != []
      ensures TotalLength(links) == |resources|
    {
      links := [];
      for i := 0 to |resources|
        invariant Grouped(resources[..i], links)
        invariant TotalLength(links) == i
      {
        var row := resources[i];
        var k := FirstIndex(links, (e: LinkEntry) => e.categoryId == row.categoryId);
        ghost var before := links;
        if k == |links| {
          links := links + [LinkEntry(row.categoryId, [])];
        }
        links := links[k := LinkEntry(row.categoryId, links[k].urls + [row.url])];
        assert resources[..i + 1] == resources[..i] + [row];
        GroupedStep(resources[..i], row, before, k, links);
      }
      assert resources[..|resources|] == resources;
      GroupedComplete(resources, links);
    }
  }

  /**
   * The catalog walk-through: a link is added under "crypto", the same pair
   * again is refused, and the same link under "pwn" is a new row.
   */
  method DuplicateScenario() returns (first: CreateResult, again: CreateResult, otherCategory: CreateResult)
    ensures first == Created(1)
    ensures again == DuplicateError(DuplicateMessage)
    ensures otherCategory == Created(2)
  {
    var store := new Store();
    store.CreateTables();
    assert CategoryChoices[0].value == "crypto" && CategoryChoices[6].value == "pwn";
    assert store.categories[0] == CategoryRow(1, "crypto");
    assert store.categories[6] == CategoryRow(7, "pwn");
    var url := "https://example.com/a";
    first := store.CreateResource(url, "crypto");
    again := store.CreateResource(url, "crypto");
    otherCategory := store.CreateResource(url, "pwn");
  }

  /**
   * Two start-ups on one database: the categories are inserted twice, and
   * a name still resolves to the row of the first start-up.
   */
  method RestartScenario() returns (categories: CategoryTable)
    ensures |categories| == 2 * |CategoryChoices|
    ensures categories[0] == CategoryRow(1, "crypto") && categories[11] == CategoryRow(12, "crypto")
    ensures FetchCategoryId(categories, "crypto") == Some(1)
    ensures FetchCategory(categories, 12) == Some("crypto")
  {
    var store := new Store();
    store.CreateTables();
    assert CategoryChoices[0].value == "crypto";
    assert store.categories[0] == CategoryRow(1, "crypto");
    store.CreateTables();
    assert store.categories[11 + 0] == CategoryRow(12, "crypto");
    categories := store.categories;
    assert categories[0] == CategoryRow(1, "crypto");
    FetchCategoryByPosition(categories, 12);
  }
}
