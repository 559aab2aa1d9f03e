// The product catalog screen of the operator console: the models of every
// category flattened in key order, a search by name that ignores letter
// case combined with a category filter, and the category tabs.
module CatalogManager {
  import opened JsValue
  import opened JsText
  import opened SeqFilter

  datatype CatalogModel = CatalogModel(name: string, categoryKey: Value)

  /** `catalog.models` and `catalog.categories` as their entries in key
    * order. */
  datatype Catalog = Catalog(models: seq<(string, seq<CatalogModel>)>, categories: seq<(string, seq<string>)>)

  /** `Object.entries(models).flatMap(([k, ms]) => ms)`. */
  function AllModels(models: seq<(string, seq<CatalogModel>)>): (r: seq<CatalogModel>)
    ensures forall k :: 0 <= k < |models| ==> |models[k].1| <= |r|
    ensures |models| == 1 ==> r == models[0].1
  {
    if models == [] then [] else models[0].1 + AllModels(models[1..])
  }

  /** Flattening distributes over splitting the entries. */
  lemma {:induction false} AllModelsConcat(a: seq<(string, seq<CatalogModel>)>, b: seq<(string, seq<CatalogModel>)>)
    ensures AllModels(a + b) == AllModels(a) + AllModels(b)
  {
    if a == [] {
      assert a + b == b;
    } else {
      assert (a + b)[0] == a[0];
      assert (a + b)[1..] == a[1..] + b;
      AllModelsConcat(a[1..], b);
    }
  }

  /** Key order: the k-th category's models sit, as a block, right after
    * the models of the categories before it. */
  lemma AllModelsBlocks(models: seq<(string, seq<CatalogModel>)>, k: nat)
    requires k < |models|
    ensures |AllModels(models[..k])| <= |AllModels(models[..k + 1])| <= |AllModels(models)|
    ensures AllModels(models)[|AllModels(models[..k])|..|AllModels(models[..k + 1])|] == models[k].1
  {
    assert models[..k + 1] == models[..k] + [models[k]];
    AllModelsConcat(models[..k], [models[k]]);
    assert models == models[..k + 1] + models[k + 1..];
    AllModelsConcat(models[..k + 1], models[k + 1..]);
  }

  /** A model is listed exactly when some category lists it. */
  lemma {:induction false} AllModelsMembership(models: seq<(string, seq<CatalogModel>)>, m: CatalogModel)
    ensures m in AllModels(models) <==> exists k :: 0 <= k < |models| && m in models[k].1
  {
    if models != [] {
      AllModelsMembership(models[1..], m);
      if m in AllModels(models[1..]) {
        var k :| 0 <= k < |models[1..]| && m in models[1..][k].1;
        assert m in models[k + 1].1;
      }
      if exists k :: 0 <= k < |models| && m in models[k].1 {
        var k :| 0 <= k < |models| && m in models[k].1;
        if k > 0 {
          assert m in models[1..][k - 1].1;
        }
      }
    }
  }

  /** The flattened list is as long as all category lists together. */
  function TotalCount(models: seq<(string, seq<CatalogModel>)>): nat
  {
    if models == [] then 0 else |models[0].1| + TotalCount(models[1..])
  }

  lemma {:induction false} AllModelsLength(models: seq<(string, seq<CatalogModel>)>)
    ensures |AllModels(models)| == TotalCount(models)
  {
    if models != [] {
      AllModelsLength(models[1..]);
    }
  }

  /** The filter callback for the lower-cased term and the active tab. */
  function Matches(lowerTerm: string, activeCategory: string): CatalogModel -> bool
  {
    (m: CatalogModel) => Includes(Lower(m.name), lowerTerm)
      && (activeCategory == "All" || m.categoryKey == Str(activeCategory))
  }

  /** `filteredModels`: exactly the listed models whose name contains the
    * term ignoring case and which are in the active category (any, for
    * 'All'), in order. */
  function FilteredModels(catalog: Catalog, searchTerm: string, activeCategory: string): (r: seq<CatalogModel>)
    ensures IsSubsequence(r, AllModels(catalog.models))
    ensures forall m :: m in r <==>
      (exists k :: 0 <= k < |catalog.models| && m in catalog.models[k].1) && Matches(Lower(searchTerm), activeCategory)(m)
  {
    var all := AllModels(catalog.models);
    FilterIsSubsequence(Matches(Lower(searchTerm), activeCategory), all);
    forall m ensures m in Filter(Matches(Lower(searchTerm), activeCategory), all) <==>
      (exists k :: 0 <= k < |catalog.models| && m in catalog.models[k].1) && Matches(Lower(searchTerm), activeCategory)(m) {
      FilterMembership(Matches(Lower(searchTerm), activeCategory), all, m);
      AllModelsMembership(catalog.models, m);
    }
    Filter(Matches(Lower(searchTerm), activeCategory), all)
  }

  /** An empty search on the 'All' tab shows every model. */
  lemma EmptySearchShowsAll(catalog: Catalog)
    ensures FilteredModels(catalog, "", "All") == AllModels(catalog.models)
  {
    var all := AllModels(catalog.models);
    forall i | 0 <= i < |all| ensures Matches(Lower(""), "All")(all[i]) {
      IncludesEmpty(Lower(all[i].name));
    }
    FilterAllPass(Matches(Lower(""), "All"), all);
  }

  /** Each type's category names, concatenated in key order. */
  function AllCategories(categories: seq<(string, seq<string>)>): (r: seq<string>)
    ensures |categories| > 0 ==> categories[0].1 <= r
    ensures |categories| == 1 ==> r == categories[0].1
  {
    if categories == [] then [] else categories[0].1 + AllCategories(categories[1..])
  }

  /** Flattening distributes over splitting the types. */
  lemma {:induction false} AllCategoriesConcat(a: seq<(string, seq<string>)>, b: seq<(string, seq<string>)>)
    ensures AllCategories(a + b) == AllCategories(a) + AllCategories(b)
  {
    if a == [] {
      assert a + b == b;
    } else {
      assert (a + b)[0] == a[0];
      assert (a + b)[1..] == a[1..] + b;
      AllCategoriesConcat(a[1..], b);
    }
  }

  /** Key order: the k-th type's categories sit, as a block, right after
    * the categories of the types before it. */
  lemma AllCategoriesBlocks(categories: seq<(string, seq<string>)>, k: nat)
    requires k < |categories|
    ensures |AllCategories(categories[..k])| <= |AllCategories(categories[..k + 1])| <= |AllCategories(categories)|
    ensures AllCategories(categories)[|AllCategories(categories[..k])|..|AllCategories(categories[..k + 1])|] == categories[k].1
  {
    assert categories[..k + 1] == categories[..k] + [categories[k]];
    AllCategoriesConcat(categories[..k], [categories[k]]);
    assert categories == categories[..k + 1] + categories[k + 1..];
    AllCategoriesConcat(categories[..k + 1], categories[k + 1..]);
  }

  /** Where the k-th type's block starts among the flattened categories. */
  function BlockStart(categories: seq<(string, seq<string>)>, k: nat): nat
    requires k <= |categories|
  {
    |AllCategories(categories[..k])|
  }

  /** The k-th type's block, one position further in the tab list, and the
    * next block starting right after it. */
  lemma TabBlock(categories: seq<(string, seq<string>)>, k: nat)
    requires k < |categories|
    ensures BlockStart(categories, k + 1) == BlockStart(categories, k) + |categories[k].1|
    ensures BlockStart(categories, k) + |categories[k].1| <= |AllCategories(categories)|
    ensures (["All"] + AllCategories(categories))[1 + BlockStart(categories, k)..1 + BlockStart(categories, k) + |categories[k].1|]
      == categories[k].1
  {
    AllCategoriesBlocks(categories, k);
    var tail := AllCategories(categories);
    var i, j := BlockStart(categories, k), BlockStart(categories, k + 1);
    assert (["All"] + tail)[1 + i..1 + j] == tail[i..j];
  }

  /** The category tabs: 'All', then every type's categories as one block
    * per type, in key order. */
  function CategoryTabs(catalog: Catalog): (r: seq<string>)
    ensures |r| >= 1 && r[0] == "All"
    ensures r[1..] == AllCategories(catalog.categories)
    ensures forall k :: 0 <= k < |catalog.categories| ==>
      BlockStart(catalog.categories, k) + |catalog.categories[k].1| <= |r| - 1 &&
      r[1 + BlockStart(catalog.categories, k)..1 + BlockStart(catalog.categories, k) + |catalog.categories[k].1|]
        == catalog.categories[k].1
  {
    var cats := catalog.categories;
    var tabs := ["All"] + AllCategories(cats);
    forall k | 0 <= k < |cats|
      ensures BlockStart(cats, k) + |cats[k].1| <= |tabs| - 1
      ensures tabs[1 + BlockStart(cats, k)..1 + BlockStart(cats, k) + |cats[k].1|] == cats[k].1
    {
      TabBlock(cats, k);
    }
    tabs
  }
}
