/**
 * lib/hooks.ts: the query keys the client caches under and, for each mutation,
 * the queries its `onSuccess` marks stale. The cache is a map from query key to
 * its staleness flag; marking stale is all `invalidateQueries` is modelled as.
 */
module Hooks {
  import opened Wrappers

  /** A query key: TanStack Query keys here are arrays of strings. */
  type QueryKey = seq<string>

  /** `QUERY_KEYS`: two list keys and two detail keys. */
  const CategoriesKey: QueryKey := ["categories"]
  const ProductsKey: QueryKey := ["products"]

  function CategoryKey(name: string): QueryKey {
    ["categories", name]
  }

  function ProductKey(id: string): QueryKey {
    ["products", id]
  }

  /** The filters `invalidateQueries` is given: an exact key, or the "length-2 key headed products" predicate. */
  datatype Filter = Exact(key: QueryKey) | ProductDetails

  predicate Matches(f: Filter, k: QueryKey) {
    match f
    case Exact(key) => k == key
    case ProductDetails => |k| == 2 && k[0] == ProductsKey[0]
  }

  /** The list keys and the detail keys are told apart by length, so an exact list match never reaches a detail. */
  lemma KeyShapes(name: string, id: string)
    ensures |CategoriesKey| == |ProductsKey| == 1 && |CategoryKey(name)| == |ProductKey(id)| == 2
    ensures CategoryKey(name)[0] == CategoriesKey[0] && ProductKey(id)[0] == ProductsKey[0]
    ensures !Matches(Exact(CategoriesKey), CategoryKey(name)) && !Matches(Exact(ProductsKey), ProductKey(id))
    ensures Matches(ProductDetails, ProductKey(id)) && !Matches(ProductDetails, CategoryKey(name))
    ensures !Matches(ProductDetails, ProductsKey)
  {
  }

  /** The mutations, with the variables their `onSuccess` reads. */
  datatype Mutation =
    | CreateCategory(name: string)
    | UpdateCategory(name: string, newName: Option<string>)
    | DeleteCategory(name: string)
    | CreateProduct
    | UpdateProduct(id: string)
    | DeleteProduct(id: string)
    | BulkDeleteProducts(ids: seq<string>)
    | BulkUpdateProductsCategory(ids: seq<string>, categoryName: string)

  /** `variables?.newName` is truthy: present and not the empty string. */
  predicate Truthy(s: Option<string>) {
    s.Some? && s.value != ""
  }

  /** `ids.map(id => exact ['products', id])`. */
  function ProductFilters(ids: seq<string>): (r: seq<Filter>)
    ensures |r| == |ids|
    ensures forall i | 0 <= i < |ids| :: r[i] == Exact(ProductKey(ids[i]))
  {
    if ids == [] then [] else [Exact(ProductKey(ids[0]))] + ProductFilters(ids[1..])
  }

  /** The invalidations each `onSuccess` starts, in the order the source lists them. */
  function Invalidations(m: Mutation): seq<Filter> {
    match m
    case CreateCategory(_) => [Exact(CategoriesKey)]
    case UpdateCategory(name, newName) =>
      [Exact(CategoriesKey), Exact(ProductsKey), Exact(CategoryKey(name))]
      + (if Truthy(newName) then [Exact(CategoryKey(newName.value))] else [])
      + [ProductDetails]
    case DeleteCategory(name) =>
      [Exact(CategoriesKey), Exact(ProductsKey), Exact(CategoryKey(name)), ProductDetails]
    case CreateProduct => [Exact(ProductsKey)]
    case UpdateProduct(id) => [Exact(ProductsKey), Exact(ProductKey(id))]
    case DeleteProduct(id) => [Exact(ProductsKey), Exact(ProductKey(id))]
    case BulkDeleteProducts(ids) => [Exact(ProductsKey)] + ProductFilters(ids)
    case BulkUpdateProductsCategory(ids, _) => [Exact(ProductsKey)] + ProductFilters(ids)
  }

  /** Some filter in the list matches the key. */
  predicate MatchesAny(fs: seq<Filter>, k: QueryKey) {
    exists j | 0 <= j < |fs| :: Matches(fs[j], k)
  }

  /** The mutation's `onSuccess` marks a cached query with this key stale. */
  predicate Invalidates(m: Mutation, k: QueryKey) {
    MatchesAny(Invalidations(m), k)
  }

  lemma MatchesAnyAppend(fs: seq<Filter>, gs: seq<Filter>, k: QueryKey)
    ensures MatchesAny(fs + gs, k) <==> MatchesAny(fs, k) || MatchesAny(gs, k)
  {
    if MatchesAny(fs + gs, k) {
      var j :| 0 <= j < |fs + gs| && Matches((fs + gs)[j], k);
      if j >= |fs| {
        assert gs[j - |fs|] == (fs + gs)[j];
      }
    }
    if MatchesAny(fs, k) {
      var j :| 0 <= j < |fs| && Matches(fs[j], k);
      assert (fs + gs)[j] == fs[j];
    }
    if MatchesAny(gs, k) {
      var j :| 0 <= j < |gs| && Matches(gs[j], k);
      assert (fs + gs)[|fs| + j] == gs[j];
    }
  }

  /** The per-id filters reach exactly the detail keys of the given ids. */
  lemma ProductFiltersMatch(ids: seq<string>, k: QueryKey)
    ensures MatchesAny(ProductFilters(ids), k) <==> |k| == 2 && k[0] == "products" && k[1] in ids
  {
    var fs := ProductFilters(ids);
    if |k| == 2 && k[0] == "products" && k[1] in ids {
      var i :| 0 <= i < |ids| && ids[i] == k[1];
      assert k == ProductKey(ids[i]);
      assert Matches(fs[i], k);
    }
  }

  /** Create-category refreshes the category list and nothing else. */
  lemma CreateCategoryInvalidates(name: string, k: QueryKey)
    ensures Invalidates(CreateCategory(name), k) <==> k == CategoriesKey
  {
    assert Matches(Invalidations(CreateCategory(name))[0], CategoriesKey);
  }

  /**
   * Update-category refreshes both lists, the old name's detail, the new name's
   * detail when a non-empty new name was given, and every product detail; no
   * other category detail.
   */
  lemma UpdateCategoryInvalidates(name: string, newName: Option<string>, k: QueryKey)
    ensures Invalidates(UpdateCategory(name, newName), k) <==>
      || k == CategoriesKey || k == ProductsKey || k == CategoryKey(name)
      || (Truthy(newName) && k == CategoryKey(newName.value))
      || (|k| == 2 && k[0] == "products")
  {
    var front := [Exact(CategoriesKey), Exact(ProductsKey), Exact(CategoryKey(name))];
    var extra := if Truthy(newName) then [Exact(CategoryKey(newName.value))] else [];
    MatchesAnyAppend(front + extra, [ProductDetails], k);
    MatchesAnyAppend(front, extra, k);
    assert Matches(front[0], CategoriesKey) && Matches(front[1], ProductsKey) && Matches(front[2], CategoryKey(name));
    if Truthy(newName) {
      assert Matches(extra[0], CategoryKey(newName.value));
    }
    if |k| == 2 && k[0] == "products" {
      assert Matches([ProductDetails][0], k);
    }
  }

  /** In particular the only category details an update touches are the old and the new name. */
  lemma UpdateCategorySparesOtherCategories(name: string, newName: Option<string>, other: string)
    requires other != name && (newName.Some? ==> other != newName.value)
    ensures !Invalidates(UpdateCategory(name, newName), CategoryKey(other))
  {
    UpdateCategoryInvalidates(name, newName, CategoryKey(other));
  }

  /** Delete-category refreshes both lists, the deleted name's detail and every product detail. */
  lemma DeleteCategoryInvalidates(name: string, k: QueryKey)
    ensures Invalidates(DeleteCategory(name), k) <==>
      k == CategoriesKey || k == ProductsKey || k == CategoryKey(name) || (|k| == 2 && k[0] == "products")
  {
    var fs := Invalidations(DeleteCategory(name));
    assert Matches(fs[0], CategoriesKey) && Matches(fs[1], ProductsKey) && Matches(fs[2], CategoryKey(name));
    if |k| == 2 && k[0] == "products" {
      assert Matches(fs[3], k);
    }
  }

  /** Create-product refreshes the product list only. */
  lemma CreateProductInvalidates(k: QueryKey)
    ensures Invalidates(CreateProduct, k) <==> k == ProductsKey
  {
    assert Matches(Invalidations(CreateProduct)[0], ProductsKey);
  }

  /** Update-product and delete-product refresh the product list and that product's detail, no other. */
  lemma SingleProductInvalidates(id: string, k: QueryKey)
    ensures Invalidates(UpdateProduct(id), k) <==> k == ProductsKey || k == ProductKey(id)
    ensures Invalidates(DeleteProduct(id), k) <==> k == ProductsKey || k == ProductKey(id)
  {
    var fs := Invalidations(UpdateProduct(id));
    assert fs == Invalidations(DeleteProduct(id));
    assert Matches(fs[0], ProductsKey) && Matches(fs[1], ProductKey(id));
  }

  /** The bulk mutations refresh the product list and the detail of each given id, and no category key. */
  lemma BulkInvalidates(m: Mutation, k: QueryKey)
    requires m.BulkDeleteProducts? || m.BulkUpdateProductsCategory?
    ensures Invalidates(m, k) <==> k == ProductsKey || (|k| == 2 && k[0] == "products" && k[1] in m.ids)
    ensures |k| >= 1 && k[0] == "categories" ==> !Invalidates(m, k)
  {
    assert Invalidations(m) == [Exact(ProductsKey)] + ProductFilters(m.ids);
    MatchesAnyAppend([Exact(ProductsKey)], ProductFilters(m.ids), k);
    ProductFiltersMatch(m.ids, k);
    assert Matches([Exact(ProductsKey)][0], ProductsKey);
  }

  /** The cache after `onSuccess`: the invalidated keys are stale, every other key keeps its flag. */
  function Invalidated(cache: map<QueryKey, bool>, m: Mutation): map<QueryKey, bool> {
    map k | k in cache :: cache[k] || Invalidates(m, k)
  }

  /** Invalidation marks exactly the computed keys and changes nothing else. */
  lemma InvalidatedExactly(cache: map<QueryKey, bool>, m: Mutation, k: QueryKey)
    requires k in cache
    ensures Invalidated(cache, m).Keys == cache.Keys
    ensures Invalidates(m, k) ==> Invalidated(cache, m)[k]
    ensures !Invalidates(m, k) ==> Invalidated(cache, m)[k] == cache[k]
  {
  }

  /** The query client: which cached queries are stale. */
  class QueryCache {
    var stale: map<QueryKey, bool>

    constructor (initial: map<QueryKey, bool>)
      ensures stale == initial
    {
      stale := initial;
    }

    /** `invalidateQueries(filter)`: marks every cached query the filter matches as stale. */
    method InvalidateQueries(f: Filter)
      modifies this
      ensures stale.Keys == old(stale).Keys
      ensures forall k | k in stale :: stale[k] == (old(stale)[k] || Matches(f, k))
    {
      stale := map k | k in stale :: stale[k] || Matches(f, k);
    }

    /** A mutation's `onSuccess`: every invalidation it lists, one after the other. */
    method OnSuccess(m: Mutation)
      modifies this
      ensures stale == Invalidated(old(stale), m)
    {
      var fs := Invalidations(m);
      var i := 0;
      while i < |fs|
        invariant 0 <= i <= |fs|
        invariant stale.Keys == old(stale).Keys
        invariant forall k | k in stale :: stale[k] == (old(stale)[k] || MatchesAny(fs[..i], k))
      {
        forall k ensures MatchesAny(fs[..i + 1], k) <==> MatchesAny(fs[..i], k) || Matches(fs[i], k) {
          assert fs[..i + 1] == fs[..i] + [fs[i]];
          MatchesAnyAppend(fs[..i], [fs[i]], k);
          assert [fs[i]][0] == fs[i];
        }
        InvalidateQueries(fs[i]);
        i := i + 1;
      }
      assert fs[..i] == fs;
    }
  }
}
