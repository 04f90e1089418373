/** The menu page: the search filter over the available products and the
    per-category lists shown under each tab. */
module Menu {
  import opened Wrappers
  import opened Seqs
  import opened Text

  /** A product as loaded from the catalogue; `description` may be null. */
  datatype Product = Product(
    id: string,
    name: string,
    description: Option<string>,
    price: int,
    image_url: Option<string>,
    is_featured: bool,
    category_id: string)

  /** The search predicate: the lower-cased query occurs in the lower-cased name,
      or in the lower-cased description when there is one. */
  predicate Matches(p: Product, query: string): (b: bool)
    ensures query == "" ==> b
    ensures b ==> |query| <= |p.name| || (p.description.Some? && |query| <= |p.description.value|)
  {
    Includes(ToLower(p.name), ToLower(query)) ||
    (p.description.Some? && Includes(ToLower(p.description.value), ToLower(query)))
  }

  /** `filteredProducts`. */
  function FilteredProducts(products: seq<Product>, query: string): (shown: seq<Product>)
    ensures |shown| <= |products|
    ensures forall k :: 0 <= k < |shown| ==> Matches(shown[k], query)
  {
    Filter(products, (p: Product) => Matches(p, query))
  }

  /** `getProductsByCategory(categoryId)`: the filtered products of one category. */
  function ProductsByCategory(products: seq<Product>, query: string, categoryId: string): (shown: seq<Product>)
    ensures |shown| <= |FilteredProducts(products, query)| <= |products|
    ensures forall k :: 0 <= k < |shown| ==> shown[k].category_id == categoryId
  {
    Filter(FilteredProducts(products, query), (p: Product) => p.category_id == categoryId)
  }

  /** The filtered list is the order-preserving subsequence of the products that
      match: every matching product is kept as often as it occurs, no other is. */
  lemma FilteredProductsSpec(products: seq<Product>, query: string, x: Product)
    ensures IsSubsequence(FilteredProducts(products, query), products)
    ensures forall k :: 0 <= k < |FilteredProducts(products, query)| ==> Matches(FilteredProducts(products, query)[k], query)
    ensures multiset(FilteredProducts(products, query))[x] == if Matches(x, query) then multiset(products)[x] else 0
  {
    FilterIsSubsequence(products, (p: Product) => Matches(p, query));
    FilterMultiplicity(products, (p: Product) => Matches(p, query), x);
  }

  /** An empty search shows every product. */
  lemma EmptyQueryMatchesAll(products: seq<Product>)
    ensures FilteredProducts(products, "") == products
  {
    forall k | 0 <= k < |products| ensures Matches(products[k], "") {
      IncludesEmpty(ToLower(products[k].name));
    }
    FilterAll(products, (p: Product) => Matches(p, ""));
  }

  /** A product matches exactly when the lower-cased query occurs at some position
      of its lower-cased name or of its non-null lower-cased description; with a
      null description only the name can match. */
  lemma MatchesIffSubstring(p: Product, query: string)
    ensures Matches(p, query) <==>
      IsSubstring(ToLower(query), ToLower(p.name)) ||
      (p.description.Some? && IsSubstring(ToLower(query), ToLower(p.description.value)))
    ensures p.description.None? ==> (Matches(p, query) <==> IsSubstring(ToLower(query), ToLower(p.name)))
  {
    IncludesIffSubstring(ToLower(p.name), ToLower(query));
    if p.description.Some? {
      IncludesIffSubstring(ToLower(p.description.value), ToLower(query));
    }
  }

  /** Matching ignores ASCII case in the query: queries with the same lower-cased
      form match the same products, and a query matches like its lower-cased form. */
  lemma QueryCaseInsensitive(p: Product, q1: string, q2: string)
    ensures ToLower(q1) == ToLower(q2) ==> (Matches(p, q1) <==> Matches(p, q2))
    ensures Matches(p, ToLower(q1)) <==> Matches(p, q1)
  {
    ToLowerIdempotent(q1);
  }

  /** Matching ignores ASCII case in the product's name and description. */
  lemma ProductCaseInsensitive(p: Product, query: string)
    ensures Matches(p.(name := ToLower(p.name)), query) <==> Matches(p, query)
    ensures p.description.Some? ==>
      (Matches(p.(description := Some(ToLower(p.description.value))), query) <==> Matches(p, query))
  {
    ToLowerIdempotent(p.name);
    if p.description.Some? {
      ToLowerIdempotent(p.description.value);
    }
  }

  /** A category list is an order-preserving subsequence of the filtered list, and
      it holds exactly the filtered products of that category. */
  lemma CategoryListSpec(products: seq<Product>, query: string, c: string, x: Product)
    ensures IsSubsequence(ProductsByCategory(products, query, c), FilteredProducts(products, query))
    ensures forall k :: 0 <= k < |ProductsByCategory(products, query, c)| ==>
      ProductsByCategory(products, query, c)[k].category_id == c
    ensures x in ProductsByCategory(products, query, c) <==>
      x in products && Matches(x, query) && x.category_id == c
  {
    var f := FilteredProducts(products, query);
    FilterIsSubsequence(f, (p: Product) => p.category_id == c);
    FilterMembership(f, (p: Product) => p.category_id == c, x);
    FilterMembership(products, (p: Product) => Matches(p, query), x);
  }

  /** Lists of two different categories share no product. */
  lemma CategoryListsDisjoint(products: seq<Product>, query: string, c1: string, c2: string, x: Product)
    requires c1 != c2
    ensures !(x in ProductsByCategory(products, query, c1) && x in ProductsByCategory(products, query, c2))
  {
  }

  /** Every filtered product appears in the list of its own category. */
  lemma CategoryListsCover(products: seq<Product>, query: string, x: Product)
    requires x in FilteredProducts(products, query)
    ensures x in ProductsByCategory(products, query, x.category_id)
  {
    FilterMembership(FilteredProducts(products, query), (p: Product) => p.category_id == x.category_id, x);
  }
}
