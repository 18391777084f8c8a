/** The shop page: the catalog narrowed by category and search, sorted by the
    chosen option, and cut into pages of eight, with the current page reset to
    the first whenever the search, the category or the sort changes. The
    catalog's own category and search functions are not part of this model: their
    results are inputs. */
module Catalog {
  import opened Common
  import opened Text
  import Sorting

  const ProductsPerPage := 8

  datatype SortOption = Default | PriceLow | PriceHigh | ByRating

  /** `result.filter(p => searchResults.some(sr => sr.id === p.id))`. */
  function MatchingSearch(products: seq<Product>, searchResults: seq<Product>): (r: seq<Product>)
    ensures forall p :: p in r <==> p in products && exists s :: s in searchResults && s.id == p.id
  {
    if products == [] then []
    else if exists s :: s in searchResults && s.id == products[0].id then
      [products[0]] + MatchingSearch(products[1..], searchResults)
    else MatchingSearch(products[1..], searchResults)
  }

  function PriceKey(p: Product): int { p.price }
  function NegPriceKey(p: Product): int { -p.price }
  function NegRatingKey(p: Product): int { -p.rating }

  /** The sort switch, on a copy of the list. */
  function SortProducts(products: seq<Product>, sortBy: SortOption): (r: seq<Product>)
    ensures |r| == |products|
  {
    match sortBy
    case Default => products
    case PriceLow => Sorting.SortBy(products, PriceKey)
    case PriceHigh => Sorting.SortBy(products, NegPriceKey)
    case ByRating => Sorting.SortBy(products, NegRatingKey)
  }

  /** The filtered and sorted list. `inCategory` is what the catalog returns for a
      category other than `All`, and `searchResults` what it returns for the query. */
  function Filtered(all: seq<Product>, category: string, inCategory: seq<Product>,
                    query: string, searchResults: seq<Product>, sortBy: SortOption): (r: seq<Product>)
    ensures Trim(query) == "" ==> |r| == |if category == "All" then all else inCategory|
  {
    var base := if category == "All" then all else inCategory;
    var searched := if Trim(query) != "" then MatchingSearch(base, searchResults) else base;
    SortProducts(searched, sortBy)
  }

  /** `Math.ceil(count / 8)`. */
  function TotalPages(count: nat): (t: nat)
    ensures (t - 1) * ProductsPerPage < count <= t * ProductsPerPage || (count == 0 && t == 0)
  {
    (count + ProductsPerPage - 1) / ProductsPerPage
  }

  /** `slice((page - 1) * 8, (page - 1) * 8 + 8)`. */
  function PageItems(products: seq<Product>, page: int): (r: seq<Product>)
    ensures |r| <= ProductsPerPage
  {
    var start := (page - 1) * ProductsPerPage;
    Slice(products, start, start + ProductsPerPage)
  }

  // ---- lemmas ------------------------------------------------------------------------

  lemma {:induction false} MatchingSearchAppend(a: seq<Product>, b: seq<Product>, searchResults: seq<Product>)
    ensures MatchingSearch(a + b, searchResults) == MatchingSearch(a, searchResults) + MatchingSearch(b, searchResults)
  {
    if a == [] {
      assert a + b == b;
    } else {
      assert (a + b)[1..] == a[1..] + b;
      assert (a + b)[0] == a[0];
      MatchingSearchAppend(a[1..], b, searchResults);
    }
  }

  /** Each sort option orders as it says and only rearranges its input; the default
      keeps the order. */
  lemma {:induction false} SortProductsSpec(products: seq<Product>, sortBy: SortOption)
    ensures multiset(SortProducts(products, sortBy)) == multiset(products)
    ensures sortBy == Default ==> SortProducts(products, sortBy) == products
    ensures var r := SortProducts(products, sortBy);
            forall i, j :: 0 <= i < j < |r| ==>
              && (sortBy == PriceLow ==> r[i].price <= r[j].price)
              && (sortBy == PriceHigh ==> r[i].price >= r[j].price)
              && (sortBy == ByRating ==> r[i].rating >= r[j].rating)
  {
    var r := SortProducts(products, sortBy);
    match sortBy
    case Default =>
    case PriceLow =>
      Sorting.SortSorted(products, PriceKey);
      forall i, j | 0 <= i < j < |r| ensures r[i].price <= r[j].price {
        assert PriceKey(r[i]) <= PriceKey(r[j]);
      }
    case PriceHigh =>
      Sorting.SortSorted(products, NegPriceKey);
      forall i, j | 0 <= i < j < |r| ensures r[i].price >= r[j].price {
        assert NegPriceKey(r[i]) <= NegPriceKey(r[j]);
      }
    case ByRating =>
      Sorting.SortSorted(products, NegRatingKey);
      forall i, j | 0 <= i < j < |r| ensures r[i].rating >= r[j].rating {
        assert NegRatingKey(r[i]) <= NegRatingKey(r[j]);
      }
  }

  /** A blank query keeps the whole category; any other keeps exactly the products
      whose id is among the search results. */
  lemma FilteredSpec(all: seq<Product>, category: string, inCategory: seq<Product>,
                     query: string, searchResults: seq<Product>, sortBy: SortOption)
    ensures var base := if category == "All" then all else inCategory;
            var r := Filtered(all, category, inCategory, query, searchResults, sortBy);
            && (Trim(query) == "" ==> multiset(r) == multiset(base))
            && (Trim(query) != "" ==>
                  forall p :: p in r <==> p in base && exists s :: s in searchResults && s.id == p.id)
  {
    var base := if category == "All" then all else inCategory;
    var searched := if Trim(query) != "" then MatchingSearch(base, searchResults) else base;
    SortProductsSpec(searched, sortBy);
    var r := Filtered(all, category, inCategory, query, searchResults, sortBy);
    forall p ensures p in r <==> p in searched {
      assert p in r <==> p in multiset(r);
      assert p in searched <==> p in multiset(searched);
    }
  }

  /** Page `p` (from 1) shows the items at indices `[(p - 1) * 8, p * 8)` that exist:
      at most eight, and at least one while `p` is within the page count. */
  lemma PageItemsSpec(products: seq<Product>, page: int)
    requires page >= 1
    ensures var start := (page - 1) * ProductsPerPage;
            var r := PageItems(products, page);
            && |r| <= ProductsPerPage
            && (start < |products| ==> r == products[start..Min(|products|, start + ProductsPerPage)])
            && (start >= |products| ==> r == [])
            && (page <= TotalPages(|products|) <==> r != [])
  {
  }

  // ---- the page state ------------------------------------------------------------

  class ShopPage {
    var searchQuery: string
    var category: string
    var sortBy: SortOption
    var currentPage: int
    /** Kept by the page but read by nothing. */
    var priceRange: (int, int)

    constructor ()
      ensures searchQuery == "" && category == "All" && sortBy == Default
      ensures currentPage == 1 && priceRange == (0, 1000)
    {
      searchQuery := "";
      category := "All";
      sortBy := Default;
      currentPage := 1;
      priceRange := (0, 1000);
    }

    function Products(all: seq<Product>, inCategory: seq<Product>, searchResults: seq<Product>): seq<Product>
      reads this
    {
      Filtered(all, category, inCategory, searchQuery, searchResults, sortBy)
    }

    /** The effect on `[searchQuery, selectedCategory, sortBy]` runs only when one of
        them takes a different value. */
    method SetSearchQuery(q: string)
      modifies this
      ensures searchQuery == q && category == old(category) && sortBy == old(sortBy)
      ensures priceRange == old(priceRange)
      ensures currentPage == if q != old(searchQuery) then 1 else old(currentPage)
    {
      if q != searchQuery {
        currentPage := 1;
      }
      searchQuery := q;
    }

    method SetCategory(c: string)
      modifies this
      ensures category == c && searchQuery == old(searchQuery) && sortBy == old(sortBy)
      ensures priceRange == old(priceRange)
      ensures currentPage == if c != old(category) then 1 else old(currentPage)
    {
      if c != category {
        currentPage := 1;
      }
      category := c;
    }

    method SetSortBy(s: SortOption)
      modifies this
      ensures sortBy == s && searchQuery == old(searchQuery) && category == old(category)
      ensures priceRange == old(priceRange)
      ensures currentPage == if s != old(sortBy) then 1 else old(currentPage)
    {
      if s != sortBy {
        currentPage := 1;
      }
      sortBy := s;
    }

    /** Changing the price range changes neither the page nor the list shown. */
    method SetPriceRange(r: (int, int))
      modifies this
      ensures priceRange == r && currentPage == old(currentPage)
      ensures searchQuery == old(searchQuery) && category == old(category) && sortBy == old(sortBy)
    {
      priceRange := r;
    }

    method SetCurrentPage(p: int)
      modifies this
      ensures currentPage == p && priceRange == old(priceRange)
      ensures searchQuery == old(searchQuery) && category == old(category) && sortBy == old(sortBy)
    {
      currentPage := p;
    }
  }
}
