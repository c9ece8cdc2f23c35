/** The marketplace on the client: the filters and query string of
    client/src/hooks/useMarketplace.ts, the display defaults it fills into
    each product, and the search, sort and pages of
    client/src/components/farm-hub/marketplace/ProductList.tsx.
    Number formatting (`toString`) and `Number` parsing are parameters
    (`show`, `number`); the random distance drawn for a product without one
    is the parameter `draw`, indexed by the product's position. */
module MarketplaceClient {
  import opened Common
  import opened Schema
  import opened Sorting
  import opened Paging
  import opened Marketplace

  datatype ProductFilters = ProductFilters(
    category: string, minPrice: Option<real>, maxPrice: Option<real>, location: string,
    searchTerm: Option<string>, sortBy: string)

  const LatestFirst := "Sort by: Latest"

  /** The filters the hook starts with. */
  const DefaultFilters := ProductFilters(AllCategories, None, None, AllLocations, None, LatestFirst)

  /** A number is truthy when it is present and not zero. */
  predicate Truthy(x: Option<real>)
  {
    x.Some? && x.value != 0.0
  }

  predicate SendsCategory(f: ProductFilters)
  {
    f.category != "" && f.category != AllCategories
  }

  predicate SendsLocation(f: ProductFilters)
  {
    f.location != "" && f.location != AllLocations
  }

  /** `[(key, value)]` when the filter is set, nothing otherwise. */
  function Param(present: bool, key: string, value: string): seq<(string, string)>
  {
    if present then [(key, value)] else []
  }

  function ShownBound(x: Option<real>, show: real -> string): string
  {
    if x.Some? then show(x.value) else ""
  }

  /** The parameters `getQueryString` appends, in order. */
  function QueryParams(f: ProductFilters, show: real -> string): seq<(string, string)>
  {
    Param(SendsCategory(f), "category", f.category)
    + (Param(Truthy(f.minPrice), "minPrice", ShownBound(f.minPrice, show))
    + (Param(Truthy(f.maxPrice), "maxPrice", ShownBound(f.maxPrice, show))
    + Param(SendsLocation(f), "location", f.location)))
  }

  /** `getQueryString`: one `append` per filter that is set. */
  method GetQueryString(f: ProductFilters, show: real -> string) returns (params: seq<(string, string)>)
    ensures params == QueryParams(f, show)
  {
    var category := Param(SendsCategory(f), "category", f.category);
    var minPrice := Param(Truthy(f.minPrice), "minPrice", ShownBound(f.minPrice, show));
    var maxPrice := Param(Truthy(f.maxPrice), "maxPrice", ShownBound(f.maxPrice, show));
    var location := Param(SendsLocation(f), "location", f.location);
    params := [];
    if f.category != "" && f.category != AllCategories {
      params := params + [("category", f.category)];
    }
    assert params == category;
    if f.minPrice.Some? && f.minPrice.value != 0.0 {
      params := params + [("minPrice", show(f.minPrice.value))];
    }
    assert params == category + minPrice;
    if f.maxPrice.Some? && f.maxPrice.value != 0.0 {
      params := params + [("maxPrice", show(f.maxPrice.value))];
    }
    assert params == (category + minPrice) + maxPrice;
    if f.location != "" && f.location != AllLocations {
      params := params + [("location", f.location)];
    }
    assert params == ((category + minPrice) + maxPrice) + location;
    assert params == category + (minPrice + (maxPrice + location));
  }

  function Keys(params: seq<(string, string)>): seq<string>
  {
    if params == [] then [] else [params[0].0] + Keys(params[1..])
  }

  const FilterKeys := ["category", "minPrice", "maxPrice", "location"]

  /** `URLSearchParams.get`: the value of the first parameter with that key. */
  function Lookup(params: seq<(string, string)>, key: string): (v: Option<string>)
    ensures v.None? <==> forall i :: 0 <= i < |params| ==> params[i].0 != key
  {
    if params == [] then None
    else if params[0].0 == key then Some(params[0].1)
    else
      var v := Lookup(params[1..], key);
      assert forall i :: 1 <= i < |params| ==> params[i] == params[1..][i - 1];
      v
  }

  /** Only the four filter keys are ever sent, each at most once and always
      in the order category, minPrice, maxPrice, location (so `sortBy` and
      `searchTerm` never reach the server). Category and location are sent
      exactly when set to something other than their "All …" choice, a price
      bound exactly when it is truthy: a bound of 0 is never sent. */
  lemma QueryParamsSpec(f: ProductFilters, show: real -> string)
    ensures var params := QueryParams(f, show);
      && IsSubsequence(Keys(params), FilterKeys)
      && Lookup(params, "category") == (if SendsCategory(f) then Some(f.category) else None)
      && Lookup(params, "minPrice") == (if Truthy(f.minPrice) then Some(show(f.minPrice.value)) else None)
      && Lookup(params, "maxPrice") == (if Truthy(f.maxPrice) then Some(show(f.maxPrice.value)) else None)
      && Lookup(params, "location") == (if SendsLocation(f) then Some(f.location) else None)
  {
    var l := Param(SendsLocation(f), "location", f.location);
    var hi := Param(Truthy(f.maxPrice), "maxPrice", ShownBound(f.maxPrice, show)) + l;
    var lo := Param(Truthy(f.minPrice), "minPrice", ShownBound(f.minPrice, show)) + hi;
    var params := Param(SendsCategory(f), "category", f.category) + lo;
    ParamKeys(SendsLocation(f), "location", f.location, [], []);
    assert l + [] == l;
    ParamKeys(Truthy(f.maxPrice), "maxPrice", ShownBound(f.maxPrice, show), l, ["location"]);
    ParamKeys(Truthy(f.minPrice), "minPrice", ShownBound(f.minPrice, show), hi, ["maxPrice", "location"]);
    ParamKeys(SendsCategory(f), "category", f.category, lo, ["minPrice", "maxPrice", "location"]);
    ParamLookup(f, show, "category");
    ParamLookup(f, show, "minPrice");
    ParamLookup(f, show, "maxPrice");
    ParamLookup(f, show, "location");
  }

  /** The value a key gets: that of the first parameter present with it. */
  lemma ParamLookup(f: ProductFilters, show: real -> string, key: string)
    ensures Lookup(QueryParams(f, show), key) ==
      if SendsCategory(f) && key == "category" then Some(f.category)
      else if Truthy(f.minPrice) && key == "minPrice" then Some(ShownBound(f.minPrice, show))
      else if Truthy(f.maxPrice) && key == "maxPrice" then Some(ShownBound(f.maxPrice, show))
      else if SendsLocation(f) && key == "location" then Some(f.location)
      else None
  {
    var l := Param(SendsLocation(f), "location", f.location);
    var hi := Param(Truthy(f.maxPrice), "maxPrice", ShownBound(f.maxPrice, show)) + l;
    var lo := Param(Truthy(f.minPrice), "minPrice", ShownBound(f.minPrice, show)) + hi;
    LookupParam(SendsCategory(f), "category", f.category, lo, key);
    LookupParam(Truthy(f.minPrice), "minPrice", ShownBound(f.minPrice, show), hi, key);
    LookupParam(Truthy(f.maxPrice), "maxPrice", ShownBound(f.maxPrice, show), l, key);
    LookupParam(SendsLocation(f), "location", f.location, [], key);
    assert l + [] == l;
  }

  /** Looking a key up past a parameter that is absent or has another key. */
  lemma LookupParam(present: bool, k: string, v: string, rest: seq<(string, string)>, key: string)
    ensures Lookup(Param(present, k, v) + rest, key) == if present && k == key then Some(v) else Lookup(rest, key)
  {
    if present {
      assert (Param(present, k, v) + rest)[1..] == rest;
    } else {
      assert Param(present, k, v) + rest == rest;
    }
  }

  /** A parameter in front keeps the keys in order. */
  lemma ParamKeys(present: bool, k: string, v: string, rest: seq<(string, string)>, order: seq<string>)
    requires IsSubsequence(Keys(rest), order)
    ensures IsSubsequence(Keys(Param(present, k, v) + rest), [k] + order)
  {
    var all := Param(present, k, v) + rest;
    if present {
      assert all[1..] == rest;
      assert Keys(all) == [k] + Keys(rest);
      assert ([k] + order)[1..] == order;
    } else {
      assert all == rest;
      if Keys(rest) != [] {
        assert ([k] + order)[1..] == order;
      }
    }
  }

  /** With the default filters the query string is empty. */
  lemma DefaultFiltersSendNothing(show: real -> string)
    ensures QueryParams(DefaultFilters, show) == []
  {
  }

  /** The search parameters the server reads from the query string. */
  function ServerQuery(params: seq<(string, string)>): ProductQuery
  {
    ProductQuery(Lookup(params, "category"), Lookup(params, "minPrice"), Lookup(params, "maxPrice"), Lookup(params, "location"))
  }

  /** The products the filters on the client describe. */
  predicate Wanted(f: ProductFilters, p: Product)
  {
    && p.isAvailable == Some(true)
    && (SendsCategory(f) ==> p.category == f.category)
    && (Truthy(f.minPrice) ==> p.price >= f.minPrice.value)
    && (Truthy(f.maxPrice) ==> p.price <= f.maxPrice.value)
    && (SendsLocation(f) ==> p.location == f.location)
  }

  /** Client and server agree: when `Number` reads back what `toString`
      writes, the server's search for the query string keeps exactly the
      available products the client's filters describe. */
  lemma QueryStringRoundTrip(f: ProductFilters, show: real -> string, number: string -> Option<real>)
    requires forall x :: number(show(x)) == Some(x) && show(x) != ""
    ensures forall p :: Matches(ServerQuery(QueryParams(f, show)), number, p) <==> Wanted(f, p)
  {
    QueryParamsSpec(f, show);
  }

  /** A product as the client lists it: the stored record plus the display
      fields that the server may leave out. */
  datatype ListedProduct = ListedProduct(
    product: Product, distance: Option<real>, sellerName: Option<string>, sellerInitials: Option<string>)

  function WithDefaults(p: ListedProduct, drawn: real): ListedProduct
  {
    p.(distance := if Truthy(p.distance) then p.distance else Some(drawn),
       sellerName := if Filled(p.sellerName) then p.sellerName else Some("Farmer Name"),
       sellerInitials := if Filled(p.sellerInitials) then p.sellerInitials else Some(Initials(p.product.name)))
  }

  /** `productsWithDistance`: every product keeps its place and its record;
      an empty seller name becomes "Farmer Name" and empty initials become
      the upper-cased first two characters of the product's name. */
  function ProductsWithDistance(products: seq<ListedProduct>, draw: nat -> real): (r: seq<ListedProduct>)
    ensures |r| == |products|
    ensures forall i :: 0 <= i < |r| ==>
      && r[i].product == products[i].product
      && (Filled(products[i].sellerName) ==> r[i].sellerName == products[i].sellerName)
      && (!Filled(products[i].sellerName) ==> r[i].sellerName == Some("Farmer Name"))
      && (Filled(products[i].sellerInitials) ==> r[i].sellerInitials == products[i].sellerInitials)
      && (!Filled(products[i].sellerInitials) ==> r[i].sellerInitials == Some(Initials(products[i].product.name)))
      && (Truthy(products[i].distance) ==> r[i].distance == products[i].distance)
      && (!Truthy(products[i].distance) ==> r[i].distance == Some(draw(i)))
  {
    var r := seq(|products|, i requires 0 <= i < |products| => WithDefaults(products[i], draw(i)));
    assert forall i :: 0 <= i < |r| ==> r[i] == WithDefaults(products[i], draw(i));
    r
  }

  /** The search box: the lower-cased term occurs in the lower-cased name or description. */
  predicate SearchHit(term: string, p: ListedProduct)
  {
    Includes(ToLower(p.product.name), ToLower(term)) || Includes(ToLower(p.product.description), ToLower(term))
  }

  function Searched(term: string): ListedProduct -> bool
  {
    p => SearchHit(term, p)
  }

  /** An empty search term keeps every product. */
  lemma EmptySearchKeepsAll(products: seq<ListedProduct>)
    ensures Filter(products, Searched("")) == products
  {
    forall p ensures Searched("")(p) {
      assert OccursAt(ToLower(""), ToLower(p.product.name), 0);
    }
    FilterAll(products, Searched(""));
  }

  /** `a.distance || 0`. */
  function DistanceOrZero(p: ListedProduct): real
  {
    if p.distance.Some? then p.distance.value else 0.0
  }

  /** The comparator of the sort switch. */
  function ProductOrder(sortBy: string): (ListedProduct, ListedProduct) -> real
  {
    (a: ListedProduct, b: ListedProduct) =>
      if sortBy == "Price: Low to High" then a.product.price - b.product.price
      else if sortBy == "Price: High to Low" then b.product.price - a.product.price
      else if sortBy == "Distance: Nearest" then DistanceOrZero(a) - DistanceOrZero(b)
      else (b.product.createdAt - a.product.createdAt) as real
  }

  lemma ProductOrderConsistent(s: seq<ListedProduct>, sortBy: string)
    ensures ConsistentOn(s, ProductOrder(sortBy))
  {
  }

  const ProductsPerPage := 6

  /** The found products in the order the sort box asks for. */
  function SortedProducts(products: seq<ListedProduct>, term: string, sortBy: string): seq<ListedProduct>
  {
    SortBy(Filter(products, Searched(term)), ProductOrder(sortBy))
  }

  /** The sorted list holds exactly the found products, each as often as
      found; it is ascending by price, descending by price, ascending by
      distance (a missing one counting as 0) or newest first, as the sort
      box says, any other choice meaning newest first. */
  lemma SortedProductsSpec(products: seq<ListedProduct>, term: string, sortBy: string)
    ensures var found := Filter(products, Searched(term));
      var r := SortedProducts(products, term, sortBy);
      && multiset(r) == multiset(found)
      && (forall i, j :: 0 <= i < j < |r| ==>
        if sortBy == "Price: Low to High" then r[i].product.price <= r[j].product.price
        else if sortBy == "Price: High to Low" then r[i].product.price >= r[j].product.price
        else if sortBy == "Distance: Nearest" then DistanceOrZero(r[i]) <= DistanceOrZero(r[j])
        else r[i].product.createdAt >= r[j].product.createdAt)
  {
    var found := Filter(products, Searched(term));
    ProductOrderConsistent(found, sortBy);
    SortByIsSorted(found, ProductOrder(sortBy));
  }

  /** The product list: its own page and search term, and the filters it
      shares with the page around it. */
  class ProductList {
    var currentPage: int
    var searchTerm: string
    var filters: ProductFilters

    constructor (filters: ProductFilters)
      ensures currentPage == 1 && searchTerm == "" && this.filters == filters
    {
      currentPage := 1;
      searchTerm := "";
      this.filters := filters;
    }

    function Sorted(products: seq<ListedProduct>): seq<ListedProduct>
      reads this
    {
      SortedProducts(products, searchTerm, filters.sortBy)
    }

    function TotalPages(products: seq<ListedProduct>): nat
      reads this
    {
      Paging.TotalPages(|Sorted(products)|, ProductsPerPage)
    }

    /** The products on the current page. */
    function Shown(products: seq<ListedProduct>): seq<ListedProduct>
      reads this
    {
      Page(Sorted(products), currentPage, ProductsPerPage)
    }

    /** `handleSearchChange`: a new term takes the list back to page 1, which
        shows the first six of the newly found products. */
    method HandleSearchChange(term: string)
      modifies this
      ensures searchTerm == term && currentPage == 1 && filters == old(filters)
      ensures forall products :: Shown(products) == Sorted(products)[..Min(ProductsPerPage, |Sorted(products)|)]
    {
      searchTerm := term;
      currentPage := 1;
      forall products ensures Shown(products) == Sorted(products)[..Min(ProductsPerPage, |Sorted(products)|)] {
        FirstPage(Sorted(products), ProductsPerPage);
      }
    }

    /** `handleSortChange`: the new order is handed to the filters and the
        list goes back to page 1. */
    method HandleSortChange(sortBy: string)
      modifies this
      ensures filters == old(filters).(sortBy := sortBy) && currentPage == 1 && searchTerm == old(searchTerm)
      ensures forall products :: Shown(products) == Sorted(products)[..Min(ProductsPerPage, |Sorted(products)|)]
    {
      filters := filters.(sortBy := sortBy);
      currentPage := 1;
      forall products ensures Shown(products) == Sorted(products)[..Min(ProductsPerPage, |Sorted(products)|)] {
        FirstPage(Sorted(products), ProductsPerPage);
      }
    }

    /** The pager's `onPageChange`. */
    method SetPage(page: int)
      modifies this
      ensures currentPage == page && searchTerm == old(searchTerm) && filters == old(filters)
    {
      currentPage := page;
    }
  }
}
