/** The product search of the marketplace on the server: the in-memory
    filter of `GET /api/products` in server/routes.ts, and the MongoDB query
    object that server/controllers/marketplaceController.ts builds from the
    same parameters. Query parameters arrive as strings or not at all; a
    string parameter counts as given when it is non-empty, as JavaScript's
    truthiness has it. `Number(s)` is a parameter of the model (`number`),
    None standing for NaN. */
module Marketplace {
  import opened Common
  import opened Schema

  datatype ProductQuery = ProductQuery(
    category: Option<string>, minPrice: Option<string>, maxPrice: Option<string>, location: Option<string>)

  const AllCategories := "All Categories"
  const AllLocations := "All Locations"

  /** The parameter is present and non-empty. */
  predicate Given(param: Option<string>)
  {
    param.Some? && param.value != ""
  }

  predicate CategoryApplies(q: ProductQuery)
  {
    Given(q.category) && q.category.value != AllCategories
  }

  predicate LocationApplies(q: ProductQuery)
  {
    Given(q.location) && q.location.value != AllLocations
  }

  /** The price bound a parameter sets: only a given, numeric one sets any. */
  function Bound(param: Option<string>, number: string -> Option<real>): (b: Option<real>)
    ensures b.Some? <==> Given(param) && number(param.value).Some?
    ensures b.Some? ==> b == number(param.value)
  {
    if Given(param) && number(param.value).Some? then number(param.value) else None
  }

  /** The products the search asks for: available ones, of the requested
      category and location unless those are absent or "All …", within both
      price bounds inclusive where they are given and numeric. */
  predicate Matches(q: ProductQuery, number: string -> Option<real>, p: Product)
  {
    StageHolds(q, number, 4, p)
  }

  /** The conjunction of the first k+1 filters of the handler, in its order:
      availability, category, minimum price, maximum price, location. */
  predicate StageHolds(q: ProductQuery, number: string -> Option<real>, k: nat, p: Product)
  {
    && p.isAvailable == Some(true)
    && (k >= 1 && CategoryApplies(q) ==> p.category == q.category.value)
    && (k >= 2 && Bound(q.minPrice, number).Some? ==> p.price >= Bound(q.minPrice, number).value)
    && (k >= 3 && Bound(q.maxPrice, number).Some? ==> p.price <= Bound(q.maxPrice, number).value)
    && (k >= 4 && LocationApplies(q) ==> p.location == q.location.value)
  }

  function Stage(q: ProductQuery, number: string -> Option<real>, k: nat): Product -> bool
  {
    p => StageHolds(q, number, k, p)
  }

  function MatchesQuery(q: ProductQuery, number: string -> Option<real>): Product -> bool
  {
    p => Matches(q, number, p)
  }

  function IsAvailable(): Product -> bool { (p: Product) => p.isAvailable == Some(true) }
  function CategoryIs(category: string): Product -> bool { (p: Product) => p.category == category }
  function PriceAtLeast(low: real): Product -> bool { (p: Product) => p.price >= low }
  function PriceAtMost(high: real): Product -> bool { (p: Product) => p.price <= high }
  function LocationIs(location: string): Product -> bool { (p: Product) => p.location == location }

  /** The first filter of the handler is stage 0. */
  lemma AvailableStage(all: seq<Product>, q: ProductQuery, number: string -> Option<real>)
    ensures Filter(all, IsAvailable()) == Filter(all, Stage(q, number, 0))
  {
    FilterExt(all, IsAvailable(), Stage(q, number, 0));
  }

  /** Each stage narrows the one before by its filter when the parameter
      applies, and equals it otherwise. */
  lemma CategoryStage(all: seq<Product>, q: ProductQuery, number: string -> Option<real>)
    ensures CategoryApplies(q) ==> Filter(Filter(all, Stage(q, number, 0)), CategoryIs(q.category.value)) == Filter(all, Stage(q, number, 1))
    ensures !CategoryApplies(q) ==> Filter(all, Stage(q, number, 0)) == Filter(all, Stage(q, number, 1))
  {
    if CategoryApplies(q) {
      FilterConj(all, Stage(q, number, 0), CategoryIs(q.category.value), Stage(q, number, 1));
    } else {
      FilterExt(all, Stage(q, number, 0), Stage(q, number, 1));
    }
  }

  lemma MinPriceStage(all: seq<Product>, q: ProductQuery, number: string -> Option<real>)
    ensures var b := Bound(q.minPrice, number);
      b.Some? ==> Filter(Filter(all, Stage(q, number, 1)), PriceAtLeast(b.value)) == Filter(all, Stage(q, number, 2))
    ensures Bound(q.minPrice, number).None? ==> Filter(all, Stage(q, number, 1)) == Filter(all, Stage(q, number, 2))
  {
    var b := Bound(q.minPrice, number);
    if b.Some? {
      FilterConj(all, Stage(q, number, 1), PriceAtLeast(b.value), Stage(q, number, 2));
    } else {
      FilterExt(all, Stage(q, number, 1), Stage(q, number, 2));
    }
  }

  lemma MaxPriceStage(all: seq<Product>, q: ProductQuery, number: string -> Option<real>)
    ensures var b := Bound(q.maxPrice, number);
      b.Some? ==> Filter(Filter(all, Stage(q, number, 2)), PriceAtMost(b.value)) == Filter(all, Stage(q, number, 3))
    ensures Bound(q.maxPrice, number).None? ==> Filter(all, Stage(q, number, 2)) == Filter(all, Stage(q, number, 3))
  {
    var b := Bound(q.maxPrice, number);
    if b.Some? {
      FilterConj(all, Stage(q, number, 2), PriceAtMost(b.value), Stage(q, number, 3));
    } else {
      FilterExt(all, Stage(q, number, 2), Stage(q, number, 3));
    }
  }

  lemma LocationStage(all: seq<Product>, q: ProductQuery, number: string -> Option<real>)
    ensures LocationApplies(q) ==> Filter(Filter(all, Stage(q, number, 3)), LocationIs(q.location.value)) == Filter(all, Stage(q, number, 4))
    ensures !LocationApplies(q) ==> Filter(all, Stage(q, number, 3)) == Filter(all, Stage(q, number, 4))
  {
    if LocationApplies(q) {
      FilterConj(all, Stage(q, number, 3), LocationIs(q.location.value), Stage(q, number, 4));
    } else {
      FilterExt(all, Stage(q, number, 3), Stage(q, number, 4));
    }
  }

  /** `GET /api/products`: the store's list narrowed by one filter after
      another, which comes to a single filter by `Matches`. */
  method FilterProducts(all: seq<Product>, q: ProductQuery, number: string -> Option<real>) returns (products: seq<Product>)
    ensures products == Filter(all, MatchesQuery(q, number))
  {
    products := Filter(all, IsAvailable());
    assert products == Filter(all, Stage(q, number, 0)) by {
      AvailableStage(all, q, number);
    }
    if Given(q.category) && q.category.value != AllCategories {
      products := Filter(products, CategoryIs(q.category.value));
    }
    assert products == Filter(all, Stage(q, number, 1)) by {
      CategoryStage(all, q, number);
    }
    if Given(q.minPrice) && number(q.minPrice.value).Some? {
      products := Filter(products, PriceAtLeast(number(q.minPrice.value).value));
    }
    assert products == Filter(all, Stage(q, number, 2)) by {
      MinPriceStage(all, q, number);
    }
    if Given(q.maxPrice) && number(q.maxPrice.value).Some? {
      products := Filter(products, PriceAtMost(number(q.maxPrice.value).value));
    }
    assert products == Filter(all, Stage(q, number, 3)) by {
      MaxPriceStage(all, q, number);
    }
    if Given(q.location) && q.location.value != AllLocations {
      products := Filter(products, LocationIs(q.location.value));
    }
    assert products == Filter(all, MatchesQuery(q, number)) by {
      LocationStage(all, q, number);
      FilterExt(all, Stage(q, number, 4), MatchesQuery(q, number));
    }
  }

  /** The search keeps the input's order and drops exactly the products
      that do not match; a product stored without `isAvailable` (the insert
      schema leaves the column out unless the request carries it) is never
      listed. */
  lemma FilteredProducts(all: seq<Product>, q: ProductQuery, number: string -> Option<real>)
    ensures var products := Filter(all, MatchesQuery(q, number));
      && IsSubsequence(products, all)
      && (forall p :: p in products <==> p in all && Matches(q, number, p))
      && (forall p :: p in all && p.isAvailable != Some(true) ==> p !in products)
  {
    FilterIsSubsequence(all, MatchesQuery(q, number));
    FilterMembers(all, MatchesQuery(q, number));
  }

  /** `{ $gte, $lte }` on the price field. */
  datatype PriceCondition = PriceCondition(gte: Option<real>, lte: Option<real>)

  /** The query object of `getProducts`; an absent field places no condition. */
  datatype MongoQuery = MongoQuery(
    isAvailable: bool, category: Option<string>, price: Option<PriceCondition>, location: Option<string>)

  /** What `Product.find(query)` selects: equality on each plain field, and
      the inclusive bounds of the price condition. */
  predicate Selects(query: MongoQuery, p: Product)
  {
    && p.isAvailable == Some(query.isAvailable)
    && (query.category.Some? ==> p.category == query.category.value)
    && (query.price.Some? && query.price.value.gte.Some? ==> p.price >= query.price.value.gte.value)
    && (query.price.Some? && query.price.value.lte.Some? ==> p.price <= query.price.value.lte.value)
    && (query.location.Some? ==> p.location == query.location.value)
  }

  /** `getProducts` builds the query field by field. It always asks for
      available products; it names a category or a location only when one
      is given and is not the "All …" choice; a given, numeric minimum sets
      `$gte`, and a maximum adds `$lte` to the same price condition. The
      query selects exactly the products the in-memory filter keeps. */
  method BuildQuery(q: ProductQuery, number: string -> Option<real>) returns (query: MongoQuery)
    ensures query.isAvailable
    ensures query.category.Some? <==> CategoryApplies(q)
    ensures query.category.Some? ==> query.category == q.category
    ensures query.location.Some? <==> LocationApplies(q)
    ensures query.location.Some? ==> query.location == q.location
    ensures query.price.Some? <==> Bound(q.minPrice, number).Some? || Bound(q.maxPrice, number).Some?
    ensures query.price.Some? ==> query.price.value == PriceCondition(Bound(q.minPrice, number), Bound(q.maxPrice, number))
    ensures forall p :: Selects(query, p) <==> Matches(q, number, p)
  {
    query := MongoQuery(true, None, None, None);
    if Given(q.category) && q.category.value != AllCategories {
      query := query.(category := q.category);
    }
    if Given(q.minPrice) && number(q.minPrice.value).Some? {
      query := query.(price := Some(PriceCondition(number(q.minPrice.value), None)));
    }
    if Given(q.maxPrice) && number(q.maxPrice.value).Some? {
      if query.price.Some? {
        query := query.(price := Some(query.price.value.(lte := number(q.maxPrice.value))));
      } else {
        query := query.(price := Some(PriceCondition(None, number(q.maxPrice.value))));
      }
    }
    if Given(q.location) && q.location.value != AllLocations {
      query := query.(location := q.location);
    }
  }

  /** The two handlers answer the same question: on the same products the
      database returns exactly what the in-memory filter keeps. */
  lemma QueryAgreesWithFilter(all: seq<Product>, q: ProductQuery, number: string -> Option<real>, query: MongoQuery)
    requires forall p :: Selects(query, p) <==> Matches(q, number, p)
    ensures Filter(all, (p: Product) => Selects(query, p)) == Filter(all, MatchesQuery(q, number))
  {
    FilterExt(all, (p: Product) => Selects(query, p), MatchesQuery(q, number));
  }
}
