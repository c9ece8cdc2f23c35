/** The in-memory store of server/storage.ts: seven tables keyed by id, each
    with its own id counter starting at 1.

    A JavaScript `Map` lists its values in insertion order, and a `set` on a
    key already present keeps that key's place. The store only ever inserts
    a key equal to the table's counter, which then grows, so insertion order
    is ascending key order: a listing is the table's values by ascending key
    below the counter. Timestamps (`new Date()`) come in as a parameter. */
module Storage {
  import opened Common
  import opened Schema

  /** The values of the keys 0..n-1 of m, by ascending key. */
  function InKeyOrder<V>(m: map<int, V>, n: nat): seq<V>
  {
    if n == 0 then []
    else InKeyOrder(m, n - 1) + (if n - 1 in m then [m[n - 1]] else [])
  }

  /** Keys at or above n do not show in the listing below n. */
  lemma {:induction false} InKeyOrderBelow<V>(m: map<int, V>, n: nat, k: int, v: V)
    requires k >= n
    ensures InKeyOrder(m[k := v], n) == InKeyOrder(m, n)
  {
    if n > 0 {
      InKeyOrderBelow(m, n - 1, k, v);
    }
  }

  /** Storing under a key above every present key appends to the listing. */
  lemma InKeyOrderFresh<V>(m: map<int, V>, n: nat, v: V)
    requires forall k :: k in m ==> k < n
    ensures InKeyOrder(m[n := v], n + 1) == InKeyOrder(m, n) + [v]
  {
    InKeyOrderBelow(m, n, n, v);
  }

  /** The listing below n holds exactly the values of the keys below n. */
  lemma {:induction false} InKeyOrderValues<V>(m: map<int, V>, n: nat)
    ensures forall x :: x in InKeyOrder(m, n) <==> exists k :: k in m && 0 <= k < n && m[k] == x
  {
    if n > 0 {
      InKeyOrderValues(m, n - 1);
      forall x ensures x in InKeyOrder(m, n) <==> exists k :: k in m && 0 <= k < n && m[k] == x {
        if n - 1 in m && m[n - 1] == x {
          assert x in InKeyOrder(m, n);
        }
      }
    }
  }

  /** Strictly ascending in id. */
  ghost predicate AscendingBy<V>(s: seq<V>, id: V -> int)
  {
    forall i, j :: 0 <= i < j < |s| ==> id(s[i]) < id(s[j])
  }

  /** When every record sits under its own id, the listing below n comes out
      in strictly ascending id, every id below n. */
  lemma {:induction false} InKeyOrderAscending<V>(m: map<int, V>, n: nat, id: V -> int)
    requires forall k :: k in m ==> id(m[k]) == k
    ensures forall x :: x in InKeyOrder(m, n) ==> id(x) < n
    ensures AscendingBy(InKeyOrder(m, n), id)
  {
    if n > 0 {
      InKeyOrderAscending(m, n - 1, id);
      var prefix := InKeyOrder(m, n - 1);
      var s := InKeyOrder(m, n);
      assert s == prefix + (if n - 1 in m then [m[n - 1]] else []);
      forall i, j | 0 <= i < j < |s| ensures id(s[i]) < id(s[j]) {
        if j >= |prefix| {
          assert s[i] == prefix[i] && prefix[i] in prefix && s[j] == m[n - 1];
        } else {
          assert s[i] == prefix[i] && s[j] == prefix[j];
        }
      }
    }
  }

  /** In a list ascending by id, the first element that passes a test has the
      least id of all that pass. */
  lemma FindFirstLeastId<V>(s: seq<V>, p: V -> bool, id: V -> int)
    requires AscendingBy(s, id)
    ensures FindFirst(s, p).Some? ==> forall x :: x in s && p(x) ==> id(FindFirst(s, p).value) <= id(x)
  {
    var r := FindFirst(s, p);
    if r.Some? {
      var i :| 0 <= i < |s| && s[i] == r.value && p(s[i]) && forall j :: 0 <= j < i ==> !p(s[j]);
      forall x | x in s && p(x) ensures id(r.value) <= id(x) {
        var j :| 0 <= j < |s| && s[j] == x;
        if j < i {
          assert !p(s[j]);
        }
      }
    }
  }

  function UserId(u: User): int { u.id }
  function RegionalDataId(d: RegionalData): int { d.id }
  function CropDataId(d: CropData): int { d.id }

  function UsernameIs(username: string): User -> bool
  {
    (u: User) => u.username == username
  }

  function DistrictIs(district: string): RegionalData -> bool
  {
    (d: RegionalData) => d.district == district
  }

  function CropDataNamed(cropName: string): CropData -> bool
  {
    (d: CropData) => d.cropName == cropName
  }

  /** Some key of m holds x: x is one of the table's values. */
  ghost predicate Stored<V>(m: map<int, V>, x: V)
  {
    exists k :: k in m && m[k] == x
  }

  /** When every key lies below n the listing holds exactly the table's values. */
  lemma ListedValues<V>(m: map<int, V>, n: nat)
    requires forall k :: k in m ==> 0 <= k < n
    ensures forall x :: x in InKeyOrder(m, n) <==> Stored(m, x)
  {
    InKeyOrderValues(m, n);
  }

  /** `Partial<InsertProduct>`: the fields a product update may carry. */
  datatype ProductPatch = ProductPatch(
    userId: Option<int>, name: Option<string>, description: Option<string>, category: Option<string>,
    price: Option<real>, unit: Option<string>, quantity: Option<real>, location: Option<string>,
    imageUrl: Option<Option<string>>, isAvailable: Option<bool>)

  /** `Partial<InsertInvestment>`: the fields an investment update may carry. */
  datatype InvestmentPatch = InvestmentPatch(
    userId: Option<int>, title: Option<string>, description: Option<string>, cropType: Option<string>,
    investmentPeriod: Option<int>, minInvestment: Option<real>, totalShares: Option<int>,
    availableShares: Option<int>, expectedReturn: Option<real>, farmExperience: Option<int>,
    location: Option<string>, imageUrl: Option<Option<string>>, isActive: Option<bool>)

  function Or<T>(patch: Option<T>, current: T): T
  {
    if patch.Some? then patch.value else current
  }

  /** `{ ...existing, ...patch }`: every field the patch carries replaces the
      stored one; `id` and `createdAt` are not patchable. */
  function PatchProduct(p: Product, patch: ProductPatch): (r: Product)
    ensures r.id == p.id && r.createdAt == p.createdAt
  {
    p.(userId := Or(patch.userId, p.userId), name := Or(patch.name, p.name),
      description := Or(patch.description, p.description), category := Or(patch.category, p.category),
      price := Or(patch.price, p.price), unit := Or(patch.unit, p.unit), quantity := Or(patch.quantity, p.quantity),
      location := Or(patch.location, p.location), imageUrl := Or(patch.imageUrl, p.imageUrl),
      isAvailable := if patch.isAvailable.Some? then patch.isAvailable else p.isAvailable)
  }

  function PatchInvestment(i: Investment, patch: InvestmentPatch): (r: Investment)
    ensures r.id == i.id && r.createdAt == i.createdAt
  {
    i.(userId := Or(patch.userId, i.userId), title := Or(patch.title, i.title),
      description := Or(patch.description, i.description), cropType := Or(patch.cropType, i.cropType),
      investmentPeriod := Or(patch.investmentPeriod, i.investmentPeriod),
      minInvestment := Or(patch.minInvestment, i.minInvestment), totalShares := Or(patch.totalShares, i.totalShares),
      availableShares := Or(patch.availableShares, i.availableShares),
      expectedReturn := Or(patch.expectedReturn, i.expectedReturn),
      farmExperience := Or(patch.farmExperience, i.farmExperience), location := Or(patch.location, i.location),
      imageUrl := Or(patch.imageUrl, i.imageUrl), isActive := if patch.isActive.Some? then patch.isActive else i.isActive)
  }

  const NoProductChange := ProductPatch(None, None, None, None, None, None, None, None, None, None)

  /** The patch that only sets `availableShares`, as the purchase sends it. */
  function SharesPatch(shares: int): InvestmentPatch
  {
    InvestmentPatch(None, None, None, None, None, None, None, Some(shares), None, None, None, None, None)
  }

  /** An empty patch changes nothing, and applying a patch twice is the same
      as applying it once. */
  lemma ProductPatchLaws(p: Product, patch: ProductPatch)
    ensures PatchProduct(p, NoProductChange) == p
    ensures PatchProduct(PatchProduct(p, patch), patch) == PatchProduct(p, patch)
  {
  }

  /** The shares patch changes `availableShares` and no other field. */
  lemma SharesPatchOnly(i: Investment, shares: int)
    ensures PatchInvestment(i, SharesPatch(shares)) == i.(availableShares := shares)
  {
  }

  /** The whole state of the store, for saying what an operation leaves alone. */
  datatype Tables = Tables(
    users: map<int, User>, priceData: map<int, PriceData>, regionalData: map<int, RegionalData>,
    cropData: map<int, CropData>, products: map<int, Product>, investments: map<int, Investment>,
    userInvestments: map<int, UserInvestment>,
    userIdCounter: int, priceDataIdCounter: int, regionalDataIdCounter: int, cropDataIdCounter: int,
    productIdCounter: int, investmentIdCounter: int, userInvestmentIdCounter: int)

  class MemStorage {
    var users: map<int, User>
    var priceData: map<int, PriceData>
    var regionalData: map<int, RegionalData>
    var cropData: map<int, CropData>
    var products: map<int, Product>
    var investments: map<int, Investment>
    var userInvestments: map<int, UserInvestment>

    var userIdCounter: nat
    var priceDataIdCounter: nat
    var regionalDataIdCounter: nat
    var cropDataIdCounter: nat
    var productIdCounter: nat
    var investmentIdCounter: nat
    var userInvestmentIdCounter: nat

    function State(): Tables
      reads this
    {
      Tables(users, priceData, regionalData, cropData, products, investments, userInvestments,
        userIdCounter, priceDataIdCounter, regionalDataIdCounter, cropDataIdCounter,
        productIdCounter, investmentIdCounter, userInvestmentIdCounter)
    }

    /** Every stored record sits under its own id, and every id was issued:
        it lies between 1 and the table's counter, exclusive. */
    ghost predicate Valid()
      reads this
    {
      && userIdCounter >= 1 && priceDataIdCounter >= 1 && regionalDataIdCounter >= 1 && cropDataIdCounter >= 1
      && productIdCounter >= 1 && investmentIdCounter >= 1 && userInvestmentIdCounter >= 1
      && (forall k :: k in users ==> 1 <= k < userIdCounter && users[k].id == k)
      && (forall k :: k in priceData ==> 1 <= k < priceDataIdCounter && priceData[k].id == k)
      && (forall k :: k in regionalData ==> 1 <= k < regionalDataIdCounter && regionalData[k].id == k)
      && (forall k :: k in cropData ==> 1 <= k < cropDataIdCounter && cropData[k].id == k)
      && (forall k :: k in products ==> 1 <= k < productIdCounter && products[k].id == k)
      && (forall k :: k in investments ==> 1 <= k < investmentIdCounter && investments[k].id == k)
      && (forall k :: k in userInvestments ==> 1 <= k < userInvestmentIdCounter && userInvestments[k].id == k)
    }

    constructor ()
      ensures Valid()
      ensures State() == Tables(map[], map[], map[], map[], map[], map[], map[], 1, 1, 1, 1, 1, 1, 1)
    {
      users, priceData, regionalData, cropData := map[], map[], map[], map[];
      products, investments, userInvestments := map[], map[], map[];
      userIdCounter, priceDataIdCounter, regionalDataIdCounter, cropDataIdCounter := 1, 1, 1, 1;
      productIdCounter, investmentIdCounter, userInvestmentIdCounter := 1, 1, 1;
    }

    // Users

    function GetUser(id: int): (r: Option<User>)
      requires Valid()
      reads this
      ensures r.Some? <==> id in users
      ensures r.Some? ==> r.value == users[id] && r.value.id == id && 1 <= id < userIdCounter
    {
      if id in users then Some(users[id]) else None
    }

    /** The users in insertion order. */
    function UserList(): (r: seq<User>)
      requires Valid()
      reads this
      ensures forall u :: u in r <==> Stored(users, u)
    {
      ListedValues(users, userIdCounter);
      InKeyOrder(users, userIdCounter)
    }

    /** The first user, in insertion order, with that username. */
    function GetUserByUsername(username: string): (r: Option<User>)
      requires Valid()
      reads this
      ensures r.Some? ==> Stored(users, r.value) && r.value.username == username
      ensures r.None? <==> forall u :: Stored(users, u) ==> u.username != username
      ensures r.Some? ==> forall u :: Stored(users, u) && u.username == username ==> r.value.id <= u.id
    {
      InKeyOrderAscending(users, userIdCounter, UserId);
      assert UserList() == InKeyOrder(users, userIdCounter);
      FindFirstLeastId(UserList(), UsernameIs(username), UserId);
      FindFirst(UserList(), UsernameIs(username))
    }

    method CreateUser(user: User, now: int) returns (r: User)
      requires Valid()
      modifies this
      ensures Valid()
      ensures r == user.(id := old(userIdCounter), createdAt := now)
      ensures forall k :: k in old(users) ==> k < r.id
      ensures State() == old(State()).(users := old(users)[r.id := r], userIdCounter := old(userIdCounter) + 1)
      ensures InKeyOrder(users, userIdCounter) == old(InKeyOrder(users, userIdCounter)) + [r]
    {
      var id := userIdCounter;
      userIdCounter := userIdCounter + 1;
      r := user.(id := id, createdAt := now);
      InKeyOrderFresh(users, id, r);
      users := users[id := r];
    }

    // Price data

    /** `getPriceData`: the records in insertion order. */
    function PriceDataList(): (r: seq<PriceData>)
      requires Valid()
      reads this
      ensures forall d :: d in r <==> Stored(priceData, d)
    {
      ListedValues(priceData, priceDataIdCounter);
      InKeyOrder(priceData, priceDataIdCounter)
    }

    /** `getPriceDataByCrop`: exactly the records with that crop name, in
        insertion order. */
    function GetPriceDataByCrop(cropName: string): (r: seq<PriceData>)
      requires Valid()
      reads this
      ensures forall d :: d in r <==> Stored(priceData, d) && d.cropName == cropName
      ensures IsSubsequence(r, PriceDataList())
    {
      var keep := (d: PriceData) => d.cropName == cropName;
      FilterIsSubsequence(PriceDataList(), keep);
      Filter(PriceDataList(), keep)
    }

    method CreatePriceData(data: PriceData) returns (r: PriceData)
      requires Valid()
      modifies this
      ensures Valid()
      ensures r == data.(id := old(priceDataIdCounter))
      ensures forall k :: k in old(priceData) ==> k < r.id
      ensures State() == old(State()).(priceData := old(priceData)[r.id := r], priceDataIdCounter := old(priceDataIdCounter) + 1)
      ensures PriceDataList() == old(PriceDataList()) + [r]
    {
      var id := priceDataIdCounter;
      priceDataIdCounter := priceDataIdCounter + 1;
      r := data.(id := id);
      InKeyOrderFresh(priceData, id, r);
      priceData := priceData[id := r];
    }

    // Regional data

    function RegionalDataList(): (r: seq<RegionalData>)
      requires Valid()
      reads this
      ensures forall d :: d in r <==> Stored(regionalData, d)
    {
      ListedValues(regionalData, regionalDataIdCounter);
      InKeyOrder(regionalData, regionalDataIdCounter)
    }

    /** The first district record, in insertion order, with that name. */
    function GetRegionalDataByDistrict(district: string): (r: Option<RegionalData>)
      requires Valid()
      reads this
      ensures r.Some? ==> Stored(regionalData, r.value) && r.value.district == district
      ensures r.None? <==> forall d :: Stored(regionalData, d) ==> d.district != district
      ensures r.Some? ==> forall d :: Stored(regionalData, d) && d.district == district ==> r.value.id <= d.id
    {
      InKeyOrderAscending(regionalData, regionalDataIdCounter, RegionalDataId);
      assert RegionalDataList() == InKeyOrder(regionalData, regionalDataIdCounter);
      FindFirstLeastId(RegionalDataList(), DistrictIs(district), RegionalDataId);
      FindFirst(RegionalDataList(), DistrictIs(district))
    }

    method CreateRegionalData(data: RegionalData) returns (r: RegionalData)
      requires Valid()
      modifies this
      ensures Valid()
      ensures r == data.(id := old(regionalDataIdCounter))
      ensures forall k :: k in old(regionalData) ==> k < r.id
      ensures State() == old(State()).(regionalData := old(regionalData)[r.id := r], regionalDataIdCounter := old(regionalDataIdCounter) + 1)
      ensures RegionalDataList() == old(RegionalDataList()) + [r]
    {
      var id := regionalDataIdCounter;
      regionalDataIdCounter := regionalDataIdCounter + 1;
      r := data.(id := id);
      InKeyOrderFresh(regionalData, id, r);
      regionalData := regionalData[id := r];
    }

    // Crop data

    function CropDataList(): (r: seq<CropData>)
      requires Valid()
      reads this
      ensures forall d :: d in r <==> Stored(cropData, d)
    {
      ListedValues(cropData, cropDataIdCounter);
      InKeyOrder(cropData, cropDataIdCounter)
    }

    /** The first crop record, in insertion order, with that crop name. */
    function GetCropDataByCropName(cropName: string): (r: Option<CropData>)
      requires Valid()
      reads this
      ensures r.Some? ==> Stored(cropData, r.value) && r.value.cropName == cropName
      ensures r.None? <==> forall d :: Stored(cropData, d) ==> d.cropName != cropName
      ensures r.Some? ==> forall d :: Stored(cropData, d) && d.cropName == cropName ==> r.value.id <= d.id
    {
      InKeyOrderAscending(cropData, cropDataIdCounter, CropDataId);
      assert CropDataList() == InKeyOrder(cropData, cropDataIdCounter);
      FindFirstLeastId(CropDataList(), CropDataNamed(cropName), CropDataId);
      FindFirst(CropDataList(), CropDataNamed(cropName))
    }

    method CreateCropData(data: CropData) returns (r: CropData)
      requires Valid()
      modifies this
      ensures Valid()
      ensures r == data.(id := old(cropDataIdCounter))
      ensures forall k :: k in old(cropData) ==> k < r.id
      ensures State() == old(State()).(cropData := old(cropData)[r.id := r], cropDataIdCounter := old(cropDataIdCounter) + 1)
      ensures CropDataList() == old(CropDataList()) + [r]
    {
      var id := cropDataIdCounter;
      cropDataIdCounter := cropDataIdCounter + 1;
      r := data.(id := id);
      InKeyOrderFresh(cropData, id, r);
      cropData := cropData[id := r];
    }

    // Products

    function ProductList(): (r: seq<Product>)
      requires Valid()
      reads this
      ensures forall p :: p in r <==> Stored(products, p)
    {
      ListedValues(products, productIdCounter);
      InKeyOrder(products, productIdCounter)
    }

    function GetProductsByCategory(category: string): (r: seq<Product>)
      requires Valid()
      reads this
      ensures forall p :: p in r <==> Stored(products, p) && p.category == category
      ensures IsSubsequence(r, ProductList())
    {
      var keep := (p: Product) => p.category == category;
      FilterIsSubsequence(ProductList(), keep);
      Filter(ProductList(), keep)
    }

    function GetProductsByUser(userId: int): (r: seq<Product>)
      requires Valid()
      reads this
      ensures forall p :: p in r <==> Stored(products, p) && p.userId == userId
      ensures IsSubsequence(r, ProductList())
    {
      var keep := (p: Product) => p.userId == userId;
      FilterIsSubsequence(ProductList(), keep);
      Filter(ProductList(), keep)
    }

    function GetProductById(id: int): (r: Option<Product>)
      requires Valid()
      reads this
      ensures r.Some? <==> id in products
      ensures r.Some? ==> r.value == products[id] && r.value.id == id && 1 <= id < productIdCounter
    {
      if id in products then Some(products[id]) else None
    }

    method CreateProduct(product: Product, now: int) returns (r: Product)
      requires Valid()
      modifies this
      ensures Valid()
      ensures r == product.(id := old(productIdCounter), createdAt := now)
      ensures forall k :: k in old(products) ==> k < r.id
      ensures State() == old(State()).(products := old(products)[r.id := r], productIdCounter := old(productIdCounter) + 1)
      ensures ProductList() == old(ProductList()) + [r]
    {
      var id := productIdCounter;
      productIdCounter := productIdCounter + 1;
      r := product.(id := id, createdAt := now);
      InKeyOrderFresh(products, id, r);
      products := products[id := r];
    }

    /** An unknown id changes nothing; otherwise the patched product replaces
        the stored one under the same id. */
    method UpdateProduct(id: int, patch: ProductPatch) returns (r: Option<Product>)
      requires Valid()
      modifies this
      ensures Valid()
      ensures id !in old(products) ==> r == None && State() == old(State())
      ensures id in old(products) ==>
        && r == Some(PatchProduct(old(products)[id], patch))
        && State() == old(State()).(products := old(products)[id := r.value])
    {
      if id !in products {
        return None;
      }
      var updated := PatchProduct(products[id], patch);
      products := products[id := updated];
      r := Some(updated);
    }

    /** `Map.prototype.delete`: true exactly when the id was present, and
        only that key goes. The counter is not rewound, so the id is never
        issued again. */
    method DeleteProduct(id: int) returns (deleted: bool)
      requires Valid()
      modifies this
      ensures Valid()
      ensures deleted == (id in old(products))
      ensures State() == old(State()).(products := old(products) - {id})
    {
      deleted := id in products;
      products := products - {id};
    }

    // Investments

    function InvestmentList(): (r: seq<Investment>)
      requires Valid()
      reads this
      ensures forall i :: i in r <==> Stored(investments, i)
    {
      ListedValues(investments, investmentIdCounter);
      InKeyOrder(investments, investmentIdCounter)
    }

    function GetInvestmentById(id: int): (r: Option<Investment>)
      requires Valid()
      reads this
      ensures r.Some? <==> id in investments
      ensures r.Some? ==> r.value == investments[id] && r.value.id == id && 1 <= id < investmentIdCounter
    {
      if id in investments then Some(investments[id]) else None
    }

    function GetInvestmentsByUser(userId: int): (r: seq<Investment>)
      requires Valid()
      reads this
      ensures forall i :: i in r <==> Stored(investments, i) && i.userId == userId
      ensures IsSubsequence(r, InvestmentList())
    {
      var keep := (i: Investment) => i.userId == userId;
      FilterIsSubsequence(InvestmentList(), keep);
      Filter(InvestmentList(), keep)
    }

    method CreateInvestment(investment: Investment, now: int) returns (r: Investment)
      requires Valid()
      modifies this
      ensures Valid()
      ensures r == investment.(id := old(investmentIdCounter), createdAt := now)
      ensures forall k :: k in old(investments) ==> k < r.id
      ensures State() == old(State()).(investments := old(investments)[r.id := r], investmentIdCounter := old(investmentIdCounter) + 1)
      ensures InvestmentList() == old(InvestmentList()) + [r]
    {
      var id := investmentIdCounter;
      investmentIdCounter := investmentIdCounter + 1;
      r := investment.(id := id, createdAt := now);
      InKeyOrderFresh(investments, id, r);
      investments := investments[id := r];
    }

    /** Nothing here relates `availableShares` to `totalShares`: a patch may
        set either to any integer. */
    method UpdateInvestment(id: int, patch: InvestmentPatch) returns (r: Option<Investment>)
      requires Valid()
      modifies this
      ensures Valid()
      ensures id !in old(investments) ==> r == None && State() == old(State())
      ensures id in old(investments) ==>
        && r == Some(PatchInvestment(old(investments)[id], patch))
        && State() == old(State()).(investments := old(investments)[id := r.value])
    {
      if id !in investments {
        return None;
      }
      var updated := PatchInvestment(investments[id], patch);
      investments := investments[id := updated];
      r := Some(updated);
    }

    method DeleteInvestment(id: int) returns (deleted: bool)
      requires Valid()
      modifies this
      ensures Valid()
      ensures deleted == (id in old(investments))
      ensures State() == old(State()).(investments := old(investments) - {id})
    {
      deleted := id in investments;
      investments := investments - {id};
    }

    // User investments

    function UserInvestmentList(): (r: seq<UserInvestment>)
      requires Valid()
      reads this
      ensures forall u :: u in r <==> Stored(userInvestments, u)
    {
      ListedValues(userInvestments, userInvestmentIdCounter);
      InKeyOrder(userInvestments, userInvestmentIdCounter)
    }

    function GetUserInvestments(userId: int): (r: seq<UserInvestment>)
      requires Valid()
      reads this
      ensures forall u :: u in r <==> Stored(userInvestments, u) && u.userId == userId
      ensures IsSubsequence(r, UserInvestmentList())
    {
      var keep := (u: UserInvestment) => u.userId == userId;
      FilterIsSubsequence(UserInvestmentList(), keep);
      Filter(UserInvestmentList(), keep)
    }

    method CreateUserInvestment(purchase: UserInvestment, now: int) returns (r: UserInvestment)
      requires Valid()
      modifies this
      ensures Valid()
      ensures r == purchase.(id := old(userInvestmentIdCounter), purchaseDate := now)
      ensures forall k :: k in old(userInvestments) ==> k < r.id
      ensures State() == old(State()).(
        userInvestments := old(userInvestments)[r.id := r], userInvestmentIdCounter := old(userInvestmentIdCounter) + 1)
      ensures UserInvestmentList() == old(UserInvestmentList()) + [r]
    {
      var id := userInvestmentIdCounter;
      userInvestmentIdCounter := userInvestmentIdCounter + 1;
      r := purchase.(id := id, purchaseDate := now);
      InKeyOrderFresh(userInvestments, id, r);
      userInvestments := userInvestments[id := r];
    }

    /** Only `status` changes, and only for an existing id. */
    method UpdateUserInvestment(id: int, status: string) returns (r: Option<UserInvestment>)
      requires Valid()
      modifies this
      ensures Valid()
      ensures id !in old(userInvestments) ==> r == None && State() == old(State())
      ensures id in old(userInvestments) ==>
        && r == Some(old(userInvestments)[id].(status := Some(status)))
        && State() == old(State()).(userInvestments := old(userInvestments)[id := r.value])
    {
      if id !in userInvestments {
        return None;
      }
      var updated := userInvestments[id].(status := Some(status));
      userInvestments := userInvestments[id := updated];
      r := Some(updated);
    }
  }
}
