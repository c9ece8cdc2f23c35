/** The investment handlers of server/routes.ts and
    server/controllers/investmentController.ts, run against the in-memory
    store: the share purchase (look the investment up, compare the request
    with the shares still available, write the decremented count back, then
    record the purchase) and the per-user listing with its user-id check.
    Requests run one at a time; HTTP statuses become outcome constructors. */
module InvestmentController {
  import opened Common
  import opened Schema
  import opened Storage

  /** 201 with the recorded purchase, 404, or 400 "Not enough shares". */
  datatype PurchaseOutcome = Created(purchase: UserInvestment) | NotFound | NotEnoughShares

  /** The purchase as a transition of the store's state. */
  function PurchaseOn(t: Tables, request: UserInvestment, now: int): (PurchaseOutcome, Tables)
  {
    if request.investmentId !in t.investments then (NotFound, t)
    else
      var investment := t.investments[request.investmentId];
      if investment.availableShares < request.shares then (NotEnoughShares, t)
      else
        var updated := PatchInvestment(investment, SharesPatch(investment.availableShares - request.shares));
        var bought := request.(id := t.userInvestmentIdCounter, purchaseDate := now);
        (Created(bought),
         t.(investments := t.investments[request.investmentId := updated],
            userInvestments := t.userInvestments[bought.id := bought],
            userInvestmentIdCounter := t.userInvestmentIdCounter + 1))
  }

  /** `createUserInvestment`: check, then decrement, then record. */
  method CreateUserInvestment(store: MemStorage, request: UserInvestment, now: int) returns (out: PurchaseOutcome)
    requires store.Valid()
    modifies store
    ensures store.Valid()
    ensures (out, store.State()) == PurchaseOn(old(store.State()), request, now)
  {
    var investment := store.GetInvestmentById(request.investmentId);
    if investment.None? {
      return NotFound;
    }
    if investment.value.availableShares < request.shares {
      return NotEnoughShares;
    }
    var _ := store.UpdateInvestment(request.investmentId, SharesPatch(investment.value.availableShares - request.shares));
    var bought := store.CreateUserInvestment(request, now);
    out := Created(bought);
  }

  /** Every key of every table lies below that table's counter, as the
      store keeps it. */
  predicate KeysIssued(t: Tables)
  {
    && (forall k :: k in t.investments ==> k < t.investmentIdCounter)
    && (forall k :: k in t.userInvestments ==> k < t.userInvestmentIdCounter)
  }

  /** An unknown investment gives 404 and a request for more shares than
      remain gives 400; both leave the store as it was. Otherwise the
      available count drops by exactly the number requested, no other field
      or investment changes, and exactly one purchase is added, under a
      fresh id and stamped with the time of the request. */
  lemma PurchaseOutcomes(t: Tables, request: UserInvestment, now: int)
    requires KeysIssued(t)
    ensures var (out, t') := PurchaseOn(t, request, now);
      && (out == NotFound <==> request.investmentId !in t.investments)
      && (out == NotEnoughShares <==>
          request.investmentId in t.investments && t.investments[request.investmentId].availableShares < request.shares)
      && (!out.Created? ==> t' == t)
      && (out.Created? ==>
        var before := t.investments[request.investmentId];
        && t'.investments == t.investments[request.investmentId := before.(availableShares := before.availableShares - request.shares)]
        && out.purchase == request.(id := t.userInvestmentIdCounter, purchaseDate := now)
        && out.purchase.id !in t.userInvestments
        && t'.userInvestments == t.userInvestments[out.purchase.id := out.purchase]
        && |t'.userInvestments| == |t.userInvestments| + 1
        && t' == t.(investments := t'.investments, userInvestments := t'.userInvestments,
                    userInvestmentIdCounter := t.userInvestmentIdCounter + 1))
  {
    var (out, t') := PurchaseOn(t, request, now);
    if out.Created? {
      var before := t.investments[request.investmentId];
      SharesPatchOnly(before, before.availableShares - request.shares);
      assert out.purchase.id !in t.userInvestments;
    }
  }

  /** The comparison is strict: buying every remaining share succeeds and
      leaves none. */
  lemma BuyAllRemaining(t: Tables, request: UserInvestment, now: int)
    requires request.investmentId in t.investments
    requires request.shares == t.investments[request.investmentId].availableShares
    ensures var (out, t') := PurchaseOn(t, request, now);
      out.Created? && t'.investments[request.investmentId].availableShares == 0
  {
    var investment := t.investments[request.investmentId];
    SharesPatchOnly(investment, investment.availableShares - request.shares);
  }

  /** Every investment has between 0 and `totalShares` shares available. */
  predicate SharesInRange(t: Tables)
  {
    forall k :: k in t.investments ==> 0 <= t.investments[k].availableShares <= t.investments[k].totalShares
  }

  /** The seed investment of the Mongo fixtures: 100 shares, 65 available. */
  const SeedInvestment := Investment(1, 1, "Organic Rice Farming", "", "Rice", 6, 5000.0, 100, 65, 12.0, 5,
    "Punjab", None, 0, Some(true))

  /** Nothing checks the sign of `shares`: a request for -40 shares of the
      seed investment passes the check and leaves 105 of 100 shares
      available. */
  lemma NegativeSharesOverfill()
    ensures var t := Tables(map[], map[], map[], map[], map[], map[1 := SeedInvestment], map[], 1, 1, 1, 1, 1, 2, 1);
      var request := UserInvestment(0, 2, 1, -200000.0, -40, 0, Some("active"));
      var (out, t') := PurchaseOn(t, request, 0);
      && SharesInRange(t)
      && out.Created?
      && t'.investments[1].availableShares == 105 > t'.investments[1].totalShares
      && !SharesInRange(t')
  {
    var t := Tables(map[], map[], map[], map[], map[], map[1 := SeedInvestment], map[], 1, 1, 1, 1, 1, 2, 1);
    var request := UserInvestment(0, 2, 1, -200000.0, -40, 0, Some("active"));
    SharesPatchOnly(SeedInvestment, 105);
    assert PurchaseOn(t, request, 0).1.investments[1].availableShares == 105;
  }

  /** The purchase with the share count checked as well: a request for no
      shares or fewer is refused like one for too many. */
  function CheckedPurchaseOn(t: Tables, request: UserInvestment, now: int): (PurchaseOutcome, Tables)
  {
    if request.investmentId in t.investments && request.shares <= 0 then (NotEnoughShares, t)
    else PurchaseOn(t, request, now)
  }

  /** With the sign checked, a purchase keeps every investment's available
      shares between 0 and its total, and changes nothing on a refusal. */
  lemma CheckedPurchaseKeepsSharesInRange(t: Tables, request: UserInvestment, now: int)
    requires SharesInRange(t)
    ensures var (out, t') := CheckedPurchaseOn(t, request, now);
      && SharesInRange(t')
      && (!out.Created? ==> t' == t)
      && (out.Created? ==>
        && request.shares > 0
        && t'.investments[request.investmentId].availableShares
           == t.investments[request.investmentId].availableShares - request.shares)
  {
    var (out, t') := CheckedPurchaseOn(t, request, now);
    if out.Created? {
      var before := t.investments[request.investmentId];
      SharesPatchOnly(before, before.availableShares - request.shares);
      forall k | k in t'.investments
        ensures 0 <= t'.investments[k].availableShares <= t'.investments[k].totalShares
      {
        if k != request.investmentId {
          assert t'.investments[k] == t.investments[k];
        }
      }
    }
  }

  /** 400 "Invalid user ID". */
  datatype UserIdError = InvalidUserId

  /** A purchase joined with its investment, which may have been deleted. */
  datatype PurchaseView = PurchaseView(purchase: UserInvestment, investment: Option<Investment>)

  function Views(store: MemStorage, purchases: seq<UserInvestment>): (r: seq<PurchaseView>)
    requires store.Valid()
    reads store
    ensures |r| == |purchases|
    ensures forall i :: 0 <= i < |r| ==>
      r[i].purchase == purchases[i] && r[i].investment == store.GetInvestmentById(purchases[i].investmentId)
  {
    if purchases == [] then []
    else [PurchaseView(purchases[0], store.GetInvestmentById(purchases[0].investmentId))] + Views(store, purchases[1..])
  }

  /** `getUserInvestments`: an empty or non-numeric user id is refused;
      `asNumber` is what `Number(userId)` yields, None standing for NaN;
      otherwise the user's purchases in insertion order, each with its
      investment looked up by id. */
  function GetUserInvestments(store: MemStorage, userId: string, asNumber: Option<real>): (r: Result<seq<PurchaseView>, UserIdError>)
    requires store.Valid()
    reads store
    ensures r.Failure? <==> userId == "" || asNumber.None?
    ensures r.Success? ==>
      && (forall v :: v in r.value ==>
        && Stored(store.userInvestments, v.purchase)
        && v.purchase.userId as real == asNumber.value
        && v.investment == store.GetInvestmentById(v.purchase.investmentId))
      && (forall u :: Stored(store.userInvestments, u) && u.userId as real == asNumber.value ==>
        exists v :: v in r.value && v.purchase == u)
  {
    if userId == "" || asNumber.None? then Failure(InvalidUserId)
    else
      UserViews(store, asNumber.value);
      Success(Views(store, Filter(store.UserInvestmentList(), OwnedBy(asNumber.value))))
  }

  function OwnedBy(n: real): UserInvestment -> bool
  {
    (u: UserInvestment) => u.userId as real == n
  }

  /** The views of one user's purchases: every view is of a stored purchase
      of that user, and every such purchase has a view. */
  lemma UserViews(store: MemStorage, n: real)
    requires store.Valid()
    ensures var r := Views(store, Filter(store.UserInvestmentList(), OwnedBy(n)));
      && (forall v :: v in r ==>
        && Stored(store.userInvestments, v.purchase)
        && v.purchase.userId as real == n
        && v.investment == store.GetInvestmentById(v.purchase.investmentId))
      && (forall u :: Stored(store.userInvestments, u) && u.userId as real == n ==>
        exists v :: v in r && v.purchase == u)
  {
    var all := store.UserInvestmentList();
    var mine := Filter(all, OwnedBy(n));
    FilterMembers(all, OwnedBy(n));
    ViewsCover(store, mine);
  }

  /** Each view is of one of the purchases, and each purchase has a view. */
  lemma ViewsCover(store: MemStorage, purchases: seq<UserInvestment>)
    requires store.Valid()
    ensures forall v :: v in Views(store, purchases) ==>
      v.purchase in purchases && v.investment == store.GetInvestmentById(v.purchase.investmentId)
    ensures forall u :: u in purchases ==> exists v :: v in Views(store, purchases) && v.purchase == u
  {
    var r := Views(store, purchases);
    forall v | v in r ensures v.purchase in purchases {
      var i :| 0 <= i < |r| && r[i] == v;
    }
    forall u | u in purchases ensures exists v :: v in r && v.purchase == u {
      var i :| 0 <= i < |purchases| && purchases[i] == u;
      assert r[i] in r;
    }
  }

  /** `GET /api/investments`: the active investments, in insertion order. */
  function ActiveInvestments(store: MemStorage): (r: seq<Investment>)
    requires store.Valid()
    reads store
    ensures forall i :: i in r <==> Stored(store.investments, i) && i.isActive == Some(true)
  {
    Filter(store.InvestmentList(), (i: Investment) => i.isActive == Some(true))
  }
}
