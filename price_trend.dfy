/** The price-trend aggregator behind GET /api/price-prediction
    (`processPriceData`, `determineDemand` and `getCropCategory` in
    server/routes.ts): price records are grouped by exact crop name, each
    group is ordered by (year, month), the oldest and newest prices give a
    change, a percentage and a naive one-step projection, and the per-crop
    trends are ranked by profit and by demand.

    The source divides by the oldest price without a guard; here a zero
    oldest price is reported as `DivisionByZero` instead of producing
    Infinity or NaN. */
module PriceTrend {
  import opened Common
  import opened Sorting
  import opened Schema

  const Vegetables := ["Tomato", "Onion", "Potato", "Green Chili", "Brinjal", "Carrot"]
  const Fruits := ["Apple", "Banana", "Orange", "Mango"]
  const Grains := ["Rice", "Wheat", "Millet"]
  const CashCrops := ["Cotton", "Sugarcane", "Coffee"]

  /** How many trends each ranked view keeps (`slice(0, 5)`). */
  const TopCount := 5

  /** The three demand tiers; `DemandLabel` gives the string the API returns. */
  datatype Demand = HighDemand | MediumDemand | LowDemand

  function DemandLabel(d: Demand): string
  {
    match d
    case HighDemand => "High Demand"
    case MediumDemand => "Medium Demand"
    case LowDemand => "Low Demand"
  }

  /** The five categories; `CategoryLabel` gives the string the API returns. */
  datatype Category = Vegetable | Fruit | Grain | CashCrop | Other

  function CategoryLabel(c: Category): string
  {
    match c
    case Vegetable => "Vegetable"
    case Fruit => "Fruit"
    case Grain => "Grain"
    case CashCrop => "Cash Crop"
    case Other => "Other"
  }

  datatype CropTrend = CropTrend(
    cropName: string, currentPrice: real, predictedPrice: real, priceChange: real,
    priceChangePercentage: real, category: Category, demand: Demand)

  datatype Report = Report(profitableCrops: seq<CropTrend>, demandableCrops: seq<CropTrend>, allCrops: seq<CropTrend>)

  /** `DivisionByZero`: the oldest price of the crop is zero. `NoRecords`: the
      crop has no records, where the source would read a field of
      `undefined`; the grouping never produces such a crop. */
  datatype TrendError = DivisionByZero(cropName: string) | NoRecords(cropName: string)

  /** Demand tier from the percentage change: both thresholds are exclusive,
      so exactly 15 is Medium and exactly 5 is Low. */
  function DetermineDemand(pct: real): (d: Demand)
    ensures d == HighDemand <==> pct > 15.0
    ensures d == MediumDemand <==> 5.0 < pct <= 15.0
    ensures d == LowDemand <==> pct <= 5.0
  {
    if pct > 15.0 then HighDemand
    else if pct > 5.0 then MediumDemand
    else LowDemand
  }

  /** Category by exact, case-sensitive membership in four fixed tables,
      checked in the order vegetables, fruits, grains, cash crops. */
  function CropCategory(name: string): Category
  {
    if name in Vegetables then Vegetable
    else if name in Fruits then Fruit
    else if name in Grains then Grain
    else if name in CashCrops then CashCrop
    else Other
  }

  /** Each category is exactly membership in its table (the tables are
      disjoint), and a name in none of them is Other. */
  lemma CropCategorySpec(name: string)
    ensures CropCategory(name) == Vegetable <==> name in Vegetables
    ensures CropCategory(name) == Fruit <==> name in Fruits
    ensures CropCategory(name) == Grain <==> name in Grains
    ensures CropCategory(name) == CashCrop <==> name in CashCrops
    ensures CropCategory(name) == Other <==> name !in Vegetables + Fruits + Grains + CashCrops
  {
  }

  /** The keys of the grouping accumulator: every crop name once, in order of first appearance. */
  function CropNames(records: seq<PriceData>): (names: seq<string>)
    ensures forall i, j :: 0 <= i < j < |names| ==> names[i] != names[j]
    ensures forall n :: n in names <==> exists r :: r in records && r.cropName == n
  {
    if records == [] then []
    else
      var init := records[..|records| - 1];
      var last := records[|records| - 1];
      assert records == init + [last];
      var names := CropNames(init);
      if last.cropName in names then names else names + [last.cropName]
  }

  function NameIs(name: string): PriceData -> bool
  {
    (r: PriceData) => r.cropName == name
  }

  /** The records pushed into `acc[name]`, in input order. */
  function GroupOf(records: seq<PriceData>, name: string): seq<PriceData>
  {
    Filter(records, NameIs(name))
  }

  /** The group comparator: by year, then by month. */
  function ByYearMonth(a: PriceData, b: PriceData): real
  {
    if a.year != b.year then (a.year - b.year) as real else (a.month - b.month) as real
  }

  predicate NotAfter(a: PriceData, b: PriceData)
  {
    a.year < b.year || (a.year == b.year && a.month <= b.month)
  }

  lemma ByYearMonthConsistent(s: seq<PriceData>)
    ensures ConsistentOn(s, ByYearMonth)
  {
  }

  lemma ByYearMonthSorted(group: seq<PriceData>)
    ensures forall i, j :: 0 <= i < j < |group| ==> NotAfter(SortBy(group, ByYearMonth)[i], SortBy(group, ByYearMonth)[j])
  {
    ByYearMonthConsistent(group);
    SortByIsSorted(group, ByYearMonth);
  }

  /** The first record of the sorted group: one with the earliest (year, month). */
  function Oldest(group: seq<PriceData>): (o: PriceData)
    requires |group| > 0
    ensures o in group
    ensures forall g :: g in group ==> NotAfter(o, g)
  {
    var sorted := SortBy(group, ByYearMonth);
    ByYearMonthSorted(group);
    assert forall g :: g in group ==> g in multiset(sorted);
    assert sorted[0] in multiset(sorted);
    sorted[0]
  }

  /** The last record of the sorted group: one with the latest (year, month). */
  function Newest(group: seq<PriceData>): (n: PriceData)
    requires |group| > 0
    ensures n in group
    ensures forall g :: g in group ==> NotAfter(g, n)
  {
    var sorted := SortBy(group, ByYearMonth);
    ByYearMonthSorted(group);
    assert forall g :: g in group ==> g in multiset(sorted);
    assert sorted[|sorted| - 1] in multiset(sorted);
    sorted[|sorted| - 1]
  }

  /** The trend of one crop from its records. */
  function TrendOf(name: string, group: seq<PriceData>): Result<CropTrend, TrendError>
  {
    if group == [] then Failure(NoRecords(name))
    else
      var oldest := Oldest(group).price;
      var newest := Newest(group).price;
      if oldest == 0.0 then Failure(DivisionByZero(name))
      else
        var change := newest - oldest;
        var pct := change / oldest * 100.0;
        Success(CropTrend(name, newest, newest * (1.0 + pct / 100.0), change, pct, CropCategory(name), DetermineDemand(pct)))
  }

  /** A crop's trend compares its newest price with its oldest one: it fails
      exactly when the oldest price is zero; otherwise the current price is
      the newest price, the percentage is the change relative to the oldest
      price, and the projection equals newest * newest / oldest. */
  lemma TrendOfSpec(name: string, group: seq<PriceData>)
    requires |group| > 0
    ensures var r := TrendOf(name, group);
      && (r.Failure? <==> Oldest(group).price == 0.0)
      && (r.Failure? ==> r.error == DivisionByZero(name))
      && (r.Success? ==>
        var o, n := Oldest(group).price, Newest(group).price;
        && r.value.cropName == name
        && r.value.currentPrice == n
        && r.value.priceChange == n - o
        && r.value.priceChangePercentage * o == (n - o) * 100.0
        && r.value.predictedPrice * o == n * n
        && r.value.category == CropCategory(name)
        && r.value.demand == DetermineDemand(r.value.priceChangePercentage))
  {
    var o, n := Oldest(group).price, Newest(group).price;
    if o != 0.0 {
      var q := (n - o) / o;
      assert q * o == n - o;
      var pct := (n - o) / o * 100.0;
      assert pct / 100.0 == q;
      var predicted := n * (1.0 + pct / 100.0);
      calc {
        predicted * o;
        n * (o + q * o);
        n * n;
      }
    }
  }

  /** With a positive oldest price, the percentage has the sign of the change. */
  lemma PercentageSign(name: string, group: seq<PriceData>)
    requires |group| > 0 && Oldest(group).price > 0.0
    ensures TrendOf(name, group).Success?
    ensures var t := TrendOf(name, group).value;
      && (t.priceChangePercentage > 0.0 <==> t.priceChange > 0.0)
      && (t.priceChangePercentage < 0.0 <==> t.priceChange < 0.0)
  {
    var o := Oldest(group).price;
    assert TrendOf(name, group).Success? && TrendOf(name, group).value.priceChangePercentage * o == TrendOf(name, group).value.priceChange * 100.0 by {
      TrendOfSpec(name, group);
    }
    var t := TrendOf(name, group).value;
    ScaledSign(t.priceChangePercentage, t.priceChange, o);
  }

  /** p * o == c * 100 with o positive: p and c have the same sign. */
  lemma ScaledSign(p: real, c: real, o: real)
    requires o > 0.0 && p * o == c * 100.0
    ensures p > 0.0 <==> c > 0.0
    ensures p < 0.0 <==> c < 0.0
  {
    if p > 0.0 {
      assert p * o > 0.0;
    } else if p < 0.0 {
      assert p * o < 0.0;
    }
  }

  /** A crop with a single record has no change: the projection is its price and demand is Low. */
  lemma SingleRecordTrend(name: string, rec: PriceData)
    requires rec.price != 0.0
    ensures TrendOf(name, [rec]) == Success(CropTrend(name, rec.price, rec.price, 0.0, 0.0, CropCategory(name), LowDemand))
  {
  }

  /** The trend of each crop, computed from that crop's records. */
  function TrendIn(records: seq<PriceData>): string -> Result<CropTrend, TrendError>
  {
    name => TrendOf(name, GroupOf(records, name))
  }

  /** The profit comparator: descending percentage. */
  function ByProfit(a: CropTrend, b: CropTrend): real
  {
    b.priceChangePercentage - a.priceChangePercentage
  }

  /** The demand comparator as written: "High Demand" first and, within a
      tier, descending percentage; but for two different tiers neither of
      which is High it answers 1 both ways, so it does not order Medium
      before Low. */
  function ByDemandAsWritten(a: CropTrend, b: CropTrend): real
  {
    if a.demand != b.demand then (if a.demand == HighDemand then -1.0 else 1.0)
    else b.priceChangePercentage - a.priceChangePercentage
  }

  function Top<T>(s: seq<T>): seq<T>
  {
    s[..Min(TopCount, |s|)]
  }

  /** The three views built from the per-crop list. */
  function Rank(all: seq<CropTrend>): Report
  {
    Report(Top(EngineSort(all, ByProfit)), Top(EngineSort(all, ByDemandAsWritten)), all)
  }

  function ProcessPriceData(records: seq<PriceData>): Result<Report, TrendError>
  {
    match Collect(CropNames(records), TrendIn(records))
    case Failure(e) => Failure(e)
    case Success(all) => Success(Rank(all))
  }

  /** Every name the grouping produces has at least one record. */
  lemma GroupNonEmpty(records: seq<PriceData>, name: string)
    requires name in CropNames(records)
    ensures |GroupOf(records, name)| > 0
  {
    var r :| r in records && r.cropName == name;
    var i :| 0 <= i < |records| && records[i] == r;
    assert NameIs(name)(records[i]);
  }

  /** `allCrops` holds one trend per distinct crop name of the input, in order
      of first appearance, each computed from that crop's records; the
      computation fails, naming the crop, exactly when some crop's oldest
      price is zero. */
  lemma ProcessPriceDataAllCrops(records: seq<PriceData>)
    ensures var r := ProcessPriceData(records);
      r.Failure? ==>
        var n := r.error.cropName;
        && r.error == DivisionByZero(n) && n in CropNames(records)
        && |GroupOf(records, n)| > 0 && Oldest(GroupOf(records, n)).price == 0.0
    ensures var r := ProcessPriceData(records);
      r.Success? ==> |r.value.allCrops| == |CropNames(records)|
    ensures var r := ProcessPriceData(records);
      var names := CropNames(records);
      r.Success? ==> forall i :: 0 <= i < |names| ==>
        && r.value.allCrops[i].cropName == names[i]
        && |GroupOf(records, names[i])| > 0
        && Oldest(GroupOf(records, names[i])).price != 0.0
        && TrendOf(names[i], GroupOf(records, names[i])) == Success(r.value.allCrops[i])
  {
    var names := CropNames(records);
    var c := Collect(names, TrendIn(records));
    if c.Success? {
      assert ProcessPriceData(records) == Success(Rank(c.value));
      forall i | 0 <= i < |names|
        ensures c.value[i].cropName == names[i]
        ensures |GroupOf(records, names[i])| > 0
        ensures Oldest(GroupOf(records, names[i])).price != 0.0
        ensures TrendOf(names[i], GroupOf(records, names[i])) == Success(c.value[i])
      {
        TrendInSucceeds(records, names[i], c.value[i]);
      }
    } else {
      assert ProcessPriceData(records) == Failure(c.error);
      var i :| 0 <= i < |names| && TrendIn(records)(names[i]) == Failure(c.error);
      TrendInFails(records, names[i], c.error);
    }
  }

  lemma TrendInSucceeds(records: seq<PriceData>, name: string, t: CropTrend)
    requires name in CropNames(records) && TrendIn(records)(name) == Success(t)
    ensures t.cropName == name && |GroupOf(records, name)| > 0
    ensures Oldest(GroupOf(records, name)).price != 0.0
    ensures TrendOf(name, GroupOf(records, name)) == Success(t)
  {
    GroupNonEmpty(records, name);
  }

  lemma TrendInFails(records: seq<PriceData>, name: string, e: TrendError)
    requires name in CropNames(records) && TrendIn(records)(name) == Failure(e)
    ensures e == DivisionByZero(name) && |GroupOf(records, name)| > 0
    ensures Oldest(GroupOf(records, name)).price == 0.0
  {
    GroupNonEmpty(records, name);
  }

  lemma ByProfitConsistent(s: seq<CropTrend>)
    ensures ConsistentOn(s, ByProfit)
  {
  }

  /** `profitableCrops` is the full list sorted by non-increasing percentage
      and cut to min(5, n): every crop left out has a percentage no higher
      than any crop kept. */
  lemma ProfitableCropsRanked(all: seq<CropTrend>)
    ensures var p := Rank(all).profitableCrops;
      && |p| == Min(5, |all|)
      && multiset(p) <= multiset(all)
      && (forall i, j :: 0 <= i < j < |p| ==> p[i].priceChangePercentage >= p[j].priceChangePercentage)
      && (forall x, y :: x in p && y in multiset(all) - multiset(p) ==> y.priceChangePercentage <= x.priceChangePercentage)
  {
    var sorted := EngineSort(all, ByProfit);
    ProfitCompatible(all);
    EngineSortOrdered(all, ByProfit, ProfitAhead);
    TopOfOrdered(sorted, all, ProfitAhead, Min(5, |all|));
  }

  /** `b` may stand after `a` in a profit ranking. */
  predicate ProfitAhead(a: CropTrend, b: CropTrend)
  {
    a.priceChangePercentage >= b.priceChangePercentage
  }

  /** Every order the profit comparator allows keeps the higher percentage
      first, and that relation is transitive. */
  lemma ProfitCompatible(s: seq<CropTrend>)
    ensures Compatible(s, ByProfit, ProfitAhead)
    ensures TransitiveOn(s, ProfitAhead)
  {
  }

  /** `b` may stand after `a` as the as-written comparator can promise: a
      High-demand crop only stands after another High-demand crop with at
      least its percentage. */
  predicate HighAhead(a: CropTrend, b: CropTrend)
  {
    b.demand == HighDemand ==> a.demand == HighDemand && a.priceChangePercentage >= b.priceChangePercentage
  }

  /** High-demand crops first, in non-increasing percentage. */
  ghost predicate HighFirst(r: seq<CropTrend>)
  {
    OrderedBy(r, HighAhead)
  }

  /** Whichever order the as-written comparator lets two crops take keeps a
      High-demand crop ahead of any other and the higher percentage ahead
      among High-demand crops. */
  lemma AsWrittenCompatible(s: seq<CropTrend>)
    ensures Compatible(s, ByDemandAsWritten, HighAhead)
    ensures TransitiveOn(s, HighAhead)
  {
  }

  /** However the engine resolves the comparator's contradictions, the sorted
      list has its High-demand crops first, in non-increasing percentage. */
  lemma EngineSortHighFirst(s: seq<CropTrend>)
    ensures HighFirst(EngineSort(s, ByDemandAsWritten))
  {
    AsWrittenCompatible(s);
    EngineSortOrdered(s, ByDemandAsWritten, HighAhead);
  }

  /** `demandableCrops` has min(5, n) crops drawn from the full list, its
      High-demand crops first in non-increasing percentage, and no
      High-demand crop left out that ranks above a kept crop. The order
      among Medium- and Low-demand crops is the engine's. */
  lemma DemandableCropsRanked(all: seq<CropTrend>)
    ensures var d := Rank(all).demandableCrops;
      && |d| == Min(5, |all|)
      && multiset(d) <= multiset(all)
      && HighFirst(d)
      && forall x, y :: x in d && y in multiset(all) - multiset(d) ==> HighAhead(x, y)
  {
    EngineSortHighFirst(all);
    TopOfOrdered(EngineSort(all, ByDemandAsWritten), all, HighAhead, Min(5, |all|));
  }

  /** `b` may follow `a` in three-tier order: a High-demand crop only
      follows another one, and within one tier percentages do not increase. */
  predicate MayFollow(a: CropTrend, b: CropTrend)
  {
    && (b.demand == HighDemand ==> a.demand == HighDemand)
    && (a.demand == b.demand ==> a.priceChangePercentage >= b.priceChangePercentage)
  }

  ghost predicate TierOrdered(r: seq<CropTrend>)
  {
    forall i, j :: 0 <= i < j < |r| ==> MayFollow(r[i], r[j])
  }

  /** Under the as-written comparator a Low-demand crop listed before a
      Medium-demand one stays in front of it, although its percentage is
      lower: the comparator answers 1 for both orders of the pair. */
  lemma DemandComparatorCounterexample()
    ensures var low := CropTrend("Rice", 100.0, 100.0, 0.0, 0.0, Grain, LowDemand);
      var medium := CropTrend("Onion", 110.0, 121.0, 10.0, 10.0, Vegetable, MediumDemand);
      && ByDemandAsWritten(low, medium) == 1.0 && ByDemandAsWritten(medium, low) == 1.0
      && EngineSort([low, medium], ByDemandAsWritten) == [low, medium]
      && low.priceChangePercentage < medium.priceChangePercentage
  {
    var low := CropTrend("Rice", 100.0, 100.0, 0.0, 0.0, Grain, LowDemand);
    var medium := CropTrend("Onion", 110.0, 121.0, 10.0, 10.0, Vegetable, MediumDemand);
    var s := [low, medium];
    assert RunEnd(s, ByDemandAsWritten, false, 2) == 2;
    assert s[..2] == s && s[2..] == [];
  }

  /** A Low-demand crop between two Medium-demand ones splits their tier:
      the engine finds one ascending run through all three and leaves them
      as they are, the Medium crop at 6 % ahead of the one at 8 %. */
  lemma DemandTierSplit()
    ensures var m6 := CropTrend("Onion", 100.0, 106.0, 6.0, 6.0, Vegetable, MediumDemand);
      var l0 := CropTrend("Rice", 100.0, 100.0, 0.0, 0.0, Grain, LowDemand);
      var m8 := CropTrend("Potato", 100.0, 108.0, 8.0, 8.0, Vegetable, MediumDemand);
      && m6.demand == DetermineDemand(m6.priceChangePercentage)
      && l0.demand == DetermineDemand(l0.priceChangePercentage)
      && m8.demand == DetermineDemand(m8.priceChangePercentage)
      && EngineSort([m6, l0, m8], ByDemandAsWritten) == [m6, l0, m8]
      && !TierOrdered([m6, l0, m8])
  {
    var m6 := CropTrend("Onion", 100.0, 106.0, 6.0, 6.0, Vegetable, MediumDemand);
    var l0 := CropTrend("Rice", 100.0, 100.0, 0.0, 0.0, Grain, LowDemand);
    var m8 := CropTrend("Potato", 100.0, 108.0, 8.0, 8.0, Vegetable, MediumDemand);
    var s := [m6, l0, m8];
    assert ByDemandAsWritten(l0, m6) == 1.0 && ByDemandAsWritten(m8, l0) == 1.0;
    assert RunEnd(s, ByDemandAsWritten, false, 3) == 3;
    assert RunEnd(s, ByDemandAsWritten, false, 2) == 3;
    assert s[..3] == s && s[3..] == [];
    assert FrontRun(s, ByDemandAsWritten) == s;
    assert EngineSort(s, ByDemandAsWritten) == BinaryInsertAll(s, [], ByDemandAsWritten);
    assert !MayFollow(s[0], s[2]);
  }

  /** Position of a demand tier: High, then Medium, then Low. */
  function DemandRank(demand: Demand): int
  {
    match demand
    case HighDemand => 0
    case MediumDemand => 1
    case LowDemand => 2
  }

  /** The three-tier demand comparator that the ranking evidently intends:
      by tier rank, then by descending percentage. */
  function ByDemandTier(a: CropTrend, b: CropTrend): real
  {
    if DemandRank(a.demand) != DemandRank(b.demand) then (DemandRank(a.demand) - DemandRank(b.demand)) as real
    else b.priceChangePercentage - a.priceChangePercentage
  }

  lemma ByDemandTierConsistent(s: seq<CropTrend>)
    ensures ConsistentOn(s, ByDemandTier)
  {
  }

  /** Every trend carries the demand its own percentage determines. */
  ghost predicate DemandsMatch(all: seq<CropTrend>)
  {
    forall t :: t in all ==> t.demand == DetermineDemand(t.priceChangePercentage)
  }

  /** Two trends in three-tier order whose demands match their percentages
      are in non-increasing percentage order. */
  lemma TierOrderMonotone(a: CropTrend, b: CropTrend)
    requires a.demand == DetermineDemand(a.priceChangePercentage)
    requires b.demand == DetermineDemand(b.priceChangePercentage)
    requires ByDemandTier(b, a) >= 0.0
    ensures DemandRank(a.demand) <= DemandRank(b.demand)
    ensures a.priceChangePercentage >= b.priceChangePercentage
  {
  }

  /** Sorting by the three-tier comparator puts High before Medium before Low
      and, because the tier is monotone in the percentage, the result is also
      non-increasing in percentage. */
  lemma DemandTierSorted(all: seq<CropTrend>)
    requires DemandsMatch(all)
    ensures var d := SortBy(all, ByDemandTier);
      && (forall i, j :: 0 <= i < j < |d| ==> DemandRank(d[i].demand) <= DemandRank(d[j].demand))
      && (forall i, j :: 0 <= i < j < |d| ==> d[i].priceChangePercentage >= d[j].priceChangePercentage)
  {
    var d := SortBy(all, ByDemandTier);
    ByDemandTierConsistent(all);
    SortByIsSorted(all, ByDemandTier);
    forall t | t in d ensures t.demand == DetermineDemand(t.priceChangePercentage) {
      assert t in multiset(all);
    }
    SortedTiersMonotone(d);
  }

  lemma SortedTiersMonotone(d: seq<CropTrend>)
    requires SortedBy(d, ByDemandTier) && DemandsMatch(d)
    ensures forall i, j :: 0 <= i < j < |d| ==> DemandRank(d[i].demand) <= DemandRank(d[j].demand)
    ensures forall i, j :: 0 <= i < j < |d| ==> d[i].priceChangePercentage >= d[j].priceChangePercentage
  {
    forall i, j | 0 <= i < j < |d|
      ensures DemandRank(d[i].demand) <= DemandRank(d[j].demand)
      ensures d[i].priceChangePercentage >= d[j].priceChangePercentage
    {
      TierOrderMonotone(d[i], d[j]);
    }
  }

  /** The documented example: Tomato at 65.00 in January 2021 and 85.00 in
      June 2023 gives a change of 20, about 30.77 percent, a projection of
      85 * 85 / 65 (about 111.15), High demand and the Vegetable category. */
  lemma TomatoScenario()
    ensures var recs := [PriceData(1, "Tomato", 1, 2021, 18.2, 113.4, 65.0), PriceData(2, "Tomato", 6, 2023, 190.5, 125.1, 85.0)];
      var r := ProcessPriceData(recs);
      && r.Success?
      && r.value.allCrops == [CropTrend("Tomato", 85.0, 7225.0 / 65.0, 20.0, 2000.0 / 65.0, Vegetable, HighDemand)]
  {
    var a := PriceData(1, "Tomato", 1, 2021, 18.2, 113.4, 65.0);
    var b := PriceData(2, "Tomato", 6, 2023, 190.5, 125.1, 85.0);
    var recs := [a, b];
    var expected := CropTrend("Tomato", 85.0, 7225.0 / 65.0, 20.0, 2000.0 / 65.0, Vegetable, HighDemand);
    TomatoNames(a, b);
    TomatoGroup(a, b);
    TomatoTrend(a, b);
    var c := Collect(["Tomato"], TrendIn(recs));
    assert TrendIn(recs)(["Tomato"][0]) == Success(expected);
    assert c.Success? && |c.value| == 1;
    assert c.value == [expected];
  }

  lemma TomatoTrend(a: PriceData, b: PriceData)
    requires a == PriceData(1, "Tomato", 1, 2021, 18.2, 113.4, 65.0)
    requires b == PriceData(2, "Tomato", 6, 2023, 190.5, 125.1, 85.0)
    ensures TrendOf("Tomato", [a, b]) == Success(CropTrend("Tomato", 85.0, 7225.0 / 65.0, 20.0, 2000.0 / 65.0, Vegetable, HighDemand))
  {
    assert Oldest([a, b]).price == 65.0 by {
      assert NotAfter(Oldest([a, b]), a);
    }
    assert Newest([a, b]).price == 85.0 by {
      assert NotAfter(b, Newest([a, b]));
    }
    assert CropCategory("Tomato") == Vegetable by {
      assert "Tomato" == Vegetables[0];
    }
    assert DetermineDemand(20.0 / 65.0 * 100.0) == HighDemand;
  }

  lemma TomatoNames(a: PriceData, b: PriceData)
    requires a.cropName == "Tomato" && b.cropName == "Tomato"
    ensures CropNames([a, b]) == ["Tomato"]
  {
    assert [a, b][..1] == [a];
    assert [a][..0] == [];
    assert CropNames([a]) == ["Tomato"];
  }

  lemma TomatoGroup(a: PriceData, b: PriceData)
    requires a.cropName == "Tomato" && b.cropName == "Tomato"
    ensures GroupOf([a, b], "Tomato") == [a, b]
  {
    var keep := NameIs("Tomato");
    assert keep(a) && keep(b);
    assert [a, b][1..] == [b];
    assert [b][1..] == [];
    assert Filter([b], keep) == [b];
  }
}
