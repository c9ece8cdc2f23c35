/** The price-prediction script (server/services/pythonScripts/price_prediction.py):
    a seed history of 66 months for seven crops, a per-crop projection over
    the next months, the change measured against each crop's latest price,
    and the profit and three-tier demand rankings.

    The random price draws, the rainfall curve and the fitted model (a random
    forest averaged over the projected months) come in as functions; what is
    modelled is the arithmetic around them. */
module PricePredictionScript {
  import opened Common
  import opened Sorting
  import opened SeedCalendar
  import opened PriceTrend
  import opened PriceDocs

  /** The crops of the seed history, Tomato first, then the list of the second loop. */
  const ScriptCrops := ["Tomato", "Onion", "Rice", "Potato", "Cotton", "Green Chili", "Brinjal"]

  /** Cotton prices are per quintal: its drawn price is multiplied by 100. */
  function ScaledPrice(crop: string, drawn: real): real
  {
    if crop == "Cotton" then drawn * 100.0 else drawn
  }

  /** The rainfall estimate, replaced by 5 when negative. */
  function ClampRainfall(r: real): (c: real)
    ensures c >= 0.0
    ensures r >= 0.0 ==> c == r
  {
    if r < 0.0 then 5.0 else r
  }

  /** The row appended for the i-th emitted month of a crop. */
  function HistoricalRow(crop: string, i: nat, draw: (string, int, int) -> real, rainfall: int -> real): PriceDoc
  {
    var year, month := SeedYear(i), SeedMonth(i);
    PriceDoc(crop, month, year, ClampRainfall(rainfall(month)), Wpi(year, month), ScaledPrice(crop, draw(crop, year, month)))
  }

  /** All 66 rows of one crop. */
  function CropRows(crop: string, draw: (string, int, int) -> real, rainfall: int -> real): (rows: seq<PriceDoc>)
    ensures |rows| == SeedLength
  {
    seq(SeedLength, i requires 0 <= i < SeedLength => HistoricalRow(crop, i, draw, rainfall))
  }

  /** The rows of the given crops, crop after crop. */
  function History(crops: seq<string>, draw: (string, int, int) -> real, rainfall: int -> real): (h: seq<PriceDoc>)
    ensures |h| == |crops| * SeedLength
  {
    if crops == [] then []
    else History(crops[..|crops| - 1], draw, rainfall) + CropRows(crops[|crops| - 1], draw, rainfall)
  }

  /** The year and month loops for one crop, skipping the months after June 2023. */
  method AppendCropRows(data: seq<PriceDoc>, crop: string, draw: (string, int, int) -> real, rainfall: int -> real)
    returns (out: seq<PriceDoc>)
    ensures out == data + CropRows(crop, draw, rainfall)
  {
    out := data;
    for year := FirstYear to LastYear + 1
      invariant |out| == |data| + Emitted(year, 1)
      invariant out[..|data|] == data
      invariant forall i :: 0 <= i < |out| - |data| ==> out[|data| + i] == HistoricalRow(crop, i, draw, rainfall)
    {
      for month := 1 to 13
        invariant |out| == |data| + Emitted(year, month)
        invariant out[..|data|] == data
        invariant forall i :: 0 <= i < |out| - |data| ==> out[|data| + i] == HistoricalRow(crop, i, draw, rainfall)
      {
        if year == LastYear && month > LastMonth {
          continue;
        }
        var price := draw(crop, year, month);
        if crop == "Cotton" {
          price := price * 100.0;
        }
        var rain := rainfall(month);
        if rain < 0.0 {
          rain := 5.0;
        }
        var wpi := 100.0 + ((year - FirstYear) * 5) as real + month as real * 0.2;
        EmittedPosition(year, month);
        out := out + [PriceDoc(crop, month, year, rain, wpi, price)];
      }
    }
    assert out == data + CropRows(crop, draw, rainfall);
  }

  /** `load_historical_data`: 66 rows for each of the seven crops. */
  method LoadHistoricalData(draw: (string, int, int) -> real, rainfall: int -> real) returns (data: seq<PriceDoc>)
    ensures data == History(ScriptCrops, draw, rainfall)
    ensures |data| == 462
  {
    data := [];
    for k := 0 to |ScriptCrops|
      invariant data == History(ScriptCrops[..k], draw, rainfall)
    {
      data := AppendCropRows(data, ScriptCrops[k], draw, rainfall);
      assert ScriptCrops[..k + 1][..k] == ScriptCrops[..k];
    }
    assert ScriptCrops[..|ScriptCrops|] == ScriptCrops;
  }

  lemma CropRowsNamed(crop: string, name: string, draw: (string, int, int) -> real, rainfall: int -> real)
    ensures DocsOf(CropRows(crop, draw, rainfall), name) == if crop == name then CropRows(crop, draw, rainfall) else []
  {
    var rows := CropRows(crop, draw, rainfall);
    if crop == name {
      FilterAll(rows, CropNameIs(name));
    } else {
      FilterNone(rows, CropNameIs(name));
    }
  }

  /** Appending a crop's rows to a history adds its rows to that crop's group and nothing to any other. */
  lemma HistoryStep(init: seq<string>, crop: string, name: string, draw: (string, int, int) -> real, rainfall: int -> real)
    ensures DocsOf(History(init + [crop], draw, rainfall), name)
      == DocsOf(History(init, draw, rainfall), name) + (if crop == name then CropRows(crop, draw, rainfall) else [])
  {
    var crops := init + [crop];
    assert crops[..|crops| - 1] == init && crops[|crops| - 1] == crop;
    var before, rows := History(init, draw, rainfall), CropRows(crop, draw, rainfall);
    assert History(crops, draw, rainfall) == before + rows;
    FilterAppend(before, rows, CropNameIs(name));
    CropRowsNamed(crop, name, draw, rainfall);
  }

  /** In a history of distinct crops each crop's rows are exactly its 66
      generated rows, and a name outside the list has none. */
  lemma {:induction false} HistoryGroups(crops: seq<string>, name: string, draw: (string, int, int) -> real, rainfall: int -> real)
    requires forall i, j :: 0 <= i < j < |crops| ==> crops[i] != crops[j]
    ensures name in crops ==> DocsOf(History(crops, draw, rainfall), name) == CropRows(name, draw, rainfall)
    ensures name !in crops ==> DocsOf(History(crops, draw, rainfall), name) == []
  {
    if crops != [] {
      var init, crop := crops[..|crops| - 1], crops[|crops| - 1];
      assert crops == init + [crop];
      assert forall i, j :: 0 <= i < j < |init| ==> init[i] != init[j] by {
        forall i, j | 0 <= i < j < |init| ensures init[i] != init[j] {
          assert init[i] == crops[i] && init[j] == crops[j];
        }
      }
      HistoryGroups(init, name, draw, rainfall);
      HistoryStep(init, crop, name, draw, rainfall);
      if name == crop {
        assert name !in init;
      }
    }
  }

  /** The seven crops of the seed history are distinct, so each one's rows in
      the loaded history are its own 66 rows. */
  lemma SeedHistoryGroups(name: string, draw: (string, int, int) -> real, rainfall: int -> real)
    ensures name in ScriptCrops ==> DocsOf(History(ScriptCrops, draw, rainfall), name) == CropRows(name, draw, rainfall)
    ensures name !in ScriptCrops ==> DocsOf(History(ScriptCrops, draw, rainfall), name) == []
  {
    HistoryGroups(ScriptCrops, name, draw, rainfall);
  }

  /** Consecutive months of the history are consecutive calendar months. */
  lemma CropRowsAscending(crop: string, draw: (string, int, int) -> real, rainfall: int -> real, i: nat, j: nat)
    requires i < j < SeedLength
    ensures var rows := CropRows(crop, draw, rainfall);
      rows[i].year < rows[j].year || (rows[i].year == rows[j].year && rows[i].month < rows[j].month)
  {
    SeedAscending(i, j);
  }

  /** `(latest_month + i) % 12` with 0 read as December. */
  function FutureMonth(latestMonth: int, i: int): (m: int)
    ensures 1 <= m <= 12
  {
    var m := (latestMonth + i) % 12;
    if m == 0 then 12 else m
  }

  /** `latest_year + (latest_month + i - 1) // 12`. */
  function FutureYear(latestYear: int, latestMonth: int, i: int): int
  {
    latestYear + (latestMonth + i - 1) / 12
  }

  /** Months counted from year 0. */
  function MonthNumber(year: int, month: int): int
  {
    year * 12 + month - 1
  }

  /** The i-th projected month is exactly i calendar months after the latest
      one; for i = 1..12 they are the twelve months that follow it. */
  lemma FutureMonthsConsecutive(latestYear: int, latestMonth: int, i: int)
    ensures MonthNumber(FutureYear(latestYear, latestMonth, i), FutureMonth(latestMonth, i))
      == MonthNumber(latestYear, latestMonth) + i
  {
    var t := latestMonth + i - 1;
    assert t == 12 * (t / 12) + t % 12;
    var u := latestMonth + i;
    assert u % 12 == if t % 12 == 11 then 0 else t % 12 + 1 by {
      assert u == 12 * (t / 12) + (t % 12 + 1);
      if t % 12 == 11 {
        assert u == 12 * (t / 12 + 1);
      }
    }
  }

  /** One row of projected features. */
  datatype FutureRow = FutureRow(month: int, year: int, rainfall: real, wpi: real)

  /** The i-th projected row: the month and year arithmetic, the rainfall
      estimate for that month, and the WPI moved by 5 a year and 0.2 a month. */
  function FutureRowAt(latest: PriceDoc, i: int, rainfall: int -> real): FutureRow
  {
    var m := FutureMonth(latest.month, i);
    var y := FutureYear(latest.year, latest.month, i);
    FutureRow(m, y, ClampRainfall(rainfall(m)), latest.wpi + ((y - latest.year) * 5) as real + (m - latest.month) as real * 0.2)
  }

  /** The projected WPI follows the seed formula whenever the latest row does. */
  lemma FutureWpiFollowsSeed(latest: PriceDoc, i: int, rainfall: int -> real)
    requires latest.wpi == Wpi(latest.year, latest.month)
    ensures var row := FutureRowAt(latest, i, rainfall);
      row.wpi == Wpi(row.year, row.month)
  {
  }

  function FutureRows(latest: PriceDoc, n: nat, rainfall: int -> real): (rows: seq<FutureRow>)
    ensures |rows| == n
  {
    seq(n, k requires 0 <= k < n => FutureRowAt(latest, k + 1, rainfall))
  }

  /** The loop over i = 1..predict_months that builds `future_data`. */
  method FutureFeatures(latest: PriceDoc, predictMonths: nat, rainfall: int -> real) returns (rows: seq<FutureRow>)
    ensures rows == FutureRows(latest, predictMonths, rainfall)
  {
    rows := [];
    for i := 1 to predictMonths + 1
      invariant |rows| == i - 1
      invariant forall k :: 0 <= k < i - 1 ==> rows[k] == FutureRowAt(latest, k + 1, rainfall)
    {
      var futureMonth := (latest.month + i) % 12;
      if futureMonth == 0 {
        futureMonth := 12;
      }
      var futureYear := latest.year + (latest.month + i - 1) / 12;
      var futureRainfall := rainfall(futureMonth);
      if futureRainfall < 0.0 {
        futureRainfall := 5.0;
      }
      var futureWpi := latest.wpi + ((futureYear - latest.year) * 5) as real + (futureMonth - latest.month) as real * 0.2;
      rows := rows + [FutureRow(futureMonth, futureYear, futureRainfall, futureWpi)];
    }
  }

  /** The fitted model: from a crop's rows and the projected rows to the mean
      of its predictions. */
  type Model = (seq<PriceDoc>, seq<FutureRow>) -> real

  /** The trend of one crop measured against its latest price. */
  function TrendVsLatest(name: string, latest: real, next: real): (r: Result<CropTrend, TrendError>)
  {
    if latest == 0.0 then Failure(DivisionByZero(name))
    else
      var change := next - latest;
      var pct := change / latest * 100.0;
      Success(CropTrend(name, latest, next, change, pct, CropCategory(name), DetermineDemand(pct)))
  }

  /** The trend against the latest price fails, naming the crop, exactly
      when that price is zero. */
  lemma TrendVsLatestFails(name: string, latest: real, next: real)
    ensures TrendVsLatest(name, latest, next).Failure? <==> latest == 0.0
    ensures TrendVsLatest(name, latest, next).Failure? ==> TrendVsLatest(name, latest, next).error == DivisionByZero(name)
  {
  }

  /** The change is measured against the latest price, not the oldest: the
      current price is the latest one, the percentage is the change relative
      to it, and with a positive latest price the demand is High exactly when
      the prediction exceeds the latest price by more than 15 percent. */
  lemma TrendVsLatestValue(name: string, latest: real, next: real, t: CropTrend)
    requires TrendVsLatest(name, latest, next) == Success(t)
    ensures t.cropName == name && t.currentPrice == latest && t.predictedPrice == next
    ensures t.priceChange == next - latest
    ensures t.priceChangePercentage * t.currentPrice == t.priceChange * 100.0
    ensures t.category == CropCategory(name)
    ensures t.demand == DetermineDemand(t.priceChangePercentage)
    ensures latest > 0.0 ==> (t.demand == HighDemand <==> next * 100.0 > latest * 115.0)
  {
    var pct := (next - latest) / latest * 100.0;
    assert pct * latest == (next - latest) * 100.0;
    if latest > 0.0 {
      assert pct > 15.0 <==> pct * latest > 15.0 * latest;
    }
  }

  /** The trend of one crop from its rows: the latest row is the last one in
      data order (`iloc[-1]`), not the one with the latest date. */
  function ScriptTrendOf(name: string, rows: seq<PriceDoc>, predictMonths: nat, model: Model, rainfall: int -> real)
    : Result<CropTrend, TrendError>
  {
    if rows == [] then Failure(NoRecords(name))
    else
      var latest := rows[|rows| - 1];
      TrendVsLatest(name, latest.price, model(rows, FutureRows(latest, predictMonths, rainfall)))
  }

  function ScriptTrendIn(df: seq<PriceDoc>, predictMonths: nat, model: Model, rainfall: int -> real)
    : string -> Result<CropTrend, TrendError>
  {
    name => ScriptTrendOf(name, DocsOf(df, name), predictMonths, model, rainfall)
  }

  /** The script's ranking: `sorted` by descending percentage (stable, so
      `reverse=True` keeps ties in input order), and by the key
      (tier, -percentage). */
  function ScriptRank(all: seq<CropTrend>): Report
  {
    Report(Top(SortBy(all, ByProfit)), Top(SortBy(all, ByDemandTier)), all)
  }

  /** What `predict_crop_prices` returns. */
  function ScriptReport(df: seq<PriceDoc>, predictMonths: nat, model: Model, rainfall: int -> real): Result<Report, TrendError>
  {
    match Collect(DocNames(df), ScriptTrendIn(df, predictMonths, model, rainfall))
    case Failure(e) => Failure(e)
    case Success(all) => Success(ScriptRank(all))
  }

  /** The trend the script computes for a crop that occurs in the data. */
  lemma ScriptTrendInAt(df: seq<PriceDoc>, predictMonths: nat, model: Model, rainfall: int -> real, name: string)
    requires name in DocNames(df)
    ensures |DocsOf(df, name)| > 0
    ensures var rows := DocsOf(df, name);
      var latest := rows[|rows| - 1];
      ScriptTrendIn(df, predictMonths, model, rainfall)(name)
        == TrendVsLatest(name, latest.price, model(rows, FutureRows(latest, predictMonths, rainfall)))
  {
    DocNamesSpec(df);
  }

  /** The body of the loop for one crop: its rows, the latest row, the
      projected features, the model's mean prediction and the trend. */
  method PredictCrop(df: seq<PriceDoc>, predictMonths: nat, model: Model, rainfall: int -> real, crop: string)
    returns (t: Result<CropTrend, TrendError>)
    requires crop in DocNames(df)
    ensures t == ScriptTrendIn(df, predictMonths, model, rainfall)(crop)
  {
    var cropData := DocsOf(df, crop);
    assert |cropData| > 0 by {
      DocNamesSpec(df);
    }
    var latest := cropData[|cropData| - 1];
    var futureData := FutureFeatures(latest, predictMonths, rainfall);
    var next := model(cropData, futureData);
    t := TrendVsLatest(crop, latest.price, next);
  }

  /** `predict_crop_prices`: one pass over the crops in order of first
      appearance, appending each crop's trend. */
  method PredictCropPrices(df: seq<PriceDoc>, predictMonths: nat, model: Model, rainfall: int -> real)
    returns (r: Result<Report, TrendError>)
    ensures r == ScriptReport(df, predictMonths, model, rainfall)
  {
    var crops := DocNames(df);
    var f := ScriptTrendIn(df, predictMonths, model, rainfall);
    var results: seq<CropTrend> := [];
    for k := 0 to |crops|
      invariant Collect(crops[..k], f) == Success(results)
    {
      var t := PredictCrop(df, predictMonths, model, rainfall, crops[k]);
      if t.Failure? {
        assert Collect(crops, f) == Failure(t.error) by {
          CollectStep(crops, f, k);
        }
        return Failure(t.error);
      }
      assert Collect(crops[..k + 1], f) == Success(results + [t.value]) by {
        CollectStep(crops, f, k);
      }
      results := results + [t.value];
    }
    assert crops[..|crops|] == crops;
    r := Success(ScriptRank(results));
  }

  /** The run fails, naming the crop, only when some crop's last price is zero. */
  lemma ScriptReportFailure(df: seq<PriceDoc>, predictMonths: nat, model: Model, rainfall: int -> real)
    ensures var r := ScriptReport(df, predictMonths, model, rainfall);
      r.Failure? ==>
        var n := r.error.cropName;
        && r.error == DivisionByZero(n) && n in DocNames(df)
        && |DocsOf(df, n)| > 0 && DocsOf(df, n)[|DocsOf(df, n)| - 1].price == 0.0
  {
    var names := DocNames(df);
    var f := ScriptTrendIn(df, predictMonths, model, rainfall);
    var c := Collect(names, f);
    if c.Failure? {
      var i :| 0 <= i < |names| && f(names[i]) == Failure(c.error);
      ScriptTrendFails(df, predictMonths, model, rainfall, names[i], c.error);
    }
  }

  /** `allCrops` has one trend per crop in order of first appearance, each
      the trend from the price of that crop's last row to its projected
      price, and each with the demand its own percentage determines. */
  lemma ScriptReportAllCrops(df: seq<PriceDoc>, predictMonths: nat, model: Model, rainfall: int -> real)
    ensures var r := ScriptReport(df, predictMonths, model, rainfall);
      var names := DocNames(df);
      r.Success? ==>
        && |r.value.allCrops| == |names|
        && DemandsMatch(r.value.allCrops)
        && forall i :: 0 <= i < |names| ==>
          var rows := DocsOf(df, names[i]);
          && |rows| > 0
          && r.value.allCrops[i].cropName == names[i]
          && TrendVsLatest(names[i], rows[|rows| - 1].price, r.value.allCrops[i].predictedPrice) == Success(r.value.allCrops[i])
  {
    var c := Collect(DocNames(df), ScriptTrendIn(df, predictMonths, model, rainfall));
    if c.Success? {
      CollectedTrends(df, predictMonths, model, rainfall, c.value);
    }
  }

  /** The facts of ScriptReportAllCrops about a successful collection. */
  lemma CollectedTrends(df: seq<PriceDoc>, predictMonths: nat, model: Model, rainfall: int -> real, all: seq<CropTrend>)
    requires Collect(DocNames(df), ScriptTrendIn(df, predictMonths, model, rainfall)) == Success(all)
    ensures |all| == |DocNames(df)|
    ensures DemandsMatch(all)
    ensures forall i :: 0 <= i < |all| ==>
      var rows := DocsOf(df, DocNames(df)[i]);
      && |rows| > 0
      && all[i].cropName == DocNames(df)[i]
      && TrendVsLatest(DocNames(df)[i], rows[|rows| - 1].price, all[i].predictedPrice) == Success(all[i])
  {
    var names := DocNames(df);
    forall i | 0 <= i < |names|
      ensures |DocsOf(df, names[i])| > 0
      ensures all[i].cropName == names[i]
      ensures TrendVsLatest(names[i], DocsOf(df, names[i])[|DocsOf(df, names[i])| - 1].price, all[i].predictedPrice) == Success(all[i])
      ensures all[i].demand == DetermineDemand(all[i].priceChangePercentage)
    {
      ScriptTrendSucceeds(df, predictMonths, model, rainfall, names[i], all[i]);
    }
    forall t | t in all ensures t.demand == DetermineDemand(t.priceChangePercentage) {
      var i :| 0 <= i < |all| && all[i] == t;
    }
  }

  /** A crop's trend, when it succeeds, is measured against its last row. */
  lemma ScriptTrendSucceeds(df: seq<PriceDoc>, predictMonths: nat, model: Model, rainfall: int -> real, name: string, t: CropTrend)
    requires name in DocNames(df)
    requires ScriptTrendIn(df, predictMonths, model, rainfall)(name) == Success(t)
    ensures |DocsOf(df, name)| > 0
    ensures t.cropName == name
    ensures TrendVsLatest(name, DocsOf(df, name)[|DocsOf(df, name)| - 1].price, t.predictedPrice) == Success(t)
    ensures t.demand == DetermineDemand(t.priceChangePercentage)
  {
    ScriptTrendInAt(df, predictMonths, model, rainfall, name);
    var rows := DocsOf(df, name);
    var latest := rows[|rows| - 1];
    TrendVsLatestValue(name, latest.price, model(rows, FutureRows(latest, predictMonths, rainfall)), t);
  }

  /** A crop's trend fails only on a zero last price. */
  lemma ScriptTrendFails(df: seq<PriceDoc>, predictMonths: nat, model: Model, rainfall: int -> real, name: string, e: TrendError)
    requires name in DocNames(df)
    requires ScriptTrendIn(df, predictMonths, model, rainfall)(name) == Failure(e)
    ensures e == DivisionByZero(name)
    ensures |DocsOf(df, name)| > 0 && DocsOf(df, name)[|DocsOf(df, name)| - 1].price == 0.0
  {
    ScriptTrendInAt(df, predictMonths, model, rainfall, name);
    var rows := DocsOf(df, name);
    var latest := rows[|rows| - 1];
    TrendVsLatestFails(name, latest.price, model(rows, FutureRows(latest, predictMonths, rainfall)));
  }

  /** The script's profit list holds min(5, n) crops drawn from the full list,
      in non-increasing percentage, and no crop left out has a higher
      percentage than a crop kept. */
  lemma ScriptProfitableRanked(all: seq<CropTrend>)
    ensures var p := ScriptRank(all).profitableCrops;
      && |p| == Min(5, |all|)
      && multiset(p) <= multiset(all)
      && (forall i, j :: 0 <= i < j < |p| ==> p[i].priceChangePercentage >= p[j].priceChangePercentage)
      && (forall x, y :: x in p && y in multiset(all) - multiset(p) ==> y.priceChangePercentage <= x.priceChangePercentage)
  {
    var sorted := SortBy(all, ByProfit);
    SortByProfitOrdered(all);
    TopOfOrdered(sorted, all, ProfitAhead, Min(5, |all|));
  }

  /** The profit sort puts the percentages in non-increasing order. */
  lemma SortByProfitOrdered(all: seq<CropTrend>)
    ensures OrderedBy(SortBy(all, ByProfit), ProfitAhead)
  {
    var r := SortBy(all, ByProfit);
    ByProfitConsistent(all);
    SortByIsSorted(all, ByProfit);
    forall i, j | 0 <= i < j < |r| ensures ProfitAhead(r[i], r[j]) {
      assert ByProfit(r[j], r[i]) >= 0.0;
    }
  }

  /** The script's demand list holds min(5, n) crops drawn from the full list,
      High before Medium before Low and, since the tier is monotone in the
      percentage, in non-increasing percentage; no crop left out has a higher
      percentage than a crop kept. */
  lemma ScriptDemandableRanked(all: seq<CropTrend>)
    requires DemandsMatch(all)
    ensures var d := ScriptRank(all).demandableCrops;
      && |d| == Min(5, |all|)
      && multiset(d) <= multiset(all)
      && (forall i, j :: 0 <= i < j < |d| ==> DemandRank(d[i].demand) <= DemandRank(d[j].demand))
      && (forall i, j :: 0 <= i < j < |d| ==> d[i].priceChangePercentage >= d[j].priceChangePercentage)
      && (forall x, y :: x in d && y in multiset(all) - multiset(d) ==> y.priceChangePercentage <= x.priceChangePercentage)
  {
    var k := Min(5, |all|);
    var d := SortBy(all, ByDemandTier)[..k];
    ByDemandTierConsistent(all);
    SortedTop(all, ByDemandTier, k);
    forall t | t in d ensures t.demand == DetermineDemand(t.priceChangePercentage) {
      assert t in multiset(all);
    }
    SortedTiersMonotone(d);
    forall x, y | x in d && y in multiset(all) - multiset(d)
      ensures y.priceChangePercentage <= x.priceChangePercentage
    {
      assert x in multiset(all) && y in multiset(all);
      TierOrderMonotone(x, y);
    }
  }

  /** The corrected comparator on the pair that the server's comparator
      leaves out of order: the Medium-demand crop now comes first. */
  lemma DemandTierFixesCounterexample()
    ensures var low := CropTrend("Rice", 100.0, 100.0, 0.0, 0.0, Grain, LowDemand);
      var medium := CropTrend("Onion", 110.0, 121.0, 10.0, 10.0, Vegetable, MediumDemand);
      SortBy([low, medium], ByDemandTier) == [medium, low]
  {
    var low := CropTrend("Rice", 100.0, 100.0, 0.0, 0.0, Grain, LowDemand);
    var medium := CropTrend("Onion", 110.0, 121.0, 10.0, 10.0, Vegetable, MediumDemand);
    assert [low, medium][..1] == [low];
    assert SortBy([low], ByDemandTier) == [low] by {
      assert [low][..0] == [];
    }
  }
}
