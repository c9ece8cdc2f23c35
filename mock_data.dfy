/** The seed price records of the in-memory store (`generateCropPriceData`
    and `mockPriceData` in server/models/mockData.ts). The seasonal sine,
    the random factor and the rainfall curve are numerics and randomness:
    they come in as functions. The seasonal factor and the rainfall depend on
    the month alone; the random factor is drawn afresh for every record, so
    it is a function of the crop, the year and the month, and no two records
    need share a draw. */
module MockData {
  import opened Schema
  import opened SeedCalendar

  /** `basePrice * yearFactor * seasonalFactor * randomFactor`, with
      `yearFactor = 1 + (year - 2018) * yearlyIncrease / 100`. */
  function SeedPrice(cropName: string, basePrice: real, yearlyIncrease: real, year: int, month: int,
                     seasonal: int -> real, noise: (string, int, int) -> real): real
  {
    basePrice * (1.0 + (year - FirstYear) as real * yearlyIncrease / 100.0) * seasonal(month) * noise(cropName, year, month)
  }

  /** The record pushed for the i-th emitted month. */
  function SeedRecord(cropName: string, basePrice: real, yearlyIncrease: real,
                      seasonal: int -> real, noise: (string, int, int) -> real, rainfall: int -> real, i: nat): PriceData
  {
    var year, month := SeedYear(i), SeedMonth(i);
    PriceData(i + 1, cropName, month, year, rainfall(month), Wpi(year, month),
              SeedPrice(cropName, basePrice, yearlyIncrease, year, month, seasonal, noise))
  }

  /** One record per month from January 2018 to June 2023, ids counting from 1. */
  method GenerateCropPriceData(cropName: string, basePrice: real, yearlyIncrease: real,
                               seasonal: int -> real, noise: (string, int, int) -> real, rainfall: int -> real)
    returns (data: seq<PriceData>)
    ensures |data| == SeedLength
    ensures forall i :: 0 <= i < SeedLength ==>
      data[i] == SeedRecord(cropName, basePrice, yearlyIncrease, seasonal, noise, rainfall, i)
  {
    data := [];
    var id := 1;
    for year := FirstYear to LastYear + 1
      invariant |data| == Emitted(year, 1) && id == |data| + 1
      invariant forall i :: 0 <= i < |data| ==>
        data[i] == SeedRecord(cropName, basePrice, yearlyIncrease, seasonal, noise, rainfall, i)
    {
      for month := 1 to 13
        invariant |data| == Emitted(year, month) && id == |data| + 1
        invariant forall i :: 0 <= i < |data| ==>
          data[i] == SeedRecord(cropName, basePrice, yearlyIncrease, seasonal, noise, rainfall, i)
      {
        if year == LastYear && month > LastMonth {
          continue;
        }
        var yearFactor := 1.0 + (year - FirstYear) as real * yearlyIncrease / 100.0;
        var price := basePrice * yearFactor * seasonal(month) * noise(cropName, year, month);
        var wpi := 100.0 + ((year - FirstYear) * 5) as real + month as real * 0.2;
        EmittedPosition(year, month);
        data := data + [PriceData(id, cropName, month, year, rainfall(month), wpi, price)];
        id := id + 1;
      }
    }
  }

  /** The generated records carry the crop name, ids 1..66 in order, a month
      in 1..12 and a year in 2018..2023, the index formula, and strictly
      increasing (year, month). */
  lemma SeedRecordsShape(cropName: string, basePrice: real, yearlyIncrease: real,
                         seasonal: int -> real, noise: (string, int, int) -> real, rainfall: int -> real, i: nat, j: nat)
    requires i < j < SeedLength
    ensures var a := SeedRecord(cropName, basePrice, yearlyIncrease, seasonal, noise, rainfall, i);
      var b := SeedRecord(cropName, basePrice, yearlyIncrease, seasonal, noise, rainfall, j);
      && a.cropName == cropName && a.id == i + 1 && b.id == j + 1
      && 1 <= a.month <= 12 && FirstYear <= a.year <= LastYear
      && a.wpi == 100.0 + ((a.year - FirstYear) * 5) as real + a.month as real * 0.2
      && (a.year < b.year || (a.year == b.year && a.month < b.month))
  {
    SeedWalk(i);
    SeedAscending(i, j);
  }

  /** The seven seeded crops with their base price and yearly increase. */
  const MockCrops: seq<(string, real, real)> := [
    ("Tomato", 50.0, 5.0), ("Onion", 40.0, 4.0), ("Rice", 35.0, 2.0), ("Potato", 20.0, 3.0),
    ("Cotton", 5000.0, 250.0), ("Green Chili", 70.0, 6.0), ("Brinjal", 30.0, 3.0)]

  /** The seven generated series laid end to end: 462 records, the k-th
      being record k mod 66 of crop k div 66, so that every id from 1 to 66
      occurs once per crop. */
  method MockPriceData(seasonal: int -> real, noise: (string, int, int) -> real, rainfall: int -> real)
    returns (data: seq<PriceData>)
    ensures |data| == |MockCrops| * SeedLength == 462
    ensures forall k :: 0 <= k < |data| ==>
      var crop := MockCrops[k / SeedLength];
      data[k] == SeedRecord(crop.0, crop.1, crop.2, seasonal, noise, rainfall, k % SeedLength)
    ensures forall k :: 0 <= k < |data| ==> data[k].id == k % SeedLength + 1
  {
    data := [];
    for c := 0 to |MockCrops|
      invariant |data| == c * SeedLength
      invariant forall k :: 0 <= k < |data| ==>
        var crop := MockCrops[k / SeedLength];
        data[k] == SeedRecord(crop.0, crop.1, crop.2, seasonal, noise, rainfall, k % SeedLength)
    {
      var series := GenerateCropPriceData(MockCrops[c].0, MockCrops[c].1, MockCrops[c].2, seasonal, noise, rainfall);
      forall k | c * SeedLength <= k < c * SeedLength + SeedLength
        ensures k / SeedLength == c && k % SeedLength == k - c * SeedLength
      {
        BlockPosition(c, k);
      }
      data := data + series;
    }
  }

  lemma BlockPosition(c: nat, k: int)
    requires c * SeedLength <= k < c * SeedLength + SeedLength
    ensures k / SeedLength == c && k % SeedLength == k - c * SeedLength
  {
    var r := k - c * SeedLength;
    assert k == SeedLength * c + r && 0 <= r < SeedLength;
  }
}
