/** The rule-based crop suggester (server/services/pythonScripts/crop_suggestion.py):
    each of seven crop profiles is scored by seven range checks against the
    farm's conditions, the score picks one of three suitability tiers, and
    the suggestions are ranked by tier and then by profit margin.

    The input is the decoded JSON object: every key may be missing. */
module CropSuggestion {
  import opened Common
  import opened Sorting

  datatype CropProfile = CropProfile(
    name: string, tempMin: real, tempMax: real, rainfallMin: real, rainfallMax: real,
    humidityMin: real, humidityMax: real, windSpeedMin: real, windSpeedMax: real,
    phMin: real, phMax: real, nitrogen: real, phosphorus: real, potassium: real,
    soilTypes: seq<string>, growingDays: int, expectedYield: string, profitMargin: real)

  const AllSoils := ["Red", "Loamy", "Clay", "Black", "Sandy", "Alluvial"]

  /** `load_crop_data`. */
  const Crops := [
    CropProfile("Tomato", 15.0, 35.0, 600.0, 1200.0, 60.0, 80.0, 2.0, 10.0, 5.5, 7.5, 100.0, 80.0, 120.0,
      AllSoils, 90, "25-30 ton/hectare", 22.1),
    CropProfile("Onion", 13.0, 30.0, 500.0, 900.0, 50.0, 70.0, 3.0, 12.0, 6.0, 7.8, 80.0, 60.0, 100.0,
      ["Red", "Alluvial"], 130, "20-25 ton/hectare", 28.5),
    CropProfile("Rice", 20.0, 35.0, 1000.0, 2000.0, 70.0, 90.0, 1.0, 8.0, 5.5, 7.0, 120.0, 60.0, 80.0,
      ["Alluvial", "Clay"], 110, "5-7 ton/hectare", -9.9),
    CropProfile("Potato", 10.0, 25.0, 500.0, 1000.0, 60.0, 80.0, 2.0, 8.0, 5.0, 6.5, 90.0, 120.0, 150.0,
      ["Loamy", "Sandy"], 100, "20-25 ton/hectare", 18.7),
    CropProfile("Cotton", 20.0, 40.0, 600.0, 1200.0, 50.0, 70.0, 3.0, 15.0, 6.0, 8.0, 60.0, 40.0, 80.0,
      ["Black", "Alluvial"], 180, "2-3 ton/hectare", 7.0),
    CropProfile("Green Chili", 18.0, 35.0, 600.0, 1200.0, 65.0, 85.0, 2.0, 10.0, 5.5, 7.0, 110.0, 70.0, 130.0,
      AllSoils, 75, "10-12 ton/hectare", 16.2),
    CropProfile("Brinjal", 17.0, 32.0, 600.0, 1000.0, 60.0, 80.0, 2.0, 10.0, 5.5, 7.5, 100.0, 60.0, 120.0,
      AllSoils, 85, "25-30 ton/hectare", 15.8)
  ]

  /** The keys the scorer reads from the input object. */
  datatype Conditions = Conditions(
    avgTemp: Option<real>, phLevel: Option<real>, soilType: Option<string>, avgWindSpeed: Option<real>,
    nitrogen: Option<real>, phosphorus: Option<real>, potassium: Option<real>)

  /** `input_data[key]` on a missing key raises a KeyError naming it. */
  datatype KeyError = KeyError(key: string)

  /** The suitability labels; the scorer never produces `NotSuitable`. */
  datatype Suitability = HighlySuitable | ModeratelySuitable | MarginallySuitable | NotSuitable

  function GetOr(v: Option<real>, default: real): real
  {
    if v.Some? then v.value else default
  }

  function Abs(x: real): real
  {
    if x < 0.0 then -x else x
  }

  /** The number of true values among the factors: Python's `sum` of booleans. */
  function CountTrue(bs: seq<bool>): (n: nat)
    ensures n <= |bs|
    ensures n == |bs| <==> forall i :: 0 <= i < |bs| ==> bs[i]
    ensures n == 0 <==> forall i :: 0 <= i < |bs| ==> !bs[i]
  {
    if bs == [] then 0
    else
      assert forall i :: 1 <= i < |bs| ==> bs[1..][i - 1] == bs[i];
      (if bs[0] then 1 else 0) + CountTrue(bs[1..])
  }

  /** The seven factors in the order of `suitability_factors`: temperature,
      pH, soil, wind, nitrogen, phosphorus and potassium. The pH is read
      before the soil type, so a missing pH is the error reported first. */
  function Factors(crop: CropProfile, input: Conditions): (r: Result<seq<bool>, KeyError>)
    ensures r.Success? <==> input.phLevel.Some? && input.soilType.Some?
    ensures r.Failure? ==> r.error == KeyError(if input.phLevel.None? then "phLevel" else "soilType")
    ensures r.Success? ==> |r.value| == 7
  {
    var avgTemp := GetOr(input.avgTemp, 28.0);
    if input.phLevel.None? then Failure(KeyError("phLevel"))
    else if input.soilType.None? then Failure(KeyError("soilType"))
    else
      var ph, soil := input.phLevel.value, input.soilType.value;
      var wind := GetOr(input.avgWindSpeed, 5.0);
      var n, p, k := GetOr(input.nitrogen, 100.0), GetOr(input.phosphorus, 70.0), GetOr(input.potassium, 90.0);
      Success([
        crop.tempMin <= avgTemp <= crop.tempMax,
        crop.phMin <= ph <= crop.phMax,
        soil in crop.soilTypes,
        crop.windSpeedMin <= wind <= crop.windSpeedMax,
        Abs(crop.nitrogen - n) <= 50.0,
        Abs(crop.phosphorus - p) <= 40.0,
        Abs(crop.potassium - k) <= 50.0])
  }

  /** The tier a score selects. */
  function Tier(score: nat): (s: Suitability)
    ensures s == HighlySuitable <==> score >= 6
    ensures s == ModeratelySuitable <==> 4 <= score <= 5
    ensures s == MarginallySuitable <==> score <= 3
  {
    if score >= 6 then HighlySuitable
    else if score >= 4 then ModeratelySuitable
    else MarginallySuitable
  }

  /** `check_crop_suitability`. */
  function CheckCropSuitability(crop: CropProfile, input: Conditions): Result<Suitability, KeyError>
  {
    match Factors(crop, input)
    case Failure(e) => Failure(e)
    case Success(fs) => Success(Tier(CountTrue(fs)))
  }

  /** Position of a tier in the ranking key. */
  function TierRank(s: Suitability): int
  {
    match s
    case HighlySuitable => 0
    case ModeratelySuitable => 1
    case _ => 2
  }

  /** The scorer fails exactly when the pH or the soil type is missing (the
      pH is reported first); otherwise the score lies in 0..7 and the tier is
      never "Not Suitable". */
  lemma CheckCropSuitabilitySpec(crop: CropProfile, input: Conditions)
    ensures var r := CheckCropSuitability(crop, input);
      && (r.Failure? <==> input.phLevel.None? || input.soilType.None?)
      && (r.Failure? ==> r.error == KeyError(if input.phLevel.None? then "phLevel" else "soilType"))
      && (r.Success? ==>
        var score := CountTrue(Factors(crop, input).value);
        && 0 <= score <= 7
        && r.value != NotSuitable
        && r.value == Tier(score))
  {
  }

  /** A better tier never comes from a lower score. */
  lemma TierMonotone(a: nat, b: nat)
    requires a <= b
    ensures TierRank(Tier(b)) <= TierRank(Tier(a))
  {
  }

  /** Leaving out a defaulted key is the same as sending its default value:
      28 for the temperature, 5 for the wind speed and 100, 70 and 90 for the
      three nutrients. */
  lemma DefaultsApply(crop: CropProfile, input: Conditions)
    ensures var filled := input.(
        avgTemp := Some(GetOr(input.avgTemp, 28.0)),
        avgWindSpeed := Some(GetOr(input.avgWindSpeed, 5.0)),
        nitrogen := Some(GetOr(input.nitrogen, 100.0)),
        phosphorus := Some(GetOr(input.phosphorus, 70.0)),
        potassium := Some(GetOr(input.potassium, 90.0)));
      CheckCropSuitability(crop, filled) == CheckCropSuitability(crop, input)
  {
  }

  /** The range checks are inclusive at both ends, and the nutrient checks
      accept a difference of exactly 50, 40 and 50. */
  lemma BoundariesAccepted(crop: CropProfile, soil: string)
    requires soil in crop.soilTypes && crop.tempMin <= crop.tempMax
    ensures var atMin := Conditions(Some(crop.tempMin), Some(crop.phMin), Some(soil), Some(crop.windSpeedMin),
        Some(crop.nitrogen + 50.0), Some(crop.phosphorus - 40.0), Some(crop.potassium + 50.0));
      crop.phMin <= crop.phMax && crop.windSpeedMin <= crop.windSpeedMax ==>
        CheckCropSuitability(crop, atMin) == Success(HighlySuitable)
  {
    var atMin := Conditions(Some(crop.tempMin), Some(crop.phMin), Some(soil), Some(crop.windSpeedMin),
      Some(crop.nitrogen + 50.0), Some(crop.phosphorus - 40.0), Some(crop.potassium + 50.0));
    if crop.phMin <= crop.phMax && crop.windSpeedMin <= crop.windSpeedMax {
      var fs := Factors(crop, atMin).value;
      assert forall i :: 0 <= i < 7 ==> fs[i];
    }
  }

  /** Just outside each bound the factor fails: a temperature, pH or wind
      speed d beyond either end of the crop's range, a soil the crop does not
      list, or a nutrient more than 50, 40 or 50 away from the crop's need. */
  lemma BoundariesRejected(crop: CropProfile, input: Conditions, d: real)
    requires d > 0.0 && input.phLevel.Some? && input.soilType.Some?
    ensures var fs := Factors(crop, input).value;
      && (input.avgTemp == Some(crop.tempMax + d) || input.avgTemp == Some(crop.tempMin - d) ==> !fs[0])
      && (input.phLevel == Some(crop.phMax + d) || input.phLevel == Some(crop.phMin - d) ==> !fs[1])
      && (input.soilType.value !in crop.soilTypes ==> !fs[2])
      && (input.avgWindSpeed == Some(crop.windSpeedMax + d) || input.avgWindSpeed == Some(crop.windSpeedMin - d) ==> !fs[3])
      && (input.nitrogen == Some(crop.nitrogen + 50.0 + d) || input.nitrogen == Some(crop.nitrogen - 50.0 - d) ==> !fs[4])
      && (input.phosphorus == Some(crop.phosphorus + 40.0 + d) || input.phosphorus == Some(crop.phosphorus - 40.0 - d) ==> !fs[5])
      && (input.potassium == Some(crop.potassium + 50.0 + d) || input.potassium == Some(crop.potassium - 50.0 - d) ==> !fs[6])
  {
  }

  /** One entry of the returned list. */
  datatype Suggestion = Suggestion(
    name: string, suitability: Suitability, harvestDays: int, expectedYield: string, profitMargin: real)

  /** The suggestion for one crop, or the error its scoring raises. */
  function SuggestionFor(input: Conditions): CropProfile -> Result<Suggestion, KeyError>
  {
    crop => match CheckCropSuitability(crop, input)
      case Failure(e) => Failure(e)
      case Success(s) => Success(Suggestion(crop.name, s, crop.growingDays, crop.expectedYield, crop.profitMargin))
  }

  predicate Included(s: Suggestion)
  {
    s.suitability != NotSuitable
  }

  /** The sort key (tier rank, -profit margin) as a comparator. */
  function ByTierThenMargin(a: Suggestion, b: Suggestion): real
  {
    if TierRank(a.suitability) != TierRank(b.suitability) then (TierRank(a.suitability) - TierRank(b.suitability)) as real
    else b.profitMargin - a.profitMargin
  }

  const SuggestionCount := 5

  /** What `get_crop_suggestions` returns for the given crop profiles. */
  function CropSuggestions(crops: seq<CropProfile>, input: Conditions): Result<seq<Suggestion>, KeyError>
  {
    match Collect(crops, SuggestionFor(input))
    case Failure(e) => Failure(e)
    case Success(all) =>
      var sorted := SortBy(Filter(all, Included), ByTierThenMargin);
      Success(sorted[..Min(SuggestionCount, |sorted|)])
  }

  /** `get_crop_suggestions`: load the profiles, then rank them. */
  method GetCropSuggestions(input: Conditions) returns (r: Result<seq<Suggestion>, KeyError>)
    ensures r == CropSuggestions(Crops, input)
  {
    r := RankCrops(Crops, input);
  }

  /** The body of `get_crop_suggestions` after loading: score every crop in
      order, keep the suitable ones, rank them and keep the first five. */
  method RankCrops(crops: seq<CropProfile>, input: Conditions) returns (r: Result<seq<Suggestion>, KeyError>)
    ensures r == CropSuggestions(crops, input)
  {
    var suggestions: seq<Suggestion> := [];
    ghost var scored: seq<Suggestion> := [];
    for k := 0 to |crops|
      invariant Collect(crops[..k], SuggestionFor(input)) == Success(scored)
      invariant suggestions == Filter(scored, Included)
    {
      var crop := crops[k];
      var suitability := CheckCropSuitability(crop, input);
      ScoreStep(crops, input, k, scored);
      if suitability.Failure? {
        return Failure(suitability.error);
      }
      var s := Suggestion(crop.name, suitability.value, crop.growingDays, crop.expectedYield, crop.profitMargin);
      if suitability.value != NotSuitable {
        suggestions := suggestions + [s];
      }
      scored := scored + [s];
    }
    CollectedAll(crops, input, scored);
    var sorted := SortBy(suggestions, ByTierThenMargin);
    r := Success(sorted[..Min(SuggestionCount, |sorted|)]);
  }

  /** One turn of the scoring loop: a failing crop ends the run with its
      error; otherwise its suggestion is appended, and kept unless it is
      "Not Suitable". */
  lemma ScoreStep(crops: seq<CropProfile>, input: Conditions, k: nat, scored: seq<Suggestion>)
    requires k < |crops| && Collect(crops[..k], SuggestionFor(input)) == Success(scored)
    ensures var c := CheckCropSuitability(crops[k], input);
      && (c.Failure? ==> CropSuggestions(crops, input) == Failure(c.error))
      && (c.Success? ==>
        var s := Suggestion(crops[k].name, c.value, crops[k].growingDays, crops[k].expectedYield, crops[k].profitMargin);
        && Collect(crops[..k + 1], SuggestionFor(input)) == Success(scored + [s])
        && Filter(scored + [s], Included) == Filter(scored, Included) + (if c.value != NotSuitable then [s] else []))
  {
    var f := SuggestionFor(input);
    var c := CheckCropSuitability(crops[k], input);
    if c.Failure? {
      assert Collect(crops, f) == Failure(c.error) by {
        CollectStep(crops, f, k);
      }
    } else {
      var s := Suggestion(crops[k].name, c.value, crops[k].growingDays, crops[k].expectedYield, crops[k].profitMargin);
      assert Collect(crops[..k + 1], f) == Success(scored + [s]) by {
        CollectStep(crops, f, k);
        assert f(crops[k]) == Success(s);
      }
      FilterAppend(scored, [s], Included);
      assert [s][1..] == [];
    }
  }

  /** After the loop the whole list has been scored. */
  lemma CollectedAll(crops: seq<CropProfile>, input: Conditions, scored: seq<Suggestion>)
    requires Collect(crops[..|crops|], SuggestionFor(input)) == Success(scored)
    ensures var sorted := SortBy(Filter(scored, Included), ByTierThenMargin);
      CropSuggestions(crops, input) == Success(sorted[..Min(SuggestionCount, |sorted|)])
  {
    assert crops[..|crops|] == crops;
  }

  /** No crop is ever left out by the "Not Suitable" filter. */
  lemma {:induction false} NoneExcluded(all: seq<Suggestion>)
    requires forall i :: 0 <= i < |all| ==> all[i].suitability != NotSuitable
    ensures Filter(all, Included) == all
  {
    if all != [] {
      NoneExcluded(all[1..]);
    }
  }

  lemma ByTierThenMarginConsistent(s: seq<Suggestion>)
    ensures ConsistentOn(s, ByTierThenMargin)
  {
  }

  /** The suggester fails exactly when there is a crop to score and the pH
      or the soil type is missing. Otherwise every crop is scored, each with
      the tier its own score gives and never "Not Suitable", and the result
      is the best min(5, n) of them by tier and then by profit margin. */
  lemma CropSuggestionsSpec(crops: seq<CropProfile>, input: Conditions)
    ensures var r := CropSuggestions(crops, input);
      && (r.Failure? <==> |crops| > 0 && (input.phLevel.None? || input.soilType.None?))
      && (r.Failure? ==> r.error == KeyError(if input.phLevel.None? then "phLevel" else "soilType"))
      && (r.Success? ==>
        var c := Collect(crops, SuggestionFor(input));
        && c.Success? && |c.value| == |crops|
        && (forall i :: 0 <= i < |crops| ==>
          && c.value[i].name == crops[i].name
          && c.value[i].profitMargin == crops[i].profitMargin
          && Success(c.value[i].suitability) == CheckCropSuitability(crops[i], input)
          && c.value[i].suitability != NotSuitable)
        && TopRanked(c.value, r.value))
  {
    var f := SuggestionFor(input);
    var c := Collect(crops, f);
    if c.Failure? {
      var i :| 0 <= i < |crops| && f(crops[i]) == Failure(c.error);
      CheckCropSuitabilitySpec(crops[i], input);
    } else {
      if |crops| > 0 {
        CheckCropSuitabilitySpec(crops[0], input);
      }
      forall i | 0 <= i < |crops|
        ensures c.value[i].suitability != NotSuitable
        ensures Success(c.value[i].suitability) == CheckCropSuitability(crops[i], input)
      {
        CheckCropSuitabilitySpec(crops[i], input);
      }
      NoneExcluded(c.value);
      RankedTop(c.value);
    }
  }

  /** `out` is the best min(5, n) of `all`: drawn from it, in tier order and,
      within a tier, by non-increasing profit margin, and no suggestion left
      out ranks above one kept. */
  ghost predicate TopRanked(all: seq<Suggestion>, out: seq<Suggestion>)
  {
    && |out| == Min(SuggestionCount, |all|)
    && multiset(out) <= multiset(all)
    && (forall i, j :: 0 <= i < j < |out| ==> TierRank(out[i].suitability) <= TierRank(out[j].suitability))
    && (forall i, j :: 0 <= i < j < |out| ==>
          out[i].suitability == out[j].suitability ==> out[i].profitMargin >= out[j].profitMargin)
    && (forall x, y :: x in out && y in multiset(all) - multiset(out) ==> ByTierThenMargin(y, x) >= 0.0)
  }

  lemma RankedTop(all: seq<Suggestion>)
    ensures var sorted := SortBy(all, ByTierThenMargin);
      TopRanked(all, sorted[..Min(SuggestionCount, |sorted|)])
  {
    var k := Min(SuggestionCount, |all|);
    var out := SortBy(all, ByTierThenMargin)[..k];
    ByTierThenMarginConsistent(all);
    SortedTop(all, ByTierThenMargin, k);
    InTierOrder(out);
  }

  /** A list sorted by the key is in tier order and, within a tier, in
      non-increasing profit margin. */
  lemma InTierOrder(out: seq<Suggestion>)
    requires SortedBy(out, ByTierThenMargin)
    ensures forall i, j :: 0 <= i < j < |out| ==> TierRank(out[i].suitability) <= TierRank(out[j].suitability)
    ensures forall i, j :: 0 <= i < j < |out| ==>
      out[i].suitability == out[j].suitability ==> out[i].profitMargin >= out[j].profitMargin
  {
    forall i, j | 0 <= i < j < |out|
      ensures TierRank(out[i].suitability) <= TierRank(out[j].suitability)
      ensures out[i].suitability == out[j].suitability ==> out[i].profitMargin >= out[j].profitMargin
    {
      assert ByTierThenMargin(out[j], out[i]) >= 0.0;
    }
  }

  /** With the seven built-in profiles a successful run returns five crops. */
  lemma FiveOfSeven(input: Conditions)
    requires input.phLevel.Some? && input.soilType.Some?
    ensures CropSuggestions(Crops, input).Success?
    ensures |CropSuggestions(Crops, input).value| == 5
  {
    CropSuggestionsSpec(Crops, input);
  }
}
