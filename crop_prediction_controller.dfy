/** The MongoDB variant of the price-trend aggregator
    (server/controllers/cropPredictionController.ts). Its documents name the
    crop `crop_name`; the grouping, the per-crop trend, the demand and
    category tables and both rankings are those of `PriceTrend`, and the
    whole computation agrees with `PriceTrend.ProcessPriceData` on the
    documents renamed to price records. */
module CropPredictionController {
  import opened Common
  import opened Schema
  import opened PriceTrend
  import opened PriceDocs

  function DocTrendIn(docs: seq<PriceDoc>): string -> Result<CropTrend, TrendError>
  {
    name => TrendOf(name, AsRecords(DocsOf(docs, name)))
  }

  /** `processPriceData` of the controller. */
  function ProcessPriceDocs(docs: seq<PriceDoc>): Result<Report, TrendError>
  {
    match Collect(DocNames(docs), DocTrendIn(docs))
    case Failure(e) => Failure(e)
    case Success(all) => Success(Rank(all))
  }

  /** Grouping on `crop_name` instead of `cropName` is the only difference:
      the controller's result equals the aggregator's on the renamed documents. */
  lemma ControllerMatchesAggregator(docs: seq<PriceDoc>)
    ensures ProcessPriceDocs(docs) == ProcessPriceData(AsRecords(docs))
  {
    var recs := AsRecords(docs);
    assert Collect(DocNames(docs), DocTrendIn(docs)) == Collect(CropNames(recs), TrendIn(recs)) by {
      DocNamesRenamed(docs);
      forall i | 0 <= i < |DocNames(docs)| ensures DocTrendIn(docs)(DocNames(docs)[i]) == TrendIn(recs)(DocNames(docs)[i]) {
        DocsOfRenamed(docs, DocNames(docs)[i]);
      }
      CollectAgrees(DocNames(docs), DocTrendIn(docs), TrendIn(recs));
    }
  }
}
