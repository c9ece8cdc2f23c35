/** Price documents keyed by `crop_name`, the shape of the MongoDB price
    model (server/models/PriceData.ts) and of the rows the price-prediction
    script builds, with the grouping both of their consumers perform. */
module PriceDocs {
  import opened Common
  import opened Schema
  import opened PriceTrend

  /** A price document as stored in MongoDB; its `_id` plays no role here. */
  datatype PriceDoc = PriceDoc(crop_name: string, month: int, year: int, rainfall: real, wpi: real, price: real)

  /** The same reading under the field names of the in-memory records. */
  function AsRecord(d: PriceDoc): PriceData
  {
    PriceData(0, d.crop_name, d.month, d.year, d.rainfall, d.wpi, d.price)
  }

  function AsRecords(docs: seq<PriceDoc>): (recs: seq<PriceData>)
    ensures |recs| == |docs|
    ensures forall i :: 0 <= i < |docs| ==> recs[i] == AsRecord(docs[i])
  {
    if docs == [] then [] else [AsRecord(docs[0])] + AsRecords(docs[1..])
  }

  /** The keys of the grouping accumulator, keyed on `crop_name`. */
  function DocNames(docs: seq<PriceDoc>): seq<string>
  {
    if docs == [] then []
    else
      var names := DocNames(docs[..|docs| - 1]);
      var last := docs[|docs| - 1].crop_name;
      if last in names then names else names + [last]
  }

  function CropNameIs(name: string): PriceDoc -> bool
  {
    (d: PriceDoc) => d.crop_name == name
  }

  /** The documents pushed into `acc[name]`, in input order. */
  function DocsOf(docs: seq<PriceDoc>, name: string): seq<PriceDoc>
  {
    Filter(docs, CropNameIs(name))
  }

  lemma {:induction false} DocNamesRenamed(docs: seq<PriceDoc>)
    ensures DocNames(docs) == CropNames(AsRecords(docs))
  {
    if docs != [] {
      var init := docs[..|docs| - 1];
      DocNamesRenamed(init);
      assert AsRecords(docs)[..|docs| - 1] == AsRecords(init);
    }
  }

  lemma {:induction false} DocsOfRenamed(docs: seq<PriceDoc>, name: string)
    ensures AsRecords(DocsOf(docs, name)) == GroupOf(AsRecords(docs), name)
  {
    if docs != [] {
      DocsOfRenamed(docs[1..], name);
      assert AsRecords(docs)[1..] == AsRecords(docs[1..]);
      assert NameIs(name)(AsRecords(docs)[0]) == CropNameIs(name)(docs[0]);
      if CropNameIs(name)(docs[0]) {
        assert DocsOf(docs, name) == [docs[0]] + DocsOf(docs[1..], name);
        assert AsRecords(DocsOf(docs, name))[1..] == AsRecords(DocsOf(docs[1..], name));
      }
    }
  }

  /** The grouping keys are the distinct crop names of the documents, and
      every key has at least one document. */
  lemma DocNamesSpec(docs: seq<PriceDoc>)
    ensures forall i, j :: 0 <= i < j < |DocNames(docs)| ==> DocNames(docs)[i] != DocNames(docs)[j]
    ensures forall n :: n in DocNames(docs) <==> exists d :: d in docs && d.crop_name == n
    ensures forall n :: n in DocNames(docs) ==> |DocsOf(docs, n)| > 0
  {
    var recs := AsRecords(docs);
    DocNamesRenamed(docs);
    forall n ensures n in DocNames(docs) <==> exists d :: d in docs && d.crop_name == n {
      if n in DocNames(docs) {
        var r :| r in recs && r.cropName == n;
        var i :| 0 <= i < |recs| && recs[i] == r;
        assert docs[i] in docs;
      } else {
        forall d | d in docs ensures d.crop_name != n {
          var i :| 0 <= i < |docs| && docs[i] == d;
          assert recs[i] in recs;
        }
      }
    }
    forall n | n in DocNames(docs) ensures |DocsOf(docs, n)| > 0 {
      GroupNonEmpty(recs, n);
      DocsOfRenamed(docs, n);
    }
  }
}
