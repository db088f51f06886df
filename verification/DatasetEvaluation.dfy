/** Exact and character accuracy of a plate data set
    (application/dataset_evaluation.py). */
module DatasetEvaluation {
  import opened EditDistance

  datatype Record = Record(predicted: string, truth: string)

  function TotalDistance(records: seq<Record>): nat {
    if records == [] then 0 else
      var last := records[|records| - 1];
      TotalDistance(records[..|records| - 1]) + Lev(last.predicted, last.truth)
  }

  function TotalLength(records: seq<Record>): nat {
    if records == [] then 0 else
      var last := records[|records| - 1];
      TotalLength(records[..|records| - 1]) + Max(Max(|last.predicted|, |last.truth|), 1)
  }

  function Exact(records: seq<Record>): nat {
    if records == [] then 0 else
      var last := records[|records| - 1];
      Exact(records[..|records| - 1]) + (if last.predicted == last.truth then 1 else 0)
  }

  lemma {:induction false} DistanceWithinLength(records: seq<Record>)
    ensures TotalDistance(records) <= TotalLength(records)
    ensures |records| <= TotalLength(records)
    ensures Exact(records) <= |records|
    ensures TotalDistance(records) == 0 <==> Exact(records) == |records|
  {
    if records != [] {
      var last := records[|records| - 1];
      DistanceWithinLength(records[..|records| - 1]);
      Bounds(last.predicted, last.truth);
      ZeroIffEqual(last.predicted, last.truth);
    }
  }

  /** The two accuracies of `_metrics`. The clamp at zero never acts. */
  method Accuracies(records: seq<Record>) returns (exactAccuracy: real, characterAccuracy: real)
    requires records != []
    ensures exactAccuracy == Exact(records) as real / |records| as real
    ensures characterAccuracy == 1.0 - TotalDistance(records) as real / TotalLength(records) as real
    ensures 0.0 <= characterAccuracy <= 1.0 && 0.0 <= exactAccuracy <= 1.0
    ensures characterAccuracy == 1.0 <==> forall k :: 0 <= k < |records| ==> records[k].predicted == records[k].truth
  {
    var exact, distance, denominator := 0, 0, 0;
    for k := 0 to |records|
      invariant exact == Exact(records[..k])
      invariant distance == TotalDistance(records[..k])
      invariant denominator == TotalLength(records[..k])
      invariant exact <= k && (exact == k <==> forall n :: 0 <= n < k ==> records[n].predicted == records[n].truth)
    {
      assert records[..k + 1][..k] == records[..k];
      var one := SwappingDistance(records[k].predicted, records[k].truth);
      exact := exact + (if records[k].predicted == records[k].truth then 1 else 0);
      distance := distance + one;
      denominator := denominator + Max(Max(|records[k].predicted|, |records[k].truth|), 1);
    }
    assert records[..|records|] == records;
    DistanceWithinLength(records);
    exactAccuracy := exact as real / |records| as real;
    Ratio(exact, |records|);
    Ratio(distance, denominator);
    var unclamped := 1.0 - distance as real / denominator as real;
    characterAccuracy := if unclamped > 0.0 then unclamped else 0.0;
  }
}
