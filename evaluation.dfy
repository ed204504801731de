/** One pass over a data split: the loss mean, the concatenated predictions and labels
    handed to the metrics provider, and the optional per-sample detail lists.
    The network, the criterion and the metrics provider are outside the model: every
    batch carries the outputs and loss they produced, and the scoring function is a
    parameter. */
module Evaluation {
  import opened Aggregation

  /** The two ways a pass or a run ends abnormally: a split with no batches
      (ZeroDivisionError in the loss mean) and a key metric absent from the
      validation results (KeyError). */
  datatype Error = DivisionByZero | MissingKey(key: string)

  datatype Result<T> = Success(value: T) | Failure(error: Error)

  datatype Option<T> = None | Some(value: T)

  type Matrix = seq<seq<real>>

  /** A result mapping: metric name to value. */
  type Scores = map<string, real>

  /** The scoring function of the metrics provider: (predictions, labels) to named metrics. */
  type Metrics = (Matrix, seq<int>) -> Scores

  /** The four feature outputs of the model. */
  datatype FeatureKey = FeatureT | FeatureA | FeatureV | FeatureM

  datatype Features = Features(t: Matrix, a: Matrix, v: Matrix, m: Matrix)
  {
    function Get(k: FeatureKey): Matrix
    {
      match k
      case FeatureT => t
      case FeatureA => a
      case FeatureV => v
      case FeatureM => m
    }
  }

  /** One batch after the forward pass: its sample ids, its integer labels, the
      primary output "M" (one row of class scores per sample), the four feature
      outputs and the criterion's loss on it. */
  datatype Batch = Batch(ids: seq<string>, labels: seq<int>, logits: Matrix, features: Features, loss: real)

  /** Per-sample diagnostics of a detail-mode pass ("Ids", "SResults", "Labels", "Features"). */
  datatype Details = Details(ids: seq<string>, sampleResults: seq<nat>, labels: seq<int>, features: Features)

  /** What a pass returns: the scores (with "Loss") and, in detail mode, the details. */
  datatype TestResult = TestResult(scores: Scores, details: Option<Details>)

  /** Every tensor of a batch has one row per sample. */
  ghost predicate WellFormed(b: Batch)
  {
    && |b.ids| == |b.labels|
    && |b.logits| == |b.labels|
    && forall k: FeatureKey :: |b.features.Get(k)| == |b.labels|
  }

  /** Every batch's primary output has `numClasses` columns. */
  ghost predicate Shaped(bs: seq<Batch>, numClasses: nat)
  {
    forall i, j :: 0 <= i < |bs| && 0 <= j < |bs[i].logits| ==> |bs[i].logits[j]| == numClasses
  }

  /** Every row of every primary output is non-empty, so its argmax exists. */
  predicate NonEmptyRows(bs: seq<Batch>)
  {
    forall i, j :: 0 <= i < |bs| && 0 <= j < |bs[i].logits| ==> |bs[i].logits[j]| > 0
  }

  function LossesOf(bs: seq<Batch>): seq<real>
  {
    seq(|bs|, i requires 0 <= i < |bs| => bs[i].loss)
  }

  function IdParts(bs: seq<Batch>): seq<seq<string>>
  {
    seq(|bs|, i requires 0 <= i < |bs| => bs[i].ids)
  }

  function LabelParts(bs: seq<Batch>): seq<seq<int>>
  {
    seq(|bs|, i requires 0 <= i < |bs| => bs[i].labels)
  }

  function LogitParts(bs: seq<Batch>): seq<Matrix>
  {
    seq(|bs|, i requires 0 <= i < |bs| => bs[i].logits)
  }

  function FeatureParts(bs: seq<Batch>, k: FeatureKey): seq<Matrix>
  {
    seq(|bs|, i requires 0 <= i < |bs| => bs[i].features.Get(k))
  }

  function PredictionParts(bs: seq<Batch>): seq<seq<nat>>
    requires NonEmptyRows(bs)
  {
    seq(|bs|, i requires 0 <= i < |bs| => RowArgMax(bs[i].logits))
  }

  /** Number of samples of a split: the sum of the batch sizes. */
  function SampleCount(bs: seq<Batch>): nat
  {
    if |bs| == 0 then 0 else SampleCount(bs[..|bs| - 1]) + |bs[|bs| - 1].labels|
  }

  /** The accumulated loss divided by the number of batches: it times the batch count
      is the loss sum. */
  function MeanLoss(bs: seq<Batch>): (m: real)
    requires |bs| > 0
    ensures m * (|bs| as real) == Sum(LossesOf(bs))
  {
    Sum(LossesOf(bs)) / (|bs| as real)
  }

  /** The scores of one pass: the metrics of the concatenated outputs and labels,
      with "Loss" set to the mean loss; a split without batches divides by zero. */
  function PassScores(bs: seq<Batch>, metrics: Metrics): (r: Result<Scores>)
    ensures r.Failure? <==> |bs| == 0
    ensures r.Failure? ==> r.error == DivisionByZero
  {
    if |bs| == 0 then Failure(DivisionByZero)
    else Success(metrics(Flatten(LogitParts(bs)), Flatten(LabelParts(bs)))["Loss" := MeanLoss(bs)])
  }

  /** The running lists of a detail-mode pass: ids, predicted classes and labels are
      extended sample by sample; each feature output is kept as one array per batch. */
  datatype DetailLists = DetailLists(
    ids: seq<string>, sampleResults: seq<nat>, labels: seq<int>,
    featT: seq<Matrix>, featA: seq<Matrix>, featV: seq<Matrix>, featM: seq<Matrix>)

  /** The running lists after the batches `bs`, each in batch order. */
  function ListsOf(bs: seq<Batch>): (l: DetailLists)
    requires NonEmptyRows(bs)
    ensures |l.featT| == |bs| && |l.featA| == |bs| && |l.featV| == |bs| && |l.featM| == |bs|
    ensures forall i :: 0 <= i < |bs| ==>
      l.featT[i] == bs[i].features.t && l.featA[i] == bs[i].features.a &&
      l.featV[i] == bs[i].features.v && l.featM[i] == bs[i].features.m
  {
    DetailLists(
      Flatten(IdParts(bs)), Flatten(PredictionParts(bs)), Flatten(LabelParts(bs)),
      FeatureParts(bs, FeatureT), FeatureParts(bs, FeatureA),
      FeatureParts(bs, FeatureV), FeatureParts(bs, FeatureM))
  }

  /** What one batch adds to the running lists: its ids, the argmax of each of its rows,
      its labels, and one array per feature output. */
  function Collect(l: DetailLists, b: Batch): (r: DetailLists)
    requires forall j :: 0 <= j < |b.logits| ==> |b.logits[j]| > 0
    ensures l.ids <= r.ids && |r.ids| == |l.ids| + |b.ids|
    ensures l.sampleResults <= r.sampleResults && |r.sampleResults| == |l.sampleResults| + |b.logits|
    ensures l.labels <= r.labels && |r.labels| == |l.labels| + |b.labels|
    ensures |r.featT| == |l.featT| + 1 && |r.featA| == |l.featA| + 1
    ensures |r.featV| == |l.featV| + 1 && |r.featM| == |l.featM| + 1
  {
    DetailLists(
      l.ids + b.ids, l.sampleResults + RowArgMax(b.logits), l.labels + b.labels,
      l.featT + [b.features.t], l.featA + [b.features.a],
      l.featV + [b.features.v], l.featM + [b.features.m])
  }

  /** The details returned: the ids, predicted classes and labels as collected, and each
      feature list concatenated into one array. */
  function Merge(l: DetailLists): (d: Details)
    ensures d.ids == l.ids && d.sampleResults == l.sampleResults && d.labels == l.labels
  {
    Details(l.ids, l.sampleResults, l.labels,
      Features(Flatten(l.featT), Flatten(l.featA), Flatten(l.featV), Flatten(l.featM)))
  }

  /** The details of a detail-mode pass over `bs`. */
  function DetailsOf(bs: seq<Batch>): Details
    requires NonEmptyRows(bs)
  {
    Merge(ListsOf(bs))
  }

  /** Taking one more batch appends its loss, its outputs and its labels to the parts. */
  lemma PartsAppend(bs: seq<Batch>, i: nat)
    requires i < |bs|
    ensures LossesOf(bs[..i + 1]) == LossesOf(bs[..i]) + [bs[i].loss]
    ensures LogitParts(bs[..i + 1]) == LogitParts(bs[..i]) + [bs[i].logits]
    ensures LabelParts(bs[..i + 1]) == LabelParts(bs[..i]) + [bs[i].labels]
  {
  }

  /** Taking one more batch is one more Collect step on the running lists. */
  lemma CollectNext(bs: seq<Batch>, i: nat)
    requires i < |bs| && NonEmptyRows(bs[..i + 1])
    ensures NonEmptyRows(bs[..i])
    ensures ListsOf(bs[..i + 1]) == Collect(ListsOf(bs[..i]), bs[i])
  {
    var done, next := bs[..i], bs[..i + 1];
    assert IdParts(next) == IdParts(done) + [bs[i].ids];
    assert PredictionParts(next) == PredictionParts(done) + [RowArgMax(bs[i].logits)];
    assert LabelParts(next) == LabelParts(done) + [bs[i].labels];
    FlattenAppend(IdParts(done), bs[i].ids);
    FlattenAppend(PredictionParts(done), RowArgMax(bs[i].logits));
    FlattenAppend(LabelParts(done), bs[i].labels);
    assert FeatureParts(next, FeatureT) == FeatureParts(done, FeatureT) + [bs[i].features.t];
    assert FeatureParts(next, FeatureA) == FeatureParts(done, FeatureA) + [bs[i].features.a];
    assert FeatureParts(next, FeatureV) == FeatureParts(done, FeatureV) + [bs[i].features.v];
    assert FeatureParts(next, FeatureM) == FeatureParts(done, FeatureM) + [bs[i].features.m];
  }

  /** The training half of an epoch (optimizer steps aside): accumulate the losses,
      the outputs and the labels batch by batch, then score. */
  method TrainPass(batches: seq<Batch>, metrics: Metrics) returns (r: Result<Scores>)
    ensures r == PassScores(batches, metrics)
  {
    var yPred: seq<Matrix> := [];
    var yTrue: seq<seq<int>> := [];
    var trainLoss := 0.0;
    var i := 0;
    while i < |batches|
      invariant 0 <= i <= |batches|
      invariant yPred == LogitParts(batches[..i])
      invariant yTrue == LabelParts(batches[..i])
      invariant trainLoss == Sum(LossesOf(batches[..i]))
    {
      var b := batches[i];
      PartsAppend(batches, i);
      trainLoss := trainLoss + b.loss;
      yPred := yPred + [b.logits];
      yTrue := yTrue + [b.labels];
      i := i + 1;
    }
    assert batches[..i] == batches;
    if |batches| == 0 {
      return Failure(DivisionByZero);
    }
    trainLoss := trainLoss / (|batches| as real);
    var results := metrics(Flatten(yPred), Flatten(yTrue));
    results := results["Loss" := trainLoss];
    r := Success(results);
  }

  /** An evaluation pass over one split, with the per-sample details when asked for. */
  method DoTest(batches: seq<Batch>, needDetails: bool, metrics: Metrics) returns (r: Result<TestResult>)
    requires needDetails ==> NonEmptyRows(batches)
    ensures |batches| == 0 <==> r.Failure?
    ensures r.Failure? ==> r.error == DivisionByZero
    ensures r.Success? ==> Success(r.value.scores) == PassScores(batches, metrics)
    ensures r.Success? ==> r.value.details == if needDetails then Some(DetailsOf(batches)) else None
  {
    var yPred: seq<Matrix> := [];
    var yTrue: seq<seq<int>> := [];
    var evalLoss := 0.0;
    var ids: seq<string> := [];
    var sampleResults: seq<nat> := [];
    var allLabels: seq<int> := [];
    var featT: seq<Matrix> := [];
    var featA: seq<Matrix> := [];
    var featV: seq<Matrix> := [];
    var featM: seq<Matrix> := [];
    var i := 0;
    while i < |batches|
      invariant 0 <= i <= |batches|
      invariant yPred == LogitParts(batches[..i])
      invariant yTrue == LabelParts(batches[..i])
      invariant evalLoss == Sum(LossesOf(batches[..i]))
      invariant needDetails ==> NonEmptyRows(batches[..i])
      invariant needDetails ==>
        DetailLists(ids, sampleResults, allLabels, featT, featA, featV, featM) == ListsOf(batches[..i])
    {
      var b := batches[i];
      PartsAppend(batches, i);
      if needDetails {
        CollectNext(batches, i);
        ids := ids + b.ids;
        featT := featT + [b.features.t];
        featA := featA + [b.features.a];
        featV := featV + [b.features.v];
        featM := featM + [b.features.m];
        allLabels := allLabels + b.labels;
        var preds := RowArgMax(b.logits);
        sampleResults := sampleResults + preds;
      }
      evalLoss := evalLoss + b.loss;
      yPred := yPred + [b.logits];
      yTrue := yTrue + [b.labels];
      i := i + 1;
    }
    assert batches[..i] == batches;
    if |batches| == 0 {
      return Failure(DivisionByZero);
    }
    evalLoss := evalLoss / (|batches| as real);
    var results := metrics(Flatten(yPred), Flatten(yTrue));
    results := results["Loss" := evalLoss];
    var details := None;
    if needDetails {
      details := Some(Merge(DetailLists(ids, sampleResults, allLabels, featT, featA, featV, featM)));
    }
    r := Success(TestResult(results, details));
  }

  /** "Loss" is the accumulated loss over the batch count and overwrites any metric of
      that name; every other metric is kept as the provider computed it. */
  lemma LossKeyOverwrites(bs: seq<Batch>, metrics: Metrics)
    requires |bs| > 0
    ensures PassScores(bs, metrics).Success?
    ensures var scores := PassScores(bs, metrics).value;
      var computed := metrics(Flatten(LogitParts(bs)), Flatten(LabelParts(bs)));
      && "Loss" in scores
      && scores["Loss"] * (|bs| as real) == Sum(LossesOf(bs))
      && scores.Keys == computed.Keys + {"Loss"}
      && forall k :: k in computed && k != "Loss" ==> scores[k] == computed[k]
  {
  }

  /** A split of one batch has exactly that batch's loss as its "Loss". */
  lemma SingleBatchMeanLoss(b: Batch, metrics: Metrics)
    ensures PassScores([b], metrics).Success?
    ensures PassScores([b], metrics).value["Loss"] == b.loss
  {
    assert LossesOf([b]) == [b.loss];
    assert [b.loss][..0] == [];
    assert Sum(LossesOf([b])) == b.loss;
    assert MeanLoss([b]) == b.loss;
  }

  /** The concatenated labels number SampleCount(bs). */
  lemma {:induction false} LabelCount(bs: seq<Batch>)
    ensures |Flatten(LabelParts(bs))| == SampleCount(bs)
  {
    if |bs| > 0 {
      var n := |bs| - 1;
      LabelCount(bs[..n]);
      assert LabelParts(bs) == LabelParts(bs[..n]) + [bs[n].labels];
      FlattenAppend(LabelParts(bs[..n]), bs[n].labels);
    }
  }

  /** In detail mode, for a split of N samples, the ids, the predicted classes and the
      labels each number N, and every merged feature array has N rows. */
  lemma DetailsShape(bs: seq<Batch>)
    requires NonEmptyRows(bs)
    requires forall i :: 0 <= i < |bs| ==> WellFormed(bs[i])
    ensures var d := DetailsOf(bs);
      && |d.ids| == SampleCount(bs)
      && |d.sampleResults| == SampleCount(bs)
      && |d.labels| == SampleCount(bs)
      && forall k: FeatureKey :: |d.features.Get(k)| == SampleCount(bs)
  {
    LabelCount(bs);
    FlattenLengths(IdParts(bs), LabelParts(bs));
    FlattenLengths(PredictionParts(bs), LabelParts(bs));
    forall k: FeatureKey
      ensures |Flatten(FeatureParts(bs, k))| == SampleCount(bs)
    {
      FlattenLengths(FeatureParts(bs, k), LabelParts(bs));
    }
  }

  /** A list with one part per batch, each part as long as its batch, starts part `b`
      at the number of samples in the batches before it. */
  lemma OffsetIsSampleCount<T>(parts: seq<seq<T>>, bs: seq<Batch>, b: nat)
    requires |parts| == |bs| && b <= |bs|
    requires forall i :: 0 <= i < |bs| ==> |parts[i]| == |bs[i].labels|
    ensures Offset(parts, b) == SampleCount(bs[..b])
  {
    LabelCount(bs[..b]);
    FlattenLengths(parts[..b], LabelParts(bs[..b]));
  }

  /** In such a list, element `j` of part `b` is found at SampleCount(bs[..b]) + j. */
  lemma PartAt<T>(parts: seq<seq<T>>, bs: seq<Batch>, b: nat, j: nat)
    requires |parts| == |bs| && b < |bs| && j < |parts[b]|
    requires forall i :: 0 <= i < |bs| ==> |parts[i]| == |bs[i].labels|
    ensures SampleCount(bs[..b]) + j < |Flatten(parts)|
    ensures Flatten(parts)[SampleCount(bs[..b]) + j] == parts[b][j]
  {
    OffsetIsSampleCount(parts, bs, b);
    FlattenAt(parts, b, j);
  }

  /** Sample `j` of batch `b` lands at position SampleCount(bs[..b]) + j of the id, the
      predicted-class and the label lists: its id, the argmax of its row and its label,
      in batch-iteration order. */
  lemma DetailsInBatchOrder(bs: seq<Batch>, b: nat, j: nat)
    requires NonEmptyRows(bs)
    requires forall i :: 0 <= i < |bs| ==> WellFormed(bs[i])
    requires b < |bs| && j < |bs[b].labels|
    ensures WellFormed(bs[b])
    ensures var d := DetailsOf(bs); var at := SampleCount(bs[..b]) + j;
      && at < SampleCount(bs)
      && at < |d.ids| && d.ids[at] == bs[b].ids[j]
      && at < |d.sampleResults| && d.sampleResults[at] == ArgMax(bs[b].logits[j])
      && at < |d.labels| && d.labels[at] == bs[b].labels[j]
  {
    assert WellFormed(bs[b]);
    LabelCount(bs);
    PartAt(IdParts(bs), bs, b, j);
    PartAt(PredictionParts(bs), bs, b, j);
    PartAt(LabelParts(bs), bs, b, j);
  }

  /** Row `j` of batch `b`'s feature outputs lands at row SampleCount(bs[..b]) + j of
      every merged feature array. */
  lemma FeaturesInBatchOrder(bs: seq<Batch>, b: nat, j: nat, k: FeatureKey)
    requires NonEmptyRows(bs)
    requires forall i :: 0 <= i < |bs| ==> WellFormed(bs[i])
    requires b < |bs| && j < |bs[b].labels|
    ensures WellFormed(bs[b])
    ensures var rows := DetailsOf(bs).features.Get(k); var at := SampleCount(bs[..b]) + j;
      at < |rows| && rows[at] == bs[b].features.Get(k)[j]
  {
    assert WellFormed(bs[b]);
    PartAt(FeatureParts(bs, k), bs, b, j);
    match k
    case FeatureT =>
    case FeatureA =>
    case FeatureV =>
    case FeatureM =>
  }

  /** Every predicted class is a column index of the primary output. */
  lemma PredictionsAreClasses(bs: seq<Batch>, numClasses: nat)
    requires numClasses > 0 && Shaped(bs, numClasses)
    ensures NonEmptyRows(bs)
    ensures var preds := DetailsOf(bs).sampleResults;
      forall i :: 0 <= i < |preds| ==> preds[i] < numClasses
  {
    var preds := DetailsOf(bs).sampleResults;
    assert preds == Flatten(PredictionParts(bs));
    forall i | 0 <= i < |preds|
      ensures preds[i] < numClasses
    {
      var c: nat := preds[i];
      FlattenMember<nat>(PredictionParts(bs), c);
      var b :| 0 <= b < |bs| && c in PredictionParts(bs)[b];
      var j :| 0 <= j < |bs[b].logits| && RowArgMax(bs[b].logits)[j] == c;
    }
  }
}
