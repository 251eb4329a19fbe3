/**
 * The epoch schedule of `train`: for each of `epochs` epochs the network is
 * trained on every batch, then evaluated on the fixed validation and test
 * subsets (every epoch, since `epoch % 1 == 0` always holds) and one record
 * goes to each of the accuracy and loss figures; on every third epoch one
 * random training sample and one random test sample are run through the
 * network and saved as images.
 *
 * The session is opaque: what its four evaluations of an epoch return is
 * the parameter `session`. Batches and optimizer steps change nothing this
 * model observes. A random draw is an arbitrary value in its range.
 */
module Training {

  /** Evaluation cadence: an epoch is evaluated when `epoch % EvalEvery == 0`. */
  const EvalEvery: nat := 1
  /** Sample-image cadence: images are saved when `epoch % SampleEvery == 0`. */
  const SampleEvery: nat := 3
  /** `random.randrange(10)` picks the training sample. */
  const TrainDrawBound: nat := 10
  /** `random.randrange(100)` picks the test sample. */
  const TestDrawBound: nat := 100

  /** The four values the session returns when an epoch is evaluated. */
  datatype Evaluation = Evaluation(lossTrain: real, lossTest: real, accuracyTrain: real, accuracyTest: real)

  /** One point added to a figure: the train value and the test value. */
  datatype Record = Record(train: real, test: real)

  datatype Metric = Accuracy | Loss

  /** A save of sample images: the epoch and the drawn sample indices. */
  datatype SampleSave = SampleSave(epoch: nat, trainIndex: nat, testIndex: nat)

  /** A figure of the reporter: a title and the series of points added to it. */
  class Figure {
    const title: string
    var records: seq<Record>

    constructor (title: string)
      ensures this.title == title && records == []
    {
      this.title := title;
      records := [];
    }

    method Add(r: Record)
      modifies this
      ensures records == old(records) + [r]
    {
      records := records + [r];
    }
  }

  /** The reporter: it hands out figures and records every save of sample images. */
  class Reporter {
    var saves: seq<SampleSave>

    constructor ()
      ensures saves == []
    {
      saves := [];
    }

    method CreateFigure(title: string) returns (f: Figure)
      ensures fresh(f) && f.title == title && f.records == []
    {
      f := new Figure(title);
    }

    method SaveImages(epoch: nat, trainIndex: nat, testIndex: nat)
      modifies this
      ensures saves == old(saves) + [SampleSave(epoch, trainIndex, testIndex)]
    {
      saves := saves + [SampleSave(epoch, trainIndex, testIndex)];
    }
  }

  /** Number of iterations of `for epoch in range(epochs)`. */
  function Iterations(epochs: int): nat
  {
    if epochs > 0 then epochs else 0
  }

  /** The epochs in [0, n) that are multiples of `period`, in the order the loop meets them. */
  function Cadence(n: nat, period: nat): seq<nat>
    requires period > 0
  {
    if n == 0 then []
    else Cadence(n - 1, period) + (if (n - 1) % period == 0 then [n - 1] else [])
  }

  /** The point an evaluation contributes to the figure of `metric`. */
  function Point(e: Evaluation, metric: Metric): Record
  {
    match metric
    case Accuracy => Record(e.accuracyTrain, e.accuracyTest)
    case Loss => Record(e.lossTrain, e.lossTest)
  }

  /** The points a figure receives over the evaluated epochs `epochs`. */
  function Series(epochs: seq<nat>, session: nat -> Evaluation, metric: Metric): seq<Record>
  {
    if epochs == [] then []
    else Series(epochs[..|epochs| - 1], session, metric) + [Point(session(epochs[|epochs| - 1]), metric)]
  }

  function EpochsOf(saves: seq<SampleSave>): seq<nat>
  {
    if saves == [] then []
    else EpochsOf(saves[..|saves| - 1]) + [saves[|saves| - 1].epoch]
  }

  // ---------------------------------------------------------------------
  // Lemmas about the schedule

  /** An epoch is in the cadence exactly when it is one of the first n and a multiple of the period. */
  lemma {:induction false} CadenceMembers(n: nat, period: nat, e: int)
    requires period > 0
    ensures e in Cadence(n, period) <==> 0 <= e < n && e % period == 0
  {
    if n > 0 {
      CadenceMembers(n - 1, period, e);
    }
  }

  /** The cadence lists its epochs in strictly increasing order, so no epoch is visited twice. */
  lemma {:induction false} CadenceIncreasing(n: nat, period: nat)
    requires period > 0
    ensures forall j, k :: 0 <= j < k < |Cadence(n, period)| ==> Cadence(n, period)[j] < Cadence(n, period)[k]
  {
    if n > 0 {
      CadenceIncreasing(n - 1, period);
      var prev := Cadence(n - 1, period);
      forall j | 0 <= j < |prev| ensures prev[j] < n - 1 {
        CadenceMembers(n - 1, period, prev[j]);
      }
    }
  }

  /** `epoch % 1 == 0` holds for every epoch: every epoch is evaluated, in order. */
  lemma {:induction false} EveryEpochEvaluated(n: nat)
    ensures |Cadence(n, EvalEvery)| == n
    ensures forall k :: 0 <= k < n ==> Cadence(n, EvalEvery)[k] == k
  {
    if n > 0 {
      EveryEpochEvaluated(n - 1);
    }
  }

  /** Epochs 0, 3, 6, ... below n: (n + 2) / 3 of them. */
  lemma {:induction false} SampleSaveCount(n: nat)
    ensures |Cadence(n, SampleEvery)| == (n + 2) / SampleEvery
  {
    if n > 0 {
      SampleSaveCount(n - 1);
    }
  }

  lemma {:induction false} SeriesLength(epochs: seq<nat>, session: nat -> Evaluation, metric: Metric)
    ensures |Series(epochs, session, metric)| == |epochs|
  {
    if epochs != [] {
      SeriesLength(epochs[..|epochs| - 1], session, metric);
    }
  }

  /** The k-th point of a figure comes from the session's evaluation of the k-th evaluated epoch. */
  lemma {:induction false} SeriesAt(epochs: seq<nat>, session: nat -> Evaluation, metric: Metric, k: nat)
    requires k < |epochs|
    ensures |Series(epochs, session, metric)| == |epochs|
    ensures Series(epochs, session, metric)[k] == Point(session(epochs[k]), metric)
  {
    SeriesLength(epochs, session, metric);
    if k < |epochs| - 1 {
      SeriesAt(epochs[..|epochs| - 1], session, metric, k);
    }
  }

  lemma SeriesAppend(epochs: seq<nat>, e: nat, session: nat -> Evaluation, metric: Metric)
    ensures Series(epochs + [e], session, metric) == Series(epochs, session, metric) + [Point(session(e), metric)]
  {
    assert (epochs + [e])[..|epochs|] == epochs;
  }

  lemma EpochsOfAppend(saves: seq<SampleSave>, s: SampleSave)
    ensures EpochsOf(saves + [s]) == EpochsOf(saves) + [s.epoch]
  {
    assert (saves + [s])[..|saves|] == saves;
  }

  /** Every save contributes exactly one epoch. */
  lemma {:induction false} EpochsOfLength(saves: seq<SampleSave>)
    ensures |EpochsOf(saves)| == |saves|
  {
    if saves != [] {
      EpochsOfLength(saves[..|saves| - 1]);
    }
  }

  /** After n epochs each figure holds exactly n points, the k-th from epoch k,
      and a save record whose epochs follow the sample cadence holds
      (n + 2) / 3 saves. */
  lemma ScheduleCounts(n: nat, session: nat -> Evaluation, metric: Metric, saves: seq<SampleSave>)
    requires EpochsOf(saves) == Cadence(n, SampleEvery)
    ensures |Series(Cadence(n, EvalEvery), session, metric)| == n
    ensures forall k :: 0 <= k < n ==> Series(Cadence(n, EvalEvery), session, metric)[k] == Point(session(k), metric)
    ensures |saves| == (n + 2) / 3
  {
    EveryEpochEvaluated(n);
    SeriesLength(Cadence(n, EvalEvery), session, metric);
    forall k | 0 <= k < n ensures Series(Cadence(n, EvalEvery), session, metric)[k] == Point(session(k), metric) {
      SeriesAt(Cadence(n, EvalEvery), session, metric, k);
    }
    SampleSaveCount(n);
    EpochsOfLength(saves);
  }

  // ---------------------------------------------------------------------
  // The training loop

  /** The epoch loop of `train`, from creating the reporter and its two
      figures to the last epoch. Sample images index the full training set
      and the kept test subset, of sizes `trainSize` and `testSize`; both
      must be large enough for any draw once an epoch runs. */
  method Train(epochs: int, trainSize: nat, testSize: nat, session: nat -> Evaluation)
    returns (accuracyFig: Figure, lossFig: Figure, reporter: Reporter)
    requires epochs > 0 ==> TrainDrawBound <= trainSize && TestDrawBound <= testSize
    ensures fresh(accuracyFig) && fresh(lossFig) && fresh(reporter) && accuracyFig != lossFig
    ensures accuracyFig.title == "Accuracy" && lossFig.title == "Loss"
    ensures accuracyFig.records == Series(Cadence(Iterations(epochs), EvalEvery), session, Accuracy)
    ensures lossFig.records == Series(Cadence(Iterations(epochs), EvalEvery), session, Loss)
    ensures |accuracyFig.records| == |lossFig.records| == Iterations(epochs)
    ensures EpochsOf(reporter.saves) == Cadence(Iterations(epochs), SampleEvery)
    ensures |reporter.saves| == (Iterations(epochs) + 2) / 3
    ensures forall s <- reporter.saves ::
      s.trainIndex < TrainDrawBound && s.trainIndex < trainSize &&
      s.testIndex < TestDrawBound && s.testIndex < testSize
  {
    reporter := new Reporter();
    accuracyFig := reporter.CreateFigure("Accuracy");
    lossFig := reporter.CreateFigure("Loss");
    var n := Iterations(epochs);
    for epoch := 0 to n
      invariant accuracyFig.title == "Accuracy" && lossFig.title == "Loss"
      invariant accuracyFig.records == Series(Cadence(epoch, EvalEvery), session, Accuracy)
      invariant lossFig.records == Series(Cadence(epoch, EvalEvery), session, Loss)
      invariant EpochsOf(reporter.saves) == Cadence(epoch, SampleEvery)
      invariant forall s <- reporter.saves ::
        s.trainIndex < TrainDrawBound && s.trainIndex < trainSize &&
        s.testIndex < TestDrawBound && s.testIndex < testSize
    {
      // The optimizer steps over the epoch's batches run inside the session.
      if epoch % EvalEvery == 0 {
        var m := session(epoch);
        accuracyFig.Add(Record(m.accuracyTrain, m.accuracyTest));
        lossFig.Add(Record(m.lossTrain, m.lossTest));
        SeriesAppend(Cadence(epoch, EvalEvery), epoch, session, Accuracy);
        SeriesAppend(Cadence(epoch, EvalEvery), epoch, session, Loss);
        if epoch % SampleEvery == 0 {
          var trainIndex :| 0 <= trainIndex < TrainDrawBound;
          var testIndex :| 0 <= testIndex < TestDrawBound;
          EpochsOfAppend(reporter.saves, SampleSave(epoch, trainIndex, testIndex));
          reporter.SaveImages(epoch, trainIndex, testIndex);
        }
      }
    }
    ScheduleCounts(n, session, Accuracy, reporter.saves);
    ScheduleCounts(n, session, Loss, reporter.saves);
  }
}
