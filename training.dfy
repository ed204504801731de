/** The training run: one epoch = a training pass, a validation pass and a test pass,
    then the best-epoch update and the early-stop test. The trainer's loop has no
    epoch cap; here the per-epoch batch data is a finite sequence, and a run that uses
    it all up without stopping ends as Exhausted. */
module Training {
  import opened EarlyStopping
  import opened Evaluation

  /** The three per-split result histories, one entry per epoch. */
  datatype History = History(train: seq<Scores>, valid: seq<Scores>, test: seq<Scores>)

  /** What one epoch sees: the batches (with outputs and losses) of each split. */
  datatype EpochData = EpochData(train: seq<Batch>, valid: seq<Batch>, test: seq<Batch>)

  /** The scores of one epoch on the three splits. */
  datatype EpochScores = EpochScores(train: Scores, valid: Scores, test: Scores)

  /** How a run ended: the early-stop return, an error, or the epoch data running out. */
  datatype Status = Stopped | Failed(error: Error) | Exhausted

  /** The end of a run: how it ended, the histories, and the epoch whose parameters the
      saved snapshot holds (0: none saved). */
  datatype RunOutcome = RunOutcome(status: Status, history: History, snapshotEpoch: nat)

  /** What one iteration of the loop decides. */
  datatype StepOutcome = Continue | Stop | KeyAbsent

  predicate HasKey(rs: seq<Scores>, key: string)
  {
    forall i :: 0 <= i < |rs| ==> key in rs[i]
  }

  /** The key metric of every validation result, in epoch order. */
  function KeyValues(rs: seq<Scores>, key: string): (vals: seq<real>)
    requires HasKey(rs, key)
    ensures |vals| == |rs|
  {
    seq(|rs|, i requires 0 <= i < |rs| => rs[i][key])
  }

  lemma KeyValuesAppend(rs: seq<Scores>, s: Scores, key: string)
    requires HasKey(rs, key) && key in s
    ensures HasKey(rs + [s], key)
    ensures KeyValues(rs + [s], key) == KeyValues(rs, key) + [s[key]]
  {
  }

  /** The scores of one epoch's three passes, or the error of the first empty split
      (training, then validation, then test). */
  function EpochPasses(e: EpochData, metrics: Metrics): (r: Result<EpochScores>)
    ensures r.Success? <==> |e.train| > 0 && |e.valid| > 0 && |e.test| > 0
    ensures r.Failure? ==> r.error == DivisionByZero
  {
    match PassScores(e.train, metrics)
    case Failure(err) => Failure(err)
    case Success(tr) =>
      match PassScores(e.valid, metrics)
      case Failure(err) => Failure(err)
      case Success(va) =>
        match PassScores(e.test, metrics)
        case Failure(err) => Failure(err)
        case Success(te) => Success(EpochScores(tr, va, te))
  }

  /** One epoch's scores, or the first error it runs into: an empty split, then a
      validation result without the key metric. */
  function EpochOutcome(e: EpochData, keyEval: string, metrics: Metrics): (r: Result<EpochScores>)
    ensures r.Success? <==> EpochPasses(e, metrics).Success? && keyEval in EpochPasses(e, metrics).value.valid
    ensures r.Success? ==> r == EpochPasses(e, metrics)
    ensures r.Failure? ==> r.error == DivisionByZero || r.error == MissingKey(keyEval)
  {
    match EpochPasses(e, metrics)
    case Failure(err) => Failure(err)
    case Success(s) => if keyEval in s.valid then Success(s) else Failure(MissingKey(keyEval))
  }

  /** The history records, epoch by epoch, the scores of the first |h.valid| epochs of `data`. */
  ghost predicate Agrees(data: seq<EpochData>, h: History, keyEval: string, metrics: Metrics)
  {
    && |h.train| == |h.valid| && |h.test| == |h.valid| && |h.valid| <= |data|
    && forall i :: 0 <= i < |h.valid| ==>
         EpochOutcome(data[i], keyEval, metrics) == Success(EpochScores(h.train[i], h.valid[i], h.test[i]))
  }

  /** A recorded epoch extends an agreeing history. */
  lemma AgreesAppend(data: seq<EpochData>, h: History, keyEval: string, metrics: Metrics, s: EpochScores)
    requires Agrees(data, h, keyEval, metrics) && |h.valid| < |data|
    requires EpochOutcome(data[|h.valid|], keyEval, metrics) == Success(s)
    ensures Agrees(data, History(h.train + [s.train], h.valid + [s.valid], h.test + [s.test]), keyEval, metrics)
  {
  }

  /** The state of a run between epochs: the counters, the best value and the histories. */
  class TrainingRun {
    const keyEval: string
    const direction: Direction
    const earlyStop: int
    var epochs: nat
    var bestEpoch: nat
    var bestValid: real
    var trainResults: seq<Scores>
    var validResults: seq<Scores>
    var testResults: seq<Scores>
    /** The epoch whose parameters the saved snapshot holds (0: none saved yet). */
    ghost var snapshotEpoch: nat

    /** One history entry per epoch, and the best value and epoch are those of Track
        over the validation key metrics seen so far. */
    ghost predicate Valid()
      reads this
    {
      && |trainResults| == epochs && |validResults| == epochs && |testResults| == epochs
      && HasKey(validResults, keyEval)
      && direction == DirectionOf(keyEval)
      && Track(direction, KeyValues(validResults, keyEval)) == BestState(bestValid, bestEpoch)
      && snapshotEpoch == bestEpoch
    }

    constructor (keyEval: string, earlyStop: int)
      ensures Valid()
      ensures this.keyEval == keyEval && this.earlyStop == earlyStop
      ensures direction == (if keyEval == "Loss" then Min else Max)
      ensures bestValid == (if keyEval == "Loss" then MinSentinel else 0.0)
      ensures epochs == 0 && bestEpoch == 0
      ensures trainResults == [] && validResults == [] && testResults == []
    {
      this.keyEval := keyEval;
      this.earlyStop := earlyStop;
      var d := DirectionOf(keyEval);
      direction := d;
      epochs, bestEpoch := 0, 0;
      trainResults, validResults, testResults := [], [], [];
      bestValid := if d == Min then MinSentinel else 0.0;
      snapshotEpoch := 0;
    }

    /** The bookkeeping of one epoch, given the scores of its three passes. */
    method Step(trainRes: Scores, validRes: Scores, testRes: Scores) returns (outcome: StepOutcome)
      requires Valid()
      modifies this
      ensures Valid()
      ensures keyEval !in validRes ==> outcome == KeyAbsent && unchanged(this)
      ensures keyEval in validRes ==>
        && outcome != KeyAbsent
        && epochs == old(epochs) + 1
        && trainResults == old(trainResults) + [trainRes]
        && validResults == old(validResults) + [validRes]
        && testResults == old(testResults) + [testRes]
        && (IsBetter(direction, validRes[keyEval], old(bestValid)) ==>
              bestValid == validRes[keyEval] && bestEpoch == epochs && snapshotEpoch == epochs)
        && (!IsBetter(direction, validRes[keyEval], old(bestValid)) ==>
              bestValid == old(bestValid) && bestEpoch == old(bestEpoch) && snapshotEpoch == old(snapshotEpoch))
        && bestEpoch <= epochs
        && (outcome == Stop <==> epochs - bestEpoch >= earlyStop)
    {
      if keyEval !in validRes {
        return KeyAbsent;
      }
      ghost var seen := KeyValues(validResults, keyEval);
      epochs := epochs + 1;
      trainResults := trainResults + [trainRes];
      validResults := validResults + [validRes];
      testResults := testResults + [testRes];
      var cur := validRes[keyEval];
      KeyValuesAppend(old(validResults), validRes, keyEval);
      TrackAppend(direction, seen, cur);
      var isBetter := IsBetter(direction, cur, bestValid);
      if isBetter {
        bestValid, bestEpoch := cur, epochs;
        snapshotEpoch := epochs;
      }
      outcome := if epochs - bestEpoch >= earlyStop then Stop else Continue;
    }
  }

  /** The passes of one epoch: the training pass (optimizer steps aside), then the
      validation and the test passes without details. */
  method RunEpoch(e: EpochData, metrics: Metrics) returns (r: Result<EpochScores>)
    ensures r == EpochPasses(e, metrics)
  {
    var train := TrainPass(e.train, metrics);
    if train.Failure? {
      return Failure(train.error);
    }
    var valid := DoTest(e.valid, false, metrics);
    if valid.Failure? {
      return Failure(valid.error);
    }
    var test := DoTest(e.test, false, metrics);
    if test.Failure? {
      return Failure(test.error);
    }
    r := Success(EpochScores(train.value, valid.value.scores, test.value.scores));
  }

  /** The whole training loop over the given epochs. The history agrees with the epoch
      data; no epoch before the last stopped; the run stopped exactly when the last epoch
      met the early-stop test, failed with the error of the first failing epoch, or used
      up all the data. */
  method DoTrain(keyEval: string, earlyStop: int, data: seq<EpochData>, metrics: Metrics)
    returns (r: RunOutcome)
    ensures Agrees(data, r.history, keyEval, metrics)
    ensures HasKey(r.history.valid, keyEval)
    ensures NoStopBefore(DirectionOf(keyEval), earlyStop, KeyValues(r.history.valid, keyEval))
    ensures r.status == Stopped <==>
      |r.history.valid| >= 1 && ShouldStop(DirectionOf(keyEval), earlyStop, KeyValues(r.history.valid, keyEval))
    ensures r.status.Failed? ==>
      |r.history.valid| < |data| && EpochOutcome(data[|r.history.valid|], keyEval, metrics) == Failure(r.status.error)
    ensures r.status == Exhausted ==> |r.history.valid| == |data|
    ensures r.snapshotEpoch == Track(DirectionOf(keyEval), KeyValues(r.history.valid, keyEval)).epoch
  {
    var run := new TrainingRun(keyEval, earlyStop);
    var d := DirectionOf(keyEval);
    var i := 0;
    while i < |data|
      invariant 0 <= i <= |data|
      invariant run.Valid() && run.keyEval == keyEval && run.earlyStop == earlyStop && run.epochs == i
      invariant Agrees(data, History(run.trainResults, run.validResults, run.testResults), keyEval, metrics)
      invariant NoStopBefore(d, earlyStop, KeyValues(run.validResults, keyEval))
      invariant i == 0 || !ShouldStop(d, earlyStop, KeyValues(run.validResults, keyEval))
    {
      var e := data[i];
      var history := History(run.trainResults, run.validResults, run.testResults);
      var passes := RunEpoch(e, metrics);
      if passes.Failure? {
        return RunOutcome(Failed(passes.error), history, run.bestEpoch);
      }
      var scores := passes.value;
      ghost var before := KeyValues(run.validResults, keyEval);
      var outcome := run.Step(scores.train, scores.valid, scores.test);
      if outcome == KeyAbsent {
        return RunOutcome(Failed(MissingKey(keyEval)), history, run.bestEpoch);
      }
      AgreesAppend(data, history, keyEval, metrics, scores);
      KeyValuesAppend(history.valid, scores.valid, keyEval);
      NoStopExtends(d, earlyStop, before, scores.valid[keyEval]);
      i := i + 1;
      if outcome == Stop {
        return RunOutcome(Stopped, History(run.trainResults, run.validResults, run.testResults), run.bestEpoch);
      }
    }
    r := RunOutcome(Exhausted, History(run.trainResults, run.validResults, run.testResults), run.bestEpoch);
  }

  /** On the early-stop return with a patience of at least one, the run lasted exactly
      `earlyStop` epochs past its best epoch, and each history has one entry per epoch. */
  lemma StoppedRunShape(keyEval: string, earlyStop: int, data: seq<EpochData>, metrics: Metrics, r: RunOutcome)
    requires earlyStop >= 1
    requires Agrees(data, r.history, keyEval, metrics) && HasKey(r.history.valid, keyEval)
    requires NoStopBefore(DirectionOf(keyEval), earlyStop, KeyValues(r.history.valid, keyEval))
    requires r.status == Stopped
    requires |r.history.valid| >= 1 && ShouldStop(DirectionOf(keyEval), earlyStop, KeyValues(r.history.valid, keyEval))
    ensures var vals := KeyValues(r.history.valid, keyEval);
      && |r.history.train| == |vals| && |r.history.test| == |vals|
      && |vals| == Track(DirectionOf(keyEval), vals).epoch + earlyStop
  {
    StopGapIsExact(DirectionOf(keyEval), earlyStop, KeyValues(r.history.valid, keyEval));
  }
}
