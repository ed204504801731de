/** The best-epoch bookkeeping and early-stopping rule of the training loop,
    as functions of the sequence of validation key-metric values seen so far
    (value `vals[i]` belongs to epoch `i + 1`). */
module EarlyStopping {

  /** Whether the key metric is minimised or maximised. */
  datatype Direction = Min | Max

  /** The finite starting "best" when minimising (1e8; the loop does not start from infinity). */
  const MinSentinel: real := 100000000.0

  /** Minimise exactly when the key metric is "Loss", otherwise maximise. */
  function DirectionOf(keyEval: string): (d: Direction)
    ensures d == Min <==> keyEval == "Loss"
  {
    if keyEval == "Loss" then Min else Max
  }

  /** The non-strict comparison of the loop: a tie counts as an improvement, so does a
      strictly lower (Min) or strictly higher (Max) value, and nothing else does. */
  predicate IsBetter(d: Direction, cur: real, best: real)
    ensures cur == best ==> IsBetter(d, cur, best)
    ensures (d == Min && cur < best) || (d == Max && cur > best) ==> IsBetter(d, cur, best)
    ensures IsBetter(d, cur, best) && cur != best ==> (d == Min ==> cur < best) && (d == Max ==> cur > best)
  {
    if d == Min then cur <= best else cur >= best
  }

  /** The best value a run starts from: 1e8 for Min, 0 for Max. So the first epoch
      improves on it exactly when its loss is at most 1e8, or its metric is not negative. */
  function InitialBest(d: Direction): (b: real)
    ensures d == Min ==> forall v :: IsBetter(d, v, b) <==> v <= MinSentinel
    ensures d == Max ==> forall v :: IsBetter(d, v, b) <==> v >= 0.0
  {
    if d == Min then MinSentinel else 0.0
  }

  /** The best value seen and the (1-based) epoch it was seen at; epoch 0 means "not yet". */
  datatype BestState = BestState(value: real, epoch: nat)

  /** One comparison: on improvement both the value and the epoch move to the current ones,
      otherwise the state is kept; either way the value kept is at least as good as both. */
  function Improve(d: Direction, s: BestState, epoch: nat, cur: real): (r: BestState)
    ensures IsBetter(d, cur, s.value) ==> r == BestState(cur, epoch)
    ensures !IsBetter(d, cur, s.value) ==> r == s
    ensures IsBetter(d, r.value, s.value) && IsBetter(d, r.value, cur)
  {
    if IsBetter(d, cur, s.value) then BestState(cur, epoch) else s
  }

  /** The best state after the epochs whose validation values are `vals`. */
  function Track(d: Direction, vals: seq<real>): (s: BestState)
    ensures s.epoch <= |vals|
  {
    if |vals| == 0 then BestState(InitialBest(d), 0)
    else Improve(d, Track(d, vals[..|vals| - 1]), |vals|, vals[|vals| - 1])
  }

  /** Epochs run since the best epoch: at most the epochs run, and 0 exactly when the
      last epoch improved on the best value before it. */
  function Gap(d: Direction, vals: seq<real>): (g: nat)
    ensures g <= |vals|
    ensures |vals| > 0 ==>
      (g == 0 <==> IsBetter(d, vals[|vals| - 1], Track(d, vals[..|vals| - 1]).value))
  {
    |vals| - Track(d, vals).epoch
  }

  /** The early-stop test made at the end of every epoch. It cannot hold before
      `earlyStop` epochs have run, and a patience of 0 or less makes it hold every time. */
  predicate ShouldStop(d: Direction, earlyStop: int, vals: seq<real>)
    ensures ShouldStop(d, earlyStop, vals) ==> |vals| >= earlyStop
    ensures earlyStop <= 0 ==> ShouldStop(d, earlyStop, vals)
  {
    Gap(d, vals) >= earlyStop
  }

  /** No epoch before the last one met the early-stop test. */
  ghost predicate NoStopBefore(d: Direction, earlyStop: int, vals: seq<real>)
  {
    forall m :: 1 <= m < |vals| ==> !ShouldStop(d, earlyStop, vals[..m])
  }

  /** The loop returns after exactly |vals| epochs. */
  ghost predicate StopsFirstAt(d: Direction, earlyStop: int, vals: seq<real>)
  {
    |vals| >= 1 && ShouldStop(d, earlyStop, vals) && NoStopBefore(d, earlyStop, vals)
  }

  /** One more epoch is one more comparison. */
  lemma TrackAppend(d: Direction, vals: seq<real>, v: real)
    ensures Track(d, vals + [v]) == Improve(d, Track(d, vals), |vals| + 1, v)
  {
    assert (vals + [v])[..|vals|] == vals;
  }

  /** If the earlier epochs did not stop and this one does not either, the longer run did not stop. */
  lemma NoStopExtends(d: Direction, earlyStop: int, vals: seq<real>, v: real)
    requires NoStopBefore(d, earlyStop, vals)
    requires |vals| == 0 || !ShouldStop(d, earlyStop, vals)
    ensures NoStopBefore(d, earlyStop, vals + [v])
  {
    forall m | 1 <= m < |vals + [v]|
      ensures !ShouldStop(d, earlyStop, (vals + [v])[..m])
    {
      assert (vals + [v])[..m] == vals[..m];
      if m == |vals| {
        assert vals[..m] == vals;
      }
    }
  }

  /** In Min mode the best value is the minimum of 1e8 and every value seen; in Max mode
      the maximum of 0 and every value seen; it is the sentinel when no epoch improved
      (a value equal to the sentinel does improve), and otherwise the value of the best epoch. */
  lemma {:induction false} TrackIsExtreme(d: Direction, vals: seq<real>)
    ensures var s := Track(d, vals);
      && (d == Min ==> s.value <= MinSentinel && forall i :: 0 <= i < |vals| ==> s.value <= vals[i])
      && (d == Max ==> s.value >= 0.0 && forall i :: 0 <= i < |vals| ==> s.value >= vals[i])
      && (s.epoch == 0 ==> s.value == InitialBest(d))
      && (s.epoch > 0 ==> s.value == vals[s.epoch - 1])
  {
    if |vals| > 0 {
      var n := |vals| - 1;
      var init := vals[..n];
      TrackIsExtreme(d, init);
      assert forall i :: 0 <= i < n ==> init[i] == vals[i];
    }
  }

  /** Every epoch from the best epoch on was strictly worse than the best value:
      the best epoch is the last one that reached it, so ties favour the later epoch. */
  lemma {:induction false} TrackIsLastImprovement(d: Direction, vals: seq<real>)
    ensures var s := Track(d, vals);
      forall i :: s.epoch <= i < |vals| ==> !IsBetter(d, vals[i], s.value)
  {
    if |vals| > 0 {
      var n := |vals| - 1;
      var init := vals[..n];
      TrackIsLastImprovement(d, init);
      assert forall i :: 0 <= i < n ==> init[i] == vals[i];
    }
  }

  /** A value equal to the current best moves the best epoch to the current epoch. */
  lemma TieMovesBestEpoch(d: Direction, vals: seq<real>, v: real)
    requires v == Track(d, vals).value
    ensures Track(d, vals + [v]) == BestState(v, |vals| + 1)
  {
    TrackAppend(d, vals, v);
  }

  /** The best epoch never moves backwards. */
  lemma {:induction false} TrackEpochMonotone(d: Direction, vals: seq<real>, m: nat)
    requires m <= |vals|
    ensures Track(d, vals[..m]).epoch <= Track(d, vals).epoch
  {
    if m < |vals| {
      var n := |vals| - 1;
      var init := vals[..n];
      TrackEpochMonotone(d, init, m);
      assert init[..m] == vals[..m];
    } else {
      assert vals[..m] == vals;
    }
  }

  /** Each epoch either resets the gap to 0 (improvement) or grows it by exactly one. */
  lemma GapStep(d: Direction, vals: seq<real>, v: real)
    ensures Gap(d, vals + [v]) == 0 || Gap(d, vals + [v]) == Gap(d, vals) + 1
  {
    TrackAppend(d, vals, v);
  }

  /** With a patience of at least one, the gap at the epoch the loop returns is exactly the patience. */
  lemma StopGapIsExact(d: Direction, earlyStop: int, vals: seq<real>)
    requires earlyStop >= 1
    requires StopsFirstAt(d, earlyStop, vals)
    ensures Gap(d, vals) == earlyStop
  {
    var n := |vals| - 1;
    var init := vals[..n];
    assert vals == init + [vals[n]];
    GapStep(d, init, vals[n]);
    if n >= 1 {
      assert !ShouldStop(d, earlyStop, vals[..n]);
    }
  }

  /** Some of the first `n` epochs beats the sentinel. */
  ghost predicate BeatsSentinelWithin(d: Direction, vals: seq<real>, n: int)
  {
    exists i :: 0 <= i < n && i < |vals| && IsBetter(d, vals[i], InitialBest(d))
  }

  /** Once some epoch has beaten the sentinel, the best epoch is at least 1. */
  lemma {:induction false} BeatenSentinelMovesBestEpoch(d: Direction, vals: seq<real>, i: nat)
    requires i < |vals| && IsBetter(d, vals[i], InitialBest(d))
    ensures Track(d, vals).epoch >= 1
  {
    var pre := vals[..i];
    TrackIsExtreme(d, pre);
    assert vals[..i + 1] == pre + [vals[i]];
    TrackAppend(d, pre, vals[i]);
    TrackEpochMonotone(d, vals, i + 1);
  }

  /** If some epoch among those run beats the sentinel, the stop test cannot hold
      before `earlyStop + 1` epochs. */
  lemma ImprovementDelaysStop(d: Direction, earlyStop: int, vals: seq<real>)
    requires BeatsSentinelWithin(d, vals, |vals|)
    requires ShouldStop(d, earlyStop, vals)
    ensures |vals| >= earlyStop + 1
  {
    var i :| 0 <= i < |vals| && IsBetter(d, vals[i], InitialBest(d));
    BeatenSentinelMovesBestEpoch(d, vals, i);
  }

  /** With a patience of at least one, the loop returns after `earlyStop` epochs when none
      of the first `earlyStop` epochs beats the sentinel, and after more otherwise. */
  lemma FirstStopLength(d: Direction, earlyStop: int, vals: seq<real>)
    requires earlyStop >= 1
    requires StopsFirstAt(d, earlyStop, vals)
    ensures |vals| >= earlyStop
    ensures |vals| == earlyStop <==> !BeatsSentinelWithin(d, vals, earlyStop)
  {
    if BeatsSentinelWithin(d, vals, earlyStop) {
      ImprovementDelaysStop(d, earlyStop, vals);
    } else if |vals| > earlyStop {
      var pre := vals[..earlyStop];
      NoImprovementKeepsInitial(d, pre);
      assert ShouldStop(d, earlyStop, pre);
      assert false;
    }
  }

  /** Values that never beat the sentinel leave the best state at its start. */
  lemma {:induction false} NoImprovementKeepsInitial(d: Direction, vals: seq<real>)
    requires forall i :: 0 <= i < |vals| ==> !IsBetter(d, vals[i], InitialBest(d))
    ensures Track(d, vals) == BestState(InitialBest(d), 0)
  {
    if |vals| > 0 {
      NoImprovementKeepsInitial(d, vals[..|vals| - 1]);
    }
  }

  /** If no epoch beats the sentinel (a loss above 1e8 in Min mode, a negative metric in
      Max mode), the loop returns after exactly `earlyStop` epochs: one epoch fewer than
      the shortest run in which some epoch improves. */
  lemma NeverImprovingStopsAtPatience(d: Direction, earlyStop: int, vals: seq<real>)
    requires earlyStop >= 1 && |vals| == earlyStop
    requires forall i :: 0 <= i < |vals| ==> !IsBetter(d, vals[i], InitialBest(d))
    ensures StopsFirstAt(d, earlyStop, vals)
    ensures Track(d, vals).epoch == 0
  {
    NoImprovementKeepsInitial(d, vals);
    forall m | 1 <= m < |vals|
      ensures !ShouldStop(d, earlyStop, vals[..m])
    {
      NoImprovementKeepsInitial(d, vals[..m]);
    }
  }

  /** A metric that reaches the sentinel and then stays constant improves (by a tie) at
      every epoch, so the loop never returns: the run is unbounded. */
  lemma {:induction false} ConstantMetricNeverStops(d: Direction, earlyStop: int, c: real, vals: seq<real>)
    requires earlyStop >= 1 && |vals| >= 1
    requires IsBetter(d, c, InitialBest(d))
    requires forall i :: 0 <= i < |vals| ==> vals[i] == c
    ensures Track(d, vals) == BestState(c, |vals|)
    ensures !ShouldStop(d, earlyStop, vals)
  {
    var n := |vals| - 1;
    if n > 0 {
      ConstantMetricNeverStops(d, earlyStop, c, vals[..n]);
    }
  }

  /** Minimising "Loss" with patience 1 over [0.5, 0.6]: best epoch 1, return after epoch 2. */
  lemma ScenarioMinimiseLoss()
    ensures Track(Min, [0.5, 0.6]) == BestState(0.5, 1)
    ensures StopsFirstAt(Min, 1, [0.5, 0.6])
  {
    assert [0.5, 0.6][..1] == [0.5];
    assert [0.5][..0] == [];
  }

  /** Maximising with patience 2 over [0.70, 0.70, 0.65]: the tie moves the best epoch to 2,
      and after epoch 3 the gap is 1, so the loop goes on. */
  lemma ScenarioMaximiseTie()
    ensures Track(Max, [0.70, 0.70, 0.65]) == BestState(0.70, 2)
    ensures NoStopBefore(Max, 2, [0.70, 0.70, 0.65]) && !ShouldStop(Max, 2, [0.70, 0.70, 0.65])
  {
    var vals := [0.70, 0.70, 0.65];
    assert vals[..2] == [0.70, 0.70];
    assert vals[..1] == [0.70];
    assert [0.70, 0.70][..1] == [0.70];
    assert [0.70][..0] == [];
  }
}
