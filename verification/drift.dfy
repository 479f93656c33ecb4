/** One drift update of the whole centroid set (the body of the per-sample
    loop in `next_sample` before the base draw), as a pure function, and
    what holds after any number of such updates. */
module Drift {
  import opened Vectors
  import opened Configuration
  import opened State
  import opened Reflection

  /** The drift update: each of the first `Drifting` centroids moves through
      `MoveCentre` with its own velocity; every other centroid and the
      configuration are left alone. */
  function Step(g: Generator): (g': Generator)
    requires Valid(g)
    ensures Valid(g')
    ensures g'.config == g.config && g'.currentX == g.currentX && g'.currentY == g.currentY
  {
    var k := Drifting(g.config);
    var cs := g.config.changeSpeed;
    var centroids := seq(|g.centroids|, i requires 0 <= i < |g.centroids| =>
      if i < k then g.centroids[i].(centre := MoveCentre(g.centroids[i].centre, g.speeds[i], cs).0)
      else g.centroids[i]);
    var speeds := seq(|g.speeds|, i requires 0 <= i < |g.speeds| =>
      MoveCentre(g.centroids[i].centre, g.speeds[i], cs).1);
    g.(centroids := centroids, speeds := speeds)
  }

  /** Boundedness of one update: the moved centres lie in the unit cube
      whatever they held before. */
  lemma StepBounded(g: Generator)
    requires Valid(g)
    ensures forall i, j :: 0 <= i < Drifting(g.config) && 0 <= j < g.config.nFeatures ==>
              InUnit(Step(g).centroids[i].centre[j])
  {
    forall i | 0 <= i < Drifting(g.config)
      ensures forall j :: 0 <= j < g.config.nFeatures ==> InUnit(Step(g).centroids[i].centre[j])
    {
      MoveCentreSpec(g.centroids[i].centre, g.speeds[i], g.config.changeSpeed);
    }
  }

  /** Frame of one update: centroids past the drifting ones are untouched,
      and no label or radius changes. */
  lemma StepFrame(g: Generator)
    requires Valid(g)
    ensures forall i :: Drifting(g.config) <= i < |g.centroids| ==> Step(g).centroids[i] == g.centroids[i]
    ensures forall i :: 0 <= i < |g.centroids| ==>
              Step(g).centroids[i].classLabel == g.centroids[i].classLabel
              && Step(g).centroids[i].stdDev == g.centroids[i].stdDev
  {
  }

  /** Reflection of one update: each velocity component keeps or reverses its
      sign, so each velocity keeps its sum of squares. */
  lemma StepReflects(g: Generator)
    requires Valid(g)
    ensures forall i, j :: 0 <= i < |g.speeds| && 0 <= j < g.config.nFeatures ==>
              Step(g).speeds[i][j] == g.speeds[i][j] || Step(g).speeds[i][j] == -g.speeds[i][j]
    ensures forall i :: 0 <= i < |g.speeds| ==> SumSq(Step(g).speeds[i]) == SumSq(g.speeds[i])
  {
    forall i | 0 <= i < |g.speeds|
      ensures forall j :: 0 <= j < g.config.nFeatures ==>
                Step(g).speeds[i][j] == g.speeds[i][j] || Step(g).speeds[i][j] == -g.speeds[i][j]
      ensures SumSq(Step(g).speeds[i]) == SumSq(g.speeds[i])
    {
      MoveCentreSpec(g.centroids[i].centre, g.speeds[i], g.config.changeSpeed);
    }
  }

  /** `n` consecutive drift updates. */
  function Steps(g: Generator, n: nat): (g': Generator)
    requires Valid(g)
    ensures Valid(g')
    ensures g'.config == g.config && g'.currentX == g.currentX && g'.currentY == g.currentY
  {
    if n == 0 then g else Step(Steps(g, n - 1))
  }

  /** Boundedness: after at least one update every coordinate of every
      drifting centroid lies in [0, 1]. */
  lemma StepsBounded(g: Generator, n: nat)
    requires Valid(g)
    requires n >= 1
    ensures forall i, j :: 0 <= i < Drifting(g.config) && 0 <= j < g.config.nFeatures ==>
              InUnit(Steps(g, n).centroids[i].centre[j])
  {
    StepBounded(Steps(g, n - 1));
  }

  /** Velocity-magnitude invariance: no number of updates changes the sum of
      squares of any velocity. */
  lemma {:induction false} StepsKeepSpeedNorm(g: Generator, n: nat)
    requires Valid(g)
    ensures forall i :: 0 <= i < |g.speeds| ==> SumSq(Steps(g, n).speeds[i]) == SumSq(g.speeds[i])
  {
    if n > 0 {
      StepsKeepSpeedNorm(g, n - 1);
      var h := Steps(g, n - 1);
      assert Steps(g, n) == Step(h);
      assert |h.speeds| == |g.speeds|;
      StepReflects(h);
      forall i | 0 <= i < |g.speeds|
        ensures SumSq(Steps(g, n).speeds[i]) == SumSq(g.speeds[i])
      {
        assert SumSq(Step(h).speeds[i]) == SumSq(h.speeds[i]);
      }
    }
  }

  /** A velocity of unit length stays of unit length. */
  lemma UnitSpeedsStayUnit(g: Generator, n: nat)
    requires Valid(g)
    requires forall i :: 0 <= i < |g.speeds| ==> SumSq(g.speeds[i]) == 1.0
    ensures forall i :: 0 <= i < |g.speeds| ==> SumSq(Steps(g, n).speeds[i]) == 1.0
  {
    StepsKeepSpeedNorm(g, n);
  }

  /** Frame: centroids that do not drift never change, and no centroid's label
      or radius ever changes. */
  lemma {:induction false} StepsFrame(g: Generator, n: nat)
    requires Valid(g)
    ensures forall i :: Drifting(g.config) <= i < |g.centroids| ==> Steps(g, n).centroids[i] == g.centroids[i]
    ensures forall i :: 0 <= i < |g.centroids| ==>
              Steps(g, n).centroids[i].classLabel == g.centroids[i].classLabel
              && Steps(g, n).centroids[i].stdDev == g.centroids[i].stdDev
  {
    if n > 0 {
      StepsFrame(g, n - 1);
      StepFrame(Steps(g, n - 1));
    }
  }

  /** Labels stay in range under drift. */
  lemma StepsKeepLabelsInRange(g: Generator, n: nat)
    requires Valid(g)
    requires LabelsInRange(g)
    ensures LabelsInRange(Steps(g, n))
  {
    StepsFrame(g, n);
  }

  /** The drifting centres lie in the unit cube. */
  ghost predicate DriftingInUnit(g: Generator)
    requires Valid(g)
  {
    forall i, j :: 0 <= i < Drifting(g.config) && 0 <= j < g.config.nFeatures ==>
      InUnit(g.centroids[i].centre[j])
  }

  /** No-drift idempotence, one step: with change speed 0, a state whose
      drifting centres are in the unit cube is its own update. */
  lemma StepAtRest(g: Generator)
    requires Valid(g)
    requires g.config.changeSpeed == 0.0
    requires DriftingInUnit(g)
    ensures Step(g) == g
  {
    var g' := Step(g);
    forall i | 0 <= i < |g.speeds|
      ensures g'.centroids[i] == g.centroids[i] && g'.speeds[i] == g.speeds[i]
    {
      MoveCentreAtRest(g.centroids[i].centre, g.speeds[i]);
    }
    assert g'.centroids == g.centroids;
    assert g'.speeds == g.speeds;
  }

  /** No-drift idempotence: with change speed 0, such a state is unchanged by
      any number of updates, positions and velocities alike. */
  lemma {:induction false} StepsAtRest(g: Generator, n: nat)
    requires Valid(g)
    requires g.config.changeSpeed == 0.0
    requires DriftingInUnit(g)
    ensures Steps(g, n) == g
  {
    if n > 0 {
      StepsAtRest(g, n - 1);
      StepAtRest(g);
    }
  }

  /** No-drift idempotence for one centroid, one step: with change speed 0, a
      drifting centroid whose centre is in the unit cube keeps its centre and
      velocity, whatever the other centroids hold. */
  lemma CentroidStepAtRest(g: Generator, i: nat)
    requires Valid(g)
    requires g.config.changeSpeed == 0.0
    requires i < Drifting(g.config)
    requires forall j :: 0 <= j < g.config.nFeatures ==> InUnit(g.centroids[i].centre[j])
    ensures Step(g).centroids[i] == g.centroids[i]
    ensures Step(g).speeds[i] == g.speeds[i]
  {
    MoveCentreAtRest(g.centroids[i].centre, g.speeds[i]);
  }

  /** No-drift idempotence for one centroid: with change speed 0, a drifting
      centroid whose centre is in the unit cube keeps identical coordinates
      and velocity under any number of updates. */
  lemma {:induction false} CentroidStepsAtRest(g: Generator, i: nat, n: nat)
    requires Valid(g)
    requires g.config.changeSpeed == 0.0
    requires i < Drifting(g.config)
    requires forall j :: 0 <= j < g.config.nFeatures ==> InUnit(g.centroids[i].centre[j])
    ensures Steps(g, n).centroids[i] == g.centroids[i]
    ensures Steps(g, n).speeds[i] == g.speeds[i]
  {
    if n > 0 {
      CentroidStepsAtRest(g, i, n - 1);
      var h := Steps(g, n - 1);
      assert Steps(g, n) == Step(h);
      CentroidStepAtRest(h, i);
    }
  }
}
