/** `_generate_centroids`: on top of the base generator's centroids, one
    velocity of unit length per drifting centroid, and a weighted label draw
    that overrides the base generator's label of each drifting centroid. */
module Initialisation {
  import opened Outcomes
  import opened Vectors
  import opened Configuration
  import opened State

  /** The raw velocity of drifting centroid `i`: the next n_features draws
      from the model random source, `rand(t)` being its t-th draw. */
  function RawSpeed(rand: nat -> real, nFeatures: nat, i: nat): (v: seq<real>)
    ensures |v| == nFeatures
  {
    seq(nFeatures, j requires 0 <= j < nFeatures => rand(i * nFeatures + j))
  }

  /** `rand()` draws from [0, 1). */
  ghost predicate UniformDraws(rand: nat -> real) {
    forall t: nat :: 0.0 <= rand(t) < 1.0
  }

  /** `np.sqrt` over the non-negative reals, without rounding. */
  ghost predicate IsSqrt(sqrt: real -> real) {
    forall x: real :: 0.0 <= x ==> 0.0 <= sqrt(x) && sqrt(x) * sqrt(x) == x
  }

  /** The weighted label draw yields a label of `range(n_classes)`, or None
      where it raises. */
  ghost predicate LabelDraws(choose: nat -> Option<int>, nClasses: nat) {
    forall t: nat :: choose(t).Some? ==> 0 <= choose(t).value < nClasses
  }

  /** A velocity is the unit-length rescaling of its raw draw: the raw draw
      divided by its Euclidean norm, so its components are non-negative and
      its sum of squares is 1. An empty draw stays empty. */
  ghost predicate NormalisedFrom(v: seq<real>, raw: seq<real>, sqrt: real -> real) {
    && |v| == |raw|
    && (forall j :: 0 <= j < |v| ==> 0.0 <= v[j])
    && (|raw| > 0 ==>
          && sqrt(SumSq(raw)) != 0.0
          && v == Scale(raw, sqrt(SumSq(raw)))
          && SumSq(v) == 1.0)
  }

  lemma UnitFromScaled(s: real, x: real)
    requires x > 0.0
    requires s * x == x
    ensures s == 1.0
  {
  }

  /** The drawing loop: n_features draws from the model random source and
      their running sum of squares. */
  method DrawRawSpeed(rand: nat -> real, nFeatures: nat, i: nat)
    returns (randSpeed: seq<real>, normSpeed: real)
    ensures randSpeed == RawSpeed(rand, nFeatures, i)
    ensures normSpeed == SumSq(randSpeed)
  {
    ghost var raw := RawSpeed(rand, nFeatures, i);
    randSpeed, normSpeed := [], 0.0;
    var j := 0;
    while j < nFeatures
      invariant 0 <= j <= nFeatures
      invariant randSpeed == raw[..j]
      invariant normSpeed == SumSq(randSpeed)
    {
      var d := rand(i * nFeatures + j);
      assert (randSpeed + [d])[..j] == randSpeed;
      randSpeed := randSpeed + [d];
      normSpeed := normSpeed + d * d;
      j := j + 1;
    }
    assert randSpeed == raw;
  }

  /** The dividing loop: every component divided in place by the norm. An
      empty vector is never divided, so its norm may be 0. */
  method DivideBy(randSpeed: seq<real>, normSpeed: real) returns (v: seq<real>)
    requires |randSpeed| == 0 || normSpeed != 0.0
    ensures |randSpeed| > 0 ==> v == Scale(randSpeed, normSpeed)
    ensures |randSpeed| == 0 ==> v == randSpeed
  {
    v := randSpeed;
    var j := 0;
    while j < |randSpeed|
      invariant 0 <= j <= |randSpeed|
      invariant |v| == |randSpeed|
      invariant forall j' :: 0 <= j' < j ==> v[j'] == randSpeed[j'] / normSpeed
      invariant forall j' :: j <= j' < |randSpeed| ==> v[j'] == randSpeed[j']
    {
      v := v[j := v[j] / normSpeed];
      j := j + 1;
    }
    if |randSpeed| > 0 {
      assert v == Scale(randSpeed, normSpeed);
    }
  }

  /** The velocity of drifting centroid `i`: draw n_features values,
      accumulate their sum of squares, take its square root and divide each
      component by it. The source divides by zero when every draw is 0, so a
      non-zero raw draw is required whenever there is a component to divide. */
  method Velocity(rand: nat -> real, sqrt: real -> real, nFeatures: nat, i: nat)
    returns (v: seq<real>)
    requires UniformDraws(rand)
    requires IsSqrt(sqrt)
    requires nFeatures == 0 || SumSq(RawSpeed(rand, nFeatures, i)) > 0.0
    ensures NormalisedFrom(v, RawSpeed(rand, nFeatures, i), sqrt)
  {
    var randSpeed, normSq := DrawRawSpeed(rand, nFeatures, i);
    var normSpeed := sqrt(normSq);
    assert 0.0 <= normSpeed && normSpeed * normSpeed == normSq;
    v := DivideBy(randSpeed, normSpeed);
    if nFeatures > 0 {
      UnitScaling(randSpeed, sqrt);
    }
  }

  /** Dividing a non-negative, non-zero vector by the square root of its sum
      of squares normalises it. */
  lemma UnitScaling(raw: seq<real>, sqrt: real -> real)
    requires |raw| > 0 && SumSq(raw) > 0.0
    requires IsSqrt(sqrt)
    requires forall j :: 0 <= j < |raw| ==> 0.0 <= raw[j]
    ensures sqrt(SumSq(raw)) != 0.0
    ensures NormalisedFrom(Scale(raw, sqrt(SumSq(raw))), raw, sqrt)
  {
    var norm := sqrt(SumSq(raw));
    assert 0.0 <= norm && norm * norm == SumSq(raw);
    ScaleToUnit(raw, norm);
    ScaleNonNegative(raw, norm);
  }

  /** Dividing by the square root of the sum of squares gives sum of squares 1. */
  lemma ScaleToUnit(raw: seq<real>, norm: real)
    requires 0.0 <= norm && norm * norm == SumSq(raw) && SumSq(raw) > 0.0
    ensures norm != 0.0
    ensures SumSq(Scale(raw, norm)) == 1.0
  {
    assert norm != 0.0;
    SumSqScale(raw, norm);
    var t, total := SumSq(Scale(raw, norm)), SumSq(raw);
    calc {
      t * total;
      t * (norm * norm);
      total;
    }
    UnitFromScaled(t, total);
  }

  /** Dividing a non-negative vector by a positive number keeps it non-negative. */
  lemma ScaleNonNegative(raw: seq<real>, norm: real)
    requires norm > 0.0
    requires forall j :: 0 <= j < |raw| ==> 0.0 <= raw[j]
    ensures forall j :: 0 <= j < |raw| ==> 0.0 <= Scale(raw, norm)[j]
  {
    var v := Scale(raw, norm);
    forall j | 0 <= j < |raw|
      ensures 0.0 <= v[j]
    {
      NonNegativeQuotient(v[j], norm, raw[j]);
    }
  }

  lemma NonNegativeQuotient(q: real, d: real, n: real)
    requires d > 0.0 && q * d == n && n >= 0.0
    ensures q >= 0.0
  {
  }

  /** `_generate_centroids`, given the centroids the base generator placed.
      Each drifting centroid gets a normalised velocity and a freshly drawn
      label in [0, n_classes); centres, radii and the other centroids are the
      base generator's. The label draw raising aborts the whole operation. */
  method GenerateCentroids(
    g: Generator, base: seq<Centroid>,
    rand: nat -> real, sqrt: real -> real, choose: nat -> Option<int>)
    returns (r: Result<Generator>)
    requires |base| == g.config.nCentroids
    requires forall i :: 0 <= i < |base| ==> |base[i].centre| == g.config.nFeatures
    requires UniformDraws(rand)
    requires IsSqrt(sqrt)
    requires LabelDraws(choose, g.config.nClasses)
    requires forall i :: 0 <= i < Drifting(g.config) ==>
               g.config.nFeatures == 0 || SumSq(RawSpeed(rand, g.config.nFeatures, i)) > 0.0
    ensures r.Failure? <==> exists i :: 0 <= i < Drifting(g.config) && choose(i).None?
    ensures r.Failure? ==> r.error == LabelDrawFailed
    ensures r.Success? ==>
              && Valid(r.value)
              && r.value.config == g.config
              && r.value.currentX == g.currentX && r.value.currentY == g.currentY
              && (forall i :: 0 <= i < |base| ==>
                    r.value.centroids[i].centre == base[i].centre
                    && r.value.centroids[i].stdDev == base[i].stdDev)
              && (forall i :: Drifting(g.config) <= i < |base| ==> r.value.centroids[i] == base[i])
              && (forall i :: 0 <= i < Drifting(g.config) ==>
                    choose(i) == Some(r.value.centroids[i].classLabel)
                    && 0 <= r.value.centroids[i].classLabel < g.config.nClasses)
              && (forall i :: 0 <= i < Drifting(g.config) ==>
                    NormalisedFrom(r.value.speeds[i], RawSpeed(rand, g.config.nFeatures, i), sqrt))
  {
    var numDrift := g.config.numDriftCentroids;
    var speeds: seq<seq<real>> := [];
    if numDrift > g.config.nCentroids {
      numDrift := g.config.nCentroids;
    }
    var centroids := base;
    var i := 0;
    while i < numDrift
      invariant 0 <= i <= Drifting(g.config)
      invariant |speeds| == i && |centroids| == |base|
      invariant forall i' :: 0 <= i' < i ==>
                  NormalisedFrom(speeds[i'], RawSpeed(rand, g.config.nFeatures, i'), sqrt)
      invariant forall i' :: 0 <= i' < i ==>
                  choose(i') == Some(centroids[i'].classLabel)
                  && centroids[i'] == base[i'].(classLabel := centroids[i'].classLabel)
      invariant forall i' :: i <= i' < |base| ==> centroids[i'] == base[i']
    {
      var v := Velocity(rand, sqrt, g.config.nFeatures, i);
      speeds := speeds + [v];
      var drawn := choose(i);
      if drawn.None? {
        return Failure(LabelDrawFailed);
      }
      centroids := centroids[i := centroids[i].(classLabel := drawn.value)];
      i := i + 1;
    }
    r := Success(g.(centroids := centroids, speeds := speeds));
  }
}
