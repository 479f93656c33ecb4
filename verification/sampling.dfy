/** `next_sample`: the per-sample drift loop written as the source writes it
    (in-place updates, coordinate by coordinate), the delegation to the base
    generator's single-point draw, and the batch buffer that collects the
    draws. */
module Sampling {
  import opened Outcomes
  import opened Vectors
  import opened Configuration
  import opened State
  import opened Reflection
  import opened Drift

  /** One labelled point from the base generator's single-point draw. */
  datatype Sample = Sample(x: seq<real>, y: int)

  /** What `next_sample` returns, together with the generator state it leaves. */
  datatype Batch = Batch(state: Generator, x: seq<seq<real>>, y: seq<int>)

  /** The base generator's single-point draw yields points of n_features
      coordinates; `draw(centroids, k)` is its k-th draw of a batch, made on
      the current centroids. */
  ghost predicate DrawsRows(draw: (seq<Centroid>, nat) -> Sample, nFeatures: nat) {
    forall cs: seq<Centroid>, k: nat :: |draw(cs, k).x| == nFeatures
  }

  /** The base generator's single-point draw, made on a non-empty centroid
      list, carries the label of one of those centroids. */
  ghost predicate DrawsLabels(draw: (seq<Centroid>, nat) -> Sample) {
    forall cs: seq<Centroid>, k: nat :: |cs| > 0 ==> LabelOfSome(cs, draw(cs, k).y)
  }

  /** `y` is the label of some centroid of `cs`. */
  ghost predicate LabelOfSome(cs: seq<Centroid>, y: int) {
    exists i :: 0 <= i < |cs| && cs[i].classLabel == y
  }

  /** Python's `int()` / numpy's `astype(int)`: truncation toward zero, the
      integer nearest to `r` on the side of zero. */
  function Trunc(r: real): (t: int)
    ensures r >= 0.0 ==> t as real <= r < t as real + 1.0
    ensures r < 0.0 ==> t as real - 1.0 < r <= t as real
  {
    if r >= 0.0 then r.Floor else -((-r).Floor)
  }

  /** A buffer row: the features followed by the label as a float. */
  function Row(s: Sample): (row: seq<real>)
    ensures |row| == |s.x| + 1
  {
    s.x + [s.y as real]
  }

  /** Splitting a row back into features and integer label. */
  function Features(row: seq<real>, nFeatures: nat): seq<real>
    requires |row| == nFeatures + 1
  {
    row[..nFeatures]
  }

  function Label(row: seq<real>, nFeatures: nat): int
    requires |row| == nFeatures + 1
  {
    Trunc(row[nFeatures])
  }

  /** The buffer loses nothing: splitting a row recovers the features and the
      label that were packed into it. */
  lemma RowRoundTrip(s: Sample, nFeatures: nat)
    requires |s.x| == nFeatures
    ensures Features(Row(s), nFeatures) == s.x
    ensures Label(Row(s), nFeatures) == s.y
  {
    assert Row(s)[nFeatures] == s.y as real;
  }

  /** The inner loop over one centroid's coordinates, updating the centre and
      velocity in place; it computes exactly `MoveCentre`. */
  method DriftCentre(centre: seq<real>, speed: seq<real>, changeSpeed: real)
    returns (c: seq<real>, v: seq<real>)
    requires |centre| == |speed|
    ensures (c, v) == MoveCentre(centre, speed, changeSpeed)
  {
    c, v := centre, speed;
    var j := 0;
    while j < |centre|
      invariant 0 <= j <= |centre|
      invariant |c| == |centre| && |v| == |speed|
      invariant forall j' :: 0 <= j' < j ==> Bounce(c[j'], v[j']) == Reflect(centre[j'], speed[j'], changeSpeed)
      invariant forall j' :: j <= j' < |centre| ==> c[j'] == centre[j'] && v[j'] == speed[j']
    {
      c := c[j := c[j] + v[j] * changeSpeed];
      if c[j] > 1.0 || c[j] < 0.0 {
        c := c[j := if c[j] > 1.0 then 1.0 else 0.0];
        v := v[j := -v[j]];
      }
      j := j + 1;
    }
    var m := MoveCentre(centre, speed, changeSpeed);
    assert c == m.0;
    assert v == m.1;
  }

  /** The drift part of one iteration of the batch loop: the clamp is
      recomputed, then each drifting centroid is moved in place. It computes
      exactly `Step`. */
  method DriftCentroids(g: Generator) returns (g': Generator)
    requires Valid(g)
    ensures g' == Step(g)
  {
    var numDrift := g.config.numDriftCentroids;
    if numDrift > g.config.nCentroids {
      numDrift := g.config.nCentroids;
    }
    ghost var target := Step(g);
    var centroids, speeds := g.centroids, g.speeds;
    var i := 0;
    while i < numDrift
      invariant 0 <= i <= |speeds|
      invariant |centroids| == |g.centroids| && |speeds| == |g.speeds|
      invariant forall i' :: 0 <= i' < i ==>
                  centroids[i'] == target.centroids[i'] && speeds[i'] == target.speeds[i']
      invariant forall i' :: i <= i' < |centroids| ==> centroids[i'] == g.centroids[i']
      invariant forall i' :: i <= i' < |speeds| ==> speeds[i'] == g.speeds[i']
    {
      var c, v := DriftCentre(centroids[i].centre, speeds[i], g.config.changeSpeed);
      centroids := centroids[i := centroids[i].(centre := c)];
      speeds := speeds[i := v];
      i := i + 1;
    }
    assert centroids == target.centroids;
    assert speeds == target.speeds;
    g' := g.(centroids := centroids, speeds := speeds);
  }

  /** The batch loop of `next_sample` for a non-negative batch size: before
      draw k the centroids drift once more, so row k holds the base
      generator's k-th draw made after k + 1 drift updates. */
  method FillBuffer(g: Generator, batchSize: nat, draw: (seq<Centroid>, nat) -> Sample)
    returns (data: seq<seq<real>>, cur: Generator)
    requires Valid(g)
    ensures |data| == batchSize
    ensures forall k :: 0 <= k < batchSize ==> data[k] == Row(draw(Steps(g, k + 1).centroids, k))
    ensures cur == Steps(g, batchSize)
  {
    data := seq(batchSize, _ => seq(g.config.nFeatures + 1, _ => 0.0));
    cur := g;
    var k := 0;
    while k < batchSize
      invariant 0 <= k <= batchSize
      invariant Valid(cur) && cur == Steps(g, k)
      invariant |data| == batchSize
      invariant forall t :: 0 <= t < k ==> data[t] == Row(draw(Steps(g, t + 1).centroids, t))
    {
      cur := DriftCentroids(cur);
      data := data[k := Row(draw(cur.centroids, k))];
      k := k + 1;
    }
  }

  /** `next_sample(batch_size)`: a negative batch size fails when the buffer
      is allocated. Otherwise the batch has `batch_size` rows of n_features
      coordinates, row k being the base generator's k-th draw made after
      k + 1 drift updates, and the generator is left drifted `batch_size`
      times and holding the batch as its current sample. */
  method NextSample(g: Generator, batchSize: int, draw: (seq<Centroid>, nat) -> Sample)
    returns (r: Result<Batch>)
    requires Valid(g)
    requires DrawsRows(draw, g.config.nFeatures)
    ensures r.Failure? <==> batchSize < 0
    ensures r.Failure? ==> r.error == NegativeDimension
    ensures r.Success? ==>
              && |r.value.x| == batchSize && |r.value.y| == batchSize
              && (forall k :: 0 <= k < batchSize ==> |r.value.x[k]| == g.config.nFeatures)
              && (forall k :: 0 <= k < batchSize ==>
                    r.value.x[k] == draw(Steps(g, k + 1).centroids, k).x
                    && r.value.y[k] == draw(Steps(g, k + 1).centroids, k).y)
              && r.value.state == Steps(g, batchSize).(currentX := r.value.x, currentY := r.value.y)
  {
    if batchSize < 0 {
      return Failure(NegativeDimension);
    }
    var nF := g.config.nFeatures;
    var data, cur := FillBuffer(g, batchSize, draw);
    forall t | 0 <= t < batchSize
      ensures |data[t]| == nF + 1
    {
      assert |draw(Steps(g, t + 1).centroids, t).x| == nF;
    }
    var x := seq(batchSize, t requires 0 <= t < batchSize => Features(data[t], nF));
    var y := seq(batchSize, t requires 0 <= t < batchSize => Label(data[t], nF));
    forall t | 0 <= t < batchSize
      ensures x[t] == draw(Steps(g, t + 1).centroids, t).x
      ensures y[t] == draw(Steps(g, t + 1).centroids, t).y
    {
      RowRoundTrip(draw(Steps(g, t + 1).centroids, t), nF);
    }
    r := Success(Batch(cur.(currentX := x, currentY := y), x, y));
  }

  /** Each draw of a batch carries a label in [0, n_classes) when the
      centroids' labels are in range: drift never changes a label, and each
      draw carries the label of one of the centroids. `NextSample` puts draw
      k's label at position k of the batch; `BatchLabelsAllInRange` states
      the consequence for the returned labels. */
  lemma BatchLabelsInRange(g: Generator, draw: (seq<Centroid>, nat) -> Sample, k: nat)
    requires Valid(g)
    requires DrawsLabels(draw)
    requires LabelsInRange(g)
    requires g.config.nCentroids > 0
    ensures 0 <= draw(Steps(g, k + 1).centroids, k).y < g.config.nClasses
  {
    var cs := Steps(g, k + 1).centroids;
    StepsKeepLabelsInRange(g, k + 1);
    assert LabelOfSome(cs, draw(cs, k).y);
    var i :| 0 <= i < |cs| && cs[i].classLabel == draw(cs, k).y;
  }

  /** Every label a successful `NextSample` returns lies in [0, n_classes)
      when the centroids' labels do: `y` is any label vector whose k-th entry
      is the k-th draw's label, as `NextSample` ensures of its result. */
  lemma BatchLabelsAllInRange(g: Generator, draw: (seq<Centroid>, nat) -> Sample, y: seq<int>)
    requires Valid(g)
    requires DrawsLabels(draw)
    requires LabelsInRange(g)
    requires g.config.nCentroids > 0
    requires forall k :: 0 <= k < |y| ==> y[k] == draw(Steps(g, k + 1).centroids, k).y
    ensures forall k :: 0 <= k < |y| ==> 0 <= y[k] < g.config.nClasses
  {
    forall k | 0 <= k < |y|
      ensures 0 <= y[k] < g.config.nClasses
    {
      BatchLabelsInRange(g, draw, k);
    }
  }
}
