/** The generator's mutable state: its configuration, the centroid list the
    base generator owns, and the velocities of the drifting centroids. */
module State {
  import opened Configuration

  /** One generative region. `stdDev` (the hypersphere radius) is set by the
      base generator and never touched by drift. */
  datatype Centroid = Centroid(centre: seq<real>, classLabel: int, stdDev: real)

  /** The generator instance. `speeds[i]` is the velocity of centroid `i`;
      `currentX` / `currentY` hold the last batch handed out. */
  datatype Generator = Generator(
    config: Config,
    centroids: seq<Centroid>,
    speeds: seq<seq<real>>,
    currentX: seq<seq<real>>,
    currentY: seq<int>)

  /** How many centroids drift under this configuration. */
  function Drifting(c: Config): (k: nat)
    ensures k <= c.nCentroids
  {
    DriftCount(c.numDriftCentroids, c.nCentroids)
  }

  /** The shapes every operation relies on: n_centroids centroids of
      n_features coordinates, and one velocity of n_features components per
      drifting centroid. */
  ghost predicate Valid(g: Generator) {
    && |g.centroids| == g.config.nCentroids
    && (forall i :: 0 <= i < |g.centroids| ==> |g.centroids[i].centre| == g.config.nFeatures)
    && |g.speeds| == Drifting(g.config)
    && (forall i :: 0 <= i < |g.speeds| ==> |g.speeds[i]| == g.config.nFeatures)
  }

  /** Every centroid carries a label in [0, n_classes). */
  ghost predicate LabelsInRange(g: Generator) {
    forall i :: 0 <= i < |g.centroids| ==> 0 <= g.centroids[i].classLabel < g.config.nClasses
  }
}
