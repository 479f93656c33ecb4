/** Construction of the drift generator: the configuration it records and the
    silent corrections it applies (random_rbf_generator_drift.py, `__init__`
    and the drift-count clamp repeated in `next_sample` and
    `_generate_centroids`). */
module Configuration {
  import opened Outcomes
  import opened Vectors

  /** Human-readable generator name fixed at construction. */
  const Name: string := "Random RBF Generator with drift"

  /** The drift generator's configuration. `numDriftCentroids` is kept as
      supplied (it may exceed `nCentroids`, or be negative); every use clamps it. */
  datatype Config = Config(
    name: string,
    nClasses: nat,
    nFeatures: nat,
    nCentroids: nat,
    changeSpeed: real,
    numDriftCentroids: int,
    classWeights: seq<real>)

  /** The class-weight fallback: weights of the wrong length are replaced by
      n_classes entries of 1/n_classes. Building that vector raises for a
      negative n_classes (a negative array dimension) and for n_classes == 0
      (the division 1 / 0). */
  function ClassWeights(supplied: seq<real>, nClasses: int): (r: Result<seq<real>>)
    ensures r.Success? <==> (|supplied| == nClasses || nClasses > 0)
    ensures r.Failure? ==> (r.error == NegativeDimension <==> nClasses < 0)
    ensures r.Failure? ==> (r.error == ZeroDivision <==> nClasses == 0)
    ensures r.Success? ==> |r.value| == nClasses
    ensures r.Success? && |supplied| == nClasses ==> r.value == supplied
    ensures r.Success? && |supplied| != nClasses ==>
              forall i :: 0 <= i < |r.value| ==> r.value[i] * (nClasses as real) == 1.0
  {
    if |supplied| != nClasses then
      if nClasses < 0 then Failure(NegativeDimension)
      else if nClasses == 0 then Failure(ZeroDivision)
      else Success(seq(nClasses, _ => 1.0 / (nClasses as real)))
    else Success(supplied)
  }

  /** The fallback weights form a probability distribution: they sum to one. */
  lemma FallbackSumsToOne(supplied: seq<real>, nClasses: int)
    requires |supplied| != nClasses
    requires ClassWeights(supplied, nClasses).Success?
    ensures Sum(ClassWeights(supplied, nClasses).value) == 1.0
  {
    var c := 1.0 / (nClasses as real);
    assert ClassWeights(supplied, nClasses).value == seq(nClasses, _ => c);
    SumConstant(nClasses, c);
  }

  /** `__init__`: records the configuration with the corrected class weights. */
  function Construct(
    nClasses: int, nFeatures: nat, nCentroids: nat,
    changeSpeed: real, numDriftCentroids: int, classWeights: seq<real>): (r: Result<Config>)
    ensures r.Success? <==> ClassWeights(classWeights, nClasses).Success?
    ensures r.Success? ==>
              && r.value.name == Name
              && r.value.nClasses == nClasses
              && r.value.nFeatures == nFeatures
              && r.value.nCentroids == nCentroids
              && r.value.changeSpeed == changeSpeed
              && r.value.numDriftCentroids == numDriftCentroids
              && |r.value.classWeights| == nClasses
    ensures r.Success? && |classWeights| == nClasses ==> r.value.classWeights == classWeights
    ensures r.Success? && |classWeights| != nClasses ==>
              forall i :: 0 <= i < nClasses ==> r.value.classWeights[i] * (nClasses as real) == 1.0
  {
    match ClassWeights(classWeights, nClasses)
    case Failure(e) => Failure(e)
    case Success(w) =>
      Success(Config(Name, nClasses, nFeatures, nCentroids, changeSpeed, numDriftCentroids, w))
  }

  /** Construction with every argument at its default (two classes, ten
      features, fifty centroids, no drift speed, fifty drifting centroids, no
      class weights) takes the fallback: two weights of one half. */
  lemma DefaultConstruct()
    ensures Construct(2, 10, 50, 0.0, 50, []).Success?
    ensures Construct(2, 10, 50, 0.0, 50, []).value.classWeights == [0.5, 0.5]
  {
    var w := Construct(2, 10, 50, 0.0, 50, []).value.classWeights;
    assert w == [0.5, 0.5];
  }

  /** The clamp as the source writes it: a count above n_centroids is lowered
      to n_centroids, anything else (a negative count included) is kept. */
  function ClampDrift(numDrift: int, nCentroids: nat): (k: int)
    ensures k <= nCentroids
    ensures k <= numDrift
    ensures k == numDrift || k == nCentroids
  {
    if numDrift > nCentroids then nCentroids else numDrift
  }

  /** The number of centroids that drift: the trip count of
      `range(ClampDrift(...))`, so a negative count means none. It is the
      smaller of the two bounds, and never negative. */
  function DriftCount(numDrift: int, nCentroids: nat): (k: nat)
    ensures k <= nCentroids
    ensures k == 0 || k <= numDrift
    ensures 0 <= numDrift <= nCentroids ==> k == numDrift
    ensures numDrift >= nCentroids ==> k == nCentroids
    ensures numDrift <= 0 ==> k == 0
  {
    var c := ClampDrift(numDrift, nCentroids);
    if c < 0 then 0 else c
  }
}
