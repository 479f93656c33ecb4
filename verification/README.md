# Drift machinery of the random RBF stream generator

This project models, in Dafny, the concept-drift part of scikit-multiflow's
`RandomRBFGeneratorDrift` (`src/skmultiflow/data/random_rbf_generator_drift.py`).
The generator emits labelled points drawn around moving centroids. The drift
part does four things:

- before every emitted point, it moves the first `min(num_drift_centroids, n_centroids)`
  centroids by their velocity times `change_speed`. A coordinate that leaves
  [0, 1] is clamped to the nearer bound and that velocity component is reversed;
- it gives every drifting centroid a velocity: n_features uniform draws divided by
  their Euclidean norm. It also overrides the centroid's class label with a
  draw weighted by `class_weights`;
- on construction, it replaces `class_weights` of the wrong length by the uniform
  vector of `1/n_classes` entries;
- it clamps the drift count to `n_centroids` wherever the count is used.

Positions and velocities are Dafny `real`s, so there is no rounding. The
generator state is an immutable `Generator` value, and each operation returns
a new one.

Modules, one per file:

- `Outcomes`: the `Option` and `Result` types, and the exceptions the code can raise.
- `Vectors`: sums, sums of squares and scaling of real vectors. These are helpers.
- `Configuration`: `__init__` (the class-weight fallback) and the drift-count clamp.
- `State`: `Centroid`, `Generator` and its well-formedness `Valid`.
- `Reflection`: the per-coordinate rule `Reflect` and its lift to one centroid, `MoveCentre`.
- `Drift`: one drift update of the whole state (`Step`), `n` updates
  (`Steps`), and the invariants they keep.
- `Sampling`: `next_sample`. It holds the in-place update loops, the batch loop,
  the buffer rows and their split into features and labels.
- `Initialisation`: `_generate_centroids`. It holds velocity drawing and
  normalisation and the label override.

Collaborators outside the drift part become parameters with stated contracts:

- `base`: the centroid list from the base class's `_generate_centroids`. It has
  `n_centroids` centroids of `n_features` coordinates.
- `draw(centroids, k)`: the base class's `next_sample(1)`, the k-th draw of a batch.
  It returns `n_features` coordinates, and a label taken from one of the centroids.
- `rand(t)`: the t-th `rand()` of the model random state, a value in [0, 1).
- `sqrt`: `np.sqrt`, an exact non-negative square root.
- `choose(i)`: the weighted `random.choices` draw for drifting centroid `i`. It is
  a label in `range(n_classes)`, or `None` where Python raises.

Behaviour of the code that the model keeps as written:

- The code does not guard an all-zero velocity draw. It divides by zero there.
  The model therefore requires a non-zero draw whenever `n_features > 0`.
- Labels are drawn with Python's global, unseeded `random` module. Label
  assignment is therefore not reproducible from the model seed, and nothing
  here claims it is.
- A negative `num_drift_centroids` passes the clamp unchanged. `range` then
  makes it mean zero drifting centroids (`DriftCount`).
- A negative `batch_size` is not rejected by the method itself. The buffer
  allocation `np.zeros` raises, and the model reports that as `NegativeDimension`.

## Model

| member | source | states |
|---|---|---|
| Configuration.ClassWeights | src/skmultiflow/data/random_rbf_generator_drift.py:105-107 | weights of length n_classes are kept unchanged. Any other length gives n_classes entries, each equal to 1/n_classes. Building the fallback fails on a negative n_classes (negative dimension) and on n_classes = 0 (division by zero). |
| Configuration.FallbackSumsToOne | src/skmultiflow/data/random_rbf_generator_drift.py:105-106 | the uniform fallback weights sum to 1, so they form a probability distribution |
| Configuration.Construct | src/skmultiflow/data/random_rbf_generator_drift.py:99-114 | construction records the name "Random RBF Generator with drift", change_speed, num_drift_centroids and the counts as given. It stores class weights of length n_classes, which are the supplied ones or the uniform fallback. It fails exactly when the fallback cannot be built. |
| Configuration.DefaultConstruct | src/skmultiflow/data/random_rbf_generator_drift.py:99-107 | with every argument at its default (n_classes 2, n_features 10, n_centroids 50, change_speed 0, num_drift_centroids 50, class_weights empty), construction succeeds and takes the uniform fallback, weights [0.5, 0.5] |
| Configuration.ClampDrift | src/skmultiflow/data/random_rbf_generator_drift.py:140-142 | the clamped drift count is at most n_centroids and at most the requested count, and equals one of the two |
| Configuration.DriftCount | src/skmultiflow/data/random_rbf_generator_drift.py:172-177 | the number of drifting centroids is min(num_drift_centroids, n_centroids), and 0 when num_drift_centroids is not positive |
| Reflection.Reflect | src/skmultiflow/data/random_rbf_generator_drift.py:146-150 | the per-coordinate rule. It always leaves the coordinate in [0, 1] and only keeps or negates the velocity component. The full meaning is stated by ReflectSpec. |
| Reflection.ReflectSpec | src/skmultiflow/data/random_rbf_generator_drift.py:146-150 | the new coordinate is the point of [0, 1] nearest to the moved coordinate. It equals the moved coordinate when that is inside [0, 1]. A non-zero velocity component is reversed exactly when the moved coordinate left [0, 1], and otherwise it is kept. Its square never changes. |
| Reflection.MoveCentre | src/skmultiflow/data/random_rbf_generator_drift.py:145-150 | each coordinate of a centroid is updated independently by the per-coordinate rule, and the centre and velocity keep their length |
| Reflection.MoveCentreSpec | src/skmultiflow/data/random_rbf_generator_drift.py:145-150 | the centre ends inside the unit cube. Each velocity component keeps or flips its sign, and the velocity's sum of squares is preserved. |
| Reflection.MoveCentreAtRest | src/skmultiflow/data/random_rbf_generator_drift.py:146-150 | with change_speed 0, a centre inside the unit cube and its velocity are unchanged |
| Reflection.BounceOffUpperFace | src/skmultiflow/data/random_rbf_generator_drift.py:146-150 | a centre at (0.95, 0.5) with velocity (1, 0) at speed 1 moves to (1, 0.5), and its velocity becomes (-1, 0) |
| Reflection.CrossToLowerFace | src/skmultiflow/data/random_rbf_generator_drift.py:146-150 | from (1, 0.5) with velocity (-1, 0) the centre moves to (0, 0.5) without a further reversal |
| Drift.Step | src/skmultiflow/data/random_rbf_generator_drift.py:140-150 | one update of all drifting centroids. It keeps the generator well formed (as many velocities as drifting centroids, each of n_features components) and leaves the configuration and the last batch untouched. What it does to the centroids is stated by the Step lemmas below. |
| Drift.StepBounded | src/skmultiflow/data/random_rbf_generator_drift.py:144-149 | after one update, every coordinate of every drifting centroid lies in [0, 1], whatever it held before |
| Drift.StepFrame | src/skmultiflow/data/random_rbf_generator_drift.py:140-150 | one update changes no centroid at index ≥ min(num_drift_centroids, n_centroids), and no label or radius |
| Drift.StepReflects | src/skmultiflow/data/random_rbf_generator_drift.py:148-150 | one update keeps or negates each velocity component, so every velocity keeps its sum of squares |
| Drift.Steps | src/skmultiflow/data/random_rbf_generator_drift.py:139-150 | k consecutive updates, one per sample of a batch. They keep the generator well formed and leave the configuration and the last batch untouched. |
| Drift.StepsBounded | src/skmultiflow/data/random_rbf_generator_drift.py:139-149 | after any positive number of updates, the drifting centres lie in the unit cube |
| Drift.StepsKeepSpeedNorm | src/skmultiflow/data/random_rbf_generator_drift.py:148-150 | no number of updates changes any velocity's sum of squares |
| Drift.UnitSpeedsStayUnit | src/skmultiflow/data/random_rbf_generator_drift.py:148-150 | velocities of unit length stay of unit length under any number of updates |
| Drift.StepsFrame | src/skmultiflow/data/random_rbf_generator_drift.py:139-150 | under any number of updates, non-drifting centroids are unchanged, and every centroid keeps its label and radius |
| Drift.StepsKeepLabelsInRange | src/skmultiflow/data/random_rbf_generator_drift.py:139-150 | labels in [0, n_classes) stay in range under drift |
| Drift.StepAtRest | src/skmultiflow/data/random_rbf_generator_drift.py:144-150 | with change_speed 0 and drifting centres in the unit cube, one update leaves the whole state unchanged |
| Drift.StepsAtRest | src/skmultiflow/data/random_rbf_generator_drift.py:139-150 | with change_speed 0 and drifting centres in the unit cube, any number of updates leaves positions and velocities unchanged |
| Drift.CentroidStepAtRest | src/skmultiflow/data/random_rbf_generator_drift.py:144-150 | with change_speed 0, a drifting centroid whose centre is in the unit cube keeps its centre and velocity through one update, whatever the other centroids hold |
| Drift.CentroidStepsAtRest | src/skmultiflow/data/random_rbf_generator_drift.py:139-150 | with change_speed 0, a drifting centroid whose centre is in the unit cube keeps identical coordinates and velocity after any number of updates |
| Sampling.Trunc | src/skmultiflow/data/random_rbf_generator_drift.py:155 | `astype(int)` truncates toward zero. A non-negative value becomes the largest integer not above it, and a negative value the smallest integer not below it. |
| Sampling.Row | src/skmultiflow/data/random_rbf_generator_drift.py:152 | a buffer row is the draw's features with its label appended, one entry longer than the features |
| Sampling.RowRoundTrip | src/skmultiflow/data/random_rbf_generator_drift.py:152-155 | packing a draw into a buffer row and splitting the row again gives back its features and its integer label |
| Sampling.DriftCentre | src/skmultiflow/data/random_rbf_generator_drift.py:145-150 | the in-place loop over one centroid's coordinates computes exactly the per-coordinate reflection of every coordinate |
| Sampling.DriftCentroids | src/skmultiflow/data/random_rbf_generator_drift.py:140-150 | the in-place loop over the drifting centroids, with the clamp recomputed, computes exactly one drift update of the whole state |
| Sampling.FillBuffer | src/skmultiflow/data/random_rbf_generator_drift.py:138-152 | the batch loop fills batch_size rows. Row k is the base draw made after k + 1 updates, and the state ends batch_size updates on. |
| Sampling.NextSample | src/skmultiflow/data/random_rbf_generator_drift.py:138-156 | a negative batch size fails. Otherwise the result has batch_size feature rows of n_features entries and batch_size labels. Row k is the base generator's k-th draw on the centroids after k + 1 updates. The generator is left batch_size updates on and holds the batch as its current sample. |
| Sampling.BatchLabelsInRange | src/skmultiflow/data/random_rbf_generator_drift.py:151-155 | when every centroid label is in [0, n_classes), the k-th base draw of a batch, made after k + 1 updates, carries a label in [0, n_classes) |
| Sampling.BatchLabelsAllInRange | src/skmultiflow/data/random_rbf_generator_drift.py:151-156 | when every centroid label is in [0, n_classes), every label in the vector that next_sample returns is in [0, n_classes) |
| Initialisation.RawSpeed | src/skmultiflow/data/random_rbf_generator_drift.py:181-182 | a drifting centroid's raw velocity has n_features components, one fresh draw per component |
| Initialisation.DrawRawSpeed | src/skmultiflow/data/random_rbf_generator_drift.py:178-183 | the drawing loop collects the next n_features draws and their sum of squares |
| Initialisation.DivideBy | src/skmultiflow/data/random_rbf_generator_drift.py:187-188 | the in-place division loop divides every component by the norm |
| Initialisation.UnitScaling | src/skmultiflow/data/random_rbf_generator_drift.py:185-188 | a non-negative, non-zero draw divided by the square root of its sum of squares is non-negative and has sum of squares 1 |
| Initialisation.Velocity | src/skmultiflow/data/random_rbf_generator_drift.py:178-190 | a drifting centroid's velocity is its raw draw divided by the draw's Euclidean norm. It has n_features non-negative components, and its sum of squares is 1 when n_features > 0. |
| Initialisation.GenerateCentroids | src/skmultiflow/data/random_rbf_generator_drift.py:170-192 | the operation fails exactly when a label draw for a drifting centroid fails. Otherwise the state is well formed. It has one normalised velocity per drifting centroid, min(num_drift_centroids, n_centroids) in all. Each drifting centroid's label is its weighted draw, in [0, n_classes). Centres, radii and all other centroids are the base generator's. |

## Left out

- The base class `RandomRBFGenerator` is not part of this model. That covers centroid placement, point sampling inside a hypersphere, `n_remaining_samples` and `has_more_samples`. Its centroid list and its single-point draw are parameters with a stated shape. How its constructor triggers `_generate_centroids` is not modelled either.
- Random sources are parameters. That covers `check_random_state`/`rand()` and the global `random.choices`. Seeded reproducibility is not claimed, and the weighted-choice algorithm is not modelled: only its range is.
- Floating point: `np.sqrt` is a parameter with an exact square-root contract. Arithmetic is on reals, without IEEE rounding, NaN or infinities.
- Initialisation.Velocity: requires a non-zero raw draw when n_features > 0. At an all-zero draw the code divides 0 by 0 and stores NaN components, which the model cannot represent.
- Initialisation.GenerateCentroids: when a label draw raises, the model returns only the failure. In the code, the velocities and labels of earlier centroids have already been overwritten by then.
- The pseudo-code and the doctest in the class docstring are illustration, not behaviour.
- numpy plumbing is modelled on sequences: `np.zeros`, `np.append`, slicing and `astype(int)`, the last as truncation toward zero. Python's dynamic typing is not modelled, for instance a non-integer `batch_size`.
- Default arguments are not modelled as defaults: every operation takes all its arguments explicitly. `Construct` and `NextSample` have no implicit `n_classes=2, n_features=10, n_centroids=50, change_speed=0.0, num_drift_centroids=50, class_weights=[]` or `batch_size=1`. `Configuration.DefaultConstruct` states what construction with the default values yields.
- Counts are natural numbers: `n_features` and `n_centroids` are taken as `nat`, because validating them belongs to the base class.
