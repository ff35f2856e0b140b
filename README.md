# Fish shoal decision-making, modelled in Dafny

The system simulates a shoal of fish swimming towards a fork, where each fish finally
chooses the top or the bottom branch. Scripted "replica" fish can bias that choice. A
batch of runs gives a distribution of the proportion that chose the top, and that
distribution is compared against a random null distribution. This project models four
deterministic pieces of the program. Randomness and the transcendental functions are
inputs to the model.

- **One fish** (`fish.dfy`, module `Fishes`). The model covers:
  - the choice of the nearest neighbour;
  - the angle to that neighbour;
  - the fitted turning and acceleration rules, including the ellipse test that decides
    "close enough";
  - the speed cap;
  - the wrap-around, clamp-to-box and reflection edge rules;
  - the per-tick `update`.

  `Fish` is a class whose methods overwrite its position, velocity, closest neighbour
  and edge vector in place.
- **The driver** (`simulation.dfy`, module `Simulations`). The model covers:
  - how a shoal is laid out: free fish first, then top replicas, then bottom replicas;
  - the fixed and the box-bounded starting coordinates;
  - one step over the whole shoal and the decision tally that follows it;
  - a run until every free fish has decided;
  - a batch of runs that collects `top / fishes`.

  The driver sees a fish as a record of its state: position, velocity, kind (free, or
  replica with a final y) and decision. Each fish's four draws (start x, start y and the
  two velocity draws of its constructor) and each replica's two velocity draws are
  inputs. What one fish does in a step is a parameter `update(i, shoal)`. It gives fish
  i's new record from the shoal as the fish before it left it.
- **Rescaling digitised plot points** (`data_preparation.dfy`, module `DataPreparation`):
  the affine maps from pixels to axis values, and their element-wise use in
  `reformat_data`.
- **Significance labelling** (`hypothesis_testing.dfy`, module `HypothesisTesting`):
  - the "ns" / "*" / "**" / "***" ladder;
  - the random binomial null distribution, drawn from a given sequence of draws;
  - the label given by the mean of 15 Kolmogorov-Smirnov p-values.

`vectors.dfy` (module `Vectors`) holds the 2-D vector over `real` that stands for p5's
`Vector`. It also holds `Maths`, the record of `sqrt`, `atan2`, `sin` and `cos` that callers
pass in. `Maths.Valid()` states only three facts:

- `sqrt` is the non-negative square root;
- `atan2` lies in (-π, π];
- `sin` lies in [-1, 1].

`wrappers.dfy` holds `Option`.

Most of Python's failures are modelled as outcomes, not as preconditions:

- `update` on a fish with no other fish reads `None.position`. This is the outcome
  `NoNeighbor`.
- A turned velocity of length zero is divided by. This is the outcome
  `DegenerateVelocity`.
- `reformat_data` on no points takes a column of an empty array. This is the result
  `NoPoints`.
- In `reformat_data`, a zero `width` or `height` divides by zero. This is the result
  `DivisionByZero`. `resize_x` and `resize_y` on their own take a non-zero width or
  height as a precondition (see "## Left out").
- `generate_random_distribution` divides by `top + bottom` (hypothesis_testing.py:7) and by
  `fishes` (hypothesis_testing.py:16), so it fails when either is zero.
- `distribution_significance` always passes `top = bottom = 1` (hypothesis_testing.py:48),
  so it fails only when `fishes == 0`.
- `headless_simulations` divides by `fishes` alone (simulation.py:173), so it fails only
  when `fishes == 0`.
- Each of these becomes an error result where the source would raise.

Some behaviours of the code are worth stating plainly, since the model follows them as
written:

- **Angle correction.** `get_angle_with_neighbor` (fish.py:32-35) brings the relative
  angle back by subtracting or adding π, not 2π. `NormaliseAngle` does the same. Its
  contract states what this shift gives: for headings in (-π, π], the result lies in
  [-π, π].
- **Neighbours.** `set_closest_neighbor` keeps one nearest fish, with no blind cone.
  `get_acceleration` (fish.py:50-124) decides with the ellipse test and the fixed
  distances 7.9 and 4.06.
- **Edges.** `update` calls `bounce_from_edge_2`, which wraps the position around and
  never reports a bounce. `bounce_from_edge`, which clamps and reflects, is modelled too,
  but `update` does not call it.
- **Constructor.** fish.py's constructor takes only `(x, y, width, height)` (fish.py:7).
  simulation.py:32-35 and 60-61 pass `replica`, `replica_final_y` and `decision_x`
  arguments that it does not accept. fish.py never sets a decision, yet the driver reads
  `replica` and `decision` (simulation.py:126-128). Hence the driver's agent record and
  its step parameter.

## Model

| member | source | states |
|---|---|---|
| Fishes.NormaliseAngle | fish.py:32-35 | a difference in (-2π, 2π) is brought into [-π, π]; one already in [-π, π] is unchanged |
| Fishes.AngleWithNeighbor | fish.py:20-37 | the angle between the heading and the direction to the neighbour lies in [-π, π] |
| Fishes.TurningAngle | fish.py:39-48 | the fitted sine response lies in [-0.5610, 0.4572] |
| Fishes.CloseEnough | fish.py:90-99 | the "close enough" test as written, false when the radicand is negative (np.sqrt gives nan); it holds only for a neighbour within 27 along x; CloseEnoughIsEllipse gives its meaning |
| Fishes.CloseEnoughIsEllipse | fish.py:78-99 | the square-root test (false when the radicand is negative, where np.sqrt gives nan) holds exactly when (x-x0)^2 + (y-y0)^2/0.49 < 729 |
| Fishes.FarAlongXIsNotClose | fish.py:91-97 | a neighbour more than 27 away along x is never close enough |
| Fishes.Acceleration | fish.py:50-124 | get_acceleration: the baseline -0.24·speed + 1.54 in the dead zone abs(angle) <= 0.194, and also outside both the attraction ellipse beyond 7.9 and the repulsion radius 4.06; otherwise one of 2, -1.2, -0.8 or 0.4; AccelerationCases gives the full case split |
| Fishes.AccelerationCases | fish.py:50-124 | the acceleration: baseline -0.24·speed + 1.54 inside the dead zone abs(angle) <= 0.194; otherwise 2 or -1.2 (front or behind) inside the ellipse beyond 7.9; else -0.8 or 0.4 closer than 4.06; else the baseline |
| Fishes.AccelerateIsScale | fish.py:148 | the acceleration step stretches v along itself by the factor 1 + a/abs(v) |
| Fishes.AccelerateSpeed | fish.py:148 | v + v·a/abs(v) has length abs(abs(v) + a) |
| Fishes.CapSpeedBound | fish.py:154-156 | after the cap the speed is at most max; a slow enough velocity is unchanged; a faster one is scaled along itself to exactly max |
| Fishes.Wrap | fish.py:225-236 | with bound >= 0 the wrapped coordinate lies in [0, bound]; a coordinate already in range is unchanged |
| Fishes.Clamp | fish.py:186-210 | with bound >= 0 the clamped coordinate lies in [0, bound]; a coordinate already in range is unchanged |
| Fishes.EdgePush | fish.py:186-210 | an edge-vector component is -1, 0 or 1; it is +1 exactly when the coordinate was below 0, and -1 exactly when it was above the bound |
| Fishes.EdgePushFollowsClamp | fish.py:186-210 | the edge component is 0 exactly when clamping leaves the coordinate alone, and it points the way the coordinate was moved |
| Fishes.EdgeVectorMagnitude | fish.py:212-222 | an edge vector has magnitude 0 exactly when it is the zero vector, so bounce_from_edge reflects exactly when a wall was crossed |
| Fishes.MirrorUnit | fish.py:183-184 | for a unit edge vector, reflection negates the component along it, keeps the speed and is its own inverse |
| Fishes.NearestAmong | fish.py:165-178 | the chosen index is in range and is not the fish itself |
| Fishes.NearestNoneIff | fish.py:165-178 | no neighbour is chosen exactly when every fish of the list is the fish itself |
| Fishes.NearestIsFirstMinimum | fish.py:172-176 | the chosen fish is at most as far as every other one and strictly nearer than every earlier one (ties go to the first, the comparison being strict) |
| Fishes.ScanNearest | fish.py:165-178 | the loop over the fish, skipping the fish itself and keeping a candidate only when strictly nearer, ends with the choice NearestAmong describes |
| Fishes.Fish.SelfMask | fish.py:169-171 | the mask marks exactly the entries that are this fish (identity, as Python compares objects) |
| Fishes.InitialVelocity | fish.py:10-12 | the random initial speed from two draws in [0, 1) has each component in [-5, 5) |
| Fishes.Fish.constructor | fish.py:7-18 | position (x, y), velocity (r0 - 0.5, r1 - 0.5)·10 from the two draws, max speed 17 |
| Fishes.Fish.SetClosestNeighbor | fish.py:165-178 | stores the first nearest other fish, never this one, a member of the list, and null exactly when there is no other fish |
| Fishes.Fish.Reflect | fish.py:183-184 | reflect, v - 2(v·e)e in the current edge vector: the identity when no wall was crossed; with a unit edge vector it flips the component along e and keeps the length (MirrorUnit) |
| Fishes.Fish.CalculateEdgeVector | fish.py:186-210 | the position is clamped into [0, width] × [0, height] and the edge vector records each wall crossed |
| Fishes.Fish.BounceFromEdge | fish.py:212-222 | clamps, and reflects the velocity (v - 2(v·e)e) exactly when the edge vector is non-zero |
| Fishes.Fish.BounceFromEdge2 | fish.py:225-236 | never reports a bounce; wraps each coordinate to the opposite side, so the position ends in the box and in-range coordinates are unchanged |
| Fishes.Fish.Update | fish.py:126-158 | chooses the neighbour, wraps, turns by the turning angle, accelerates, caps and moves; NoNeighbor when alone, DegenerateVelocity when the turned velocity is zero, and after a move the speed is at most 17 |
| Simulations.GetStartingX | simulation.py:64-69 | replicas start at x = 1360; a free fish with a draw in [0, 1) starts in [1240, 1360) |
| Simulations.GetStartingY | simulation.py:71-79 | top replicas start at y = 375, bottom ones at 415; a free fish with a draw in [0, 1) starts in [335, 455) |
| Simulations.FinalY | simulation.py:53-56 | final y 80 for "top" and 720 for any other position |
| Simulations.InitialShoalLayout | simulation.py:32-47 | the new shoal has fishes + top + bottom members: the free fish in the box first, each with the velocity of its own draws and components in [-5, 5); then the top replicas, then the bottom replicas, each at its fixed start with the velocity of its own draws |
| Simulations.InitialShoalFree | simulation.py:32-47 | a new shoal has exactly `fishes` free fish |
| Simulations.CountFree | simulation.py:126 | the number of non-replicas is at most the shoal size |
| Simulations.TallyOf | simulation.py:126-133 | the tally of run_step: top + bottom is at most the number of non-replicas, and all_dicided holds exactly when every such fish has a decision (proved by TallyBounds) |
| Simulations.TallyBounds | simulation.py:126-133 | only free fish are counted, so top + bottom is at most their number, and it equals their number exactly when every free fish has a decision |
| Simulations.SweepOnce | simulation.py:119-120 | in one step every fish is updated exactly once, in list order, each seeing the shoal as the earlier fish left it |
| Simulations.SweepKeepsKinds | simulation.py:119-120 | a kind-keeping update keeps every kind, hence the number of free fish |
| Simulations.SettleDecidesAll | simulation.py:151-163 | when the run stops, top + bottom equals the number of free fish |
| Simulations.NoFreeFishSettlesAtOnce | simulation.py:151-157 | a shoal without free fish stops after its first step with tally (0, 0) |
| Simulations.Simulation.constructor | simulation.py:11-47 | builds the laid-out shoal and one (x, y, final y) line per replica, top ones first |
| Simulations.Simulation.AddReplica | simulation.py:49-62 | appends exactly one replica and one (x, y, final y) line |
| Simulations.Simulation.RunStep | simulation.py:113-133 | the shoal becomes the in-order sweep of the update, and the result is its tally |
| Simulations.HeadlessSimulation | simulation.py:146-163 | the result is the run of the laid-out shoal, and a finished run has top + bottom == fishes |
| Simulations.BatchSucceedsIff | simulation.py:166-177 | the batch yields its proportions exactly when every run settles and the division by fishes is defined |
| Simulations.BatchValues | simulation.py:166-177 | a completed batch holds exactly one proportion per shoal, the i-th being top_i / fishes of the i-th run |
| Simulations.BatchProportions | simulation.py:166-177 | every proportion of a completed batch lies in [0, 1] |
| Simulations.HeadlessSimulations | simulation.py:166-177 | runs the shoals in order and stops at the first run that does not settle or at the division by zero |
| DataPreparation.ResizeX | data_preparation.py:64-67 | resize_x: pixel 0 maps to x_axis_left and pixel width to x_axis_right; ResizeXAffine and ResizeXMonotone give the map between them |
| DataPreparation.ResizeY | data_preparation.py:57-61 | resize_y: pixel height maps to y_axis_bottom and pixel 0 to y_axis_top, so the axis is flipped; ResizeYAffine and ResizeYFlips give the map between them |
| DataPreparation.ResizeXAffine | data_preparation.py:64-67 | a pixel step d moves the value by d·(right - left)/width |
| DataPreparation.ResizeYAffine | data_preparation.py:57-61 | a pixel step d moves the value by -d·(top - bottom)/height |
| DataPreparation.ResizeXMonotone | data_preparation.py:64-67 | for a positive width, increasing when right > left and decreasing when right < left |
| DataPreparation.ResizeYFlips | data_preparation.py:57-61 | for a positive height and top > bottom, a lower pixel gets a smaller value |
| DataPreparation.ReformatData | data_preparation.py:76-91 | one new point per point, the i-th being (resize_x, resize_y) of the i-th, with xx and yy its columns; no points, or a zero width or height, give the error the source raises |
| HypothesisTesting.VerboseSignificance | hypothesis_testing.py:29-37 | "ns" exactly when p > 0.1, "*" when 0.05 < p <= 0.1, "**" when 0.01 < p <= 0.05, "***" when p <= 0.01 |
| HypothesisTesting.SignificanceMonotone | hypothesis_testing.py:29-37 | a smaller p-value never gets fewer stars |
| HypothesisTesting.CountBelow | hypothesis_testing.py:12-14 | at most as many fish go top as there are draws |
| HypothesisTesting.RandomDistributionBounds | hypothesis_testing.py:5-20 | 30 proportions, each k / fishes with 0 <= k <= fishes, hence in [0, 1] |
| HypothesisTesting.RandomDistributionAllTop | hypothesis_testing.py:7-16 | with bottom = 0 and draws in [0, 1), every proportion is 1 |
| HypothesisTesting.RandomDistributionNoneTop | hypothesis_testing.py:7-16 | with top = 0 and draws in [0, 1), every proportion is 0 |
| HypothesisTesting.GenerateRandomDistribution | hypothesis_testing.py:5-20 | fails exactly when top + bottom == 0 or fishes == 0; otherwise round i is the share of draws[i] below top / (top + bottom) |
| HypothesisTesting.MeanBounds | hypothesis_testing.py:52 | the mean lies within any bounds that hold of every element |
| HypothesisTesting.UniformPValuesLabel | hypothesis_testing.py:52-54 | p-values all above 0.1 give "ns"; all in [0, 0.01] give "***" |
| HypothesisTesting.PValues | hypothesis_testing.py:46-50 | there are exactly 15 p-values |
| HypothesisTesting.DistributionSignificance | hypothesis_testing.py:40-54 | fails exactly when fishes == 0; otherwise the verdict is verbose_significance of the mean of the 15 p-values against fair null distributions |

## Left out

- Rendering and process plumbing are not modelled: `Fish.show`, `Simulation.draw_objects`, p5 `setup`/`draw`/`run`, argparse, `print` and `time`. The `visualize` flag of `run_step` is dropped.
- The offline curve fitting in data_preparation.py is not modelled (`fit_sin`, `fit_tan`, `fit_data`, `fit_rotation_angle`, `fit_speed_acceleration`). It is numpy FFT, scipy `curve_fit`, `polyfit` and matplotlib.
- plots.py, experiments.py, experimental_setups.py, main.py and utils.py are not part of this model. They are plotting, batch scripts, a constant list and a truncated-normal wrapper.
- Transcendentals are parameters (`Maths`): p5 `Vector.angle`, `distance`, `magnitude` and `rotate`, `np.sqrt`, and `np.sin`. Only the three facts of `Maths.Valid()` are assumed of them. `Maths.Valid()` does not state that `cos` is bounded, nor the identity `sin² + cos² = 1`, so nothing is proved about the speed after a rotation.
- Random draws are inputs, as sequences of reals:
  - the two velocity draws of the `Fish` constructor, for every free fish and every replica;
  - the start draws of the free fish, taken before its velocity draws;
  - the per-fish draws of `generate_random_distribution`.
- `scipy.stats.ks_2samp` is the parameter `ks`, a function from two samples to a p-value.
- `test_significance` is not modelled separately. It is `VerboseSignificance` applied to one `ks` value.
- Simulations.Agent, update: the driver's per-fish step is a parameter. simulation.py calls `fish.update(self.shoal)` (simulation.py:119-120), which is modelled on the `Fish` class as `Fishes.Fish.Update`. fish.py's `Fish` has no `replica` or `decision` attribute and no rule that sets a decision or steers a replica (fish.py:7-158). So the step that would make the driver's runs settle is not in the source, and the driver is modelled over any step on the agent record. Results that depend on the number of free fish assume `KeepsKind(update)`.
- Simulations.HeadlessSimulation: does not model the unbounded `while not all_dicided` loop. The model bounds it by `maxSteps` steps so that HeadlessSimulation terminates, and `None` stands for "still running".
- Simulations.HeadlessSimulations: does not model the hang of a run that never settles; it reports `NotSettled(i)` for the first such run.
- DataPreparation.ResizeX, DataPreparation.ResizeY: a zero width or height is a precondition, where resize_x and resize_y raise ZeroDivisionError. `reformat_data`, their only caller, is modelled with the error result `DivisionByZero`.
- Floating point is not modelled: values are exact reals, with no rounding, NaN propagation or infinities. The nan of `np.sqrt` on a negative radicand is modelled as the comparison being false.
- Fishes.Fish.Update: does not model the NaN a zero-length turned velocity would spread. It stops with `DegenerateVelocity` instead. The state reached before the division is kept.
- Fishes.Fish.Update: does not model the `AttributeError` of a fish alone. It stops with `NoNeighbor` after the wrap-around, as the source does before failing.
- Attributes the source sets only later (`closest_neighbor`, `edge_vector`) start here as `null` and the zero vector.
- Negative counts passed as `fishes`, `top` or `bottom` are not modelled; they are natural numbers.
- The points given to `reformat_data` are pairs. A point with fewer than two coordinates, which fails in the source, is not modelled.
- `replicas_top` is kept on the simulation object, as in the source. `replicas_bottom` is not, because the source does not store it either. The arena constants the driver uses are module constants: width, height, box geometry and final ys. The decision line, the shaded area and the replica start centre (`decision_x`, `shaded_area_x`, `replica_y_start`, `replica_x_start`) only go to constructor arguments that fish.py's `Fish` does not accept and to the drawing code, or are never read, so they are left out.
