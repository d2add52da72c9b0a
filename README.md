# Joint registration and co-segmentation of point sets

This project is a Dafny model of the numerical core of a research code base that registers several scanned views of a scene onto one shared Gaussian mixture model (GMM) and segments the views into objects. It covers:

- **JRMPC** (Joint Registration of Multiple Point Clouds) and its worker state: the model-size estimate `initK`, the reset of the model and the poses, the E-step, the M-steps (rotation fit, translation fit, centres, precisions, occupancies), the fused single-pass iteration `computeOnce`, and the stopping test `isEnd`.
- **The shared co-segmentation engine** (`SJRCSBase`):
  - column truncation and the weighted views of `calc_weighted`;
  - the residual energy;
  - the object layout of `initx`;
  - the fusion step `step_d` and its centring and weights;
  - the pass counter and `evaluate_k`.
- **The box-initialised variant** (`JRCSBox`): the layout in which the last object takes all remaining columns, the object probabilities taken from box affinities, `reset_objw`, `reset_alpha` and the labelling of the views.
- **The learning initialiser** (`JRCSInitBase`): patch extraction from the label sets, the centre check, the choice of the largest patch group for the mixture fit, and the zeroed responsibility buffers of `generate_alpha`.
- **The graph-cut labelling thread** of the interactive segmentation tool:
  - the data term, including the unknown label;
  - the Potts smoothness term and the cost function;
  - the neighbour edges and the labelling of every frame.
- **The segmentation tool's main window:** loading the inputs and the label files, the object check, removing a view, and starting and finishing an editing job.
- **The per-vertex colour store** of a mesh (`MeshColor`).
- **The state machines of the two mesh viewers:** the visible window of the list viewer and its keys, the texture size, and the strip draw modes and their colours.

Real numbers stand for the source's `float` and `double`.

Some computations are opaque library calls. They enter as function parameters and are taken as given:

- the singular value decomposition and the Gaussian kernel;
- square roots and normalisation;
- the inverse of a rotation, `R.i()`;
- random redraws and box affinities;
- feature extraction, GMM learning and the graph-cut optimiser.

Division is total: a zero divisor gives 0 (`Numeric.Quot`). The source's own guards decide when that happens, and the contracts say so.

Several contracts relate a method to a specification function and then prove the properties the source relies on about that function:

- the responsibilities of every view point lie in [0, 1] and sum to at most 1;
- the fitted rotation is a proper rotation, with or without the sign correction;
- the occupancy weights sum to at most 1 / (1 + gamma);
- the object column ranges tile the model exactly;
- the fused model is the mean of the views carried back by their poses;
- moving a view by a rotation and translation keeps its registration with the model.

The code is followed where it differs from the evident design. The notes below describe what the model then states.

- An empty frame splits patches instead of merging them. In `extract_patch_features` (Dev/JRCS/JRCSCore/jrcsinitbase.cpp:56-70), the loop over frames starts a new list for a patch whenever there are no more lists than the index of the current frame, and otherwise prepends the patch to the last list. After an empty frame the lists lag one behind the frame index, so the first two patches of the next frame each start a list of their own. The lemma `JrcsInit.EmptyFrameSplitsNext` shows this on a concrete input: frames [[0], [1, 2, 3]] with an empty first frame give [[1], [3, 2]].
- `step_d` blends the normals from the model points (Dev/JRCS/JRCSCore/sjrcsbase.cpp:187); `Fusion.ObjectsAt` models that line as written.
- In `initK`, the automatic model size is the median point count times two, truncated to an integer.
- In `stepMd`, mu adds up the running column totals after every buffer rather than the final total. With several views the occupancy weights therefore sum to less than 1 / (1 + gamma); `Jrmpc.OccupancyMass` states the bound, and `Jrmpc.SingleOccupancyMass` shows that a single view reaches it.
- `JRMPC::configure` always succeeds, so the branch of `initForThread` for a failed configuration cannot be reached. `count` is never incremented inside the modelled code.
- Several checks are dead:
  - in `graphcutthread.cpp` (lines 27, 110 and 133), the error objects are constructed but never thrown;
  - `prepareDataTerm` always reports success;
  - `load_labels` shows its message for missing inputs but goes on;
  - in `load_objects` (Dev/ExpIA/mainwindow.cpp:335-349), the directory tested by the loop is always the one just loaded, so the loop ends only through a failed load, which returns before the label check, unless no `GeoObj0` exists. If loading a missing directory fails, the check that `ExpIA.MainWindow.CheckObjects` models therefore runs only with no objects loaded.
- `disable_strips` deletes the mode "Strip'n VertexArrays", while `enable_strips` adds "Strips'n VertexArrays". The model keeps both names, so that mode outlives a disable (`Viewing.StripsModeOutlivesDisable`).
- `finish_editing` reads the thread's object name before its null check; the model requires a running job there.
- The list viewer draws meshes only in the "Points" mode; its other modes are commented out in the source.

## Model

| member | source | states |
|---|---|---|
| Jrmpc.AutoModelSize | Dev/Registration/RegistrationCore/jrmpc.hpp:156-164 | the automatic model size is at least 12 and at most the larger of 12 and twice the median point count |
| Jrmpc.JRMPC.InitK | Dev/Registration/RegistrationCore/jrmpc.hpp:148-165 | a non-zero configured size is kept; otherwise the size is the truncated doubled median of the view sizes, at least 12 |
| Jrmpc.UniformOccupancy | Dev/Registration/RegistrationCore/jrmpc.hpp:101-102 | the uniform occupancy 1/K of the K components sums to 1 |
| Jrmpc.OutlierWeightValue | Dev/Registration/RegistrationCore/jrmpc.hpp:138-144 | with every precision 1/maxvar, the outlier weight is gamma over 2 maxvar (gamma + 1) |
| Jrmpc.OutlierWeightNonNegative | Dev/Registration/RegistrationCore/jrmpc.hpp:141-144 | the outlier weight is non-negative for a non-negative gamma and non-negative precisions |
| Jrmpc.UniformOutlierWeight | Dev/Registration/RegistrationCore/jrmpc.hpp:138-144 | the outlier weight the reset computes from a uniform precision 1/maxvar is non-negative for a non-negative gamma |
| Jrmpc.NormalizedRowBounds | Dev/Registration/RegistrationCore/jrmpc.hpp:206-207 | each entry of a normalised row is non-negative and the row sums into [0, 1] for non-negative kernel values and beta; with beta 0 and a positive row it sums to exactly 1 |
| Jrmpc.NormalizedSumOne | Dev/Registration/RegistrationCore/jrmpc.hpp:206-207 | with no outlier term, a row with positive mass sums to exactly 1 |
| Jrmpc.ResponsibilityBounds | Dev/Registration/RegistrationCore/jrmpc.hpp:197-207 | every responsibility of a view point is non-negative and the point's row sums into [0, 1] when beta is non-negative |
| Jrmpc.DistanceBuffer | Dev/Registration/RegistrationCore/jrmpc.hpp:197-201 | the loop fills the buffer with the squared distance of every view point to every model point |
| Jrmpc.FallbackRotation | Dev/Registration/RegistrationCore/jrmpc.hpp:244-252 | after a double SVD failure the factors U = V = I give the identity as the fitted rotation |
| Jrmpc.SvdOrthonormal | Dev/Registration/RegistrationCore/jrmpc.hpp:239-249 | whichever SVD attempt supplies them, converged factors are orthonormal |
| Jrmpc.FitRotationIsRotation | Dev/Registration/RegistrationCore/jrmpc.hpp:239-252 | the rotation fitted from the cross-covariance is orthonormal with determinant 1 |
| Jrmpc.FitPoseRotation | Dev/Registration/RegistrationCore/jrmpc.hpp:226-256 | every pose change the M-step fits is a proper rotation, and the identity after a double SVD failure |
| Jrmpc.PoseUpdateKeepsRegistration | Dev/Registration/RegistrationCore/jrmpc.hpp:253-259 | applying the fitted update to the points and composing it into the pose gives the same points as the new pose applied to the original view |
| Jrmpc.PrecisionBounds | Dev/Registration/RegistrationCore/jrmpc.hpp:291-294 | for a non-negative spread and a positive weight, the precision is positive, at most 1e6, and the inverse of spread / (3 weight) + 1e-6 |
| Jrmpc.ZeroWeightPrecision | Dev/Registration/RegistrationCore/jrmpc.hpp:291-294 | for a column of zero weight the model's precision is 1e6: the floor is added only after the division by the weight |
| Jrmpc.MassBelowPrefixMass | Dev/Registration/RegistrationCore/jrmpc.hpp:301-309 | with non-negative responsibilities the total mass is non-negative and at most mu, the sum of the running prefix totals |
| Jrmpc.OccupancyMass | Dev/Registration/RegistrationCore/jrmpc.hpp:301-312 | with non-negative responsibilities and gamma, the occupancy weights sum to at most 1 / (1 + gamma) |
| Jrmpc.SingleOccupancyMass | Dev/Registration/RegistrationCore/jrmpc.hpp:301-312 | with a single buffer of positive mass the occupancy weights sum to exactly 1 / (1 + gamma) |
| Jrmpc.DividedMass | Dev/Registration/RegistrationCore/jrmpc.hpp:310-312 | totals of mass at most pm, each divided by pm (1 + gamma), sum to at most 1 / (1 + gamma), and to exactly that when the mass is pm |
| Jrmpc.SquaredExtent | Dev/Registration/RegistrationCore/jrmpc.hpp:134 | the squared extent of the box, maxvar, is non-negative |
| Jrmpc.SeededViews | Dev/Registration/RegistrationCore/jrmpc.hpp:106-113 | each view after the reset is its source under the identity rotation and its offset, and its centroid is the centroid of the target before scaling |
| Jrmpc.SeedPoses | Dev/Registration/RegistrationCore/jrmpc.hpp:105-114 | the seeding loop returns the shifted views, identity rotations and the offsets mean(X) - mean(V_i) |
| Jrmpc.BoundingBox | Dev/Registration/RegistrationCore/jrmpc.hpp:117-132 | the loop returns the componentwise maximum and minimum over every point of every view |
| Jrmpc.Grown | Dev/Registration/RegistrationCore/jrmpc.hpp:192-195 | after n buffers are computed, the first n are the computed ones, existing buffers beyond n are kept, and the list is as long as the larger of n and its old length |
| Jrmpc.GrownEnds | Dev/Registration/RegistrationCore/jrmpc.hpp:192-195 | before any computation the list is unchanged; once n covers every existing buffer it is exactly the first n computed |
| Jrmpc.GrownStep | Dev/Registration/RegistrationCore/jrmpc.hpp:192-195 | computing buffer n overwrites it when it exists and appends it otherwise |
| Jrmpc.DeltasAreRotations | Dev/Registration/RegistrationCore/jrmpc.hpp:218-259 | every per-view change the M-step fits is a proper rotation, and the identity where both SVD attempts failed |
| Jrmpc.FirstFailureIsFirst | Dev/Registration/RegistrationCore/jrmpc.hpp:366-377 | the view reported as the first failure failed twice, and no earlier view did |
| Jrmpc.MovedStep | Dev/Registration/RegistrationCore/jrmpc.hpp:253-259 | moving one more view updates exactly that view's points, rotation and offset |
| Jrmpc.MovedRegistered | Dev/Registration/RegistrationCore/jrmpc.hpp:253-259 | whichever views have moved, every view stays its original under its new pose and every rotation stays proper |
| Jrmpc.MovePoses | Dev/Registration/RegistrationCore/jrmpc.hpp:218-261 | the loop leaves every view moved by its fitted change, the composed rotations and offsets, and a failure flag that is set exactly when some fit failed twice |
| Jrmpc.ModelTotals | Dev/Registration/RegistrationCore/jrmpc.hpp:273-290 | the loop returns X_sum, var_sum and alpha_sum: the responsibility-weighted points, spreads and masses summed over the views |
| Jrmpc.OccupancyTotals | Dev/Registration/RegistrationCore/jrmpc.hpp:304-309 | the loop returns the column totals over all buffers and mu, the sum of the running prefix totals |
| Jrmpc.AccumulateView | Dev/Registration/RegistrationCore/jrmpc.hpp:392-406 | one view adds its weighted points, spreads and column masses to the totals, and the new running total to mu |
| Jrmpc.SweepStep | Dev/Registration/RegistrationCore/jrmpc.hpp:330-407 | visiting view n writes its buffer, applies its change to that view alone, and adds its moved points' share to every total |
| Jrmpc.SweepEnd | Dev/Registration/RegistrationCore/jrmpc.hpp:326-408 | once every view is visited, the buffers are the E-step results and the totals are those of the moved views, as the separate M-steps compute them |
| Jrmpc.Visit | Dev/Registration/RegistrationCore/jrmpc.hpp:328-407 | one view's turn writes its responsibilities, applies its pose change and, unless the fit failed twice, adds its share of the totals |
| Jrmpc.FusedPass | Dev/Registration/RegistrationCore/jrmpc.hpp:326-408 | the fused loop stops at the first view whose fit fails twice, leaving later views and their buffers untouched; otherwise it ends in the full sweep |
| Jrmpc.Iteration | Dev/Registration/RegistrationCore/jrmpc.hpp:316-416 | the iteration returns the state the specification of one fused EM step describes: stopped at the first double failure, or with the new model points, precisions and occupancy |
| Jrmpc.IterationKeepsValid | Dev/Registration/RegistrationCore/jrmpc.hpp:316-416 | an iteration keeps every view registered to its source under its pose and every buffer shaped to its view, whether it completes or stops early |
| Jrmpc.Padding | Dev/Registration/RegistrationCore/jrmpc.hpp:54-59 | the padded target holds exactly size origin points, one per pass of the padding loop |
| Jrmpc.JRMPC.constructor | Dev/Registration/RegistrationCore/jrmpc.hpp:9-13 | a new engine has count 0, no force flag, no views, buffers or model points, mode NotEnded, and a valid state |
| Jrmpc.JRMPC.Reset | Dev/Registration/RegistrationCore/jrmpc.hpp:80-145 | the state after the reset is the one the specification of the reset describes |
| Jrmpc.JRMPC.ScaleModel | Dev/Registration/RegistrationCore/jrmpc.hpp:101-144 | the occupancy becomes uniform, every precision 1/maxvar, the model points scaled by sqrt(maxvar)/2, and beta the outlier weight of those precisions |
| Jrmpc.JRMPC.ResetIsValid | Dev/Registration/RegistrationCore/jrmpc.hpp:86-144 | after a reset the state is valid, every view has the centroid of the target before scaling, the occupancy sums to 1, and beta is non-negative for a non-negative gamma |
| Jrmpc.JRMPC.Start | Dev/Registration/RegistrationCore/jrmpc.hpp:72-76 | the engine is reset on the point sets and the list then holds the engine's views followed by its model points |
| Jrmpc.JRMPC.InitForThread | Dev/Registration/RegistrationCore/jrmpc.hpp:22-77 | a missing list and a list of fewer than two point sets are rejected with their messages and no state change; otherwise the model size is settled, the padded bundle always has that size, and the engine is reset on the padded model with the list holding the views and then the model |
| Jrmpc.JRMPC.StepE | Dev/Registration/RegistrationCore/jrmpc.hpp:184-210 | the buffers become the E-step responsibilities of every view, the buffer list never shrinks, and the state stays valid |
| Jrmpc.JRMPC.StepMa | Dev/Registration/RegistrationCore/jrmpc.hpp:213-262 | every view and its pose take the fitted change, the force flag records any double SVD failure, and the state stays valid |
| Jrmpc.JRMPC.StepMbc | Dev/Registration/RegistrationCore/jrmpc.hpp:265-295 | the model points become the weighted means of the views, and the precisions the floored inverse spreads measured to the old model points |
| Jrmpc.JRMPC.StepMd | Dev/Registration/RegistrationCore/jrmpc.hpp:299-313 | the occupancy becomes the column totals over all buffers divided by (gamma + 1) mu, and the state stays valid |
| Jrmpc.JRMPC.ComputeOnce | Dev/Registration/RegistrationCore/jrmpc.hpp:316-416 | the state after one call is the specification's fused iteration, the force flag records a double failure, and the state stays valid |
| Jrmpc.JRMPC.IsEnd | Dev/Registration/RegistrationCore/jrmpc.hpp:447-460 | the work ends exactly when the count reaches the bound or the force flag is set, and the mode records which, with the bound taking precedence |
| Geometry.CorrectionProperties | Dev/Registration/RegistrationCore/jrmpc.hpp:250-251 | for det(U V^T) = p, the correction diag(1, 1, sign p) is orthonormal with determinant sign p, which is +1 or -1; it is the identity when p is non-negative, and sign p times p is never negative |
| Geometry.FittedRotationIsRotation | Dev/Registration/RegistrationCore/jrmpc.hpp:250-252 | with U and V orthonormal, U C V^T is a proper rotation: the correction rules out a reflection |
| Geometry.FittedRotationProper | Dev/Registration/RegistrationCore/jrmpc.hpp:250-252 | when det(U V^T) is non-negative the correction is the identity and the fitted rotation is U V^T itself |
| Geometry.FittedRotationDet | Dev/Registration/RegistrationCore/jrmpc.hpp:250-252 | when det(U V^T) is +1 or -1, the corrected product has determinant exactly +1 |
| Geometry.RotationMul | Dev/Registration/RegistrationCore/jrmpc.hpp:253 | the product of two proper rotations is a proper rotation, so R <- dR R keeps the pose a rotation |
| Geometry.TransformCompose | Dev/Registration/RegistrationCore/jrmpc.hpp:253-259 | applying (R, t) and then (dR, dt) equals applying (dR R, dR t + dt) |
| Geometry.SeededCentroid | Dev/Registration/RegistrationCore/jrmpc.hpp:106-113 | translating a view by the difference between the target centroid and its own centroid puts its centroid on the target |
| Geometry.MeanTranslate | Dev/Registration/RegistrationCore/jrmpc.hpp:113 | translating every point by t translates the mean by t |
| Geometry.BoxMax | Dev/Registration/RegistrationCore/jrmpc.hpp:122 | every point lies below the result componentwise, and each component of the result is reached by some point |
| Geometry.BoxMin | Dev/Registration/RegistrationCore/jrmpc.hpp:123 | every point lies above the result componentwise, and each component of the result is reached by some point |
| Numeric.Trunc | Dev/Registration/RegistrationCore/jrmpc.hpp:163 | the conversion to int truncates toward zero: within 1 of the value, on the side of zero |
| Numeric.MedianBetweenElements | Dev/Registration/RegistrationCore/jrmpc.hpp:163 | the median of the view sizes is at least one of them and at most another |
| Numeric.MedianCountBetween | Dev/JRCS/JRCSCore/sjrcsbase.cpp:321 | the truncated median of the counts is at least one of the counts and at most another |
| Numeric.NatMax | Dev/JRCS/JRCSCore/jrcsinitbase.cpp:45 | the largest label is one of the labels and bounds every label |
| Numeric.Resize | Dev/ExpIA/mainwindow.cpp:244 | the resized list has the requested length, keeps the old entries up to it, and fills the rest with the fill value |
| Sjrcs.SizesWithin | Dev/JRCS/JRCSCore/sjrcsbase.cpp:354-371 | no object receives a negative share and the shares total at most the columns there are; the box variant hands out exactly all of them |
| Sjrcs.RangesAt | Dev/JRCS/JRCSCore/sjrcsbase.cpp:350-371 | entry 2o of the ranges is object o's first column, the number of columns before it in uword arithmetic, and entry 2o + 1 its first column plus its size minus 1 |
| Sjrcs.RangesExact | Dev/JRCS/JRCSCore/sjrcsbase.cpp:359-360 | for non-negative sizes totalling at most k, each first column is the number of columns before the object, and a non-empty object's last column lies below k, one before the next first column |
| Sjrcs.RangesInside | Dev/JRCS/JRCSCore/sjrcsbase.cpp:350-371 | the object ranges of a partition of k columns start where the previous objects end and a non-empty object stays below column k |
| Sjrcs.LastRangeEnds | Dev/JRCS/JRCSCore/jrcsbox.cpp:60-62 | in the box variant the last object ends at column k - 1 |
| Sjrcs.RedrawnIs | Dev/JRCS/JRCSCore/sjrcsbase.cpp:362-374 | the shares are non-negative and total at most the model size; the redrawn columns are the objects' blocks in order, and the columns no object received keep their values |
| Sjrcs.LayOut | Dev/JRCS/JRCSCore/sjrcsbase.cpp:350-375 | the object loop returns the specification's sizes and ranges and the redrawn points and normals |
| Sjrcs.TruncateColumns | Dev/JRCS/JRCSCore/sjrcsbase.cpp:279-285 | the loop returns the responsibilities truncated at their column medians |
| Sjrcs.TruncatedEntries | Dev/JRCS/JRCSCore/sjrcsbase.cpp:279-285 | a truncated entry is zero when it is below its column median and the responsibility itself otherwise |
| Sjrcs.TruncationKeepsAnEntry | Dev/JRCS/JRCSCore/sjrcsbase.cpp:268-285 | every column keeps at least one entry, since the median never exceeds the column's largest entry |
| Sjrcs.TruncatedTotalPositive | Dev/JRCS/JRCSCore/sjrcsbase.cpp:287-301 | for non-negative responsibilities, a column with a positive entry keeps a positive total after truncation, so its division is taken |
| Sjrcs.CalcWeighted | Dev/JRCS/JRCSCore/sjrcsbase.cpp:257-305 | the weighted points are the view weighted by the truncated responsibilities and divided by every non-zero column total; the normals are weighted alike and then normalised |
| Sjrcs.WeightedIsMean | Dev/JRCS/JRCSCore/sjrcsbase.cpp:289-301 | where a column has a positive entry, its truncated total is positive and the weighted point times that total is the weighted sum of the view: a true weighted mean |
| Sjrcs.ResEnergy | Dev/JRCS/JRCSCore/sjrcsbase.cpp:244-248 | the residual energy is non-negative |
| Sjrcs.ResEnergyZeroIff | Dev/JRCS/JRCSCore/sjrcsbase.cpp:244-248 | the energy is zero if and only if the two functions agree |
| Sjrcs.ResEnergySymmetric | Dev/JRCS/JRCSCore/sjrcsbase.cpp:244-248 | the energy does not depend on the order of its two arguments |
| Sjrcs.Linspace | Dev/JRCS/JRCSCore/sjrcsbase.cpp:344 | n values whose last is exactly the end and, for more than one, whose first is the start |
| Sjrcs.LinspaceStep | Dev/JRCS/JRCSCore/sjrcsbase.cpp:344 | value i is the start plus i equal steps of (end - start) / (n - 1) |
| Sjrcs.LinspaceIncreasing | Dev/JRCS/JRCSCore/sjrcsbase.cpp:344 | for a start below the end the values strictly increase |
| Sjrcs.PositionsSpread | Dev/JRCS/JRCSCore/sjrcsbase.cpp:342-345 | two or more objects sit at distinct heights on the z axis, in increasing order, mirrored about the origin |
| Fusion.ObjectsOutside | Dev/JRCS/JRCSCore/sjrcsbase.cpp:178-189 | blending a view leaves the point and normal of every column outside the blended objects' ranges unchanged |
| Fusion.ObjectsAt | Dev/JRCS/JRCSCore/sjrcsbase.cpp:178-189 | with disjoint ranges, an object's column is blended once per view: its point with the view's back-transformed point, its normal from that new point (as written) and the view's back-rotated normal |
| Fusion.MeanStep | Dev/JRCS/JRCSCore/sjrcsbase.cpp:171-186 | blending a new value with rate i / (i + 1) turns the mean of i values into the mean of i + 1 |
| Fusion.BlendMean | Dev/JRCS/JRCSCore/sjrcsbase.cpp:171-186 | blending the mean of a list with one more point gives the mean of the extended list |
| Fusion.FusedIsMean | Dev/JRCS/JRCSCore/sjrcsbase.cpp:166-190 | with disjoint ranges, after any number of views every object column holds the mean of the back-transformed points those views contribute, and its normal comes from that point and the last view's normal |
| Fusion.FusedOutside | Dev/JRCS/JRCSCore/sjrcsbase.cpp:166-167 | a column outside every object range stays zero in both points and normals |
| Fusion.BlendAll | Dev/JRCS/JRCSCore/sjrcsbase.cpp:166-190 | the view loop over the object loop returns the blend of every view, in order |
| Fusion.CentreAll | Dev/JRCS/JRCSCore/sjrcsbase.cpp:192-200 | the centring loop returns the objects re-centred one after another |
| Fusion.CentreObjectElsewhere | Dev/JRCS/JRCSCore/sjrcsbase.cpp:192-200 | re-centring one object leaves the columns of a disjoint object unchanged |
| Fusion.CentreObjectMean | Dev/JRCS/JRCSCore/sjrcsbase.cpp:197-199 | after re-centring, the mean of the object's columns is its position |
| Fusion.CentredMeans | Dev/JRCS/JRCSCore/sjrcsbase.cpp:192-200 | with disjoint ranges, after all objects are re-centred each object's mean is its position |
| Fusion.AlphaSum | Dev/JRCS/JRCSCore/sjrcsbase.cpp:205-211 | the loop returns, per model column, the responsibilities summed over all views |
| Fusion.ModelWeightsMass | Dev/JRCS/JRCSCore/sjrcsbase.cpp:214-217 | when mu is non-zero the model weights sum to 1 / (1 + beta), the share left after the outlier weight; otherwise they are the totals themselves |
| Fusion.WeightsNonNegative | Dev/JRCS/JRCSCore/sjrcsbase.cpp:212-217 | for non-negative totals, variance sums and beta, every model weight and every precision is non-negative |
| SjrcsEngine.SizeEstimateBetween | Dev/JRCS/JRCSCore/sjrcsbase.cpp:321 | the estimate is at least 5 and lies between half of one view's point count plus 5 and half of another's plus 5 |
| SjrcsEngine.Engine.constructor | Dev/JRCS/JRCSCore/sjrcsbase.cpp:3-7 | the pass bound starts at 3 and the counter at 0 |
| SjrcsEngine.Engine.PrepareCompute | Dev/JRCS/JRCSCore/sjrcsbase.cpp:18-28 | the counter restarts and every view gets a zeroed copy of the model |
| SjrcsEngine.Engine.FinishSteps | Dev/JRCS/JRCSCore/sjrcsbase.cpp:219-223 | the counter advances by one, and the engine has ended exactly when the old counter had reached the bound |
| SjrcsEngine.Engine.EvaluateK | Dev/JRCS/JRCSCore/sjrcsbase.cpp:307-322 | without views it fails with its message; otherwise it returns half the median point count plus 5, at least 5 |
| SjrcsEngine.Engine.InitX | Dev/JRCS/JRCSCore/sjrcsbase.cpp:323-377 | objects sit on the z axis, the column ranges follow the probabilities without giving the last object the rest, and each object's points and normals are redrawn |
| SjrcsEngine.Engine.StepD | Dev/JRCS/JRCSCore/sjrcsbase.cpp:163-218 | the model points become the centred fused mean of the views and the normals the normalised fused normals; the precisions and weights are those of the summed responsibilities |
| JrcsBox.LargestList | Dev/JRCS/JRCSCore/jrcsbox.cpp:84-89 | the object count is the size of a largest cube list: it bounds every list and is one of them, and it is 0 without lists |
| JrcsBox.Normalised | Dev/JRCS/JRCSCore/jrcsbox.cpp:174 | the scores divided by their total have one entry per score and sum to 1 whenever the total is non-zero |
| JrcsBox.NormalisedShares | Dev/JRCS/JRCSCore/jrcsbox.cpp:164-175 | non-negative scores with a positive total become shares in [0, 1] in the same order as the scores |
| JrcsBox.Reach | Dev/JRCS/JRCSCore/jrcsbox.cpp:145-161 | the lockstep walk stops at the end of the shortest of the cube lists, the views and the colour lists |
| JrcsBox.FirstMatch | Dev/JRCS/JRCSCore/jrcsbox.cpp:145-152 | the list found has the wanted number of cubes and no earlier list has; without one the walk's end is returned |
| JrcsBox.BoxProbsShares | Dev/JRCS/JRCSCore/jrcsbox.cpp:147-175 | when some list matches, the probabilities are the first matching list's cube scores divided by their total, summing to 1 when that total is non-zero |
| JrcsBox.ArgMax | Dev/JRCS/JRCSCore/jrcsbox.cpp:109-114 | the index returned holds a largest element and is the first that does |
| JrcsBox.LabelsAreArgMax | Dev/JRCS/JRCSCore/jrcsbox.cpp:101-115 | every point's label names an object, that object has the largest responsibility mass, and every object before it has less |
| JrcsBox.BoxPartitionExact | Dev/JRCS/JRCSCore/jrcsbox.cpp:55-70 | with at least one object, the sizes hand out exactly the k columns and the last object's range ends at column k - 1 |
| JrcsBox.Box.ResetObjW | Dev/JRCS/JRCSCore/jrcsbox.cpp:81-90 | the object count becomes the size of the largest cube list |
| JrcsBox.Box.ObjProbFromBoxes | Dev/JRCS/JRCSCore/jrcsbox.cpp:164-175 | the probabilities are the scores of the list's cubes divided by their total |
| JrcsBox.Box.InitFromBoxes | Dev/JRCS/JRCSCore/jrcsbox.cpp:135-162 | the probabilities are those of the first cube list with the object count's number of cubes among those the lockstep walk reaches, or none |
| JrcsBox.Box.InitX | Dev/JRCS/JRCSCore/jrcsbox.cpp:16-79 | the probabilities come from the boxes, objects sit on the z axis, the last object takes every remaining column, points and normals are redrawn, and each view list gains one block per object |
| JrcsBox.Box.PlaceObjects | Dev/JRCS/JRCSCore/jrcsbox.cpp:51-74 | the loop returns the ranges (a resized list starting with 0 when there is no object), one block per object, and the redrawn points and normals |
| JrcsBox.Box.ResetAlpha | Dev/JRCS/JRCSCore/jrcsbox.cpp:120-133 | every view gets a responsibility matrix of its points by the model columns; well-shaped matrices are kept, missing ones added, none dropped |
| JrcsBox.Box.UpdateColorLabel | Dev/JRCS/JRCSCore/jrcsbox.cpp:92-118 | every view's point labels are the objects of largest responsibility mass |
| JrcsBox.Box.ObjectColumns | Dev/JRCS/JRCSCore/jrcsbox.cpp:101-106 | column o holds, for every point, its responsibility mass on the model columns labelled o + 1 |
| JrcsInit.AddPatch | Dev/JRCS/JRCSCore/jrcsinitbase.cpp:56-70 | recording a patch keeps one feature list per label list and at least as many size lists |
| JrcsInit.ExtractedGroups | Dev/JRCS/JRCSCore/jrcsinitbase.cpp:37-75 | from empty lists, frames 0 .. n-1 give at most one group per frame, each non-empty with its labels strictly decreasing and one feature column and one size per label, and the old size lists kept in front |
| JrcsInit.EmptyFrameSplitsNext | Dev/JRCS/JRCSCore/jrcsinitbase.cpp:56-70 | a frame that follows a frame without patches is split: with labels [0] then [1, 2, 3], the groups are [1] and [3, 2] |
| JrcsInit.LargestGroup | Dev/JRCS/JRCSCore/jrcsinitbase.cpp:140-149 | the chosen index lies among the groups scanned, and is 0 when there are none |
| JrcsInit.LargestGroupIsFirst | Dev/JRCS/JRCSCore/jrcsinitbase.cpp:140-149 | the chosen group has the most patches and every group before it has strictly fewer: ties keep the earliest |
| JrcsInit.MaxPatches | Dev/JRCS/JRCSCore/jrcsinitbase.cpp:140-146 | the running maximum of the patch counts bounds every group's count |
| JrcsInit.Initializer.InitWithLabel | Dev/JRCS/JRCSCore/jrcsinitbase.cpp:11-29 | every argument is stored, the rest of the state is unchanged, and the call succeeds |
| JrcsInit.Initializer.ExtractPatchFeatures | Dev/JRCS/JRCSCore/jrcsinitbase.cpp:37-75 | the label and feature lists are rebuilt from the frames as the specification scans them, the size lists are kept, and nothing else changes |
| JrcsInit.Initializer.Configure | Dev/JRCS/JRCSCore/jrcsinitbase.cpp:31-35 | the feature dimension is taken from the configuration, nothing else changes, and the call succeeds |
| JrcsInit.Initializer.Learn | Dev/JRCS/JRCSCore/jrcsinitbase.cpp:132-163 | the chosen group is the first with the most patches; the mixture fit starts from the current centres when they pass the check and from that group's features otherwise, and its result becomes the centres |
| JrcsInit.Initializer.GenerateAlpha | Dev/JRCS/JRCSCore/jrcsinitbase.cpp:170-182 | there is one zero buffer per frame, its points by k, and nothing else changes |
| GraphCut.FailedObjectRow | Dev/ExpIA/graphcutthread.cpp:64-100 | an object whose transform fails gets a zero score row, so its cost at a pixel is w times the whole column total |
| GraphCut.UnknownColumnMass | Dev/ExpIA/graphcutthread.cpp:96-100 | each column of the data term sums to w (L - 1) times the column's total score, with 0.5 for the unknown label, L being the number of labels |
| GraphCut.UnknownColumnEntries | Dev/ExpIA/graphcutthread.cpp:96-100 | each cost is w times the column total less the label's own score |
| GraphCut.HigherScoreLowerCost | Dev/ExpIA/graphcutthread.cpp:96-100 | with a positive weight, an object label scoring higher at a pixel gets a strictly lower cost there |
| GraphCut.SmoothTermEntries | Dev/ExpIA/graphcutthread.cpp:106-114 | exactly the neighbour pairs have an entry, each holding the pair's similarity |
| GraphCut.PottsCost | Dev/ExpIA/graphcutthread.cpp:119-123 | the cost is symmetric in the labels, zero for equal labels, and the same for every pair of distinct labels |
| GraphCut.FirstRefused | Dev/ExpIA/graphcutthread.cpp:129-137 | every pair before the index found is accepted by the graph and the pair at it, if any, is refused |
| GraphCut.PrepareNeighbors | Dev/ExpIA/graphcutthread.cpp:125-139 | the loop succeeds exactly when the graph accepts every pair, and hands it the weighted pairs up to and including the first refused one |
| GraphCut.GraphCutThread.Configure | Dev/ExpIA/graphcutthread.cpp:4-10 | the configuration is kept, the call succeeds exactly when both graph-cut keys are present, and nothing else changes |
| GraphCut.GraphCutThread.PrepareDataTerm | Dev/ExpIA/graphcutthread.cpp:57-79 | the data matrix becomes the frame's data term (object scores, zeros for a failed transform, then the unknown label), and the call always succeeds |
| GraphCut.GraphCutThread.PrepareDataForUnknown | Dev/ExpIA/graphcutthread.cpp:94-101 | the data matrix is rewritten into costs: row 0 set to 0.5, then each entry becomes w times its column total less the entry |
| GraphCut.GraphCutThread.PrepareSmoothTerm | Dev/ExpIA/graphcutthread.cpp:103-117 | for neighbour pairs within the pixel count (the bounds-checked store at line 113 throws otherwise), the smoothness matrix holds the current frame's neighbour similarities and the call succeeds |
| GraphCut.GraphCutThread.FnCost | Dev/ExpIA/graphcutthread.cpp:119-123 | the cost is symmetric in the two labels, zero for equal labels, and one value shared by every pair of distinct labels (a Potts cost) |
| GraphCut.GraphCutThread.LabelFrame | Dev/ExpIA/graphcutthread.cpp:18-53 | the label and pixel counts are set for the current frame, and only that frame's output changes, to the solver's labels for its terms |
| GraphCut.GraphCutThread.Run | Dev/ExpIA/graphcutthread.cpp:12-55 | every frame, in order, gets 1 + the object count labels, one pixel per supervoxel and the solver's labels; outputs past the frames are untouched |
| ExpIA.FirstIndex | Dev/ExpIA/mainwindow.cpp:490-497 | the index found holds the widget and no earlier entry does; without one it is the list length |
| ExpIA.RemovedViewOnce | Dev/ExpIA/mainwindow.cpp:481-501 | removing a present widget drops exactly one occurrence of it and keeps the other widgets; an absent widget leaves the list untouched |
| ExpIA.FirstMisfit | Dev/ExpIA/mainwindow.cpp:246-263 | every frame before the index found has a label file that loaded with one entry per vertex, and the file at the index, if any, does not |
| ExpIA.MaxLabelIsMax | Dev/ExpIA/mainwindow.cpp:352-358 | the largest label bounds every label of the frames scanned and is held by one of them |
| ExpIA.MainWindow.OpenInputs | Dev/ExpIA/mainwindow.cpp:83-97 | the inputs become the opened meshes' vertex counts, each with a zero label vector of that length, and nothing else changes |
| ExpIA.MainWindow.LoadLabels | Dev/ExpIA/mainwindow.cpp:224-269 | without a directory nothing changes; otherwise frames before the first misfit take their loaded labels, the rest keep the resized list, and the call succeeds exactly when every file fits |
| ExpIA.MainWindow.CheckObjects | Dev/ExpIA/mainwindow.cpp:350-366 | a warning is raised exactly when labels are present and the largest label differs from the number of objects |
| ExpIA.MainWindow.RemoveView | Dev/ExpIA/mainwindow.cpp:481-501 | a viewer sender is removed from the view list once and the other views are kept; any other sender changes nothing |
| ExpIA.MainWindow.StartEditing | Dev/ExpIA/mainwindow.cpp:503-604 | a running job refuses, missing frames or labels refuse, and otherwise a configured job action starts, a window action opens and other senders are ignored; only a started job is stored |
| ExpIA.MainWindow.FinishEditing | Dev/ExpIA/mainwindow.cpp:606-620 | the running job is stopped and cleared, and nothing else changes |
| MeshColors.DefaultColorIndex | Dev/Common/MeshColor.hpp:24 | the default colour index drawn from the random value lies within the palette |
| MeshColors.MeshColor.constructor | Dev/Common/MeshColor.hpp:4-7 | a new store refers to its mesh and holds no colour buffer |
| MeshColors.MeshColor.Copy | Dev/Common/MeshColor.hpp:9-12 | the copy refers to the same mesh and holds the same colours |
| MeshColors.MeshColor.VertexColors | Dev/Common/MeshColor.hpp:21-36 | the returned buffer has one colour per vertex; an absent or mis-sized buffer is reset to the default colour, a well-sized one is kept |
| MeshColors.ResetSettles | Dev/Common/MeshColor.hpp:28-35 | a freshly reset buffer needs no further reset, so a second call keeps the colours of the first |
| MeshListViewer.CarouselKept | Dev/Visualization/VisualizationCore/meshlistviewerwidgett.hpp:738-773 | keys Up and Down keep the number of visible meshes between 1 and the smaller of 8 and the list size, and Left and Right keep the start inside the list |
| MeshListViewer.LeftRightInverse | Dev/Visualization/VisualizationCore/meshlistviewerwidgett.hpp:758-773 | Left and Right undo each other; on a non-empty list Left is a step back and Right a step forward, modulo the size |
| MeshListViewer.RightCycle | Dev/Visualization/VisualizationCore/meshlistviewerwidgett.hpp:766-773 | pressing Right n times moves the start n places on cyclically, and after as many presses as meshes it is back where it was |
| MeshListViewer.Window | Dev/Visualization/VisualizationCore/meshlistviewerwidgett.hpp:507-519 | the visited meshes are as many as are visible, all inside the list |
| MeshListViewer.WithVertices | Dev/Visualization/VisualizationCore/meshlistviewerwidgett.hpp:514 | the drawn meshes are among the visited ones and all have vertices |
| MeshListViewer.ListViewer.KeyPress | Dev/Visualization/VisualizationCore/meshlistviewerwidgett.hpp:680-777 | D toggles colours in Points mode, N toggles face normals with Shift and vertex normals without, T advances the texture mode, Up and Down change the visible count and Left and Right move the start; the carousel stays valid and nothing else changes |
| MeshListViewer.ListViewer.SetTexture | Dev/Visualization/VisualizationCore/meshlistviewerwidgett.hpp:128-145 | without texture coordinates it fails and changes nothing; otherwise each side becomes the largest power of two not above the image side, or 0 for an empty side |
| MeshListViewer.ListViewer.EnableStripModes | Dev/Visualization/VisualizationCore/meshlistviewerwidgett.hpp:646-656 | the strip flag and modes become those of enabling the strips, and nothing else changes |
| MeshListViewer.ListViewer.DisableStripModes | Dev/Visualization/VisualizationCore/meshlistviewerwidgett.hpp:660-670 | the strip flag and modes become those of disabling the strips, as spelled in the removal, and nothing else changes |
| MeshListViewer.ListViewer.DrawScene | Dev/Visualization/VisualizationCore/meshlistviewerwidgett.hpp:489-519 | nothing is drawn for an empty list or a mode other than Points; in Points mode the visited meshes are the visible window from the start, wrapping, and the drawn ones those with vertices |
| MeshPairViewer.PairViewer.KeyPress | Dev/Visualization/VisualizationCore/MeshPairViewerWidgetT.hpp:734-805 | D toggles colours only when both meshes have colours and the mode is Points, N toggles face normals with Shift and vertex normals without, T advances the texture mode, and nothing else changes |
| MeshPairViewer.PairViewer.SetTexture | Dev/Visualization/VisualizationCore/MeshPairViewerWidgetT.hpp:195-211 | without texture coordinates it fails and changes nothing; otherwise each side becomes the largest power of two not above the image side, or 0 for an empty side |
| MeshPairViewer.PairViewer.EnableStripModes | Dev/Visualization/VisualizationCore/MeshPairViewerWidgetT.hpp:702-712 | the strip flag and modes become those of enabling the strips, and nothing else changes |
| MeshPairViewer.PairViewer.DisableStripModes | Dev/Visualization/VisualizationCore/MeshPairViewerWidgetT.hpp:716-726 | the strip flag and modes become those of disabling the strips, as spelled in the removal, and nothing else changes |
| MeshPairViewer.PairViewer.DrawScene | Dev/Visualization/VisualizationCore/MeshPairViewerWidgetT.hpp:556-697 | two empty meshes draw nothing; each known mode draws the meshes that have vertices, Hidden-Line twice over, and an unknown mode draws nothing |
| Viewing.TextureSide | Dev/Visualization/VisualizationCore/meshlistviewerwidgett.hpp:136-142 | for a side of at least 1 the result is the largest power of two not above it; otherwise 0 |
| Viewing.PowerOfTwoPositive | Dev/Visualization/VisualizationCore/meshlistviewerwidgett.hpp:139-141 | every power of two is at least 1, so an image with pixels never gets a zero side |
| Viewing.TexModeCycle | Dev/Visualization/VisualizationCore/meshlistviewerwidgett.hpp:728-735 | four presses of T return to the starting mode; one press moves a mode of the four-mode cycle to a different one and leaves any other value alone |
| Viewing.StripsIdempotent | Dev/Visualization/VisualizationCore/meshlistviewerwidgett.hpp:646-670 | enabling or disabling twice is the same as once, and the flag ends in the requested state |
| Viewing.StripsModeOutlivesDisable | Dev/Visualization/VisualizationCore/meshlistviewerwidgett.hpp:646-670 | after enabling and then disabling, Show Strips is withdrawn but the mode with the mismatched spelling stays offered |
| Viewing.StripColours | Dev/Visualization/VisualizationCore/meshlistviewerwidgett.hpp:429-446 | the loop returns one colour per strip, each the specification's colour of that strip and inside the colour range |
| Viewing.StepColour | Dev/Visualization/VisualizationCore/meshlistviewerwidgett.hpp:436-446 | each strip's colour is the previous strip's advanced by the three steps modulo 220 |
| Viewing.StripColourPeriod | Dev/Visualization/VisualizationCore/meshlistviewerwidgett.hpp:444-446 | the colours repeat with a period of 220 strips |

## Left out

- IEEE behaviour: division by zero yields 0 instead of infinity or NaN, and `float` precision and rounding are not modelled; contracts guard divisions as the source does.
- Opaque numerics are parameters taken as given: the singular value decomposition, `exp` in the Gaussian kernel, `pow`, square roots, `arma::normalise`, the inverse `R.i()`, the redraw of an object's points (`reset_obj_vn`), the box affinities, the patch feature extractor, GMM learning, the graph-cut optimiser and `sv2pix`, `ObjModel::transform` and the match test of the box search.
- Random initialisation (`rand_sphere`, `set_seed_random`, `srand`, `rand`) is a parameter; no distribution is modelled.
- Colour output (`varToColor`, `setVarColor`, `colorByLabel`, `reset_obj_c`, the colour lists of the views and the model), OpenGL rendering, the vertex-normal overlay and OpenSG indices are not modelled.
- Threads, OpenMP parallel loops and the Qt thread lifecycle (signals, `QThread` start and finish, message boxes) are not modelled; each operation runs to completion.
- `step_a`, `step_b` and `step_c` of the co-segmentation engine, and the empty stubs of the box and initialiser classes (the frame transform callbacks, `assign`, `getAlpha`, `getObjProb`, `init_obj_prob`), are not modelled.
- Members of `JRCSBase`, which is not part of this model: the base `reset_alpha` that `prepare_compute` calls, the `update_color_label` that `finish_steps` calls, and the base constructor. `SJRCSBase::configure` is not modelled either.
- `init_color_gmm`, the resizing of the GMM and probability lists in `init_from_boxes`, and the PCA of the initialiser are not modelled.
- File and mesh input and output, the directory loop of `load_objects`, and configuration values beyond the presence of a key are not modelled.
- The static smoothness matrix of the graph-cut thread is modelled as state of the thread object.
- Armadillo bounds checks are preconditions; buffers the source leaves uninitialised are taken as zeros.
- Texture images are neither scaled nor uploaded; only the chosen side is modelled. Draw modes are modelled as a set of names.
- The driver that increments `count` of JRMPC is not part of this model.
- `ExpIA.MainWindow.LoadLabels`: the colour update through `custom_color_.fromlabel` is not modelled; only the label lists are.
- `JrcsBox.Normalised`: a zero total gives zeros where the source gives NaN.
- `Jrmpc.JRMPC.StepMbc`: a model column with zero total weight is not guarded by the 1e-6 floor; the source divides by zero there and its precision is 0 or NaN, while the model gives 1e6 (`Jrmpc.ZeroWeightPrecision`).
- `Jrmpc.NormalizedRowBounds`: a row whose kernel values and outlier term are all zero gives zeros where the source divides by zero.
- `Jrmpc.JRMPC.InitForThread`: a negative configured k is a precondition here; in the source it is compared with the unsigned vertex count, so the padding loop never ends. The "Unable to add k points to target" branch cannot be reached for any other k and is not modelled.
- Declaration-only headers (`jrcs.h`, `segmentationcore.h`, `featurecore.h`, `MeshViewerWidget.h`) and `RegistrationTool/mainwindow.cpp` are not part of this model.
