# Pt–Sn cluster descriptor engine, modelled in Dafny

The model covers the structural-descriptor engine of the Pt/Sn trajectory analysis (version 6.2.3), together with the small parsers and accumulators around it:

- **Vector and math helpers.** Component difference, norm, mean, clip, double factorial, and the associated-Legendre spherical harmonic (`math_utils.dfy`).
- **Coordination.** The PLUMED-style rational switching function, with its zero-denominator patch and clamps. The smooth coordination sums built on it. The bond-specific coordination of a Pt or Sn centre. The four GCN variants (`coordination.dfy`).
- **Local Ql.** Neighbour selection, the fewer-than-four-neighbours sentinel, assembly of the q_lm vector, the Q6/Q4 wrappers, and the (Q4, Q6) structure classifier (`local_q.dfy`).
- **Global Q6.** NaN-skipping averaging over element masks, and the cluster / metal / Pt / Sn statistics (`global_q6.dfy`).
- **Frame geometry.** Centroid, gyration radius, and the per-species mean radial distance (`geometry.dfy`).
- **Trajectory driver.** The line-indexed XYZ reader, element detection, the time-series column names, and the per-frame column append (`trajectory.dfy`).
- **Output validator.** The per-column statistics accumulator, the marker-driven range check, the summary column filter, and the detection-report token check (`output_check.dfy`).
- **Shared pieces.** `seqs.dfy` holds generic sequence functions (map, filter, sums, zip) with their permutation lemmas. `config.dfy` holds the configuration as an immutable record with the shipped defaults. `wrappers.dfy` holds `Option`.

How the model represents the program:
- Floating-point numbers are `real`.
- `sqrt`, `exp`, `cos`, `arccos`, `arctan2`, fractional powers, the complex exponential and scipy's `sph_harm` are opaque functions. They are collected in a `Transcendentals` record passed as a parameter. `SignFacts` is the only thing assumed about them: exp > 0, sqrt ≥ 0, sqrt(x)² = x for x ≥ 0, and sqrt(0) = 0.
- NaN appears only where the program tests for it. In global Q6 a value is an `Option<real>`, with `None` standing for NaN. In the validator a parsed cell is a `FloatValue`: a finite number, NaN or an infinity.
- Text-to-number conversion (`int()`, `float()`) is a parameter returning `Option`. `None` stands for the conversion raising.
- The zero-denominator patch of the switching function applies only to a denominator that is exactly 0. That is what the code does (`den[den == 0] = 1e-8`), and the model follows it.

## Model

| member | source | states |
|---|---|---|
| MathUtils.VectorSub | modules/math_utils.py:20-23 | adding the result back to the subtrahend gives the minuend, and the difference is the zero vector exactly when the two vectors are equal |
| MathUtils.VectorSubSelf | modules/math_utils.py:20-23 | a vector minus itself is the zero vector |
| MathUtils.SquaredNormNonNegative | modules/math_utils.py:26-29 | the sum of squared components is never negative |
| MathUtils.VectorNorm | modules/math_utils.py:26-29 | the norm is ≥ 0, its square is the sum of squared components, and it is 0 for the zero vector |
| MathUtils.Mean | modules/math_utils.py:32-38 | 0.0 for an empty list; otherwise mean × length equals the sum |
| MathUtils.MeanBounds | modules/math_utils.py:32-38 | a non-empty mean lies between any lower and upper bound of the values |
| MathUtils.MeanNonNegative | modules/math_utils.py:32-38 | the mean of non-negative values is non-negative |
| MathUtils.MeanPermutation | modules/math_utils.py:32-38 | the mean does not depend on the order of the values |
| MathUtils.Clip | modules/math_utils.py:41-48 | when min ≤ max the result is in [min, max]; an input already inside is returned unchanged; the result is the input or one of the bounds |
| MathUtils.ClipIdempotent | modules/math_utils.py:41-48 | clipping twice equals clipping once |
| MathUtils.DoubleFact | modules/math_utils.py:91-99 | n!! is at least 1 for every n (1 for n ≤ 0, n·(n−2)!! above) |
| MathUtils.DoubleFactorial | modules/math_utils.py:91-99 | the descending multiply-by-two loop computes exactly n!! |
| MathUtils.LegendreP | modules/math_utils.py:77-81 | the recursive three-term recurrence; seeded with P_0 = 1 it gives P_l(1) = 1 for every l |
| MathUtils.LegendreByLoop | modules/math_utils.py:67-81 | the loop rolling the two previous values, including the l = \|m\| and l = \|m\|+1 shortcuts, equals the recursive recurrence |
| MathUtils.Ylm | modules/math_utils.py:59-60 | the harmonic is 0 whenever \|m\| > l |
| MathUtils.SphericalHarmonic | modules/math_utils.py:51-88 | the method equals the specification: \|m\|-Legendre value, for m < 0 scaled by (−1)^\|m\|(l−\|m\|)!/(l+\|m\|)!, times the \|m\| normalisation and the phase |
| Coordination.Denominator | modules/coordination_module.py:32-34 | the patched denominator is never 0 and equals the raw one whenever that is nonzero |
| Coordination.SwitchValue | modules/coordination_module.py:30-37 | the switch is ≥ 0, is 0 beyond Dmax, and otherwise equals the quotient when that is non-negative (else 0) |
| Coordination.PlumedSwitch | modules/coordination_module.py:24-39 | the in-place array passes produce, element by element, the switch value of each distance |
| Coordination.RatioPowers | modules/coordination_module.py:30-32 | two fresh arrays hold, at every index, 1 - x^NN and 1 - x^MM for x = (r - D0)/R0 |
| Coordination.PatchZeroDenominators | modules/coordination_module.py:34 | every denominator that is exactly zero becomes 1e-8; every other one is kept |
| Coordination.Divide | modules/coordination_module.py:35 | a fresh array holds numerator over patched denominator at every index |
| Coordination.CapBeyondDmax | modules/coordination_module.py:36 | every value whose distance exceeds Dmax becomes 0; the others are kept |
| Coordination.ClampAtZero | modules/coordination_module.py:37 | every negative value becomes 0, leaving at every index the switch value of its distance |
| Coordination.SwitchAtD0 | modules/coordination_module.py:30-35 | with NN, MM > 0 and D0 ≤ Dmax the switch is exactly 1 at distance D0 |
| Coordination.SwitchAtUnitRatio | modules/coordination_module.py:30-35 | when (r−D0)/R0 = 1 the raw denominator is 0, is patched to 1e-8, and the switch is 0 |
| Coordination.SwitchAtMostOne | modules/coordination_module.py:30-37 | with MM = 2·NN and NN even (the shipped 6/12) the switch never exceeds 1 |
| Coordination.CnSmooth | modules/coordination_module.py:42-55 | the smooth coordination number is ≥ 0 and 0 for an empty list |
| Coordination.CnSmoothSnoc | modules/coordination_module.py:46-55 | adding a distance adds exactly its switch value |
| Coordination.CnSmoothPermutation | modules/coordination_module.py:42-55 | the coordination number does not depend on the order of the distances |
| Coordination.CnSmoothAtMostCount | modules/coordination_module.py:42-55 | with the 6/12 shape the coordination number is at most the number of distances |
| Coordination.DefaultSwitchShape | modules/config.py:29-33 | every shipped switch has R0 ≠ 0, MM = 2·NN and NN even |
| Coordination.Distances | modules/coordination_module.py:76 | one non-negative Euclidean distance per position, in order |
| Coordination.WithoutSelf | modules/coordination_module.py:77 | the self filter keeps exactly the distances strictly above 0.1: each kept distance is one of the inputs and above 0.1, each input above 0.1 is kept, and a distance that occurs several times is kept as many times |
| Coordination.Below | modules/coordination_module.py:82 | the averaging filter keeps exactly the distances strictly below the cutoff, in both directions, each with the number of times it occurs |
| Coordination.SelfDistanceIsZero | modules/coordination_module.py:76-77 | the centre's distance to itself is 0, so the self filter removes it |
| Coordination.DistancesPermutation | modules/coordination_module.py:76 | permuting the positions permutes the distances |
| Coordination.CalcBondSpecificCnSmooth | modules/coordination_module.py:58-125 | total = same-species + mixed, both ≥ 0; for Pt and Sn centres each field is the smooth sum or the mean of distances below 1.5×rcut, only the same-species list is self-filtered, and the mixed bond uses the Pt–Sn parameters; any other element gives all zeros |
| Coordination.PtCentreCn | modules/coordination_module.py:73-97 | for a Pt centre: the Pt–Pt fields come from the self-filtered Pt distances, the Pt–Sn fields from the Sn distances, the total is their sum and both counts are ≥ 0 |
| Coordination.SnCentreCn | modules/coordination_module.py:99-123 | for a Sn centre: the Sn–Sn fields come from the self-filtered Sn distances, the Pt–Sn fields from the Pt distances, the total is their sum and both counts are ≥ 0 |
| Coordination.AverageDistanceBounds | modules/coordination_module.py:81-84 | the average distance is ≥ 0 and, when some distance qualifies, below the cutoff |
| Coordination.ExpTerm | modules/coordination_module.py:150-151 | each exponential weight is ≥ 0 and is 0 beyond the cutoff |
| Coordination.StandardGcn | modules/coordination_module.py:147-152 | the standard GCN is ≥ 0 |
| Coordination.CalcGcnDescriptors | modules/coordination_module.py:128-185 | disabled gives four zeros; otherwise the four fields are the standard, weighted, window and shell scores over the self-filtered Pt distances and the unfiltered Sn distances, and the shell loop accumulates the shells in order |
| Coordination.StandardGcnIgnoresBeyondCutoff | modules/coordination_module.py:150-152 | a distance beyond the cutoff does not change the standard GCN |
| Coordination.PtSelfExcluded | modules/coordination_module.py:143-145 | a Pt atom at the centre adds nothing to the Pt distances used by GCN |
| Coordination.SnSelfCounted | modules/coordination_module.py:143-152 | an Sn atom at the centre is not filtered and contributes exp(0) > 0 to the standard GCN |
| Coordination.SharedShellBoundary | modules/coordination_module.py:172-178 | with the shipped shells a Pt distance of 2.5 counts in two shells, 1.0 + 0.8 = 1.8 |
| Coordination.SnWindowInclusive | modules/coordination_module.py:163-169 | both window ends count: distances at r_min and r_max each score one weight |
| Coordination.WeightedGcn | modules/coordination_module.py:155-160 | with non-negative species weights the weighted GCN is ≥ 0 |
| Coordination.WindowScore | modules/coordination_module.py:163-169 | with non-negative weights the window score lies between 0 and the score it would have if every Pt and Sn distance were inside the window |
| Coordination.ScoreMonotone | modules/coordination_module.py:163-169 | with non-negative weights the score grows with the number of Pt and Sn distances counted |
| Coordination.ShellGcn | modules/coordination_module.py:172-178 | with non-negative shell weights the shell GCN is ≥ 0 |
| Coordination.ShellGcnStep | modules/coordination_module.py:172-178 | each further shell adds exactly its window score to the running shell GCN |
| Coordination.WindowScorePermutation | modules/coordination_module.py:164-169 | the window score does not depend on the order of the distances |
| Coordination.ShellGcnPermutation | modules/coordination_module.py:172-178 | the shell score does not depend on the order of the distances |
| Coordination.GcnPermutation | modules/coordination_module.py:142-178 | all four GCN scores are unchanged when the Pt and the Sn positions are permuted |
| LocalQ.Candidates | modules/q6_module.py:26-30 | without the metal filter the candidates are all positions; with it, they are the positions picked by the Pt/Sn mask, in atom order (`Select`), one per Pt or Sn atom; every such position is a candidate and every candidate is one |
| LocalQ.MetalCandidatesSelected | modules/q6_module.py:27-28 | masking the positions with the Pt/Sn flags selects them in order, and their number is the number of Pt or Sn atoms |
| LocalQ.MetalCandidatesMembers | modules/q6_module.py:27-28 | each Pt or Sn atom's position is among the masked positions, and each masked position belongs to a Pt or Sn atom |
| LocalQ.ValidNeighbours | modules/q6_module.py:39-41 | the kept vectors are exactly the displacements with 0.1 < \|v\| < cutoff, in both directions; a displacement that occurs several times is kept as many times |
| LocalQ.MeanComplex | modules/q6_module.py:55 | the real part is the mean of the real parts and the imaginary part the mean of the imaginary parts; both are 0 for no values |
| LocalQ.NormSquared | modules/q6_module.py:58 | \|z\|² is never negative |
| LocalQ.QlOf | modules/q6_module.py:58 | sqrt(4π/(2l+1)·Σ\|q_lm\|²) is ≥ 0 |
| LocalQ.AssembleQlm | modules/q6_module.py:52-55 | the slot-by-slot loop over m fills exactly the specified q_lm vector |
| LocalQ.FillOrders | modules/q6_module.py:52-55 | the loop over m = -l..l leaves 2l+1 slots with the entry for order m in slot m+l |
| LocalQ.CalcQLocal | modules/q6_module.py:22-60 | the method equals the specification of local Ql and is ≥ 0 |
| LocalQ.QLocal | modules/q6_module.py:22-60 | the specification of local Ql (candidates, displacements, valid neighbours, the sentinel below four neighbours, q_lm and the norm) is never negative |
| LocalQ.QLocalSentinel | modules/q6_module.py:32-44 | both sentinels: no candidates gives 0.0, and fewer than four valid neighbours gives 0.0 |
| LocalQ.NonMetalIgnored | modules/q6_module.py:26-28 | with the metal filter, adding a non-Pt/Sn atom leaves Ql unchanged |
| LocalQ.MeanComplexPermutation | modules/q6_module.py:55 | the complex mean does not depend on order |
| LocalQ.QlPermutation | modules/q6_module.py:52-55 | permuting the neighbours leaves the whole q_lm vector (2l+1 slots, slot m+l the mean of Y_l^m over the neighbours) unchanged |
| LocalQ.SeparatedPermutation | modules/q6_module.py:39-41 | every neighbour of a permuted list is still strictly farther than 0.1, so the harmonics stay defined |
| LocalQ.SlotPermutation | modules/q6_module.py:54-55 | each single q_lm slot is unchanged when the neighbours are permuted |
| LocalQ.HarmonicMapPermutation | modules/q6_module.py:54-55 | permuting the neighbours leaves each q_lm entry unchanged |
| LocalQ.QLocalPermutation | modules/q6_module.py:36-58 | Ql is unchanged when the atoms (with their elements) are listed in another order |
| LocalQ.CalcQ6Fast | modules/q6_module.py:63-70 | Q6 is local Ql with l = 6, metal_only = not include_oxygen_in_local, and the cutoff given or, when absent, the configured q6 cutoff |
| LocalQ.CalcQ4Fast | modules/q6_module.py:73-80 | Q4 is local Ql with l = 4, the same cutoff default (the q6 cutoff) and metal filter |
| LocalQ.ClassifyStructure | modules/q6_module.py:83-106 | each of the seven labels holds exactly on its (Q4, Q6) region, in both directions |
| LocalQ.ClassifierIgnoresQ4 | modules/q6_module.py:101-106 | for Q6 ≤ 0.50 the label does not depend on Q4 |
| LocalQ.ClassifierExamples | modules/q6_module.py:83-106 | (0.2, 0.65) is FCC-like, (0.05, 0.55) BCC-like, (0.1, 0.20) Disordered |
| LocalQ.LabelInjective | modules/q6_module.py:83-106 | the seven labels are distinct strings |
| Seqs.SelectedIndices | modules/global_q6_module.py:12 | exactly the indices whose flag is set, each in range, strictly increasing (so without repetition) |
| Seqs.SelectedCount | modules/global_q6_module.py:53-58 | the number of selected indices equals the number of set flags |
| Seqs.Select | modules/q6_module.py:28 | boolean-mask indexing: one entry per selected index, the k-th being the entry at the k-th selected index |
| Seqs.FilterZipSelects | modules/q6_module.py:27-28 | keeping the pairs whose second part passes a test and projecting on the first part is mask indexing by that test |
| Seqs.FilterMultiset | modules/coordination_module.py:77 | a filter keeps every occurrence of a passing value and no occurrence of a failing one |
| GlobalQ6.AllSelected | modules/global_q6_module.py:44 | the all-true mask selects every index |
| GlobalQ6.Numbers | modules/global_q6_module.py:16-20 | the kept values are exactly the non-NaN ones, each number as many times as it occurs among the inputs |
| GlobalQ6.NanSkippingMean | modules/global_q6_module.py:19-23 | 0.0 when no value is a number; otherwise mean × (number of non-NaN values) equals their sum |
| GlobalQ6.NanSkipped | modules/global_q6_module.py:19-20 | a NaN value does not change the average |
| GlobalQ6.ZeroAveragedIn | modules/global_q6_module.py:19-23 | a 0.0 sentinel is kept and, with a positive sum, strictly lowers the average |
| GlobalQ6.NumbersNonNegative | modules/global_q6_module.py:16-23 | if every non-NaN value is ≥ 0, so is the average |
| GlobalQ6.MaskValues | modules/global_q6_module.py:17-18 | one value per set flag (as many as set flags), the k-th being the Q6 of the k-th selected atom against the full position and element lists |
| GlobalQ6.MaskAverage | modules/global_q6_module.py:11-23 | 0.0 when the mask selects nothing; always ≥ 0 |
| GlobalQ6.AverageQ6ForMask | modules/global_q6_module.py:11-23 | the appending loop computes exactly the NaN-skipping average of the selected atoms' Q6 |
| GlobalQ6.CollectQ6 | modules/global_q6_module.py:16-20 | the loop keeps exactly the non-NaN Q6 values of the selected atoms, in index order |
| GlobalQ6.SelectedQ6 | modules/global_q6_module.py:17 | the Q6 computed for the k-th selected atom is the k-th entry of the specified per-atom values |
| GlobalQ6.MetalMask | modules/global_q6_module.py:42-43 | one flag per atom, set exactly for a configured metal, so the number of set flags is the number of metal atoms |
| GlobalQ6.CalcClusterAnalysis | modules/global_q6_module.py:26-68 | empty input gives zero groups and no metal record; otherwise each group holds its count and mask average, the Pt, Sn and metal counts are the numbers of atoms with that symbol or a metal symbol, and the metal record is present exactly when some element is a configured metal; all averages are ≥ 0 |
| GlobalQ6.ClusterAnalysisOnArrays | modules/global_q6_module.py:32-39 | as the driver calls it on arrays, no analysis comes back for a non-empty frame; with NumPy before 2.2 an empty frame gives the empty analysis |
| GlobalQ6.OneAtomFrameGetsNoAnalysis | modules/global_q6_module.py:32 | a one-atom Pt frame passed as an array gets no analysis |
| GlobalQ6.ClusterCountsEveryAtom | modules/global_q6_module.py:44-49 | the cluster group selects every atom |
| GlobalQ6.SymbolCount | modules/global_q6_module.py:53-58 | the Pt/Sn selections are exactly the atoms whose symbol matches, and their number is the number of such atoms |
| Geometry.FlaggedDistances | modules/geometry_module.py:14 | the kept distances are exactly the flagged ones: each is the radial distance of a flagged atom, and every flagged atom's distance is kept; for a mask as long as the distances they are the distances at the selected indices, in order |
| Geometry.FlaggedSelects | modules/geometry_module.py:14 | the flagged distances of a mask as long as the distances are mask indexing (`Select`) |
| Geometry.AverageDistance | modules/geometry_module.py:11-15 | 0.0 for no distances, no set flag or nothing flagged; otherwise average × (number of flagged distances) equals their sum |
| Geometry.AverageDistanceNonNegative | modules/geometry_module.py:11-15 | non-negative distances give a non-negative average |
| Geometry.RadialDistances | modules/geometry_module.py:31 | one non-negative norm per displacement |
| MathUtils.DisplacementsFrom | modules/geometry_module.py:30 | one displacement per atom; adding the centre back gives the atom's position, and the displacement is zero exactly for an atom at the centre |
| Seqs.ElementMask | modules/geometry_module.py:33-34 | one flag per atom, set exactly on an exact symbol match, so the number of set flags is the number of atoms with that symbol |
| Geometry.GyrationRadius | modules/geometry_module.py:36-37 | the gyration radius is ≥ 0 |
| Geometry.CalcGeometryStatistics | modules/geometry_module.py:18-43 | empty positions or elements give three zeros; all three descriptors are ≥ 0 |
| Geometry.Center | modules/geometry_module.py:29 | n times each centroid coordinate is the sum of that coordinate over the atoms |
| Geometry.MeanSquare | modules/geometry_module.py:36 | the mean squared displacement is ≥ 0 and n times it is the sum of the squared displacements from the centroid |
| Geometry.GeometryStatisticsOnArrays | modules/geometry_module.py:21-26 | as the driver calls it on arrays, no statistics come back for a non-empty frame; with NumPy before 2.2 an empty frame gives three zeros |
| Geometry.GeometryOnArraysDropsEveryFrame | modules/geometry_module.py:21 | for every frame with an atom, the driver's call does not produce the frame's statistics |
| Geometry.DisplacementAxisSum | modules/geometry_module.py:29-30 | along one axis, the displacements sum to the coordinate sum minus n times the centre |
| Geometry.DisplacementsBalance | modules/geometry_module.py:28-30 | the displacements from the centroid sum to the zero vector |
| Geometry.SingleAtomGyration | modules/geometry_module.py:36-37 | a single atom has gyration radius 0 |
| Geometry.CenterPermutation | modules/geometry_module.py:29 | the centroid does not depend on atom order |
| Geometry.AverageDistancePermutation | modules/geometry_module.py:31-34 | the per-species average does not depend on the order of the (position, element) atoms |
| Geometry.FlaggedPermutation | modules/geometry_module.py:31-34 | reordering the (position, element) atoms permutes the flagged distances |
| Geometry.MaskPermutation | modules/geometry_module.py:31-34 | reordering the atoms keeps the number of distances and whether any atom has the symbol |
| Geometry.MeanSquarePermutation | modules/geometry_module.py:36 | the mean squared displacement does not depend on atom order |
| Geometry.GeometryPermutation | modules/geometry_module.py:28-43 | all three descriptors are unchanged when atoms and their elements are permuted together |
| Trajectory.ReaderStep | v6_2_3_main_Version2.py:43-70 | one reader step at line i: a non-integer line moves to i+1 exactly; a frame read always ends at or before the last line |
| Trajectory.MinusTwoStandsStill | v6_2_3_main_Version2.py:43-70 | at a header of −2 the reader step reads an empty frame and returns to the same line, so no walk through that header advances |
| Trajectory.HeadersAdvanceSuffices | v6_2_3_main_Version2.py:43-70 | if no integer line anywhere is below −1, the reader's walk from any line advances |
| Trajectory.CommentMayBeAnyInteger | v6_2_3_main_Version2.py:43-70 | a file whose comment line is −3 is read as one Pt frame: the walk never visits the comment |
| Trajectory.ParseAtoms | v6_2_3_main_Version2.py:56-68 | a frame has as many elements as positions, at most one per atom line |
| Trajectory.ShortLineDropped | v6_2_3_main_Version2.py:60-63 | a line with fewer than four fields adds nothing to the frame |
| Trajectory.ParseFrom | v6_2_3_main_Version2.py:42-72 | in every frame read, elements and positions have equal length; defined for every file whose reader walk advances |
| Trajectory.NonHeaderSkipped | v6_2_3_main_Version2.py:44-48 | a line that is not an integer is skipped by advancing exactly one line |
| Trajectory.TruncatedFrameDropped | v6_2_3_main_Version2.py:50-51 | a header whose frame would pass the last line ends reading with no partial frame |
| Trajectory.FrameConsumed | v6_2_3_main_Version2.py:53-70 | a complete frame comes from the n lines after the comment, and reading resumes n + 2 lines after the header |
| Trajectory.NonPositiveHeaderEmptyFrame | v6_2_3_main_Version2.py:50-70 | a header of 0 or −1 with room after it yields an empty frame |
| Trajectory.ParseFailurePropagates | v6_2_3_main_Version2.py:59-63 | a coordinate that fails to convert fails the whole read |
| Trajectory.ReadAtoms | v6_2_3_main_Version2.py:56-63 | the atom loop builds exactly the specified frame, or fails as it does |
| Trajectory.ReadXyz | v6_2_3_main_Version2.py:35-72 | for every file whose reader walk advances, the index-walking loop, taking the same step as the specification at each line, returns exactly the frames of the reader's specification |
| Trajectory.AllElementsMembership | v6_2_3_main_Version2.py:77-79 | a symbol is in the collected set exactly when some frame contains it |
| Trajectory.DetectElements | v6_2_3_main_Version2.py:75-89 | detected holds exactly the targets present in some frame, in target order; counts are keyed by the detected targets and count them in the first frame only, and are empty without frames |
| Trajectory.AddAll | v6_2_3_main_Version2.py:141-165 | adding names to the key list keeps the existing ones in place and yields exactly the old names and the new ones |
| Trajectory.ColumnsFor | v6_2_3_main_Version2.py:141-165 | the key list always starts with frame and time_ps |
| Trajectory.ElementColumns | v6_2_3_main_Version2.py:147-165 | an element has 5 columns, one more for Pt or Sn (the mixed bond) and four more with GCN enabled, and every column name begins with the element symbol |
| Trajectory.ColumnNames | v6_2_3_main_Version2.py:141-165 | the time-series keys start with frame and time_ps |
| Trajectory.ColumnsForCover | v6_2_3_main_Version2.py:141-165 | any column that any target contributes is a key, whatever the per-target column function |
| Trajectory.ColumnsForOnly | v6_2_3_main_Version2.py:141-165 | every key is frame, time_ps or a column of some target |
| Trajectory.ColumnsForDistinct | v6_2_3_main_Version2.py:141-165 | no key appears twice |
| Trajectory.ColumnNamesCover | v6_2_3_main_Version2.py:141-165 | every column of every target element is a time-series column |
| Trajectory.ColumnNamesOnly | v6_2_3_main_Version2.py:141-165 | there is no column besides frame, time_ps and the targets' columns |
| Trajectory.ColumnNamesDistinct | v6_2_3_main_Version2.py:141-165 | column names are distinct, as dictionary keys are |
| Trajectory.FrameStamp | v6_2_3_main_Version2.py:227-230 | the stamp has exactly the keys frame and time_ps, frame = frame_idx·sample_interval, and time_ps is frame times dt_ps |
| Trajectory.TimeSeries.constructor | v6_2_3_main_Version2.py:141-165 | the series starts with the column names in insertion order, every column empty |
| Trajectory.TimeSeries.AppendFrame | v6_2_3_main_Version2.py:303-309 | every column gains exactly one cell, the frame's value or NaN if absent, so all columns stay as long as the number of frames |
| OutputCheck.ColumnStats.constructor | check_output_data.py:35-43 | a new column has no counts and no minimum or maximum |
| OutputCheck.ColumnStats.Register | check_output_data.py:45-65 | an absent or empty cell increments only missing; unparsable, NaN or infinite text increments only nan; a finite value increments count, is summed and widens min/max; count + missing + nan equals the calls and min ≤ max are kept |
| OutputCheck.ColumnStats.RecordFinite | check_output_data.py:60-65 | a finite value is counted, summed and widens the minimum and maximum, keeping min ≤ every value ≤ max |
| OutputCheck.ColumnStats.Mean | check_output_data.py:67-71 | None exactly when count is 0; otherwise sum/count, lying between min and max |
| OutputCheck.ColumnStats.Completeness | check_output_data.py:73-76 | 0.0 for no rows; otherwise (total − missing)/total, in [0, 1]; nan cells count as complete |
| OutputCheck.ContainsFound | check_output_data.py:113 | a contained marker occurs at some position of the name |
| OutputCheck.ContainsAt | check_output_data.py:113 | a marker occurring at some position is contained in the name |
| OutputCheck.FirstMarker | check_output_data.py:82-91 | the chosen range is the first in table order whose marker the name contains |
| OutputCheck.ColumnIssuesCharacterised | check_output_data.py:107-123 | a column with no values or no marker gets no issue; otherwise at most two, one exactly when min < lower and one exactly when max > a finite upper bound |
| OutputCheck.FirstMarkerWins | check_output_data.py:112-122 | a coordination column is checked against the coordination range even if a later marker also matches |
| OutputCheck.CheckRanges | check_output_data.py:107-123 | the nested loops emit exactly the specified issues, column by column |
| OutputCheck.CheckColumn | check_output_data.py:110-122 | an empty column yields no issue; otherwise only the first matching marker's bounds are checked, giving exactly the specified issues |
| OutputCheck.ImportantColumns | check_output_data.py:126-131 | exactly the columns whose name contains _cn_, _q6, _q4 or gcn are kept |
| OutputCheck.CheckDetectionInfo | check_output_data.py:143-155 | an unreadable report gives one issue; otherwise one issue per required token absent from the text |

## Left out

- File and console I/O, CSV writing, argument parsing and `main()` of both scripts. `collect_csv_stats`, `Reporter` and the file-existence logic of `check_directory` are not part of this model, and neither is the pandas-based validation script.
- Numeric values of the transcendental functions, scipy's `sph_harm` and `complex64` rounding. They are opaque, so no reference Q4/Q6 number is proved. Floating-point rounding, overflow and the propagation of NaN/inf through arithmetic are not modelled.
- A zero `R0` or `r0` gives a division by zero in the program (inf/NaN under numpy). The model requires these parameters to be nonzero; the shipped configuration satisfies this.
- MathUtils.SphericalHarmonic: the Condon–Shortley relation between the m and −m harmonics is not stated.
- Trajectory.ReadXyz: requires that the reader's walk advances: every frame header it visits must move the index forward, which holds for any header of −1 or more (`Advances`). Comment and atom lines may hold any integer. A header of −2 makes the reader loop forever (`MinusTwoStandsStill`). A header below −2 sends the reader back, after which it may loop forever, stop at an earlier header's truncation check (the lines `1`, `100`, `Pt 0 0 0`, `-4` give two frames: the header 100 is revisited and ends the read), or walk to negative indices, where `lines[i]` counts from the end and an out-of-range index is swallowed by the bare `except` at v6_2_3_main_Version2.py:46. Such files are not modelled.
- Trajectory.TimeSeries.AppendFrame: the program's second branch, for a missing frame or time_ps key, is not modelled, because every frame record carries both stamps. Per-element accumulation of the frame values before they are appended is not modelled either.
- LocalQ.Candidates: with the metal filter the model requires positions and elements of equal length. calc_q_local's `elements == 'Pt'` compares elementwise only on numpy arrays; on the plain lists that global Q6 passes it is a single comparison. The model filters elementwise.
- GlobalQ6.CalcClusterAnalysis: models the evident intent of the function on non-empty frames, as the Findings section explains. It requires equal lengths once both lists are non-empty. On plain lists, calc_q_local's mask `(elements == 'Pt') | (elements == 'Sn')` is the single value False rather than a per-atom mask, and `positions[False]` picks the first position. The subtraction at modules/q6_module.py:36 then raises (a list minus a list), or, for a list of 1-D arrays, the norm along axis 1 at modules/q6_module.py:37 does, so the function fails on every non-empty frame given as lists too. The model's per-atom mask follows the array behaviour the mask is written for.
- MathUtils.NotArray: follows NumPy before 2.2, where an empty array is falsy. From NumPy 2.2 on, `not` of an empty array raises as well, so the array-path members would give no result for the empty frame either; the program pins no NumPy version.
- Geometry.CalcGeometryStatistics: models the evident intent of the function on non-empty frames, as the Findings section explains.
- Runtime mutation of the configuration by the driver is not modelled. The configuration is an immutable parameter.
- The unused `box` parameters and the progress printing are left out.
- OutputCheck.CheckDetectionInfo and OutputCheck.CheckRanges return structured issues instead of the formatted Chinese messages. The summary's text formatting (percentages, "—") is not modelled.

## Findings

| source | as written | input that shows it | evidently intended | confidence | as-written member | corrected member |
|---|---|---|---|---|---|---|
| modules/global_q6_module.py:32 | `if not positions or not elements:` is applied to the (n, 3) float array that v6_2_3_main_Version2.py:203 passes. For every non-empty frame, `not` of that array raises, and the `except` at v6_2_3_main_Version2.py:211 drops the frame from the global-Q6 series. Given plain lists instead, the function still fails on every non-empty frame, at modules/q6_module.py:36. | a frame with one Pt atom at (0, 0, 0) | return the empty analysis only for an empty frame, and analyse every other frame | high; not executed | GlobalQ6.ClusterAnalysisOnArrays, GlobalQ6.OneAtomFrameGetsNoAnalysis | GlobalQ6.CalcClusterAnalysis |
| modules/geometry_module.py:21 | the same guard on the same array: for every non-empty frame it raises, and the bare `except` at v6_2_3_main_Version2.py:223 leaves the geometry series empty | a frame with one Pt atom at (0, 0, 0) | return zeros only for an empty frame, and compute the three descriptors otherwise | high; not executed | Geometry.GeometryStatisticsOnArrays, Geometry.GeometryOnArraysDropsEveryFrame | Geometry.CalcGeometryStatistics |
