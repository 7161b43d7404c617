# Passive-location simulator, modelled in Dafny

The system is a desktop simulator of passive emitter location (GTK user
interface, MySQL storage, a Cesium globe in a web view). The user keeps a
catalogue of **reconnaissance devices** (fixed or moving receivers with a
frequency band, azimuth and elevation sectors, baseline, noise density and
sample rate) and of **radiation sources** (emitters with power, frequency,
position and motion). A simulation picks one source and one device (single
platform: interferometer or single-platform TDOA) or several devices (multi
platform: time difference of arrival, frequency difference of arrival,
direction finding). Before anything runs, validators check that every
device can hear the source: frequency inside the band, bearing inside the
sectors, signal-to-noise ratio above the threshold. The location algorithms
then estimate the emitter's position and an error budget; error circles
(circular error probable) and TDOA hyperbolas are derived for display, and
trajectories of moving platforms are simulated and animated on the map.

The model has one module per core source file:

- `Common`, `Vector3`, `Linear3`, `Decimal`: shared vocabulary. This is an
  `Option`/`Result`, the triple `Coord3`, the physical constants, 3-vectors,
  and a 3x3 linear solve. The C++ library maths (`sqrt`, `atan2`,
  trigonometry, geodetic conversions) comes in as a `Math` value together
  with the laws the proofs use.
- `ReconnaissanceDeviceModel`, `RadiationSourceModel`, `DataProcessor`: the
  entities. Each one is a record value plus a class with setters. The
  database tables are passed in as sequences of rows.
- `FrequencyValidator`, `AngleValidator`, `SnrValidator`,
  `SimulationValidator`: the checks made before a simulation. Each one gives
  the first failure found, in the order the source checks.
- `TdoaSolver`: the linear algebra, Chan's estimate and the Taylor
  refinement of the TDOA algorithm.
- `TdoaAlgorithm`, `FdoaAlgorithm`, `DirectionFinding`,
  `DirectionFindingAlgorithm`, `InterferometerPositioning`,
  `SinglePlatformTdoa`: the location algorithms, with their error
  budgets.
- `ErrorCircle`, `TdoaErrorCircle`, `HyperbolaLines`: the error circles and
  the hyperbola lines.
- `TrajectorySimulator`: platform motion, and the scripts that animate it.
- `MapView`, `ComboBox`, `SinglePlatformView`, `MultiPlatformView`,
  `ReconnaissanceDeviceModelView`: the view logic. Each view is a class
  whose fields are the widget state the source changes. GTK and Cesium
  appear only as the values they show or receive.

Arithmetic is on exact reals. A double is treated as the real number it
approximates. A `/` that the source may apply to zero goes through
`Math.div`, which is exact only for a nonzero divisor.

## Model

| member | source | states |
|---|---|---|
| AngleValidator.InRangeOrdinary | utils/AngleValidator.cpp:42-50 | when the minimum does not exceed the maximum, an angle is in range exactly when it lies in the closed interval |
| AngleValidator.InRangeWrapped | utils/AngleValidator.cpp:42-50 | a range whose minimum exceeds its maximum crosses 0 degrees: it accepts every angle outside the open gap (max, min), which for angles in [0, 360] is the union of [min, 360] and [0, max] |
| AngleValidator.AzimuthElevation | utils/AngleValidator.cpp:15-39 | the azimuth from one point to another is normalised into [0, 360) and the elevation lies in [-90, 90] |
| AngleValidator.CanReceiveSignal | utils/AngleValidator.cpp:53-82 | a signal is received exactly when the receiver's azimuth and elevation ranges cover the emitter and the emitter's ranges cover the receiver |
| AngleValidator.CheckMeansReceives | utils/AngleValidator.cpp:106-164 | the per-device step reports no failure exactly when the device hears the source and the source's sector covers the device |
| AngleValidator.ValidateAngle | utils/AngleValidator.cpp:85-169 | the devices are looked up by id and checked in order; the reported failure is the first failing device's, and the result is true exactly when none fails |
| AngleValidator.ValidateAngleMeaning | utils/AngleValidator.cpp:85-169 | validation passes exactly when every looked-up device and the source see each other; a failure names the first device for which this does not hold, all earlier devices having passed |
| ComboBox.ComboBoxText.constructor | views/src/MultiPlatformView.cpp:48 | a new combo box has no rows and no active row |
| ComboBox.ComboBoxText.ActiveText | views/src/SinglePlatformView.cpp:278-279 | the active text is present exactly when a row is active, and is that row's text |
| ComboBox.ComboBoxText.RemoveAll | views/src/SinglePlatformView.cpp:343 | removing all rows leaves no rows and none active |
| ComboBox.ComboBoxText.AppendText | views/src/SinglePlatformView.cpp:357 | appending adds the text as the last row and keeps the active row |
| ComboBox.ComboBoxText.SetActive | views/src/SinglePlatformView.cpp:361 | selecting an index makes that row active when it exists, and leaves no row active otherwise |
| ComboBox.FilteredMembers | views/src/SinglePlatformView.cpp:354-358 | a label is listed exactly when some kept element carries it |
| ComboBox.FilteredExtremes | views/src/SinglePlatformView.cpp:354-358 | when every element is kept all labels are listed in order, and when none is the list is empty |
| Common.FirstLabelled | views/src/SinglePlatformView.cpp:412-418 | the result is the first element carrying the label, and is absent exactly when no element carries it |
| ComboBox.SelectedIndex | views/src/SinglePlatformView.cpp:409-418 | a selection names an element carrying the selected text, and one is found whenever some element carries it |
| ComboBox.IndexOfLabel | views/src/SinglePlatformView.cpp:412-418 | the search loop finds the first element whose name is the label |
| ComboBox.AppendFiltered | views/src/SinglePlatformView.cpp:354-358 | the append loop adds exactly the kept elements' labels, in order, after the existing rows |
| Common.DistanceLaws | models/src/TDOAalgorithm.cpp:115-119 | the distance between two points is non-negative and symmetric |
| Common.FirstFailureMeaning | utils/AngleValidator.cpp:106-168 | a validation loop reports no failure exactly when every element passes, and a reported failure is that of an element all of whose predecessors pass |
| Common.FirstFailureStep | utils/AngleValidator.cpp:106-165 | one more iteration of such a loop: a failing element ends it with its own failure, a passing one extends the passing prefix |
| DataProcessor.TargetIntelligence.FromValue | include/data_processor.h:9-16 | a target object built from a target value holds exactly that value |
| DataProcessor.InsertByTimeCorrect | src/data_processor.cpp:63-66 | inserting a point into a time-ordered list keeps it ordered by time and adds exactly that point |
| DataProcessor.InsertKeepsLowerBound | src/data_processor.cpp:63-66 | insertion keeps a lower bound that holds for every time and for the inserted point |
| DataProcessor.SortByTimeCorrect | src/data_processor.cpp:63-66 | the sort yields the same points in ascending time order |
| DataProcessor.KeepNearMeaning | src/data_processor.cpp:89-98 | exactly the points within the threshold distance of the reference survive, none is duplicated, and they keep their order |
| DataProcessor.MaxErrorMeaning | src/data_processor.cpp:106-115 | the largest distance is at least 0 and at least every point's distance, and is 0 or one of those distances |
| DataProcessor.SumTimeBounds | src/data_processor.cpp:107-116 | a sum of times that all lie in [lo, hi] lies between count times lo and count times hi |
| DataProcessor.AverageTimeBounds | src/data_processor.cpp:119 | the mean time of a non-empty target lies between the smallest and largest bound of its times |
| DataProcessor.MeanTimesCount | src/data_processor.cpp:136 | re-weighting a target's mean by its point count gives back its total, 0 for an empty target |
| DataProcessor.MaxErrorAllBound | src/data_processor.cpp:129-135 | the multi-target largest distance is non-negative and bounds every point of every target |
| DataProcessor.DataProcessor.constructor | src/data_processor.cpp:13-14 | a new processor holds no reference points |
| DataProcessor.DataProcessor.LoadReferenceData | src/data_processor.cpp:25-35 | the file is not read; the three fixed points are stored under their names and the call succeeds |
| DataProcessor.DataProcessor.AddReferencePoint | src/data_processor.cpp:37-40 | the named point is inserted or overwritten and every other point is unchanged |
| DataProcessor.DataProcessor.SelectData | src/data_processor.cpp:42-56 | all given points become target 1, named Target1, selected and not highlighted, with the given reference |
| DataProcessor.DataProcessor.OrganizeData | src/data_processor.cpp:58-67 | the points are sorted by ascending time, as a permutation, and nothing else in the target changes |
| DataProcessor.DataProcessor.DeleteDataPoint | src/data_processor.cpp:69-75 | a valid index removes exactly that point; any other index changes nothing |
| DataProcessor.DataProcessor.HighlightDataPoint | src/data_processor.cpp:77-82 | the index is ignored and only the highlighted flag is set |
| DataProcessor.DataProcessor.RemoveAnomalies | src/data_processor.cpp:84-99 | the points farther than the threshold from the reference are removed, the rest keep their order, nothing else changes |
| DataProcessor.DataProcessor.CalculateSinglePlatformMetrics | src/data_processor.cpp:101-122 | the result is the largest distance to the reference and the mean time, 0 for an empty target |
| DataProcessor.DataProcessor.CalculateMultiPlatformMetrics | src/data_processor.cpp:124-143 | the result is the largest distance over all targets and the mean time weighted by each target's point count |
| DataProcessor.DataProcessor.CalculateSinglePlatformAccuracy | src/data_processor.cpp:145-167 | the result is the mean distance and the mean direction error, (0, 0) for an empty target |
| DataProcessor.DataProcessor.CalculateMultiPlatformAccuracy | src/data_processor.cpp:169-186 | the result is each target's mean distance weighted by its point count, which is the mean over all points |
| DataProcessor.DataProcessor.GetAccuracyOverTime | src/data_processor.cpp:207-223 | each point's distance is stored under its time |
| DataProcessor.AccuracyMapKeys | src/data_processor.cpp:213-220 | the keys of the accuracy map are exactly the points' times |
| DataProcessor.AccuracyMapLastWins | src/data_processor.cpp:213-220 | a time maps to the distance of the last point carrying it |
| DataProcessor.SumTimeAllIsConcatenation | src/data_processor.cpp:133-140 | the weighted total time and count over several targets are those of all their points together |
| DataProcessor.SumTimeAppend | src/data_processor.cpp:107-116 | the total time of two lists is the sum of their totals |
| Decimal.DigitRunEnd | views/src/ReconnaissanceDeviceModelView.cpp:913 | the run of digits that atoi reads stops at the first non-digit or at the end of the text |
| Decimal.SpaceRunEnd | views/src/ReconnaissanceDeviceModelView.cpp:913 | the leading white space that atoi skips stops at the first non-space or at the end of the text |
| Decimal.NatText | views/src/ReconnaissanceDeviceModelView.cpp:892 | the decimal text of a natural number is non-empty and made of digits |
| Decimal.NatTextValue | views/src/ReconnaissanceDeviceModelView.cpp:892 | the digits of a number's decimal text denote that number |
| Decimal.NatTextRun | views/src/ReconnaissanceDeviceModelView.cpp:892 | a number's decimal text is one run of digits to its end |
| Decimal.AtoiNatText | views/src/ReconnaissanceDeviceModelView.cpp:913 | atoi reads back the decimal text of a natural number |
| Decimal.AtoiNegativeText | views/src/ReconnaissanceDeviceModelView.cpp:913 | atoi reads back a negative number written with a minus sign |
| Decimal.AtoiNoNumber | views/src/SinglePlatformView.cpp:316 | text that starts with neither white space, a sign nor a digit reads as 0 |
| DirectionFinding.IntersectDirections2D | models/src/DirectionFinding.cpp:116-131 | the estimate keeps the first observer's height, and nearly parallel bearings give the observers' midpoint |
| DirectionFinding.IntersectionOnBothLines | models/src/DirectionFinding.cpp:120-130 | for bearings that are not nearly parallel the estimate lies on both bearing lines in the horizontal plane |
| DirectionFinding.DirectionWithError | models/src/DirectionFinding.cpp:101-114 | the drawn bearing direction lies in the horizontal plane |
| DirectionFinding.HorizontalDistanceNonNegative | models/src/DirectionFinding.cpp:88-89 | the reported horizontal error is non-negative |
| DirectionFinding.TwoStationFix | models/src/DirectionFinding.cpp:67-93 | the two-station fix reports a non-negative error |
| DirectionFinding.Locate | models/src/DirectionFinding.cpp:67-93 | the step-by-step computation of calculate yields the two-station fix of the first two devices |
| DirectionFinding.DirectionFinding.constructor | models/src/DirectionFinding.cpp:11 | a new object is uninitialised, with time 0 and no devices |
| DirectionFinding.DirectionFinding.Init | models/src/DirectionFinding.cpp:15-22 | the parameters are stored, the devices and the result are cleared and the object is uninitialised |
| DirectionFinding.DirectionFinding.LoadDeviceInfo | models/src/DirectionFinding.cpp:24-40 | the devices are the first row of each name in name order, stopping at the first unknown name; success needs every name found and at least two devices |
| DirectionFinding.DirectionFinding.LoadSourceInfo | models/src/DirectionFinding.cpp:42-55 | success exactly when a source has the name, and then it is the first such source; otherwise the source is unchanged |
| DirectionFinding.DirectionFinding.GetDeviceIds | models/src/DirectionFinding.cpp:57-61 | the ids of the loaded devices, in order |
| DirectionFinding.DirectionFinding.LoadInputs | models/src/DirectionFinding.cpp:65 | the two loads succeed exactly when every name is found, at least two devices are loaded and the source is found; the devices are the matched rows whatever the outcome, and the source is the first one with the name on success and unchanged otherwise |
| DirectionFinding.DirectionFinding.Calculate | models/src/DirectionFinding.cpp:64-96 | success exactly when all devices (at least two) and the source are found; the devices are always reloaded as the matched rows of the names (cleared first, stopping at the first unknown name), and on success the source is the first one with the name, otherwise it is unchanged; on success the result is the two-station fix of the first two of those devices, with a non-negative error; on failure the result is unchanged |
| DirectionFindingAlgorithm.BaselineFactor | models/src/DirectionFindingAlgorithm.cpp:129-132 | the baseline factor lies in (0, 1] and is 1 without a positive baseline |
| DirectionFindingAlgorithm.SampleRateFactor | models/src/DirectionFindingAlgorithm.cpp:138-141 | the sample-rate factor lies in (0, 1] and is 1 without a positive rate |
| DirectionFindingAlgorithm.DirectionError | models/src/DirectionFindingAlgorithm.cpp:116-148 | a device's direction error is clamped to [1, 10] degrees |
| DirectionFindingAlgorithm.BaselineFactorDecreasing | models/src/DirectionFindingAlgorithm.cpp:128-132 | a longer baseline never gives a larger baseline factor |
| DirectionFindingAlgorithm.WrapMeasuredAzimuthRange | models/src/DirectionFindingAlgorithm.cpp:214-216 | for raw azimuths in [-360, 720) the single correction lands in [0, 360) and changes the value by a whole turn at most |
| DirectionFindingAlgorithm.WrapMeasuredAzimuthSingleStep | models/src/DirectionFindingAlgorithm.cpp:214-216 | beyond that range the single correction does not reach [0, 360): 800 becomes 440 and -400 becomes -40 |
| DirectionFindingAlgorithm.ClampElevation | models/src/DirectionFindingAlgorithm.cpp:218-219 | elevations are clamped to [-90, 90] and values already inside are unchanged |
| DirectionFindingAlgorithm.AzimuthResidualRange | models/src/DirectionFindingAlgorithm.cpp:476-478 | for raw differences in [-540, 540] the azimuth residual lies in [-180, 180] and differs from the raw difference by a whole turn at most |
| DirectionFindingAlgorithm.AzimuthResidualOfNormalised | models/src/DirectionFindingAlgorithm.cpp:476-478 | two azimuths in [0, 360) always give a residual in [-180, 180] |
| DirectionFindingAlgorithm.AzimuthWeight | models/src/DirectionFindingAlgorithm.cpp:643 | an azimuth row weighs the positive inverse variance 1/e^2 |
| DirectionFindingAlgorithm.ElevationWeight | models/src/DirectionFindingAlgorithm.cpp:646 | an elevation row weighs four times the azimuth row, its error being taken as half |
| DirectionFindingAlgorithm.WeightDiagonal | models/src/DirectionFindingAlgorithm.cpp:634-650 | the weight matrix's diagonal holds the azimuth weights of all stations, then their elevation weights |
| DirectionFindingAlgorithm.UnitErrorWeights | models/src/DirectionFindingAlgorithm.cpp:496 | the Taylor loop weighs azimuth rows by 1 and elevation rows by 4 |
| DirectionFindingAlgorithm.UnitErrors | models/src/DirectionFindingAlgorithm.cpp:496 | the error list the Taylor loop passes holds 1 for every station |
| DirectionFindingAlgorithm.StationResidualNonNegative | models/src/DirectionFindingAlgorithm.cpp:499 | a station's weighted squared residual is non-negative |
| DirectionFindingAlgorithm.ResidualSumNonNegative | models/src/DirectionFindingAlgorithm.cpp:499 | with non-negative weights the residual sum of squares is non-negative |
| DirectionFindingAlgorithm.NormScale | models/src/DirectionFindingAlgorithm.cpp:523-528 | scaling a step by a non-negative factor scales its norm by that factor |
| DirectionFindingAlgorithm.LimitStepBound | models/src/DirectionFindingAlgorithm.cpp:523-530 | the limited step is never longer than 1000 and the kept norm is its length |
| DirectionFindingAlgorithm.MoveDistance | models/src/DirectionFindingAlgorithm.cpp:533-543 | the position change of a move is the length of the step |
| DirectionFindingAlgorithm.TaylorIteration | models/src/DirectionFindingAlgorithm.cpp:466-559 | one iteration evaluates the current position, keeps the first least residual so far, extends the Taylor path by that position, and stops exactly when the move would jump more than 100 km or the step norm falls below 1e-3; otherwise the next position is the Taylor step |
| DirectionFindingAlgorithm.RefinePositionByTaylor | models/src/DirectionFindingAlgorithm.cpp:446-571 | the evaluated positions are exactly the Taylor path from the initial guess: each next position is the damped, limited step from the previous one, the loop stops after 10 positions, on convergence or at the bail-out; every step is at most 1000 long; the result is the evaluated position with the least residual, the first one on ties |
| DirectionFindingAlgorithm.Evaluate | models/src/DirectionFindingAlgorithm.cpp:466-501 | evaluating one more position keeps the best as the first least residual of the positions evaluated so far, moving it only to the new position |
| DirectionFindingAlgorithm.Advance | models/src/DirectionFindingAlgorithm.cpp:503-543 | the new position is the current one moved by the damped step limited to 1000, with its norm, and the position change is the distance moved |
| DirectionFindingAlgorithm.PathExtend | models/src/DirectionFindingAlgorithm.cpp:545-559 | a Taylor path prefix followed by the next step of a position that does not stop the loop is again a Taylor path prefix |
| DirectionFindingAlgorithm.PathStepsBounded | models/src/DirectionFindingAlgorithm.cpp:523-549 | consecutive positions of a Taylor path are at most 1000 apart |
| DirectionFindingAlgorithm.BailOutUnreachable | models/src/DirectionFindingAlgorithm.cpp:539-549 | a limited step moves the position by at most 1000, so the 100 km bail-out never fires |
| DirectionFindingAlgorithm.HeightWeight | models/src/DirectionFindingAlgorithm.cpp:361-368 | a valid height weighs in (0, 1] and an invalid one weighs 0 |
| DirectionFindingAlgorithm.WeightedMeanValid | models/src/DirectionFindingAlgorithm.cpp:370-375 | a weighted mean of valid heights with non-negative weights, not all zero, is a valid height |
| DirectionFindingAlgorithm.NoValidHeight | models/src/DirectionFindingAlgorithm.cpp:345-380 | with no valid height the average and the fused height are the default 500 m |
| DirectionFindingAlgorithm.FusedHeightValid | models/src/DirectionFindingAlgorithm.cpp:331-380 | with at least one valid height the fused height lies in [0, 5000] |
| DirectionFindingAlgorithm.CheckedHeightMeaning | models/src/DirectionFindingAlgorithm.cpp:382-390 | the true height replaces the estimate exactly when it is positive and the estimate differs from it by more than itself |
| DirectionFindingAlgorithm.StationWeightPositive | models/src/DirectionFindingAlgorithm.cpp:307 | each station's height weight lies in (0, 1] |
| DirectionFindingAlgorithm.WeightSumPositive | models/src/DirectionFindingAlgorithm.cpp:288-310 | with at least one station the weight sum is positive |
| DirectionFindingAlgorithm.WeightedStationHeight | models/src/DirectionFindingAlgorithm.cpp:287-312 | the method-3 loop yields the weighted mean of the station heights, over a positive weight sum |
| DirectionFindingAlgorithm.StoredAccuracy | models/src/DirectionFindingAlgorithm.cpp:432-435 | the stored accuracy is the GDOP capped at 1000 |
| DirectionFindingAlgorithm.PositionErrorCapIneffective | models/src/DirectionFindingAlgorithm.cpp:424-430 | as written, the error factors keep a position error above 1000 km, because the cap is applied after they are stored |
| DirectionFindingAlgorithm.ErrorFactors | models/src/DirectionFindingAlgorithm.cpp:424-430 | the error factors are the GDOP and the position error capped at 1000 km, unchanged below the cap |
| DirectionFindingAlgorithm.StationPositions | models/src/DirectionFindingAlgorithm.cpp:174-179 | one converted position per device, in device order |
| DirectionFindingAlgorithm.Measure | models/src/DirectionFindingAlgorithm.cpp:191-219 | a measured elevation lies in [-90, 90], and a measured azimuth lies in [0, 360) when the drawn error is below a whole turn |
| DirectionFindingAlgorithm.MeasureAngles | models/src/DirectionFindingAlgorithm.cpp:183-224 | the measurement loop yields one azimuth and elevation per station, each the station's measurement |
| DirectionFindingAlgorithm.DeviceIds | models/src/DirectionFindingAlgorithm.cpp:408-411 | the device ids in list order |
| DirectionFindingAlgorithm.LocalizationAccuracy | models/src/DirectionFindingAlgorithm.cpp:653-687 | the GDOP is the non-negative root of the covariance trace of the looked-up stations |
| DirectionFindingAlgorithm.StationsOf | models/src/DirectionFindingAlgorithm.cpp:664-667 | one converted position per looked-up device |
| DirectionFindingAlgorithm.DirectionErrorsOf | models/src/DirectionFindingAlgorithm.cpp:669-671 | one direction error per device, each in [1, 10] degrees |
| DirectionFindingAlgorithm.DirectionErrorsWeighable | models/src/DirectionFindingAlgorithm.cpp:677 | every weight of the accuracy's weight matrix is positive, so it is defined |
| DirectionFindingAlgorithm.Locate | models/src/DirectionFindingAlgorithm.cpp:163-435 | corrected: the stored position is the Taylor refinement of the measured angles from the first station's initial guess, with its longitude and latitude kept and its height replaced by the best of the three height estimates; the time is the elapsed time, the accuracy the GDOP of that position capped at 1000, and the error factors the GDOP and the distance to the true source capped at 1000 km |
| DirectionFindingAlgorithm.LocatedStores | models/src/DirectionFindingAlgorithm.cpp:424-435 | corrected: a located result carries the elapsed time, its GDOP capped at 1000 as accuracy, and as error factors that GDOP and the distance from the true source capped at 1000 km |
| DirectionFindingAlgorithm.StoredIsLocated | models/src/DirectionFindingAlgorithm.cpp:163-435 | what calculate states about its stored result (a located position and the time, accuracy and error factors given in terms of it) holds exactly when the result is Located for some run of the Taylor loop, in both directions |
| DirectionFindingAlgorithm.LocateSummary | models/src/DirectionFindingAlgorithm.cpp:163-435 | corrected: the position is located by some run of the Taylor loop (the height-corrected point of least residual on the Taylor path from the first station's guess); the result carries the elapsed time, the GDOP of that position capped at 1000 as accuracy, and as error factors that GDOP and the distance from the true source capped at 1000 km |
| DirectionFindingAlgorithm.IdsOf | models/src/DirectionFindingAlgorithm.cpp:408-411 | one id per device, in order |
| DirectionFindingAlgorithm.DirectionFindingAlgorithm.constructor | models/src/DirectionFindingAlgorithm.cpp:23-24 | a new algorithm is uninitialised with time 0 |
| DirectionFindingAlgorithm.DirectionFindingAlgorithm.Init | models/src/DirectionFindingAlgorithm.cpp:31-48 | the parameters are stored and the algorithm is initialised; devices and result are kept |
| DirectionFindingAlgorithm.DirectionFindingAlgorithm.LoadDeviceInfo | models/src/DirectionFindingAlgorithm.cpp:51-71 | the devices are the first row of each name in order, stopping at the first unknown name; success needs every name found and at least one device |
| DirectionFindingAlgorithm.DirectionFindingAlgorithm.LoadSourceInfo | models/src/DirectionFindingAlgorithm.cpp:74-90 | success exactly when a source has the name, which then becomes the source; otherwise the source is unchanged |
| DirectionFindingAlgorithm.DirectionFindingAlgorithm.LoadAll | models/src/DirectionFindingAlgorithm.cpp:151-160 | the checks and loads of calculate succeed exactly when initialised, every named device (at least one) and the source are found, and then load exactly those rows; once initialised the devices are the matched rows even when a load fails (cleared and partly reloaded), before init they are untouched, and a failure leaves the source unchanged |
| DirectionFindingAlgorithm.DirectionFindingAlgorithm.StoreLocation | models/src/DirectionFindingAlgorithm.cpp:163-435 | corrected: the stored position is the height-corrected point of least residual on the Taylor path from the first station's guess, for the loaded devices and source; the stored result carries the elapsed time, the GDOP of that position capped at 1000 as accuracy, and as error factors that GDOP and the distance from the true source capped at 1000 km; the loaded state is unchanged |
| DirectionFindingAlgorithm.DirectionFindingAlgorithm.Calculate | models/src/DirectionFindingAlgorithm.cpp:151-438 | corrected: success exactly when initialised, all named devices (at least one) and the source are found; the loaded devices and source are those rows, one device per name; once initialised the devices are the matched rows even on failure, before init they are untouched, and a failure leaves the source unchanged; on success the stored position is the height-corrected point of least residual on the Taylor path from the first station's guess, and the result carries the elapsed time, the GDOP of that position capped at 1000 as accuracy, and as error factors that GDOP and the distance from the true source capped at 1000 km; otherwise it is unchanged |
| ErrorCircle.LoadDeviceInfo | utils/ErrorCircle.cpp:14-27 | the selected devices are the first row of every known name, in name order, unknown names skipped; success needs at least two |
| ErrorCircle.LoadSourceInfo | utils/ErrorCircle.cpp:30-41 | success exactly when a source has the name, and then the first such source is returned; otherwise the out-parameter is unchanged |
| ErrorCircle.Covariance | utils/ErrorCircle.cpp:44-66 | the sample covariance of the deviations is positive semidefinite, and is zero for no deviations |
| ErrorCircle.CrossSquaresClosedForm | utils/ErrorCircle.cpp:54-60 | each inner sum of Lagrange's identity is the quadratic form of the earlier moments, hence non-negative |
| ErrorCircle.LagrangeIdentity | utils/ErrorCircle.cpp:54-60 | the moments' xx*yy - xy^2 equals a sum of squares, hence is non-negative |
| ErrorCircle.MomentsDiagonal | utils/ErrorCircle.cpp:57-58 | the summed squares on the diagonal are non-negative |
| ErrorCircle.MomentsSemiDefinite | utils/ErrorCircle.cpp:53-60 | the moments about any point form a semidefinite matrix |
| ErrorCircle.ScaledSemiDefinite | utils/ErrorCircle.cpp:61-65 | dividing by n - 1 keeps the matrix semidefinite |
| ErrorCircle.ComputeCovariance2x2 | utils/ErrorCircle.cpp:44-66 | the two-pass loop computes the sample covariance, which is semidefinite |
| ErrorCircle.Discriminant | utils/ErrorCircle.cpp:73 | the square-root argument trace^2 - 4 det is never negative |
| ErrorCircle.Eigenvalues | utils/ErrorCircle.cpp:69-76 | the eigenvalues are ordered, sum to the trace, multiply to the determinant, and are non-negative for a semidefinite matrix |
| ErrorCircle.SmallerRootNonNegative | utils/ErrorCircle.cpp:73-75 | for a semidefinite matrix the root of the discriminant is at most the trace, so the smaller eigenvalue is non-negative |
| ErrorCircle.CepRadius | utils/ErrorCircle.cpp:159-161 | with non-negative eigenvalues the CEP radius is 0.59 times the sum of the axes, non-negative and at least twice 0.59 times the minor axis |
| ErrorCircle.SlopeFix | utils/ErrorCircle.cpp:135-147 | a steep first bearing puts the fix on the first station's vertical and the second line, a steep second one on the second's vertical and the first line, and otherwise the fix lies on the first line |
| ErrorCircle.SlopeFixOnBothLines | utils/ErrorCircle.cpp:144-147 | with two finite, different slopes the fix lies on both bearing lines |
| ErrorCircle.Deviation | utils/ErrorCircle.cpp:108-151 | a deviation lies in the x-y plane |
| ErrorCircle.Deviations | utils/ErrorCircle.cpp:104-152 | the loop makes 100 deviations, one per pair of draws |
| ErrorCircle.EstimatedPoints | utils/ErrorCircle.cpp:166-177 | one shown point per deviation, each the target moved by the deviation at the target's height |
| ErrorCircle.CalculateDFErrorCircle | utils/ErrorCircle.cpp:79-179 | with fewer than two known devices or an unknown source the default result; otherwise 100 points, each the target moved by its deviation, and as CEP radius the CepRadius of the eigenvalues of the covariance of those deviations, which is non-negative |
| FdoaAlgorithm.SolveQuadratic | models/src/FDOAalgorithm.cpp:238-269 | a = 0 gives [-c/b] when b is non-zero and nothing otherwise; with a non-zero a a negative discriminant gives nothing, a zero one the vertex, and a positive one two roots with the '+' root first |
| FdoaAlgorithm.RootFromHalfVertex | models/src/FDOAalgorithm.cpp:264-266 | a value t with 2at = -b + s, where s*s is the discriminant, solves the equation |
| FdoaAlgorithm.SolveQuadraticSound | models/src/FDOAalgorithm.cpp:238-269 | every listed value solves a t^2 + b t + c = 0 |
| FdoaAlgorithm.RootSquare | models/src/FDOAalgorithm.cpp:250 | at any root, (2at + b)^2 is the discriminant |
| FdoaAlgorithm.DoubleRoot | models/src/FDOAalgorithm.cpp:258-261 | with a zero discriminant the only root is the vertex -b/2a |
| FdoaAlgorithm.SimpleRoot | models/src/FDOAalgorithm.cpp:264-266 | with a positive discriminant every root is one of the two listed values |
| FdoaAlgorithm.SolveQuadraticComplete | models/src/FDOAalgorithm.cpp:238-269 | every root is listed unless a and b are both 0, where nothing is listed although with c = 0 every value solves the equation |
| FdoaAlgorithm.SmallestPositiveMeaning | models/src/FDOAalgorithm.cpp:212-220 | the selection gives 0 exactly when no value is positive, and otherwise the least positive value |
| FdoaAlgorithm.SmallestPositiveNonNegative | models/src/FDOAalgorithm.cpp:212-220 | the selected value is never negative |
| FdoaAlgorithm.SmallestPositiveStep | models/src/FDOAalgorithm.cpp:214-220 | one more loop iteration: a positive value below the kept one, or the first positive value, replaces it |
| FdoaAlgorithm.DeviceMaxTimeMeaning | models/src/FDOAalgorithm.cpp:204-220 | a device's maxTime is 0 exactly when its range equation has no positive solution, and otherwise is the earliest positive solution |
| FdoaAlgorithm.NegativeBandwidthPossible | models/src/FDOAalgorithm.cpp:153-165 | the intersection of two disjoint frequency ranges gives a negative common bandwidth, as nothing checks for emptiness |
| FdoaAlgorithm.SelectMaxTime | models/src/FDOAalgorithm.cpp:212-220 | the root-selection loop yields the smallest positive root, 0 when there is none |
| FdoaAlgorithm.DeviceTimes | models/src/FDOAalgorithm.cpp:168-226 | one maxTime per device, each from that device's range equation at the common bandwidth |
| FdoaAlgorithm.MaximumTimeInterval | models/src/FDOAalgorithm.cpp:144-235 | the result is the least positive per-device maxTime, 0 when no device has one |
| FdoaAlgorithm.FdoaAlgorithm.constructor | models/src/FDOAalgorithm.cpp:17-18 | a new object has no devices, no names and a zero result |
| FdoaAlgorithm.FdoaAlgorithm.Init | models/src/FDOAalgorithm.cpp:23-44 | the parameters are stored, the devices are cleared and every result field is zeroed |
| FdoaAlgorithm.FdoaAlgorithm.LoadDeviceInfo | models/src/FDOAalgorithm.cpp:47-69 | the first row of each name is appended in name order, without clearing, stopping at the first unknown name; success exactly when every name is found |
| FdoaAlgorithm.FdoaAlgorithm.LoadSourceInfo | models/src/FDOAalgorithm.cpp:72-88 | success exactly when a source has the name, which then becomes the source; otherwise it is unchanged |
| FdoaAlgorithm.FdoaAlgorithm.Calculate | models/src/FDOAalgorithm.cpp:277-319 | success exactly when both loads succeed; the devices are always the old list with the matched rows appended (only init clears it, so a second call without init still sees the first call's first three stations); on success the source is the first one with the name, else it is unchanged; on success the maximum interval is computed for the first three devices of that list and the fixed placeholder result is stored; on failure the result is unchanged |
| FrequencyValidator.UnknownSourceHasNoCarrier | utils/FrequencyValidator.cpp:44-57 | a source id that no row carries gives carrier frequency 0 |
| FrequencyValidator.GetDeviceFrequencyRange | utils/FrequencyValidator.cpp:67-83 | the range is found exactly when the looked-up device has a non-zero id, and then it is the device's range; otherwise the out-parameters are unchanged |
| FrequencyValidator.ValidateFrequency | utils/FrequencyValidator.cpp:13-36 | the result is true exactly when the validation reaches the range test and it passes; the exit taken is the verdict |
| FrequencyValidator.FrequencyVerdictMeaning | utils/FrequencyValidator.cpp:13-36 | validation passes exactly when the source exists with a positive carrier, the device exists, and the carrier lies in the device's closed range; a non-positive carrier is refused first |
| HyperbolaLines.CalculateDistanceLaws | utils/HyperbolaLines.cpp:14-18 | the distance is the common Euclidean one: non-negative, symmetric, and zero from a point to itself |
| HyperbolaLines.SemiMinorLaw | utils/HyperbolaLines.cpp:38-40 | when 0 <= a <= c the semi-minor axis b is non-negative with a^2 + b^2 = c^2 |
| HyperbolaLines.UnitAfterDivision | utils/HyperbolaLines.cpp:47-51 | dividing a non-zero vector by its magnitude gives a unit vector |
| HyperbolaLines.CrossWithHelperNonZero | utils/HyperbolaLines.cpp:58-80 | the helper vector is never parallel to the unit axis, so their cross product is non-zero and can be normalised |
| HyperbolaLines.DistinctStations | utils/HyperbolaLines.cpp:43-48 | two distinct stations are a non-zero distance apart, so the axis can be normalised |
| HyperbolaLines.FrameAxis | utils/HyperbolaLines.cpp:42-51 | for distinct stations the axis is the unit vector from station 1 towards station 2 |
| HyperbolaLines.FrameNormal | utils/HyperbolaLines.cpp:58-80 | the normal used for the samples is a unit vector perpendicular to the axis |
| HyperbolaLines.FrameSemiAxes | utils/HyperbolaLines.cpp:31-40 | a is half the absolute range difference, and when a is at most half the station distance c, b >= 0 with a^2 + b^2 = c^2 |
| HyperbolaLines.FrameSemiAxesDefined | utils/HyperbolaLines.cpp:31-40 | a is half the absolute range difference and b is the semi-minor axis of a and half the station distance |
| HyperbolaLines.PlaceCoordinates | utils/HyperbolaLines.cpp:100-103 | in an orthonormal frame a placed point's coordinates relative to the centre are its local coordinates |
| HyperbolaLines.CandidateLocalCoordinates | utils/HyperbolaLines.cpp:96-114 | each sample lies at local x along the axis and at +y or -y along the normal, for the two branches |
| HyperbolaLines.KeptPointsBounds | utils/HyperbolaLines.cpp:88-120 | at most two points per parameter value are kept, each within range of the centre |
| HyperbolaLines.KeptPointsComplete | utils/HyperbolaLines.cpp:105-119 | every sample within range of the centre is kept |
| HyperbolaLines.KeptPointsPrefix | utils/HyperbolaLines.cpp:88-120 | the points kept for fewer parameter values are a prefix of those kept for more |
| HyperbolaLines.SampleHyperbola | utils/HyperbolaLines.cpp:88-120 | the sampling loop keeps exactly the in-range samples, in order |
| HyperbolaLines.GenerateHyperbolaPoints | utils/HyperbolaLines.cpp:21-123 | the result is the in-range samples of the hyperbola's frame, at most 200 points, each within range of the centre |
| HyperbolaLines.TdoaIndexAsWrittenOverruns | utils/HyperbolaLines.cpp:133-162 | as written, when the guard lets through exactly one TDOA per slave, the last slave is visited and reads one past the end of the TDOA list |
| HyperbolaLines.TdoaIndexInRange | utils/HyperbolaLines.cpp:133-162 | corrected to read the TDOA of slave i at i - 1, every slave is visited past the guard and every read is in range |
| HyperbolaLines.PolylinesShape | utils/HyperbolaLines.cpp:157-207 | corrected: at most one polyline per slave, in increasing slave order, each non-empty and in the slave's colour |
| HyperbolaLines.PolylinesComplete | utils/HyperbolaLines.cpp:171-181 | every slave with kept samples is drawn with the geodetic form of exactly those samples |
| HyperbolaLines.ToGeodetic | utils/HyperbolaLines.cpp:177-181 | the conversion loop maps each kept point to geodetic coordinates |
| HyperbolaLines.DrawSlave | utils/HyperbolaLines.cpp:159-206 | corrected: one slave's pass samples that slave's hyperbola around the target and yields its polyline in the slave's colour, or none when no sample is in range |
| HyperbolaLines.DrawNext | utils/HyperbolaLines.cpp:157-207 | corrected: one pass of the drawing loop keeps the polylines drawn so far and adds slave i's |
| HyperbolaLines.DrawSlaves | utils/HyperbolaLines.cpp:157-207 | corrected: the drawing loop visits slaves 1 to n - 1 in order and yields the polylines of all of them |
| HyperbolaLines.DrawTdoaHyperbolas | utils/HyperbolaLines.cpp:126-213 | corrected: drawing happens exactly when there is a map view, at least two stations and one TDOA per slave; then the polylines are those of every slave with in-range samples (see PolylinesShape, PolylinesComplete), otherwise none |
| HyperbolaLines.PolylinesPrefix | utils/HyperbolaLines.cpp:157-207 | drawing more slaves keeps the earlier polylines as a prefix |
| HyperbolaLines.PolylinesAgree | utils/HyperbolaLines.cpp:157-207 | the polylines depend only on the sample sets of the slaves drawn |
| InterferometerPositioning.FloorBaseline | models/src/InterferometerPositioning.cpp:318-319 | the baseline used is never below 1 mm and is the device's own baseline when that is at least 1 mm |
| InterferometerPositioning.FlooredCos | models/src/InterferometerPositioning.cpp:413-416 | the cosine used has magnitude at least 1e-6, is the true cosine when that is large enough and 1e-6 otherwise |
| InterferometerPositioning.FlooredCosFlipsSign | models/src/InterferometerPositioning.cpp:413-416 | a negative cosine closer to zero than 1e-6 is replaced by the positive 1e-6, so the antenna error changes sign |
| InterferometerPositioning.FoldAzimuth | models/src/InterferometerPositioning.cpp:337-344 | the folded azimuth lies in [0, 90] |
| InterferometerPositioning.FoldAzimuthSymmetric | models/src/InterferometerPositioning.cpp:337-344 | the fold depends only on the magnitude of the azimuth |
| InterferometerPositioning.ClampToLast | models/src/InterferometerPositioning.cpp:351-360 | a value above the last bound becomes the last bound; any other value is unchanged |
| InterferometerPositioning.FirstAtLeastFrom | models/src/InterferometerPositioning.cpp:363-377 | the result is the first level whose bound is at least the value, or -1 exactly when no bound is |
| InterferometerPositioning.FindLevel | models/src/InterferometerPositioning.cpp:363-377 | the search loop with its break finds that first level, or -1 |
| InterferometerPositioning.ClampedLevelFound | models/src/InterferometerPositioning.cpp:351-377 | after clamping, both searches always find a level, whatever the order of the bounds |
| InterferometerPositioning.ExcessRatio | models/src/InterferometerPositioning.cpp:391-403 | a value past the table gives a ratio in (1, 2]; a value inside it gives 1 |
| InterferometerPositioning.ConeScale | models/src/InterferometerPositioning.cpp:385-407 | the scale factor lies in [1, 4] and is exactly 1 when both angles lie inside the table |
| InterferometerPositioning.ConeEffectFromTable | models/src/InterferometerPositioning.cpp:337-409 | the cone-effect error is always a table entry times that factor: the fall-back value 0 is never reached |
| InterferometerPositioning.DirectionData | models/src/InterferometerPositioning.cpp:199-249 | the azimuth from the device moved along its velocity for one second lies in [0, 360) and the elevation in [-90, 90] |
| InterferometerPositioning.RootOfSquares | models/src/InterferometerPositioning.cpp:432-433 | the total error is the non-negative root of the sum of the four squared factors |
| InterferometerPositioning.BudgetTotal | models/src/InterferometerPositioning.cpp:429-436 | in the pushed budget the last entry squared equals the sum of the other entries squared, the antenna entry taken back from degrees to radians |
| InterferometerPositioning.ErrorBudget | models/src/InterferometerPositioning.cpp:312-452 | five factors, in order alignment, attitude, cone effect, antenna (degrees), total; the first two are the constants |
| InterferometerPositioning.ErrorBudgetTotal | models/src/InterferometerPositioning.cpp:312-452 | for any device and source the total is non-negative and its square is the sum of the squares of the other four factors, the antenna one in radians |
| InterferometerPositioning.LookUpConeEffect | models/src/InterferometerPositioning.cpp:347-409 | the clamping, the two search loops and the scaling compute the cone-effect error |
| InterferometerPositioning.CalculateErrors | models/src/InterferometerPositioning.cpp:312-452 | the method returns exactly that budget; the distance argument has no effect |
| InterferometerPositioning.PushErrors | models/src/InterferometerPositioning.cpp:329-436 | the five pushes, with the antenna error converted to degrees only after the total is formed |
| InterferometerPositioning.ResultAzimuthRange | models/src/InterferometerPositioning.cpp:141-142 | an atan2 angle in (-180, 180] shifted once by 360 when negative lies in [0, 360) |
| InterferometerPositioning.MovedPosition | models/src/InterferometerPositioning.cpp:78-80 | the device's Cartesian position after moving along its velocity for the given time differs from its start by velocity times time |
| InterferometerPositioning.RunSimulation | models/src/InterferometerPositioning.cpp:20-196 | the result's position is the geodetic form of the phase-rate fix from the device moved for the simulation time; its azimuth and elevation are AngleValidator.AzimuthElevation from the moved device to the source (so in [0, 360) and [-90, 90]); the task's execution and positioning times are the simulation time; its factors are the error budget; the stored task carries the same position, and the total error as its angle error and both accuracies |
| Linear3.GramSymmetric | utils/HyperbolaLines.cpp:392-398 | each entry of A^T A equals its mirror entry, whatever the rows |
| Linear3.GramDiagonal | utils/HyperbolaLines.cpp:392-398 | each diagonal entry of A^T A is non-negative |
| Linear3.NormalMatrixShape | utils/HyperbolaLines.cpp:388-398 | the normal matrix is symmetric with a non-negative diagonal |
| Linear3.GramWeighted | utils/HyperbolaLines.cpp:392-405 | row j of A^T A and entry j of A^T b are the rows of A and b weighted by column j of A |
| Linear3.WeightedConsistent | utils/HyperbolaLines.cpp:392-405 | any weighted sum of equations that all hold at a point holds at that point |
| Linear3.NormalRowConsistent | utils/HyperbolaLines.cpp:392-405 | a point satisfying every equation satisfies row j of the normal equations |
| Linear3.NormalConsistent | utils/HyperbolaLines.cpp:388-405 | a point satisfying every equation satisfies A^T A p = A^T b |
| Linear3.NormalEquations | utils/HyperbolaLines.cpp:388-405 | the triple and double loops fill the fresh 3x3 and 3-entry arrays with A^T A and A^T b |
| Linear3.Entry00 | utils/HyperbolaLines.cpp:408-426 | the first row of the matrix times the first column of the adjugate is the determinant (Entry01 … Entry22 give the other eight entries of m times its adjugate = det I) |
| Linear3.SolveSolves | utils/HyperbolaLines.cpp:408-431 | with a non-zero determinant the computed (x, y, z) solves A^T A x = A^T b |
| Linear3.AdjSymmetric | utils/HyperbolaLines.cpp:417-426 | the adjugate of a symmetric matrix is symmetric |
| Linear3.SolveUnique | utils/HyperbolaLines.cpp:408-431 | for a symmetric matrix with non-zero determinant, solving m p = v gives back p: the solve is the only solution |
| Vector3.AddSubCancel | utils/Vector3.h:14-21 | subtraction undoes addition and addition undoes subtraction |
| Vector3.DotSymmetric | utils/Vector3.h:24-26 | the dot product is symmetric |
| Vector3.MagnitudeSquaredIsDot | utils/Vector3.h:43-45 | the squared magnitude is the vector's dot product with itself, hence non-negative |
| Vector3.MagnitudeRoot | utils/Vector3.h:38-40 | the magnitude is the non-negative root of the squared magnitude |
| Vector3.CrossOrthogonal | utils/Vector3.h:29-35 | the cross product is orthogonal to both operands |
| Vector3.CrossSelfZero | utils/Vector3.h:29-35 | a vector crossed with itself is the zero vector |
| Vector3.CrossAntiSymmetric | utils/Vector3.h:29-35 | swapping the operands negates the cross product |
| Vector3.NormalizeUnit | utils/Vector3.h:48-52 | normalising a zero-magnitude vector gives the zero vector; otherwise a unit vector in the same direction |
| Vector3.DivIsScaleByInverse | utils/Vector3.h:55-63 | dividing by zero gives the zero vector; dividing by a non-zero scalar is scaling by its inverse and is undone by scaling by it |
| Vector3.ScaleDistributes | utils/Vector3.h:14-16 | scalar multiplication distributes over addition |
| MapView.FirstExisting | views/components/src/MapView.cpp:242-246 | the result is the first candidate from k on that exists, and None exactly when none of them does |
| MapView.GetResourcePath | views/components/src/MapView.cpp:226-251 | the search returns the absolute form of the first existing candidate directory, "./res" when none exists |
| MapView.Find | views/components/src/MapView.cpp:95 | the result is the first position from `from` at which the pattern occurs, None exactly when it occurs nowhere from there |
| MapView.FindNumberChar | views/components/src/MapView.cpp:97 | the first digit or point from `from` on, None exactly when there is none |
| MapView.FindNotNumberChar | views/components/src/MapView.cpp:99 | the first character from `from` on that is neither a digit nor a point, None exactly when there is none |
| MapView.HeightSpanShape | views/components/src/MapView.cpp:95-101 | a height text is found only after the label: a run of digits and points preceded by no such character since the label and followed by another character; no label, no text |
| MapView.Stod | views/components/src/MapView.cpp:101-106 | a successful conversion of digits and points is never negative |
| MapView.StodNatText | views/components/src/MapView.cpp:103 | the conversion reads back an integer written in decimal |
| MapView.HeightOfCases | views/components/src/MapView.cpp:94-109 | the height is never negative, and it is 0 without the label and when the digits run to the end of the description |
| MapView.LabelledHeight | views/components/src/MapView.cpp:94-109 | a description "…高度:" gap n unit gives height n, a sign in the gap being skipped |
| MapView.MarkerCounter.constructor | views/components/src/MapView.cpp:87 | the shared marker counter starts at 1 |
| MapView.MapView.constructor | views/components/src/MapView.cpp:8-13 | no web view, the 3D map, and the Cesium page of the resource directory |
| MapView.MapView.LoadMap | views/components/src/MapView.cpp:211-223 | the page is loaded as a file URL only when there is a web view and the page exists; nothing else changes |
| MapView.MapView.Create | views/components/src/MapView.cpp:21-41 | afterwards there is a web view and the page is loaded when it exists |
| MapView.MapView.ExecuteScript | views/components/src/MapView.cpp:204-208 | a script runs only when there is a web view |
| MapView.MapView.SetCenter | views/components/src/MapView.cpp:44-60 | with a web view, one camera flight on the 3D map or one view change on the 2D map; without, nothing |
| MapView.MapView.AddMarker | views/components/src/MapView.cpp:82-145 | without a web view the id is -1 and the counter is unchanged; with one the id is the counter's value, the counter moves on, the id is larger than every marker added before, and one entity (its height read from the description) or one Leaflet marker is added |
| MapView.MapView.RemoveMarker | views/components/src/MapView.cpp:148-165 | with a web view, the entity or Leaflet layer with that id is removed; without, nothing |
| MapView.MapView.ClearMarkers | views/components/src/MapView.cpp:168-187 | with a web view, every entity or every Leaflet marker is removed; without, nothing |
| MapView.MapView.SetUse3DMap | views/components/src/MapView.cpp:190-201 | nothing when the flag is unchanged; otherwise the flag is set and the other page of the resource directory is chosen and loaded |
| MapView.ReplaceMarker | views/src/SinglePlatformView.cpp:399-448 | the previous marker, if any, is removed first; then a new marker is added for the selected target, whose id is the counter's value, or -1 when there is no target or no web view |
| MapView.ExtractHeight | views/components/src/MapView.cpp:94-109 | the nested searches and the guarded conversion compute the height, never negative |
| MultiPlatformView.Required | views/src/MultiPlatformView.cpp:409 | four devices exactly for TDOA, three for every other system |
| MultiPlatformView.VisibleFrames | views/src/MultiPlatformView.cpp:188-190 | slot i is shown exactly when i is below the number of devices the system needs |
| MultiPlatformView.SlotItemsMeaning | views/src/MultiPlatformView.cpp:198-206 | under TDOA a slot lists exactly the fixed devices' names; under FDOA the first three slots list every device in order and the fourth none |
| MultiPlatformView.SourceItemsMeaning | views/src/MultiPlatformView.cpp:218-224 | under TDOA the source list holds exactly the fixed sources' names; otherwise every source in order |
| MultiPlatformView.NameSetSize | views/src/MultiPlatformView.cpp:439-441 | sorting and removing adjacent duplicates leaves at most as many names, and exactly as many when no name repeats |
| MultiPlatformView.CollectedShape | views/src/MultiPlatformView.cpp:412-436 | the collecting loop succeeds exactly when every shown slot has a selection, skips hidden slots, and with every slot shown collects the selections in order |
| MultiPlatformView.CollectedNone | views/src/MultiPlatformView.cpp:419-432 | a shown slot without a selection makes the check fail |
| MultiPlatformView.PresentNamesAll | views/src/MultiPlatformView.cpp:344-350 | with every required slot selected, the names handed on are the selections in slot order |
| MultiPlatformView.RadarCheckMeaning | views/src/MultiPlatformView.cpp:404-459 | the check passes exactly when each required slot is shown and selected and no two of them hold the same device |
| MultiPlatformView.CreateViewBlocksTdoa | views/src/MultiPlatformView.cpp:156-159 | in the state createView leaves on its own, before the window is shown, TDOA is selected with only three slots visible, so the check fails whatever is selected |
| MultiPlatformView.MatchingVisibilityCheck | views/src/MultiPlatformView.cpp:404-459 | with the slots shown as the system requires, the check passes exactly when the required slots are selected with different devices |
| MultiPlatformView.BinChild | views/src/MultiPlatformView.cpp:358 | only a frame has a child; any other widget gives none |
| MultiPlatformView.FirstEntryText | views/src/MultiPlatformView.cpp:360-367 | the text of the first entry among the children, none exactly when no child is an entry |
| MultiPlatformView.FindEntryText | views/src/MultiPlatformView.cpp:354-369 | the lookup loop with its break finds the text of the first entry in the box under the widget, if any |
| MultiPlatformView.SimulationTimeAsWritten | views/src/MultiPlatformView.cpp:352-388 | as written, the lookup starts from the parent of the first device frame, which holds no entry, so the time is always the default 20 seconds |
| MultiPlatformView.TypedTimeIgnored | views/src/MultiPlatformView.cpp:352-388 | an entry holding "60" still gives 20 seconds |
| MultiPlatformView.SimulationTime | views/src/MultiPlatformView.cpp:371-388 | corrected: the entry's number when it is non-empty and converts, 20 seconds otherwise |
| MultiPlatformView.SlotMarkerReplaced | views/src/MultiPlatformView.cpp:259-276 | replacing a slot's marker by none or by the id just handed out keeps every live marker id distinct and below the counter |
| MultiPlatformView.SourceMarkerReplaced | views/src/MultiPlatformView.cpp:279-295 | the same for the source marker |
| MultiPlatformView.TargetOf | views/src/MultiPlatformView.cpp:270-275 | a target exactly when some element carries the selected name; then the position of the first such element and that name |
| MultiPlatformView.NoMarkers | views/src/MultiPlatformView.cpp:12-14 | the four slot markers start as "no marker" |
| MultiPlatformView.NewSlotCombos | views/src/MultiPlatformView.cpp:56-75 | four distinct, fresh, empty device lists |
| MultiPlatformView.NewSystemCombo | views/src/MultiPlatformView.cpp:48-51 | the system list holds TDOA then FDOA, TDOA selected |
| MultiPlatformView.MultiPlatformView.SlotTexts | views/src/MultiPlatformView.cpp:419 | one selection, possibly none, per slot |
| MultiPlatformView.MultiPlatformView.constructor | views/src/MultiPlatformView.cpp:10-172 | empty lists, TDOA selected, no markers, and the slots shown as TDOA requires |
| MultiPlatformView.MultiPlatformView.UpdateRadarMarker | views/src/MultiPlatformView.cpp:259-276 | the slot's old marker is removed first; the slot has a marker afterwards exactly when there is a web view and its selection names a device, and that marker is the last one added; other slots keep theirs |
| MultiPlatformView.MultiPlatformView.UpdateSourceMarker | views/src/MultiPlatformView.cpp:279-295 | the source marker exists afterwards exactly when there is a web view and the selection names a source, and it is the last marker added |
| MultiPlatformView.MultiPlatformView.RefillSlot | views/src/MultiPlatformView.cpp:199-211 | one slot's list is refilled for the system, its first row selected when it has one, and its marker follows the selection |
| MultiPlatformView.MultiPlatformView.UpdateDeviceCombos | views/src/MultiPlatformView.cpp:196-213 | every slot holds the devices the system allows, first row selected, its marker following its selection |
| MultiPlatformView.MultiPlatformView.UpdateSourceCombo | views/src/MultiPlatformView.cpp:216-229 | the source list holds the sources the system allows, first row selected, the marker following it |
| MultiPlatformView.MultiPlatformView.LoadData | views/src/MultiPlatformView.cpp:161-169 | the view takes the devices and sources and fills every list for the current system |
| MultiPlatformView.MultiPlatformView.OnTechSystemChanged | views/src/MultiPlatformView.cpp:185-193 | after a change the slots shown and every list match the new system |
| MultiPlatformView.MultiPlatformView.ShowFrames | views/src/MultiPlatformView.cpp:188-190 | the visibility loop shows exactly the slots the system requires |
| MultiPlatformView.MultiPlatformView.SetTimeText | views/src/MultiPlatformView.cpp:89-102 | the time entry holds what the user typed; nothing else changes |
| MultiPlatformView.MultiPlatformView.CheckRadarModels | views/src/MultiPlatformView.cpp:404-459 | true exactly when every required slot is shown and selected and no two required slots hold the same device |
| MultiPlatformView.MultiPlatformView.OnStartSimulation | views/src/MultiPlatformView.cpp:304-401 | corrected: a simulation starts exactly when the check passes and a source is selected; it gets the required number of distinct device names in slot order, the source, the system and the time from the entry |
| MultiPlatformView.StartedNames | views/src/MultiPlatformView.cpp:342-350 | the names of a request that passed the check are one per required slot and pairwise distinct |
| RadiationSourceModel.FindById | models/src/RadiationSourceDAO.cpp:29-42 | the first row with that id when one exists, otherwise a default-constructed source |
| RadiationSourceModel.FindByName | models/src/DirectionFindingAlgorithm.cpp:78-81 | the first row with that name, None exactly when no row has it |
| RadiationSourceModel.RadiationSource.constructor | models/src/RadiationSourceModel.cpp:7-26 | a new source has id 0, is stationary, radiates over azimuth [0, 360] and elevation [-90, 90], and does not move |
| RadiationSourceModel.RadiationSource.FromRow | models/src/RadiationSourceModel.cpp:7-26 | a copied row holds exactly that row's values |
| RadiationSourceModel.RadiationSource.SetRadiationId | models/src/RadiationSourceModel.cpp:32 | only the id changes |
| RadiationSourceModel.RadiationSource.SetRadiationName | models/src/RadiationSourceModel.cpp:36 | only the name changes |
| RadiationSourceModel.RadiationSource.SetIsStationary | models/src/RadiationSourceModel.cpp:41-49 | making a source stationary also zeroes its speed and both motion angles; making it mobile keeps them; a stationary source never moves afterwards |
| RadiationSourceModel.RadiationSource.SetTransmitPower | models/src/RadiationSourceModel.cpp:53 | only the transmit power changes |
| RadiationSourceModel.RadiationSource.SetScanPeriod | models/src/RadiationSourceModel.cpp:57 | only the scan period changes |
| RadiationSourceModel.RadiationSource.SetCarrierFrequency | models/src/RadiationSourceModel.cpp:61 | only the carrier frequency changes |
| RadiationSourceModel.RadiationSource.SetAzimuthStart | models/src/RadiationSourceModel.cpp:65 | the sector start is stored even when it passes the end |
| RadiationSourceModel.RadiationSource.SetAzimuthEnd | models/src/RadiationSourceModel.cpp:70-76 | the sector end is stored only when it exceeds the start; otherwise nothing changes |
| RadiationSourceModel.RadiationSource.SetElevationStart | models/src/RadiationSourceModel.cpp:80 | the elevation start is stored even when it passes the end |
| RadiationSourceModel.RadiationSource.SetElevationEnd | models/src/RadiationSourceModel.cpp:85-91 | the elevation end is stored only when it exceeds the start; otherwise nothing changes |
| RadiationSourceModel.RadiationSource.SetMovementSpeed | models/src/RadiationSourceModel.cpp:96-102 | a non-zero speed is refused while the source is stationary; otherwise it is stored; a stationary source stays still |
| RadiationSourceModel.RadiationSource.SetMovementAzimuth | models/src/RadiationSourceModel.cpp:107-113 | a non-zero motion azimuth is refused while the source is stationary; otherwise it is stored |
| RadiationSourceModel.RadiationSource.SetMovementElevation | models/src/RadiationSourceModel.cpp:117-123 | a non-zero motion elevation is refused while the source is stationary; otherwise it is stored |
| RadiationSourceModel.RadiationSource.SetLongitude | models/src/RadiationSourceModel.cpp:127-132 | the longitude is stored even out of [-180, 180] (the warning is not modelled) |
| RadiationSourceModel.RadiationSource.SetLatitude | models/src/RadiationSourceModel.cpp:136-141 | the latitude is stored even out of [-90, 90] |
| RadiationSourceModel.RadiationSource.SetAltitude | models/src/RadiationSourceModel.cpp:145 | only the altitude changes |
| RadiationSourceModel.RadiationSource.SetCreatedAt | models/src/RadiationSourceModel.cpp:149 | only the creation time changes |
| RadiationSourceModel.RadiationSource.SetLastUpdated | models/src/RadiationSourceModel.cpp:153 | only the update time changes |
| ReconnaissanceDeviceModel.DeviceTypeString | models/src/ReconnaissanceDeviceModel.cpp:176-178 | "固定设备" exactly for a stationary device and "移动设备" exactly for a mobile one |
| ReconnaissanceDeviceModel.FindById | models/src/ReconnaissanceDeviceDAO.cpp:30-34 | the lookup by id over the device rows: the first row with that id, or a default-constructed device when none has it (the body in this repository is a stub; see Left out) |
| ReconnaissanceDeviceModel.LookUpAll | utils/AngleValidator.cpp:106-108 | one device per id, each the lookup of that id |
| ReconnaissanceDeviceModel.FindByName | models/src/DirectionFindingAlgorithm.cpp:57-60 | the first row with that name, None exactly when no row has it |
| ReconnaissanceDeviceModel.MatchNamesComplete | models/src/DirectionFindingAlgorithm.cpp:51-71 | the name-matching loop succeeds exactly when every name is carried by some row |
| ReconnaissanceDeviceModel.MatchNamesRows | models/src/TDOAalgorithm.cpp:173-183 | a successful matching yields one row per name, in name order, each the first row with that name; any matching yields at most one row per name |
| ReconnaissanceDeviceModel.MatchNamesStops | models/src/TDOAalgorithm.cpp:182 | once a name is unknown, the matching has failed, keeping the rows matched before it |
| ReconnaissanceDeviceModel.MatchKnownNamesMeaning | utils/ErrorCircle.cpp:14-27 | the variant that skips unknown names keeps only first matches of given names, at most one per name, and agrees with the strict matching when every name is known |
| ReconnaissanceDeviceModel.ReconnaissanceDevice.constructor | models/src/ReconnaissanceDeviceModel.cpp:6-28 | a new device has id 0, is stationary, covers azimuth [0, 360] and elevation [-90, 90], and does not move |
| ReconnaissanceDeviceModel.ReconnaissanceDevice.FromRow | models/src/ReconnaissanceDeviceModel.cpp:6-28 | a copied row holds exactly that row's values |
| ReconnaissanceDeviceModel.ReconnaissanceDevice.SetDeviceId | models/src/ReconnaissanceDeviceModel.cpp:35 | only the id changes |
| ReconnaissanceDeviceModel.ReconnaissanceDevice.SetDeviceName | models/src/ReconnaissanceDeviceModel.cpp:39 | only the name changes |
| ReconnaissanceDeviceModel.ReconnaissanceDevice.SetIsStationary | models/src/ReconnaissanceDeviceModel.cpp:44-52 | making a device stationary also zeroes its speed and both motion angles; making it mobile keeps them; a stationary device never moves afterwards |
| ReconnaissanceDeviceModel.ReconnaissanceDevice.SetBaselineLength | models/src/ReconnaissanceDeviceModel.cpp:56 | only the baseline changes |
| ReconnaissanceDeviceModel.ReconnaissanceDevice.SetFreqRangeMin | models/src/ReconnaissanceDeviceModel.cpp:60 | the lower frequency bound is stored even when it reaches the upper one |
| ReconnaissanceDeviceModel.ReconnaissanceDevice.SetFreqRangeMax | models/src/ReconnaissanceDeviceModel.cpp:65-71 | the upper frequency bound is stored only when it exceeds the lower one; otherwise nothing changes |
| ReconnaissanceDeviceModel.ReconnaissanceDevice.SetAngleAzimuthMin | models/src/ReconnaissanceDeviceModel.cpp:75 | the lower azimuth bound is stored unconditionally |
| ReconnaissanceDeviceModel.ReconnaissanceDevice.SetAngleAzimuthMax | models/src/ReconnaissanceDeviceModel.cpp:80-86 | the upper azimuth bound is stored only when it exceeds the lower one; otherwise nothing changes |
| ReconnaissanceDeviceModel.ReconnaissanceDevice.SetAngleElevationMin | models/src/ReconnaissanceDeviceModel.cpp:90 | the lower elevation bound is stored unconditionally |
| ReconnaissanceDeviceModel.ReconnaissanceDevice.SetAngleElevationMax | models/src/ReconnaissanceDeviceModel.cpp:95-101 | the upper elevation bound is stored only when it exceeds the lower one; otherwise nothing changes |
| ReconnaissanceDeviceModel.ReconnaissanceDevice.SetNoisePsd | models/src/ReconnaissanceDeviceModel.cpp:105 | only the noise density changes |
| ReconnaissanceDeviceModel.ReconnaissanceDevice.SetSampleRate | models/src/ReconnaissanceDeviceModel.cpp:109 | only the sample rate changes |
| ReconnaissanceDeviceModel.ReconnaissanceDevice.SetMovementSpeed | models/src/ReconnaissanceDeviceModel.cpp:114-120 | a non-zero speed is refused while the device is stationary; otherwise it is stored; a stationary device stays still |
| ReconnaissanceDeviceModel.ReconnaissanceDevice.SetMovementAzimuth | models/src/ReconnaissanceDeviceModel.cpp:125-131 | a non-zero motion azimuth is refused while the device is stationary; otherwise it is stored |
| ReconnaissanceDeviceModel.ReconnaissanceDevice.SetMovementElevation | models/src/ReconnaissanceDeviceModel.cpp:136-142 | a non-zero motion elevation is refused while the device is stationary; otherwise it is stored |
| ReconnaissanceDeviceModel.ReconnaissanceDevice.SetLongitude | models/src/ReconnaissanceDeviceModel.cpp:146-151 | the longitude is stored even out of [-180, 180] |
| ReconnaissanceDeviceModel.ReconnaissanceDevice.SetLatitude | models/src/ReconnaissanceDeviceModel.cpp:155-160 | the latitude is stored even out of [-90, 90] |
| ReconnaissanceDeviceModel.ReconnaissanceDevice.SetAltitude | models/src/ReconnaissanceDeviceModel.cpp:164 | only the altitude changes |
| ReconnaissanceDeviceModel.ReconnaissanceDevice.SetCreatedAt | models/src/ReconnaissanceDeviceModel.cpp:168 | only the creation time changes |
| ReconnaissanceDeviceModel.ReconnaissanceDevice.SetUpdatedAt | models/src/ReconnaissanceDeviceModel.cpp:172 | only the update time changes |
| ReconnaissanceDeviceModel.ReconnaissanceDevice.GetDeviceTypeString | models/src/ReconnaissanceDeviceModel.cpp:176-178 | the object's type text is that of its current state: "固定设备" exactly when stationary |
| ReconnaissanceDeviceModel.SetterKeepsMotionRule | models/src/ReconnaissanceDeviceModel.cpp:44-160 | every setter's update keeps "a stationary device does not move": the field setters, the three motion setters whose guard refuses a non-zero value on a stationary device, and setIsStationary both ways; each setter method also states that it keeps Valid |
| ReconnaissanceDeviceModel.LowerBoundMayPassUpper | models/src/ReconnaissanceDeviceModel.cpp:60-71 | raising the lower frequency bound above the upper one is accepted, so "min < max" is not an invariant of a device |
| ReconnaissanceDeviceModelView.Clamp | views/src/ReconnaissanceDeviceModelView.cpp:611-719 | a value set on a spin button is kept within its range: itself when inside, the nearer bound otherwise |
| ReconnaissanceDeviceModelView.SpinButton.constructor | views/src/ReconnaissanceDeviceModelView.cpp:611 | a new spin button holds its lower bound |
| ReconnaissanceDeviceModelView.SpinButton.SetValue | views/src/ReconnaissanceDeviceModelView.cpp:624 | the stored value is the requested one clamped into the range |
| ReconnaissanceDeviceModelView.FrequencyFollow | views/src/ReconnaissanceDeviceModelView.cpp:49-58 | the maximum asked for always exceeds the minimum: unchanged when it already did, 0.1 above the minimum otherwise |
| ReconnaissanceDeviceModelView.AngleFollow | views/src/ReconnaissanceDeviceModelView.cpp:61-82 | unchanged when the maximum already exceeds the minimum; otherwise one degree above the minimum but never past the cap, and above the minimum whenever the minimum is below the cap |
| ReconnaissanceDeviceModelView.OnMinFreqChanged | views/src/ReconnaissanceDeviceModelView.cpp:49-58 | the maximum spin is touched only when it no longer exceeds the minimum, and then takes the minimum plus 0.1, clamped |
| ReconnaissanceDeviceModelView.OnMinAzimuthChanged | views/src/ReconnaissanceDeviceModelView.cpp:61-70 | the same rule with one degree and the cap 360 |
| ReconnaissanceDeviceModelView.OnMinElevationChanged | views/src/ReconnaissanceDeviceModelView.cpp:73-82 | the same rule with one degree and the cap 90 |
| ReconnaissanceDeviceModelView.AzimuthCallbackOrders | views/src/ReconnaissanceDeviceModelView.cpp:61-70 | with the dialog's azimuth spins the maximum exceeds the minimum after the callback |
| ReconnaissanceDeviceModelView.ElevationCallbackOrders | views/src/ReconnaissanceDeviceModelView.cpp:73-82 | with the dialog's elevation spins the maximum exceeds the minimum after the callback |
| ReconnaissanceDeviceModelView.FrequencyCallbackOrders | views/src/ReconnaissanceDeviceModelView.cpp:49-58 | with the dialog's frequency spins the maximum exceeds a minimum of at most 99.9 after the callback; at 100 the clamp makes them equal |
| ReconnaissanceDeviceModelView.FrameWidget.constructor | views/src/ReconnaissanceDeviceModelView.cpp:765 | a frame starts with the given sensitivity |
| ReconnaissanceDeviceModelView.OnDeviceTypeToggled | views/src/ReconnaissanceDeviceModelView.cpp:30-46 | the motion frame accepts input exactly while the device is mobile; making it fixed sets every registered motion spin to 0 (clamped), so one whose range holds 0 reads 0; making it mobile leaves them |
| ReconnaissanceDeviceModelView.DialogFrequency | views/src/ReconnaissanceDeviceModelView.cpp:613-623 | (0, 0) for a new device; otherwise the stored minimum and a maximum above it: the stored one when it already was, the minimum plus 0.1 otherwise |
| ReconnaissanceDeviceModelView.DialogAngle | views/src/ReconnaissanceDeviceModelView.cpp:651-665 | (0, 0) for a new device; an ordered stored range unchanged; otherwise a one-degree range starting at the minimum, moved down so as to end at the cap at the latest |
| ReconnaissanceDeviceModelView.DialogRangesOrdered | views/src/ReconnaissanceDeviceModelView.cpp:613-707 | every range the dialog shows for a stored device is ordered, minimum below maximum |
| ReconnaissanceDeviceModelView.DialogAngleStable | views/src/ReconnaissanceDeviceModelView.cpp:651-665 | repairing a repaired range changes nothing |
| ReconnaissanceDeviceModelView.DialogRanges | views/src/ReconnaissanceDeviceModelView.cpp:613-707 | the local variables feeding the six range spins hold the repaired ranges |
| ReconnaissanceDeviceModelView.SelectedDeviceId | views/src/ReconnaissanceDeviceModelView.cpp:904-923 | -1 when no row is selected or its id text is empty, otherwise atoi of the text |
| ReconnaissanceDeviceModelView.SelectedRowId | views/src/ReconnaissanceDeviceModelView.cpp:913-916 | the id read back from a device's row, written with std::to_string, is that device's id |
| ReconnaissanceDeviceModelView.ColumnIndex | views/src/ReconnaissanceDeviceModelView.cpp:214-220 | the index of the first column that is the clicked one, -1 exactly when none is |
| ReconnaissanceDeviceModelView.OnButtonPress | views/src/ReconnaissanceDeviceModelView.cpp:192-258 | the click is consumed exactly for a left single click on columns 4 to 6 with a selected id; any action is on that id, and deletion needs column 6 and a confirmation |
| ReconnaissanceDeviceModelView.OnRowActivated | views/src/ReconnaissanceDeviceModelView.cpp:149-189 | nothing without a selected id; any action is on that id for a column from 0 to 6, and deletion needs column 6 and a confirmation |
| ReconnaissanceDeviceModelView.ClickActsOnClickedRow | views/src/ReconnaissanceDeviceModelView.cpp:192-258 | a click on a device's row acts on that device; the placeholder row of an empty list never triggers anything |
| SnrValidator.BandOfMeaning | utils/SNRValidator.cpp:102-114 | a frequency lies in the accumulated band exactly when it lies in the closed range of every device |
| SnrValidator.BandOfBounds | utils/SNRValidator.cpp:102-114 | starting from (-inf, +inf), the band's bounds become finite as soon as there is a device, and are the largest device minimum and the smallest device maximum |
| SnrValidator.BandEmptyMeaning | utils/SNRValidator.cpp:117-125 | the band is empty (min > max) exactly when no frequency is received by every device; otherwise its width is non-negative, so touching ranges pass with width 0 |
| SnrValidator.ValidateSnr | utils/SNRValidator.cpp:86-168 | the two loops return the verdict of the intersection test followed by the per-device SNR tests, true exactly when no failure is reported |
| SnrValidator.ValidateSnrMeaning | utils/SNRValidator.cpp:102-167 | the verdict passes exactly when some frequency is received by every device and no device's SNR at the common bandwidth is below the threshold; an empty id list passes |
| SnrValidator.SnrCheckMeaning | utils/SNRValidator.cpp:139-163 | a device fails exactly when the SNR for its distance to the source at the common bandwidth is below the threshold |
| SimulationValidator.ValidateAll | utils/SimulationValidator.cpp:24-174 | the two loops return the verdict of the intersection test followed by the ordered per-device checks, true exactly when no failure is reported |
| SimulationValidator.ValidateAllMeaning | utils/SimulationValidator.cpp:47-173 | all devices pass exactly when some frequency is received by all of them and each contains the carrier, sees the source, is seen by it, and has enough SNR at the common bandwidth |
| SimulationValidator.CheckOrder | utils/SimulationValidator.cpp:89-169 | a carrier outside the device's own range is reported as a frequency failure before anything else, and an angle failure is reported before an SNR failure |
| SinglePlatformTdoa.CorrelationsAsWritten | models/src/SinglePlatformTDOA.cpp:30-43 | the array the code fills has one entry per lag from -maxLag to maxLag, maxLag being half the shorter signal |
| SinglePlatformTdoa.EveryLagMeasured | models/src/SinglePlatformTDOA.cpp:30-42 | with the guard moved into the loop body, every lag of the window has at least one product once both signals are non-empty, so the n > 0 test never leaves an entry at 0 |
| SinglePlatformTdoa.Correlations | models/src/SinglePlatformTDOA.cpp:30-43 | the corrected array has the same shape: one mean product per lag of the window |
| SinglePlatformTdoa.PositiveLagsNeverAccumulated | models/src/SinglePlatformTDOA.cpp:36-42 | as written, the loop condition i - lag >= 0 is false at i = 0 for every positive lag, so the loop ends at once and the entry stays 0 |
| SinglePlatformTdoa.AsWrittenAgreesAtNonPositiveLags | models/src/SinglePlatformTDOA.cpp:33-43 | at lags <= 0 the loop as written stops exactly where the overlap ends, so it yields the same entry as the corrected loop |
| SinglePlatformTdoa.FirstMaxIndex | models/src/SinglePlatformTDOA.cpp:46 | std::max_element: an index of a maximal entry, with every earlier entry strictly smaller |
| SinglePlatformTdoa.PeakOf | models/src/SinglePlatformTDOA.cpp:46-47 | the peak index minus maxLag lies in the lag window [-maxLag, maxLag] |
| SinglePlatformTdoa.CorrelationGuardExampleCorrected | models/src/SinglePlatformTDOA.cpp:24-51 | for s1 = [0, 1] and s2 = [1, 0], s1 being s2 delayed by one sample, the corrected array is [0, 0, 1] and peaks at lag +1 |
| SinglePlatformTdoa.CorrelationGuardExampleAsWritten | models/src/SinglePlatformTDOA.cpp:33-47 | for the same signals, the array as written is [0, 0, 0], so max_element picks its first entry and the peak lag is -1, the wrong sign |
| SinglePlatformTdoa.CorrelationAt | models/src/SinglePlatformTDOA.cpp:34-39 | corrected: the inner loop sums the products s1[i] * s2[i - lag] and counts them over every index that has a partner |
| SinglePlatformTdoa.FirstMaxOf | models/src/SinglePlatformTDOA.cpp:46 | the scan returns the first index of a maximal entry of the array |
| SinglePlatformTdoa.TimeDifferenceCorrelation | models/src/SinglePlatformTDOA.cpp:24-51 | the time difference is the peak lag of the corrected correlation divided by the sampling rate |
| SinglePlatformTdoa.CrossCorrelate | models/src/SinglePlatformTDOA.cpp:30-43 | corrected: the array holds the mean product at each lag, index lag + maxLag |
| SinglePlatformTdoa.WrapPhase | models/src/SinglePlatformTDOA.cpp:80-82 | one correction by 2 pi at most, which brings a difference in (-2 pi, 2 pi) into [-pi, pi] |
| SinglePlatformTdoa.PhaseDifference | models/src/SinglePlatformTDOA.cpp:76-82 | the phase of signal 2 minus that of signal 1, reduced by fmod and wrapped, lies in [-pi, pi] |
| SinglePlatformTdoa.HalfPeriodBound | models/src/SinglePlatformTDOA.cpp:85 | a phase in [-pi, pi] over 2 pi f is at most half a period in magnitude |
| SinglePlatformTdoa.TimeDifferencePhase | models/src/SinglePlatformTDOA.cpp:54-86 | the time difference is the wrapped phase difference over the shorter length divided by 2 pi f, so it never exceeds half a period |
| SinglePlatformTdoa.SumsAtFrequency | models/src/SinglePlatformTDOA.cpp:61-74 | the loop accumulates the cosine and sine sums of both signals over the first n samples |
| SinglePlatformTdoa.ObservedGeometry | models/src/SinglePlatformTDOA.cpp:95-183 | the device position at the start and after moving along its velocity for the simulation time, the source position, the two ranges as distances (non-negative), a time difference equal to the range difference over c, a baseline of speed times time, its midpoint and its direction divided by its length |
| SinglePlatformTdoa.ClampUnit | models/src/SinglePlatformTDOA.cpp:196-197 | sin(theta) is clamped into [-1, 1] and left alone inside it |
| SinglePlatformTdoa.ReferenceAxis | models/src/SinglePlatformTDOA.cpp:218-235 | the chosen axis is the one along the baseline's smallest absolute component, x before y before z on ties |
| SinglePlatformTdoa.PerpendicularIsOrthogonal | models/src/SinglePlatformTDOA.cpp:237-240 | the cross product of the baseline with the reference axis is orthogonal to the baseline |
| SinglePlatformTdoa.DirectionAngles | models/src/SinglePlatformTDOA.cpp:280-293 | the azimuth lies in [0, 360) and the elevation, an atan2 with a non-negative horizontal part, already lies in [-90, 90] so the clamp changes nothing |
| SinglePlatformTdoa.GeometricElevation | models/src/SinglePlatformTDOA.cpp:315-325 | the elevation of the source seen from the baseline midpoint lies in [-90, 90] |
| SinglePlatformTdoa.GeometricAzimuth | models/src/SinglePlatformTDOA.cpp:347-368 | the azimuth of the source from the midpoint, raised by 360 when negative, lies in [0, 360) |
| SinglePlatformTdoa.ClampTypical | models/src/SinglePlatformTDOA.cpp:400 | an elevation is clamped into the typical range [-30, 60] and left alone inside it |
| SinglePlatformTdoa.Step | models/src/SinglePlatformTDOA.cpp:372-405 | one correction step keeps the elevation in [-30, 60] and measures a non-negative residual error |
| SinglePlatformTdoa.RefineAngles | models/src/SinglePlatformTDOA.cpp:332-426 | the loop runs between 1 and 10 steps, each started from the previous angles; it stops early only on convergence, no earlier step converged, and the final elevation is in [-30, 60] |
| SinglePlatformTdoa.ChooseElevation | models/src/SinglePlatformTDOA.cpp:428-452 | without the iteration, an elevation above 30 degrees in magnitude or more than 10 degrees from the geometric one is replaced by the geometric elevation |
| SinglePlatformTdoa.TypicalRangeTriggerSubsumed | models/src/SinglePlatformTDOA.cpp:432-445 | the second trigger adds nothing: any elevation outside [-30, 60] is already above 30 in magnitude |
| SinglePlatformTdoa.SectorClamp | models/src/SinglePlatformTDOA.cpp:458-477 | the elevation is moved into the source's sector: raised to its start when below, else lowered to its end when above |
| SinglePlatformTdoa.SectorClampInvertedSector | models/src/SinglePlatformTDOA.cpp:465-471 | with a sector whose start exceeds its end, the result lies outside the sector |
| SinglePlatformTdoa.EstimatedDistance | models/src/SinglePlatformTDOA.cpp:479-498 | the mean of the two ranges, replaced by the direct distance from the midpoint when it falls outside [100 m, 500 km] |
| SinglePlatformTdoa.HeightEstimates | models/src/SinglePlatformTDOA.cpp:519-525 | the tangent and geometric heights rise above the midpoint by the horizontal distance times the tangent of the estimated and of the geometric elevation |
| SinglePlatformTdoa.SelectHeight | models/src/SinglePlatformTDOA.cpp:531-554 | the chosen height is one with the smallest error to the true altitude, method 3 on any tie with it, then method 2 |
| SinglePlatformTdoa.CheckedHeight | models/src/SinglePlatformTDOA.cpp:556-576 | a best height outside [-500, 50000] m or more than 50 % off the true altitude is replaced by the true altitude |
| SinglePlatformTdoa.CheckedHeightIsPlausible | models/src/SinglePlatformTDOA.cpp:556-576 | the stored altitude is either plausible and within half the reference of the truth, or the truth itself |
| SinglePlatformTdoa.TdoaErrors | models/src/SinglePlatformTDOA.cpp:646-698 | exactly five error factors: the time, position, phase and multipath errors, the last in [0.15, 0.3], and the range error from the floored cosine of the incident angle |
| SinglePlatformTdoa.CapAccuracy | models/src/SinglePlatformTDOA.cpp:618-623 | the stored accuracy is capped at 99.999999, the DECIMAL(8,6) limit |
| SinglePlatformTdoa.DirectionAccuracyAlwaysZero | models/src/SinglePlatformTDOA.cpp:627-632 | the errors come in fives, so the sixth factor is never there and the stored direction-finding accuracy is always 0 |
| SinglePlatformTdoa.EstimateAngles | models/src/SinglePlatformTDOA.cpp:185-477 | within 5 degrees of the geometric elevation the angles are the incidence direction's azimuth and its elevation after the geometric fallback; beyond that they are the last step of the whole iteration run started from the geometric elevation and azimuth; either elevation is then clamped to the sector, so for a well-formed sector it lies inside it |
| SinglePlatformTdoa.EstimateHeight | models/src/SinglePlatformTDOA.cpp:479-593 | the three candidate heights are those of the point at the estimated distance along the estimated angles, the stored height is the checked best of them, the accuracy is the largest of their errors, and that accuracy bounds the stored height's error |
| SinglePlatformTdoa.RunSimulation | models/src/SinglePlatformTDOA.cpp:89-643 | the geometry is ObservedGeometry of the device, source and time; the result's angles are those EstimateAngles settles on for that geometry and incident angle; its longitude and latitude are the geodetic position of the point at the estimated distance along those angles, and its altitude the checked best of the three heights, plausible or the truth; the accuracy is the largest of the three height errors and bounds the stored height's error; the elevation lies in the sector; the error factors are TdoaErrors of the baseline, the estimated distance and the incident angle; and the SinglePlatformTask record carries the ids, the times, the result position and the capped accuracies |
| SinglePlatformTdoa.Moved | models/src/SinglePlatformTDOA.cpp:140-142 | the moved position differs from the start by velocity times time in each coordinate |
| SinglePlatformTdoa.Midpoint | models/src/SinglePlatformTDOA.cpp:170-172 | each coordinate of the midpoint is half the sum of the two positions' coordinates |
| SinglePlatformTdoa.IterationStops | models/src/SinglePlatformTDOA.cpp:372-418 | a run whose steps are linked, none of them converged before the last, and whose last step converged is a whole iteration run |
| SinglePlatformTdoa.IterationExhausted | models/src/SinglePlatformTDOA.cpp:372-418 | a linked run of the full ten steps with no converged step is a whole iteration run |
| SinglePlatformTdoa.LocateFrom | models/src/SinglePlatformTDOA.cpp:185-643 | for a given geometry, the same result and task as RunSimulation states from the angle estimation on: the estimated angles, the geodetic point and checked height, the largest height error as accuracy, the sector bound, the five error factors and the task fields |
| SinglePlatformView.ErrorItemsChoice | views/src/SinglePlatformView.cpp:230-264 | five error items in every case, the last always the direction-finding error; a system name containing the TDOA mark gets the TDOA items, else one containing the interferometer mark gets the interferometer items, else the generic ones |
| SinglePlatformView.InitialErrorItems | views/src/SinglePlatformView.cpp:198-199 | the table built with the view shows the interferometer items |
| SinglePlatformView.DeviceComboMeaning | views/src/SinglePlatformView.cpp:352-358 | with at least one device, a name is offered exactly when some moving device carries it; with only fixed devices the list is empty |
| SinglePlatformView.SourceComboMeaning | views/src/SinglePlatformView.cpp:383-389 | with at least one source, a name is offered exactly when some fixed source carries it; with only moving sources the list is empty |
| SinglePlatformView.SelectedDevice | views/src/SinglePlatformView.cpp:277-305 | empty without devices; any non-empty answer is the name of a device in the list |
| SinglePlatformView.SelectedDeviceCases | views/src/SinglePlatformView.cpp:288-302 | a selection naming a device is returned as it is, and one naming no device falls back to the first device's name |
| SinglePlatformView.SimulationTime | views/src/SinglePlatformView.cpp:314-317 | no text reads as 0 seconds |
| SinglePlatformView.SimulationTimeOfDigits | views/src/SinglePlatformView.cpp:314-317 | a whole number of seconds typed as decimal digits is read back unchanged by atoi |
| SinglePlatformView.SinglePlatformView.constructor | views/src/SinglePlatformView.cpp:9-21 | the view starts with no data, no error items, no time text and both marker ids at -1 |
| SinglePlatformView.SinglePlatformView.UpdateErrorTable | views/src/SinglePlatformView.cpp:218-268 | with a table, its items become the five for the system; without one nothing changes; the data and markers are untouched |
| SinglePlatformView.SinglePlatformView.UpdateRadarMarker | views/src/SinglePlatformView.cpp:399-422 | the old marker is removed, and a new marker, whose id is the map's next id, is added exactly when the map has a web view and the selection names a device; otherwise the id is -1 |
| SinglePlatformView.SinglePlatformView.UpdateSourceMarker | views/src/SinglePlatformView.cpp:425-448 | the same for the selected source |
| SinglePlatformView.FirstRowNamesItem | views/src/SinglePlatformView.cpp:354-364 | after a refill with its first row selected, the selection names a listed element exactly when the refill offered some name |
| SinglePlatformView.SinglePlatformView.UpdateDeviceCombo | views/src/SinglePlatformView.cpp:337-365 | the combo box holds the moving devices' names, or the placeholder when there are no devices, with its first row active; the marker is left alone when there are no devices or no map; otherwise it becomes a new marker with the map's next id exactly when the map has a web view and some device moves, and -1 otherwise |
| SinglePlatformView.SinglePlatformView.UpdateSourceCombo | views/src/SinglePlatformView.cpp:368-396 | the combo box holds the fixed sources' names, or the placeholder, with its first row active; the marker is left alone when there are no sources or no map; otherwise it becomes a new marker with the map's next id exactly when the map has a web view and some source is fixed, and -1 otherwise |
| SinglePlatformView.SinglePlatformView.LoadData | views/src/SinglePlatformView.cpp:196-205 | the view keeps all devices and sources read, shows the interferometer error items and fills both combo boxes from the data with their first rows active; each marker is unchanged when its list is empty or there is no map, and is otherwise drawn exactly when the map has a web view and its combo box offers a name |
| SinglePlatformView.SinglePlatformView.OnTechSystemChanged | views/src/SinglePlatformView.cpp:490-508 | the error table is rebuilt for the chosen system (the empty name when none) and both combo boxes are refilled from the unchanged data with their first rows active; the markers follow as in LoadData |
| SinglePlatformView.SinglePlatformView.GetSelectedDevice | views/src/SinglePlatformView.cpp:277-305 | the search loop returns the selected device name as the specification function defines it |
| SinglePlatformView.SinglePlatformView.GetSimulationTime | views/src/SinglePlatformView.cpp:314-317 | the entry's text read by atoi |
| TdoaSolver.SumRangeSplit | models/src/TDOAalgorithm.cpp:16-33 | a dot product over a range splits at any midpoint into the sums over the two parts |
| TdoaSolver.SumRangeRowOp | models/src/TDOAalgorithm.cpp:92-98 | the dot product of a row reduced by f times another row is the original dot product minus f times the other row's |
| TdoaSolver.MultiplyMatrixVector | models/src/TDOAalgorithm.cpp:16-33 | an empty matrix gives the empty vector, a width different from the vector's length is an error, and otherwise entry i is the dot product of row i with the vector |
| TdoaSolver.MultiplyMatrixMatrix | models/src/TDOAalgorithm.cpp:36-57 | an empty factor gives the empty matrix, mismatched inner sizes are an error, and otherwise the product has rows(A) x cols(B) entries, each the dot product of a row of A and a column of B |
| TdoaSolver.Transposed | models/src/TDOAalgorithm.cpp:60-71 | an empty matrix or one with an empty first row gives the empty matrix; otherwise T has cols(A) rows of length rows(A) and T[j][i] = A[i][j] |
| TdoaSolver.TransposeMatrix | models/src/TDOAalgorithm.cpp:60-71 | the double loop builds exactly the transpose |
| TdoaSolver.TransposeTwice | models/src/TDOAalgorithm.cpp:60-71 | transposing a non-empty rectangular matrix twice gives it back |
| TdoaSolver.Swap | models/src/TDOAalgorithm.cpp:85-86 | std::swap exchanges two entries, leaves the others and keeps the multiset of entries |
| TdoaSolver.SwapKeepsSolutions | models/src/TDOAalgorithm.cpp:85-86 | swapping two equations (row and right-hand side together) keeps exactly the same solutions: a vector solves the swapped system if and only if it solves the original |
| TdoaSolver.RowOpKeepsSolutions | models/src/TDOAalgorithm.cpp:92-98 | replacing an equation by itself minus a multiple of another keeps exactly the same solutions, in both directions |
| TdoaSolver.PivotRow | models/src/TDOAalgorithm.cpp:79-84 | the pivot row lies in [i, n), its entry in column i has the largest magnitude there, and every earlier row's is strictly smaller (the first maximum, since the scan uses a strict >) |
| TdoaSolver.SelectPivot | models/src/TDOAalgorithm.cpp:79-84 | the scan returns PivotRow |
| TdoaSolver.SubtractRow | models/src/TDOAalgorithm.cpp:94-96 | entries i to n-1 of the row lose factor times the pivot row's entries, the others stay |
| TdoaSolver.EliminateFromRows | models/src/TDOAalgorithm.cpp:92-98 | the elimination loop from row k on leaves rows before k as they were and replaces each later row and right-hand side by itself minus factor A[r][i] / A[i][i] times the pivot row |
| TdoaSolver.EliminateFromKeepsSolutions | models/src/TDOAalgorithm.cpp:92-98 | that elimination keeps exactly the solutions of the system |
| TdoaSolver.StepKeepsStaged | models/src/TDOAalgorithm.cpp:77-98 | a swap with a row from i on followed by elimination below a pivot of at least 1e-12 clears column i below the diagonal, keeps earlier columns clear and keeps the solutions |
| TdoaSolver.ReduceRow | models/src/TDOAalgorithm.cpp:93-97 | one pass of the elimination loop: the pivot row stays and the rest of the elimination gives the same system as from the row before |
| TdoaSolver.EliminateBelow | models/src/TDOAalgorithm.cpp:92-98 | the loop gives exactly the eliminated system: rows up to the pivot unchanged, each later row and right-hand side reduced entry by entry by its factor, and the same solutions |
| TdoaSolver.EliminationStep | models/src/TDOAalgorithm.cpp:77-98 | the pivot is PivotRow; the step is singular exactly when its magnitude is below 1e-12; otherwise the result is the elimination of the swapped system, clear below the diagonal up to column i, with the original solutions |
| TdoaSolver.ForwardMeaning | models/src/TDOAalgorithm.cpp:76-99 | a forward elimination that does not throw ends with an upper-triangular system with a non-zero diagonal and the solutions of the one it started from |
| TdoaSolver.ForwardEliminate | models/src/TDOAalgorithm.cpp:76-99 | the outer loop returns exactly the forward elimination Forward: the singular error at the first pivot below 1e-12, else the reduced system |
| TdoaSolver.BackSubstitute | models/src/TDOAalgorithm.cpp:101-109 | on an upper-triangular system with a non-zero diagonal, the loop returns the back-substitution solution, and that vector solves the system |
| TdoaSolver.BackFromSolves | models/src/TDOAalgorithm.cpp:101-109 | back substitution from row i down, once rows above i are satisfied, yields a solution of the triangular system |
| TdoaSolver.BackFromUnique | models/src/TDOAalgorithm.cpp:101-109 | back substitution gives the only solution of the triangular system: any solution that agrees on the entries already fixed is the one it returns |
| TdoaSolver.SolveExact | models/src/TDOAalgorithm.cpp:74-110 | an answer of solveLinearSystem solves the system, and every solution of the system equals it |
| TdoaSolver.SolveLinearSystem | models/src/TDOAalgorithm.cpp:74-110 | the result is Solve of the input (the empty vector for an empty system, the singular error when forward elimination throws, the back-substitution answer otherwise), and an answer solves the original system |
| TdoaSolver.NormalEquations | models/src/TDOAalgorithm.cpp:366-368 | the transpose-and-multiply steps yield G^T G and G^T h, a square system of the width of G |
| TdoaSolver.ChanEstimateMeaning | models/src/TDOAalgorithm.cpp:339-379 | with four or more stations, Chan's estimate is the origin when the normal-equation solve throws, and otherwise the only solution of G^T G x = G^T h shifted back by station 0 |
| TdoaSolver.ChanInitial | models/src/TDOAalgorithm.cpp:339-379 | the method returns ChanEstimate: the origin for fewer than four stations, else the Chan rows' normal-equation solution shifted by station 0 or the origin when the solve throws |
| TdoaSolver.TaylorSystem | models/src/TDOAalgorithm.cpp:392-413 | the loop fills H with the Jacobian rows and delta_rho with the TDOA residuals at the current position |
| TdoaSolver.ScaleByC | models/src/TDOAalgorithm.cpp:421-424 | every entry of H^T delta_rho is multiplied by c |
| TdoaSolver.TaylorCorrectionMeaning | models/src/TDOAalgorithm.cpp:415-427 | an answered correction is the only solution of the normal equations H^T H dx = c H^T delta_rho |
| TdoaSolver.Correction | models/src/TDOAalgorithm.cpp:415-427 | the method returns TaylorCorrection of the current position |
| TdoaSolver.TaylorPathStep | models/src/TDOAalgorithm.cpp:382-452 | each move along the Taylor path is the correction the rule gives there, and every correction before the last move is at least 1e-4 long |
| TdoaSolver.TaylorPathEnd | models/src/TDOAalgorithm.cpp:382-452 | a path shorter than the iteration limit ends because the solve threw at its last position or because its last correction was shorter than 1e-4 |
| TdoaSolver.TaylorPathContinues | models/src/TDOAalgorithm.cpp:436-442 | after a correction of at least 1e-4 the loop ends where the path from the moved position ends |
| TdoaSolver.TaylorIteration | models/src/TDOAalgorithm.cpp:392-447 | one pass of the loop either stops at the end of the Taylor path or moves to a position whose remaining path ends at the same place |
| TdoaSolver.TaylorRefine | models/src/TDOAalgorithm.cpp:382-452 | the method returns TaylorRefinement: the initial guess for fewer than four stations, else the last position of the Taylor path from the guess |
| TdoaAlgorithm.TaylorFromPath | models/src/TDOAalgorithm.cpp:382-452 | the Taylor loop written as a recursion returns the last position of the Taylor path |
| TdoaAlgorithm.FixRefinesChan | models/src/TDOAalgorithm.cpp:286-290 | the position calculate computes is TaylorRefinement of ChanEstimate on the reordered stations and TDOAs, that is, tdoaRefinePosition_taylor applied to tdoaLocate_chan_initial |
| TdoaAlgorithm.DistancesToCentroid | models/src/TDOAalgorithm.cpp:250-262 | one non-negative distance from each station to the centroid of all stations |
| TdoaAlgorithm.SelectReference | models/src/TDOAalgorithm.cpp:259-267 | the reference is the first station nearest the centroid, 0 without stations |
| TdoaAlgorithm.FirstMinimumUnique | models/src/TDOAalgorithm.cpp:259-267 | the first nearest station is unique, so the reference is determined by the stations |
| TdoaAlgorithm.RelativeTdoas | models/src/TDOAalgorithm.cpp:276-282 | entry 0 is 0 and entry i is the arrival time of station i minus that of the reference |
| TdoaAlgorithm.SwapReference | models/src/TDOAalgorithm.cpp:271-282 | after swapping a new reference into place, the old reference's TDOA is the negated TDOA of the new one and every other TDOA shifts by it |
| TdoaAlgorithm.ConvertStations | models/src/TDOAalgorithm.cpp:229-239 | the loop converts every device's geodetic position to Cartesian, in order |
| TdoaAlgorithm.ComputeArrivalTimes | models/src/TDOAalgorithm.cpp:244-247 | the loop fills each station's ideal arrival time, its distance to the source over c |
| TdoaAlgorithm.Locate | models/src/TDOAalgorithm.cpp:250-290 | the reference is the first station nearest the centroid and the fix is Fix: Chan and Taylor on the lists with the reference swapped to the front |
| TdoaAlgorithm.Report | models/src/TDOAalgorithm.cpp:297-310 | the stored longitude, latitude and altitude are the geodetic form of the fix, with zero velocity and angles, the simulation time, the fix's distance from the Earth's centre and its distance from the true source as accuracy, both non-negative |
| TdoaAlgorithm.TdoaAlgorithm.constructor | models/src/TDOAalgorithm.cpp:137-139 | a new algorithm has simulation time 0, a zero result and no devices or names |
| TdoaAlgorithm.TdoaAlgorithm.Init | models/src/TDOAalgorithm.cpp:145-165 | the parameters are stored, the loaded devices are forgotten and the result is zeroed |
| TdoaAlgorithm.TdoaAlgorithm.LoadDeviceInfo | models/src/TDOAalgorithm.cpp:168-191 | an empty device table fails; otherwise the devices matching the names are appended in name order, and loading succeeds exactly when every name matched and at least four devices are loaded |
| TdoaAlgorithm.TdoaAlgorithm.LoadSourceInfo | models/src/TDOAalgorithm.cpp:194-208 | loading succeeds exactly when some source has the name, and then the first such source is kept; otherwise the source is unchanged |
| TdoaAlgorithm.TdoaAlgorithm.LoadInputs | models/src/TDOAalgorithm.cpp:213-215 | both loads succeed exactly when the device table is non-empty, every name matched, at least four devices are loaded and the source is found; the devices are the old list with the matched rows appended (untouched for an empty table) whatever the outcome, and the source is the first one with the name on success and unchanged on failure |
| TdoaAlgorithm.TdoaAlgorithm.LocateAndReport | models/src/TDOAalgorithm.cpp:229-310 | with the loaded devices and source, the reference is the first station nearest the centroid, the fix is Fix of the stations and their ideal arrival times, and the result is Report of that fix |
| TdoaAlgorithm.TdoaAlgorithm.Calculate | models/src/TDOAalgorithm.cpp:211-324 | calculate succeeds exactly when both loads succeed, and a failure leaves the result and the source unchanged while the matched devices stay appended (for a non-empty table); on success the devices and source are those loaded, the reference is the first station nearest the centroid, the fix is Fix (Chan refined by Taylor), and the result is Report of that fix against the true source |
| TdoaErrorCircle.LoadDeviceInfo | utils/HyperbolaLines.cpp:228-241 | the selected devices are the first device of each known name, in name order, unknown names skipped, and loading succeeds exactly when at least three are selected |
| TdoaErrorCircle.Stations | utils/HyperbolaLines.cpp:314-318 | one Cartesian station per selected device |
| TdoaErrorCircle.StationPositions | utils/HyperbolaLines.cpp:314-318 | the conversion loop yields exactly those stations, in order |
| TdoaErrorCircle.TrueTdoa | utils/HyperbolaLines.cpp:328-333 | c times the TDOA of a slave is how much farther it is from the target than the reference station, so it is positive, zero or negative exactly as the slave is farther, equally far or nearer |
| TdoaErrorCircle.TrueTdoas | utils/HyperbolaLines.cpp:327-333 | one true TDOA per slave: none without stations, N - 1 with N |
| TdoaErrorCircle.ComputeTrueTdoas | utils/HyperbolaLines.cpp:327-333 | the loop yields exactly the true TDOAs |
| TdoaErrorCircle.FirstAccepted | utils/HyperbolaLines.cpp:346-349 | a settled error is accepted by the loop condition, so it lies within three sigma of the mean |
| TdoaErrorCircle.FirstAcceptedIsFirst | utils/HyperbolaLines.cpp:346-349 | the do-while loop stops exactly when some draw is accepted, and then on the first accepted draw |
| TdoaErrorCircle.TruncatedError | utils/HyperbolaLines.cpp:346-349 | the drawing loop returns the first accepted error |
| TdoaErrorCircle.NegativeSigmaNeverAccepts | utils/HyperbolaLines.cpp:346-349 | with a negative sigma no draw is ever accepted, so the drawing loop does not end |
| TdoaErrorCircle.TdoaError | utils/HyperbolaLines.cpp:344-351 | the error added to a TDOA lies within three sigma of the mean |
| TdoaErrorCircle.Noisy | utils/HyperbolaLines.cpp:343-352 | one noisy TDOA per true TDOA |
| TdoaErrorCircle.NoisyBounds | utils/HyperbolaLines.cpp:343-352 | every noisy TDOA lies within three sigma of its true TDOA shifted by the mean |
| TdoaErrorCircle.AddNoise | utils/HyperbolaLines.cpp:343-352 | the copy with each error added in place is exactly the noisy TDOAs |
| TdoaErrorCircle.RowResidual | utils/HyperbolaLines.cpp:362-385 | the residual of a slave's row at a point is the difference of its squared distances to the two stations minus the TDOA term |
| TdoaErrorCircle.RowOnBisector | utils/HyperbolaLines.cpp:362-385 | with a zero TDOA, a point satisfies the row exactly when it is as far from the slave as from the reference station |
| TdoaErrorCircle.Rows | utils/HyperbolaLines.cpp:359-385 | one row of A and b per slave |
| TdoaErrorCircle.BuildRows | utils/HyperbolaLines.cpp:359-385 | the loop fills exactly those rows |
| TdoaErrorCircle.FixSolves | utils/HyperbolaLines.cpp:387-431 | the iteration is skipped exactly when the determinant of A^T A is below 1e-10 in magnitude, and otherwise its point solves the normal equations |
| TdoaErrorCircle.FixExact | utils/HyperbolaLines.cpp:387-431 | a point satisfying every row is the point found, whenever the iteration is not skipped |
| TdoaErrorCircle.EquidistantFix | utils/HyperbolaLines.cpp:359-431 | with zero TDOAs, a point as far from every slave as from the reference is the point found |
| TdoaErrorCircle.Iteration | utils/HyperbolaLines.cpp:342-431 | one iteration adds noise, builds the rows and yields their fix, or nothing when skipped |
| TdoaErrorCircle.Fixes | utils/HyperbolaLines.cpp:341-440 | one outcome per iteration |
| TdoaErrorCircle.KeptCount | utils/HyperbolaLines.cpp:412-440 | at most one point per iteration is kept, and exactly one when no iteration is skipped |
| TdoaErrorCircle.KeptFromFixes | utils/HyperbolaLines.cpp:412-440 | a point is kept exactly when some iteration found it |
| TdoaErrorCircle.KeptPrefix | utils/HyperbolaLines.cpp:439 | the points of an earlier run are a prefix of those of a longer run: push_back keeps the order |
| TdoaErrorCircle.Deviation | utils/HyperbolaLines.cpp:433-438 | the deviation keeps only the horizontal error, its third coordinate is 0 |
| TdoaErrorCircle.Deviations | utils/HyperbolaLines.cpp:433-438 | one deviation per kept point |
| TdoaErrorCircle.Cep | utils/HyperbolaLines.cpp:442-454 | the CEP radius from the covariance eigenvalues of the deviations is never negative |
| TdoaErrorCircle.EstimatePoints | utils/HyperbolaLines.cpp:336-440 | the loop keeps the found points in order and pushes their deviations alongside |
| TdoaErrorCircle.CalculateTdoaErrorCircle | utils/HyperbolaLines.cpp:293-457 | fewer than three devices or an unknown source give the default result; otherwise the target, at most 100 points found in order, and the non-negative CEP radius of their deviations |
| TrajectorySimulator.Points | models/src/TrajectorySimulator.cpp:60-104 | one point per second plus the start: the first is the initial longitude and latitude, point i the ground position after i seconds on the straight Earth-centred line |
| TrajectorySimulator.TrajectoryShape | models/src/TrajectorySimulator.cpp:61-104 | a trajectory has max(simulationTime, 0) + 1 points, so a non-positive time gives the start alone, and it starts at the initial position |
| TrajectorySimulator.PointsPrefix | models/src/TrajectorySimulator.cpp:68-104 | simulating for longer only appends points: the shorter trajectory is a prefix of the longer one |
| TrajectorySimulator.ZeroVelocityStaysPut | models/src/TrajectorySimulator.cpp:64-81 | with zero velocity every later point is the start converted to Earth-centred coordinates and back |
| TrajectorySimulator.SimulateMovement | models/src/TrajectorySimulator.cpp:20-108 | the points are the trajectory; the target's longitude, latitude and altitude become the last position exactly when there is a step, the update is asked for and there is a target, with the device or the source setters as the kind says, and nothing else changes |
| TrajectorySimulator.SimulateDeviceMovement | models/src/TrajectorySimulator.cpp:111-127 | the device's own position and motion give the trajectory, and the device moves to its last point whenever at least one second is simulated |
| TrajectorySimulator.SimulateSourceMovement | models/src/TrajectorySimulator.cpp:130-146 | the same for a source |
| TrajectorySimulator.AnimateDeviceMovement | models/src/TrajectorySimulator.cpp:149-186 | nothing happens without a map view or without points; otherwise the script's point array lists the given trajectory in order |
| TrajectorySimulator.AnimateMultipleDevicesMovement | models/src/TrajectorySimulator.cpp:370-692 | nothing happens without a map view or devices; otherwise each device and the source are simulated on copies, so the trajectories are those of their own fields and the caller's objects keep their positions |

## Left out

- Floating point: doubles and floats are exact reals. Rounding, overflow, infinities and NaN are not modelled. Where the source divides by a value that may be zero, the quotient is `Math.div`, which is left unspecified for a zero divisor. The `DBL_MAX` sentinels become `None`.
- Library maths: `sqrt`, `atan2`, trigonometry, `fmod` and the geodetic conversions of utils/CoordinateTransform.cpp (lbh2xyz, xyz2lbh, velocity_lbh2xyz, distances) are functions carried in a `Math` value. The proofs use only the laws `Common.Lawful` states, because the library's code is not part of this model.
- Link budget: calculateSNR and calculateMaxDetectionRange in utils/SNRCalculator.cpp are received as an `SnrModel`. Their formulas are not modelled.
- Randomness: every random draw (normal errors, uniform noise, rejection loops) is an input sequence or function. Claims about the distributions are out of scope.
- Eigen: the QR solve of each Gauss-Newton step and the matrix inverse behind the GDOP in DirectionFindingAlgorithm.cpp are inputs. The least-squares step of the TDOA error circle is modelled by an exact adjugate solve.
- Database and DAO singletons: tables are sequences of rows passed in. SQL text, connections and insert/update results are not modelled.
- ReconnaissanceDeviceModel.FindById: looks up the first row with the id, or gives a default device. The repository's ReconnaissanceDeviceDAO::getReconnaissanceDeviceById is a stub that always returns a default device, so the lookup models the evident intent and not that stub.
- GTK: widgets, dialogs, signal wiring, layout and styles are not modelled. A spin button is the value it holds clamped to its range; its rounding to the displayed digits is not modelled. A combo box is its list of texts and active index. The user's row selection and typed text are inputs.
- The "changed" signals that `remove_all` and `set_active` fire while a view refills a combo box are not modelled, so neither are the extra marker updates they would cause.
- MultiPlatformView: the map view is assumed to exist, because createView always builds it.
- Map markers: the static counter behind marker ids is a shared `MarkerCounter` object.
- JavaScript and Cesium: a script is the `Script` value carrying the data the C++ code writes into it. Its text and its effect on the globe are not modelled.
- File system: which page paths exist, and their absolute forms, are inputs of `MapView`.
- Messages and logging: message boxes, `std::cout` output and failure texts are not modelled. Only the values a message reports (a device, a frequency, an angle) are kept.
- Display strings: getFreqRangeString and getAngleRangeString in ReconnaissanceDeviceModel.cpp only format text for the list view.
- FdoaAlgorithm: calculateMinimumTimeInterval (FDOAalgorithm.cpp:91-156) is left out because its result is only printed.
- InterferometerPositioning: calculateLocationData is not modelled because nothing calls it. The cone-effect table and the error constants come from a header that is not part of this model, so the model receives them as `Constants`.
- InterferometerPositioning.StoredTask: keeps the SinglePlatformTask fields that both runSimulation functions fill. The interferometer also stores targetAngle and maxPositioningDistance, and single-platform TDOA stores azimuth, elevation and positioningDistance. Those extra values are not modelled. The last three are not declared in the SinglePlatformTask of models/SinglePlatformTaskDAO.h, so the actual struct is not part of this model.
- DirectionFindingAlgorithm.Locate: stores the position error capped at 1000 km, the corrected behaviour recorded under Findings. The source stores it uncapped, as PositionErrorCapIneffective shows.
- TdoaSolver.TaylorRefine: the Jacobian and residuals of each Taylor iteration are those the source computes, but their limit is not related to a least-squares optimum of the TDOA equations; the model proves what the loop returns, not that it converges.
- TdoaSolver.ChanInitial: the estimate is the exact solution of the normal equations the source forms; that this is the emitter position for noise-free TDOAs is not proved.
- HyperbolaLines: the samples are not proved to lie on their hyperbola, because that needs the identity sec² − tan² = 1, which is not among the `Math` laws. The static loaders of class HyperbolaLines are modelled once, as the row lookups they perform. The signature that utils/HyperbolaLines.h declares for drawTDOAHyperbolas differs from the definition; the model follows the definition.
- TdoaErrorCircle.CalculateTdoaErrorCircle: modelled only for draws the rejection loop eventually accepts (the `Terminates` precondition). With a negative sigma no draw is ever accepted (NegativeSigmaNeverAccepts), and the loop that never ends is not modelled.
- TdoaErrorCircle.EquidistantFix: the linearised row is exact only on the bisector (`RowOnBisector` covers a zero time difference). The error of the simplified Chan linearisation elsewhere is not bounded.
- Decimal: `atoi` on numbers outside the `int` range (undefined behaviour in C) is not modelled.
- MapView.Stod: std::stod is modelled for digits and at most one decimal point; exponents, signs, hexadecimal, infinity and NaN are not.
- The DFResult and TDOAResult headers are not part of this model. The results are records holding the fields the .cpp files set.
- The object simulateMovement updates, given as `objectPtr` plus an `isDevice` flag is the datatype `TrajectorySimulator.Target`.
- Controllers, legacy pages (the src/*_page.cpp files and the older src/*.cpp models), evaluation views and DirectionErrorLines are context only and are not modelled.

## Findings

| source | as written | input that shows it | evidently intended | confidence | as-written member | corrected member |
|---|---|---|---|---|---|---|
| models/src/SinglePlatformTDOA.cpp:36 | the inner loop's guard `i - lag >= 0` is false at i = 0 for every positive lag, so the loop stops at once and every positive lag keeps correlation 0 | s1 = [0, 1], s2 = [1, 0]: the as-written correlations are [0, 0, 0] and the peak lag is -1 | skip the indices where `i - lag` is out of range instead of ending the loop: correlations [0, 0, 1], peak lag 1 | high; not executed | SinglePlatformTdoa.CorrelationGuardExampleAsWritten | SinglePlatformTdoa.CorrelationGuardExampleCorrected |
| models/src/DirectionFindingAlgorithm.cpp:424-430 | errorFactors is stored before positionError is capped at 1000 km, so the cap never reaches the stored result | gdop 5, positionError 2000000: the stored position error is 2000000 | store the capped value, at most 1000000 m | high; not executed | DirectionFindingAlgorithm.PositionErrorCapIneffective | DirectionFindingAlgorithm.ErrorFactors |
| utils/HyperbolaLines.cpp:157-162 | slave i reads `tdoas[i]`, while the guard and the loop provide one TDOA per slave, at index i - 1 | 4 stations and 3 TDOAs: slave 3 reads tdoas[3], one past the end | slave i reads tdoas[i - 1] | high; not executed | HyperbolaLines.TdoaIndexAsWrittenOverruns | HyperbolaLines.TdoaIndexInRange |
| views/src/MultiPlatformView.cpp:357-358 | the simulation-time entry is searched from the parent of the first radar frame, the radar grid, which does not contain it, so the default of 20 s is always used | the entry holds "60": the request carries 20 s | read the time entry the page shows | medium; not executed | MultiPlatformView.SimulationTimeAsWritten | MultiPlatformView.SimulationTime |
