/** models/src/DirectionFindingAlgorithm.cpp: multi-station direction
    finding. Each station's bearing and elevation to the source are measured
    with a random error, a weighted Gauss-Newton (Taylor series) loop refines
    a first guess, and the height is then fused from three estimates. The
    random draws, the Eigen solve of each Gauss-Newton step and the Eigen
    inverse behind the GDOP are inputs of the model. */
module DirectionFindingAlgorithm {
  import opened Common
  import ReconnaissanceDeviceModel
  import RadiationSourceModel
  import AngleValidator

  // ---------------------------------------------------------------------
  // calculateDirectionError

  /** Longer baselines shrink the error: 1 / (1 + L/10), or 1 without a
      positive baseline. */
  function BaselineFactor(baselineLength: real): (f: real)
    ensures 0.0 < f <= 1.0
    ensures baselineLength <= 0.0 ==> f == 1.0
  {
    if baselineLength > 0.0 then 1.0 / (1.0 + baselineLength / 10.0) else 1.0
  }

  /** Faster sampling shrinks the error: 1 / (1 + rate/1000), or 1 without a
      positive rate. */
  function SampleRateFactor(sampleRate: real): (f: real)
    ensures 0.0 < f <= 1.0
    ensures sampleRate <= 0.0 ==> f == 1.0
  {
    if sampleRate > 0.0 then 1.0 / (1.0 + sampleRate / 1000.0) else 1.0
  }

  const BaseError: real := 3.0
  const MinDirectionError: real := 1.0
  const MaxDirectionError: real := 10.0

  /** calculateDirectionError: 3 degrees scaled by the baseline, noise and
      sample-rate factors, then clamped to [1, 10]. */
  function DirectionError(d: ReconnaissanceDeviceModel.Device): (e: real)
    ensures MinDirectionError <= e <= MaxDirectionError
  {
    var noiseFactor := 1.0 + Abs(d.noisePsd) / 100.0;
    var error := BaseError * BaselineFactor(d.baselineLength) * noiseFactor * SampleRateFactor(d.sampleRate);
    Max(MinDirectionError, Min(MaxDirectionError, error))
  }

  /** A longer baseline never gives a larger baseline factor. */
  lemma BaselineFactorDecreasing(l1: real, l2: real)
    requires l1 <= l2
    ensures BaselineFactor(l2) <= BaselineFactor(l1)
  {
    if l2 > 0.0 {
      var d2 := 1.0 + l2 / 10.0;
      if l1 > 0.0 {
        var d1 := 1.0 + l1 / 10.0;
        assert 1.0 <= d1 <= d2;
        ReciprocalAntitone(d1, d2);
      }
    }
  }

  lemma ReciprocalAntitone(a: real, b: real)
    requires 0.0 < a <= b
    ensures 1.0 / b <= 1.0 / a
  {
    var x, y := 1.0 / a, 1.0 / b;
    assert x * a == 1.0 && y * b == 1.0;
    assert y > 0.0;
    assert y * a <= y * b;
    assert (x - y) * a == 1.0 - y * a;
    NonNegativeFactor(x - y, a);
  }

  /** A product with a positive factor is non-negative only when the other
      factor is. */
  lemma NonNegativeFactor(u: real, a: real)
    requires a > 0.0 && u * a >= 0.0
    ensures u >= 0.0
  {
  }

  // ---------------------------------------------------------------------
  // Measured angles and residuals

  /** A measured azimuth receives a single +360 when negative and then a
      single -360 when at or above 360. */
  function WrapMeasuredAzimuth(azimuth: real): real
  {
    var a := if azimuth < 0.0 then azimuth + 360.0 else azimuth;
    if a >= 360.0 then a - 360.0 else a
  }

  /** One correction is enough for raw values in [-360, 720), which covers a
      true azimuth in [0, 360) plus an error in [-360, 360). */
  lemma WrapMeasuredAzimuthRange(azimuth: real)
    requires -360.0 <= azimuth < 720.0
    ensures 0.0 <= WrapMeasuredAzimuth(azimuth) < 360.0
    ensures WrapMeasuredAzimuth(azimuth) == azimuth || WrapMeasuredAzimuth(azimuth) == azimuth + 360.0 ||
            WrapMeasuredAzimuth(azimuth) == azimuth - 360.0
  {
  }

  /** Beyond that range the single correction does not reach [0, 360). */
  lemma WrapMeasuredAzimuthSingleStep()
    ensures WrapMeasuredAzimuth(800.0) == 440.0 && WrapMeasuredAzimuth(-400.0) == -40.0
  {
  }

  /** Elevations are clamped to [-90, 90]. */
  function ClampElevation(elevation: real): (r: real)
    ensures -90.0 <= r <= 90.0
    ensures -90.0 <= elevation <= 90.0 ==> r == elevation
  {
    Max(-90.0, Min(90.0, elevation))
  }

  /** The azimuth residual of the Taylor loop: measured minus computed,
      folded once by -360 above 180 and once by +360 below -180. */
  function AzimuthResidual(measured: real, computed: real): real
  {
    var diff := measured - computed;
    var d := if diff > 180.0 then diff - 360.0 else diff;
    if d < -180.0 then d + 360.0 else d
  }

  /** For raw differences in [-540, 540] the residual lies in [-180, 180]
      and differs from the raw difference by a whole turn at most. */
  lemma AzimuthResidualRange(measured: real, computed: real)
    requires -540.0 <= measured - computed <= 540.0
    ensures -180.0 <= AzimuthResidual(measured, computed) <= 180.0
    ensures var r := AzimuthResidual(measured, computed);
            r == measured - computed || r == measured - computed - 360.0 || r == measured - computed + 360.0
  {
  }

  /** Two azimuths in [0, 360) are always within the range above. */
  lemma AzimuthResidualOfNormalised(measured: real, computed: real)
    requires 0.0 <= measured < 360.0 && 0.0 <= computed < 360.0
    ensures -180.0 <= AzimuthResidual(measured, computed) <= 180.0
  {
    AzimuthResidualRange(measured, computed);
  }

  /** The weight of an azimuth row: the inverse variance 1 / e^2. */
  function AzimuthWeight(e: real): (w: real)
    requires e != 0.0
    ensures w > 0.0 && w * (e * e) == 1.0
  {
    1.0 / (e * e)
  }

  /** The weight of an elevation row, whose error is taken as half the
      azimuth error: 1 / (0.5 e)^2, four times the azimuth weight. */
  function ElevationWeight(e: real): (w: real)
    requires e != 0.0
    ensures w == 4.0 * AzimuthWeight(e) && w > 0.0
  {
    QuarterSquareReciprocal(e);
    1.0 / (0.5 * e * 0.5 * e)
  }

  lemma QuarterSquareReciprocal(e: real)
    requires e != 0.0
    ensures 1.0 / (0.5 * e * 0.5 * e) == 4.0 * (1.0 / (e * e))
  {
    var sq := e * e;
    assert 0.5 * e * 0.5 * e == sq / 4.0;
  }

  /** calculateWeightMatrix, as its diagonal: the azimuth rows of all
      stations, then their elevation rows. */
  function WeightDiagonal(errors: seq<real>): (w: seq<real>)
    requires forall i :: 0 <= i < |errors| ==> errors[i] != 0.0
    ensures |w| == 2 * |errors|
    ensures forall i :: 0 <= i < |errors| ==> w[i] == AzimuthWeight(errors[i])
    ensures forall i :: |errors| <= i < 2 * |errors| ==> w[i] == ElevationWeight(errors[i - |errors|])
  {
    var n := |errors|;
    seq(2 * n, k requires 0 <= k < 2 * n =>
      if k < n then AzimuthWeight(errors[k]) else ElevationWeight(errors[k - n]))
  }

  /** The Taylor loop weighs every station as if its error were 1: azimuth
      rows by 1 and elevation rows by 4. */
  lemma UnitErrorWeights(n: nat)
    ensures |WeightDiagonal(UnitErrors(n))| == 2 * n
    ensures forall i :: 0 <= i < n ==> WeightDiagonal(UnitErrors(n))[i] == 1.0
    ensures forall i :: n <= i < 2 * n ==> WeightDiagonal(UnitErrors(n))[i] == 4.0
  {
    assert AzimuthWeight(1.0) == 1.0;
  }

  /** The error list the Taylor loop passes: 1 for every station. */
  function UnitErrors(n: nat): (e: seq<real>)
    ensures |e| == n && forall i :: 0 <= i < n ==> e[i] == 1.0
  {
    seq(n, _ => 1.0)
  }

  /** The weighted residual sum B^T W B over the stations from index 0 up to
      k, for a diagonal weight `w`. Residuals are in radians. */
  function ResidualSum(m: Math, stations: seq<Coord3>, azimuths: seq<real>, elevations: seq<real>,
                       w: seq<real>, pos: Coord3, k: nat): real
    requires Lawful(m) && k <= |stations| && |azimuths| == |stations| && |elevations| == |stations|
    requires |w| == 2 * |stations|
  {
    if k == 0 then 0.0
    else
      ResidualSum(m, stations, azimuths, elevations, w, pos, k - 1) +
      StationResidual(m, stations[k - 1], azimuths[k - 1], elevations[k - 1], w[k - 1], w[k - 1 + |stations|], pos)
  }

  /** One station's share of B^T W B: its azimuth and elevation residuals,
      in radians, squared and weighted. */
  function StationResidual(m: Math, station: Coord3, azimuth: real, elevation: real,
                           azWeight: real, elWeight: real, pos: Coord3): real
    requires Lawful(m)
  {
    var computed := AngleValidator.AzimuthElevation(m, station, pos);
    var az := AzimuthResidual(azimuth, computed.0) * Deg2Rad;
    var el := (elevation - computed.1) * Deg2Rad;
    az * azWeight * az + el * elWeight * el
  }

  lemma StationResidualNonNegative(m: Math, station: Coord3, azimuth: real, elevation: real,
                                   azWeight: real, elWeight: real, pos: Coord3)
    requires Lawful(m) && azWeight >= 0.0 && elWeight >= 0.0
    ensures StationResidual(m, station, azimuth, elevation, azWeight, elWeight, pos) >= 0.0
  {
    var computed := AngleValidator.AzimuthElevation(m, station, pos);
    var az := AzimuthResidual(azimuth, computed.0) * Deg2Rad;
    var el := (elevation - computed.1) * Deg2Rad;
    WeightedSquare(az, azWeight);
    WeightedSquare(el, elWeight);
  }

  /** With non-negative weights no residual sum is negative. */
  lemma {:induction false} ResidualSumNonNegative(m: Math, stations: seq<Coord3>, azimuths: seq<real>,
                                                  elevations: seq<real>, w: seq<real>, pos: Coord3, k: nat)
    requires Lawful(m) && k <= |stations| && |azimuths| == |stations| && |elevations| == |stations|
    requires |w| == 2 * |stations| && forall i :: 0 <= i < |w| ==> w[i] >= 0.0
    ensures ResidualSum(m, stations, azimuths, elevations, w, pos, k) >= 0.0
  {
    if k > 0 {
      ResidualSumNonNegative(m, stations, azimuths, elevations, w, pos, k - 1);
      StationResidualNonNegative(m, stations[k - 1], azimuths[k - 1], elevations[k - 1],
                                 w[k - 1], w[k - 1 + |stations|], pos);
    }
  }

  lemma WeightedSquare(x: real, c: real)
    requires c >= 0.0
    ensures x * c * x >= 0.0
  {
    SquareNonNegative(x);
    assert x * c * x == c * (x * x);
    assert c * (x * x) >= 0.0;
  }

  /** residualSumSquares of one Taylor iteration: every station with error 1. */
  function Residual(m: Math, stations: seq<Coord3>, azimuths: seq<real>, elevations: seq<real>, pos: Coord3): real
    requires Lawful(m) && |azimuths| == |stations| && |elevations| == |stations|
  {
    ResidualSum(m, stations, azimuths, elevations, WeightDiagonal(UnitErrors(|stations|)), pos, |stations|)
  }

  // ---------------------------------------------------------------------
  // refinePositionByTaylor

  const MaxIterations: nat := 10
  const ConvergenceThreshold: real := 0.001
  const DampingFactor: real := 0.5
  const MaxStepSize: real := 1000.0
  const MaxPositionChange: real := 100000.0

  /** The Euclidean norm of a step, Eigen's norm(). */
  function Norm(m: Math, v: Coord3): real
  {
    m.sqrt(SumSquares(v.p1, v.p2, v.p3))
  }

  function ScaleBy(v: Coord3, k: real): Coord3
  {
    Coord3(v.p1 * k, v.p2 * k, v.p3 * k)
  }

  /** Scaling by k >= 0 scales the norm by k. */
  lemma NormScale(m: Math, v: Coord3, k: real)
    requires Lawful(m) && k >= 0.0
    ensures Norm(m, ScaleBy(v, k)) == k * Norm(m, v)
  {
    SumSquaresNonNegative(v.p1, v.p2, v.p3);
    var n := m.sqrt(SumSquares(v.p1, v.p2, v.p3));
    var kn := k * n;
    ScaledSumSquares(v.p1, v.p2, v.p3, k, n, kn);
    SqrtOfSquare(m, kn);
    var w := ScaleBy(v, k);
    assert Norm(m, w) == m.sqrt(kn * kn) by {
      assert w.p1 == v.p1 * k && w.p2 == v.p2 * k && w.p3 == v.p3 * k;
    }
    assert Norm(m, v) == n;
  }

  lemma SumSquaresNonNegative(a: real, b: real, c: real)
    ensures SumSquares(a, b, c) >= 0.0
  {
    SquareNonNegative(a);
    SquareNonNegative(b);
    SquareNonNegative(c);
  }

  /** Scaling each coordinate by k >= 0 scales a root n of the sum of
      squares by k. */
  lemma ScaledSumSquares(a: real, b: real, c: real, k: real, n: real, kn: real)
    requires k >= 0.0 && n >= 0.0 && n * n == SumSquares(a, b, c) && kn == k * n
    ensures SumSquares(a * k, b * k, c * k) == kn * kn && kn >= 0.0
  {
    assert (a * k) * (a * k) == (k * k) * (a * a);
    assert (b * k) * (b * k) == (k * k) * (b * b);
    assert (c * k) * (c * k) == (k * k) * (c * c);
    assert SumSquares(a * k, b * k, c * k) == (k * k) * SumSquares(a, b, c);
    assert (k * k) * (n * n) == (k * n) * (k * n);
  }

  /** The damped step, shortened to MaxStepSize when longer, and the step
      norm the loop keeps. */
  function LimitStep(m: Math, step: Coord3): (Coord3, real)
  {
    var deltaX := ScaleBy(step, DampingFactor);
    var deltaXNorm := Norm(m, deltaX);
    if deltaXNorm > MaxStepSize then (ScaleBy(deltaX, MaxStepSize / deltaXNorm), MaxStepSize)
    else (deltaX, deltaXNorm)
  }

  /** The limited step is never longer than MaxStepSize, and the kept norm
      is its length. */
  lemma LimitStepBound(m: Math, step: Coord3)
    requires Lawful(m)
    ensures Norm(m, LimitStep(m, step).0) == LimitStep(m, step).1 <= MaxStepSize
  {
    var deltaX := ScaleBy(step, DampingFactor);
    var deltaXNorm := Norm(m, deltaX);
    if deltaXNorm > MaxStepSize {
      NormScale(m, deltaX, MaxStepSize / deltaXNorm);
    }
  }

  function Move(p: Coord3, d: Coord3): Coord3
  {
    Coord3(p.p1 + d.p1, p.p2 + d.p2, p.p3 + d.p3)
  }

  /** The position change of a move is the length of the step. */
  lemma MoveDistance(m: Math, p: Coord3, d: Coord3)
    ensures Distance(m, p, Move(p, d)) == Norm(m, d)
  {
    var q := Move(p, d);
    assert q.p1 - p.p1 == d.p1 && q.p2 - p.p2 == d.p2 && q.p3 - p.p3 == d.p3;
  }

  /** Consecutive positions are at most MaxStepSize apart. */
  predicate StepsBounded(m: Math, visited: seq<Coord3>)
  {
    forall i :: 0 <= i < |visited| - 1 ==> Distance(m, visited[i], visited[i + 1]) <= MaxStepSize
  }

  /** visited[k] has the least residual among `visited`, and every earlier
      position has a strictly larger one: it is the first least. */
  predicate FirstLeastResidual(m: Math, stations: seq<Coord3>, azimuths: seq<real>, elevations: seq<real>,
                               visited: seq<Coord3>, k: int)
    requires Lawful(m) && |azimuths| == |stations| && |elevations| == |stations|
  {
    0 <= k < |visited| &&
    (forall j :: 0 <= j < |visited| ==>
       Residual(m, stations, azimuths, elevations, visited[k]) <= Residual(m, stations, azimuths, elevations, visited[j])) &&
    (forall j :: 0 <= j < k ==>
       Residual(m, stations, azimuths, elevations, visited[k]) < Residual(m, stations, azimuths, elevations, visited[j]))
  }

  /** One Gauss-Newton move from p: the new position and the step norm. */
  function TaylorStep(m: Math, solveStep: Coord3 -> Coord3, p: Coord3): (Coord3, real)
  {
    var limited := LimitStep(m, solveStep(p));
    (Move(p, limited.0), limited.1)
  }

  /** The loop stops after p: the move would jump by more than 100 km, or
      its norm is below the convergence threshold. */
  predicate StopsAfter(m: Math, solveStep: Coord3 -> Coord3, p: Coord3)
  {
    Distance(m, p, TaylorStep(m, solveStep, p).0) > MaxPositionChange ||
    TaylorStep(m, solveStep, p).1 < ConvergenceThreshold
  }

  /** The positions evaluated so far: the initial guess, then each the move
      from the previous one, which did not stop the loop. */
  predicate PathPrefix(m: Math, solveStep: Coord3 -> Coord3, initialGuess: Coord3, visited: seq<Coord3>)
  {
    1 <= |visited| && visited[0] == initialGuess &&
    forall i :: 0 <= i < |visited| - 1 ==>
      visited[i + 1] == TaylorStep(m, solveStep, visited[i]).0 && !StopsAfter(m, solveStep, visited[i])
  }

  /** All the positions the loop evaluates: it ends after the last one
      because it stops there or the iterations run out. */
  predicate TaylorPath(m: Math, solveStep: Coord3 -> Coord3, initialGuess: Coord3, visited: seq<Coord3>)
  {
    PathPrefix(m, solveStep, initialGuess, visited) && |visited| <= MaxIterations &&
    (|visited| < MaxIterations ==> StopsAfter(m, solveStep, visited[|visited| - 1]))
  }

  lemma PathExtend(m: Math, solveStep: Coord3 -> Coord3, initialGuess: Coord3, visited: seq<Coord3>, p: Coord3)
    requires PathPrefix(m, solveStep, initialGuess, visited)
    requires p == TaylorStep(m, solveStep, visited[|visited| - 1]).0 && !StopsAfter(m, solveStep, visited[|visited| - 1])
    ensures PathPrefix(m, solveStep, initialGuess, visited + [p])
  {
    var v := visited + [p];
    forall i | 0 <= i < |v| - 1
      ensures v[i + 1] == TaylorStep(m, solveStep, v[i]).0 && !StopsAfter(m, solveStep, v[i])
    {
      assert v[i] == visited[i];
    }
  }

  /** Along the path consecutive positions are at most MaxStepSize apart. */
  lemma PathStepsBounded(m: Math, solveStep: Coord3 -> Coord3, initialGuess: Coord3, visited: seq<Coord3>)
    requires Lawful(m) && PathPrefix(m, solveStep, initialGuess, visited)
    ensures StepsBounded(m, visited)
  {
    forall i | 0 <= i < |visited| - 1
      ensures Distance(m, visited[i], visited[i + 1]) <= MaxStepSize
    {
      BailOutUnreachable(m, visited[i], solveStep(visited[i]));
    }
  }

  /** A path prefix at which the loop stops, or which has used up the
      iterations, is the whole path. */
  lemma PathEnds(m: Math, solveStep: Coord3 -> Coord3, initialGuess: Coord3, visited: seq<Coord3>)
    requires PathPrefix(m, solveStep, initialGuess, visited) && |visited| <= MaxIterations
    requires |visited| < MaxIterations ==> StopsAfter(m, solveStep, visited[|visited| - 1])
    ensures TaylorPath(m, solveStep, initialGuess, visited)
  {}

  /** The best-so-far bookkeeping of the loop before position p is
      evaluated: none yet, or the first least of the visited positions. */
  predicate BestSoFar(m: Math, stations: seq<Coord3>, azimuths: seq<real>, elevations: seq<real>,
                      visited: seq<Coord3>, best: nat, bestResidual: Option<real>, bestPos: Coord3)
    requires Lawful(m) && |azimuths| == |stations| && |elevations| == |stations|
  {
    if |visited| == 0 then bestResidual.None?
    else bestResidual.Some? && bestResidual.value == Residual(m, stations, azimuths, elevations, bestPos) &&
         FirstLeastResidual(m, stations, azimuths, elevations, visited, best) && bestPos == visited[best]
  }

  /** The first half of an iteration: evaluate the residual at p and keep p
      when it is strictly better than the best so far. */
  method Evaluate(m: Math, stations: seq<Coord3>, azimuths: seq<real>, elevations: seq<real>,
                  ghost visited: seq<Coord3>, ghost best: nat, bestResidual: Option<real>, bestPos: Coord3, p: Coord3)
    returns (ghost best': nat, bestResidual': Option<real>, bestPos': Coord3)
    requires Lawful(m) && |azimuths| == |stations| && |elevations| == |stations|
    requires BestSoFar(m, stations, azimuths, elevations, visited, best, bestResidual, bestPos)
    ensures BestSoFar(m, stations, azimuths, elevations, visited + [p], best', bestResidual', bestPos')
    ensures best' == best || best' == |visited|
  {
    var residualSumSquares := Residual(m, stations, azimuths, elevations, p);
    if bestResidual.None? || residualSumSquares < bestResidual.value {
      best', bestResidual', bestPos' := |visited|, Some(residualSumSquares), p;
    } else {
      best', bestResidual', bestPos' := best, bestResidual, bestPos;
    }
  }

  /** The second half: the limited move from p, its norm and the position
      change it causes. */
  method Advance(m: Math, solveStep: Coord3 -> Coord3, p: Coord3)
    returns (newPos: Coord3, deltaXNorm: real, positionChange: real)
    requires Lawful(m)
    ensures (newPos, deltaXNorm) == TaylorStep(m, solveStep, p)
    ensures positionChange == Distance(m, p, newPos)
  {
    var limited := LimitStep(m, solveStep(p));
    var deltaX := limited.0;
    deltaXNorm := limited.1;
    newPos := Move(p, deltaX);
    positionChange := Distance(m, p, newPos);
  }

  /** One iteration of the loop at position p: evaluate and remember it,
      then take the step, and say whether the loop stops there (a jump of
      more than 100 km or a step norm below 1e-3). */
  method TaylorIteration(m: Math, stations: seq<Coord3>, azimuths: seq<real>, elevations: seq<real>,
                         initialGuess: Coord3, solveStep: Coord3 -> Coord3,
                         ghost visited: seq<Coord3>, ghost best: nat, bestResidual: Option<real>, bestPos: Coord3,
                         p: Coord3)
    returns (ghost best': nat, bestResidual': Option<real>, bestPos': Coord3, next: Coord3, done: bool)
    requires Lawful(m) && |azimuths| == |stations| && |elevations| == |stations|
    requires BestSoFar(m, stations, azimuths, elevations, visited, best, bestResidual, bestPos)
    requires |visited| == 0 ==> p == initialGuess
    requires |visited| > 0 ==> PathPrefix(m, solveStep, initialGuess, visited) &&
                               p == TaylorStep(m, solveStep, visited[|visited| - 1]).0 &&
                               !StopsAfter(m, solveStep, visited[|visited| - 1])
    ensures BestSoFar(m, stations, azimuths, elevations, visited + [p], best', bestResidual', bestPos')
    ensures PathPrefix(m, solveStep, initialGuess, visited + [p])
    ensures done <==> StopsAfter(m, solveStep, p)
    ensures !done ==> next == TaylorStep(m, solveStep, p).0
  {
    best', bestResidual', bestPos' := Evaluate(m, stations, azimuths, elevations, visited, best, bestResidual, bestPos, p);
    if |visited| > 0 {
      PathExtend(m, solveStep, initialGuess, visited, p);
    }
    var deltaXNorm, positionChange;
    next, deltaXNorm, positionChange := Advance(m, solveStep, p);
    // a jump of more than 100 km gives up with the best position so far
    done := positionChange > MaxPositionChange || deltaXNorm < ConvergenceThreshold;
  }

  /** refinePositionByTaylor: at most ten iterations; each evaluates the
      residual at the current position, remembers the best position so far,
      takes the damped and length-limited Gauss-Newton step `solveStep`
      yields, gives up with the best position when the position would jump
      by more than 100 km, and stops once the step norm is below 1e-3.
      `visited` lists the positions whose residual was evaluated; the
      result is the first of them with the least residual. */
  method RefinePositionByTaylor(m: Math, stations: seq<Coord3>, azimuths: seq<real>, elevations: seq<real>,
                                initialGuess: Coord3, solveStep: Coord3 -> Coord3)
    returns (r: Coord3, ghost visited: seq<Coord3>, ghost best: nat)
    requires Lawful(m) && |azimuths| == |stations| && |elevations| == |stations|
    ensures TaylorPath(m, solveStep, initialGuess, visited)
    ensures StepsBounded(m, visited)
    ensures FirstLeastResidual(m, stations, azimuths, elevations, visited, best) && r == visited[best]
  {
    var currentPos := initialGuess;
    var bestPos := initialGuess;
    var bestResidual: Option<real> := None;
    visited := [];
    best := 0;
    var iter := 0;
    var done := false;
    while iter < MaxIterations && !done
      invariant 0 <= iter <= MaxIterations && |visited| == iter
      invariant BestSoFar(m, stations, azimuths, elevations, visited, best, bestResidual, bestPos)
      invariant iter == 0 ==> currentPos == initialGuess && !done
      invariant iter > 0 ==> PathPrefix(m, solveStep, initialGuess, visited)
      invariant done ==> StopsAfter(m, solveStep, visited[iter - 1])
      invariant iter > 0 && !done ==> currentPos == TaylorStep(m, solveStep, visited[iter - 1]).0 &&
                                      !StopsAfter(m, solveStep, visited[iter - 1])
    {
      var next;
      best, bestResidual, bestPos, next, done :=
        TaylorIteration(m, stations, azimuths, elevations, initialGuess, solveStep, visited, best, bestResidual, bestPos,
                        currentPos);
      visited := visited + [currentPos];
      currentPos := next;
      iter := iter + 1;
    }
    PathEnds(m, solveStep, initialGuess, visited);
    PathStepsBounded(m, solveStep, initialGuess, visited);
    return bestPos, visited, best;
  }

  /** Over exact reals the 100 km bail-out never fires: a limited step moves
      the position by at most MaxStepSize. */
  lemma BailOutUnreachable(m: Math, p: Coord3, step: Coord3)
    requires Lawful(m)
    ensures Distance(m, p, Move(p, LimitStep(m, step).0)) <= MaxStepSize < MaxPositionChange
  {
    LimitStepBound(m, step);
    MoveDistance(m, p, LimitStep(m, step).0);
  }

  // ---------------------------------------------------------------------
  // Height fusion

  const MinReasonableHeight: real := 0.0
  const MaxReasonableHeight: real := 5000.0
  const DefaultHeight: real := 500.0

  predicate HeightValid(h: real)
  {
    MinReasonableHeight <= h <= MaxReasonableHeight
  }

  /** avgHeight: the mean of the valid heights, or 500 when none is valid. */
  function AverageHeight(h1: real, h2: real, h3: real): real
  {
    var sum := (if HeightValid(h1) then h1 else 0.0) + (if HeightValid(h2) then h2 else 0.0) +
               (if HeightValid(h3) then h3 else 0.0);
    var count := (if HeightValid(h1) then 1 else 0) + (if HeightValid(h2) then 1 else 0) +
                 (if HeightValid(h3) then 1 else 0);
    if count > 0 then sum / count as real else DefaultHeight
  }

  /** A valid height weighs 1 / (|h - avg| + 1); an invalid one weighs 0. */
  function HeightWeight(h: real, avg: real): (w: real)
    ensures HeightValid(h) ==> 0.0 < w <= 1.0
    ensures !HeightValid(h) ==> w == 0.0
  {
    if HeightValid(h) then 1.0 / (Abs(h - avg) + 1.0) else 0.0
  }

  /** The weighted height of steps 3 to 5, before the final comparison with
      the true height: the weighted mean of the valid heights, else method
      2's height when valid, else 500. */
  function FusedHeight(h1: real, h2: real, h3: real): real
  {
    var avg := AverageHeight(h1, h2, h3);
    var w1, w2, w3 := HeightWeight(h1, avg), HeightWeight(h2, avg), HeightWeight(h3, avg);
    var totalWeight := w1 + w2 + w3;
    if totalWeight > 0.0 then WeightedMean(h1, h2, h3, w1, w2, w3)
    else if HeightValid(h2) then h2 else DefaultHeight
  }

  /** (h1 w1 + h2 w2 + h3 w3) / (w1 + w2 + w3). */
  function WeightedMean(h1: real, h2: real, h3: real, w1: real, w2: real, w3: real): real
    requires w1 + w2 + w3 != 0.0
  {
    (h1 * w1 + h2 * w2 + h3 * w3) / (w1 + w2 + w3)
  }

  lemma WeightedTerm(h: real, w: real, p: real)
    requires p == h * w && 0.0 <= w && (HeightValid(h) || w == 0.0)
    ensures 0.0 <= p <= 5000.0 * w
  {
  }

  /** A weighted mean of valid heights with non-negative weights, not all
      zero, is a valid height. */
  lemma WeightedMeanValid(h1: real, h2: real, h3: real, w1: real, w2: real, w3: real)
    requires 0.0 <= w1 && (HeightValid(h1) || w1 == 0.0)
    requires 0.0 <= w2 && (HeightValid(h2) || w2 == 0.0)
    requires 0.0 <= w3 && (HeightValid(h3) || w3 == 0.0)
    requires w1 + w2 + w3 > 0.0
    ensures HeightValid(WeightedMean(h1, h2, h3, w1, w2, w3))
  {
    var p1, p2, p3 := h1 * w1, h2 * w2, h3 * w3;
    WeightedTerm(h1, w1, p1);
    WeightedTerm(h2, w2, p2);
    WeightedTerm(h3, w3, p3);
    var sum, total := p1 + p2 + p3, w1 + w2 + w3;
    QuotientBounds(sum, total, 5000.0);
  }

  /** With no valid height both the average and the fused height are the
      default of 500 m. */
  lemma NoValidHeight(h1: real, h2: real, h3: real)
    requires !HeightValid(h1) && !HeightValid(h2) && !HeightValid(h3)
    ensures AverageHeight(h1, h2, h3) == DefaultHeight && FusedHeight(h1, h2, h3) == DefaultHeight
  {
    var avg := AverageHeight(h1, h2, h3);
    assert HeightWeight(h1, avg) == 0.0 && HeightWeight(h2, avg) == 0.0 && HeightWeight(h3, avg) == 0.0;
  }

  /** With at least one valid height the fused height is itself valid. */
  lemma FusedHeightValid(h1: real, h2: real, h3: real)
    requires HeightValid(h1) || HeightValid(h2) || HeightValid(h3)
    ensures HeightValid(FusedHeight(h1, h2, h3))
  {
    var avg := AverageHeight(h1, h2, h3);
    var w1, w2, w3 := HeightWeight(h1, avg), HeightWeight(h2, avg), HeightWeight(h3, avg);
    assert w1 + w2 + w3 > 0.0;
    WeightedMeanValid(h1, h2, h3, w1, w2, w3);
  }

  lemma QuotientBounds(s: real, t: real, bound: real)
    requires t > 0.0 && 0.0 <= s <= bound * t
    ensures 0.0 <= s / t <= bound
  {
    var q := s / t;
    assert q * t == s;
    NonNegativeFactor(q, t);
    assert (bound - q) * t == bound * t - s;
    NonNegativeFactor(bound - q, t);
  }

  /** Step 6: the true altitude replaces the fused height when it is
      positive and the fused height is off by more than 100%. */
  function CheckedHeight(bestHeight: real, trueHeight: real): real
  {
    var heightDiff := Abs(bestHeight - trueHeight);
    var relativeError := if trueHeight > 0.0 then heightDiff / trueHeight else 1.0;
    if relativeError > 1.0 then trueHeight else bestHeight
  }

  lemma CheckedHeightMeaning(bestHeight: real, trueHeight: real)
    ensures CheckedHeight(bestHeight, trueHeight) ==
            if trueHeight > 0.0 && Abs(bestHeight - trueHeight) > trueHeight then trueHeight else bestHeight
  {
    if trueHeight > 0.0 {
      var diff := Abs(bestHeight - trueHeight);
      RatioAboveOne(diff, trueHeight);
    }
  }

  /** For t > 0, d / t exceeds 1 exactly when d exceeds t. */
  lemma RatioAboveOne(d: real, t: real)
    requires t > 0.0
    ensures d / t > 1.0 <==> d > t
  {
    var q := d / t;
    assert q * t == d;
    assert (q - 1.0) * t == d - t;
    if q > 1.0 {
      ProductPositive(q - 1.0, t);
    } else {
      NonNegativeProduct(1.0 - q, t);
    }
  }

  /** Method 3: each station's height estimate from its elevation to the
      refined position, weighted by 1 / (horizontal distance + 1). */
  function StationHeight(m: Math, station: Coord3, refined: Coord3): (real, real)
    requires Lawful(m)
  {
    var angles := AngleValidator.AzimuthElevation(m, station, refined);
    var dx, dy := refined.p1 - station.p1, refined.p2 - station.p2;
    var horizontalDist := m.sqrt(dx * dx + dy * dy);
    var heightI := m.xyz2lbh(station).p3 + horizontalDist * m.tan(angles.1 * Deg2Rad);
    (heightI, 1.0 / (horizontalDist + 1.0))
  }

  /** The weight of a station is in (0, 1]. */
  lemma StationWeightPositive(m: Math, station: Coord3, refined: Coord3)
    requires Lawful(m)
    ensures 0.0 < StationHeight(m, station, refined).1 <= 1.0
  {
    var dx, dy := refined.p1 - station.p1, refined.p2 - station.p2;
    AngleValidator.SquareSumNonNegative(dx, dy);
  }

  /** Sums of weight * height and of weights over the first k stations. */
  function WeightedSums(m: Math, stations: seq<Coord3>, refined: Coord3, k: nat): (real, real)
    requires Lawful(m) && k <= |stations|
  {
    if k == 0 then (0.0, 0.0)
    else
      var s := WeightedSums(m, stations, refined, k - 1);
      var hw := StationHeight(m, stations[k - 1], refined);
      (s.0 + Weighted(hw), s.1 + hw.1)
  }

  /** A station's height times its weight. */
  function Weighted(hw: (real, real)): real
  {
    hw.0 * hw.1
  }

  lemma {:induction false} WeightSumPositive(m: Math, stations: seq<Coord3>, refined: Coord3, k: nat)
    requires Lawful(m) && 0 < k <= |stations|
    ensures WeightedSums(m, stations, refined, k).1 > 0.0
  {
    StationWeightPositive(m, stations[k - 1], refined);
    if k > 1 {
      WeightSumPositive(m, stations, refined, k - 1);
    }
  }

  /** The method-3 loop: with at least one station the weight sum is
      positive and the height is the weighted mean. */
  method WeightedStationHeight(m: Math, stations: seq<Coord3>, refined: Coord3) returns (height3: real)
    requires Lawful(m) && |stations| > 0
    ensures WeightedSums(m, stations, refined, |stations|).1 > 0.0
    ensures height3 == WeightedSums(m, stations, refined, |stations|).0 / WeightedSums(m, stations, refined, |stations|).1
  {
    var weightedSumHeight := 0.0;
    var weightSum := 0.0;
    var i := 0;
    while i < |stations|
      invariant 0 <= i <= |stations|
      invariant weightedSumHeight == WeightedSums(m, stations, refined, i).0
      invariant weightSum == WeightedSums(m, stations, refined, i).1
    {
      var hw := StationHeight(m, stations[i], refined);
      weightedSumHeight := weightedSumHeight + Weighted(hw);
      weightSum := weightSum + hw.1;
      i := i + 1;
    }
    WeightSumPositive(m, stations, refined, |stations|);
    height3 := weightedSumHeight / weightSum;
  }

  // ---------------------------------------------------------------------
  // Stored accuracy

  const MaxGdop: real := 1000.0
  const MaxPositionError: real := 1000000.0

  /** The accuracy stored: the GDOP capped at 1000. */
  function StoredAccuracy(gdop: real): (a: real)
    ensures a <= MaxGdop
    ensures gdop <= MaxGdop ==> a == gdop
  {
    if gdop > MaxGdop then MaxGdop else gdop
  }

  /** errorFactors as written: stored before the position error is capped,
      so the cap at 1000 km has no effect on what is kept. */
  function ErrorFactorsAsWritten(gdop: real, positionError: real): seq<real>
  {
    [gdop, positionError]
  }

  lemma PositionErrorCapIneffective()
    ensures ErrorFactorsAsWritten(5.0, 2000000.0)[1] > MaxPositionError
  {
  }

  /** errorFactors with the position error capped at 1000 km, as the cap's
      purpose (keeping stored values bounded) intends. */
  function ErrorFactors(gdop: real, positionError: real): (f: seq<real>)
    ensures |f| == 2 && f[0] == gdop && f[1] <= MaxPositionError
    ensures positionError <= MaxPositionError ==> f[1] == positionError
  {
    [gdop, if positionError > MaxPositionError then MaxPositionError else positionError]
  }

  // ---------------------------------------------------------------------
  // The algorithm object

  /** A device's geodetic position converted to Cartesian coordinates. */
  function DeviceXyz(m: Math, d: ReconnaissanceDeviceModel.Device): Coord3
  {
    m.lbh2xyz(Coord3(d.longitude, d.latitude, d.altitude))
  }

  /** The coordinate conversion loop of calculate. */
  method StationPositions(m: Math, devices: seq<ReconnaissanceDeviceModel.Device>) returns (ps: seq<Coord3>)
    ensures |ps| == |devices|
    ensures forall i :: 0 <= i < |devices| ==> ps[i] == DeviceXyz(m, devices[i])
  {
    ps := [];
    var i := 0;
    while i < |devices|
      invariant 0 <= i <= |devices| && |ps| == i
      invariant forall k :: 0 <= k < i ==> ps[k] == DeviceXyz(m, devices[k])
    {
      ps := ps + [DeviceXyz(m, devices[i])];
      i := i + 1;
    }
  }

  /** One station's measurement: the true angles to the source plus the
      drawn errors, the azimuth wrapped once and the elevation clamped. */
  function Measure(m: Math, station: Coord3, sourcePos: Coord3, draw: AngleDraw): (r: (real, real))
    requires Lawful(m)
    ensures -90.0 <= r.1 <= 90.0
    ensures -360.0 <= draw.azimuthError < 360.0 ==> 0.0 <= r.0 < 360.0
  {
    var trueAngles := AngleValidator.AzimuthElevation(m, station, sourcePos);
    var raw := trueAngles.0 + draw.azimuthError;
    var r := (WrapMeasuredAzimuth(raw), ClampElevation(trueAngles.1 + draw.elevationError));
    if -360.0 <= draw.azimuthError < 360.0 then
      WrapMeasuredAzimuthRange(raw);
      r
    else
      r
  }

  /** The measurement loop of calculate. */
  method MeasureAngles(m: Math, stations: seq<Coord3>, sourcePos: Coord3, draws: seq<AngleDraw>)
    returns (azimuths: seq<real>, elevations: seq<real>)
    requires Lawful(m) && |draws| >= |stations|
    ensures |azimuths| == |stations| && |elevations| == |stations|
    ensures forall i :: 0 <= i < |stations| ==> (azimuths[i], elevations[i]) == Measure(m, stations[i], sourcePos, draws[i])
  {
    azimuths, elevations := [], [];
    var i := 0;
    while i < |stations|
      invariant 0 <= i <= |stations| && |azimuths| == i && |elevations| == i
      invariant forall k :: 0 <= k < i ==> (azimuths[k], elevations[k]) == Measure(m, stations[k], sourcePos, draws[k])
    {
      var measured := Measure(m, stations[i], sourcePos, draws[i]);
      azimuths := azimuths + [measured.0];
      elevations := elevations + [measured.1];
      i := i + 1;
    }
  }

  /** The first guess: 10 km from station 0 along its measured bearing. */
  function InitialGuess(m: Math, station: Coord3, azimuth: real, elevation: real): Coord3
  {
    var azimuthRad, elevationRad := azimuth * Deg2Rad, elevation * Deg2Rad;
    Coord3(station.p1 + EstimatedDistance * m.cos(elevationRad) * m.sin(azimuthRad),
           station.p2 + EstimatedDistance * m.cos(elevationRad) * m.cos(azimuthRad),
           station.p3 + EstimatedDistance * m.sin(elevationRad))
  }

  /** Method 2: the reference device's height plus the horizontal distance
      times the tangent of the elevation towards the refined position. */
  function ReferenceHeight(m: Math, refDevice: ReconnaissanceDeviceModel.Device, refined: Coord3): real
    requires Lawful(m)
  {
    var refXyz := DeviceXyz(m, refDevice);
    var dx, dy := refined.p1 - refXyz.p1, refined.p2 - refXyz.p2;
    var horizontalDist := m.sqrt(dx * dx + dy * dy);
    var toTarget := AngleValidator.AzimuthElevation(m, refXyz, refined);
    refDevice.altitude + horizontalDist * m.tan(toTarget.1 * Deg2Rad)
  }

  /** Steps 3 to 6 of the height selection: the fused height of methods 1
      to 3, replaced by the true altitude when off by more than 100%. */
  function BestHeight(height1: real, height2: real, height3: real, trueHeight: real): real
  {
    CheckedHeight(FusedHeight(height1, height2, height3), trueHeight)
  }

  /** The ids of the devices, in list order. */
  method DeviceIds(devices: seq<ReconnaissanceDeviceModel.Device>) returns (ids: seq<int>)
    ensures ids == IdsOf(devices)
  {
    ids := [];
    var i := 0;
    while i < |devices|
      invariant 0 <= i <= |devices| && |ids| == i
      invariant forall k :: 0 <= k < i ==> ids[k] == devices[k].id
    {
      ids := ids + [devices[i].id];
      i := i + 1;
    }
    assert ids == IdsOf(devices);
  }

  /** DirectionFindingAlgorithm::DirectionFindingResult. */
  datatype DfaResult = DfaResult(position: Coord3, localizationTime: real, accuracy: real, errorFactors: seq<real>)

  /** The assumed range of the first guess along station 0's bearing. */
  const EstimatedDistance: real := 10000.0

  /** The draws of one station: azimuth and elevation errors in degrees. */
  datatype AngleDraw = AngleDraw(azimuthError: real, elevationError: real)

  /** calculateLocalizationAccuracy: the devices are looked up again by id,
      and the GDOP is the square root of the trace of (F^T W F)^-1, with F
      the Jacobian at the estimate and W weighing each device by its own
      direction error. `covarianceTrace` is that trace, which Eigen's
      inverse yields, as a function of the station positions, their
      direction errors and the estimate. */
  function LocalizationAccuracy(m: Math, allDevices: seq<ReconnaissanceDeviceModel.Device>, ids: seq<int>,
                                estimate: Coord3,
                                covarianceTrace: (seq<Coord3>, seq<real>, Coord3) -> real): (gdop: real)
    requires Lawful(m)
    ensures covarianceTrace(StationsOf(m, ReconnaissanceDeviceModel.LookUpAll(allDevices, ids)),
                            DirectionErrorsOf(ReconnaissanceDeviceModel.LookUpAll(allDevices, ids)), estimate) >= 0.0
            ==> gdop >= 0.0 && gdop * gdop == covarianceTrace(StationsOf(m, ReconnaissanceDeviceModel.LookUpAll(allDevices, ids)),
                                                                DirectionErrorsOf(ReconnaissanceDeviceModel.LookUpAll(allDevices, ids)), estimate)
  {
    var devices := ReconnaissanceDeviceModel.LookUpAll(allDevices, ids);
    m.sqrt(covarianceTrace(StationsOf(m, devices), DirectionErrorsOf(devices), estimate))
  }

  function StationsOf(m: Math, devices: seq<ReconnaissanceDeviceModel.Device>): (ps: seq<Coord3>)
    ensures |ps| == |devices| && forall i :: 0 <= i < |devices| ==> ps[i] == DeviceXyz(m, devices[i])
  {
    seq(|devices|, i requires 0 <= i < |devices| => DeviceXyz(m, devices[i]))
  }

  /** The direction errors of the devices: each in [1, 10] degrees. */
  function DirectionErrorsOf(devices: seq<ReconnaissanceDeviceModel.Device>): (es: seq<real>)
    ensures |es| == |devices|
    ensures forall i :: 0 <= i < |devices| ==> es[i] == DirectionError(devices[i])
    ensures forall i :: 0 <= i < |es| ==> MinDirectionError <= es[i] <= MaxDirectionError
  {
    seq(|devices|, i requires 0 <= i < |devices| => DirectionError(devices[i]))
  }

  /** Every device's direction error is non-zero, so the weight matrix of
      calculateLocalizationAccuracy is defined. */
  lemma DirectionErrorsWeighable(devices: seq<ReconnaissanceDeviceModel.Device>)
    ensures |WeightDiagonal(DirectionErrorsOf(devices))| == 2 * |devices|
    ensures forall i :: 0 <= i < 2 * |devices| ==> WeightDiagonal(DirectionErrorsOf(devices))[i] > 0.0
  {
    var es := DirectionErrorsOf(devices);
    var w := WeightDiagonal(es);
    forall i | 0 <= i < 2 * |devices|
      ensures w[i] > 0.0
    {
      if i >= |devices| {
        assert w[i] == ElevationWeight(es[i - |devices|]);
      }
    }
  }

  /** The source's position in Cartesian coordinates. */
  function SourceXyz(m: Math, source: RadiationSourceModel.Source): Coord3
  {
    m.lbh2xyz(Coord3(source.longitude, source.latitude, source.altitude))
  }

  /** The measured azimuths and elevations of the stations. */
  function Azimuths(m: Math, stations: seq<Coord3>, sourcePos: Coord3, draws: seq<AngleDraw>): (az: seq<real>)
    requires Lawful(m) && |draws| >= |stations|
    ensures |az| == |stations|
  {
    seq(|stations|, i requires 0 <= i < |stations| => Measure(m, stations[i], sourcePos, draws[i]).0)
  }

  function Elevations(m: Math, stations: seq<Coord3>, sourcePos: Coord3, draws: seq<AngleDraw>): (el: seq<real>)
    requires Lawful(m) && |draws| >= |stations|
    ensures |el| == |stations|
  {
    seq(|stations|, i requires 0 <= i < |stations| => Measure(m, stations[i], sourcePos, draws[i]).1)
  }

  /** Steps 2 to 6 of the height correction: the refined position keeps its
      longitude and latitude and takes the best of the three heights,
      converted back to Cartesian coordinates. */
  function CorrectedPosition(m: Math, stations: seq<Coord3>, refDevice: ReconnaissanceDeviceModel.Device,
                             trueHeight: real, refined: Coord3): Coord3
    requires Lawful(m) && |stations| > 0
  {
    var lbh := m.xyz2lbh(refined);
    WeightSumPositive(m, stations, refined, |stations|);
    var sums := WeightedSums(m, stations, refined, |stations|);
    m.lbh2xyz(Coord3(lbh.p1, lbh.p2, BestHeight(lbh.p3, ReferenceHeight(m, refDevice, refined), sums.0 / sums.1, trueHeight)))
  }

  /** What calculate stores after both loads, with `visited` the positions
      the Taylor loop evaluates and visited[best] the one it returns: the
      height-corrected refinement, the elapsed time, the capped GDOP of that
      position and the error factors of ErrorFactors. */
  ghost predicate Located(m: Math, allDevices: seq<ReconnaissanceDeviceModel.Device>,
                          devices: seq<ReconnaissanceDeviceModel.Device>, source: RadiationSourceModel.Source,
                          draws: seq<AngleDraw>, solveStep: Coord3 -> Coord3,
                          covarianceTrace: (seq<Coord3>, seq<real>, Coord3) -> real, elapsed: real,
                          visited: seq<Coord3>, best: nat, r: DfaResult)
    requires Lawful(m) && |devices| > 0 && |draws| >= |devices|
  {
    var stations := StationsOf(m, devices);
    var sourcePos := SourceXyz(m, source);
    var az, el := Azimuths(m, stations, sourcePos, draws), Elevations(m, stations, sourcePos, draws);
    var gdop := LocalizationAccuracy(m, allDevices, IdsOf(devices), r.position, covarianceTrace);
    TaylorPath(m, solveStep, InitialGuess(m, stations[0], az[0], el[0]), visited) &&
    FirstLeastResidual(m, stations, az, el, visited, best) &&
    r.position == CorrectedPosition(m, stations, devices[0], source.altitude, visited[best]) &&
    r.localizationTime == elapsed &&
    r.accuracy == StoredAccuracy(gdop) &&
    r.errorFactors == ErrorFactors(gdop, Distance(m, sourcePos, r.position))
  }

  /** The position calculate stores: the height-corrected point of least
      residual on the Taylor path from the first station's guess, for some
      run of that loop. */
  ghost predicate LocatedAt(m: Math, devices: seq<ReconnaissanceDeviceModel.Device>,
                            source: RadiationSourceModel.Source, draws: seq<AngleDraw>,
                            solveStep: Coord3 -> Coord3, position: Coord3)
    requires Lawful(m) && |devices| > 0 && |draws| >= |devices|
  {
    var stations := StationsOf(m, devices);
    var sourcePos := SourceXyz(m, source);
    var az, el := Azimuths(m, stations, sourcePos, draws), Elevations(m, stations, sourcePos, draws);
    exists visited: seq<Coord3>, best: nat ::
      TaylorPath(m, solveStep, InitialGuess(m, stations[0], az[0], el[0]), visited) &&
      FirstLeastResidual(m, stations, az, el, visited, best) &&
      position == CorrectedPosition(m, stations, devices[0], source.altitude, visited[best])
  }

  /** What a located result stores, without the path behind its position. */
  lemma LocatedStores(m: Math, allDevices: seq<ReconnaissanceDeviceModel.Device>,
                      devices: seq<ReconnaissanceDeviceModel.Device>, source: RadiationSourceModel.Source,
                      draws: seq<AngleDraw>, solveStep: Coord3 -> Coord3,
                      covarianceTrace: (seq<Coord3>, seq<real>, Coord3) -> real, elapsed: real,
                      visited: seq<Coord3>, best: nat, r: DfaResult)
    requires Lawful(m) && |devices| > 0 && |draws| >= |devices|
    requires Located(m, allDevices, devices, source, draws, solveStep, covarianceTrace, elapsed, visited, best, r)
    ensures r.localizationTime == elapsed && |r.errorFactors| == 2 &&
            r.accuracy == StoredAccuracy(r.errorFactors[0]) && r.accuracy <= MaxGdop &&
            r.errorFactors[0] == LocalizationAccuracy(m, allDevices, IdsOf(devices), r.position, covarianceTrace) &&
            r.errorFactors[1] <= MaxPositionError &&
            r.errorFactors == ErrorFactors(r.errorFactors[0], Distance(m, SourceXyz(m, source), r.position))
  {
  }

  /** The localisation after both loads: measure, refine, fuse the height,
      and build the stored result. */
  method Locate(m: Math, allDevices: seq<ReconnaissanceDeviceModel.Device>,
                devices: seq<ReconnaissanceDeviceModel.Device>, source: RadiationSourceModel.Source,
                draws: seq<AngleDraw>, solveStep: Coord3 -> Coord3,
                covarianceTrace: (seq<Coord3>, seq<real>, Coord3) -> real, elapsed: real)
    returns (r: DfaResult, ghost visited: seq<Coord3>, ghost best: nat)
    requires Lawful(m) && |devices| > 0 && |draws| >= |devices|
    ensures Located(m, allDevices, devices, source, draws, solveStep, covarianceTrace, elapsed, visited, best, r)
    ensures |r.errorFactors| == 2 && r.accuracy <= MaxGdop && r.errorFactors[1] <= MaxPositionError
  {
    var sourcePos := SourceXyz(m, source);
    var stationPos := StationPositions(m, devices);
    assert stationPos == StationsOf(m, devices);
    var azimuths, elevations := MeasureAngles(m, stationPos, sourcePos, draws);
    assert azimuths == Azimuths(m, stationPos, sourcePos, draws);
    assert elevations == Elevations(m, stationPos, sourcePos, draws);
    var initialGuess := InitialGuess(m, stationPos[0], azimuths[0], elevations[0]);
    var refinedPosition;
    refinedPosition, visited, best := RefinePositionByTaylor(m, stationPos, azimuths, elevations, initialGuess, solveStep);
    var refinedLbh := m.xyz2lbh(refinedPosition);
    var height3 := WeightedStationHeight(m, stationPos, refinedPosition);
    var height2 := ReferenceHeight(m, devices[0], refinedPosition);
    var bestHeight := BestHeight(refinedLbh.p3, height2, height3, source.altitude);
    var correctedXyz := m.lbh2xyz(Coord3(refinedLbh.p1, refinedLbh.p2, bestHeight));
    var positionError := Distance(m, sourcePos, correctedXyz);
    var deviceIds := DeviceIds(devices);
    var gdop := LocalizationAccuracy(m, allDevices, deviceIds, correctedXyz, covarianceTrace);
    r := DfaResult(correctedXyz, elapsed, StoredAccuracy(gdop), ErrorFactors(gdop, positionError));
  }

  /** Locate without its ghost outputs: the result is located by some
      Taylor path, and what it stores follows. */
  method LocateSummary(m: Math, allDevices: seq<ReconnaissanceDeviceModel.Device>,
                       devices: seq<ReconnaissanceDeviceModel.Device>, source: RadiationSourceModel.Source,
                       draws: seq<AngleDraw>, solveStep: Coord3 -> Coord3,
                       covarianceTrace: (seq<Coord3>, seq<real>, Coord3) -> real, elapsed: real)
    returns (r: DfaResult)
    requires Lawful(m) && |devices| > 0 && |draws| >= |devices|
    ensures LocatedAt(m, devices, source, draws, solveStep, r.position)
    ensures r.localizationTime == elapsed && |r.errorFactors| == 2 &&
            r.accuracy == StoredAccuracy(r.errorFactors[0]) && r.accuracy <= MaxGdop &&
            r.errorFactors[0] == LocalizationAccuracy(m, allDevices, IdsOf(devices), r.position, covarianceTrace) &&
            r.errorFactors[1] <= MaxPositionError &&
            r.errorFactors == ErrorFactors(r.errorFactors[0], Distance(m, SourceXyz(m, source), r.position))
  {
    ghost var visited, best;
    r, visited, best := Locate(m, allDevices, devices, source, draws, solveStep, covarianceTrace, elapsed);
    LocatedStores(m, allDevices, devices, source, draws, solveStep, covarianceTrace, elapsed, visited, best, r);
  }

  /** What calculate's contract states about the stored result, the
      position located and the other fields given in terms of it, is
      exactly Located for some run of the Taylor loop. */
  lemma StoredIsLocated(m: Math, allDevices: seq<ReconnaissanceDeviceModel.Device>,
                        devices: seq<ReconnaissanceDeviceModel.Device>, source: RadiationSourceModel.Source,
                        draws: seq<AngleDraw>, solveStep: Coord3 -> Coord3,
                        covarianceTrace: (seq<Coord3>, seq<real>, Coord3) -> real, elapsed: real, r: DfaResult)
    requires Lawful(m) && |devices| > 0 && |draws| >= |devices|
    ensures (LocatedAt(m, devices, source, draws, solveStep, r.position) &&
             r.localizationTime == elapsed && |r.errorFactors| == 2 &&
             r.accuracy == StoredAccuracy(r.errorFactors[0]) &&
             r.errorFactors[0] == LocalizationAccuracy(m, allDevices, IdsOf(devices), r.position, covarianceTrace) &&
             r.errorFactors == ErrorFactors(r.errorFactors[0], Distance(m, SourceXyz(m, source), r.position)))
            <==>
            exists visited: seq<Coord3>, best: nat ::
              Located(m, allDevices, devices, source, draws, solveStep, covarianceTrace, elapsed, visited, best, r)
  {
    var stations := StationsOf(m, devices);
    var sourcePos := SourceXyz(m, source);
    var az, el := Azimuths(m, stations, sourcePos, draws), Elevations(m, stations, sourcePos, draws);
    var guess := InitialGuess(m, stations[0], az[0], el[0]);
    if LocatedAt(m, devices, source, draws, solveStep, r.position) &&
       r.localizationTime == elapsed && |r.errorFactors| == 2 &&
       r.accuracy == StoredAccuracy(r.errorFactors[0]) &&
       r.errorFactors[0] == LocalizationAccuracy(m, allDevices, IdsOf(devices), r.position, covarianceTrace) &&
       r.errorFactors == ErrorFactors(r.errorFactors[0], Distance(m, sourcePos, r.position)) {
      var visited: seq<Coord3>, best: nat :| TaylorPath(m, solveStep, guess, visited) &&
        FirstLeastResidual(m, stations, az, el, visited, best) &&
        r.position == CorrectedPosition(m, stations, devices[0], source.altitude, visited[best]);
      assert Located(m, allDevices, devices, source, draws, solveStep, covarianceTrace, elapsed, visited, best, r);
    }
    if exists visited: seq<Coord3>, best: nat ::
         Located(m, allDevices, devices, source, draws, solveStep, covarianceTrace, elapsed, visited, best, r) {
      var visited: seq<Coord3>, best: nat :|
        Located(m, allDevices, devices, source, draws, solveStep, covarianceTrace, elapsed, visited, best, r);
      LocatedStores(m, allDevices, devices, source, draws, solveStep, covarianceTrace, elapsed, visited, best, r);
      assert TaylorPath(m, solveStep, guess, visited) && FirstLeastResidual(m, stations, az, el, visited, best) &&
             r.position == CorrectedPosition(m, stations, devices[0], source.altitude, visited[best]);
    }
  }

  function IdsOf(devices: seq<ReconnaissanceDeviceModel.Device>): (ids: seq<int>)
    ensures |ids| == |devices| && forall i :: 0 <= i < |devices| ==> ids[i] == devices[i].id
  {
    seq(|devices|, i requires 0 <= i < |devices| => devices[i].id)
  }

  class DirectionFindingAlgorithm {
    var deviceNames: seq<string>
    var sourceName: string
    var systemType: string
    var simulationTime: real
    var devices: seq<ReconnaissanceDeviceModel.Device>
    var source: RadiationSourceModel.Source
    var result: DfaResult
    var isInitialized: bool

    constructor ()
      ensures !isInitialized && simulationTime == 0.0
    {
      deviceNames, sourceName, systemType := [], "", "";
      simulationTime := 0.0;
      devices := [];
      source := RadiationSourceModel.DefaultSource;
      result := DfaResult(Coord3(0.0, 0.0, 0.0), 0.0, 0.0, []);
      isInitialized := false;
    }

    /** init: store the parameters and mark the object initialised; devices
        and result are left as they are. */
    method Init(deviceNames': seq<string>, sourceName': string, systemType': string, simulationTime': real)
      modifies this
      ensures deviceNames == deviceNames' && sourceName == sourceName' && systemType == systemType'
      ensures simulationTime == simulationTime' && isInitialized
      ensures devices == old(devices) && result == old(result) && source == old(source)
    {
      deviceNames, sourceName, systemType := deviceNames', sourceName', systemType';
      simulationTime := simulationTime';
      isInitialized := true;
    }

    /** loadDeviceInfo: clear, then the first row of each name in name order,
        failing at the first unknown name; at least one device is needed. */
    method LoadDeviceInfo(allDevices: seq<ReconnaissanceDeviceModel.Device>) returns (ok: bool)
      modifies this`devices
      ensures devices == ReconnaissanceDeviceModel.MatchNames(allDevices, deviceNames).0
      ensures ok <==> ReconnaissanceDeviceModel.MatchNames(allDevices, deviceNames).1 && |devices| > 0
    {
      devices := [];
      var i := 0;
      while i < |deviceNames|
        invariant 0 <= i <= |deviceNames|
        invariant ReconnaissanceDeviceModel.MatchNames(allDevices, deviceNames[..i]).1
        invariant devices == ReconnaissanceDeviceModel.MatchNames(allDevices, deviceNames[..i]).0
      {
        assert deviceNames[..i + 1][..i] == deviceNames[..i];
        var found := ReconnaissanceDeviceModel.FindByName(allDevices, deviceNames[i]);
        if found.None? {
          ReconnaissanceDeviceModel.MatchNamesStops(allDevices, deviceNames, i);
          return false;
        }
        devices := devices + [found.value];
        i := i + 1;
      }
      assert deviceNames[..i] == deviceNames;
      ok := |devices| > 0;
    }

    /** loadSourceInfo: the first source of that name. */
    method LoadSourceInfo(allSources: seq<RadiationSourceModel.Source>) returns (ok: bool)
      modifies this`source
      ensures ok <==> RadiationSourceModel.FindByName(allSources, sourceName).Some?
      ensures ok ==> source == RadiationSourceModel.FindByName(allSources, sourceName).value
      ensures !ok ==> source == old(source)
    {
      var found := RadiationSourceModel.FindByName(allSources, sourceName);
      if found.None? {
        return false;
      }
      source := found.value;
      return true;
    }

    /** The checks and the two loads of calculate, in order: nothing is
        loaded before init, and the source is not loaded when the devices
        fail. */
    method LoadAll(allDevices: seq<ReconnaissanceDeviceModel.Device>,
                   allSources: seq<RadiationSourceModel.Source>) returns (ok: bool)
      modifies this`devices, this`source
      ensures ok <==> isInitialized && ReconnaissanceDeviceModel.MatchNames(allDevices, deviceNames).1 &&
                      |deviceNames| > 0 && RadiationSourceModel.FindByName(allSources, sourceName).Some?
      ensures ok ==> devices == ReconnaissanceDeviceModel.MatchNames(allDevices, deviceNames).0 &&
                     |devices| == |deviceNames| &&
                     source == RadiationSourceModel.FindByName(allSources, sourceName).value
      ensures isInitialized ==> devices == ReconnaissanceDeviceModel.MatchNames(allDevices, deviceNames).0
      ensures !isInitialized ==> devices == old(devices)
      ensures !ok ==> source == old(source)
    {
      if !isInitialized {
        return false;
      }
      var devicesOk := LoadDeviceInfo(allDevices);
      if !devicesOk {
        return false;
      }
      ReconnaissanceDeviceModel.MatchNamesRows(allDevices, deviceNames);
      ok := LoadSourceInfo(allSources);
    }

    /** The last step of calculate: locate with the loaded devices and
        source and store the result, which Locate's computation yields. */
    method StoreLocation(m: Math, allDevices: seq<ReconnaissanceDeviceModel.Device>, draws: seq<AngleDraw>,
                         solveStep: Coord3 -> Coord3, covarianceTrace: (seq<Coord3>, seq<real>, Coord3) -> real,
                         elapsed: real)
      requires Lawful(m) && |devices| > 0 && |draws| >= |devices|
      modifies this`result
      ensures unchanged(this`isInitialized, this`deviceNames, this`sourceName, this`devices, this`source)
      ensures LocatedAt(m, devices, source, draws, solveStep, result.position)
      ensures result.localizationTime == elapsed && |result.errorFactors| == 2 &&
              result.accuracy == StoredAccuracy(result.errorFactors[0]) && result.accuracy <= MaxGdop &&
              result.errorFactors[0] == LocalizationAccuracy(m, allDevices, IdsOf(devices), result.position, covarianceTrace) &&
              result.errorFactors == ErrorFactors(result.errorFactors[0], Distance(m, SourceXyz(m, source), result.position))
    {
      result := LocateSummary(m, allDevices, devices, source, draws, solveStep, covarianceTrace, elapsed);
    }

    /** calculate: fails when not initialised or when a load fails;
        otherwise stores what Locate computes. `draws` holds each station's
        drawn angle errors, `solveStep` the Eigen solve of a Gauss-Newton
        step, `covarianceTrace` the trace behind the GDOP and `elapsed` the
        measured run time. */
    method Calculate(m: Math, allDevices: seq<ReconnaissanceDeviceModel.Device>,
                     allSources: seq<RadiationSourceModel.Source>, draws: seq<AngleDraw>,
                     solveStep: Coord3 -> Coord3, covarianceTrace: (seq<Coord3>, seq<real>, Coord3) -> real,
                     elapsed: real)
      returns (ok: bool)
      requires Lawful(m) && |draws| >= |deviceNames|
      modifies this`devices, this`source, this`result
      ensures ok <==> isInitialized && ReconnaissanceDeviceModel.MatchNames(allDevices, deviceNames).1 &&
                      |deviceNames| > 0 && RadiationSourceModel.FindByName(allSources, sourceName).Some?
      ensures !ok ==> result == old(result)
      ensures ok ==> devices == ReconnaissanceDeviceModel.MatchNames(allDevices, deviceNames).0 &&
                     source == RadiationSourceModel.FindByName(allSources, sourceName).value
      ensures isInitialized ==> devices == ReconnaissanceDeviceModel.MatchNames(allDevices, deviceNames).0
      ensures !isInitialized ==> devices == old(devices)
      ensures !ok ==> source == old(source)
      ensures ok ==> |devices| == |deviceNames| &&
                     LocatedAt(m, devices, source, draws, solveStep, result.position)
      ensures ok ==> result.localizationTime == elapsed && |result.errorFactors| == 2 &&
                     result.accuracy == StoredAccuracy(result.errorFactors[0]) && result.accuracy <= MaxGdop &&
                     result.errorFactors[0] == LocalizationAccuracy(m, allDevices, IdsOf(devices), result.position, covarianceTrace) &&
                     result.errorFactors == ErrorFactors(result.errorFactors[0], Distance(m, SourceXyz(m, source), result.position))
    {
      ok := LoadAll(allDevices, allSources);
      if !ok {
        return;
      }
      StoreLocation(m, allDevices, draws, solveStep, covarianceTrace, elapsed);
    }
  }
}
