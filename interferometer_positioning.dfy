/** models/src/InterferometerPositioning.cpp: single-platform location by
    the rate of change of the interferometer phase difference, and the
    interferometer's direction-finding error budget. The alignment,
    attitude and phase errors and the cone-effect table are constants of a
    header that is not part of this model; they are the value `Constants`. */
module InterferometerPositioning {
  import opened Common
  import ReconnaissanceDeviceModel
  import RadiationSourceModel
  import AngleValidator

  /** LocationResult (InterferometerPositioning.h), shared by the
      single-platform algorithms. */
  datatype LocationResult = LocationResult(
    azimuth: real, elevation: real, longitude: real, latitude: real, altitude: real,
    accuracy: real, distance: real, validAngle: bool, validSnr: bool, errorFactors: seq<real>)

  /** The values the default constructor gives. */
  const DefaultLocationResult: LocationResult :=
    LocationResult(0.0, 0.0, 0.0, 0.0, 0.0, 0.0, 0.0, true, true, [])

  /** The fields of a single-platform task (SinglePlatformTaskDAO.h) that
      both runSimulation functions fill before handing it to the DAO. */
  datatype StoredTask = StoredTask(
    techSystem: string, deviceId: int, radiationId: int, executionTime: real,
    targetLongitude: real, targetLatitude: real, targetAltitude: real,
    angleError: real, positioningTime: real, positioningAccuracy: real,
    directionFindingAccuracy: real)

  /** INTERFEROMETER_ALIGNMENT_ERROR, INTERFEROMETER_ATTITUDE_ERROR,
      INTERFEROMETER_PHASE_ERROR (degrees) and the cone-effect table: the
      elevation bounds, the azimuth bounds and one row of errors per
      elevation bound. */
  datatype Constants = Constants(
    alignmentError: real, attitudeError: real, phaseError: real,
    betaBounds: seq<real>, alphaBounds: seq<real>, coneTable: seq<seq<real>>)

  /** The shape the table lookups rely on: at least one level each way,
      positive last bounds, and a full table. */
  predicate WellFormed(k: Constants)
  {
    |k.betaBounds| >= 1 && |k.alphaBounds| >= 1 &&
    Last(k.betaBounds) > 0.0 && Last(k.alphaBounds) > 0.0 &&
    |k.coneTable| == |k.betaBounds| &&
    forall i :: 0 <= i < |k.coneTable| ==> |k.coneTable[i]| == |k.alphaBounds|
  }

  function Last(s: seq<real>): real
    requires |s| >= 1
  {
    s[|s| - 1]
  }

  // ---------------------------------------------------------------------
  // calculateErrors

  /** The baseline is floored at 1 mm. */
  const MinBaseline: real := 0.001

  function FloorBaseline(d: real): (r: real)
    ensures r >= MinBaseline
    ensures d >= MinBaseline ==> r == d
    ensures d < MinBaseline ==> r == MinBaseline
  {
    if d < MinBaseline then MinBaseline else d
  }

  /** A cosine this close to zero is replaced by +1e-6, whatever its sign. */
  const MinCosine: real := 0.000001

  function FlooredCos(c: real): (r: real)
    ensures Abs(r) >= MinCosine
    ensures Abs(c) >= MinCosine ==> r == c
    ensures Abs(c) < MinCosine ==> r == MinCosine
  {
    if Abs(c) < MinCosine then MinCosine else c
  }

  /** A negative cosine close to zero changes sign. */
  lemma FlooredCosFlipsSign()
    ensures FlooredCos(-0.0000005) == MinCosine
  {
  }

  /** The azimuth folded by the symmetry of the cone effect: |theta| modulo
      180, reflected about 90. */
  function FoldAzimuth(m: Math, theta: real): (r: real)
    requires Lawful(m)
    ensures 0.0 <= r <= 90.0
  {
    var alpha := m.fmod(Abs(theta), 180.0);
    if alpha > 90.0 then 180.0 - alpha else alpha
  }

  /** The fold depends only on |theta|. */
  lemma FoldAzimuthSymmetric(m: Math, theta: real)
    requires Lawful(m)
    ensures FoldAzimuth(m, -theta) == FoldAzimuth(m, theta)
  {
    assert Abs(-theta) == Abs(theta);
  }

  /** A value above the last bound is replaced by the last bound. */
  function ClampToLast(x: real, bounds: seq<real>): (r: real)
    requires |bounds| >= 1
    ensures r <= Last(bounds)
    ensures x <= Last(bounds) ==> r == x
  {
    if x > Last(bounds) then Last(bounds) else x
  }

  /** The first index from `i` on whose bound is at least `x`, or -1. */
  function FirstAtLeastFrom(bounds: seq<real>, x: real, i: nat): (r: int)
    requires i <= |bounds|
    ensures -1 <= r < |bounds|
    ensures r == -1 <==> forall j :: i <= j < |bounds| ==> bounds[j] < x
    ensures r >= 0 ==> i <= r && x <= bounds[r] && forall j :: i <= j < r ==> bounds[j] < x
    decreases |bounds| - i
  {
    if i == |bounds| then -1
    else if x <= bounds[i] then i
    else FirstAtLeastFrom(bounds, x, i + 1)
  }

  function FirstAtLeast(bounds: seq<real>, x: real): int
  {
    FirstAtLeastFrom(bounds, x, 0)
  }

  /** The index search loop of the table lookup. */
  method FindLevel(bounds: seq<real>, x: real) returns (index: int)
    ensures index == FirstAtLeast(bounds, x)
  {
    index := -1;
    var i := 0;
    while i < |bounds|
      invariant 0 <= i <= |bounds|
      invariant FirstAtLeastFrom(bounds, x, i) == FirstAtLeast(bounds, x)
    {
      if x <= bounds[i] {
        index := i;
        return;
      }
      i := i + 1;
    }
  }

  /** A value clamped to the last bound always finds a level, whether or not
      the bounds ascend. */
  lemma ClampedLevelFound(bounds: seq<real>, x: real)
    requires |bounds| >= 1
    ensures 0 <= FirstAtLeast(bounds, ClampToLast(x, bounds)) < |bounds|
  {
    assert bounds[|bounds| - 1] >= ClampToLast(x, bounds);
  }

  /** One ratio of the scale factor: how far a value beyond the table goes
      past its last bound, at most twice. */
  function ExcessRatio(x: real, last: real): (r: real)
    requires last > 0.0
    ensures x > last ==> 1.0 < r <= 2.0
    ensures x <= last ==> r == 1.0
  {
    if x > last then Min(x / last, 2.0) else 1.0
  }

  /** The factor applied to the table value: the product of the two ratios,
      in [1, 4], and exactly 1 inside the table. */
  function ConeScale(beta: real, alpha: real, k: Constants): (s: real)
    requires WellFormed(k)
    ensures 1.0 <= s <= 4.0
    ensures beta <= Last(k.betaBounds) && alpha <= Last(k.alphaBounds) ==> s == 1.0
  {
    var rb, ra := ExcessRatio(beta, Last(k.betaBounds)), ExcessRatio(alpha, Last(k.alphaBounds));
    ProductBounds(rb, ra);
    rb * ra
  }

  lemma ProductBounds(a: real, b: real)
    requires 1.0 <= a <= 2.0 && 1.0 <= b <= 2.0
    ensures 1.0 <= a * b <= 4.0
  {
    NonNegativeProduct(a - 1.0, b);
    NonNegativeProduct(2.0 - a, b);
    assert a * b - 1.0 == (a - 1.0) * b + (b - 1.0);
    assert 4.0 - a * b == (2.0 - a) * b + 2.0 * (2.0 - b);
  }

  /** The cone-effect error for the direction (theta, elevation): the table
      entry of the clamped, folded angles, scaled when an angle lies beyond
      the table. */
  function ConeEffectError(m: Math, k: Constants, theta: real, elevation: real): real
    requires Lawful(m) && WellFormed(k)
  {
    var beta, alpha := Abs(elevation), FoldAzimuth(m, theta);
    var bi := FirstAtLeast(k.betaBounds, ClampToLast(beta, k.betaBounds));
    var ai := FirstAtLeast(k.alphaBounds, ClampToLast(alpha, k.alphaBounds));
    if bi >= 0 && ai >= 0 then
      var entry := k.coneTable[bi][ai];
      if beta > Last(k.betaBounds) || alpha > Last(k.alphaBounds) then entry * ConeScale(beta, alpha, k) else entry
    else 0.0
  }

  /** The cone-effect error is always a table entry times a factor in
      [1, 4]: the lookup never falls through to 0. */
  lemma ConeEffectFromTable(m: Math, k: Constants, theta: real, elevation: real)
    requires Lawful(m) && WellFormed(k)
    ensures var beta, alpha := Abs(elevation), FoldAzimuth(m, theta);
            var bi := FirstAtLeast(k.betaBounds, ClampToLast(beta, k.betaBounds));
            var ai := FirstAtLeast(k.alphaBounds, ClampToLast(alpha, k.alphaBounds));
            0 <= bi < |k.betaBounds| && 0 <= ai < |k.alphaBounds| &&
            ConeEffectError(m, k, theta, elevation) == k.coneTable[bi][ai] * ConeScale(beta, alpha, k)
  {
    var beta, alpha := Abs(elevation), FoldAzimuth(m, theta);
    ClampedLevelFound(k.betaBounds, beta);
    ClampedLevelFound(k.alphaBounds, alpha);
    var bi := FirstAtLeast(k.betaBounds, ClampToLast(beta, k.betaBounds));
    var ai := FirstAtLeast(k.alphaBounds, ClampToLast(alpha, k.alphaBounds));
    var s := ConeScale(beta, alpha, k);
    if beta > Last(k.betaBounds) || alpha > Last(k.alphaBounds) {
      assert ConeEffectError(m, k, theta, elevation) == k.coneTable[bi][ai] * s;
    } else {
      assert ConeEffectError(m, k, theta, elevation) == k.coneTable[bi][ai] * 1.0;
    }
  }

  /** calculateDirectionData: the angles from the device, moved along its
      velocity for one second, to the source. */
  function DirectionData(m: Math, device: ReconnaissanceDeviceModel.Device,
                         source: RadiationSourceModel.Source): (r: (real, real))
    requires Lawful(m)
    ensures 0.0 <= r.0 < 360.0 && -90.0 <= r.1 <= 90.0
  {
    var deviceXyz := m.lbh2xyz(Coord3(device.longitude, device.latitude, device.altitude));
    var sourceXyz := m.lbh2xyz(Coord3(source.longitude, source.latitude, source.altitude));
    var v := m.velocity(device.longitude, device.latitude, device.movementSpeed,
                        device.movementAzimuth, device.movementElevation);
    var moved := Coord3(deviceXyz.p1 + v.p1 * 1.0, deviceXyz.p2 + v.p2 * 1.0, deviceXyz.p3 + v.p3 * 1.0);
    AngleValidator.AzimuthElevation(m, moved, sourceXyz)
  }

  /** The antenna-array error sigma_theta in radians:
      lambda / (2 pi d cos theta) times the phase error, with the floored
      baseline and cosine keeping the divisor away from zero. */
  function AntennaErrorRad(m: Math, k: Constants, device: ReconnaissanceDeviceModel.Device,
                           source: RadiationSourceModel.Source, theta: real): real
  {
    var d := FloorBaseline(device.baselineLength);
    var lambda := m.div(C, source.carrierFrequency * 1000000000.0);
    var cosTheta := FlooredCos(m.cos(theta * Deg2Rad));
    NonZeroProduct(2.0 * Pi * d, cosTheta);
    (lambda / (2.0 * Pi * d * cosTheta)) * (k.phaseError * Deg2Rad)
  }

  lemma NonZeroProduct(a: real, b: real)
    requires a > 0.0 && b != 0.0
    ensures a * b != 0.0
  {
  }

  /** The sum under the root of the total error. */
  function TotalErrorSquared(alignment: real, attitude: real, cone: real, antennaRad: real): real
  {
    attitude * attitude + cone * cone + antennaRad * antennaRad + alignment * alignment
  }

  /** The root of the total is a non-negative square root of it. */
  lemma RootOfSquares(m: Math, alignment: real, attitude: real, cone: real, antennaRad: real)
    requires SqrtLawful(m)
    ensures m.sqrt(TotalErrorSquared(alignment, attitude, cone, antennaRad)) >= 0.0
    ensures m.sqrt(TotalErrorSquared(alignment, attitude, cone, antennaRad)) *
            m.sqrt(TotalErrorSquared(alignment, attitude, cone, antennaRad)) ==
            TotalErrorSquared(alignment, attitude, cone, antennaRad)
  {
    SquareNonNegative(alignment);
    SquareNonNegative(attitude);
    SquareNonNegative(cone);
    SquareNonNegative(antennaRad);
  }

  /** The budget's total is the root of the sum of the squared factors,
      the antenna factor taken back to radians. */
  lemma BudgetTotal(m: Math, k: Constants, cone: real, antennaRad: real)
    requires SqrtLawful(m)
    ensures var e := Budget(k, cone, antennaRad, m.sqrt(TotalErrorSquared(k.alignmentError, k.attitudeError, cone, antennaRad)));
            e[4] >= 0.0 && e[4] * e[4] == TotalErrorSquared(e[0], e[1], e[2], e[3] / Rad2Deg)
  {
    RootOfSquares(m, k.alignmentError, k.attitudeError, cone, antennaRad);
    DegreesBack(antennaRad);
  }

  /** Degrees back to radians. */
  lemma DegreesBack(x: real)
    ensures (x * Rad2Deg) / Rad2Deg == x
  {
  }

  /** The five error factors in order: alignment, attitude, cone effect,
      antenna error in degrees, and the total, whose antenna term is the
      error in radians. */
  function ErrorBudget(m: Math, k: Constants, device: ReconnaissanceDeviceModel.Device,
                       source: RadiationSourceModel.Source): (e: seq<real>)
    requires Lawful(m) && WellFormed(k)
    ensures |e| == 5
    ensures e[0] == k.alignmentError && e[1] == k.attitudeError
  {
    var direction := DirectionData(m, device, source);
    var cone := ConeEffectError(m, k, direction.0, direction.1);
    var sigmaTheta := AntennaErrorRad(m, k, device, source, direction.0);
    var squared := TotalErrorSquared(k.alignmentError, k.attitudeError, cone, sigmaTheta);
    Budget(k, cone, sigmaTheta, m.sqrt(squared))
  }

  /** The total is the root of the sum of the other four factors squared,
      the antenna factor taken back to radians. */
  lemma ErrorBudgetTotal(m: Math, k: Constants, device: ReconnaissanceDeviceModel.Device,
                         source: RadiationSourceModel.Source)
    requires Lawful(m) && WellFormed(k)
    ensures var e := ErrorBudget(m, k, device, source);
            e[4] >= 0.0 && e[4] * e[4] == TotalErrorSquared(e[0], e[1], e[2], e[3] / Rad2Deg)
  {
    var direction := DirectionData(m, device, source);
    var cone := ConeEffectError(m, k, direction.0, direction.1);
    var sigmaTheta := AntennaErrorRad(m, k, device, source, direction.0);
    assert ErrorBudget(m, k, device, source) ==
           Budget(k, cone, sigmaTheta, m.sqrt(TotalErrorSquared(k.alignmentError, k.attitudeError, cone, sigmaTheta)));
    BudgetTotal(m, k, cone, sigmaTheta);
  }

  /** The five factors from the cone-effect error, the antenna error in
      radians and the total. */
  function Budget(k: Constants, cone: real, antennaRad: real, total: real): seq<real>
  {
    [k.alignmentError, k.attitudeError, cone, antennaRad * Rad2Deg, total]
  }

  /** The table lookup of calculateErrors, with its two index searches. */
  method LookUpConeEffect(m: Math, k: Constants, theta: real, elevation: real) returns (sigmaBeta: real)
    requires Lawful(m) && WellFormed(k)
    ensures sigmaBeta == ConeEffectError(m, k, theta, elevation)
  {
    var beta, alpha := Abs(elevation), FoldAzimuth(m, theta);
    sigmaBeta := 0.0;
    var betaToUse, alphaToUse := ClampToLast(beta, k.betaBounds), ClampToLast(alpha, k.alphaBounds);
    var betaIndex := FindLevel(k.betaBounds, betaToUse);
    var alphaIndex := FindLevel(k.alphaBounds, alphaToUse);
    if betaIndex >= 0 && alphaIndex >= 0 {
      sigmaBeta := k.coneTable[betaIndex][alphaIndex];
      if beta > Last(k.betaBounds) || alpha > Last(k.alphaBounds) {
        sigmaBeta := sigmaBeta * ConeScale(beta, alpha, k);
      }
    }
  }

  /** calculateErrors: the five factors pushed in order. The distance
      argument is unused. */
  method CalculateErrors(m: Math, k: Constants, device: ReconnaissanceDeviceModel.Device,
                         source: RadiationSourceModel.Source, distance: real) returns (errors: seq<real>)
    requires Lawful(m) && WellFormed(k)
    ensures errors == ErrorBudget(m, k, device, source)
  {
    var direction := DirectionData(m, device, source);
    var theta, elevation := direction.0, direction.1;
    var sigmaBeta := LookUpConeEffect(m, k, theta, elevation);
    var sigmaThetaRad := AntennaErrorRad(m, k, device, source, theta);
    var totalError := m.sqrt(TotalErrorSquared(k.alignmentError, k.attitudeError, sigmaBeta, sigmaThetaRad));
    errors := PushErrors(k, sigmaBeta, sigmaThetaRad, totalError);
  }

  /** The pushes of calculateErrors, the antenna error converted to
      degrees before it is pushed. */
  method PushErrors(k: Constants, sigmaBeta: real, sigmaThetaRad: real, totalError: real) returns (errors: seq<real>)
    ensures errors == Budget(k, sigmaBeta, sigmaThetaRad, totalError)
  {
    errors := [k.alignmentError];
    errors := errors + [k.attitudeError];
    errors := errors + [sigmaBeta];
    var sigmaTheta := sigmaThetaRad * Rad2Deg;
    errors := errors + [sigmaTheta];
    errors := errors + [totalError];
  }

  // ---------------------------------------------------------------------
  // runSimulation

  /** The device position after moving `t` seconds along its velocity
      from its geodetic position. */
  function MovedPosition(m: Math, device: ReconnaissanceDeviceModel.Device, t: real): (moved: Coord3)
    ensures var p0 := m.lbh2xyz(Coord3(device.longitude, device.latitude, device.altitude));
            var v := m.velocity(device.longitude, device.latitude, device.movementSpeed,
                                device.movementAzimuth, device.movementElevation);
            moved.p1 - p0.p1 == v.p1 * t && moved.p2 - p0.p2 == v.p2 * t && moved.p3 - p0.p3 == v.p3 * t
  {
    var p0 := m.lbh2xyz(Coord3(device.longitude, device.latitude, device.altitude));
    var v := m.velocity(device.longitude, device.latitude, device.movementSpeed,
                        device.movementAzimuth, device.movementElevation);
    Coord3(p0.p1 + v.p1 * t, p0.p2 + v.p2 * t, p0.p3 + v.p3 * t)
  }

  /** The phase-rate method: the range estimate r_hat and the source
      position it gives in Cartesian coordinates, from the device moved for
      `t` seconds. */
  function PhaseRateFix(m: Math, device: ReconnaissanceDeviceModel.Device,
                        source: RadiationSourceModel.Source, t: real): (fix: (real, Coord3))
  {
    var target := m.lbh2xyz(Coord3(source.longitude, source.latitude, source.altitude));
    var v := m.velocity(device.longitude, device.latitude, device.movementSpeed,
                        device.movementAzimuth, device.movementElevation);
    var d := device.baselineLength;
    var fT := source.carrierFrequency * 1000000000.0;
    var moved := MovedPosition(m, device, t);
    var dx, dy, dz := target.p1 - moved.p1, target.p2 - moved.p2, target.p3 - moved.p3;
    var theta := m.atan2Deg(dx, dy) * Deg2Rad;
    var rPt := m.sqrt(dx * dx + dy * dy);
    var epsilon := m.atan2Deg(dz, rPt) * Deg2Rad;
    var rPtDot := dx * m.sin(theta) + dy * m.cos(theta);
    var rT := m.sqrt(SumSquares(dx, dy, dz));
    var tangential := v.p2 * m.sin(theta) - v.p1 * m.cos(theta);
    var vertical := rPtDot * m.sin(epsilon) - v.p3 * m.cos(epsilon);
    var phaseRate := (2.0 * Pi * d * fT / C) *
      (m.div(tangential * m.cos(theta) * m.cos(epsilon), rT * m.cos(epsilon)) -
       m.div(vertical * m.sin(theta) * m.sin(epsilon), rT));
    var numerator := tangential * m.cos(theta) * m.cos(epsilon) - vertical * m.sin(theta) * m.sin(epsilon);
    var denominator := m.div(phaseRate * C, 2.0 * Pi * d * fT);
    var rHat := m.div(numerator, denominator);
    (rHat, Coord3(moved.p1 + rHat * m.cos(epsilon) * m.sin(theta),
                  moved.p2 + rHat * m.cos(epsilon) * m.cos(theta),
                  moved.p3 + rHat * m.sin(epsilon)))
  }

  /** The azimuth of the result: atan2 in degrees, shifted once by +360
      when negative. */
  function ResultAzimuth(a: real): real
  {
    if a < 0.0 then a + 360.0 else a
  }

  lemma ResultAzimuthRange(a: real)
    requires -180.0 < a <= 180.0
    ensures 0.0 <= ResultAzimuth(a) < 360.0
    ensures ResultAzimuth(a) == a || ResultAzimuth(a) == a + 360.0
  {
  }

  /** runSimulation: the fix from the phase-rate geometry, the angles
      towards the source from the moved device, the error budget, and the
      task record whose accuracies are the total error (the last factor).
      The returned result keeps the default accuracy and distance. */
  method RunSimulation(m: Math, k: Constants, device: ReconnaissanceDeviceModel.Device,
                       source: RadiationSourceModel.Source, simulationTime: int)
    returns (result: LocationResult, task: StoredTask)
    requires Lawful(m) && WellFormed(k)
    ensures var t := simulationTime as real;
            var fix := m.xyz2lbh(PhaseRateFix(m, device, source, t).1);
            result.longitude == fix.p1 && result.latitude == fix.p2 && result.altitude == fix.p3
    ensures (result.azimuth, result.elevation) ==
            AngleValidator.AzimuthElevation(m, MovedPosition(m, device, simulationTime as real),
                                            m.lbh2xyz(Coord3(source.longitude, source.latitude, source.altitude)))
    ensures 0.0 <= result.azimuth < 360.0 && -90.0 <= result.elevation <= 90.0
    ensures result.errorFactors == ErrorBudget(m, k, device, source)
    ensures result.accuracy == 0.0 && result.distance == 0.0 && result.validAngle && result.validSnr
    ensures task.techSystem == "INTERFEROMETER" && task.deviceId == device.id && task.radiationId == source.id
    ensures task.executionTime == simulationTime as real && task.positioningTime == simulationTime as real
    ensures task.positioningAccuracy == result.errorFactors[4] &&
            task.directionFindingAccuracy == result.errorFactors[4] && task.angleError == result.errorFactors[4]
    ensures task.targetLongitude == result.longitude && task.targetLatitude == result.latitude &&
            task.targetAltitude == result.altitude
  {
    var t := simulationTime as real;
    var target := m.lbh2xyz(Coord3(source.longitude, source.latitude, source.altitude));
    var moved := MovedPosition(m, device, t);
    // theta(t) and epsilon(t) in degrees, the azimuth shifted into [0, 360)
    var angles := AngleValidator.AzimuthElevation(m, moved, target);
    var rHatAndFix := PhaseRateFix(m, device, source, t);
    var sourceLbh := m.xyz2lbh(rHatAndFix.1);
    result := DefaultLocationResult;
    result := result.(longitude := sourceLbh.p1, latitude := sourceLbh.p2, altitude := sourceLbh.p3);
    result := result.(azimuth := angles.0, elevation := angles.1);
    var errors := CalculateErrors(m, k, device, source, rHatAndFix.0);
    result := result.(errorFactors := errors);
    var positioningAccuracy := 0.0;
    if |errors| > 0 {
      positioningAccuracy := errors[|errors| - 1];
    }
    var directionFindingAccuracy := positioningAccuracy;
    task := StoredTask("INTERFEROMETER", device.id, source.id, t,
                       result.longitude, result.latitude, result.altitude,
                       directionFindingAccuracy, t, positioningAccuracy, directionFindingAccuracy);
  }
}
