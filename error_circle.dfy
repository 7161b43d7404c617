/** utils/ErrorCircle.cpp: the error circle of two-station direction
    finding. A hundred bearing fixes with drawn errors are made, their
    deviations from the true target give a 2x2 covariance, and the circular
    error probable (CEP) comes from its eigenvalues. The normal draws are
    inputs: `draws[i]` holds the two standard-normal values the truncated
    rejection loops accepted for fix i. */
module ErrorCircle {
  import opened Common
  import ReconnaissanceDeviceModel
  import RadiationSourceModel

  /** Number of simulated fixes. */
  const PointCount: nat := 100
  /** A bearing slope above this magnitude is treated as a vertical line. */
  const SteepSlope: real := 1000000.0
  /** CEP = 0.59 * (major + minor semi-axis). */
  const CepFactor: real := 0.59

  /** DFResult: the estimated points and the CEP radius; a default result
      has neither. */
  datatype DFResult = DFResult(estimatedPoints: seq<Coord3>, cepRadius: real)

  const DefaultDFResult: DFResult := DFResult([], 0.0)

  /** loadDeviceInfo: the output list is cleared, then gets the first row
      of each name in name order, names no row carries being skipped; it
      succeeds with at least two devices. */
  method LoadDeviceInfo(allDevices: seq<ReconnaissanceDeviceModel.Device>, deviceNames: seq<string>)
    returns (ok: bool, selectedDevices: seq<ReconnaissanceDeviceModel.Device>)
    ensures selectedDevices == ReconnaissanceDeviceModel.MatchKnownNames(allDevices, deviceNames)
    ensures ok <==> |selectedDevices| >= 2
  {
    selectedDevices := [];
    var k := 0;
    while k < |deviceNames|
      invariant 0 <= k <= |deviceNames|
      invariant selectedDevices == ReconnaissanceDeviceModel.MatchKnownNames(allDevices, deviceNames[..k])
    {
      assert deviceNames[..k + 1][..k] == deviceNames[..k];
      var found := ReconnaissanceDeviceModel.FindByName(allDevices, deviceNames[k]);
      if found.Some? {
        selectedDevices := selectedDevices + [found.value];
      }
      k := k + 1;
    }
    assert deviceNames[..|deviceNames|] == deviceNames;
    ok := |selectedDevices| >= 2;
  }

  /** loadSourceInfo: the first source with that name is copied into the
      out-parameter and true returned; with none, false and the
      out-parameter is left as it was. */
  function LoadSourceInfo(allSources: seq<RadiationSourceModel.Source>, sourceName: string,
                          source: RadiationSourceModel.Source): (r: (bool, RadiationSourceModel.Source))
    ensures r.0 <==> exists i :: 0 <= i < |allSources| && allSources[i].name == sourceName
    ensures r.0 ==> exists i :: 0 <= i < |allSources| && allSources[i] == r.1 && r.1.name == sourceName &&
                               forall j :: 0 <= j < i ==> allSources[j].name != sourceName
    ensures !r.0 ==> r.1 == source
  {
    match RadiationSourceModel.FindByName(allSources, sourceName)
    case Some(s) => (true, s)
    case None => (false, source)
  }

  // ---------------------------------------------------------------------
  // Covariance of the deviations

  /** The sums of the first n x and y components. */
  function Sums(ds: seq<Coord3>, n: nat): (real, real)
    requires n <= |ds|
  {
    if n == 0 then (0.0, 0.0)
    else
      var (sx, sy) := Sums(ds, n - 1);
      (sx + ds[n - 1].p1, sy + ds[n - 1].p2)
  }

  /** Second moments about (mx, my): sums of dx*dx, dy*dy and dx*dy. */
  datatype Moments = Moments(xx: real, yy: real, xy: real)

  function Sq(v: real): real
  {
    v * v
  }

  /** The moments of one deviation (dx, dy). */
  function Single(dx: real, dy: real): Moments
  {
    Moments(Sq(dx), Sq(dy), dx * dy)
  }

  function Add(a: Moments, b: Moments): Moments
  {
    Moments(a.xx + b.xx, a.yy + b.yy, a.xy + b.xy)
  }

  function MomentsUpTo(ds: seq<Coord3>, mx: real, my: real, n: nat): Moments
    requires n <= |ds|
  {
    if n == 0 then Moments(0.0, 0.0, 0.0)
    else Add(MomentsUpTo(ds, mx, my, n - 1), Single(ds[n - 1].p1 - mx, ds[n - 1].p2 - my))
  }

  /** The covariance entries cov00, cov01, cov11. */
  datatype Covariance2 = Covariance2(c00: real, c01: real, c11: real)

  /** A symmetric 2x2 matrix is positive semidefinite when its diagonal is
      non-negative and its off-diagonal square is at most the product of
      the diagonal. */
  predicate SemiDefinite(c: Covariance2)
  {
    c.c00 >= 0.0 && c.c11 >= 0.0 && Sq(c.c01) <= c.c00 * c.c11
  }

  /** computeCovariance2x2: the moments about the mean, divided by n - 1
      only when there are at least two deviations. The result is always
      positive semidefinite, and all zero without deviations (whose mean,
      0/0, then enters no sum). */
  function Covariance(m: Math, ds: seq<Coord3>): (c: Covariance2)
    ensures SemiDefinite(c)
    ensures |ds| == 0 ==> c == Covariance2(0.0, 0.0, 0.0)
  {
    var n := |ds| as real;
    var (sx, sy) := Sums(ds, |ds|);
    var mx, my := m.div(sx, n), m.div(sy, n);
    var mo := MomentsUpTo(ds, mx, my, |ds|);
    MomentsSemiDefinite(ds, mx, my, |ds|);
    if |ds| > 1 then
      var d := (|ds| - 1) as real;
      ScaledSemiDefinite(Covariance2(mo.xx, mo.xy, mo.yy), d);
      Covariance2(mo.xx / d, mo.xy / d, mo.yy / d)
    else Covariance2(mo.xx, mo.xy, mo.yy)
  }

  lemma SqNonNegative(v: real)
    ensures Sq(v) >= 0.0
  {
    SquareNonNegative(v);
  }

  /** The planar cross product of the deviations (a, b) and (x, y). */
  function Cross(a: real, b: real, x: real, y: real): real
  {
    a * y - x * b
  }

  /** Inner Lagrange sum: the squared cross products of deviation j with
      each of the first i deviations. */
  function CrossSquares(ds: seq<Coord3>, mx: real, my: real, j: nat, i: nat): real
    requires i <= j < |ds|
  {
    if i == 0 then 0.0
    else
      CrossSquares(ds, mx, my, j, i - 1) +
        Sq(Cross(ds[i - 1].p1 - mx, ds[i - 1].p2 - my, ds[j].p1 - mx, ds[j].p2 - my))
  }

  /** Outer Lagrange sum: the squared cross products of every pair among
      the first n deviations. */
  function LagrangeSum(ds: seq<Coord3>, mx: real, my: real, n: nat): real
    requires n <= |ds|
  {
    if n == 0 then 0.0 else LagrangeSum(ds, mx, my, n - 1) + CrossSquares(ds, mx, my, n - 1, n - 1)
  }

  /** The quadratic form xx*y^2 + yy*x^2 - 2*xy*x*y of the moments at (x, y). */
  function Form(mo: Moments, x: real, y: real): real
  {
    mo.xx * Sq(y) + mo.yy * Sq(x) - 2.0 * mo.xy * (x * y)
  }

  /** The Gram determinant xx*yy - xy^2. */
  function Gram(mo: Moments): real
  {
    mo.xx * mo.yy - mo.xy * mo.xy
  }

  lemma CrossStep(mo: Moments, a: real, b: real, x: real, y: real)
    ensures Form(Add(mo, Single(a, b)), x, y) == Form(mo, x, y) + Sq(Cross(a, b, x, y))
  {
  }

  lemma GramStep(mo: Moments, x: real, y: real)
    ensures Gram(Add(mo, Single(x, y))) == Gram(mo) + Form(mo, x, y)
  {
  }

  /** The inner Lagrange sum is the quadratic form of the earlier moments at
      deviation j, and is non-negative. */
  lemma {:induction false} CrossSquaresClosedForm(ds: seq<Coord3>, mx: real, my: real, j: nat, i: nat)
    requires i <= j < |ds|
    ensures CrossSquares(ds, mx, my, j, i) == Form(MomentsUpTo(ds, mx, my, i), ds[j].p1 - mx, ds[j].p2 - my)
    ensures CrossSquares(ds, mx, my, j, i) >= 0.0
  {
    if i > 0 {
      CrossSquaresClosedForm(ds, mx, my, j, i - 1);
      CrossStep(MomentsUpTo(ds, mx, my, i - 1), ds[i - 1].p1 - mx, ds[i - 1].p2 - my, ds[j].p1 - mx, ds[j].p2 - my);
      SqNonNegative(Cross(ds[i - 1].p1 - mx, ds[i - 1].p2 - my, ds[j].p1 - mx, ds[j].p2 - my));
    }
  }

  /** Lagrange's identity for the moments: xx*yy - xy^2 is a sum of
      squares, hence non-negative (the Cauchy-Schwarz inequality). */
  lemma {:induction false} LagrangeIdentity(ds: seq<Coord3>, mx: real, my: real, n: nat)
    requires n <= |ds|
    ensures Gram(MomentsUpTo(ds, mx, my, n)) == LagrangeSum(ds, mx, my, n)
    ensures LagrangeSum(ds, mx, my, n) >= 0.0
  {
    if n > 0 {
      LagrangeIdentity(ds, mx, my, n - 1);
      CrossSquaresClosedForm(ds, mx, my, n - 1, n - 1);
      GramStep(MomentsUpTo(ds, mx, my, n - 1), ds[n - 1].p1 - mx, ds[n - 1].p2 - my);
    }
  }

  lemma {:induction false} MomentsDiagonal(ds: seq<Coord3>, mx: real, my: real, n: nat)
    requires n <= |ds|
    ensures MomentsUpTo(ds, mx, my, n).xx >= 0.0 && MomentsUpTo(ds, mx, my, n).yy >= 0.0
  {
    if n > 0 {
      MomentsDiagonal(ds, mx, my, n - 1);
      SqNonNegative(ds[n - 1].p1 - mx);
      SqNonNegative(ds[n - 1].p2 - my);
    }
  }

  /** The moments about any point form a semidefinite matrix. */
  lemma MomentsSemiDefinite(ds: seq<Coord3>, mx: real, my: real, n: nat)
    requires n <= |ds|
    ensures var mo := MomentsUpTo(ds, mx, my, n);
            SemiDefinite(Covariance2(mo.xx, mo.xy, mo.yy))
  {
    MomentsDiagonal(ds, mx, my, n);
    LagrangeIdentity(ds, mx, my, n);
  }

  /** Dividing a semidefinite matrix by a positive number keeps it
      semidefinite. */
  lemma ScaledSemiDefinite(c: Covariance2, d: real)
    requires SemiDefinite(c) && d > 0.0
    ensures SemiDefinite(Covariance2(c.c00 / d, c.c01 / d, c.c11 / d))
  {
    var s := 1.0 / d;
    assert s > 0.0;
    assert c.c00 / d == c.c00 * s && c.c01 / d == c.c01 * s && c.c11 / d == c.c11 * s;
    NonNegativeProduct(c.c00, s);
    NonNegativeProduct(c.c11, s);
    var ss := s * s;
    ProductPositive(s, s);
    assert Sq(c.c01 * s) == Sq(c.c01) * ss;
    assert (c.c00 * s) * (c.c11 * s) == (c.c00 * c.c11) * ss;
    MultiplyMonotone(Sq(c.c01), c.c00 * c.c11, ss);
  }

  lemma MultiplyMonotone(a: real, b: real, s: real)
    requires a <= b && s > 0.0
    ensures a * s <= b * s
  {
    assert b * s - a * s == (b - a) * s;
    NonNegativeProduct(b - a, s);
  }

  /** computeCovariance2x2 with its two passes over the deviations. */
  method ComputeCovariance2x2(m: Math, deviations: seq<Coord3>) returns (cov00: real, cov01: real, cov11: real)
    ensures Covariance2(cov00, cov01, cov11) == Covariance(m, deviations)
    ensures SemiDefinite(Covariance2(cov00, cov01, cov11))
  {
    var meanX, meanY := 0.0, 0.0;
    var n := |deviations|;
    var k := 0;
    while k < n
      invariant 0 <= k <= n
      invariant (meanX, meanY) == Sums(deviations, k)
    {
      meanX := meanX + deviations[k].p1;
      meanY := meanY + deviations[k].p2;
      k := k + 1;
    }
    meanX := m.div(meanX, n as real);
    meanY := m.div(meanY, n as real);
    cov00, cov01, cov11 := 0.0, 0.0, 0.0;
    k := 0;
    while k < n
      invariant 0 <= k <= n
      invariant Moments(cov00, cov11, cov01) == MomentsUpTo(deviations, meanX, meanY, k)
    {
      var dx := deviations[k].p1 - meanX;
      var dy := deviations[k].p2 - meanY;
      assert MomentsUpTo(deviations, meanX, meanY, k + 1) ==
             Add(MomentsUpTo(deviations, meanX, meanY, k), Single(dx, dy));
      assert Single(dx, dy) == Moments(dx * dx, dy * dy, dx * dy);
      cov00 := cov00 + dx * dx;
      cov11 := cov11 + dy * dy;
      cov01 := cov01 + dx * dy;
      k := k + 1;
    }
    if n > 1 {
      cov00 := cov00 / ((n - 1) as real);
      cov11 := cov11 / ((n - 1) as real);
      cov01 := cov01 / ((n - 1) as real);
    }
  }

  // ---------------------------------------------------------------------
  // Eigenvalues and the CEP radius

  function Trace(c: Covariance2): real
  {
    c.c00 + c.c11
  }

  function Det(c: Covariance2): real
  {
    c.c00 * c.c11 - Sq(c.c01)
  }

  /** trace^2 - 4 det, which is (c00 - c11)^2 + 4 c01^2. */
  function Discriminant(c: Covariance2): (r: real)
    ensures r >= 0.0
  {
    var d := c.c00 - c.c11;
    assert Sq(Trace(c)) - 4.0 * Det(c) == Sq(d) + 4.0 * Sq(c.c01);
    SqNonNegative(d);
    SqNonNegative(c.c01);
    Sq(Trace(c)) - 4.0 * Det(c)
  }

  /** eigenDecomposition2x2: the two roots (trace +- sqrt(trace^2 - 4 det)) / 2,
      the larger first. They sum to the trace and multiply to the
      determinant, and both are non-negative for a semidefinite matrix. */
  function Eigenvalues(m: Math, c: Covariance2): (r: (real, real))
    requires Lawful(m)
    ensures r.0 >= r.1
    ensures r.0 + r.1 == Trace(c)
    ensures r.0 * r.1 == Det(c)
    ensures SemiDefinite(c) ==> r.1 >= 0.0
  {
    var trace := Trace(c);
    var temp := m.sqrt(Discriminant(c));
    var r := ((trace + temp) / 2.0, (trace - temp) / 2.0);
    assert r.0 * r.1 == (Sq(trace) - temp * temp) / 4.0;
    if SemiDefinite(c) then
      SmallerRootNonNegative(m, c);
      r
    else r
  }

  /** For a semidefinite matrix sqrt(trace^2 - 4 det) is at most the trace. */
  lemma SmallerRootNonNegative(m: Math, c: Covariance2)
    requires Lawful(m) && SemiDefinite(c)
    ensures m.sqrt(Discriminant(c)) <= Trace(c)
  {
    NonNegativeProduct(c.c00, c.c11);
    assert Det(c) >= 0.0;
    SqrtBelow(m, Discriminant(c), Trace(c));
  }

  /** The CEP radius 0.59 * (sqrt(major) + sqrt(minor)) of the eigenvalues;
      non-negative and at least 1.18 times the minor semi-axis when the
      smaller eigenvalue is non-negative. */
  function CepRadius(m: Math, eig1: real, eig2: real): (r: real)
    requires Lawful(m)
    ensures Min(eig1, eig2) >= 0.0 ==>
              r >= 0.0 && r == CepFactor * (m.sqrt(Max(eig1, eig2)) + m.sqrt(Min(eig1, eig2))) &&
              r >= 2.0 * CepFactor * m.sqrt(Min(eig1, eig2))
  {
    var majorAxis := m.sqrt(Max(eig1, eig2));
    var minorAxis := m.sqrt(Min(eig1, eig2));
    if Min(eig1, eig2) >= 0.0 then
      SqrtMonotone(m, Min(eig1, eig2), Max(eig1, eig2));
      CepFactor * (majorAxis + minorAxis)
    else CepFactor * (majorAxis + minorAxis)
  }

  // ---------------------------------------------------------------------
  // The fixes

  /** The position of a fix from two stations and the tangents of their
      measured bearings: a steep first bearing is the vertical line through
      station 1, a steep second one the vertical line through station 2,
      otherwise the two lines are intersected. */
  function SlopeFix(m: Math, m1: real, m2: real, esm1: Coord3, esm2: Coord3): (r: (real, real))
    ensures Abs(m1) > SteepSlope ==> r.0 == esm1.p1 && r.1 - esm2.p2 == m2 * (r.0 - esm2.p1)
    ensures Abs(m1) <= SteepSlope && Abs(m2) > SteepSlope ==>
              r.0 == esm2.p1 && r.1 - esm1.p2 == m1 * (r.0 - esm1.p1)
    ensures Abs(m1) <= SteepSlope && Abs(m2) <= SteepSlope ==> r.1 - esm1.p2 == m1 * (r.0 - esm1.p1)
  {
    if Abs(m1) > SteepSlope then
      var x := esm1.p1;
      (x, m2 * (x - esm2.p1) + esm2.p2)
    else if Abs(m2) > SteepSlope then
      var x := esm2.p1;
      (x, m1 * (x - esm1.p1) + esm1.p2)
    else
      var x := m.div(m1 * esm1.p1 - m2 * esm2.p1 + esm2.p2 - esm1.p2, m1 - m2);
      (x, m1 * (x - esm1.p1) + esm1.p2)
  }

  /** With two finite, different slopes the fix lies on both bearing lines. */
  lemma SlopeFixOnBothLines(m: Math, m1: real, m2: real, esm1: Coord3, esm2: Coord3)
    requires Lawful(m)
    requires Abs(m1) <= SteepSlope && Abs(m2) <= SteepSlope && m1 != m2
    ensures var r := SlopeFix(m, m1, m2, esm1, esm2);
            r.1 - esm1.p2 == m1 * (r.0 - esm1.p1) && r.1 - esm2.p2 == m2 * (r.0 - esm2.p1)
  {
    var r := SlopeFix(m, m1, m2, esm1, esm2);
    var num := m1 * esm1.p1 - m2 * esm2.p1 + esm2.p2 - esm1.p2;
    assert r.0 == num / (m1 - m2);
    assert r.0 * (m1 - m2) == num;
    assert m1 * (r.0 - esm1.p1) + esm1.p2 - esm2.p2 == m2 * (r.0 - esm2.p1) + (r.0 * (m1 - m2) - num);
  }

  /** The radian bearing of `to` from `from` in the x-y plane. */
  function Bearing(m: Math, from: Coord3, to: Coord3): real
  {
    m.atan2Deg(to.p2 - from.p2, to.p1 - from.p1) * Deg2Rad
  }

  /** The drawn error: mean + sigma * z, converted from degrees. */
  function DrawnError(meanDeg: real, sigmaDeg: real, z: real): real
  {
    meanDeg * Deg2Rad + sigmaDeg * Deg2Rad * z
  }

  /** The error parameters of the two stations, in degrees. */
  datatype ErrorModel = ErrorModel(esm1Mean: real, esm1Sigma: real, esm2Mean: real, esm2Sigma: real)

  /** One deviation: the fix made with the drawn errors, minus the target,
      in the x-y plane. */
  function Deviation(m: Math, esm1: Coord3, esm2: Coord3, target: Coord3, e: ErrorModel, draw: (real, real))
    : (d: Coord3)
    ensures d.p3 == 0.0
  {
    var measured1 := Bearing(m, esm1, target) + DrawnError(e.esm1Mean, e.esm1Sigma, draw.0);
    var measured2 := Bearing(m, esm2, target) + DrawnError(e.esm2Mean, e.esm2Sigma, draw.1);
    var fix := SlopeFix(m, m.tan(measured1), m.tan(measured2), esm1, esm2);
    Coord3(fix.0 - target.p1, fix.1 - target.p2, 0.0)
  }

  /** The point shown for a deviation: target plus deviation, converted to
      geodetic coordinates and back at the target's own height. */
  function EstimatedPoint(m: Math, target: Coord3, targetHeight: real, dev: Coord3): Coord3
  {
    var estimate := m.xyz2lbh(Coord3(target.p1 + dev.p1, target.p2 + dev.p2, target.p3));
    m.lbh2xyz(Coord3(estimate.p1, estimate.p2, targetHeight))
  }

  function Position(m: Math, longitude: real, latitude: real, altitude: real): Coord3
  {
    m.lbh2xyz(Coord3(longitude, latitude, altitude))
  }

  /** The deviation of every drawn fix, in draw order. */
  function DeviationsOf(m: Math, esm1: Coord3, esm2: Coord3, target: Coord3, e: ErrorModel, draws: seq<(real, real)>)
    : (ds: seq<Coord3>)
    ensures |ds| == |draws|
  {
    seq(|draws|, k requires 0 <= k < |draws| => Deviation(m, esm1, esm2, target, e, draws[k]))
  }

  /** The loop making one fix per pair of draws. */
  method Deviations(m: Math, esm1: Coord3, esm2: Coord3, target: Coord3, e: ErrorModel, draws: seq<(real, real)>)
    returns (deviations: seq<Coord3>)
    requires |draws| == PointCount
    ensures |deviations| == PointCount
    ensures forall k :: 0 <= k < PointCount ==> deviations[k] == Deviation(m, esm1, esm2, target, e, draws[k])
  {
    deviations := [];
    var i := 0;
    while i < PointCount
      invariant 0 <= i <= PointCount
      invariant |deviations| == i
      invariant forall k :: 0 <= k < i ==> deviations[k] == Deviation(m, esm1, esm2, target, e, draws[k])
    {
      deviations := deviations + [Deviation(m, esm1, esm2, target, e, draws[i])];
      i := i + 1;
    }
  }

  /** The loop turning each deviation into the point shown. */
  method EstimatedPoints(m: Math, target: Coord3, targetHeight: real, deviations: seq<Coord3>)
    returns (estimatedPoints: seq<Coord3>)
    ensures |estimatedPoints| == |deviations|
    ensures forall k :: 0 <= k < |deviations| ==>
              estimatedPoints[k] == EstimatedPoint(m, target, targetHeight, deviations[k])
  {
    estimatedPoints := [];
    var i := 0;
    while i < |deviations|
      invariant 0 <= i <= |deviations|
      invariant |estimatedPoints| == i
      invariant forall k :: 0 <= k < i ==> estimatedPoints[k] == EstimatedPoint(m, target, targetHeight, deviations[k])
    {
      estimatedPoints := estimatedPoints + [EstimatedPoint(m, target, targetHeight, deviations[i])];
      i := i + 1;
    }
  }

  /** calculateDFErrorCircle. When fewer than two named devices or no
      named source are found the result is the default one. Otherwise it
      holds one estimated point per fix, each the point shown for that
      fix's deviation from the target, and the CEP radius of the
      eigenvalues of the deviations' covariance, which is never negative
      because that covariance is semidefinite. */
  method CalculateDFErrorCircle(m: Math, allDevices: seq<ReconnaissanceDeviceModel.Device>,
                                allSources: seq<RadiationSourceModel.Source>, deviceNames: seq<string>,
                                sourceName: string, e: ErrorModel, draws: seq<(real, real)>)
    returns (result: DFResult)
    requires Lawful(m)
    requires |draws| == PointCount
    ensures |ReconnaissanceDeviceModel.MatchKnownNames(allDevices, deviceNames)| < 2 ||
            RadiationSourceModel.FindByName(allSources, sourceName).None? ==>
              result == DefaultDFResult
    ensures |ReconnaissanceDeviceModel.MatchKnownNames(allDevices, deviceNames)| >= 2 &&
            RadiationSourceModel.FindByName(allSources, sourceName).Some? ==>
              var selected := ReconnaissanceDeviceModel.MatchKnownNames(allDevices, deviceNames);
              var s := RadiationSourceModel.FindByName(allSources, sourceName).value;
              var esm1 := Position(m, selected[0].longitude, selected[0].latitude, selected[0].altitude);
              var esm2 := Position(m, selected[1].longitude, selected[1].latitude, selected[1].altitude);
              var target := Position(m, s.longitude, s.latitude, s.altitude);
              |result.estimatedPoints| == PointCount &&
              (forall i :: 0 <= i < PointCount ==>
                 result.estimatedPoints[i] ==
                   EstimatedPoint(m, target, m.xyz2lbh(target).p3, Deviation(m, esm1, esm2, target, e, draws[i]))) &&
              var eig := Eigenvalues(m, Covariance(m, DeviationsOf(m, esm1, esm2, target, e, draws)));
              result.cepRadius == CepRadius(m, eig.0, eig.1) && result.cepRadius >= 0.0
  {
    var devicesOk, selectedDevices := LoadDeviceInfo(allDevices, deviceNames);
    if !devicesOk {
      return DefaultDFResult;
    }
    var (sourceOk, source) := LoadSourceInfo(allSources, sourceName, RadiationSourceModel.DefaultSource);
    if !sourceOk {
      return DefaultDFResult;
    }
    var esm1 := Position(m, selectedDevices[0].longitude, selectedDevices[0].latitude, selectedDevices[0].altitude);
    var esm2 := Position(m, selectedDevices[1].longitude, selectedDevices[1].latitude, selectedDevices[1].altitude);
    var target := Position(m, source.longitude, source.latitude, source.altitude);
    var deviations := Deviations(m, esm1, esm2, target, e, draws);
    assert deviations == DeviationsOf(m, esm1, esm2, target, e, draws);
    var cov00, cov01, cov11 := ComputeCovariance2x2(m, deviations);
    var (eig1, eig2) := Eigenvalues(m, Covariance2(cov00, cov01, cov11));
    var cepRadius := CepRadius(m, eig1, eig2);
    var targetHeight := m.xyz2lbh(target).p3;
    var estimatedPoints := EstimatedPoints(m, target, targetHeight, deviations);
    result := DFResult(estimatedPoints, cepRadius);
  }
}
