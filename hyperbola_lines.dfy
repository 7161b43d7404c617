/** utils/HyperbolaLines.cpp, class HyperbolaLines: the TDOA hyperbolas
    drawn on the map. For every slave station the hyperbola whose foci are
    the reference station and the slave, and whose range difference is the
    slave's TDOA times the speed of light, is sampled at 100 parameter
    values on each branch side; the samples within 60 km of the target are
    converted to geodetic coordinates and drawn as one polyline. The map
    view is a flag and the JavaScript text is not modelled: the result is
    the list of polylines the script would add. */
module HyperbolaLines {
  import opened Common
  import V = Vector3

  /** Parameter values sampled per hyperbola. */
  const PointsPerCurve: nat := 100
  /** Radius around the target within which samples are drawn (60 km). */
  const DrawRange: real := 60000.0
  /** The colour of a hyperbola without a listed colour. */
  const DefaultColor: string := "white"

  /** calculateDistance: the Euclidean distance of two Cartesian points. */
  function CalculateDistance(m: Math, p1: Coord3, p2: Coord3): real
  {
    m.sqrt(SumSquares(p1.p1 - p2.p1, p1.p2 - p2.p2, p1.p3 - p2.p3))
  }

  /** The distance is the common one, hence non-negative and symmetric,
      and zero from a point to itself. */
  lemma CalculateDistanceLaws(m: Math, p1: Coord3, p2: Coord3)
    requires Lawful(m)
    ensures CalculateDistance(m, p1, p2) == Distance(m, p2, p1)
    ensures CalculateDistance(m, p1, p2) >= 0.0
    ensures CalculateDistance(m, p1, p2) == CalculateDistance(m, p2, p1)
    ensures CalculateDistance(m, p1, p1) == 0.0
  {
    DistanceLaws(m, p2, p1);
    SqrtOfSquare(m, 0.0);
  }

  // ---------------------------------------------------------------------
  // The local frame of one hyperbola

  /** The hyperbola's centre, unit axis from station 1 to station 2, unit
      normal, and semi-axes a (half the range difference) and b. */
  datatype Frame = Frame(mid: V.Vector3, axis: V.Vector3, normal: V.Vector3, a: real, b: real)

  function ToVector(p: Coord3): V.Vector3
  {
    V.Vector3(p.p1, p.p2, p.p3)
  }

  /** Component-wise division, as the source divides each coordinate by a
      norm it does not check for zero. */
  function DivBy(m: Math, v: V.Vector3, s: real): V.Vector3
  {
    V.Vector3(m.div(v.x, s), m.div(v.y, s), m.div(v.z, s))
  }

  /** The vector crossed with the axis to get a normal: the x unit vector
      unless the axis's x component reaches 0.9 in magnitude, then the y
      unit vector. */
  function Helper(axis: V.Vector3): V.Vector3
  {
    if Abs(axis.x) < 0.9 then V.Vector3(1.0, 0.0, 0.0) else V.Vector3(0.0, 1.0, 0.0)
  }

  /** The first half of generateHyperbolaPoints: range difference, semi-axes,
      normalised axis, midpoint and the normalised cross product of the axis
      with the helper vector. (The second normal the source computes is never
      used.) */
  function HyperbolaFrame(m: Math, station1: Coord3, station2: Coord3, tdoa: real): Frame
  {
    var distanceDiff := tdoa * C;
    var stationDistance := CalculateDistance(m, station1, station2);
    var a := Abs(distanceDiff) / 2.0;
    var cHyperbola := stationDistance / 2.0;
    var b := SemiMinor(m, a, cHyperbola);
    var d := V.Sub(ToVector(station2), ToVector(station1));
    var axis := DivBy(m, d, V.Magnitude(m, d));
    var mid := V.Vector3((station1.p1 + station2.p1) / 2.0, (station1.p2 + station2.p2) / 2.0,
                         (station1.p3 + station2.p3) / 2.0);
    var v1 := V.Cross(axis, Helper(axis));
    Frame(mid, axis, DivBy(m, v1, V.Magnitude(m, v1)), a, b)
  }

  /** b = sqrt(c^2 - a^2) for the semi-major axis a and the half focal
      distance c. */
  function SemiMinor(m: Math, a: real, c: real): real
  {
    m.sqrt(c * c - a * a)
  }

  /** When 0 <= a <= c, b is the non-negative number with a^2 + b^2 = c^2. */
  lemma SemiMinorLaw(m: Math, a: real, c: real)
    requires SqrtLawful(m) && 0.0 <= a <= c
    ensures SemiMinor(m, a, c) >= 0.0
    ensures a * a + SemiMinor(m, a, c) * SemiMinor(m, a, c) == c * c
  {
    MultiplyMonotoneBoth(a, c);
  }

  /** Dividing a non-zero vector by its magnitude gives a unit vector. */
  lemma UnitAfterDivision(m: Math, v: V.Vector3)
    requires Lawful(m) && V.MagnitudeSquared(v) > 0.0
    ensures V.Magnitude(m, v) > 0.0
    ensures DivBy(m, v, V.Magnitude(m, v)) == V.Scale(v, 1.0 / V.Magnitude(m, v))
    ensures V.MagnitudeSquared(DivBy(m, v, V.Magnitude(m, v))) == 1.0
  {
    V.MagnitudeRoot(m, v);
    V.NormalizeUnit(m, v);
    assert V.Normalize(m, v) == DivBy(m, v, V.Magnitude(m, v));
  }

  /** A unit axis crossed with its helper vector is never the zero vector:
      the helper is chosen so that the axis is never parallel to it. */
  lemma CrossWithHelperNonZero(axis: V.Vector3)
    requires V.MagnitudeSquared(axis) == 1.0
    ensures V.MagnitudeSquared(V.Cross(axis, Helper(axis))) > 0.0
  {
    var w := V.Cross(axis, Helper(axis));
    if Abs(axis.x) < 0.9 {
      assert w == V.Vector3(0.0, axis.z, -axis.y);
      assert axis.x * axis.x < 0.81 by {
        SquareStrict(Abs(axis.x), 0.9);
      }
      assert V.MagnitudeSquared(w) == 1.0 - axis.x * axis.x;
    } else {
      assert w == V.Vector3(-axis.z, 0.0, axis.x);
      assert axis.x * axis.x >= 0.81 by {
        SquaresOrdered(0.9, Abs(axis.x));
        if axis.x * axis.x < 0.81 {
          SquareStrict(Abs(axis.x), 0.9);
        }
      }
      SquareNonNegative(axis.z);
      assert V.MagnitudeSquared(w) == axis.z * axis.z + axis.x * axis.x;
    }
  }

  /** Scaling keeps orthogonality. */
  lemma ScaledOrthogonal(u: V.Vector3, w: V.Vector3, s: real)
    requires V.Dot(u, w) == 0.0
    ensures V.Dot(u, V.Scale(w, s)) == 0.0
  {
    assert V.Dot(u, V.Scale(w, s)) == s * V.Dot(u, w);
  }

  /** Two distinct stations are a non-zero distance apart. */
  lemma DistinctStations(station1: Coord3, station2: Coord3)
    requires station1 != station2
    ensures V.MagnitudeSquared(V.Sub(ToVector(station2), ToVector(station1))) > 0.0
  {
    var d := V.Sub(ToVector(station2), ToVector(station1));
    assert d != V.Zero;
    NonZeroVector(d);
  }

  lemma NonZeroVector(v: V.Vector3)
    requires v != V.Zero
    ensures V.MagnitudeSquared(v) > 0.0
  {
    SquaresPositive(v.x, v.y, v.z);
    calc {
      V.MagnitudeSquared(v);
      v.x * v.x + v.y * v.y + v.z * v.z;
    >
      0.0;
    }
  }

  lemma SquaresPositive(a: real, b: real, c: real)
    requires a != 0.0 || b != 0.0 || c != 0.0
    ensures a * a + b * b + c * c > 0.0
  {
    SquareNonNegative(a);
    SquareNonNegative(b);
    SquareNonNegative(c);
    if a != 0.0 {
      SquarePositive(a);
    } else if b != 0.0 {
      SquarePositive(b);
    } else {
      SquarePositive(c);
    }
  }

  lemma SquarePositive(v: real)
    requires v != 0.0
    ensures v * v > 0.0
  {
    ProductPositive(Abs(v), Abs(v));
    assert Abs(v) * Abs(v) == v * v;
  }

  /** For two distinct stations the axis is the unit vector from station 1
      towards station 2. */
  lemma FrameAxis(m: Math, station1: Coord3, station2: Coord3, tdoa: real)
    requires Lawful(m) && station1 != station2
    ensures var d := V.Sub(ToVector(station2), ToVector(station1));
            var axis := HyperbolaFrame(m, station1, station2, tdoa).axis;
            V.Magnitude(m, d) > 0.0 && axis == V.Scale(d, 1.0 / V.Magnitude(m, d)) &&
            V.MagnitudeSquared(axis) == 1.0
  {
    DistinctStations(station1, station2);
    UnitAfterDivision(m, V.Sub(ToVector(station2), ToVector(station1)));
  }

  /** The normal is a unit vector perpendicular to the axis. */
  lemma FrameNormal(m: Math, station1: Coord3, station2: Coord3, tdoa: real)
    requires Lawful(m) && station1 != station2
    ensures var f := HyperbolaFrame(m, station1, station2, tdoa);
            V.MagnitudeSquared(f.normal) == 1.0 && V.Dot(f.axis, f.normal) == 0.0
  {
    FrameAxis(m, station1, station2, tdoa);
    var axis := HyperbolaFrame(m, station1, station2, tdoa).axis;
    var v1 := V.Cross(axis, Helper(axis));
    assert HyperbolaFrame(m, station1, station2, tdoa).normal == DivBy(m, v1, V.Magnitude(m, v1));
    CrossWithHelperNonZero(axis);
    UnitAfterDivision(m, v1);
    V.CrossOrthogonal(axis, Helper(axis));
    ScaledOrthogonal(axis, v1, 1.0 / V.Magnitude(m, v1));
  }

  /** The semi-axis a is half the absolute range difference; when it does
      not exceed the half station distance c, b is the non-negative
      semi-axis with a^2 + b^2 = c^2. */
  lemma FrameSemiAxes(m: Math, station1: Coord3, station2: Coord3, tdoa: real)
    requires SqrtLawful(m)
    ensures var f := HyperbolaFrame(m, station1, station2, tdoa);
            var c := CalculateDistance(m, station1, station2) / 2.0;
            f.a == Abs(tdoa * C) / 2.0 &&
            (f.a <= c ==> f.b >= 0.0 && f.a * f.a + f.b * f.b == c * c)
  {
    var c := CalculateDistance(m, station1, station2) / 2.0;
    FrameSemiAxesDefined(m, station1, station2, tdoa);
    var a := Abs(tdoa * C) / 2.0;
    if a <= c {
      SemiMinorLaw(m, a, c);
    }
  }

  lemma FrameSemiAxesDefined(m: Math, station1: Coord3, station2: Coord3, tdoa: real)
    ensures var f := HyperbolaFrame(m, station1, station2, tdoa);
            f.a == Abs(tdoa * C) / 2.0 &&
            f.b == SemiMinor(m, f.a, CalculateDistance(m, station1, station2) / 2.0)
  {
  }

  lemma MultiplyMonotoneBoth(x: real, y: real)
    requires 0.0 <= x <= y
    ensures x * x <= y * y
  {
    if x < y {
      SquareStrict(x, y);
    }
  }

  // ---------------------------------------------------------------------
  // Sampling

  /** The parameter of sample i: -pi/2 + i * pi / 99. */
  function ParameterAngle(i: nat): real
  {
    -Pi / 2.0 + (i as real) * Pi / ((PointsPerCurve - 1) as real)
  }

  /** The local coordinates (a sec t, b tan t) of sample i. */
  function LocalX(m: Math, f: Frame, i: nat): real
  {
    f.a * m.div(1.0, m.cos(ParameterAngle(i)))
  }

  function LocalY(m: Math, f: Frame, i: nat): real
  {
    f.b * m.tan(ParameterAngle(i))
  }

  /** The point with local coordinates x along the axis and y along the
      normal. */
  function Place(f: Frame, x: real, y: real): Coord3
  {
    Coord3(f.mid.x + f.axis.x * x + f.normal.x * y,
           f.mid.y + f.axis.y * x + f.normal.y * y,
           f.mid.z + f.axis.z * x + f.normal.z * y)
  }

  /** Sample i of the hyperbola: the centre plus x along the axis, plus
      (upper) or minus (lower) y along the normal. */
  function Candidate(m: Math, f: Frame, i: nat, upper: bool): Coord3
  {
    Place(f, LocalX(m, f, i), if upper then LocalY(m, f, i) else -LocalY(m, f, i))
  }

  /** In an orthonormal frame a point's coordinates relative to the centre
      are its local coordinates. */
  lemma PlaceCoordinates(f: Frame, x: real, y: real)
    requires V.MagnitudeSquared(f.axis) == 1.0 && V.MagnitudeSquared(f.normal) == 1.0
    requires V.Dot(f.axis, f.normal) == 0.0
    ensures V.Dot(V.Sub(ToVector(Place(f, x, y)), f.mid), f.axis) == x
    ensures V.Dot(V.Sub(ToVector(Place(f, x, y)), f.mid), f.normal) == y
  {
    PlaceOffset(f, x, y);
    Project(f.axis, f.normal, x, y);
  }

  /** A placed point lies x along the axis and y along the normal from the
      centre. */
  lemma PlaceOffset(f: Frame, x: real, y: real)
    ensures V.Sub(ToVector(Place(f, x, y)), f.mid) == V.Add(V.Scale(f.axis, x), V.Scale(f.normal, y))
  {
  }

  lemma Project(u: V.Vector3, w: V.Vector3, x: real, y: real)
    requires V.MagnitudeSquared(u) == 1.0 && V.MagnitudeSquared(w) == 1.0 && V.Dot(u, w) == 0.0
    ensures V.Dot(V.Add(V.Scale(u, x), V.Scale(w, y)), u) == x
    ensures V.Dot(V.Add(V.Scale(u, x), V.Scale(w, y)), w) == y
  {
    var s := V.Add(V.Scale(u, x), V.Scale(w, y));
    assert V.Dot(s, u) == x * V.MagnitudeSquared(u) + y * V.Dot(u, w);
    assert V.Dot(s, w) == x * V.Dot(u, w) + y * V.MagnitudeSquared(w);
  }

  /** So a sample's coordinates relative to the centre are exactly its local
      coordinates: x along the axis and +y or -y along the normal. */
  lemma CandidateLocalCoordinates(m: Math, f: Frame, i: nat, upper: bool)
    requires V.MagnitudeSquared(f.axis) == 1.0 && V.MagnitudeSquared(f.normal) == 1.0
    requires V.Dot(f.axis, f.normal) == 0.0
    ensures var offset := V.Sub(ToVector(Candidate(m, f, i, upper)), f.mid);
            V.Dot(offset, f.axis) == LocalX(m, f, i) &&
            V.Dot(offset, f.normal) == (if upper then LocalY(m, f, i) else -LocalY(m, f, i))
  {
    PlaceCoordinates(f, LocalX(m, f, i), if upper then LocalY(m, f, i) else -LocalY(m, f, i));
  }

  /** `p` as a one-element list when it lies within `range` of `center`. */
  function Kept(m: Math, p: Coord3, center: Coord3, range: real): seq<Coord3>
  {
    if CalculateDistance(m, p, center) <= range then [p] else []
  }

  /** The samples of the first n parameter values that lie within range,
      upper before lower for each parameter. */
  function KeptPoints(m: Math, f: Frame, center: Coord3, range: real, n: nat): seq<Coord3>
  {
    if n == 0 then []
    else
      KeptPoints(m, f, center, range, n - 1) +
      Kept(m, Candidate(m, f, n - 1, true), center, range) +
      Kept(m, Candidate(m, f, n - 1, false), center, range)
  }

  /** At most two points per parameter value are kept, each within range of
      the centre. */
  lemma {:induction false} KeptPointsBounds(m: Math, f: Frame, center: Coord3, range: real, n: nat)
    ensures |KeptPoints(m, f, center, range, n)| <= 2 * n
    ensures forall k :: 0 <= k < |KeptPoints(m, f, center, range, n)| ==>
              CalculateDistance(m, KeptPoints(m, f, center, range, n)[k], center) <= range
  {
    if n > 0 {
      KeptPointsBounds(m, f, center, range, n - 1);
    }
  }

  /** Every sample within range is kept: together with the contract of
      KeptPoints, the kept points are exactly the samples within range. */
  lemma {:induction false} KeptPointsComplete(m: Math, f: Frame, center: Coord3, range: real, n: nat,
                                              i: nat, upper: bool)
    requires i < n && CalculateDistance(m, Candidate(m, f, i, upper), center) <= range
    ensures Candidate(m, f, i, upper) in KeptPoints(m, f, center, range, n)
  {
    if i < n - 1 {
      KeptPointsComplete(m, f, center, range, n - 1, i, upper);
    }
  }

  /** A shorter sampling is a prefix of a longer one. */
  lemma {:induction false} KeptPointsPrefix(m: Math, f: Frame, center: Coord3, range: real, n: nat, n': nat)
    requires n <= n'
    ensures KeptPoints(m, f, center, range, n) <= KeptPoints(m, f, center, range, n')
    decreases n' - n
  {
    if n < n' {
      KeptPointsPrefix(m, f, center, range, n, n' - 1);
    }
  }

  /** The sampling loop of generateHyperbolaPoints over a computed frame:
      100 parameter values, two samples each, a sample being kept when it
      lies within `range` of `center`. */
  method SampleHyperbola(m: Math, f: Frame, center: Coord3, range: real) returns (points: seq<Coord3>)
    ensures points == KeptPoints(m, f, center, range, PointsPerCurve)
  {
    points := [];
    var i := 0;
    while i < PointsPerCurve
      invariant 0 <= i <= PointsPerCurve
      invariant points == KeptPoints(m, f, center, range, i)
    {
      var point := Candidate(m, f, i, true);
      if CalculateDistance(m, point, center) <= range {
        points := points + [point];
      }
      point := Candidate(m, f, i, false);
      if CalculateDistance(m, point, center) <= range {
        points := points + [point];
      }
      i := i + 1;
    }
  }

  /** generateHyperbolaPoints: the frame of the hyperbola with foci station1
      and station2 and range difference tdoa * C, sampled; at most 200
      points, each within `range` of `center`. */
  method GenerateHyperbolaPoints(m: Math, station1: Coord3, station2: Coord3, tdoa: real, center: Coord3,
                                 range: real)
    returns (points: seq<Coord3>)
    ensures points == KeptPoints(m, HyperbolaFrame(m, station1, station2, tdoa), center, range, PointsPerCurve)
    ensures |points| <= 2 * PointsPerCurve
    ensures forall k :: 0 <= k < |points| ==> CalculateDistance(m, points[k], center) <= range
  {
    var f := HyperbolaFrame(m, station1, station2, tdoa);
    points := SampleHyperbola(m, f, center, range);
    KeptPointsBounds(m, f, center, range, PointsPerCurve);
  }

  // ---------------------------------------------------------------------
  // Drawing

  /** One drawn hyperbola: the slave station it belongs to, its colour and
      its geodetic points. */
  datatype Polyline = Polyline(slave: nat, color: string, points: seq<Coord3>)

  /** The colour of slave i: colors[i - 1] while there is one, else white. */
  function Color(i: nat, colors: seq<string>): string
    requires i >= 1
  {
    if i <= |colors| then colors[i - 1] else DefaultColor
  }

  /** The early return of drawTDOAHyperbolas: a map view, at least two
      stations and at least one TDOA per slave station. */
  predicate DrawGuard(hasMapView: bool, stationCount: nat, tdoaCount: nat)
  {
    hasMapView && stationCount >= 2 && tdoaCount >= stationCount - 1
  }

  /** The slaves the drawing loop visits: i from 1 while i < |stations|
      and i <= |tdoas|. */
  predicate Visited(i: nat, stationCount: nat, tdoaCount: nat)
  {
    1 <= i && i < stationCount && i <= tdoaCount
  }

  /** The TDOA the loop reads for slave i, as written: tdoas[i]. */
  function TdoaIndexAsWritten(i: nat): nat
  {
    i
  }

  /** The TDOA of slave i once the off-by-one is corrected: tdoas[i - 1],
      as the guard, the loop bound and the colour all count one TDOA per
      slave. */
  function TdoaIndex(i: nat): int
  {
    i - 1
  }

  /** As written: whenever the guard lets through exactly one TDOA per
      slave, the last slave visited reads one past the end of `tdoas`. */
  lemma TdoaIndexAsWrittenOverruns(stationCount: nat, tdoaCount: nat)
    requires DrawGuard(true, stationCount, tdoaCount) && tdoaCount == stationCount - 1
    ensures Visited(stationCount - 1, stationCount, tdoaCount)
    ensures TdoaIndexAsWritten(stationCount - 1) == tdoaCount
  {
  }

  /** Corrected: past the guard every slave is visited and reads a TDOA
      that exists. */
  lemma TdoaIndexInRange(stationCount: nat, tdoaCount: nat)
    requires DrawGuard(true, stationCount, tdoaCount)
    ensures forall i: nat :: 1 <= i < stationCount ==> Visited(i, stationCount, tdoaCount)
    ensures forall i: nat :: Visited(i, stationCount, tdoaCount) ==> 0 <= TdoaIndex(i) < tdoaCount
  {
  }

  /** The geodetic conversion of each point. */
  function Geodetic(m: Math, points: seq<Coord3>): seq<Coord3>
  {
    seq(|points|, k requires 0 <= k < |points| => m.xyz2lbh(points[k]))
  }

  /** The hyperbola of slave i: reference station 0 and station i as foci,
      the slave's TDOA, and the kept samples around the target. */
  function SlavePoints(m: Math, stations: seq<Coord3>, tdoas: seq<real>, target: Coord3, i: nat): seq<Coord3>
    requires 1 <= i < |stations| && i - 1 < |tdoas|
  {
    KeptPoints(m, HyperbolaFrame(m, stations[0], stations[i], tdoas[TdoaIndex(i)]), target, DrawRange, PointsPerCurve)
  }

  /** The polyline of slave i with kept samples `points`, or none when it
      has no sample. */
  function SlavePolyline(m: Math, points: seq<Coord3>, colors: seq<string>, i: nat): seq<Polyline>
    requires i >= 1
  {
    if |points| == 0 then [] else [Polyline(i, Color(i, colors), Geodetic(m, points))]
  }

  /** The polylines of slaves 1 .. hi - 1, in slave order, slave j having
      the kept samples sets[j]. */
  function Polylines(m: Math, sets: seq<seq<Coord3>>, colors: seq<string>, hi: nat): seq<Polyline>
    requires hi <= |sets|
  {
    if hi <= 1 then []
    else Polylines(m, sets, colors, hi - 1) + SlavePolyline(m, sets[hi - 1], colors, hi - 1)
  }

  /** Each polyline belongs to a slave below hi, has points and the slave's
      colour, and no slave appears twice. */
  lemma {:induction false} PolylinesShape(m: Math, sets: seq<seq<Coord3>>, colors: seq<string>, hi: nat)
    requires hi <= |sets|
    ensures var r := Polylines(m, sets, colors, hi);
            |r| <= hi &&
            (forall k :: 0 <= k < |r| ==>
               1 <= r[k].slave < hi && |r[k].points| > 0 && r[k].color == Color(r[k].slave, colors)) &&
            (forall k, l :: 0 <= k < l < |r| ==> r[k].slave < r[l].slave)
  {
    if hi > 1 {
      PolylinesShape(m, sets, colors, hi - 1);
    }
  }

  /** Every slave with kept samples is drawn, with the geodetic form of
      exactly those samples. */
  lemma {:induction false} PolylinesComplete(m: Math, sets: seq<seq<Coord3>>, colors: seq<string>, hi: nat, i: nat)
    requires hi <= |sets| && 1 <= i < hi && |sets[i]| > 0
    ensures exists k :: 0 <= k < |Polylines(m, sets, colors, hi)| &&
              Polylines(m, sets, colors, hi)[k] == Polyline(i, Color(i, colors), Geodetic(m, sets[i]))
  {
    var r := Polylines(m, sets, colors, hi);
    var prev := Polylines(m, sets, colors, hi - 1);
    if i < hi - 1 {
      PolylinesComplete(m, sets, colors, hi - 1, i);
      var k :| 0 <= k < |prev| && prev[k] == Polyline(i, Color(i, colors), Geodetic(m, sets[i]));
      assert r[k] == prev[k];
    } else {
      assert r[|prev|] == Polyline(i, Color(i, colors), Geodetic(m, sets[i]));
    }
  }

  /** Drawing more slaves only appends: the polylines of slaves below hi
      are a prefix of those of slaves below hi'. */
  lemma {:induction false} PolylinesPrefix(m: Math, sets: seq<seq<Coord3>>, colors: seq<string>, hi: nat, hi': nat)
    requires hi <= hi' <= |sets|
    ensures Polylines(m, sets, colors, hi) <= Polylines(m, sets, colors, hi')
  {
    if hi < hi' {
      PolylinesPrefix(m, sets, colors, hi, hi' - 1);
    }
  }

  /** The polylines depend only on the sample sets of the slaves drawn:
      two tables agreeing on slaves 1 .. hi - 1 give the same polylines. */
  lemma {:induction false} PolylinesAgree(m: Math, sets: seq<seq<Coord3>>, sets': seq<seq<Coord3>>,
                                          colors: seq<string>, hi: nat)
    requires hi <= |sets| && hi <= |sets'|
    requires forall j :: 1 <= j < hi ==> sets[j] == sets'[j]
    ensures Polylines(m, sets, colors, hi) == Polylines(m, sets', colors, hi)
  {
    if hi > 1 {
      PolylinesAgree(m, sets, sets', colors, hi - 1);
    }
  }

  /** The loop converting each kept point to geodetic coordinates. */
  method ToGeodetic(m: Math, points: seq<Coord3>) returns (pointsLbh: seq<Coord3>)
    ensures pointsLbh == Geodetic(m, points)
  {
    pointsLbh := [];
    var j := 0;
    while j < |points|
      invariant 0 <= j <= |points|
      invariant pointsLbh == Geodetic(m, points[..j])
    {
      pointsLbh := pointsLbh + [m.xyz2lbh(points[j])];
      j := j + 1;
    }
    assert points[..|points|] == points;
  }

  /** The body of the drawing loop for slave i: its hyperbola's kept
      samples, converted to geodetic coordinates, as one polyline in the
      slave's colour; nothing when no sample is in range. */
  method DrawSlave(m: Math, stations: seq<Coord3>, tdoas: seq<real>, target: Coord3, colors: seq<string>, i: nat)
    returns (polyline: seq<Polyline>, ghost points: seq<Coord3>)
    requires 1 <= i < |stations| && i <= |tdoas|
    ensures points == SlavePoints(m, stations, tdoas, target, i)
    ensures polyline == SlavePolyline(m, points, colors, i)
  {
    var kept := GenerateHyperbolaPoints(m, stations[0], stations[i], tdoas[i - 1], target, DrawRange);
    points := kept;
    if |kept| == 0 {
      return [], points;
    }
    var pointsLbh := ToGeodetic(m, kept);
    polyline := [Polyline(i, Color(i, colors), pointsLbh)];
  }

  /** The kept samples of slaves 1 .. n - 1, indexed by slave (index 0,
      the reference station, has none). */
  function SlaveSets(m: Math, stations: seq<Coord3>, tdoas: seq<real>, target: Coord3, n: nat): (r: seq<seq<Coord3>>)
    requires n <= |stations| && n - 1 <= |tdoas|
    ensures |r| == n
  {
    seq(n, j requires 0 <= j < n => if j == 0 then [] else SlavePoints(m, stations, tdoas, target, j))
  }

  /** The polylines after drawing every slave. */
  ghost predicate Drawn(m: Math, stations: seq<Coord3>, tdoas: seq<real>, target: Coord3, colors: seq<string>,
                        polylines: seq<Polyline>)
  {
    1 <= |stations| && |stations| - 1 <= |tdoas| &&
    polylines == Polylines(m, SlaveSets(m, stations, tdoas, target, |stations|), colors, |stations|)
  }

  /** Entry j of `sets`, for every slave j, is slave j's kept samples. The
      trigger keeps the samples out of sight until a slave's points are
      computed. */
  ghost predicate SlaveSetsAre(m: Math, stations: seq<Coord3>, tdoas: seq<real>, target: Coord3,
                               sets: seq<seq<Coord3>>)
    requires |sets| == |stations| && |stations| - 1 <= |tdoas|
  {
    forall j {:trigger SlavePoints(m, stations, tdoas, target, j)} :: 1 <= j < |sets| ==>
      sets[j] == SlavePoints(m, stations, tdoas, target, j)
  }

  /** One pass of the drawing loop: slave i's polyline, if any, is appended
      to those of slaves 1 .. i - 1. */
  method DrawNext(m: Math, stations: seq<Coord3>, tdoas: seq<real>, target: Coord3, colors: seq<string>,
                  ghost sets: seq<seq<Coord3>>, i: nat, polylines: seq<Polyline>)
    returns (polylines': seq<Polyline>)
    requires 1 <= i < |stations| && |stations| - 1 <= |tdoas| && |sets| == |stations|
    requires SlaveSetsAre(m, stations, tdoas, target, sets)
    requires polylines == Polylines(m, sets, colors, i)
    ensures polylines' == Polylines(m, sets, colors, i + 1)
  {
    var polyline, points := DrawSlave(m, stations, tdoas, target, colors, i);
    polylines' := polylines + polyline;
  }

  /** The drawing loop of drawTDOAHyperbolas, past its guard: slaves 1 ..
      |stations| - 1 are drawn in order. */
  method DrawSlaves(m: Math, stations: seq<Coord3>, tdoas: seq<real>, target: Coord3, colors: seq<string>,
                    ghost sets: seq<seq<Coord3>>)
    returns (polylines: seq<Polyline>)
    requires 2 <= |stations| && |stations| - 1 <= |tdoas| && |sets| == |stations|
    requires SlaveSetsAre(m, stations, tdoas, target, sets)
    ensures polylines == Polylines(m, sets, colors, |stations|)
  {
    polylines := [];
    var i := 1;
    while i < |stations| && i <= |tdoas|
      invariant 1 <= i <= |stations|
      invariant polylines == Polylines(m, sets, colors, i)
    {
      polylines := DrawNext(m, stations, tdoas, target, colors, sets, i, polylines);
      i := i + 1;
    }
  }

  /** drawTDOAHyperbolas (with the TDOA index corrected): nothing is drawn
      and false returned unless the guard holds; otherwise the polylines
      of all slaves, in order, slave j drawing the kept samples of its
      hyperbola around the target in geodetic coordinates. */
  method DrawTdoaHyperbolas(m: Math, hasMapView: bool, stations: seq<Coord3>, tdoas: seq<real>, target: Coord3,
                            colors: seq<string>)
    returns (drawn: bool, polylines: seq<Polyline>)
    ensures drawn <==> DrawGuard(hasMapView, |stations|, |tdoas|)
    ensures !drawn ==> polylines == []
    ensures drawn ==> Drawn(m, stations, tdoas, target, colors, polylines)
  {
    if !hasMapView || |stations| < 2 || |tdoas| < |stations| - 1 {
      return false, [];
    }
    ghost var sets := SlaveSets(m, stations, tdoas, target, |stations|);
    polylines := DrawSlaves(m, stations, tdoas, target, colors, sets);
    drawn := true;
  }
}
