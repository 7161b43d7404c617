/** Shared vocabulary of the simulator model: optional values and error
    results, the Cartesian triple `Coord3`, the physical constants of
    constants/PhysicsConstants.h and the floating-point library the C++
    code calls (`sqrt`, `atan2`, trigonometry, `fmod`, and the geodetic
    conversions of CoordinateTransform), which the model receives as a value
    of type `Math` together with the few laws it relies on. */
module Common {

  datatype Option<T> = None | Some(value: T)

  /** A computation that either yields a value or throws (std::runtime_error). */
  datatype Result<T> = Ok(value: T) | Err(reason: string)

  /** COORD3: three doubles named p1, p2, p3 (x/y/z or lon/lat/alt). */
  datatype Coord3 = Coord3(p1: real, p2: real, p3: real)

  /** Speed of light in m/s. */
  const C: real := 299792458.0
  /** SNR threshold in dB below which a station cannot receive. */
  const SnrThreshold: real := 1.0
  /** The double literal used for pi. */
  const Pi: real := 3.14159265358979323846
  const Rad2Deg: real := 180.0 / Pi
  const Deg2Rad: real := Pi / 180.0

  /** The library functions the C++ code calls, as values. Angles returned by
      `atan2Deg` are `atan2(y, x) * RAD2DEG`. `velocity` is
      velocity_lbh2xyz(lon, lat, speed, azimuth, elevation) and
      `distanceLbh` the distance CoordinateTransform computes between two
      geodetic positions. `div` is floating-point division: exact for a
      nonzero divisor, while the infinity or NaN a zero divisor produces is
      left unspecified. */
  datatype Math = Math(
    sqrt: real -> real,
    atan2Deg: (real, real) -> real,
    sin: real -> real,
    cos: real -> real,
    tan: real -> real,
    asin: real -> real,
    div: (real, real) -> real,
    fmod: (real, real) -> real,
    lbh2xyz: Coord3 -> Coord3,
    xyz2lbh: Coord3 -> Coord3,
    velocity: (real, real, real, real, real) -> Coord3,
    distanceLbh: (Coord3, Coord3) -> real)

  /** The only facts about the library the proofs use: `sqrt` is the
      non-negative square root on non-negative arguments, `atan2` lies in
      (-180, 180] degrees and in [-90, 90] when its second argument is
      non-negative, and `fmod(x, y)` for y > 0 has magnitude below y and the
      sign of x, `sin` and `cos` lie in [-1, 1], and `div` divides exactly by
      a nonzero divisor. */
  ghost predicate Lawful(m: Math)
  {
    SqrtLawful(m) &&
    (forall y, x :: -180.0 < m.atan2Deg(y, x) <= 180.0) &&
    (forall y, x :: x >= 0.0 ==> -90.0 <= m.atan2Deg(y, x) <= 90.0) &&
    (forall x, y :: y > 0.0 ==> -y < m.fmod(x, y) < y) &&
    (forall x, y :: y > 0.0 && x >= 0.0 ==> m.fmod(x, y) >= 0.0) &&
    (forall x :: -1.0 <= m.sin(x) <= 1.0) &&
    (forall x :: -1.0 <= m.cos(x) <= 1.0) &&
    DivLawful(m)
  }

  /** The division part of Lawful on its own. */
  ghost predicate DivLawful(m: Math)
  {
    forall x, y :: y != 0.0 ==> m.div(x, y) == x / y
  }

  /** The square-root part of Lawful on its own. */
  ghost predicate SqrtLawful(m: Math)
  {
    forall x :: x >= 0.0 ==> m.sqrt(x) >= 0.0 && m.sqrt(x) * m.sqrt(x) == x
  }

  /** LocationResult of the TDOA and FDOA algorithms: the located position
      (longitude, latitude, altitude), the target's motion (azimuth,
      elevation, velocity), the time of the fix, its distance and its
      accuracy. */
  datatype PositionFix = PositionFix(
    longitude: real, latitude: real, altitude: real, azimuth: real, elevation: real,
    velocity: real, locationTime: real, distance: real, accuracy: real)

  /** The all-zero result `init` stores. */
  const ZeroFix: PositionFix := PositionFix(0.0, 0.0, 0.0, 0.0, 0.0, 0.0, 0.0, 0.0, 0.0)

  function Abs(x: real): (r: real)
    ensures r >= 0.0 && (r == x || r == -x)
  {
    if x < 0.0 then -x else x
  }

  function Max(a: real, b: real): (r: real)
    ensures r >= a && r >= b && (r == a || r == b)
  {
    if a >= b then a else b
  }

  function Min(a: real, b: real): (r: real)
    ensures r <= a && r <= b && (r == a || r == b)
  {
    if a <= b then a else b
  }

  /** Between non-negative reals, the order of the squares is the order of
      the numbers. */
  lemma SquaresOrdered(a: real, b: real)
    requires 0.0 <= a && 0.0 <= b && a * a <= b * b
    ensures a <= b
  {
    if a > b {
      SquareStrict(b, a);
    }
  }

  lemma SquareStrict(a: real, b: real)
    requires 0.0 <= a < b
    ensures a * a < b * b
  {
    var d, e := b - a, b + a;
    assert d > 0.0 && e > 0.0;
    assert d * e > 0.0;
    assert b * b - a * a == d * e;
  }

  /** Over exact reals the root of a square is the absolute value. */
  lemma SqrtOfSquare(m: Math, x: real)
    requires Lawful(m)
    ensures m.sqrt(x * x) == Abs(x)
  {
    SquaresOrdered(m.sqrt(x * x), Abs(x));
    SquaresOrdered(Abs(x), m.sqrt(x * x));
  }

  /** `sqrt` is monotone: a smaller non-negative argument has a root no larger. */
  lemma SqrtMonotone(m: Math, x: real, y: real)
    requires Lawful(m) && 0.0 <= x <= y
    ensures m.sqrt(x) <= m.sqrt(y)
  {
    SquaresOrdered(m.sqrt(x), m.sqrt(y));
  }

  /** sqrt(x) <= y for any non-negative y whose square is at least x. */
  lemma SqrtBelow(m: Math, x: real, y: real)
    requires Lawful(m) && 0.0 <= x && 0.0 <= y && x <= y * y
    ensures m.sqrt(x) <= y
  {
    SqrtMonotone(m, x, y * y);
    SqrtOfSquare(m, y);
  }

  /** The straight-line distance from `a` to `b`, sqrt(dx*dx + dy*dy + dz*dz). */
  function Distance(m: Math, a: Coord3, b: Coord3): real
  {
    m.sqrt(SumSquares(b.p1 - a.p1, b.p2 - a.p2, b.p3 - a.p3))
  }

  function SumSquares(a: real, b: real, c: real): real
  {
    a * a + b * b + c * c
  }

  /** Distances are non-negative and symmetric. */
  lemma DistanceLaws(m: Math, a: Coord3, b: Coord3)
    requires Lawful(m)
    ensures Distance(m, a, b) >= 0.0
    ensures Distance(m, a, b) == Distance(m, b, a)
  {
    SquareNonNegative(b.p1 - a.p1);
    SquareNonNegative(b.p2 - a.p2);
    SquareNonNegative(b.p3 - a.p3);
  }

  /** Signs of products, stated once for the solver. */
  lemma ProductPositive(a: real, b: real)
    requires a > 0.0 && b > 0.0
    ensures a * b > 0.0
  {
  }

  lemma NonNegativeProduct(a: real, b: real)
    requires a >= 0.0 && b >= 0.0
    ensures a * b >= 0.0
  {
  }

  lemma SquareNonNegative(v: real)
    ensures v * v >= 0.0
  {
    if v < 0.0 {
      var w := -v;
      assert w * w > 0.0;
      assert v * v == w * w;
    }
  }

  /** What the pre-simulation validators write into `failMessage`; the
      message text itself is left out, each case keeps the values the text
      reports. */
  datatype FailMessage =
    | NoCommonBand
    | FrequencyOutOfRange(deviceName: string, sourceName: string, minFreq: real, maxFreq: real, sourceFrequency: real)
    | ReceiverAngle(deviceName: string, azimuth: real, elevation: real)
    | EmitterAngle(deviceName: string, azimuth: real, elevation: real)
    | SnrTooLow(sourceName: string, deviceName: string, maxDistance: real, distance: real, snr: real)

  /** The first failure a check reports along `xs`, in order; None when every
      element passes. This is the early-return loop shape the validators share. */
  function FirstFailure<T>(xs: seq<T>, check: T -> Option<FailMessage>): Option<FailMessage>
  {
    if |xs| == 0 then None
    else if check(xs[0]).Some? then check(xs[0])
    else FirstFailure(xs[1..], check)
  }

  /** No failure is reported exactly when every element passes, and a
      reported failure is that of an element all of whose predecessors pass. */
  lemma {:induction false} FirstFailureMeaning<T>(xs: seq<T>, check: T -> Option<FailMessage>)
    ensures FirstFailure(xs, check).None? <==> forall i :: 0 <= i < |xs| ==> check(xs[i]).None?
    ensures FirstFailure(xs, check).Some? ==>
              exists k :: 0 <= k < |xs| && check(xs[k]) == FirstFailure(xs, check) &&
                          forall j :: 0 <= j < k ==> check(xs[j]).None?
  {
    if |xs| > 0 && check(xs[0]).None? {
      FirstFailureMeaning(xs[1..], check);
      assert forall i :: 1 <= i < |xs| ==> xs[i] == xs[1..][i - 1];
      if FirstFailure(xs[1..], check).Some? {
        var k :| 0 <= k < |xs[1..]| && check(xs[1..][k]) == FirstFailure(xs[1..], check) &&
                 forall j :: 0 <= j < k ==> check(xs[1..][j]).None?;
        assert check(xs[k + 1]) == FirstFailure(xs, check);
        assert forall j :: 0 <= j < k + 1 ==> check(xs[j]).None?;
      }
    }
  }

  /** One more step of a scan whose prefix passed: the verdict of the
      longer prefix, as a loop over `xs` sees it. */
  lemma {:induction false} FirstFailureStep<T>(xs: seq<T>, i: nat, check: T -> Option<FailMessage>)
    requires i < |xs| && FirstFailure(xs[..i], check).None?
    ensures check(xs[i]).Some? ==> FirstFailure(xs, check) == check(xs[i])
    ensures check(xs[i]).None? ==> FirstFailure(xs[..i + 1], check).None?
  {
    if i > 0 {
      assert xs[..i][0] == xs[0] && xs[..i][1..] == xs[1..][..i - 1];
      assert xs[..i + 1][1..] == xs[1..][..i];
      FirstFailureStep(xs[1..], i - 1, check);
    }
  }

  /** The first element carrying `text`, None when there is none: the
      find_if by name of the algorithms and the pages. */
  function FirstLabelled<T>(xs: seq<T>, nameOf: T -> string, text: string): (r: Option<nat>)
    ensures r.Some? ==> r.value < |xs| && nameOf(xs[r.value]) == text &&
                        forall j :: 0 <= j < r.value ==> nameOf(xs[j]) != text
    ensures r.None? <==> forall j :: 0 <= j < |xs| ==> nameOf(xs[j]) != text
  {
    if |xs| == 0 then None
    else if nameOf(xs[0]) == text then Some(0)
    else
      match FirstLabelled(xs[1..], nameOf, text)
      case None => None
      case Some(k) => Some(k + 1)
  }
}
