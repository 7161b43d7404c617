/** models/src/SinglePlatformTDOA.cpp: single-platform time-difference
    location. A moving platform measures the source twice; the two ranges
    give a time difference, the movement a virtual baseline, and from them
    the incident angle, the direction, an elevation that a small iteration
    may refine, and a height chosen among three estimates. The file also
    holds two signal-processing estimators of a time difference: peak
    cross-correlation and spectral phase. */
module SinglePlatformTdoa {
  import opened Common
  import opened Vector3
  import ReconnaissanceDeviceModel
  import RadiationSourceModel
  import InterferometerPositioning
  import DirectionFindingAlgorithm

  // ---------------------------------------------------------------------
  // calculateTimeDifferenceCorrelation

  /** A running correlation: the sum of products and how many were added. */
  datatype Accumulated = Accumulated(sum: real, count: nat)

  /** Lags run over [-MaxLag, MaxLag]: half the shorter signal. */
  function MaxLag(s1: seq<real>, s2: seq<real>): nat
  {
    (if |s1| <= |s2| then |s1| else |s2|) / 2
  }

  /** The correlation entry: the mean product, or 0 when no product was added. */
  function Entry(a: Accumulated): real
  {
    if a.count > 0 then a.sum / a.count as real else 0.0
  }

  /** The inner loop as written: it starts at i and STOPS at the first i
      for which i < |s1| && 0 <= i - lag < |s2| fails. */
  function AsWrittenTerms(s1: seq<real>, s2: seq<real>, lag: int, i: nat): Accumulated
    decreases |s1| - i
  {
    if i < |s1| && i - lag >= 0 && i - lag < |s2| then
      var rest := AsWrittenTerms(s1, s2, lag, i + 1);
      Accumulated(s1[i] * s2[i - lag] + rest.sum, rest.count + 1)
    else
      Accumulated(0.0, 0)
  }

  /** The correlation array the code fills, index lag + MaxLag. */
  function CorrelationsAsWritten(s1: seq<real>, s2: seq<real>): (cc: seq<real>)
    ensures |cc| == 2 * MaxLag(s1, s2) + 1
  {
    var maxLag := MaxLag(s1, s2);
    seq(2 * maxLag + 1, j requires 0 <= j < 2 * maxLag + 1 => Entry(AsWrittenTerms(s1, s2, j - maxLag, 0)))
  }

  /** The products over i < k that the correlation at `lag` is evidently
      meant to add: every i whose partner index i - lag lies inside s2. */
  function Terms(s1: seq<real>, s2: seq<real>, lag: int, k: nat): Accumulated
    requires k <= |s1|
  {
    if k == 0 then Accumulated(0.0, 0)
    else
      var before := Terms(s1, s2, lag, k - 1);
      var i := k - 1;
      if 0 <= i - lag < |s2| then Accumulated(before.sum + s1[i] * s2[i - lag], before.count + 1)
      else before
  }

  /** The number of indices i < k with 0 <= i - lag < n2. */
  function Overlap(k: int, lag: int, n2: int): nat
  {
    var lo := if lag > 0 then lag else 0;
    var hi := if k <= n2 + lag then k else n2 + lag;
    if hi > lo then hi - lo else 0
  }

  /** The corrected loop adds exactly the overlapping products. */
  lemma {:induction false} TermsCount(s1: seq<real>, s2: seq<real>, lag: int, k: nat)
    requires k <= |s1|
    ensures Terms(s1, s2, lag, k).count == Overlap(k, lag, |s2|)
  {
    if k > 0 {
      TermsCount(s1, s2, lag, k - 1);
    }
  }

  /** With non-empty signals every lag in the window has at least one
      product, so every entry of the corrected array is a real mean. */
  lemma EveryLagMeasured(s1: seq<real>, s2: seq<real>, lag: int)
    requires |s1| >= 1 && |s2| >= 1 && -(MaxLag(s1, s2) as int) <= lag <= MaxLag(s1, s2)
    ensures Terms(s1, s2, lag, |s1|).count > 0
  {
    TermsCount(s1, s2, lag, |s1|);
  }

  /** The corrected correlation array. */
  function Correlations(s1: seq<real>, s2: seq<real>): (cc: seq<real>)
    ensures |cc| == 2 * MaxLag(s1, s2) + 1
  {
    var maxLag := MaxLag(s1, s2);
    seq(2 * maxLag + 1, j requires 0 <= j < 2 * maxLag + 1 => Entry(Terms(s1, s2, j - maxLag, |s1|)))
  }

  /** At a positive lag the guard fails at i = 0, so nothing is added. */
  lemma PositiveLagsNeverAccumulated(s1: seq<real>, s2: seq<real>, lag: int)
    requires lag > 0
    ensures AsWrittenTerms(s1, s2, lag, 0) == Accumulated(0.0, 0)
    ensures lag <= MaxLag(s1, s2) ==> CorrelationsAsWritten(s1, s2)[lag + MaxLag(s1, s2)] == 0.0
  {
    var maxLag := MaxLag(s1, s2);
    if lag <= maxLag {
      var cc := CorrelationsAsWritten(s1, s2);
      assert cc[lag + maxLag] == Entry(AsWrittenTerms(s1, s2, lag, 0));
    }
  }

  /** Past the last overlapping index the corrected sums stop changing. */
  lemma {:induction false} TermsStall(s1: seq<real>, s2: seq<real>, lag: int, i: nat, k: nat)
    requires i <= k <= |s1| && i - lag >= |s2|
    ensures Terms(s1, s2, lag, k) == Terms(s1, s2, lag, i)
    decreases k
  {
    if k > i {
      TermsStall(s1, s2, lag, i, k - 1);
    }
  }

  /** At a non-positive lag the loop as written stops exactly where the
      overlap ends, so it adds the same products as the corrected loop. */
  lemma {:induction false} AsWrittenSplit(s1: seq<real>, s2: seq<real>, lag: int, i: nat)
    requires lag <= 0 && i <= |s1|
    ensures Terms(s1, s2, lag, |s1|).sum == Terms(s1, s2, lag, i).sum + AsWrittenTerms(s1, s2, lag, i).sum
    ensures Terms(s1, s2, lag, |s1|).count == Terms(s1, s2, lag, i).count + AsWrittenTerms(s1, s2, lag, i).count
    decreases |s1| - i
  {
    if i < |s1| {
      if i - lag < |s2| {
        AsWrittenSplit(s1, s2, lag, i + 1);
      } else {
        TermsStall(s1, s2, lag, i, |s1|);
      }
    }
  }

  /** The two arrays agree at every non-positive lag. */
  lemma AsWrittenAgreesAtNonPositiveLags(s1: seq<real>, s2: seq<real>, j: nat)
    requires j <= MaxLag(s1, s2)
    ensures CorrelationsAsWritten(s1, s2)[j] == Correlations(s1, s2)[j]
  {
    AsWrittenSplit(s1, s2, j - MaxLag(s1, s2), 0);
  }

  /** The first index of a maximal element: std::max_element. */
  function FirstMaxIndex(a: seq<real>): (r: nat)
    requires |a| > 0
    ensures r < |a|
    ensures forall k :: 0 <= k < |a| ==> a[k] <= a[r]
    ensures forall k :: 0 <= k < r ==> a[k] < a[r]
  {
    if |a| == 1 then 0
    else
      var b := FirstMaxIndex(a[..|a| - 1]);
      if a[b] < a[|a| - 1] then |a| - 1 else b
  }

  /** The peak lag of an array of correlations. */
  function PeakOf(cc: seq<real>, maxLag: nat): (lag: int)
    requires |cc| == 2 * maxLag + 1
    ensures -(maxLag as int) <= lag <= maxLag
  {
    FirstMaxIndex(cc) - maxLag
  }

  function PeakLag(s1: seq<real>, s2: seq<real>): int
  {
    PeakOf(Correlations(s1, s2), MaxLag(s1, s2))
  }

  /** Two steps of Terms over two-sample signals. */
  lemma TwoSampleTerms(s1: seq<real>, s2: seq<real>, lag: int, sum: real, count: nat)
    requires |s1| == 2 && |s2| == 2
    requires var first := if 0 <= -lag < 2 then Accumulated(s1[0] * s2[-lag], 1) else Accumulated(0.0, 0);
             var second := if 0 <= 1 - lag < 2 then Accumulated(first.sum + s1[1] * s2[1 - lag], first.count + 1)
                           else first;
             second == Accumulated(sum, count)
    ensures Terms(s1, s2, lag, 2) == Accumulated(sum, count)
  {
    assert Terms(s1, s2, lag, 0) == Accumulated(0.0, 0);
    assert Terms(s1, s2, lag, 1) == (if 0 <= -lag < 2 then Accumulated(s1[0] * s2[-lag], 1) else Accumulated(0.0, 0));
  }

  /** A signal s1 that is s2 delayed by one sample: the corrected array
      peaks at lag +1, the delay. */
  lemma CorrelationGuardExampleCorrected(s1: seq<real>, s2: seq<real>)
    requires s1 == [0.0, 1.0] && s2 == [1.0, 0.0]
    ensures Correlations(s1, s2) == [0.0, 0.0, 1.0]
    ensures PeakLag(s1, s2) == 1
  {
    TwoSampleTerms(s1, s2, -1, 0.0, 1);
    TwoSampleTerms(s1, s2, 0, 0.0, 2);
    TwoSampleTerms(s1, s2, 1, 1.0, 1);
    assert MaxLag(s1, s2) == 1;
    var cc := Correlations(s1, s2);
    assert cc[0] == Entry(Accumulated(0.0, 1)) == 0.0;
    assert cc[1] == Entry(Accumulated(0.0, 2)) == 0.0;
    assert cc[2] == Entry(Accumulated(1.0, 1)) == 1.0;
    assert cc == [0.0, 0.0, 1.0];
    var r := FirstMaxIndex(cc);
    assert cc[r] >= cc[2];
  }

  /** The same signals: the array as written is all zeros, so it peaks at
      its first entry, lag -1, the wrong sign. */
  lemma CorrelationGuardExampleAsWritten(s1: seq<real>, s2: seq<real>)
    requires s1 == [0.0, 1.0] && s2 == [1.0, 0.0]
    ensures CorrelationsAsWritten(s1, s2) == [0.0, 0.0, 0.0]
    ensures PeakOf(CorrelationsAsWritten(s1, s2), 1) == -1
  {
    CorrelationGuardExampleCorrected(s1, s2);
    AsWrittenAgreesAtNonPositiveLags(s1, s2, 0);
    AsWrittenAgreesAtNonPositiveLags(s1, s2, 1);
    PositiveLagsNeverAccumulated(s1, s2, 1);
    var cc := CorrelationsAsWritten(s1, s2);
    assert cc == [0.0, 0.0, 0.0];
    var r := FirstMaxIndex(cc);
    assert cc[r] == 0.0;
    assert !(cc[0] < cc[r]);
  }

  /** The inner loop with the guard moved into the body: an index without a
      partner in s2 is skipped instead of ending the loop. */
  method CorrelationAt(s1: seq<real>, s2: seq<real>, lag: int) returns (acc: Accumulated)
    ensures acc == Terms(s1, s2, lag, |s1|)
  {
    var corr, n := 0.0, 0;
    var i := 0;
    while i < |s1|
      invariant 0 <= i <= |s1|
      invariant Accumulated(corr, n) == Terms(s1, s2, lag, i)
    {
      if 0 <= i - lag < |s2| {
        corr := corr + s1[i] * s2[i - lag];
        n := n + 1;
      }
      i := i + 1;
    }
    acc := Accumulated(corr, n);
  }

  /** std::max_element over the array: the first maximal index. */
  method FirstMaxOf(a: array<real>) returns (best: nat)
    requires a.Length > 0
    ensures best == FirstMaxIndex(a[..])
  {
    best := 0;
    var k := 1;
    while k < a.Length
      invariant 1 <= k <= a.Length
      invariant best == FirstMaxIndex(a[..k])
    {
      assert a[..k + 1][..k] == a[..k];
      if a[best] < a[k] {
        best := k;
      }
      k := k + 1;
    }
    assert a[..k] == a[..];
  }

  /** calculateTimeDifferenceCorrelation with the corrected inner loop: the
      time difference is the peak lag over the sampling rate. */
  method TimeDifferenceCorrelation(m: Math, s1: seq<real>, s2: seq<real>, samplingRate: real)
    returns (dt: real)
    ensures dt == m.div(PeakLag(s1, s2) as real, samplingRate)
  {
    var crossCorr := CrossCorrelate(s1, s2);
    var best := FirstMaxOf(crossCorr);
    dt := m.div((best - MaxLag(s1, s2)) as real, samplingRate);
  }

  /** The array of mean products, one per lag from -MaxLag to MaxLag; an
      entry stays 0 when its lag has no product. */
  method CrossCorrelate(s1: seq<real>, s2: seq<real>) returns (crossCorr: array<real>)
    ensures fresh(crossCorr)
    ensures crossCorr[..] == Correlations(s1, s2)
  {
    var maxLag := MaxLag(s1, s2);
    crossCorr := new real[2 * maxLag + 1](_ => 0.0);
    ghost var expected := Correlations(s1, s2);
    var lag := -(maxLag as int);
    while lag <= maxLag
      invariant -(maxLag as int) <= lag <= maxLag + 1
      invariant forall j :: 0 <= j < lag + maxLag ==> crossCorr[j] == expected[j]
      invariant forall j :: lag + maxLag <= j < crossCorr.Length ==> crossCorr[j] == 0.0
    {
      var acc := CorrelationAt(s1, s2, lag);
      var index := lag + maxLag;
      assert expected[index] == Entry(acc);
      if acc.count > 0 {
        crossCorr[index] := acc.sum / acc.count as real;
      }
      lag := lag + 1;
    }
    assert crossCorr[..] == expected;
  }

  // ---------------------------------------------------------------------
  // calculateTimeDifferencePhase

  /** The real and imaginary parts of both signals at the given frequency. */
  datatype Spectrum = Spectrum(re1: real, im1: real, re2: real, im2: real)

  /** The angle 2 pi f t of sample i, taken at t = i / rate. */
  function SampleAngle(m: Math, samplingRate: real, frequency: real, i: nat): real
  {
    2.0 * Pi * frequency * m.div(i as real, samplingRate)
  }

  /** The sums over the first k samples. */
  function PhaseSums(m: Math, s1: seq<real>, s2: seq<real>, samplingRate: real, frequency: real, k: nat): Spectrum
    requires k <= |s1| && k <= |s2|
  {
    if k == 0 then Spectrum(0.0, 0.0, 0.0, 0.0)
    else
      var p := PhaseSums(m, s1, s2, samplingRate, frequency, k - 1);
      var w := SampleAngle(m, samplingRate, frequency, k - 1);
      Spectrum(p.re1 + s1[k - 1] * m.cos(w), p.im1 + s1[k - 1] * m.sin(w),
               p.re2 + s2[k - 1] * m.cos(w), p.im2 + s2[k - 1] * m.sin(w))
  }

  /** The single +-2 pi correction of the phase difference. */
  function WrapPhase(d: real): (r: real)
    ensures -2.0 * Pi < d < 2.0 * Pi ==> -Pi <= r <= Pi
    ensures r == d || r == d - 2.0 * Pi || r == d + 2.0 * Pi
  {
    var a := if d > Pi then d - 2.0 * Pi else d;
    if a < -Pi then a + 2.0 * Pi else a
  }

  /** The phase of signal 2 minus that of signal 1, reduced by fmod and
      wrapped once: it lies in [-pi, pi]. */
  function PhaseDifference(m: Math, s: Spectrum): (r: real)
    requires Lawful(m)
    ensures -Pi <= r <= Pi
  {
    var phase1 := m.atan2Deg(s.im1, s.re1) * Deg2Rad;
    var phase2 := m.atan2Deg(s.im2, s.re2) * Deg2Rad;
    WrapPhase(m.fmod(phase2 - phase1, 2.0 * Pi))
  }

  /** A phase in [-pi, pi] at a positive frequency is at most half a period. */
  lemma HalfPeriodBound(phi: real, f: real)
    requires -Pi <= phi <= Pi && f > 0.0
    ensures -(1.0 / (2.0 * f)) <= phi / (2.0 * Pi * f) <= 1.0 / (2.0 * f)
  {
    var u := phi / Pi;
    var h := 1.0 / (2.0 * f);
    assert -1.0 <= u <= 1.0;
    assert phi / (2.0 * Pi * f) == u * h;
    NonNegativeProduct(1.0 - u, h);
    NonNegativeProduct(u + 1.0, h);
  }

  /** calculateTimeDifferencePhase: the phase difference over the shorter
      signal, divided by 2 pi f, hence within half a period. */
  method TimeDifferencePhase(m: Math, s1: seq<real>, s2: seq<real>, samplingRate: real, frequency: real)
    returns (dt: real)
    requires Lawful(m)
    ensures var n := if |s1| <= |s2| then |s1| else |s2|;
            dt == m.div(PhaseDifference(m, PhaseSums(m, s1, s2, samplingRate, frequency, n)), 2.0 * Pi * frequency)
    ensures frequency > 0.0 ==> -(1.0 / (2.0 * frequency)) <= dt <= 1.0 / (2.0 * frequency)
  {
    var n := if |s1| <= |s2| then |s1| else |s2|;
    var sums := SumsAtFrequency(m, s1, s2, samplingRate, frequency, n);
    var phaseDiff := PhaseDifference(m, sums);
    dt := m.div(phaseDiff, 2.0 * Pi * frequency);
    if frequency > 0.0 {
      ProductPositive(2.0 * Pi, frequency);
      HalfPeriodBound(phaseDiff, frequency);
    }
  }

  /** The loop of calculateTimeDifferencePhase over the first n samples. */
  method SumsAtFrequency(m: Math, s1: seq<real>, s2: seq<real>, samplingRate: real, frequency: real, n: nat)
    returns (sums: Spectrum)
    requires n <= |s1| && n <= |s2|
    ensures sums == PhaseSums(m, s1, s2, samplingRate, frequency, n)
  {
    var sum1Re, sum1Im, sum2Re, sum2Im := 0.0, 0.0, 0.0, 0.0;
    var i := 0;
    while i < n
      invariant 0 <= i <= n
      invariant Spectrum(sum1Re, sum1Im, sum2Re, sum2Im) == PhaseSums(m, s1, s2, samplingRate, frequency, i)
    {
      var w := SampleAngle(m, samplingRate, frequency, i);
      sum1Re := sum1Re + s1[i] * m.cos(w);
      sum1Im := sum1Im + s1[i] * m.sin(w);
      sum2Re := sum2Re + s2[i] * m.cos(w);
      sum2Im := sum2Im + s2[i] * m.sin(w);
      i := i + 1;
    }
    sums := Spectrum(sum1Re, sum1Im, sum2Re, sum2Im);
  }

  // ---------------------------------------------------------------------
  // runSimulation: geometry

  /** The two observations and the virtual baseline between them. */
  datatype Geometry = Geometry(
    start: Coord3, moved: Coord3, target: Coord3,
    distance1: real, distance2: real, timeDifference: real,
    baselineLength: real, mid: Coord3, baseline: Vector3)

  /** Each component divided by n; a zero n gives what the division gives. */
  function DivideBy(m: Math, v: Vector3, n: real): Vector3
  {
    Vector3(m.div(v.x, n), m.div(v.y, n), m.div(v.z, n))
  }

  /** The position reached from `p` moving at velocity `v` for `t` seconds. */
  function Moved(p: Coord3, v: Coord3, t: real): (q: Coord3)
    ensures q.p1 - p.p1 == v.p1 * t && q.p2 - p.p2 == v.p2 * t && q.p3 - p.p3 == v.p3 * t
  {
    Coord3(p.p1 + v.p1 * t, p.p2 + v.p2 * t, p.p3 + v.p3 * t)
  }

  /** The midpoint of two positions. */
  function Midpoint(a: Coord3, b: Coord3): (c: Coord3)
    ensures c.p1 * 2.0 == a.p1 + b.p1 && c.p2 * 2.0 == a.p2 + b.p2 && c.p3 * 2.0 == a.p3 + b.p3
  {
    Coord3((a.p1 + b.p1) / 2.0, (a.p2 + b.p2) / 2.0, (a.p3 + b.p3) / 2.0)
  }

  /** The vector from `a` to `b`. */
  function Difference(a: Coord3, b: Coord3): Vector3
  {
    Vector3(b.p1 - a.p1, b.p2 - a.p2, b.p3 - a.p3)
  }

  /** The device position at the start and after `simulationTime` seconds
      along its velocity, the ranges to the source from both, the time
      difference of the ranges, the baseline (speed times time), its
      midpoint and its direction divided by its length. */
  function ObservedGeometry(m: Math, device: ReconnaissanceDeviceModel.Device, source: RadiationSourceModel.Source,
                            simulationTime: int): (g: Geometry)
    requires Lawful(m)
    ensures g.start == m.lbh2xyz(Coord3(device.longitude, device.latitude, device.altitude))
    ensures g.target == m.lbh2xyz(Coord3(source.longitude, source.latitude, source.altitude))
    ensures g.moved == Moved(g.start, m.velocity(device.longitude, device.latitude, device.movementSpeed,
                                                 device.movementAzimuth, device.movementElevation),
                             simulationTime as real)
    ensures g.distance1 == Distance(m, g.start, g.target) && g.distance2 == Distance(m, g.moved, g.target)
    ensures g.distance1 >= 0.0 && g.distance2 >= 0.0
    ensures g.timeDifference * C == g.distance1 - g.distance2
    ensures g.baselineLength == device.movementSpeed * simulationTime as real
    ensures g.mid == Midpoint(g.start, g.moved)
    ensures g.baseline == DivideBy(m, Difference(g.start, g.moved), Magnitude(m, Difference(g.start, g.moved)))
  {
    var t := simulationTime as real;
    var p1 := m.lbh2xyz(Coord3(device.longitude, device.latitude, device.altitude));
    var target := m.lbh2xyz(Coord3(source.longitude, source.latitude, source.altitude));
    var v := m.velocity(device.longitude, device.latitude, device.movementSpeed,
                        device.movementAzimuth, device.movementElevation);
    var p2 := Moved(p1, v, t);
    var d1 := Distance(m, p1, target);
    var d2 := Distance(m, p2, target);
    DistanceLaws(m, p1, target);
    DistanceLaws(m, p2, target);
    var b := Difference(p1, p2);
    Geometry(p1, p2, target, d1, d2, (d1 - d2) / C, device.movementSpeed * t, Midpoint(p1, p2),
             DivideBy(m, b, Magnitude(m, b)))
  }

  /** sin(theta) clamped to [-1, 1]. */
  function ClampUnit(s: real): (r: real)
    ensures -1.0 <= r <= 1.0
    ensures -1.0 <= s <= 1.0 ==> r == s
    ensures s > 1.0 ==> r == 1.0
    ensures s < -1.0 ==> r == -1.0
  {
    Max(Min(s, 1.0), -1.0)
  }

  /** The coordinate axis least parallel to the baseline: the one with the
      smallest absolute component, x before y before z on ties. */
  function ReferenceAxis(b: Vector3): (r: Vector3)
    ensures r == Vector3(1.0, 0.0, 0.0) || r == Vector3(0.0, 1.0, 0.0) || r == Vector3(0.0, 0.0, 1.0)
    ensures Abs(Dot(b, r)) <= Abs(b.x) && Abs(Dot(b, r)) <= Abs(b.y) && Abs(Dot(b, r)) <= Abs(b.z)
    ensures Abs(b.x) <= Abs(b.y) && Abs(b.x) <= Abs(b.z) ==> r == Vector3(1.0, 0.0, 0.0)
    ensures r == Vector3(0.0, 0.0, 1.0) ==> Abs(b.z) < Abs(b.x) && Abs(b.z) < Abs(b.y)
  {
    if Abs(b.x) <= Abs(b.y) && Abs(b.x) <= Abs(b.z) then Vector3(1.0, 0.0, 0.0)
    else if Abs(b.y) <= Abs(b.x) && Abs(b.y) <= Abs(b.z) then Vector3(0.0, 1.0, 0.0)
    else Vector3(0.0, 0.0, 1.0)
  }

  /** The first perpendicular, before its normalisation, is orthogonal to
      the baseline. */
  lemma PerpendicularIsOrthogonal(b: Vector3)
    ensures Dot(b, Cross(b, ReferenceAxis(b))) == 0.0
  {
    CrossOrthogonal(b, ReferenceAxis(b));
  }

  /** The unit direction at the incident angle from the baseline, turned
      towards the first perpendicular (the in-plane angle is 0). */
  function IncidenceDirection(m: Math, b: Vector3, incidentAngle: real): Vector3
  {
    var perp0 := Cross(b, ReferenceAxis(b));
    var perp := DivideBy(m, perp0, Magnitude(m, perp0));
    var perp20 := Cross(b, perp);
    var perp2 := DivideBy(m, perp20, Magnitude(m, perp20));
    var inPlane := 0.0;
    var dir := Add(Scale(b, m.sin(incidentAngle)),
                   Scale(Add(Scale(perp, m.cos(inPlane)), Scale(perp2, m.sin(inPlane))), m.cos(incidentAngle)));
    DivideBy(m, dir, Magnitude(m, dir))
  }

  /** The azimuth (atan2 of x over y, +360 when negative) and the elevation
      (atan2 of z over the horizontal length, clamped to [-90, 90]) of a
      direction. The clamp never changes the value: atan2 with a
      non-negative second argument already lies in [-90, 90]. */
  function DirectionAngles(m: Math, dir: Vector3): (r: (real, real))
    requires Lawful(m)
    ensures 0.0 <= r.0 < 360.0 && -90.0 <= r.1 <= 90.0
    ensures var horizontal := m.sqrt(dir.x * dir.x + dir.y * dir.y);
            r.1 == m.atan2Deg(dir.z, horizontal)
  {
    var a := m.atan2Deg(dir.x, dir.y);
    InterferometerPositioning.ResultAzimuthRange(a);
    SquareNonNegative(dir.x);
    SquareNonNegative(dir.y);
    var horizontal := m.sqrt(dir.x * dir.x + dir.y * dir.y);
    (InterferometerPositioning.ResultAzimuth(a),
     DirectionFindingAlgorithm.ClampElevation(m.atan2Deg(dir.z, horizontal)))
  }

  /** The elevation of the source seen from the baseline midpoint. */
  function GeometricElevation(m: Math, g: Geometry): (r: real)
    requires Lawful(m)
    ensures -90.0 <= r <= 90.0
  {
    var dx, dy := g.target.p1 - g.mid.p1, g.target.p2 - g.mid.p2;
    SquareNonNegative(dx);
    SquareNonNegative(dy);
    m.atan2Deg(g.target.p3 - g.mid.p3, m.sqrt(dx * dx + dy * dy))
  }

  /** The azimuth of the source from the midpoint, +360 when negative. */
  function GeometricAzimuth(m: Math, g: Geometry): (r: real)
    requires Lawful(m)
    ensures 0.0 <= r < 360.0
  {
    var d := Vector3(g.target.p1 - g.mid.p1, g.target.p2 - g.mid.p2, g.target.p3 - g.mid.p3);
    var u := DivideBy(m, d, Magnitude(m, d));
    var a := m.atan2Deg(u.x, u.y);
    InterferometerPositioning.ResultAzimuthRange(a);
    InterferometerPositioning.ResultAzimuth(a)
  }

  // ---------------------------------------------------------------------
  // runSimulation: the elevation iteration

  /** The typical elevation range of a source, in degrees. */
  const MinTypicalElevation: real := -30.0
  const MaxTypicalElevation: real := 60.0
  const MaxIterations: nat := 10
  const ErrorThreshold: real := 0.000001
  /** The elevation disagreement, in degrees, that starts the iteration. */
  const IterationTrigger: real := 5.0

  function ClampTypical(e: real): (r: real)
    ensures MinTypicalElevation <= r <= MaxTypicalElevation
    ensures MinTypicalElevation <= e <= MaxTypicalElevation ==> r == e
  {
    Max(Min(e, MaxTypicalElevation), MinTypicalElevation)
  }

  /** The angles after one correction step and the range error of the step. */
  datatype AngleStep = AngleStep(elevation: real, azimuth: real, error: real)

  /** The measured time difference minus the one expected along the
      given angles (degrees). */
  function TimeResidual(m: Math, b: Vector3, baselineLength: real, timeDifference: real,
                        elevation: real, azimuth: real): real
  {
    var el, az := elevation * Deg2Rad, azimuth * Deg2Rad;
    var dir := Vector3(m.sin(az) * m.cos(el), m.cos(az) * m.cos(el), m.sin(el));
    timeDifference - (baselineLength * Dot(b, dir)) / C
  }

  /** A share of the residual over the sensitivity L * f(elevation) / c,
      in degrees. */
  function Correction(m: Math, share: real, residual: real, baselineLength: real, trig: real): real
  {
    m.div(share * residual, baselineLength * trig / C) * Rad2Deg
  }

  /** One step of the iteration: the residual of the time difference
      expected along the current angles, corrections of 0.7 and 0.3 of it
      over the elevation and azimuth sensitivities (L cos(el) / c and
      L sin(el) / c), the new elevation clamped to the typical range and the
      new azimuth wrapped once; the error is the residual as a range. */
  function Step(m: Math, b: Vector3, baselineLength: real, timeDifference: real,
                elevation: real, azimuth: real): (r: AngleStep)
    ensures MinTypicalElevation <= r.elevation <= MaxTypicalElevation
    ensures r.error >= 0.0
  {
    var residual := TimeResidual(m, b, baselineLength, timeDifference, elevation, azimuth);
    var el := elevation * Deg2Rad;
    AngleStep(ClampTypical(elevation + Correction(m, 0.7, residual, baselineLength, m.cos(el))),
              DirectionFindingAlgorithm.WrapMeasuredAzimuth(
                azimuth + Correction(m, 0.3, residual, baselineLength, m.sin(el))),
              Abs(residual * C))
  }

  /** The iteration stops when the error changes by less than the threshold
      or falls below ten times it. */
  predicate Converged(newError: real, lastError: real)
  {
    Abs(newError - lastError) < ErrorThreshold || newError < ErrorThreshold * 10.0
  }

  /** The error the step i is compared with: the initial disagreement for
      the first step, the previous step's error after that. */
  ghost function PreviousError(initialError: real, steps: seq<AngleStep>, i: nat): real
    requires i < |steps|
  {
    if i == 0 then initialError else steps[i - 1].error
  }

  /** Each step applies `step` to the angles the previous step produced,
      the first to the starting angles. */
  ghost predicate Linked(step: (real, real) -> AngleStep, elevation0: real, azimuth0: real, steps: seq<AngleStep>)
  {
    (|steps| > 0 ==> steps[0] == step(elevation0, azimuth0)) &&
    forall i :: 0 < i < |steps| ==> steps[i] == step(steps[i - 1].elevation, steps[i - 1].azimuth)
  }

  /** No step of `steps` met the convergence test. */
  ghost predicate NoneConverged(initialError: real, steps: seq<AngleStep>)
  {
    forall i :: 0 <= i < |steps| ==> !Converged(steps[i].error, PreviousError(initialError, steps, i))
  }

  lemma LinkedExtend(step: (real, real) -> AngleStep, elevation0: real, azimuth0: real,
                     steps: seq<AngleStep>, next: AngleStep)
    requires Linked(step, elevation0, azimuth0, steps)
    requires |steps| == 0 ==> next == step(elevation0, azimuth0)
    requires |steps| > 0 ==> next == step(steps[|steps| - 1].elevation, steps[|steps| - 1].azimuth)
    ensures Linked(step, elevation0, azimuth0, steps + [next])
  {
    var longer := steps + [next];
    assert forall i :: 0 <= i < |steps| ==> longer[i] == steps[i];
  }

  lemma NoneConvergedExtend(initialError: real, steps: seq<AngleStep>, next: AngleStep)
    requires NoneConverged(initialError, steps)
    requires !Converged(next.error, if |steps| == 0 then initialError else steps[|steps| - 1].error)
    ensures NoneConverged(initialError, steps + [next])
  {
    var longer := steps + [next];
    forall i | 0 <= i < |longer|
      ensures !Converged(longer[i].error, PreviousError(initialError, longer, i))
    {
      if i < |steps| {
        assert longer[i] == steps[i];
        assert PreviousError(initialError, longer, i) == PreviousError(initialError, steps, i);
      } else {
        assert longer[i] == next;
      }
    }
  }

  /** A run that stops at its first converged step is a whole run. */
  lemma IterationStops(step: (real, real) -> AngleStep, elevation0: real, azimuth0: real, initialError: real,
                       before: seq<AngleStep>, next: AngleStep)
    requires |before| < MaxIterations
    requires Linked(step, elevation0, azimuth0, before + [next])
    requires NoneConverged(initialError, before)
    requires Converged(next.error, if |before| == 0 then initialError else before[|before| - 1].error)
    ensures Iteration(step, elevation0, azimuth0, initialError, before + [next])
  {
    var steps := before + [next];
    assert steps[..|steps| - 1] == before;
    assert PreviousError(initialError, steps, |steps| - 1) ==
           (if |before| == 0 then initialError else before[|before| - 1].error);
  }

  /** A run of the full length with no converged step is a whole run. */
  lemma IterationExhausted(step: (real, real) -> AngleStep, elevation0: real, azimuth0: real, initialError: real,
                           steps: seq<AngleStep>)
    requires |steps| == MaxIterations
    requires Linked(step, elevation0, azimuth0, steps)
    requires NoneConverged(initialError, steps)
    ensures Iteration(step, elevation0, azimuth0, initialError, steps)
  {
    var front := steps[..|steps| - 1];
    forall i | 0 <= i < |front|
      ensures !Converged(front[i].error, PreviousError(initialError, front, i))
    {
      assert front[i] == steps[i];
      assert PreviousError(initialError, front, i) == PreviousError(initialError, steps, i);
    }
  }

  /** The iteration loop, for its step function (runSimulation passes
      `Step` on its baseline and time difference): at most MaxIterations
      steps, each applied to the previous step's angles, ending at the first
      converged step or after the last one; the result is the last step's
      angles, so the elevation lies in whatever range every step keeps. */
  method RefineAngles(step: (real, real) -> AngleStep, elevation0: real, azimuth0: real, initialError: real)
    returns (elevation: real, azimuth: real, ghost steps: seq<AngleStep>)
    requires forall e, a :: MinTypicalElevation <= step(e, a).elevation <= MaxTypicalElevation
    ensures Iteration(step, elevation0, azimuth0, initialError, steps)
    ensures elevation == steps[|steps| - 1].elevation && azimuth == steps[|steps| - 1].azimuth
    ensures MinTypicalElevation <= elevation <= MaxTypicalElevation
  {
    elevation, azimuth := elevation0, azimuth0;
    var lastError := initialError;
    steps := [];
    var iter := 0;
    while iter < MaxIterations
      invariant 0 <= iter <= MaxIterations && |steps| == iter
      invariant iter == 0 ==> elevation == elevation0 && azimuth == azimuth0 && lastError == initialError
      invariant iter > 0 ==> elevation == steps[iter - 1].elevation && azimuth == steps[iter - 1].azimuth &&
                             lastError == steps[iter - 1].error
      invariant Linked(step, elevation0, azimuth0, steps)
      invariant NoneConverged(initialError, steps)
    {
      var next := step(elevation, azimuth);
      LinkedExtend(step, elevation0, azimuth0, steps, next);
      ghost var before := steps;
      steps := steps + [next];
      assert steps[..|steps| - 1] == before;
      elevation, azimuth := next.elevation, next.azimuth;
      if Converged(next.error, lastError) {
        IterationStops(step, elevation0, azimuth0, initialError, before, next);
        return;
      }
      NoneConvergedExtend(initialError, before, next);
      lastError := next.error;
      iter := iter + 1;
    }
    IterationExhausted(step, elevation0, azimuth0, initialError, steps);
  }

  // ---------------------------------------------------------------------
  // runSimulation: elevation selection, distance and height

  /** Without the iteration, an elevation beyond 30 degrees in magnitude,
      more than 10 degrees from the geometric one, or outside the typical
      range is replaced by the geometric elevation. */
  function ChooseElevation(elevation: real, geometricElevation: real, iterated: bool): (r: real)
    ensures iterated ==> r == elevation
    ensures !iterated && (Abs(elevation) > 30.0 || Abs(geometricElevation - elevation) > 10.0) ==>
              r == geometricElevation
    ensures !iterated && !(Abs(elevation) > 30.0 || Abs(geometricElevation - elevation) > 10.0) ==> r == elevation
  {
    var useGeometric :=
      (!iterated && (Abs(elevation) > 30.0 || Abs(geometricElevation - elevation) > 10.0)) ||
      (!iterated && (elevation > MaxTypicalElevation || elevation < MinTypicalElevation));
    if useGeometric then geometricElevation else elevation
  }

  /** The second trigger adds nothing: an elevation outside [-30, 60] has a
      magnitude beyond 30. */
  lemma TypicalRangeTriggerSubsumed(elevation: real)
    requires elevation > MaxTypicalElevation || elevation < MinTypicalElevation
    ensures Abs(elevation) > 30.0
  {
  }

  /** The elevation is moved into the source's elevation sector: below the
      start it becomes the start, else above the end the end. */
  function SectorClamp(elevation: real, start: real, end: real): (r: real)
    ensures start <= end ==> start <= r <= end
    ensures start <= elevation <= end ==> r == elevation
    ensures elevation < start ==> r == start
    ensures start <= elevation && elevation > end ==> r == end
  {
    if elevation < start then start else if elevation > end then end else elevation
  }

  /** A malformed sector (start above end) gives a value outside it. */
  lemma SectorClampInvertedSector()
    ensures SectorClamp(5.0, 10.0, 0.0) == 10.0
  {
  }

  const MinReasonableDistance: real := 100.0
  const MaxReasonableDistance: real := 500000.0

  /** The mean of the two ranges, replaced by the direct distance from the
      baseline midpoint when it falls outside [100 m, 500 km]. */
  function EstimatedDistance(distance1: real, distance2: real, direct: real): (r: real)
    ensures MinReasonableDistance <= (distance1 + distance2) / 2.0 <= MaxReasonableDistance ==>
              r == (distance1 + distance2) / 2.0
    ensures !(MinReasonableDistance <= (distance1 + distance2) / 2.0 <= MaxReasonableDistance) ==> r == direct
  {
    var mean := (distance1 + distance2) / 2.0;
    if mean < MinReasonableDistance || mean > MaxReasonableDistance then direct else mean
  }

  /** The three height estimates: method 1 converts the point at the
      estimated distance along the final angles back to geodetic
      coordinates, method 2 raises the midpoint's z by the horizontal
      distance times tan(elevation), method 3 does the same with the
      geometric elevation. */
  datatype Heights = Heights(point: Coord3, tangent: real, geometric: real)

  function HeightEstimates(m: Math, mid: Coord3, azimuth: real, elevation: real,
                           geometricElevation: real, distance: real): (h: Heights)
    ensures var horizontal := distance * m.cos(elevation * Deg2Rad);
            h.tangent - mid.p3 == horizontal * m.tan(elevation * Deg2Rad) &&
            h.geometric - mid.p3 == horizontal * m.tan(geometricElevation * Deg2Rad)
  {
    var el, az := elevation * Deg2Rad, azimuth * Deg2Rad;
    var dir := Coord3(m.sin(az) * m.cos(el), m.cos(az) * m.cos(el), m.sin(el));
    var estimated := Coord3(mid.p1 + distance * dir.p1, mid.p2 + distance * dir.p2, mid.p3 + distance * dir.p3);
    var horizontal := distance * m.cos(el);
    Heights(m.xyz2lbh(estimated), mid.p3 + horizontal * m.tan(el),
            mid.p3 + horizontal * m.tan(geometricElevation * Deg2Rad))
  }

  /** The height of the chosen method and the method's number. */
  datatype Choice = Choice(height: real, heightMethod: int)

  /** The method whose height is closest to the true altitude: 3 when its
      error is no larger than both others, else 2 when no larger than 1's,
      else 1. */
  function SelectHeight(h1: real, h2: real, h3: real, altitude: real): (c: Choice)
    ensures c.heightMethod == 1 || c.heightMethod == 2 || c.heightMethod == 3
    ensures c.height == (if c.heightMethod == 1 then h1 else if c.heightMethod == 2 then h2 else h3)
    ensures Abs(c.height - altitude) <= Abs(h1 - altitude) &&
            Abs(c.height - altitude) <= Abs(h2 - altitude) &&
            Abs(c.height - altitude) <= Abs(h3 - altitude)
    ensures c.heightMethod == 3 <==> Abs(h3 - altitude) <= Abs(h2 - altitude) && Abs(h3 - altitude) <= Abs(h1 - altitude)
    ensures c.heightMethod == 1 ==> Abs(h1 - altitude) < Abs(h2 - altitude) && Abs(h1 - altitude) < Abs(h3 - altitude)
  {
    var e1, e2, e3 := Abs(h1 - altitude), Abs(h2 - altitude), Abs(h3 - altitude);
    if e3 <= e2 && e3 <= e1 then Choice(h3, 3)
    else if e2 <= e1 then Choice(h2, 2)
    else Choice(h1, 1)
  }

  const MinReasonableHeight: real := -500.0
  const MaxReasonableHeight: real := 50000.0
  const MaxRelativeHeightError: real := 0.5

  /** A height in [-500, 50000] whose error is at most half of
      |altitude| + 1. */
  predicate Plausible(height: real, altitude: real)
  {
    MinReasonableHeight <= height <= MaxReasonableHeight &&
    Abs(height - altitude) <= MaxRelativeHeightError * (Abs(altitude) + 1.0)
  }

  /** The chosen height is kept only when it lies in [-500, 50000] and its
      error relative to |altitude| + 1 is at most 0.5; otherwise the
      source's true altitude replaces it. */
  function CheckedHeight(best: real, altitude: real): (r: real)
    ensures Plausible(best, altitude) ==> r == best
    ensures !Plausible(best, altitude) ==> r == altitude
  {
    var heightValid := MinReasonableHeight <= best <= MaxReasonableHeight;
    var relative := Abs(best - altitude) / (Abs(altitude) + 1.0);
    RelativeErrorBound(Abs(best - altitude), Abs(altitude) + 1.0);
    if !heightValid || relative > MaxRelativeHeightError then altitude else best
  }

  /** e / d <= 0.5 exactly when e <= 0.5 * d, for a positive d. */
  lemma RelativeErrorBound(e: real, d: real)
    requires d > 0.0
    ensures e / d <= MaxRelativeHeightError <==> e <= MaxRelativeHeightError * d
  {
    assert e == (e / d) * d;
    if e / d <= MaxRelativeHeightError {
      NonNegativeProduct(MaxRelativeHeightError - e / d, d);
    } else {
      ProductPositive(e / d - MaxRelativeHeightError, d);
    }
  }

  /** The stored altitude is either plausible and close to the truth, or
      the truth itself. */
  lemma CheckedHeightIsPlausible(best: real, altitude: real)
    ensures var r := CheckedHeight(best, altitude);
            r == altitude || Plausible(r, altitude)
  {
  }

  // ---------------------------------------------------------------------
  // calculateTDOAErrors and the stored accuracies

  /** The assumed sampling rate (10 MHz) and carrier (2.4 GHz), the 5 m
      GNSS error, the 35 degree phase mismatch and the 0.1 ns system delay. */
  const AssumedSamplingRate: real := 10000000.0
  const AssumedFrequency: real := 2400000000.0
  const PositionMeasurementError: real := 5.0
  const PhaseMismatchDeg: real := 35.0
  const SystemDelay: real := 0.0000000001

  /** The time quantisation error 1 / (2 rate), in seconds. */
  const TimeMeasurementError: real := 1.0 / (2.0 * AssumedSamplingRate)
  /** The time error of the phase mismatch, in seconds. */
  const TimeErrorFromPhase: real := (PhaseMismatchDeg * Deg2Rad) / (2.0 * Pi * AssumedFrequency)

  /** calculateTDOAErrors: the time error (ms), the angular position error
      (deg), the phase time error (ms), the multipath error, and the position
      error, which is the distance times c times the combined time error
      over the baseline times cos(theta), cos(theta) floored like the
      interferometer's. */
  function TdoaErrors(m: Math, baselineLength: real, distance: real, incidentAngle: real): (e: seq<real>)
    requires Lawful(m)
    ensures |e| == 5
    ensures e[0] == TimeMeasurementError * 1000.0 && e[2] == TimeErrorFromPhase * 1000.0
    ensures e[1] == m.div(PositionMeasurementError, distance) * Rad2Deg
    ensures 0.15 <= e[3] <= 0.3
    ensures var totalTimeError := m.sqrt(TimeMeasurementError * TimeMeasurementError +
                                         TimeErrorFromPhase * TimeErrorFromPhase + SystemDelay * SystemDelay);
            e[4] == distance * m.div(C * totalTimeError,
                                     baselineLength * InterferometerPositioning.FlooredCos(m.cos(incidentAngle)))
  {
    var multipath := 0.15 * (1.0 + Abs(m.sin(incidentAngle)));
    var totalTimeError := m.sqrt(TimeMeasurementError * TimeMeasurementError +
                                 TimeErrorFromPhase * TimeErrorFromPhase + SystemDelay * SystemDelay);
    var cosTheta := InterferometerPositioning.FlooredCos(m.cos(incidentAngle));
    var angleError := m.div(C * totalTimeError, baselineLength * cosTheta);
    [TimeMeasurementError * 1000.0, m.div(PositionMeasurementError, distance) * Rad2Deg,
     TimeErrorFromPhase * 1000.0, multipath, distance * angleError]
  }

  /** The largest value the DECIMAL(8,6) accuracy columns hold. */
  const MaxStoredAccuracy: real := 99.999999

  function CapAccuracy(a: real): (r: real)
    ensures r <= MaxStoredAccuracy
    ensures a <= MaxStoredAccuracy ==> r == a
  {
    if a > MaxStoredAccuracy then MaxStoredAccuracy else a
  }

  /** The stored direction-finding accuracy: the sixth error factor when
      there is one, else 0, capped. */
  function DirectionAccuracy(errors: seq<real>): real
  {
    CapAccuracy(if |errors| > 5 then errors[5] else 0.0)
  }

  /** calculateTDOAErrors yields five factors, so the sixth is never there
      and the stored direction-finding accuracy is always 0. */
  lemma DirectionAccuracyAlwaysZero(m: Math, baselineLength: real, distance: real, incidentAngle: real)
    requires Lawful(m)
    ensures DirectionAccuracy(TdoaErrors(m, baselineLength, distance, incidentAngle)) == 0.0
  {
  }

  // ---------------------------------------------------------------------
  // runSimulation

  /** The incident angle: the arcsine of c dt / L clamped to [-1, 1]. */
  function IncidentAngle(m: Math, g: Geometry): real
  {
    m.asin(ClampUnit(m.div(C * g.timeDifference, g.baselineLength)))
  }

  /** The correction step of the elevation iteration for this geometry. */
  function StepOf(m: Math, g: Geometry): (real, real) -> AngleStep
  {
    (e, a) => Step(m, g.baseline, g.baselineLength, g.timeDifference, e, a)
  }

  /** `steps` is the whole run of the iteration: linked from the starting
      angles, none converged before the last, and the last converged unless
      the iteration limit was reached. */
  ghost predicate Iteration(step: (real, real) -> AngleStep, elevation0: real, azimuth0: real,
                            initialError: real, steps: seq<AngleStep>)
  {
    1 <= |steps| <= MaxIterations && Linked(step, elevation0, azimuth0, steps) &&
    NoneConverged(initialError, steps[..|steps| - 1]) &&
    (|steps| < MaxIterations ==> Converged(steps[|steps| - 1].error, PreviousError(initialError, steps, |steps| - 1)))
  }

  /** The angles runSimulation settles on, given the direction's angles,
      the geometric angles and the iteration step. Within 5 degrees of the
      geometric elevation, the direction's azimuth and its elevation after
      the geometric fallback; beyond that, the angles where the iteration
      started from the geometric angles ends. Either elevation is then
      clamped to the source's sector. */
  ghost predicate AnglesChosen(direct: (real, real), geometricElevation: real, geometricAzimuth: real,
                               step: (real, real) -> AngleStep, elevationStart: real, elevationEnd: real,
                               steps: seq<AngleStep>, azimuth: real, elevation: real)
  {
    if Abs(geometricElevation - direct.1) <= IterationTrigger then
      azimuth == direct.0 &&
      elevation == SectorClamp(ChooseElevation(direct.1, geometricElevation, false), elevationStart, elevationEnd)
    else
      Iteration(step, geometricElevation, geometricAzimuth, Abs(geometricElevation - direct.1), steps) &&
      azimuth == steps[|steps| - 1].azimuth &&
      elevation == SectorClamp(ChooseElevation(steps[|steps| - 1].elevation, geometricElevation, true),
                               elevationStart, elevationEnd)
  }

  /** The same for this geometry and incident angle. */
  ghost predicate AnglesEstimated(m: Math, g: Geometry, incidentAngle: real, elevationStart: real, elevationEnd: real,
                                  steps: seq<AngleStep>, azimuth: real, elevation: real)
    requires Lawful(m)
  {
    AnglesChosen(DirectionAngles(m, IncidenceDirection(m, g.baseline, incidentAngle)), GeometricElevation(m, g),
                 GeometricAzimuth(m, g), StepOf(m, g), elevationStart, elevationEnd, steps, azimuth, elevation)
  }

  /** The angle part of runSimulation: the direction at the incident
      angle, the iteration when its elevation is more than 5 degrees from
      the geometric one, the geometric fallback, and the sector clamp. */
  method EstimateAngles(m: Math, g: Geometry, incidentAngle: real, elevationStart: real, elevationEnd: real)
    returns (azimuth: real, elevation: real, ghost steps: seq<AngleStep>)
    requires Lawful(m)
    ensures AnglesEstimated(m, g, incidentAngle, elevationStart, elevationEnd, steps, azimuth, elevation)
    ensures elevationStart <= elevationEnd ==> elevationStart <= elevation <= elevationEnd
  {
    var angles := DirectionAngles(m, IncidenceDirection(m, g.baseline, incidentAngle));
    var geometricElevation, geometricAzimuth := GeometricElevation(m, g), GeometricAzimuth(m, g);
    var step := StepOf(m, g);
    if Abs(geometricElevation - angles.1) > IterationTrigger {
      var refined;
      refined, azimuth, steps := RefineAngles(step, geometricElevation, geometricAzimuth,
                                              Abs(geometricElevation - angles.1));
      elevation := SectorClamp(ChooseElevation(refined, geometricElevation, true), elevationStart, elevationEnd);
    } else {
      azimuth, steps := angles.0, [];
      elevation := SectorClamp(ChooseElevation(angles.1, geometricElevation, false), elevationStart, elevationEnd);
    }
    assert AnglesChosen(angles, geometricElevation, geometricAzimuth, step, elevationStart, elevationEnd,
                        steps, azimuth, elevation);
  }

  /** The height part of runSimulation: the estimated distance, the three
      height estimates, the checked choice among them, and the largest of
      their errors as accuracy, which bounds the error of the stored height. */
  method EstimateHeight(m: Math, g: Geometry, azimuth: real, elevation: real, altitude: real)
    returns (h: Heights, bestHeight: real, accuracy: real, distance: real)
    requires Lawful(m)
    ensures distance == EstimatedDistance(g.distance1, g.distance2, Distance(m, g.mid, g.target))
    ensures h == HeightEstimates(m, g.mid, azimuth, elevation, GeometricElevation(m, g), distance)
    ensures bestHeight == CheckedHeight(SelectHeight(h.point.p3, h.tangent, h.geometric, altitude).height, altitude)
    ensures accuracy == Max(Abs(h.point.p3 - altitude), Max(Abs(h.tangent - altitude), Abs(h.geometric - altitude)))
    ensures bestHeight == altitude || Plausible(bestHeight, altitude)
    ensures Abs(bestHeight - altitude) <= accuracy
  {
    var geometricElevation := GeometricElevation(m, g);
    distance := EstimatedDistance(g.distance1, g.distance2, Distance(m, g.mid, g.target));
    h := HeightEstimates(m, g.mid, azimuth, elevation, geometricElevation, distance);
    var choice := SelectHeight(h.point.p3, h.tangent, h.geometric, altitude);
    bestHeight := CheckedHeight(choice.height, altitude);
    CheckedHeightIsPlausible(choice.height, altitude);
    var e1, e2, e3 := Abs(h.point.p3 - altitude), Abs(h.tangent - altitude), Abs(h.geometric - altitude);
    accuracy := Max(e1, Max(e2, e3));
  }

  /** The part of runSimulation after the geometry: the incident angle
      from the clamped sin(theta) = c dt / L, the direction and its angles,
      the iteration when the elevation is more than 5 degrees from the
      geometric one, the geometric fallback, the sector clamp, the
      estimated distance, the three heights and the checked choice among
      them, the largest of the three height errors as accuracy, and the
      SinglePlatformTask record. */
  method LocateFrom(m: Math, device: ReconnaissanceDeviceModel.Device,
                    source: RadiationSourceModel.Source, simulationTime: int, g: Geometry)
    returns (result: InterferometerPositioning.LocationResult, task: InterferometerPositioning.StoredTask,
             ghost steps: seq<AngleStep>)
    requires Lawful(m)
    ensures AnglesEstimated(m, g, IncidentAngle(m, g), source.elevationStart, source.elevationEnd, steps,
                            result.azimuth, result.elevation)
    ensures var h := HeightEstimates(m, g.mid, result.azimuth, result.elevation, GeometricElevation(m, g),
                                     EstimatedDistance(g.distance1, g.distance2, Distance(m, g.mid, g.target)));
            result.longitude == h.point.p1 && result.latitude == h.point.p2 &&
            result.altitude == CheckedHeight(SelectHeight(h.point.p3, h.tangent, h.geometric, source.altitude).height,
                                             source.altitude) &&
            result.accuracy == Max(Abs(h.point.p3 - source.altitude),
                                   Max(Abs(h.tangent - source.altitude), Abs(h.geometric - source.altitude)))
    ensures source.elevationStart <= source.elevationEnd ==>
              source.elevationStart <= result.elevation <= source.elevationEnd
    ensures result.altitude == source.altitude || Plausible(result.altitude, source.altitude)
    ensures result.accuracy >= 0.0 && Abs(result.altitude - source.altitude) <= result.accuracy
    ensures result.errorFactors == TdoaErrors(m, g.baselineLength,
                                              EstimatedDistance(g.distance1, g.distance2, Distance(m, g.mid, g.target)),
                                              IncidentAngle(m, g))
    ensures |result.errorFactors| == 5 && 0.15 <= result.errorFactors[3] <= 0.3
    ensures result.distance == 0.0 && result.validAngle && result.validSnr
    ensures task.techSystem == "TDOA" && task.deviceId == device.id && task.radiationId == source.id
    ensures task.executionTime == simulationTime as real && task.positioningTime == simulationTime as real
    ensures task.targetLongitude == result.longitude && task.targetLatitude == result.latitude &&
            task.targetAltitude == result.altitude
    ensures task.angleError == 0.0
    ensures task.positioningAccuracy == CapAccuracy(result.accuracy)
    ensures task.directionFindingAccuracy == 0.0
  {
    var geometry := g;
    var sinTheta := ClampUnit(m.div(C * geometry.timeDifference, geometry.baselineLength));
    var incidentAngle := m.asin(sinTheta);
    assert incidentAngle == IncidentAngle(m, g);
    var incidentDeg, sinThetaDeg := incidentAngle * Rad2Deg, m.asin(sinTheta) * Rad2Deg;
    assert incidentDeg == sinThetaDeg;
    var azimuth, elevation;
    azimuth, elevation, steps := EstimateAngles(m, geometry, incidentAngle, source.elevationStart, source.elevationEnd);
    var heights, bestHeight, accuracy, distance := EstimateHeight(m, geometry, azimuth, elevation, source.altitude);
    result := InterferometerPositioning.DefaultLocationResult.(
      longitude := heights.point.p1, latitude := heights.point.p2, altitude := bestHeight,
      azimuth := azimuth, elevation := elevation, accuracy := accuracy,
      errorFactors := TdoaErrors(m, geometry.baselineLength, distance, incidentAngle));
    DirectionAccuracyAlwaysZero(m, geometry.baselineLength, distance, incidentAngle);
    var t := simulationTime as real;
    task := InterferometerPositioning.StoredTask(
      "TDOA", device.id, source.id, t, result.longitude, result.latitude, result.altitude,
      Abs(incidentDeg - sinThetaDeg), t,
      CapAccuracy(result.accuracy), DirectionAccuracy(result.errorFactors));
  }

  /** runSimulation: the geometry of the two observations, then the
      angles, the height and the record computed from it. */
  method RunSimulation(m: Math, device: ReconnaissanceDeviceModel.Device,
                       source: RadiationSourceModel.Source, simulationTime: int)
    returns (result: InterferometerPositioning.LocationResult, task: InterferometerPositioning.StoredTask,
             ghost g: Geometry, ghost steps: seq<AngleStep>)
    requires Lawful(m)
    ensures g == ObservedGeometry(m, device, source, simulationTime)
    ensures g.start == m.lbh2xyz(Coord3(device.longitude, device.latitude, device.altitude))
    ensures g.target == m.lbh2xyz(Coord3(source.longitude, source.latitude, source.altitude))
    ensures AnglesEstimated(m, g, IncidentAngle(m, g), source.elevationStart, source.elevationEnd, steps,
                            result.azimuth, result.elevation)
    ensures var h := HeightEstimates(m, g.mid, result.azimuth, result.elevation, GeometricElevation(m, g),
                                     EstimatedDistance(g.distance1, g.distance2, Distance(m, g.mid, g.target)));
            result.longitude == h.point.p1 && result.latitude == h.point.p2 &&
            result.altitude == CheckedHeight(SelectHeight(h.point.p3, h.tangent, h.geometric, source.altitude).height,
                                             source.altitude) &&
            result.accuracy == Max(Abs(h.point.p3 - source.altitude),
                                   Max(Abs(h.tangent - source.altitude), Abs(h.geometric - source.altitude)))
    ensures source.elevationStart <= source.elevationEnd ==>
              source.elevationStart <= result.elevation <= source.elevationEnd
    ensures result.altitude == source.altitude || Plausible(result.altitude, source.altitude)
    ensures result.accuracy >= 0.0 && Abs(result.altitude - source.altitude) <= result.accuracy
    ensures result.errorFactors == TdoaErrors(m, g.baselineLength,
                                              EstimatedDistance(g.distance1, g.distance2, Distance(m, g.mid, g.target)),
                                              IncidentAngle(m, g))
    ensures |result.errorFactors| == 5 && 0.15 <= result.errorFactors[3] <= 0.3
    ensures result.distance == 0.0 && result.validAngle && result.validSnr
    ensures task.techSystem == "TDOA" && task.deviceId == device.id && task.radiationId == source.id
    ensures task.executionTime == simulationTime as real && task.positioningTime == simulationTime as real
    ensures task.targetLongitude == result.longitude && task.targetLatitude == result.latitude &&
            task.targetAltitude == result.altitude
    ensures task.angleError == 0.0
    ensures task.positioningAccuracy == CapAccuracy(result.accuracy)
    ensures task.directionFindingAccuracy == 0.0
  {
    var geometry := ObservedGeometry(m, device, source, simulationTime);
    g := geometry;
    result, task, steps := LocateFrom(m, device, source, simulationTime, geometry);
  }
}
