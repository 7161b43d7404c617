/** models/src/FDOAalgorithm.cpp: frequency-difference-of-arrival location.
    The source computes the longest observation interval from a quadratic
    range equation per device and then stores a fixed placeholder fix; the
    quadratic solver, the root selection and the control flow of the
    algorithm object are modelled. */
module FdoaAlgorithm {
  import opened Common
  import Vector3
  import ReconnaissanceDeviceModel
  import RadiationSourceModel
  import SnrValidator

  // ---------------------------------------------------------------------
  // solveQuadratic

  /** The real roots of a*t^2 + b*t + c = 0 as solveQuadratic lists them:
      a linear equation has one root (none when b is also 0); otherwise none,
      one or two by the sign of the discriminant, the '+' root first. */
  function SolveQuadratic(m: Math, a: real, b: real, c: real): (roots: seq<real>)
    ensures a == 0.0 ==> roots == (if b != 0.0 then [-c / b] else [])
    ensures a != 0.0 && b * b - 4.0 * a * c < 0.0 ==> roots == []
    ensures a != 0.0 && b * b - 4.0 * a * c == 0.0 ==> roots == [-b / (2.0 * a)]
    ensures a != 0.0 && b * b - 4.0 * a * c > 0.0 ==> |roots| == 2 && roots[0] == (-b + m.sqrt(b * b - 4.0 * a * c)) / (2.0 * a)
  {
    if a == 0.0 then
      (if b != 0.0 then [-c / b] else [])
    else
      var discriminant := b * b - 4.0 * a * c;
      if discriminant < 0.0 then []
      else if discriminant == 0.0 then [-b / (2.0 * a)]
      else
        var sqrtDiscriminant := m.sqrt(discriminant);
        [(-b + sqrtDiscriminant) / (2.0 * a), (-b - sqrtDiscriminant) / (2.0 * a)]
  }

  predicate IsRoot(a: real, b: real, c: real, t: real)
  {
    a * t * t + b * t + c == 0.0
  }

  lemma ProductZero(x: real, y: real)
    requires x * y == 0.0 && y != 0.0
    ensures x == 0.0
  {
  }

  /** A value with 2*a*t = -b + s, where s*s is the discriminant, is a root. */
  lemma RootFromHalfVertex(a: real, b: real, c: real, s: real, t: real)
    requires a != 0.0 && s * s == b * b - 4.0 * a * c && 2.0 * a * t == -b + s
    ensures IsRoot(a, b, c, t)
  {
    var u := 2.0 * a * t;
    assert 4.0 * a * (a * t * t + b * t + c) == u * u + 2.0 * b * u + 4.0 * a * c;
    assert u * u + 2.0 * b * u + 4.0 * a * c == s * s - b * b + 4.0 * a * c;
    ProductZero(a * t * t + b * t + c, 4.0 * a);
  }

  /** Every listed value solves the equation. */
  lemma {:induction false} SolveQuadraticSound(m: Math, a: real, b: real, c: real)
    requires Lawful(m)
    ensures forall t :: t in SolveQuadratic(m, a, b, c) ==> IsRoot(a, b, c, t)
  {
    var d := b * b - 4.0 * a * c;
    if a == 0.0 {
      if b != 0.0 {
        assert b * (-c / b) == -c;
      }
    } else if d == 0.0 {
      RootFromHalfVertex(a, b, c, 0.0, -b / (2.0 * a));
    } else if d > 0.0 {
      var s := m.sqrt(d);
      RootFromHalfVertex(a, b, c, s, (-b + s) / (2.0 * a));
      RootFromHalfVertex(a, b, c, -s, (-b - s) / (2.0 * a));
    }
  }

  /** (2*a*t + b)^2 is the discriminant at any root t. */
  lemma RootSquare(a: real, b: real, c: real, t: real)
    requires IsRoot(a, b, c, t)
    ensures (2.0 * a * t + b) * (2.0 * a * t + b) == b * b - 4.0 * a * c
  {
    assert (2.0 * a * t + b) * (2.0 * a * t + b) == 4.0 * a * (a * t * t + b * t + c) + b * b - 4.0 * a * c;
  }

  /** A root of a quadratic with a zero discriminant is the vertex. */
  lemma DoubleRoot(a: real, b: real, c: real, t: real)
    requires a != 0.0 && IsRoot(a, b, c, t) && b * b - 4.0 * a * c == 0.0
    ensures t == -b / (2.0 * a)
  {
    var u := 2.0 * a * t + b;
    RootSquare(a, b, c, t);
    if u > 0.0 {
      SquareStrict(0.0, u);
    } else if u < 0.0 {
      SquareStrict(0.0, -u);
    }
    HalfVertex(a, t, -b);
  }

  /** A root of a quadratic with a positive discriminant is one of the two
      values (-b +- sqrt(d)) / 2a. */
  lemma SimpleRoot(m: Math, a: real, b: real, c: real, t: real)
    requires Lawful(m) && a != 0.0 && IsRoot(a, b, c, t) && b * b - 4.0 * a * c > 0.0
    ensures var s := m.sqrt(b * b - 4.0 * a * c);
            t == (-b + s) / (2.0 * a) || t == (-b - s) / (2.0 * a)
  {
    RootSquare(a, b, c, t);
    RootFromSquare(m, a, b, t, b * b - 4.0 * a * c);
  }

  lemma RootFromSquare(m: Math, a: real, b: real, t: real, d: real)
    requires Lawful(m) && a != 0.0 && (2.0 * a * t + b) * (2.0 * a * t + b) == d
    ensures t == (-b + m.sqrt(d)) / (2.0 * a) || t == (-b - m.sqrt(d)) / (2.0 * a)
  {
    var u := 2.0 * a * t + b;
    SqrtOfSquare(m, u);
    assert u * u == d;
    assert m.sqrt(d) == Abs(u);
    if u >= 0.0 {
      HalfVertex(a, t, -b + m.sqrt(d));
    } else {
      HalfVertex(a, t, -b - m.sqrt(d));
    }
  }

  lemma HalfVertex(a: real, t: real, v: real)
    requires a != 0.0 && 2.0 * a * t + (-v) == 0.0
    ensures t == v / (2.0 * a)
  {
  }

  /** Conversely every root is listed, unless a and b are both 0, where the
      solver lists nothing although with c = 0 every t solves it. */
  lemma {:induction false} SolveQuadraticComplete(m: Math, a: real, b: real, c: real, t: real)
    requires Lawful(m) && IsRoot(a, b, c, t)
    ensures a != 0.0 || b != 0.0 ==> t in SolveQuadratic(m, a, b, c)
    ensures a == 0.0 && b == 0.0 ==> SolveQuadratic(m, a, b, c) == [] && c == 0.0
  {
    var roots := SolveQuadratic(m, a, b, c);
    var d := b * b - 4.0 * a * c;
    if a == 0.0 {
      if b != 0.0 {
        assert b * t == -c;
        assert t == -c / b;
        assert roots == [t];
      }
    } else {
      RootSquare(a, b, c, t);
      SquareNonNegative(2.0 * a * t + b);
      if d == 0.0 {
        DoubleRoot(a, b, c, t);
        assert roots == [t];
      } else {
        SimpleRoot(m, a, b, c, t);
        assert t == roots[0] || t == roots[1];
      }
    }
  }

  // ---------------------------------------------------------------------
  // Root selection

  /** The selection loop over the roots: keep a strictly positive root when
      nothing is kept yet (0) or it is smaller than the kept one. */
  function SmallestPositive(xs: seq<real>): real
  {
    if |xs| == 0 then 0.0
    else
      var kept := SmallestPositive(xs[..|xs| - 1]);
      var x := xs[|xs| - 1];
      if x > 0.0 && (kept == 0.0 || x < kept) then x else kept
  }

  predicate HasPositive(xs: seq<real>)
  {
    exists i :: 0 <= i < |xs| && xs[i] > 0.0
  }

  /** The selection yields 0 exactly when no value is positive, and otherwise
      the least positive value. */
  lemma {:induction false} SmallestPositiveMeaning(xs: seq<real>)
    ensures SmallestPositive(xs) == 0.0 <==> !HasPositive(xs)
    ensures SmallestPositive(xs) != 0.0 ==>
              SmallestPositive(xs) > 0.0 && SmallestPositive(xs) in xs &&
              forall i :: 0 <= i < |xs| && xs[i] > 0.0 ==> SmallestPositive(xs) <= xs[i]
  {
    if |xs| > 0 {
      var p := xs[..|xs| - 1];
      SmallestPositiveMeaning(p);
      assert forall i :: 0 <= i < |p| ==> p[i] == xs[i];
      if HasPositive(p) {
        var i :| 0 <= i < |p| && p[i] > 0.0;
        assert xs[i] > 0.0;
      }
      if HasPositive(xs) && xs[|xs| - 1] <= 0.0 {
        var i :| 0 <= i < |xs| && xs[i] > 0.0;
        assert p[i] > 0.0;
      }
    }
  }

  /** The DBL_MAX sentinel of "no time yet" as None, any other time as Some. */
  function Sentinel(x: real): Option<real>
  {
    if x == 0.0 then None else Some(x)
  }

  lemma SmallestPositiveNonNegative(xs: seq<real>)
    ensures SmallestPositive(xs) >= 0.0
  {
    SmallestPositiveMeaning(xs);
  }

  /** One more step of the selection loop. */
  lemma SmallestPositiveStep(xs: seq<real>, i: int)
    requires 0 <= i < |xs|
    ensures var kept := SmallestPositive(xs[..i]);
            SmallestPositive(xs[..i + 1]) == if xs[i] > 0.0 && (kept == 0.0 || xs[i] < kept) then xs[i] else kept
  {
    assert xs[..i + 1][..i] == xs[..i];
  }

  // ---------------------------------------------------------------------
  // calculateMaximumTimeInterval

  /** The per-device range equation |p + v*t|^2 = R^2 in t, with p the
      source's position relative to the device, v the relative velocity and
      R the maximum detection range for the common bandwidth. */
  datatype RangeEquation = RangeEquation(a: real, b: real, c: real)

  function ToVector(p: Coord3): Vector3.Vector3
  {
    Vector3.Vector3(p.p1, p.p2, p.p3)
  }

  function RangeEquationOf(m: Math, maxRange: (real, real, real, real) -> real,
                           s: RadiationSourceModel.Source, d: ReconnaissanceDeviceModel.Device,
                           commonBandwidth: real): RangeEquation
  {
    var deviceVelocity := m.velocity(d.longitude, d.latitude, d.movementSpeed, d.movementAzimuth, d.movementElevation);
    var sourceVelocity := m.velocity(s.longitude, s.latitude, s.movementSpeed, s.movementAzimuth, s.movementElevation);
    var relativeVelocity := Vector3.Sub(ToVector(sourceVelocity), ToVector(deviceVelocity));
    var sourceXyz := m.lbh2xyz(Coord3(s.longitude, s.latitude, s.altitude));
    var deviceXyz := m.lbh2xyz(Coord3(d.longitude, d.latitude, d.altitude));
    var relativePosition := Vector3.Sub(ToVector(sourceXyz), ToVector(deviceXyz));
    var threshold := maxRange(s.transmitPower, s.carrierFrequency, d.noisePsd, commonBandwidth);
    RangeEquation(Vector3.MagnitudeSquared(relativeVelocity),
                  2.0 * Vector3.Dot(relativePosition, relativeVelocity),
                  Vector3.MagnitudeSquared(relativePosition) - threshold * threshold)
  }

  /** maxTime of one device: its first strictly positive range crossing. */
  function DeviceMaxTime(m: Math, e: RangeEquation): real
  {
    SmallestPositive(SolveQuadratic(m, e.a, e.b, e.c))
  }

  /** A device's maxTime is 0 when the range equation has no positive
      solution; otherwise it is the earliest positive solution. */
  lemma DeviceMaxTimeMeaning(m: Math, e: RangeEquation)
    requires Lawful(m) && (e.a != 0.0 || e.b != 0.0)
    ensures DeviceMaxTime(m, e) == 0.0 <==> forall t :: t > 0.0 ==> !IsRoot(e.a, e.b, e.c, t)
    ensures DeviceMaxTime(m, e) != 0.0 ==>
              DeviceMaxTime(m, e) > 0.0 && IsRoot(e.a, e.b, e.c, DeviceMaxTime(m, e)) &&
              forall t :: t > 0.0 && IsRoot(e.a, e.b, e.c, t) ==> DeviceMaxTime(m, e) <= t
  {
    var roots := SolveQuadratic(m, e.a, e.b, e.c);
    SmallestPositiveMeaning(roots);
    SolveQuadraticSound(m, e.a, e.b, e.c);
    forall t | t > 0.0 && IsRoot(e.a, e.b, e.c, t)
      ensures HasPositive(roots) && DeviceMaxTime(m, e) <= t
    {
      SolveQuadraticComplete(m, e.a, e.b, e.c, t);
      var i :| 0 <= i < |roots| && roots[i] == t;
    }
    if HasPositive(roots) {
      var i :| 0 <= i < |roots| && roots[i] > 0.0;
      assert IsRoot(e.a, e.b, e.c, roots[i]);
    }
  }

  /** The common bandwidth of a non-empty device list: least maximum minus
      greatest minimum. Nothing checks that the ranges overlap, so it can be
      negative. */
  function CommonBandwidth(ds: seq<ReconnaissanceDeviceModel.Device>): real
  {
    SnrValidator.Bandwidth(SnrValidator.BandOf(ds))
  }

  lemma {:induction false} NegativeBandwidthPossible()
    ensures exists ds: seq<ReconnaissanceDeviceModel.Device> :: |ds| == 2 && CommonBandwidth(ds) < 0.0
  {
    var d0 := ReconnaissanceDeviceModel.DefaultDevice.(freqMin := 1.0, freqMax := 2.0);
    var d1 := ReconnaissanceDeviceModel.DefaultDevice.(freqMin := 3.0, freqMax := 4.0);
    var ds := [d0, d1];
    assert ds[..1] == [d0] && [d0][..0] == [];
    assert SnrValidator.BandOf([d0]) == SnrValidator.Band(Some(1.0), Some(2.0));
    assert SnrValidator.BandOf(ds) == SnrValidator.Band(Some(3.0), Some(2.0));
    assert CommonBandwidth(ds) == 2.0 - 3.0;
  }

  /** The root-selection loop of one device. */
  method SelectMaxTime(roots: seq<real>) returns (maxTime: real)
    ensures maxTime == SmallestPositive(roots)
  {
    maxTime := 0.0;
    var k := 0;
    while k < |roots|
      invariant 0 <= k <= |roots|
      invariant maxTime == SmallestPositive(roots[..k])
    {
      assert roots[..k + 1][..k] == roots[..k];
      if roots[k] > 0.0 && (maxTime == 0.0 || roots[k] < maxTime) {
        maxTime := roots[k];
      }
      k := k + 1;
    }
    assert roots[..k] == roots;
  }

  /** Each device's maxTime for the given common bandwidth. */
  function DeviceTimes(m: Math, maxRange: (real, real, real, real) -> real,
                       s: RadiationSourceModel.Source, ds: seq<ReconnaissanceDeviceModel.Device>,
                       bandwidth: real): (times: seq<real>)
    ensures |times| == |ds|
    ensures forall i :: 0 <= i < |ds| ==> times[i] == DeviceMaxTime(m, RangeEquationOf(m, maxRange, s, ds[i], bandwidth))
  {
    seq(|ds|, i requires 0 <= i < |ds| => DeviceMaxTime(m, RangeEquationOf(m, maxRange, s, ds[i], bandwidth)))
  }

  /** What calculateMaximumTimeInterval returns: the least positive per-device
      maxTime, or 0 when no device has one. */
  function MaximumTimeIntervalOf(m: Math, maxRange: (real, real, real, real) -> real,
                                 s: RadiationSourceModel.Source, ds: seq<ReconnaissanceDeviceModel.Device>): real
  {
    SmallestPositive(DeviceTimes(m, maxRange, s, ds, CommonBandwidth(ds)))
  }

  /** The first loop of calculateMaximumTimeInterval: the frequency band
      common to the looked-up devices. */
  method CommonBand(allDevices: seq<ReconnaissanceDeviceModel.Device>, deviceIds: seq<int>)
    returns (band: SnrValidator.Band)
    ensures band == SnrValidator.BandOf(ReconnaissanceDeviceModel.LookUpAll(allDevices, deviceIds))
  {
    ghost var ds := ReconnaissanceDeviceModel.LookUpAll(allDevices, deviceIds);
    band := SnrValidator.Unbounded;
    var i := 0;
    while i < |deviceIds|
      invariant 0 <= i <= |deviceIds|
      invariant band == SnrValidator.BandOf(ds[..i])
    {
      var device := ReconnaissanceDeviceModel.FindById(allDevices, deviceIds[i]);
      assert ds[..i + 1][..i] == ds[..i];
      band := SnrValidator.Narrow(band, device);
      i := i + 1;
    }
    assert ds[..i] == ds;
  }

  /** The second loop: the least positive maxTime over the devices, with
      the DBL_MAX sentinel for "no time yet" written as None. */
  method LeastMaxTime(m: Math, maxRange: (real, real, real, real) -> real, source: RadiationSourceModel.Source,
                      allDevices: seq<ReconnaissanceDeviceModel.Device>, deviceIds: seq<int>, bandwidth: real)
    returns (minMaxTime: Option<real>)
    ensures minMaxTime == Sentinel(SmallestPositive(DeviceTimes(m, maxRange, source,
                                     ReconnaissanceDeviceModel.LookUpAll(allDevices, deviceIds), bandwidth)))
  {
    ghost var ds := ReconnaissanceDeviceModel.LookUpAll(allDevices, deviceIds);
    ghost var times := DeviceTimes(m, maxRange, source, ds, bandwidth);
    minMaxTime := None;
    var i := 0;
    while i < |deviceIds|
      invariant 0 <= i <= |deviceIds|
      invariant minMaxTime == Sentinel(SmallestPositive(times[..i]))
    {
      var device := ReconnaissanceDeviceModel.FindById(allDevices, deviceIds[i]);
      var e := RangeEquationOf(m, maxRange, source, device, bandwidth);
      var maxTime := SelectMaxTime(SolveQuadratic(m, e.a, e.b, e.c));
      assert device == ds[i];
      assert maxTime == times[i];
      SmallestPositiveStep(times, i);
      SmallestPositiveNonNegative(times[..i]);
      if maxTime > 0.0 && (minMaxTime.None? || maxTime < minMaxTime.value) {
        minMaxTime := Some(maxTime);
      }
      i := i + 1;
    }
    assert times[..i] == times;
  }

  /** calculateMaximumTimeInterval. */
  method MaximumTimeInterval(m: Math, maxRange: (real, real, real, real) -> real,
                             allSources: seq<RadiationSourceModel.Source>,
                             allDevices: seq<ReconnaissanceDeviceModel.Device>,
                             deviceIds: seq<int>, sourceId: int) returns (t: real)
    ensures t == MaximumTimeIntervalOf(m, maxRange, RadiationSourceModel.FindById(allSources, sourceId),
                                       ReconnaissanceDeviceModel.LookUpAll(allDevices, deviceIds))
  {
    var source := RadiationSourceModel.FindById(allSources, sourceId);
    var band := CommonBand(allDevices, deviceIds);
    var commonBandwidth := SnrValidator.Bandwidth(band);
    var minMaxTime := LeastMaxTime(m, maxRange, source, allDevices, deviceIds, commonBandwidth);
    t := if minMaxTime.None? then 0.0 else minMaxTime.value;
  }

  // ---------------------------------------------------------------------
  // The algorithm object

  /** The fixed result calculate stores in place of a location. */
  const PlaceholderFix: PositionFix := PositionFix(116.3, 39.9, 100.0, 45.0, 30.0, 100.0, 10.0, 5000.0, 50.0)

  class FdoaAlgorithm {
    var deviceNames: seq<string>
    var sourceName: string
    var systemType: string
    var simulationTime: real
    var devices: seq<ReconnaissanceDeviceModel.Device>
    var source: RadiationSourceModel.Source
    var result: PositionFix

    constructor ()
      ensures devices == [] && deviceNames == [] && result == ZeroFix
    {
      deviceNames, sourceName, systemType := [], "", "";
      simulationTime := 0.0;
      devices := [];
      source := RadiationSourceModel.DefaultSource;
      result := ZeroFix;
    }

    /** init: store the parameters, clear the devices, zero every result field. */
    method Init(deviceNames': seq<string>, sourceName': string, systemType': string, simulationTime': real)
      modifies this
      ensures deviceNames == deviceNames' && sourceName == sourceName' && systemType == systemType'
      ensures simulationTime == simulationTime' && devices == [] && result == ZeroFix
      ensures source == old(source)
    {
      deviceNames, sourceName, systemType := deviceNames', sourceName', systemType';
      simulationTime := simulationTime';
      devices := [];
      result := ZeroFix;
    }

    /** loadDeviceInfo: append the first row of each name, in name order,
        failing at the first unknown name; there is no emptiness or count
        check, and the list is not cleared. */
    method LoadDeviceInfo(allDevices: seq<ReconnaissanceDeviceModel.Device>) returns (ok: bool)
      modifies this`devices
      ensures devices == old(devices) + ReconnaissanceDeviceModel.MatchNames(allDevices, deviceNames).0
      ensures ok == ReconnaissanceDeviceModel.MatchNames(allDevices, deviceNames).1
    {
      var i := 0;
      while i < |deviceNames|
        invariant 0 <= i <= |deviceNames|
        invariant ReconnaissanceDeviceModel.MatchNames(allDevices, deviceNames[..i]).1
        invariant devices == old(devices) + ReconnaissanceDeviceModel.MatchNames(allDevices, deviceNames[..i]).0
      {
        assert deviceNames[..i + 1][..i] == deviceNames[..i];
        var found := ReconnaissanceDeviceModel.FindByName(allDevices, deviceNames[i]);
        if found.None? {
          ReconnaissanceDeviceModel.MatchNamesStops(allDevices, deviceNames, i);
          return false;
        }
        devices := devices + [found.value];
        i := i + 1;
      }
      assert deviceNames[..i] == deviceNames;
      return true;
    }

    /** loadSourceInfo: the first source of that name. */
    method LoadSourceInfo(allSources: seq<RadiationSourceModel.Source>) returns (ok: bool)
      modifies this`source
      ensures ok <==> RadiationSourceModel.FindByName(allSources, sourceName).Some?
      ensures ok ==> source == RadiationSourceModel.FindByName(allSources, sourceName).value
      ensures !ok ==> source == old(source)
    {
      var found := RadiationSourceModel.FindByName(allSources, sourceName);
      if found.None? {
        return false;
      }
      source := found.value;
      return true;
    }

    /** calculate: fail when a load fails; otherwise compute the maximum
        interval over the first three devices and store the placeholder fix.
        The source indexes the first three devices unchecked, so a successful
        load must leave at least three. */
    method Calculate(m: Math, maxRange: (real, real, real, real) -> real,
                     allDevices: seq<ReconnaissanceDeviceModel.Device>,
                     allSources: seq<RadiationSourceModel.Source>) returns (ok: bool, ghost maxInterval: real)
      requires ReconnaissanceDeviceModel.MatchNames(allDevices, deviceNames).1 &&
               RadiationSourceModel.FindByName(allSources, sourceName).Some? ==>
               |devices| + |deviceNames| >= 3
      modifies this`devices, this`source, this`result
      ensures ok <==> ReconnaissanceDeviceModel.MatchNames(allDevices, deviceNames).1 &&
                      RadiationSourceModel.FindByName(allSources, sourceName).Some?
      ensures !ok ==> result == old(result)
      ensures devices == old(devices) + ReconnaissanceDeviceModel.MatchNames(allDevices, deviceNames).0
      ensures ok ==> source == RadiationSourceModel.FindByName(allSources, sourceName).value
      ensures !ok ==> source == old(source)
      ensures ok ==> result == PlaceholderFix && |devices| >= 3 &&
                     maxInterval == MaximumTimeIntervalOf(m, maxRange,
                       RadiationSourceModel.FindById(allSources, source.id),
                       ReconnaissanceDeviceModel.LookUpAll(allDevices, [devices[0].id, devices[1].id, devices[2].id]))
    {
      maxInterval := 0.0;
      var devicesOk := LoadDeviceInfo(allDevices);
      if !devicesOk {
        return false, maxInterval;
      }
      ReconnaissanceDeviceModel.MatchNamesRows(allDevices, deviceNames);
      var sourceOk := LoadSourceInfo(allSources);
      if !sourceOk {
        return false, maxInterval;
      }
      var deviceIds := [devices[0].id, devices[1].id, devices[2].id];
      maxInterval := MaximumTimeInterval(m, maxRange, allSources, allDevices, deviceIds, source.id);
      result := PlaceholderFix;
      return true, maxInterval;
    }
  }
}
