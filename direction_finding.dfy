/** models/src/DirectionFinding.cpp: two-station direction finding in the
    horizontal plane. Each station measures a bearing to the target with a
    random error; the two bearing lines are intersected. The random error is
    an input of the model. */
module DirectionFinding {
  import opened Common
  import opened Vector3
  import ReconnaissanceDeviceModel
  import RadiationSourceModel

  /** Bearing lines whose 2-D cross product is below this are parallel. */
  const ParallelTolerance: real := 0.0000000001

  /** The planar cross product d1.x*d2.y - d1.y*d2.x. */
  function Cross2D(a: Vector3, b: Vector3): real
  {
    a.x * b.y - a.y * b.x
  }

  /** intersectDirections2D: nearly parallel lines give the midpoint of the
      observers; otherwise the point obs1 + t*dir1 where the two lines
      meet. The height is always that of obs1. */
  function IntersectDirections2D(obs1: Vector3, dir1: Vector3, obs2: Vector3, dir2: Vector3): (r: Vector3)
    ensures r.z == obs1.z
    ensures Abs(Cross2D(dir1, dir2)) < ParallelTolerance ==>
              r.x == (obs1.x + obs2.x) / 2.0 && r.y == (obs1.y + obs2.y) / 2.0
  {
    var p1p2 := Sub(obs2, obs1);
    var denominator := Cross2D(dir1, dir2);
    if Abs(denominator) < ParallelTolerance then
      Vector3((obs1.x + obs2.x) / 2.0, (obs1.y + obs2.y) / 2.0, obs1.z)
    else
      var t := Cross2D(p1p2, dir2) / denominator;
      Vector3(obs1.x + dir1.x * t, obs1.y + dir1.y * t, obs1.z)
  }

  /** For lines that are not parallel the intersection lies on both: its
      offsets from obs1 and from obs2 are parallel to dir1 and dir2 (zero
      planar cross products). */
  lemma {:induction false} IntersectionOnBothLines(obs1: Vector3, dir1: Vector3, obs2: Vector3, dir2: Vector3)
    requires Abs(Cross2D(dir1, dir2)) >= ParallelTolerance
    ensures var r := IntersectDirections2D(obs1, dir1, obs2, dir2);
            Cross2D(Sub(r, obs1), dir1) == 0.0 && Cross2D(Sub(r, obs2), dir2) == 0.0
  {
    var r := IntersectDirections2D(obs1, dir1, obs2, dir2);
    var den := Cross2D(dir1, dir2);
    var p := Sub(obs2, obs1);
    var t := Cross2D(p, dir2) / den;
    assert r.x == obs1.x + dir1.x * t && r.y == obs1.y + dir1.y * t;
    assert Cross2D(Sub(r, obs1), dir1) == t * Cross2D(dir1, dir1);
    assert t * den == Cross2D(p, dir2);
    assert Cross2D(Sub(r, obs2), dir2) == t * den - Cross2D(p, dir2);
  }

  /** calculateDirectionWithError: the unit bearing from observer to target,
      turned by the drawn angular error (degrees). `atan2Deg` times DEG2RAD
      is the radian atan2 of the source. */
  function DirectionWithError(m: Math, observer: Vector3, target: Vector3, drawnErrorDeg: real): (r: Vector3)
    ensures r.z == 0.0
  {
    var trueAzimuth := m.atan2Deg(target.y - observer.y, target.x - observer.x) * Deg2Rad;
    var measuredAzimuth := trueAzimuth + drawnErrorDeg * Deg2Rad;
    Vector3(m.cos(measuredAzimuth), m.sin(measuredAzimuth), 0.0)
  }

  function ToVector(p: Coord3): Vector3
  {
    Vector3(p.p1, p.p2, p.p3)
  }

  /** The horizontal distance between two points, the reported error. */
  function HorizontalDistance(m: Math, a: Vector3, b: Vector3): real
  {
    m.sqrt((a.x - b.x) * (a.x - b.x) + (a.y - b.y) * (a.y - b.y))
  }

  lemma HorizontalDistanceNonNegative(m: Math, a: Vector3, b: Vector3)
    requires Lawful(m)
    ensures HorizontalDistance(m, a, b) >= 0.0
  {
    SquareNonNegative(a.x - b.x);
    SquareNonNegative(a.y - b.y);
  }

  /** The two-station fix: both stations and the source in ECEF, the
      second station and the source brought to the first station's height,
      each station's bearing to the source turned by its error, the two
      bearing lines intersected in the plane, and the horizontal distance
      from the estimate to the source. */
  function TwoStationFix(m: Math, dev1: ReconnaissanceDeviceModel.Device, dev2: ReconnaissanceDeviceModel.Device,
                         source: RadiationSourceModel.Source, error1: real, error2: real): (r: DfResult)
    requires Lawful(m)
    ensures r.error >= 0.0
  {
    var esm1 := ToVector(m.lbh2xyz(Coord3(dev1.longitude, dev1.latitude, dev1.altitude)));
    var esm2 := ToVector(m.lbh2xyz(Coord3(dev2.longitude, dev2.latitude, dev2.altitude))).(z := esm1.z);
    var target := ToVector(m.lbh2xyz(Coord3(source.longitude, source.latitude, source.altitude))).(z := esm1.z);
    var estimate := IntersectDirections2D(esm1, DirectionWithError(m, esm1, target, error1),
                                          esm2, DirectionWithError(m, esm2, target, error2));
    HorizontalDistanceNonNegative(m, estimate, target);
    DfResult(m.xyz2lbh(Coord3(estimate.x, estimate.y, estimate.z)), HorizontalDistance(m, estimate, target))
  }

  /** The computation of calculate, step by step. */
  method Locate(m: Math, dev1: ReconnaissanceDeviceModel.Device, dev2: ReconnaissanceDeviceModel.Device,
                source: RadiationSourceModel.Source, error1: real, error2: real) returns (r: DfResult)
    requires Lawful(m)
    ensures r == TwoStationFix(m, dev1, dev2, source, error1, error2)
  {
    var esm1 := ToVector(m.lbh2xyz(Coord3(dev1.longitude, dev1.latitude, dev1.altitude)));
    var esm2 := ToVector(m.lbh2xyz(Coord3(dev2.longitude, dev2.latitude, dev2.altitude)));
    var target := ToVector(m.lbh2xyz(Coord3(source.longitude, source.latitude, source.altitude)));
    var commonHeight := esm1.z;
    esm2 := esm2.(z := commonHeight);
    target := target.(z := commonHeight);
    var dir1 := DirectionWithError(m, esm1, target, error1);
    var dir2 := DirectionWithError(m, esm2, target, error2);
    var estimatedPosition := IntersectDirections2D(esm1, dir1, esm2, dir2);
    var error := HorizontalDistance(m, estimatedPosition, target);
    r := DfResult(m.xyz2lbh(Coord3(estimatedPosition.x, estimatedPosition.y, estimatedPosition.z)), error);
  }

  /** DirectionFinding::Result. */
  datatype DfResult = DfResult(position: Coord3, error: real)

  const EmptyResult: DfResult := DfResult(Coord3(0.0, 0.0, 0.0), 0.0)

  class DirectionFinding {
    var deviceNames: seq<string>
    var sourceName: string
    var simulationTime: real
    var devices: seq<ReconnaissanceDeviceModel.Device>
    var source: RadiationSourceModel.Source
    var result: DfResult
    var isInitialized: bool

    constructor ()
      ensures !isInitialized && simulationTime == 0.0 && devices == []
    {
      deviceNames, sourceName := [], "";
      simulationTime := 0.0;
      devices := [];
      source := RadiationSourceModel.DefaultSource;
      result := EmptyResult;
      isInitialized := false;
    }

    /** init: store the parameters, clear the devices and the result, and
        mark the object uninitialised. */
    method Init(deviceNames': seq<string>, sourceName': string, simulationTime': real)
      modifies this
      ensures deviceNames == deviceNames' && sourceName == sourceName' && simulationTime == simulationTime'
      ensures devices == [] && !isInitialized && result == EmptyResult && source == old(source)
    {
      deviceNames, sourceName, simulationTime := deviceNames', sourceName', simulationTime';
      devices := [];
      isInitialized := false;
      result := EmptyResult;
    }

    /** loadDeviceInfo: clear, then the first row of each name in name order,
        failing at the first unknown name; at least two devices are needed. */
    method LoadDeviceInfo(allDevices: seq<ReconnaissanceDeviceModel.Device>) returns (ok: bool)
      modifies this`devices
      ensures devices == ReconnaissanceDeviceModel.MatchNames(allDevices, deviceNames).0
      ensures ok <==> ReconnaissanceDeviceModel.MatchNames(allDevices, deviceNames).1 && |devices| >= 2
    {
      devices := [];
      var i := 0;
      while i < |deviceNames|
        invariant 0 <= i <= |deviceNames|
        invariant ReconnaissanceDeviceModel.MatchNames(allDevices, deviceNames[..i]).1
        invariant devices == ReconnaissanceDeviceModel.MatchNames(allDevices, deviceNames[..i]).0
      {
        assert deviceNames[..i + 1][..i] == deviceNames[..i];
        var found := ReconnaissanceDeviceModel.FindByName(allDevices, deviceNames[i]);
        if found.None? {
          ReconnaissanceDeviceModel.MatchNamesStops(allDevices, deviceNames, i);
          return false;
        }
        devices := devices + [found.value];
        i := i + 1;
      }
      assert deviceNames[..i] == deviceNames;
      ok := |devices| >= 2;
    }

    /** loadSourceInfo: the first source of that name. */
    method LoadSourceInfo(allSources: seq<RadiationSourceModel.Source>) returns (ok: bool)
      modifies this`source
      ensures ok <==> RadiationSourceModel.FindByName(allSources, sourceName).Some?
      ensures ok ==> source == RadiationSourceModel.FindByName(allSources, sourceName).value
      ensures !ok ==> source == old(source)
    {
      var found := RadiationSourceModel.FindByName(allSources, sourceName);
      if found.None? {
        return false;
      }
      source := found.value;
      return true;
    }

    /** getDeviceIds: the ids of the loaded devices, in list order. */
    method GetDeviceIds() returns (ids: seq<int>)
      ensures |ids| == |devices|
      ensures forall i :: 0 <= i < |devices| ==> ids[i] == devices[i].id
    {
      ids := [];
      var i := 0;
      while i < |devices|
        invariant 0 <= i <= |devices| && |ids| == i
        invariant forall k :: 0 <= k < i ==> ids[k] == devices[k].id
      {
        ids := ids + [devices[i].id];
        i := i + 1;
      }
    }

    /** The two loads at the start of calculate: the source is looked up
        only when the devices loaded. */
    method LoadInputs(allDevices: seq<ReconnaissanceDeviceModel.Device>,
                      allSources: seq<RadiationSourceModel.Source>) returns (ok: bool)
      modifies this`devices, this`source
      ensures ok <==> ReconnaissanceDeviceModel.MatchNames(allDevices, deviceNames).1 &&
                      |ReconnaissanceDeviceModel.MatchNames(allDevices, deviceNames).0| >= 2 &&
                      RadiationSourceModel.FindByName(allSources, sourceName).Some?
      ensures devices == ReconnaissanceDeviceModel.MatchNames(allDevices, deviceNames).0
      ensures ok ==> source == RadiationSourceModel.FindByName(allSources, sourceName).value
      ensures !ok ==> source == old(source)
    {
      ok := LoadDeviceInfo(allDevices);
      if ok {
        ok := LoadSourceInfo(allSources);
      }
    }

    /** calculate: load both tables; then put station 2 and the target at
        station 1's height, intersect the two measured bearings and store
        the fix and its horizontal error. `error1` and `error2` are the
        drawn bearing errors in degrees. */
    method Calculate(m: Math, allDevices: seq<ReconnaissanceDeviceModel.Device>,
                     allSources: seq<RadiationSourceModel.Source>,
                     error1: real, error2: real) returns (ok: bool)
      requires Lawful(m)
      modifies this`devices, this`source, this`result, this`isInitialized
      ensures ok <==> ReconnaissanceDeviceModel.MatchNames(allDevices, deviceNames).1 &&
                      |ReconnaissanceDeviceModel.MatchNames(allDevices, deviceNames).0| >= 2 &&
                      RadiationSourceModel.FindByName(allSources, sourceName).Some?
      ensures !ok ==> result == old(result) && isInitialized == old(isInitialized)
      ensures ok ==> isInitialized && result.error >= 0.0
      ensures devices == ReconnaissanceDeviceModel.MatchNames(allDevices, deviceNames).0
      ensures ok ==> source == RadiationSourceModel.FindByName(allSources, sourceName).value
      ensures !ok ==> source == old(source)
      ensures ok ==> |devices| >= 2 && result == TwoStationFix(m, devices[0], devices[1], source, error1, error2)
    {
      ok := LoadInputs(allDevices, allSources);
      if !ok {
        return;
      }
      result := Locate(m, devices[0], devices[1], source, error1, error2);
      isInitialized := true;
      return true;
    }
  }
}
